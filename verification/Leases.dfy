/**
 Mutation leases. A lease is one row of a table that is never deleted from; a row's
 identifier is its place in insertion order. Acquire, validate and release are one
 transaction each, with a clock reading taken before the transaction starts.
 */
module Leases {
  import opened Common
  import opened Devices

  type LeaseId = nat

  datatype Lease = Lease(device: DeviceId, owner: string, created: Time, expires: Time, released: Option<Time>)

  type History = seq<Lease>

  datatype Outcome =
    | Granted(id: LeaseId)
    | Rejected      // empty owner, nonpositive TTL, or an expired lease
    | Conflict      // another active lease owns the device
    | IntegrityFailure
    | Valid
    | Invalid
    | Released

  predicate Open(h: History, d: DeviceId, i: nat) {
    i < |h| && h[i].device == d && h[i].released.None?
  }

  predicate Active(h: History, d: DeviceId, now: Time, i: nat) {
    Open(h, d, i) && h[i].expires > now
  }

  /** The row `get_active` returns: some unreleased, unexpired row of the device. */
  function GetActive(h: History, d: DeviceId, now: Time): (r: Option<LeaseId>)
    ensures r.Some? ==> Active(h, d, now, r.value)
    ensures r.None? ==> forall i: nat :: !Active(h, d, now, i)
  {
    if h == [] then None
    else
      var last := |h| - 1;
      if Active(h, d, now, last) then Some(last)
      else
        var r := GetActive(h[..last], d, now);
        assert forall i: nat :: i < last ==> h[..last][i] == h[i];
        assert forall i: nat :: Active(h, d, now, i) ==> i == last || Active(h[..last], d, now, i);
        r
  }

  /** Expired unreleased rows of the device become released as of their expiry. */
  function Retire(h: History, d: DeviceId, now: Time): History {
    seq(|h|, i requires 0 <= i < |h| =>
      if h[i].device == d && h[i].released.None? && h[i].expires <= now
      then h[i].(released := Some(h[i].expires)) else h[i])
  }

  /** `LeaseService.acquire` with the transaction of `LeaseRepository.acquire`; errors roll it back. */
  function Acquire(h: History, d: DeviceId, owner: string, now: Time, ttl: Time): (History, Outcome) {
    if owner == "" || ttl <= 0 then (h, Rejected)
    else
      var retired := Retire(h, d, now);
      if GetActive(retired, d, now).Some? then (h, Conflict)
      else if exists i :: 0 <= i < |retired| && Open(retired, d, i) then (h, IntegrityFailure)
      else (retired + [Lease(d, owner, now, now + ttl, None)], Granted(|h|))
  }

  predicate Validates(h: History, id: LeaseId, d: DeviceId, owner: string, now: Time) {
    id < |h| && h[id].device == d && h[id].owner == owner && h[id].released.None? && h[id].expires > now
  }

  /** `LeaseService.release`: expiry does not matter, being released already does. */
  function Release(h: History, id: LeaseId, owner: string, now: Time): (History, Outcome) {
    if id < |h| && h[id].owner == owner && h[id].released.None?
    then (h[id := h[id].(released := Some(now))], Released)
    else (h, Invalid)
  }

  // ---------------------------------------------------------------- the table, updated in place

  class LeaseService {
    var rows: History

    constructor ()
      ensures rows == []
    {
      rows := [];
    }

    method FindActive(d: DeviceId, now: Time) returns (r: Option<LeaseId>)
      ensures r == GetActive(rows, d, now)
    {
      var i := |rows|;
      assert rows[..i] == rows;
      while i > 0
        invariant 0 <= i <= |rows|
        invariant GetActive(rows, d, now) == GetActive(rows[..i], d, now)
      {
        var row := rows[i - 1];
        assert rows[..i][..i - 1] == rows[..i - 1];
        if row.device == d && row.released.None? && row.expires > now {
          return Some(i - 1);
        }
        i := i - 1;
      }
      return None;
    }

    method RetireExpired(d: DeviceId, now: Time)
      modifies this
      ensures rows == Retire(old(rows), d, now)
    {
      var i := 0;
      while i < |rows|
        invariant 0 <= i <= |rows| == |old(rows)|
        invariant forall k :: 0 <= k < i ==> rows[k] == Retire(old(rows), d, now)[k]
        invariant forall k :: i <= k < |rows| ==> rows[k] == old(rows)[k]
      {
        if rows[i].device == d && rows[i].released.None? && rows[i].expires <= now {
          rows := rows[i := rows[i].(released := Some(rows[i].expires))];
        }
        i := i + 1;
      }
    }

    method AcquireLease(d: DeviceId, owner: string, now: Time, ttl: Time) returns (r: Outcome)
      modifies this
      ensures (rows, r) == Acquire(old(rows), d, owner, now, ttl)
    {
      if owner == "" || ttl <= 0 {
        return Rejected;
      }
      var before := rows;
      RetireExpired(d, now);
      var active := FindActive(d, now);
      if active.Some? {
        rows := before;
        return Conflict;
      }
      var i := 0;
      while i < |rows|
        invariant 0 <= i <= |rows|
        invariant rows == Retire(before, d, now)
        invariant forall k :: 0 <= k < i ==> !Open(rows, d, k)
      {
        if rows[i].device == d && rows[i].released.None? {
          assert Open(rows, d, i);
          rows := before;
          return IntegrityFailure;
        }
        i := i + 1;
      }
      var id := |rows|;
      rows := rows + [Lease(d, owner, now, now + ttl, None)];
      return Granted(id);
    }

    method ValidateLease(id: LeaseId, d: DeviceId, owner: string, now: Time) returns (r: Option<Lease>)
      ensures r.Some? <==> Validates(rows, id, d, owner, now)
      ensures r.Some? ==> id < |rows| && r.value == rows[id]
    {
      if id >= |rows| {
        return None;
      }
      var lease := rows[id];
      if lease.device != d || lease.owner != owner || lease.released.Some? || lease.expires <= now {
        return None;
      }
      return Some(lease);
    }

    method ReleaseLease(id: LeaseId, owner: string, now: Time) returns (r: Outcome)
      modifies this
      ensures (rows, r) == Release(old(rows), id, owner, now)
    {
      if id >= |rows| || rows[id].owner != owner || rows[id].released.Some? {
        return Invalid;
      }
      rows := rows[id := rows[id].(released := Some(now))];
      return Released;
    }
  }

  // ---------------------------------------------------------------- runs

  datatype LeaseCall =
    | AcquireCall(d: DeviceId, owner: string, now: Time, ttl: Time)
    | ValidateCall(id: LeaseId, d: DeviceId, owner: string, now: Time)
    | ReleaseCall(id: LeaseId, owner: string, now: Time)

  /** One committed transaction, whichever caller it belongs to. */
  function Commit(h: History, c: LeaseCall): (History, Outcome) {
    match c
    case AcquireCall(d, owner, now, ttl) => Acquire(h, d, owner, now, ttl)
    case ValidateCall(id, d, owner, now) => (h, if Validates(h, id, d, owner, now) then Valid else Invalid)
    case ReleaseCall(id, owner, now) => Release(h, id, owner, now)
  }

  /** The table after transactions committed in the order of `cs`. */
  function After(h: History, cs: seq<LeaseCall>): History
    decreases |cs|
  {
    if cs == [] then h else After(Commit(h, cs[0]).0, cs[1..])
  }

  function Outcomes(h: History, cs: seq<LeaseCall>): seq<Outcome>
    decreases |cs|
  {
    if cs == [] then [] else [Commit(h, cs[0]).1] + Outcomes(Commit(h, cs[0]).0, cs[1..])
  }

  // ---------------------------------------------------------------- fencing, for any clock readings

  /** A lease that is not the newest of its device has been released. */
  ghost predicate OnlyNewestOpen(h: History) {
    forall i, j :: 0 <= i < j < |h| && h[i].device == h[j].device ==> h[i].released.Some?
  }

  /** Rows are never removed or rewritten; `released` is written at most once. */
  ghost predicate Extends(h: History, later: History) {
    && |h| <= |later|
    && forall i :: 0 <= i < |h| ==>
         && later[i].(released := None) == h[i].(released := None)
         && (h[i].released.Some? ==> later[i] == h[i])
  }

  /** With no active lease left, retiring leaves no unreleased row of the device. */
  lemma RetireCloses(h: History, d: DeviceId, now: Time)
    requires GetActive(Retire(h, d, now), d, now).None?
    ensures forall i: nat :: !Open(Retire(h, d, now), d, i)
  {
    var retired := Retire(h, d, now);
    forall i: nat | Open(retired, d, i)
      ensures Active(retired, d, now, i)
    {
    }
  }

  /** Retiring writes exactly the expired unreleased rows of the device, and dates them to their expiry. */
  lemma RetireWrites(h: History, d: DeviceId, now: Time, i: nat)
    requires i < |h|
    ensures var after := Retire(h, d, now);
            && |after| == |h| && after[i].(released := h[i].released) == h[i]
            && (Open(h, d, i) && h[i].expires <= now ==> after[i].released == Some(h[i].expires))
            && (!(Open(h, d, i) && h[i].expires <= now) ==> after[i] == h[i])
  {
  }

  lemma AcquireKeeps(h: History, d: DeviceId, owner: string, now: Time, ttl: Time)
    requires OnlyNewestOpen(h)
    ensures var (h', outcome) := Acquire(h, d, owner, now, ttl);
            OnlyNewestOpen(h') && Extends(h, h') && !outcome.IntegrityFailure?
  {
    var (h', outcome) := Acquire(h, d, owner, now, ttl);
    var retired := Retire(h, d, now);
    if GetActive(retired, d, now).None? {
      RetireCloses(h, d, now);
      if outcome.Granted? {
        forall i, j | 0 <= i < j < |h'| && h'[i].device == h'[j].device
          ensures h'[i].released.Some?
        {
          assert h'[i] == retired[i];
          assert !Open(retired, d, i);
        }
      }
    }
  }

  lemma CommitKeeps(h: History, c: LeaseCall)
    requires OnlyNewestOpen(h)
    ensures OnlyNewestOpen(Commit(h, c).0) && Extends(h, Commit(h, c).0)
    ensures !Commit(h, c).1.IntegrityFailure?
  {
    if c.AcquireCall? {
      AcquireKeeps(h, c.d, c.owner, c.now, c.ttl);
    }
  }

  lemma ExtendsTransitive(a: History, b: History, c: History)
    requires Extends(a, b) && Extends(b, c)
    ensures Extends(a, c)
  {
    forall i | 0 <= i < |a|
      ensures c[i].(released := None) == a[i].(released := None)
      ensures a[i].released.Some? ==> c[i] == a[i]
    {
      assert b[i].(released := None) == a[i].(released := None);
    }
  }

  lemma {:induction false} AfterKeeps(h: History, cs: seq<LeaseCall>)
    requires OnlyNewestOpen(h)
    ensures OnlyNewestOpen(After(h, cs)) && Extends(h, After(h, cs))
    decreases |cs|
  {
    if cs != [] {
      CommitKeeps(h, cs[0]);
      AfterKeeps(Commit(h, cs[0]).0, cs[1..]);
      ExtendsTransitive(h, Commit(h, cs[0]).0, After(h, cs));
    }
  }

  /** The unique index on unreleased rows is never violated, and at most one row is open per device. */
  lemma OneOpenLeasePerDevice(cs: seq<LeaseCall>, c: LeaseCall, i: nat, j: nat, d: DeviceId)
    requires Open(After([], cs), d, i) && Open(After([], cs), d, j)
    ensures i == j
    ensures !Commit(After([], cs), c).1.IntegrityFailure?
  {
    AfterKeeps([], cs);
    CommitKeeps(After([], cs), c);
  }

  /** `released` is written once: nothing that commits later changes a released row. */
  lemma ReleasedOnce(cs: seq<LeaseCall>, more: seq<LeaseCall>, i: nat)
    requires i < |After([], cs)| && After([], cs)[i].released.Some?
    ensures i < |After(After([], cs), more)| && After(After([], cs), more)[i] == After([], cs)[i]
  {
    AfterKeeps([], cs);
    AfterKeeps(After([], cs), more);
  }

  /** Once a newer lease exists on its device, a lease never validates again, whatever the clocks read. */
  lemma Fencing(cs: seq<LeaseCall>, more: seq<LeaseCall>, older: nat, newer: nat,
                d: DeviceId, owner: string, now: Time)
    requires older < newer < |After([], cs)|
    requires After([], cs)[older].device == After([], cs)[newer].device
    ensures !Validates(After(After([], cs), more), older, d, owner, now)
  {
    AfterKeeps([], cs);
    ReleasedOnce(cs, more, older);
  }

  lemma OnlyActiveValidates(h: History, id: LeaseId, d: DeviceId, owner: string, now: Time)
    requires OnlyNewestOpen(h)
    ensures Validates(h, id, d, owner, now) <==> GetActive(h, d, now) == Some(id) && h[id].owner == owner
  {
    if Validates(h, id, d, owner, now) {
      assert Active(h, d, now, id);
      var r := GetActive(h, d, now);
      assert r.Some? && Open(h, d, r.value);
    }
  }

  /** `validate` accepts exactly the row `get_active` returns, from its owner. */
  lemma ValidatesIffActive(cs: seq<LeaseCall>, id: LeaseId, d: DeviceId, owner: string, now: Time)
    ensures var h := After([], cs);
            Validates(h, id, d, owner, now) <==> GetActive(h, d, now) == Some(id) && h[id].owner == owner
  {
    AfterKeeps([], cs);
    OnlyActiveValidates(After([], cs), id, d, owner, now);
  }

  // ---------------------------------------------------------------- refinement of a lock

  datatype Holder = Holder(id: LeaseId, owner: string, deadline: Time)

  /** One slot per device; `next` is the identifier the next grant receives. */
  datatype Lock = Lock(slots: map<DeviceId, Holder>, next: LeaseId)

  function LockCommit(lock: Lock, c: LeaseCall): (Lock, Outcome) {
    match c
    case AcquireCall(d, owner, now, ttl) =>
      if owner == "" || ttl <= 0 then (lock, Rejected)
      else if d in lock.slots && lock.slots[d].deadline > now then (lock, Conflict)
      else (Lock(lock.slots[d := Holder(lock.next, owner, now + ttl)], lock.next + 1), Granted(lock.next))
    case ValidateCall(id, d, owner, now) =>
      (lock, if d in lock.slots && lock.slots[d].id == id && lock.slots[d].owner == owner
                && lock.slots[d].deadline > now
             then Valid else Invalid)
    case ReleaseCall(id, owner, now) =>
      if exists d :: d in lock.slots && lock.slots[d].id == id && lock.slots[d].owner == owner
      then (lock.(slots := map d | d in lock.slots && lock.slots[d].id != id :: lock.slots[d]), Released)
      else (lock, Invalid)
  }

  function LockOutcomes(lock: Lock, cs: seq<LeaseCall>): seq<Outcome>
    decreases |cs|
  {
    if cs == [] then [] else [LockCommit(lock, cs[0]).1] + LockOutcomes(LockCommit(lock, cs[0]).0, cs[1..])
  }

  /** The slot of a device holds exactly its unreleased row. */
  ghost predicate Refines(h: History, lock: Lock) {
    && lock.next == |h|
    && (forall i :: 0 <= i < |h| && h[i].released.None? ==>
          h[i].device in lock.slots && lock.slots[h[i].device] == Holder(i, h[i].owner, h[i].expires))
    && (forall d :: d in lock.slots ==> lock.slots[d].id < |h| && Open(h, d, lock.slots[d].id))
  }

  lemma RefinesAcquire(h: History, lock: Lock, d: DeviceId, owner: string, now: Time, ttl: Time)
    requires OnlyNewestOpen(h) && Refines(h, lock)
    ensures var c := AcquireCall(d, owner, now, ttl);
            Refines(Commit(h, c).0, LockCommit(lock, c).0) && Commit(h, c).1 == LockCommit(lock, c).1
  {
    var c := AcquireCall(d, owner, now, ttl);
    CommitKeeps(h, c);
    var retired := Retire(h, d, now);
    if d in lock.slots && lock.slots[d].deadline > now {
      assert Active(retired, d, now, lock.slots[d].id);
    } else {
      assert GetActive(retired, d, now).Some? ==> h[GetActive(retired, d, now).value].released.None?;
    }
  }

  lemma RefinesStep(h: History, lock: Lock, c: LeaseCall)
    requires OnlyNewestOpen(h) && Refines(h, lock)
    ensures Refines(Commit(h, c).0, LockCommit(lock, c).0)
    ensures Commit(h, c).1 == LockCommit(lock, c).1
  {
    match c
    case AcquireCall(d, owner, now, ttl) => RefinesAcquire(h, lock, d, owner, now, ttl);
    case ValidateCall(id, d, owner, now) =>
    case ReleaseCall(id, owner, now) =>
      if id < |h| && h[id].released.None? {
        assert h[id].device in lock.slots;
      }
  }

  /** The lease table gives every sequence of calls the answers of a per-device expiring lock. */
  lemma {:induction false} TableRefinesLock(h: History, lock: Lock, cs: seq<LeaseCall>)
    requires OnlyNewestOpen(h) && Refines(h, lock)
    ensures Outcomes(h, cs) == LockOutcomes(lock, cs)
    decreases |cs|
  {
    if cs != [] {
      RefinesStep(h, lock, cs[0]);
      CommitKeeps(h, cs[0]);
      TableRefinesLock(Commit(h, cs[0]).0, LockCommit(lock, cs[0]).0, cs[1..]);
    }
  }

  lemma LeasesAreALock(cs: seq<LeaseCall>)
    ensures Outcomes([], cs) == LockOutcomes(Lock(map[], 0), cs)
  {
    TableRefinesLock([], Lock(map[], 0), cs);
  }

  // ---------------------------------------------------------------- disjoint ownership, for ordered readings

  /** The instant a lease stops conferring ownership. */
  function End(l: Lease): Time {
    if l.released.Some? && l.released.value < l.expires then l.released.value else l.expires
  }

  /** The device on which a grant or a release took effect. */
  function Affected(h: History, c: LeaseCall): Option<DeviceId> {
    match c
    case AcquireCall(d, _, _, _) => if Commit(h, c).1.Granted? then Some(d) else None
    case ValidateCall(_, _, _, _) => None
    case ReleaseCall(id, _, _) => if Commit(h, c).1.Released? && id < |h| then Some(h[id].device) else None
  }

  /** The latest reading used on each device, after `c`. */
  function Latest(h: History, last: map<DeviceId, Time>, c: LeaseCall): map<DeviceId, Time> {
    match Affected(h, c)
    case None => last
    case Some(d) => last[d := c.now]
  }

  /** On each device, grants and releases use nondecreasing readings in commit order. */
  predicate Ordered(h: History, last: map<DeviceId, Time>, cs: seq<LeaseCall>)
    decreases |cs|
  {
    cs != [] ==>
      && (Affected(h, cs[0]).Some? && Affected(h, cs[0]).value in last ==> last[Affected(h, cs[0]).value] <= cs[0].now)
      && Ordered(Commit(h, cs[0]).0, Latest(h, last, cs[0]), cs[1..])
  }

  ghost predicate Separated(h: History, last: map<DeviceId, Time>) {
    && OnlyNewestOpen(h)
    && (forall i :: 0 <= i < |h| ==> h[i].device in last)
    && (forall i :: 0 <= i < |h| && h[i].released.Some? ==> End(h[i]) <= last[h[i].device])
    && (forall i, j :: 0 <= i < j < |h| && h[i].device == h[j].device ==> End(h[i]) <= h[j].created)
  }

  lemma SeparatedStep(h: History, last: map<DeviceId, Time>, c: LeaseCall)
    requires Separated(h, last)
    requires Affected(h, c).Some? && Affected(h, c).value in last ==> last[Affected(h, c).value] <= c.now
    ensures Separated(Commit(h, c).0, Latest(h, last, c))
  {
    CommitKeeps(h, c);
    if c.AcquireCall? && Commit(h, c).1.Granted? {
      var h' := Commit(h, c).0;
      var retired := Retire(h, c.d, c.now);
      RetireCloses(h, c.d, c.now);
      forall i | 0 <= i < |h| && h[i].device == c.d
        ensures h'[i].released.Some? && End(h'[i]) <= c.now
      {
        assert h'[i] == retired[i] && !Open(retired, c.d, i);
      }
      forall i | 0 <= i < |h|
        ensures h'[i].device == h[i].device && h'[i].created == h[i].created && End(h'[i]) <= End(h[i])
        ensures h[i].device != c.d ==> h'[i] == h[i]
      {
        assert h'[i] == retired[i];
      }
    }
  }

  lemma {:induction false} SeparatedAfter(h: History, last: map<DeviceId, Time>, cs: seq<LeaseCall>)
    returns (after: map<DeviceId, Time>)
    requires Separated(h, last) && Ordered(h, last, cs)
    ensures Separated(After(h, cs), after)
    decreases |cs|
  {
    if cs != [] {
      SeparatedStep(h, last, cs[0]);
      after := SeparatedAfter(Commit(h, cs[0]).0, Latest(h, last, cs[0]), cs[1..]);
    } else {
      after := last;
    }
  }

  predicate OwnsAt(l: Lease, t: Time) {
    l.created <= t < End(l)
  }

  /** With ordered readings, no two leases ever granted on a device own it at the same instant. */
  lemma OwnershipIsDisjoint(cs: seq<LeaseCall>, i: nat, j: nat, t: Time)
    requires Ordered([], map[], cs)
    requires i < |After([], cs)| && j < |After([], cs)| && i != j
    requires After([], cs)[i].device == After([], cs)[j].device
    ensures !(OwnsAt(After([], cs)[i], t) && OwnsAt(After([], cs)[j], t))
  {
    var _ := SeparatedAfter([], map[], cs);
  }

  /** Why the readings must be ordered: a caller that read the clock early commits after a release. */
  lemma LateCommitOverlaps()
    ensures var cs := [AcquireCall(0, "a", 0, 10), ReleaseCall(0, "a", 8), AcquireCall(0, "b", 5, 10)];
            var h := After([], cs);
            && Outcomes([], cs) == [Granted(0), Released, Granted(1)]
            && !Ordered([], map[], cs)
            && |h| == 2 && h[0].device == h[1].device && OwnsAt(h[0], 6) && OwnsAt(h[1], 6)
  {
  }

  // ---------------------------------------------------------------- exactly when ownership stays disjoint

  /** No two leases of one device own it at the same instant. */
  ghost predicate Disjoint(h: History) {
    forall i, j, t | 0 <= i < j < |h| && h[i].device == h[j].device :: !(OwnsAt(h[i], t) && OwnsAt(h[j], t))
  }

  /** A lease granted now for `ttl` would own no instant that `l` owned. */
  predicate Apart(l: Lease, now: Time, ttl: Time) {
    End(l) <= l.created || End(l) <= now || now + ttl <= l.created
  }

  /** The guard: a grant is apart from every earlier lease of its device. */
  predicate Clears(h: History, c: LeaseCall) {
    c.AcquireCall? && Commit(h, c).1.Granted? ==>
      forall i | 0 <= i < |h| && h[i].device == c.d :: Apart(h[i], c.now, c.ttl)
  }

  /** Retiring and releasing move no start, and only bring ends forward. */
  lemma EndsOnlyShrink(h: History, c: LeaseCall, i: nat)
    requires i < |h|
    ensures var h' := Commit(h, c).0;
            && |h| <= |h'| && h'[i].device == h[i].device && h'[i].created == h[i].created
            && End(h'[i]) <= End(h[i]) && (c.AcquireCall? ==> End(h'[i]) == End(h[i]))
  {
    if c.AcquireCall? {
      assert Commit(h, c).0[i] == h[i] || Commit(h, c).0[i] == Retire(h, c.d, c.now)[i];
    }
  }

  lemma GrantClearsIff(h: History, c: LeaseCall)
    requires Disjoint(h) && c.AcquireCall? && Commit(h, c).1.Granted?
    ensures Disjoint(Commit(h, c).0) <==> Clears(h, c)
  {
    var h' := Commit(h, c).0;
    assert |h'| == |h| + 1 && h'[|h|] == Lease(c.d, c.owner, c.now, c.now + c.ttl, None);
    forall i | 0 <= i < |h|
      ensures h'[i].device == h[i].device && h'[i].created == h[i].created && End(h'[i]) == End(h[i])
    {
      EndsOnlyShrink(h, c, i);
    }
    if Disjoint(h') {
      forall i | 0 <= i < |h| && h[i].device == c.d
        ensures Apart(h[i], c.now, c.ttl)
      {
        var t := if h[i].created < c.now then c.now else h[i].created;
        assert !(OwnsAt(h'[i], t) && OwnsAt(h'[|h|], t));
      }
    }
    if Clears(h, c) {
      forall i, j, t | 0 <= i < j < |h'| && h'[i].device == h'[j].device
        ensures !(OwnsAt(h'[i], t) && OwnsAt(h'[j], t))
      {
        if j < |h| {
          assert !(OwnsAt(h[i], t) && OwnsAt(h[j], t));
        } else {
          assert Apart(h[i], c.now, c.ttl);
        }
      }
    }
  }

  /** With ownership disjoint so far, a call keeps it so if and only if it passes the guard. */
  lemma {:induction false} KeepsDisjointIff(h: History, c: LeaseCall)
    requires Disjoint(h)
    ensures Disjoint(Commit(h, c).0) <==> Clears(h, c)
  {
    if c.AcquireCall? && Commit(h, c).1.Granted? {
      GrantClearsIff(h, c);
    } else {
      var h' := Commit(h, c).0;
      assert |h'| == |h|;
      forall i, j, t | 0 <= i < j < |h'| && h'[i].device == h'[j].device
        ensures !(OwnsAt(h'[i], t) && OwnsAt(h'[j], t))
      {
        EndsOnlyShrink(h, c, i);
        EndsOnlyShrink(h, c, j);
        assert !(OwnsAt(h[i], t) && OwnsAt(h[j], t));
      }
    }
  }

  lemma {:induction false} AfterNext(h: History, cs: seq<LeaseCall>, c: LeaseCall)
    ensures After(h, cs + [c]) == Commit(After(h, cs), c).0
    decreases |cs|
  {
    if cs == [] {
      assert ([] + [c])[1..] == [];
    } else {
      assert (cs + [c])[1..] == cs[1..] + [c];
      AfterNext(Commit(h, cs[0]).0, cs[1..], c);
    }
  }

  lemma {:induction false} DisjointWhileCleared(cs: seq<LeaseCall>, n: nat)
    requires n <= |cs| && forall k | 0 <= k < n :: Clears(After([], cs[..k]), cs[k])
    ensures Disjoint(After([], cs[..n]))
  {
    if n > 0 {
      DisjointWhileCleared(cs, n - 1);
      assert cs[..n] == cs[..n - 1] + [cs[n - 1]];
      AfterNext([], cs[..n - 1], cs[n - 1]);
      KeepsDisjointIff(After([], cs[..n - 1]), cs[n - 1]);
    }
  }

  /** Whatever the clocks read, ownership stays disjoint throughout exactly if every grant passes the guard. */
  lemma DisjointThroughoutIff(cs: seq<LeaseCall>)
    ensures (forall n | 0 <= n <= |cs| :: Disjoint(After([], cs[..n])))
            <==> (forall k | 0 <= k < |cs| :: Clears(After([], cs[..k]), cs[k]))
  {
    if forall k | 0 <= k < |cs| :: Clears(After([], cs[..k]), cs[k]) {
      forall n | 0 <= n <= |cs|
        ensures Disjoint(After([], cs[..n]))
      {
        DisjointWhileCleared(cs, n);
      }
    }
    if forall n | 0 <= n <= |cs| :: Disjoint(After([], cs[..n])) {
      forall k | 0 <= k < |cs|
        ensures Clears(After([], cs[..k]), cs[k])
      {
        assert cs[..k + 1] == cs[..k] + [cs[k]];
        AfterNext([], cs[..k], cs[k]);
        assert Disjoint(After([], cs[..k + 1]));
        KeepsDisjointIff(After([], cs[..k]), cs[k]);
      }
    }
  }

  /** Ordered readings are not the only way: here they go backwards, and the guard still holds. */
  lemma UnorderedCanBeDisjoint()
    ensures var cs := [AcquireCall(0, "a", 0, 5), ReleaseCall(0, "a", 20), AcquireCall(0, "b", 10, 10)];
            !Ordered([], map[], cs) && |After([], cs)| == 2 && Disjoint(After([], cs))
  {
  }
}
