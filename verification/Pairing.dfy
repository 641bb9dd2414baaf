/**
 Pairing codes: creation with a retry on locator collision, and redemption, which spends an
 attempt before it verifies and creates at most one device per code. The password hash is
 the abstract predicate `verify`; the text of a code is taken after trimming and upper-casing.
 */
module Pairing {
  import opened Common
  import opened Devices

  datatype Code = Code(
    locator: Option<string>,
    hash: nat,
    created: Time,
    expires: Time,
    attempts: nat,
    maxAttempts: nat,
    usedAt: Option<Time>,
    redeemed: Option<DeviceId>)
  {
    /** The `WHERE` clause of `begin_attempt`, locator aside. */
    predicate Live(now: Time) { expires > now && usedAt.None? && attempts < maxAttempts }
  }

  /** A credential handed to a client: the code it redeemed and the device it controls. */
  datatype Credential = Credential(code: nat, device: DeviceId)

  /** `issued` is history, in order of issue. Codes are numbered in insertion order. */
  datatype Db = Db(codes: seq<Code>, devices: Table, issued: seq<Credential>)

  type Verify = (nat, string) -> bool

  // ---------------------------------------------------------------- the text of a code

  predicate InAlphabet(c: char) {
    ('A' <= c <= 'H') || ('J' <= c <= 'N') || ('P' <= c <= 'Z') || ('2' <= c <= '9')
  }

  const ALPHABET: string := "ABCDEFGHJKLMNPQRSTUVWXYZ23456789"

  /** Where a character stands in the alphabet, if it does. */
  function Place(c: char): nat {
    var n := c as int;
    if 50 <= n <= 57 then n - 26
    else if 65 <= n <= 72 then n - 65
    else if 74 <= n <= 78 then n - 66
    else if 80 <= n <= 90 then n - 67
    else 32
  }

  /** The pattern accepts exactly the characters that codes are drawn from. */
  lemma AlphabetIs(c: char)
    ensures InAlphabet(c) <==> c in ALPHABET
  {
    assert InAlphabet(c) <==> Place(c) < 32;
    if Place(c) < 32 {
      assert ALPHABET[Place(c)] == c;
    }
  }

  predicate IsGroup(s: string) {
    |s| == 4 && forall i :: 0 <= i < 4 ==> InAlphabet(s[i])
  }

  predicate IsCode(s: string) {
    |s| == 14 && s[4] == '-' && s[9] == '-' && IsGroup(s[..4]) && IsGroup(s[5..9]) && IsGroup(s[10..])
  }

  /** `code.split("-", 1)[0]`. */
  function Locator(code: string): string {
    if code == "" || code[0] == '-' then "" else [code[0]] + Locator(code[1..])
  }

  /** A well-formed code is looked up under its first group. */
  lemma LocatorOfCode(code: string)
    requires IsCode(code)
    ensures Locator(code) == code[..4]
  {
    assert code[1..][1..] == code[2..] && code[2..][1..] == code[3..] && code[3..][1..] == code[4..];
    var group := code[..4];
    assert forall i :: 0 <= i < 4 ==> group[i] == code[i] && InAlphabet(group[i]);
    assert code[0] != '-' && code[1] != '-' && code[2] != '-' && code[3] != '-' && code[4..][0] == '-';
    calc {
      Locator(code);
      [code[0]] + Locator(code[1..]);
      [code[0]] + ([code[1]] + Locator(code[2..]));
      [code[0]] + ([code[1]] + ([code[2]] + Locator(code[3..])));
      [code[0]] + ([code[1]] + ([code[2]] + ([code[3]] + Locator(code[4..]))));
      code[..4];
    }
  }

  // ---------------------------------------------------------------- transactions

  predicate Matches(db: Db, locator: string, now: Time, i: nat) {
    i < |db.codes| && db.codes[i].locator == Some(locator) && db.codes[i].Live(now)
  }

  /** The row `begin_attempt` updates. */
  function Match(codes: seq<Code>, locator: string, now: Time): (r: Option<nat>)
    ensures r.Some? ==> Matches(Db(codes, map[], []), locator, now, r.value)
    ensures r.None? ==> forall i: nat :: !Matches(Db(codes, map[], []), locator, now, i)
  {
    if codes == [] then None
    else
      var last := |codes| - 1;
      if codes[last].locator == Some(locator) && codes[last].Live(now) then Some(last)
      else
        var r := Match(codes[..last], locator, now);
        assert forall i: nat :: Matches(Db(codes, map[], []), locator, now, i) ==>
                 i == last || Matches(Db(codes[..last], map[], []), locator, now, i);
        r
  }

  datatype Redemption = Redemption(
    code: string,
    started: Time,     // the clock before `begin_attempt`
    verified: Time,    // the clock after the verification
    device: DeviceId,  // the fresh identifier of the device to be created
    capabilities: set<Capability>,
    tokenHash: nat,
    commits: bool)

  /** The code whose attempt a redemption spends, unless it rolls back. */
  function Target(db: Db, r: Redemption): Option<nat> {
    if !IsGroup(Locator(r.code)) then None else Match(db.codes, Locator(r.code), r.started)
  }

  predicate Succeeds(db: Db, r: Redemption, verify: Verify) {
    && r.commits && Target(db, r).Some?
    && var c := db.codes[Target(db, r).value];
       IsCode(r.code) && verify(c.hash, r.code) && c.expires > r.verified
  }

  /**
   The redemption proves knowledge of this code: it commits, its text is a whole code with this
   locator that the hash verifies, and the code is live when it starts and unexpired afterwards.
   */
  predicate Earns(c: Code, r: Redemption, verify: Verify) {
    && r.commits && IsCode(r.code) && c.locator == Some(r.code[..4])
    && c.usedAt.None? && c.attempts < c.maxAttempts && c.expires > r.started
    && verify(c.hash, r.code) && c.expires > r.verified
  }

  function NewDevice(r: Redemption): Device {
    Device(Offline, ReadOnly, r.capabilities, r.tokenHash, None, None)
  }

  /** `redeem`: everything inside one transaction. */
  function Redeem(db: Db, r: Redemption, verify: Verify): (Db, Option<Credential>) {
    if !r.commits || Target(db, r).None? then (db, None)
    else
      var i := Target(db, r).value;
      var spent := db.codes[i].(attempts := db.codes[i].attempts + 1);
      if Succeeds(db, r, verify) then
        (Db(db.codes[i := spent.(usedAt := Some(r.verified), redeemed := Some(r.device))],
            db.devices[r.device := NewDevice(r)],
            db.issued + [Credential(i, r.device)]),
         Some(Credential(i, r.device)))
      else
        (db.(codes := db.codes[i := spent]), None)
  }

  datatype Insertion = Inserted | LocatorTaken | HashCollision

  predicate Taken(codes: seq<Code>, locator: string) {
    exists i :: 0 <= i < |codes| && codes[i].locator == Some(locator)
  }

  predicate HashUsed(codes: seq<Code>, hash: nat) {
    exists i :: 0 <= i < |codes| && codes[i].hash == hash
  }

  function AddUnique(codes: seq<Code>, c: Code): (seq<Code>, Insertion) {
    if c.locator.Some? && Taken(codes, c.locator.value) then (codes, LocatorTaken)
    else if HashUsed(codes, c.hash) then (codes, HashCollision)
    else (codes + [c], Inserted)
  }

  /** One round of `create_code`: random characters, their hash, and the clock. */
  datatype Draw = Draw(raw: string, hash: nat, now: Time)

  function Record(d: Draw, ttl: Time, limit: nat): Code {
    Code(Some(if |d.raw| >= 4 then d.raw[..4] else d.raw), d.hash, d.now, d.now + ttl, 0, limit, None, None)
  }

  const ROUNDS: nat := 20

  class PairingService {
    const ttl: Time
    const limit: nat
    var codes: seq<Code>
    var devices: Table
    var issued: seq<Credential>

    ghost function State(): Db reads this { Db(codes, devices, issued) }

    constructor (ttl: Time, limit: nat, devices: Table)
      requires ttl > 0 && limit >= 1
      ensures this.ttl == ttl && this.limit == limit && State() == Db([], devices, [])
    {
      this.ttl, this.limit := ttl, limit;
      codes, this.devices, issued := [], devices, [];
    }

    method AddUniqueLocator(c: Code) returns (r: Insertion)
      modifies this`codes
      ensures (codes, r) == AddUnique(old(codes), c)
    {
      var i, collision := 0, false;
      while i < |codes|
        invariant 0 <= i <= |codes|
        invariant c.locator.Some? ==> !Taken(codes[..i], c.locator.value)
        invariant collision <==> HashUsed(codes[..i], c.hash)
      {
        assert codes[..i + 1] == codes[..i] + [codes[i]];
        if c.locator.Some? && codes[i].locator == c.locator {
          return LocatorTaken;
        }
        if codes[i].hash == c.hash {
          assert codes[..i + 1][i].hash == c.hash;
          collision := true;
        } else if collision {
          var k :| 0 <= k < i && codes[..i][k].hash == c.hash;
          assert codes[..i + 1][k].hash == c.hash;
        }
        i := i + 1;
      }
      assert codes[..i] == codes;
      if collision {
        return HashCollision;
      }
      codes := codes + [c];
      return Inserted;
    }

    /**
     Tries up to twenty locators. The offer is the first draw whose locator was free; no
     earlier code is replaced, and failure leaves the table as it was.
     */
    method CreateCode(draw: nat -> Draw) returns (offer: Option<nat>, raised: bool)
      modifies this`codes
      ensures offer.Some? ==>
                && !raised && offer.value < ROUNDS
                && codes == old(codes) + [Record(draw(offer.value), ttl, limit)]
                && !Taken(old(codes), Record(draw(offer.value), ttl, limit).locator.value)
                && forall k :: 0 <= k < offer.value ==> Taken(old(codes), Record(draw(k), ttl, limit).locator.value)
      ensures offer.None? ==>
                && codes == old(codes)
                && (!raised ==> forall k :: 0 <= k < ROUNDS ==>
                       Taken(old(codes), Record(draw(k), ttl, limit).locator.value))
    {
      for k := 0 to ROUNDS
        invariant codes == old(codes)
        invariant forall j :: 0 <= j < k ==> Taken(old(codes), Record(draw(j), ttl, limit).locator.value)
      {
        var inserted := AddUniqueLocator(Record(draw(k), ttl, limit));
        if inserted.Inserted? {
          return Some(k), false;
        }
        if inserted.HashCollision? {
          return None, true;
        }
      }
      return None, false;
    }

    /** Spends the attempt; the caller decides afterwards whether the code is right. */
    method BeginAttempt(locator: string, now: Time) returns (hit: Option<nat>)
      modifies this`codes
      ensures hit == Match(old(codes), locator, now)
      ensures codes == if hit.None? then old(codes)
                       else old(codes)[hit.value :=
                                           old(codes)[hit.value].(attempts := old(codes)[hit.value].attempts + 1)]
    {
      var i := |codes|;
      assert codes[..i] == codes;
      while i > 0
        invariant 0 <= i <= |codes|
        invariant codes == old(codes)
        invariant Match(codes, locator, now) == Match(codes[..i], locator, now)
      {
        assert codes[..i][..i - 1] == codes[..i - 1];
        var c := codes[i - 1];
        if c.locator == Some(locator) && c.expires > now && c.usedAt.None? && c.attempts < c.maxAttempts {
          codes := codes[i - 1 := c.(attempts := c.attempts + 1)];
          return Some(i - 1);
        }
        i := i - 1;
      }
      return None;
    }

    method RedeemCode(r: Redemption, verify: Verify) returns (credential: Option<Credential>)
      modifies this
      ensures (State(), credential) == Redeem(old(State()), r, verify)
      ensures credential.Some? ==>
                && credential.value.code < |old(codes)| && Earns(old(codes)[credential.value.code], r, verify)
                && credential.value.device == r.device && r.device in devices
    {
      credential := None;
      var locator := Locator(r.code);
      if !IsGroup(locator) {
        return;
      }
      var savedCodes, savedDevices, savedIssued := codes, devices, issued;
      var hit := BeginAttempt(locator, r.started);
      if IsCode(r.code) {
        LocatorOfCode(r.code);
      }
      if hit.Some? && IsCode(r.code) && verify(codes[hit.value].hash, r.code) {
        if codes[hit.value].expires > r.verified {
          assert savedCodes[hit.value := codes[hit.value]][hit.value :=
                      codes[hit.value].(usedAt := Some(r.verified), redeemed := Some(r.device))]
              == savedCodes[hit.value := codes[hit.value].(usedAt := Some(r.verified), redeemed := Some(r.device))];
          devices := devices[r.device := NewDevice(r)];
          codes := codes[hit.value := codes[hit.value].(usedAt := Some(r.verified), redeemed := Some(r.device))];
          credential := Some(Credential(hit.value, r.device));
          issued := issued + [Credential(hit.value, r.device)];
        }
      }
      if !r.commits {
        codes, devices, issued := savedCodes, savedDevices, savedIssued;
        credential := None;
      }
    }
  }

  // ---------------------------------------------------------------- runs

  datatype PairingCall = RedeemCall(r: Redemption) | OfferCall(c: Code)

  /** New rows start unspent and unused, and device identifiers are fresh. */
  predicate Admissible(db: Db, call: PairingCall) {
    match call
    case RedeemCall(r) => r.device !in db.devices
    case OfferCall(c) => c.attempts == 0 && c.maxAttempts > 0 && c.usedAt.None? && c.redeemed.None?
  }

  function Commit(db: Db, call: PairingCall, verify: Verify): Db {
    match call
    case RedeemCall(r) => Redeem(db, r, verify).0
    case OfferCall(c) => db.(codes := AddUnique(db.codes, c).0)
  }

  function After(db: Db, calls: seq<PairingCall>, verify: Verify): Db {
    if calls == [] then db else Commit(After(db, calls[..|calls| - 1], verify), calls[|calls| - 1], verify)
  }

  predicate AllAdmissible(db: Db, calls: seq<PairingCall>, verify: Verify) {
    calls == [] ||
    (AllAdmissible(db, calls[..|calls| - 1], verify)
     && Admissible(After(db, calls[..|calls| - 1], verify), calls[|calls| - 1]))
  }

  /** The call is a committed try at the live code `i`. */
  predicate Tries(db: Db, call: PairingCall, i: nat) {
    call.RedeemCall? && call.r.commits && Target(db, call.r) == Some(i)
  }

  /** How many committed tries of a run were made at the code `i` while it was live. */
  function TriesAt(db: Db, calls: seq<PairingCall>, verify: Verify, i: nat): nat {
    if calls == [] then 0
    else
      var before := calls[..|calls| - 1];
      TriesAt(db, before, verify, i) + if Tries(After(db, before, verify), calls[|calls| - 1], i) then 1 else 0
  }

  /** Every code in use has been used once, for one device, within its budget. */
  ghost predicate CodeOk(db: Db, i: nat) {
    i < |db.codes| &&
    var c := db.codes[i];
    && c.attempts <= c.maxAttempts && c.maxAttempts > 0
    && (c.usedAt.Some? <==> c.redeemed.Some?)
    && (c.redeemed.Some? ==> Credential(i, c.redeemed.value) in db.issued)
  }

  ghost predicate CredentialOk(db: Db, n: nat, prior: set<DeviceId>) {
    n < |db.issued| &&
    var c := db.issued[n];
    && c.code < |db.codes| && db.codes[c.code].redeemed == Some(c.device)
    && c.device in db.devices && c.device !in prior
  }

  /** `prior` are the devices that existed before the run. */
  ghost predicate Consistent(db: Db, prior: set<DeviceId>) {
    && (forall i: nat :: i < |db.codes| ==> CodeOk(db, i))
    && (forall n: nat :: n < |db.issued| ==> CredentialOk(db, n, prior))
    && (forall m, n :: 0 <= m < n < |db.issued| ==>
          db.issued[m].code != db.issued[n].code && db.issued[m].device != db.issued[n].device)
    && prior <= db.devices.Keys
    && (forall d :: d in db.devices && d !in prior ==> exists n :: 0 <= n < |db.issued| && db.issued[n].device == d)
    && (forall i, j :: 0 <= i < j < |db.codes| && db.codes[i].locator.Some? ==>
          db.codes[i].locator != db.codes[j].locator)
  }

  /** At most one row matches, because locators are unique. */
  lemma MatchIsUnique(db: Db, prior: set<DeviceId>, locator: string, now: Time, i: nat)
    requires Consistent(db, prior) && Matches(db, locator, now, i)
    ensures Match(db.codes, locator, now) == Some(i)
  {
    assert Matches(Db(db.codes, map[], []), locator, now, i);
    var r := Match(db.codes, locator, now);
    assert r.Some? && Matches(Db(db.codes, map[], []), locator, now, r.value);
  }

  lemma TargetIsLive(db: Db, r: Redemption)
    requires Target(db, r).Some?
    ensures Target(db, r).value < |db.codes| && db.codes[Target(db, r).value].Live(r.started)
  {
    assert Matches(Db(db.codes, map[], []), Locator(r.code), r.started, Target(db, r).value);
  }

  lemma RedeemKeeps(db: Db, r: Redemption, verify: Verify, prior: set<DeviceId>)
    requires Consistent(db, prior) && r.device !in db.devices
    ensures Consistent(Redeem(db, r, verify).0, prior)
  {
    var db' := Redeem(db, r, verify).0;
    if r.commits && Target(db, r).Some? {
      TargetIsLive(db, r);
      var t := Target(db, r).value;
      assert CodeOk(db, t);
      forall i: nat | i < |db'.codes|
        ensures CodeOk(db', i)
      {
        assert CodeOk(db, i);
        if Succeeds(db, r, verify) { assert db'.issued[|db.issued|] == Credential(t, r.device); }
      }
      forall n: nat | n < |db'.issued|
        ensures CredentialOk(db', n, prior)
      {
        if n < |db.issued| { assert CredentialOk(db, n, prior); }
      }
      forall m, n | 0 <= m < n < |db'.issued|
        ensures db'.issued[m].code != db'.issued[n].code && db'.issued[m].device != db'.issued[n].device
      {
        assert CredentialOk(db, m, prior);
      }
      forall d | d in db'.devices && d !in prior
        ensures exists n :: 0 <= n < |db'.issued| && db'.issued[n].device == d
      {
        if d in db.devices {
          var n :| 0 <= n < |db.issued| && db.issued[n].device == d;
          assert db'.issued[n].device == d;
        } else {
          assert db'.issued[|db.issued|].device == d;
        }
      }
    }
  }

  lemma OfferKeeps(db: Db, c: Code, prior: set<DeviceId>)
    requires Consistent(db, prior) && Admissible(db, OfferCall(c))
    ensures Consistent(db.(codes := AddUnique(db.codes, c).0), prior)
  {
    var db' := db.(codes := AddUnique(db.codes, c).0);
    forall i: nat | i < |db'.codes|
      ensures CodeOk(db', i)
    {
      if i < |db.codes| { assert CodeOk(db, i); }
    }
    forall n: nat | n < |db'.issued|
      ensures CredentialOk(db', n, prior)
    {
      assert CredentialOk(db, n, prior);
    }
  }

  lemma {:induction false} ConsistentAfter(devices: Table, calls: seq<PairingCall>, verify: Verify)
    requires AllAdmissible(Db([], devices, []), calls, verify)
    ensures Consistent(After(Db([], devices, []), calls, verify), devices.Keys)
  {
    if calls != [] {
      ConsistentAfter(devices, calls[..|calls| - 1], verify);
      var db := After(Db([], devices, []), calls[..|calls| - 1], verify);
      match calls[|calls| - 1]
      case RedeemCall(r) => RedeemKeeps(db, r, verify, devices.Keys);
      case OfferCall(c) => OfferKeeps(db, c, devices.Keys);
    }
  }

  /**
   `attempts` counts exactly the committed tries at the live code, right, wrong or malformed;
   so at most `maxAttempts` of them ever reach the verification.
   */
  lemma {:induction false} AttemptsCountTries(devices: Table, calls: seq<PairingCall>, verify: Verify, i: nat)
    requires AllAdmissible(Db([], devices, []), calls, verify)
    ensures var codes := After(Db([], devices, []), calls, verify).codes;
            && (i < |codes| ==>
                  codes[i].attempts == TriesAt(Db([], devices, []), calls, verify, i) <= codes[i].maxAttempts)
            && (i >= |codes| ==> TriesAt(Db([], devices, []), calls, verify, i) == 0)
  {
    ConsistentAfter(devices, calls, verify);
    var codes := After(Db([], devices, []), calls, verify).codes;
    if i < |codes| { assert CodeOk(After(Db([], devices, []), calls, verify), i); }
    if calls != [] {
      AttemptsCountTries(devices, calls[..|calls| - 1], verify, i);
    }
  }

  /** A used code is never written again: `usedAt` and `redeemed` are set together and once. */
  lemma {:induction false} UsedOnce(devices: Table, calls: seq<PairingCall>, verify: Verify, k: nat, i: nat)
    requires AllAdmissible(Db([], devices, []), calls, verify) && k <= |calls|
    requires i < |After(Db([], devices, []), calls[..k], verify).codes|
    requires After(Db([], devices, []), calls[..k], verify).codes[i].usedAt.Some?
    ensures i < |After(Db([], devices, []), calls, verify).codes|
    ensures After(Db([], devices, []), calls, verify).codes[i] ==
            After(Db([], devices, []), calls[..k], verify).codes[i]
    ensures After(Db([], devices, []), calls, verify).codes[i].redeemed.Some?
  {
    ConsistentAfter(devices, calls, verify);
    if k < |calls| {
      var before := calls[..|calls| - 1];
      assert before[..k] == calls[..k];
      UsedOnce(devices, before, verify, k, i);
      var db := After(Db([], devices, []), before, verify);
      var call := calls[|calls| - 1];
      if call.RedeemCall? && Target(db, call.r).Some? {
        TargetIsLive(db, call.r);
      }
    } else {
      assert calls[..k] == calls;
    }
    assert CodeOk(After(Db([], devices, []), calls, verify), i);
  }

  // ---------------------------------------------------------------- who gets a credential

  /** Exactly when a redemption yields a credential, and for which code. */
  lemma CredentialIff(db: Db, prior: set<DeviceId>, r: Redemption, verify: Verify)
    requires Consistent(db, prior)
    ensures Redeem(db, r, verify).1.Some? <==> exists i: nat | i < |db.codes| :: Earns(db.codes[i], r, verify)
    ensures forall i: nat | i < |db.codes| && Earns(db.codes[i], r, verify) ::
              Redeem(db, r, verify).1 == Some(Credential(i, r.device))
  {
    if IsCode(r.code) {
      LocatorOfCode(r.code);
      assert IsGroup(r.code[..4]);
    }
    forall i: nat | i < |db.codes| && Earns(db.codes[i], r, verify)
      ensures Redeem(db, r, verify).1 == Some(Credential(i, r.device))
    {
      assert Matches(db, r.code[..4], r.started, i);
      MatchIsUnique(db, prior, r.code[..4], r.started, i);
    }
    if Redeem(db, r, verify).1.Some? {
      TargetIsLive(db, r);
      var t := Target(db, r).value;
      assert Matches(Db(db.codes, map[], []), r.code[..4], r.started, t);
      assert Earns(db.codes[t], r, verify);
    }
  }

  /** What a successful redemption leaves: a device that authenticates exactly with its token and may not be mutated. */
  lemma RedeemedDevice(db: Db, prior: set<DeviceId>, r: Redemption, verify: Verify, i: nat)
    requires Consistent(db, prior) && i < |db.codes| && Earns(db.codes[i], r, verify)
    ensures var after := Redeem(db, r, verify).0;
            && r.device in after.devices && after.devices[r.device].status == Offline
            && (forall token: nat, check: (nat, nat) -> bool ::
                  Authenticates(after.devices, r.device, token, check) <==> check(token, r.tokenHash))
            && (forall required | required <= r.capabilities ::
                  Authorize(after.devices, r.device, required, false).Success?
                  && Authorize(after.devices, r.device, required, true) == Failure(ForbiddenLevel))
            && after.codes[i].usedAt == Some(r.verified) && after.codes[i].redeemed == Some(r.device)
            && after.codes[i].attempts == db.codes[i].attempts + 1
  {
    CredentialTarget(db, prior, r, verify, i);
    var after := Redeem(db, r, verify).0;
    assert after.devices[r.device] == NewDevice(r);
    forall token: nat, check: (nat, nat) -> bool
      ensures Authenticates(after.devices, r.device, token, check) <==> check(token, r.tokenHash)
    {
      AuthenticatesIff(after.devices, r.device, token, check);
    }
  }

  lemma CredentialTarget(db: Db, prior: set<DeviceId>, r: Redemption, verify: Verify, i: nat)
    requires Consistent(db, prior) && i < |db.codes| && Earns(db.codes[i], r, verify)
    ensures Target(db, r) == Some(i) && Succeeds(db, r, verify)
  {
    LocatorOfCode(r.code);
    assert IsGroup(r.code[..4]);
    assert Matches(db, r.code[..4], r.started, i);
    MatchIsUnique(db, prior, r.code[..4], r.started, i);
  }

  /** Every credential ever issued goes back to a redemption that proved knowledge of its code. */
  lemma {:induction false} CredentialIsEarned(devices: Table, calls: seq<PairingCall>, verify: Verify, n: nat)
    returns (k: nat)
    requires AllAdmissible(Db([], devices, []), calls, verify)
    requires n < |After(Db([], devices, []), calls, verify).issued|
    ensures k < |calls| && calls[k].RedeemCall?
    ensures var credential := After(Db([], devices, []), calls, verify).issued[n];
            var codes := After(Db([], devices, []), calls[..k], verify).codes;
            && credential.code < |codes| && Earns(codes[credential.code], calls[k].r, verify)
            && credential.device == calls[k].r.device
  {
    var before := calls[..|calls| - 1];
    var db := After(Db([], devices, []), before, verify);
    if n < |db.issued| {
      k := CredentialIsEarned(devices, before, verify, n);
      assert before[..k] == calls[..k];
    } else {
      k := |calls| - 1;
      ConsistentAfter(devices, before, verify);
      CredentialIff(db, devices.Keys, calls[k].r, verify);
    }
  }

  /** The text of a code: three groups of four characters. */
  function Spelled(raw: string): string
    requires |raw| == 12
  {
    raw[..4] + "-" + raw[4..8] + "-" + raw[8..]
  }

  lemma SpelledIsCode(raw: string)
    requires |raw| == 12 && forall i :: 0 <= i < 12 ==> InAlphabet(raw[i])
    ensures IsCode(Spelled(raw)) && Spelled(raw)[..4] == raw[..4]
  {
    var code := Spelled(raw);
    assert code[..4] == raw[..4] && code[5..9] == raw[4..8] && code[10..] == raw[8..];
  }

  /** An offer works: until it expires, its own text redeems it, at once and whatever was offered before. */
  lemma OfferIsRedeemable(db: Db, prior: set<DeviceId>, d: Draw, ttl: Time, limit: nat, r: Redemption, verify: Verify)
    requires Consistent(db, prior) && limit >= 1
    requires |d.raw| == 12 && forall i :: 0 <= i < 12 ==> InAlphabet(d.raw[i])
    requires AddUnique(db.codes, Record(d, ttl, limit)).1.Inserted?
    requires r.commits && r.code == Spelled(d.raw) && verify(d.hash, r.code)
    ensures var offered := db.(codes := AddUnique(db.codes, Record(d, ttl, limit)).0);
            Redeem(offered, r, verify).1 ==
            if r.started < d.now + ttl && r.verified < d.now + ttl
            then Some(Credential(|db.codes|, r.device)) else None
  {
    var c := Record(d, ttl, limit);
    var offered := db.(codes := AddUnique(db.codes, c).0);
    OfferKeeps(db, c, prior);
    SpelledIsCode(d.raw);
    CredentialIff(offered, prior, r, verify);
    assert offered.codes[|db.codes|] == c;
    if exists i: nat | i < |offered.codes| :: Earns(offered.codes[i], r, verify) {
      var i: nat :| i < |offered.codes| && Earns(offered.codes[i], r, verify);
      assert offered.codes[i].locator == c.locator;
      assert i == |db.codes|;
    }
  }

  /** The codes that have been used. */
  function UsedCodes(codes: seq<Code>): set<nat> {
    set i | 0 <= i < |codes| && codes[i].usedAt.Some?
  }

  function CodesOf(issued: seq<Credential>): set<nat> { set c | c in issued :: c.code }

  function DevicesOf(issued: seq<Credential>): set<DeviceId> { set c | c in issued :: c.device }

  lemma {:induction false} AllDifferent(issued: seq<Credential>)
    requires forall m, n :: 0 <= m < n < |issued| ==>
               issued[m].code != issued[n].code && issued[m].device != issued[n].device
    ensures |CodesOf(issued)| == |issued| == |DevicesOf(issued)|
  {
    if issued != [] {
      var rest, last := issued[..|issued| - 1], issued[|issued| - 1];
      AllDifferent(rest);
      assert issued == rest + [last];
      assert CodesOf(issued) == CodesOf(rest) + {last.code};
      assert DevicesOf(issued) == DevicesOf(rest) + {last.device};
    }
  }

  lemma UsedCodesAreIssued(db: Db, prior: set<DeviceId>)
    requires Consistent(db, prior)
    ensures UsedCodes(db.codes) == CodesOf(db.issued)
  {
    forall i: nat | i in UsedCodes(db.codes)
      ensures i in CodesOf(db.issued)
    {
      assert CodeOk(db, i);
    }
    forall c | c in db.issued
      ensures c.code in UsedCodes(db.codes)
    {
      var n :| 0 <= n < |db.issued| && db.issued[n] == c;
      assert CredentialOk(db, n, prior) && CodeOk(db, c.code);
    }
  }

  lemma NewDevicesAreIssued(db: Db, prior: set<DeviceId>)
    requires Consistent(db, prior)
    ensures db.devices.Keys - prior == DevicesOf(db.issued)
    ensures forall c :: c in db.issued ==> c.code < |db.codes| && db.codes[c.code].redeemed == Some(c.device)
  {
    forall c | c in db.issued
      ensures c.device in db.devices && c.device !in prior
      ensures c.code < |db.codes| && db.codes[c.code].redeemed == Some(c.device)
    {
      var n :| 0 <= n < |db.issued| && db.issued[n] == c;
      assert CredentialOk(db, n, prior);
    }
    forall d | d in db.devices && d !in prior
      ensures d in DevicesOf(db.issued)
    {
      var n :| 0 <= n < |db.issued| && db.issued[n].device == d;
    }
  }

  /** Used codes, devices created by pairing and credentials issued correspond one to one. */
  lemma {:induction false} CredentialsAreOneToOne(devices: Table, calls: seq<PairingCall>, verify: Verify)
    requires AllAdmissible(Db([], devices, []), calls, verify)
    ensures var db := After(Db([], devices, []), calls, verify);
            && UsedCodes(db.codes) == CodesOf(db.issued) && |UsedCodes(db.codes)| == |db.issued|
            && db.devices.Keys - devices.Keys == DevicesOf(db.issued) && |DevicesOf(db.issued)| == |db.issued|
            && (forall c :: c in db.issued ==> c.code < |db.codes| && db.codes[c.code].redeemed == Some(c.device))
  {
    var db := After(Db([], devices, []), calls, verify);
    ConsistentAfter(devices, calls, verify);
    UsedCodesAreIssued(db, devices.Keys);
    NewDevicesAreIssued(db, devices.Keys);
    AllDifferent(db.issued);
  }
}
