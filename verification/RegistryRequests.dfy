/**
 What every run keeps about calls of `request`: a future completes once, an answer comes
 from the recorded connection, pending entries belong to calls in progress, and one call
 puts at most one frame on the wire.
 */
module RegistryRequests {
  import opened Common
  import opened Devices
  import opened Registry
  import opened RegistryRuns
  import opened RegistryPresence

  // ---------------------------------------------------------------- what changes a future

  /** An entry holds `f`; with `owner` given, an entry of that connection. */
  ghost predicate Held(core: Core, f: FutureId, owner: Option<Connection>) {
    exists k :: k in core.pending && core.pending[k].future == f
                && (owner.Some? ==> core.pending[k].owner == owner.value)
  }

  /** The block fails some futures that wait in such entries, and leaves the others alone. */
  ghost predicate OnlyFails(before: Core, after: Core, owner: Option<Connection>) {
    && before.futures.Keys == after.futures.Keys
    && forall f :: f in before.futures && after.futures[f] != before.futures[f] ==>
         before.futures[f].Waiting? && Held(before, f, owner) && after.futures[f].Unavailable?
  }

  lemma DisconnectFails(core: Core, c: Connection, commits: bool)
    ensures OnlyFails(core, Disconnect(core, c, commits), Some(c))
  {
  }

  lemma CloseFails(core: Core, failing: set<DeviceId>)
    ensures OnlyFails(core, Close(core, failing), None)
  {
  }

  lemma TableFails(core: Core, op: TableMove)
    ensures OnlyFails(core, NextTable(core, op), if op.DoDisconnect? then Some(op.c) else None)
    ensures !op.DoDisconnect? && !op.DoClose? ==> NextTable(core, op).futures == core.futures
  {
    match op
    case DoDisconnect(c, commits) => DisconnectFails(core, c, commits);
    case DoClose(failing) => CloseFails(core, failing);
    case _ =>
  }

  lemma RegistrationFails(s: Sys, c: Connection, r: RegistrationMove)
    requires RegistrationEnabled(s, c, r)
    ensures OnlyFails(s.core, NextRegistration(s, c, r).core, Some(c))
    ensures !r.Retire? ==> NextRegistration(s, c, r).core.futures == s.core.futures
    ensures NextRegistration(s, c, r).calls == s.calls
  {
    if r.Retire? { DisconnectFails(s.core, c, r.commits); }
  }

  /** The step retires the connection `c`. */
  ghost predicate Retires(s: Sys, t: Step, c: Connection) {
    match t
    case RegistrationStep(d, r) => d == c && r.Retire?
    case TableStep(op) => op.DoDisconnect? && op.c == c
    case RequestStep(f, m) => m.RetireBroken? && f in s.calls && s.calls[f].phase == SendBroken(c)
    case Arrive(_, _, _) => false
  }

  /** The step retires the connection recorded for `f`, or shuts the registry down. */
  ghost predicate FailedBy(s: Sys, t: Step, f: FutureId) {
    exists k :: k in s.core.pending && s.core.pending[k].future == f
                && (Retires(s, t, s.core.pending[k].owner) || (t.TableStep? && t.op.DoClose?))
  }

  /** Each call has exactly one future, under the same name. */
  ghost predicate SameIds(s: Sys) { s.calls.Keys == s.core.futures.Keys }

  ghost predicate GivesUp(s: Sys, f: FutureId, m: RequestMove) {
    m.CleanUp? || (m.Interrupt? && f in s.calls && s.calls[f].phase.Awaiting?)
  }

  lemma RequestFutures(s: Sys, g: FutureId, m: RequestMove)
    requires SameIds(s) && RequestEnabled(s, g, m)
    ensures NextRequestCore(s, g, m).futures.Keys == s.core.futures.Keys + {g}
    ensures forall f :: f in s.core.futures && NextRequestCore(s, g, m).futures[f] != s.core.futures[f] ==>
              && s.core.futures[f].Waiting?
              && ((m.RetireBroken? && Held(s.core, f, Some(s.calls[g].phase.on))
                   && NextRequestCore(s, g, m).futures[f].Unavailable?)
                  || (g == f && GivesUp(s, f, m) && NextRequestCore(s, g, m).futures[f].Cancelled?))
  {
    if m.RetireBroken? { DisconnectFails(s.core, s.calls[g].phase.on, m.commits); }
  }

  /** `t` is the answer that completes `f`. */
  ghost predicate Answers(s: Sys, t: Step, f: FutureId) {
    t.Arrive? && Completes(s.core, t.on, t.request) && s.core.pending[Key(t.on.device, t.request)].future == f
  }

  /** The three ways a waiting future can complete; nothing else ever touches a future. */
  lemma {:induction false} FutureCause(s: Sys, t: Step, f: FutureId)
    requires SameIds(s) && Enabled(s, t) && f in s.core.futures
    ensures f in Next(s, t).core.futures
    ensures var before, after := s.core.futures[f], Next(s, t).core.futures[f];
            after == before
            || (before.Waiting? && after.Unavailable? && FailedBy(s, t, f))
            || (before.Waiting? && Answers(s, t, f) && after == Completed(t.body))
            || (before.Waiting? && after.Cancelled? && t.RequestStep? && t.f == f && GivesUp(s, f, t.m))
  {
    match t
    case RegistrationStep(c, r) => RegistrationFails(s, c, r);
    case TableStep(op) => TableFails(s.core, op);
    case RequestStep(g, m) => RequestFutures(s, g, m);
    case Arrive(c, request, body) =>
  }

  lemma SameIdsStep(s: Sys, t: Step)
    requires SameIds(s) && Enabled(s, t)
    ensures SameIds(Next(s, t))
  {
    match t
    case RegistrationStep(c, r) => RegistrationFails(s, c, r);
    case TableStep(op) => TableFails(s.core, op);
    case RequestStep(g, m) => RequestFutures(s, g, m);
    case Arrive(c, request, body) =>
  }

  lemma SameIdsAlways(states: seq<Sys>, ts: seq<Step>, i: nat)
    requires IsRun(states, ts) && i < |states|
    ensures SameIds(states[i])
  {
    if i > 0 {
      SameIdsAlways(states, ts, i - 1);
      SameIdsStep(states[i - 1], ts[i - 1]);
    }
  }

  lemma {:induction false} DoneStays(s: Sys, t: Step, f: FutureId)
    requires SameIds(s) && Enabled(s, t) && f in s.core.futures && !s.core.futures[f].Waiting?
    ensures f in Next(s, t).core.futures && Next(s, t).core.futures[f] == s.core.futures[f]
  {
    FutureCause(s, t, f);
  }

  lemma {:induction false} DoneAt(states: seq<Sys>, ts: seq<Step>, k: nat, f: FutureId)
    requires IsRun(states, ts) && k < |ts| && f in states[k].core.futures && !states[k].core.futures[f].Waiting?
    ensures f in states[k + 1].core.futures && states[k + 1].core.futures[f] == states[k].core.futures[f]
  {
    SameIdsAlways(states, ts, k);
    DoneStays(states[k], ts[k], f);
  }

  /** A future completes at most once: once done it keeps its outcome for the rest of the run. */
  lemma {:induction false} CompletesOnce(states: seq<Sys>, ts: seq<Step>, i: nat, j: nat, f: FutureId)
    requires IsRun(states, ts) && i <= j < |states|
    requires f in states[i].core.futures && !states[i].core.futures[f].Waiting?
    ensures f in states[j].core.futures && states[j].core.futures[f] == states[i].core.futures[f]
    decreases j - i
  {
    if i < j {
      CompletesOnce(states, ts, i, j - 1, f);
      DoneAt(states, ts, j - 1, f);
    }
  }

  // ---------------------------------------------------------------- what changes a call or an entry

  /** Only its own steps move a call, its identity is fixed, and its phases do not run backwards. */
  lemma CallCause(s: Sys, t: Step, f: FutureId)
    requires Enabled(s, t) && f in s.calls
    ensures f in Next(s, t).calls
    ensures var before, after := s.calls[f], Next(s, t).calls[f];
            && after.key == before.key && after.recorded == before.recorded
            && (after == before || (t.RequestStep? && t.f == f && after == NextCall(s, f, t.m)))
            && (after.since == before.since || t == RequestStep(f, DoAdmit))
            && (after.phase.Chosen? ==> before.phase.Chosen?)
            && (after.phase.Registered? ==> before.phase.Registered? || before.phase.Chosen?)
            && (after.phase.Finished? ==>
                  before.phase.Finished? || before.phase.Chosen? || t == RequestStep(f, CleanUp))
            && (after.phase.Leaked? ==> before.phase.Leaked? || t == RequestStep(f, InterruptCleanUp))
  {
  }

  ghost predicate OnlyRemoves(before: Core, after: Core) {
    forall k :: k in after.pending ==> k in before.pending && after.pending[k] == before.pending[k]
  }

  lemma TableRemoves(core: Core, op: TableMove)
    ensures OnlyRemoves(core, NextTable(core, op))
  {
  }

  lemma RequestRemoves(s: Sys, g: FutureId, m: RequestMove)
    requires RequestEnabled(s, g, m) && !m.DoAdmit?
    ensures OnlyRemoves(s.core, NextRequestCore(s, g, m))
  {
  }

  /** An entry is added only by the admission of its own call, and is never rewritten. */
  lemma EntryCause(s: Sys, t: Step, k: Key)
    requires Enabled(s, t) && k in Next(s, t).core.pending
    ensures
      || (k in s.core.pending && Next(s, t).core.pending[k] == s.core.pending[k])
      || (t.RequestStep? && t.m.DoAdmit? && s.calls[t.f].key == k && k !in s.core.pending
          && Next(s, t).core.pending[k] == Entry(s.calls[t.f].recorded, t.f))
  {
    match t
    case RegistrationStep(c, r) => assert OnlyRemoves(s.core, Next(s, t).core);
    case TableStep(op) => TableRemoves(s.core, op);
    case RequestStep(g, m) => if !m.DoAdmit? { RequestRemoves(s, g, m); }
    case Arrive(c, request, body) =>
  }

  lemma TableTakesOut(core: Core, op: TableMove, k: Key)
    requires k in core.pending && k !in NextTable(core, op).pending
    ensures op.DoClose? || (op.DoDisconnect? && op.c == core.pending[k].owner)
  {
  }

  lemma RequestTakesOut(s: Sys, f: FutureId, m: RequestMove, k: Key)
    requires RequestEnabled(s, f, m) && k in s.core.pending && k !in NextRequestCore(s, f, m).pending
    ensures (m.RetireBroken? && s.calls[f].phase == SendBroken(s.core.pending[k].owner))
            || (m.CleanUp? && s.core.pending[k].future == f)
  {
  }

  /**
   The only events that take an entry out of the pending table. In particular a rejected
   duplicate, an answer from another connection and any other call's end leave it alone.
   */
  lemma EntryRemovedOnlyBy(s: Sys, t: Step, k: Key)
    requires Enabled(s, t) && k in s.core.pending && k !in Next(s, t).core.pending
    ensures var e := s.core.pending[k];
            || Retires(s, t, e.owner)
            || (t.TableStep? && t.op.DoClose?)
            || t == RequestStep(e.future, CleanUp)
            || (t.Arrive? && t.on == e.owner && Key(t.on.device, t.request) == k)
  {
    match t
    case RegistrationStep(c, r) =>
    case TableStep(op) => TableTakesOut(s.core, op, k);
    case RequestStep(f, m) => RequestTakesOut(s, f, m, k);
    case Arrive(_, _, _) =>
  }

  // ---------------------------------------------------------------- ownership of entries

  ghost predicate CallOk(s: Sys, f: FutureId) {
    && f in s.calls && s.calls[f].recorded.device == s.calls[f].key.device
    && (s.calls[f].phase.Chosen? ==> f in s.core.futures && s.core.futures[f].Waiting?)
  }

  ghost predicate EntryOf(s: Sys, k: Key) {
    k in s.core.pending &&
    var e := s.core.pending[k];
    && e.future in s.calls
    && s.calls[e.future].key == k && s.calls[e.future].recorded == e.owner
    && e.owner.device == k.device
    && s.calls[e.future].since <= |s.arrivals|
    && !s.calls[e.future].phase.Chosen? && !s.calls[e.future].phase.Finished?
    && e.future in s.core.futures
    && (s.core.futures[e.future].Waiting? || s.core.futures[e.future].Cancelled?)
  }

  /** Every pending entry is the entry of the one call whose future it holds. */
  ghost predicate Ownership(s: Sys) {
    && SameIds(s) && Filed(s)
    && (forall f :: f in s.calls ==> CallOk(s, f))
    && (forall k :: k in s.core.pending ==> EntryOf(s, k))
  }

  lemma OneEntryEach(s: Sys, j: Key, k: Key)
    requires Ownership(s) && j in s.core.pending && k in s.core.pending
    requires s.core.pending[j].future == s.core.pending[k].future
    ensures j == k
  {
    assert EntryOf(s, j) && EntryOf(s, k);
  }

  ghost predicate Alone(core: Core, k: Key) {
    && k in core.pending && core.pending[k].future in core.futures
    && forall j :: j in core.pending && core.pending[j].future == core.pending[k].future ==> j == k
  }

  lemma DisconnectSpares(core: Core, c: Connection, commits: bool, k: Key)
    requires Alone(core, k) && k in Disconnect(core, c, commits).pending
    ensures Disconnect(core, c, commits).futures[core.pending[k].future] == core.futures[core.pending[k].future]
  {
  }

  lemma ResolveSpares(core: Core, c: Connection, request: RequestId, body: Body, k: Key)
    requires Alone(core, k) && k in Resolve(core, c, request, body).pending
    ensures Resolve(core, c, request, body).futures[core.pending[k].future] == core.futures[core.pending[k].future]
  {
  }

  lemma TableSpares(core: Core, op: TableMove, k: Key)
    requires Alone(core, k) && k in NextTable(core, op).pending
    ensures core.pending[k].future in NextTable(core, op).futures
    ensures NextTable(core, op).futures[core.pending[k].future] == core.futures[core.pending[k].future]
  {
    if op.DoDisconnect? { DisconnectSpares(core, op.c, op.commits, k); }
  }

  lemma AloneInTable(s: Sys, k: Key)
    requires Ownership(s) && k in s.core.pending
    ensures Alone(s.core, k)
  {
    assert EntryOf(s, k);
    forall j | j in s.core.pending && s.core.pending[j].future == s.core.pending[k].future
      ensures j == k
    {
      OneEntryEach(s, j, k);
    }
  }

  lemma RegistrationSpares(s: Sys, c: Connection, r: RegistrationMove, k: Key)
    requires Alone(s.core, k) && RegistrationEnabled(s, c, r) && k in NextRegistration(s, c, r).core.pending
    ensures s.core.pending[k].future in NextRegistration(s, c, r).core.futures
    ensures NextRegistration(s, c, r).core.futures[s.core.pending[k].future] == s.core.futures[s.core.pending[k].future]
  {
    if r.Retire? { DisconnectSpares(s.core, c, r.commits, k); }
  }

  lemma RequestSpares(s: Sys, g: FutureId, m: RequestMove, k: Key)
    requires SameIds(s) && EntryOf(s, k) && Alone(s.core, k)
    requires RequestEnabled(s, g, m) && k in NextRequestCore(s, g, m).pending
    ensures var f, core := s.core.pending[k].future, NextRequestCore(s, g, m);
            && f in core.futures
            && !(g == f && m.CleanUp?)
            && (core.futures[f] == s.core.futures[f] || core.futures[f].Cancelled?)
  {
    if m.RetireBroken? { DisconnectSpares(s.core, s.calls[g].phase.on, m.commits, k); }
  }

  /** Whatever completes a future removes its entry; only its own call may cancel it first. */
  lemma RemainingEntry(s: Sys, t: Step, k: Key)
    requires Ownership(s) && Enabled(s, t)
    requires k in s.core.pending && k in Next(s, t).core.pending
    ensures var f := s.core.pending[k].future;
            && f in s.core.futures && f in Next(s, t).core.futures
            && t != RequestStep(f, CleanUp)
            && (Next(s, t).core.futures[f] == s.core.futures[f] || Next(s, t).core.futures[f].Cancelled?)
  {
    AloneInTable(s, k);
    match t
    case RegistrationStep(c, r) => RegistrationSpares(s, c, r, k);
    case TableStep(op) => TableSpares(s.core, op, k);
    case RequestStep(g, m) => assert EntryOf(s, k); RequestSpares(s, g, m, k);
    case Arrive(c, request, body) => ResolveSpares(s.core, c, request, body, k);
  }

  lemma EntryStep(s: Sys, t: Step, k: Key)
    requires Ownership(s) && Enabled(s, t) && k in Next(s, t).core.pending
    ensures EntryOf(Next(s, t), k)
  {
    EntryCause(s, t, k);
    assert s.arrivals <= Next(s, t).arrivals;
    var f := Next(s, t).core.pending[k].future;
    if k in s.core.pending && Next(s, t).core.pending[k] == s.core.pending[k] {
      assert EntryOf(s, k);
      CallCause(s, t, f);
      RemainingEntry(s, t, k);
    } else {
      assert CallOk(s, f);
    }
  }

  lemma CallOkStep(s: Sys, t: Step, f: FutureId)
    requires Ownership(s) && Enabled(s, t) && f in Next(s, t).calls
    ensures CallOk(Next(s, t), f)
  {
    if f in s.calls {
      assert CallOk(s, f);
      CallCause(s, t, f);
      FutureCause(s, t, f);
      forall k | k in s.core.pending && s.core.pending[k].future == f
        ensures !s.calls[f].phase.Chosen?
      {
        assert EntryOf(s, k);
      }
    } else {
      assert t.RequestStep? && t.f == f && t.m.Begin?;
      assert FiledAt(s, t.m.key.device);
    }
  }

  lemma OwnershipStep(s: Sys, t: Step)
    requires Ownership(s) && Enabled(s, t)
    ensures Ownership(Next(s, t))
  {
    FiledStep(s, t);
    SameIdsStep(s, t);
    var s' := Next(s, t);
    forall f | f in s'.calls
      ensures CallOk(s', f)
    {
      CallOkStep(s, t, f);
    }
    forall k | k in s'.core.pending
      ensures EntryOf(s', k)
    {
      EntryStep(s, t, k);
    }
  }

  lemma OwnershipAlways(states: seq<Sys>, ts: seq<Step>, i: nat)
    requires IsRun(states, ts) && i < |states|
    ensures Ownership(states[i])
  {
    if i > 0 {
      OwnershipAlways(states, ts, i - 1);
      OwnershipStep(states[i - 1], ts[i - 1]);
    }
  }

  /** `request` is between registering its entry and the end of its `finally` block. */
  predicate InProgress(p: Phase) {
    p.Registered? || p.Sending? || p.SendBroken? || p.Awaiting? || p.CleaningUp?
  }

  /** Each entry belongs to a call in progress, which is then its only owner. */
  ghost predicate NoOrphan(s: Sys) {
    forall k :: k in s.core.pending ==>
      var f := s.core.pending[k].future;
      f in s.calls && s.calls[f].key == k && InProgress(s.calls[f].phase)
  }

  /** A call is cancelled while it waits for the lock that guards its cleanup, its entry still there. */
  ghost predicate Leaks(s: Sys, t: Step) {
    t.RequestStep? && t.m.InterruptCleanUp? && t.f in s.calls &&
    s.calls[t.f].key in s.core.pending && s.core.pending[s.calls[t.f].key].future == t.f
  }

  lemma NoOrphanStep(s: Sys, t: Step)
    requires Ownership(s) && NoOrphan(s) && Enabled(s, t)
    ensures NoOrphan(Next(s, t)) <==> !Leaks(s, t)
  {
    var s' := Next(s, t);
    OwnershipStep(s, t);
    if Leaks(s, t) {
      assert s'.core.pending[s.calls[t.f].key].future == t.f && s'.calls[t.f].phase.Leaked?;
    } else {
      forall k | k in s'.core.pending
        ensures var f := s'.core.pending[k].future;
                f in s'.calls && s'.calls[f].key == k && InProgress(s'.calls[f].phase)
      {
        assert EntryOf(s', k);
        EntryCause(s, t, k);
        CallCause(s, t, s'.core.pending[k].future);
      }
    }
  }

  lemma NoOrphanUntilLeak(states: seq<Sys>, ts: seq<Step>, i: nat)
    requires IsRun(states, ts) && i < |states|
    requires forall k :: 0 <= k < i ==> !Leaks(states[k], ts[k])
    ensures NoOrphan(states[i])
  {
    if i > 0 {
      NoOrphanUntilLeak(states, ts, i - 1);
      OwnershipAlways(states, ts, i - 1);
      NoOrphanStep(states[i - 1], ts[i - 1]);
    }
  }

  /** Entries always belong to calls in progress exactly in the runs where no cleanup is cancelled. */
  lemma EntriesOwnedIffNoLeak(states: seq<Sys>, ts: seq<Step>)
    requires IsRun(states, ts)
    ensures (forall i :: 0 <= i < |states| ==> NoOrphan(states[i]))
            <==> (forall k :: 0 <= k < |ts| ==> !Leaks(states[k], ts[k]))
  {
    if forall k :: 0 <= k < |ts| ==> !Leaks(states[k], ts[k]) {
      forall i | 0 <= i < |states|
        ensures NoOrphan(states[i])
      {
        NoOrphanUntilLeak(states, ts, i);
      }
    }
    if forall i :: 0 <= i < |states| ==> NoOrphan(states[i]) {
      forall k | 0 <= k < |ts|
        ensures !Leaks(states[k], ts[k])
      {
        OwnershipAlways(states, ts, k);
        NoOrphanStep(states[k], ts[k]);
        assert NoOrphan(states[k + 1]);
      }
    }
  }

  /** With no cancelled cleanup, the pending table is empty whenever no call is in progress. */
  lemma EmptyWhenIdle(states: seq<Sys>, ts: seq<Step>, i: nat)
    requires IsRun(states, ts) && i < |states|
    requires forall k :: 0 <= k < i ==> !Leaks(states[k], ts[k])
    requires forall f :: f in states[i].calls ==> !InProgress(states[i].calls[f].phase)
    ensures states[i].core.pending == map[]
  {
    NoOrphanUntilLeak(states, ts, i);
  }

  // ---------------------------------------------------------------- a waiting call keeps its entry

  /** While a call is in progress and waits for its answer, its own entry is in the pending table. */
  ghost predicate KeepsEntry(s: Sys, f: FutureId) {
    f in s.calls && InProgress(s.calls[f].phase) && f in s.core.futures && s.core.futures[f].Waiting? ==>
      var call := s.calls[f];
      call.key in s.core.pending && s.core.pending[call.key] == Entry(call.recorded, f)
  }

  lemma DisconnectCompletes(core: Core, c: Connection, commits: bool, k: Key)
    requires k in core.pending && k !in Disconnect(core, c, commits).pending
    ensures var f := core.pending[k].future;
            f in core.futures ==> !Disconnect(core, c, commits).futures[f].Waiting?
  {
    assert core.pending[k].future in FuturesOf(core.pending, c);
  }

  lemma TableCompletes(core: Core, op: TableMove, k: Key)
    requires k in core.pending && k !in NextTable(core, op).pending
    ensures var f := core.pending[k].future;
            f in core.futures ==> f in NextTable(core, op).futures && !NextTable(core, op).futures[f].Waiting?
  {
    TableTakesOut(core, op, k);
    if op.DoDisconnect? {
      DisconnectCompletes(core, op.c, op.commits, k);
    } else {
      assert core.pending[k].future in AllFutures(core.pending);
    }
  }

  lemma RequestCompletes(s: Sys, g: FutureId, m: RequestMove, k: Key)
    requires RequestEnabled(s, g, m) && k in s.core.pending && k !in NextRequestCore(s, g, m).pending
    ensures var f := s.core.pending[k].future;
            f in s.core.futures ==>
              f in NextRequestCore(s, g, m).futures && !NextRequestCore(s, g, m).futures[f].Waiting?
  {
    RequestTakesOut(s, g, m, k);
    if m.RetireBroken? { DisconnectCompletes(s.core, s.calls[g].phase.on, m.commits, k); }
  }

  /** Whatever takes an entry out of the table completes its future. */
  lemma RemovalCompletes(s: Sys, t: Step, k: Key)
    requires Enabled(s, t) && k in s.core.pending && k !in Next(s, t).core.pending
    ensures var f := s.core.pending[k].future;
            f in s.core.futures ==> f in Next(s, t).core.futures && !Next(s, t).core.futures[f].Waiting?
  {
    match t
    case RegistrationStep(c, r) => DisconnectCompletes(s.core, c, r.commits, k);
    case TableStep(op) => TableCompletes(s.core, op, k);
    case RequestStep(g, m) => RequestCompletes(s, g, m, k);
    case Arrive(_, _, _) =>
  }

  /** A call comes into progress only by its admission. */
  lemma ProgressCause(s: Sys, t: Step, f: FutureId)
    requires Enabled(s, t) && f in Next(s, t).calls && InProgress(Next(s, t).calls[f].phase)
    ensures f in s.calls
    ensures InProgress(s.calls[f].phase) ||
            (t == RequestStep(f, DoAdmit) && s.calls[f].phase.Chosen? && s.calls[f].key !in s.core.pending)
  {
  }

  lemma {:induction false} KeepsEntryStep(s: Sys, t: Step, f: FutureId)
    requires Ownership(s) && KeepsEntry(s, f) && Enabled(s, t)
    ensures KeepsEntry(Next(s, t), f)
  {
    var s' := Next(s, t);
    if f in s'.calls && InProgress(s'.calls[f].phase) && f in s'.core.futures && s'.core.futures[f].Waiting? {
      ProgressCause(s, t, f);
      CallCause(s, t, f);
      FutureCause(s, t, f);
      var k := s.calls[f].key;
      if InProgress(s.calls[f].phase) {
        if k !in s'.core.pending {
          RemovalCompletes(s, t, k);
        } else {
          EntryCause(s, t, k);
        }
      }
    }
  }

  lemma KeepsEntryAlways(states: seq<Sys>, ts: seq<Step>, i: nat, f: FutureId)
    requires IsRun(states, ts) && i < |states|
    ensures KeepsEntry(states[i], f)
  {
    if i > 0 {
      KeepsEntryAlways(states, ts, i - 1, f);
      OwnershipAlways(states, ts, i - 1);
      KeepsEntryStep(states[i - 1], ts[i - 1], f);
    }
  }

  /**
   Exactly when an answer is delivered: for a call in progress that still waits, the answer to
   its request completes it if and only if it arrives on the connection recorded at registration.
   */
  lemma {:induction false} DeliveredIffRecorded(states: seq<Sys>, ts: seq<Step>, i: nat, f: FutureId,
                                                on: Connection, body: Body)
    requires IsRun(states, ts) && i < |states|
    requires f in states[i].calls && InProgress(states[i].calls[f].phase)
    requires f in states[i].core.futures && states[i].core.futures[f].Waiting?
    requires on in states[i].registrations && on.device == states[i].calls[f].key.device
    ensures var answered := Next(states[i], Arrive(on, states[i].calls[f].key.request, body)).core.futures;
            f in answered && (answered[f] == Completed(body) <==> on == states[i].calls[f].recorded)
  {
    KeepsEntryAlways(states, ts, i, f);
    assert states[i].core.pending[states[i].calls[f].key] == Entry(states[i].calls[f].recorded, f);
  }

  // ---------------------------------------------------------------- where answers come from

  ghost predicate SourceOf(s: Sys, f: FutureId) {
    f in s.source && f in s.calls && f in s.core.futures && s.source[f] < |s.arrivals| &&
    var a := s.arrivals[s.source[f]];
    && a.on == s.calls[f].recorded
    && Key(a.on.device, a.request) == s.calls[f].key
    && s.calls[f].since <= s.source[f]
    && s.core.futures[f] == Completed(a.body)
  }

  ghost predicate Provenance(s: Sys) {
    && (forall f :: f in s.source ==> SourceOf(s, f))
    && (forall f :: f in s.core.futures && (s.core.futures[f].Answered? || s.core.futures[f].RemoteError?) ==>
          f in s.source)
    && (forall f, g :: f in s.source && g in s.source && f != g ==> s.source[f] != s.source[g])
  }

  lemma SourceStep(s: Sys, t: Step, f: FutureId)
    requires Ownership(s) && Provenance(s) && Enabled(s, t) && f in Next(s, t).source
    ensures SourceOf(Next(s, t), f)
  {
    if f in s.source {
      assert SourceOf(s, f);
      assert CallOk(s, f);
      CallCause(s, t, f);
      FutureCause(s, t, f);
      assert s.arrivals <= Next(s, t).arrivals;
    } else {
      var k := Key(t.on.device, t.request);
      assert EntryOf(s, k);
      FutureCause(s, t, f);
    }
  }

  lemma AnsweredHasSource(s: Sys, t: Step, f: FutureId)
    requires Ownership(s) && Provenance(s) && Enabled(s, t) && f in Next(s, t).core.futures
    requires Next(s, t).core.futures[f].Answered? || Next(s, t).core.futures[f].RemoteError?
    ensures f in Next(s, t).source
  {
    if f in s.core.futures {
      FutureCause(s, t, f);
    } else {
      SameIdsStep(s, t);
    }
  }

  /** Answers number their arrivals, so a new source is none of the others. */
  lemma {:induction false} SourcesDiffer(s: Sys, t: Step, f: FutureId, g: FutureId)
    requires Ownership(s) && Provenance(s) && Enabled(s, t)
    requires f in Next(s, t).source && g in Next(s, t).source && f != g
    ensures Next(s, t).source[f] != Next(s, t).source[g]
  {
    if f in s.source { assert SourceOf(s, f); }
    if g in s.source { assert SourceOf(s, g); }
  }

  lemma {:induction false} ProvenanceStep(s: Sys, t: Step)
    requires Ownership(s) && Provenance(s) && Enabled(s, t)
    ensures Provenance(Next(s, t))
  {
    var s' := Next(s, t);
    forall f | f in s'.source
      ensures SourceOf(s', f)
    {
      SourceStep(s, t, f);
    }
    forall f | f in s'.core.futures && (s'.core.futures[f].Answered? || s'.core.futures[f].RemoteError?)
      ensures f in s'.source
    {
      AnsweredHasSource(s, t, f);
    }
    forall f, g | f in s'.source && g in s'.source && f != g
      ensures s'.source[f] != s'.source[g]
    {
      SourcesDiffer(s, t, f, g);
    }
  }

  lemma ProvenanceAlways(states: seq<Sys>, ts: seq<Step>, i: nat)
    requires IsRun(states, ts) && i < |states|
    ensures Provenance(states[i])
  {
    if i > 0 {
      ProvenanceAlways(states, ts, i - 1);
      OwnershipAlways(states, ts, i - 1);
      ProvenanceStep(states[i - 1], ts[i - 1]);
    }
  }

  /**
   A delivered answer was received on the very connection recorded at registration, after the
   registration, with the call's device and request ID; and no answer completes two calls.
   */
  lemma AnswersComeFromRecordedConnection(states: seq<Sys>, ts: seq<Step>, i: nat, f: FutureId)
    requires IsRun(states, ts) && i < |states|
    requires f in states[i].core.futures
    requires states[i].core.futures[f].Answered? || states[i].core.futures[f].RemoteError?
    ensures f in states[i].calls && f in states[i].source
    ensures var s := states[i];
            var call, n := s.calls[f], s.source[f];
            && call.since <= n < |s.arrivals|
            && s.arrivals[n].on == call.recorded
            && Key(call.recorded.device, s.arrivals[n].request) == call.key
            && Completed(s.arrivals[n].body) == s.core.futures[f]
            && forall g :: g in s.source && s.source[g] == n ==> g == f
  {
    ProvenanceAlways(states, ts, i);
    assert SourceOf(states[i], f);
  }

  /** An answer from any other connection, even the one that carried the frame, is ignored. */
  lemma ForeignAnswerIgnored(states: seq<Sys>, ts: seq<Step>, i: nat, f: FutureId, t: Step)
    requires IsRun(states, ts) && i < |states| && f in states[i].calls
    requires t.Arrive? && Enabled(states[i], t) && t.on != states[i].calls[f].recorded
    ensures f in states[i].core.futures && f in Next(states[i], t).core.futures
    ensures Next(states[i], t).core.futures[f] == states[i].core.futures[f]
    ensures forall k :: k in states[i].core.pending && states[i].core.pending[k].future == f ==>
              k in Next(states[i], t).core.pending
  {
    OwnershipAlways(states, ts, i);
    FutureCause(states[i], t, f);
    forall k | k in states[i].core.pending && states[i].core.pending[k].future == f
      ensures k in Next(states[i], t).core.pending && !Answers(states[i], t, f)
    {
      assert EntryOf(states[i], k);
    }
  }

  // ---------------------------------------------------------------- frames

  ghost predicate FrameOk(s: Sys, n: nat) {
    n < |s.wire| &&
    var frame := s.wire[n];
    && frame.call in s.calls
    && frame.on.device == s.calls[frame.call].key.device
    && !s.calls[frame.call].phase.Chosen? && !s.calls[frame.call].phase.Registered?
  }

  ghost predicate OneFrameEach(s: Sys) {
    && (forall n: nat :: n < |s.wire| ==> FrameOk(s, n))
    && (forall m, n :: 0 <= m < n < |s.wire| ==> s.wire[m].call != s.wire[n].call)
  }

  lemma OneFrameStep(s: Sys, t: Step)
    requires Filed(s) && OneFrameEach(s) && Enabled(s, t)
    ensures OneFrameEach(Next(s, t))
    ensures s.wire <= Next(s, t).wire
  {
    var s' := Next(s, t);
    forall n: nat | n < |s'.wire|
      ensures FrameOk(s', n)
    {
      if n < |s.wire| {
        assert FrameOk(s, n);
        CallCause(s, t, s.wire[n].call);
      } else {
        assert FiledAt(s, s.calls[t.f].key.device);
      }
    }
    forall m, n | 0 <= m < n < |s'.wire|
      ensures s'.wire[m].call != s'.wire[n].call
    {
      assert FrameOk(s, m);
    }
  }

  /** A call never puts a second frame on the wire, whatever is replaced, lost or cancelled. */
  lemma OneFrameAlways(states: seq<Sys>, ts: seq<Step>, i: nat)
    requires IsRun(states, ts) && i < |states|
    ensures OneFrameEach(states[i])
  {
    if i > 0 {
      OneFrameAlways(states, ts, i - 1);
      FiledAlways(states, ts, i - 1);
      OneFrameStep(states[i - 1], ts[i - 1]);
    }
  }
}
