/**
 What every run keeps about the connection table and the device rows: presence
 agrees with the table, a cancelled registration is withdrawn, revocation is final.
 */
module RegistryPresence {
  import opened Common
  import opened Devices
  import opened Registry
  import opened RegistryRuns

  ghost predicate FiledAt(s: Sys, d: DeviceId) {
    d in s.core.connections ==>
      var c := s.core.connections[d];
      && c.device == d && d in s.core.rows && c in s.registrations
      && !s.registrations[c].Publishing? && !s.registrations[c].Abandoned? && !s.registrations[c].Refused?
  }

  /** Each published connection is filed under its own device, has a row, and was not given up. */
  ghost predicate Filed(s: Sys) {
    forall d :: d in s.core.connections ==> FiledAt(s, d)
  }

  /** Among the registry's blocks, only `_publish` adds a connection; rows are never deleted. */
  lemma TableKeeps(core: Core, op: TableMove)
    ensures var after := NextTable(core, op);
            && core.rows.Keys <= after.rows.Keys
            && (forall d :: d in after.connections ==>
                  d in core.connections && after.connections[d] == core.connections[d])
  {
  }

  lemma FiledRegistration(s: Sys, c: Connection, r: RegistrationMove, d: DeviceId)
    requires Filed(s) && RegistrationEnabled(s, c, r)
    ensures FiledAt(NextRegistration(s, c, r), d)
  {
    if d in s.core.connections { assert FiledAt(s, d); }
    if c.device in s.core.connections { assert FiledAt(s, c.device); }
  }

  lemma FiledTable(s: Sys, op: TableMove, d: DeviceId)
    requires Filed(s) && TableEnabled(s, op)
    ensures FiledAt(s.(core := NextTable(s.core, op)), d)
  {
    TableKeeps(s.core, op);
    if d in s.core.connections { assert FiledAt(s, d); }
  }

  lemma FiledRequest(s: Sys, f: FutureId, m: RequestMove, d: DeviceId)
    requires Filed(s) && RequestEnabled(s, f, m)
    ensures FiledAt(NextRequest(s, f, m), d)
  {
    if d in s.core.connections { assert FiledAt(s, d); }
  }

  lemma FiledStepAt(s: Sys, t: Step, d: DeviceId)
    requires Filed(s) && Enabled(s, t)
    ensures FiledAt(Next(s, t), d)
  {
    match t
    case RegistrationStep(c, r) => FiledRegistration(s, c, r, d);
    case TableStep(op) => FiledTable(s, op, d);
    case RequestStep(f, m) => FiledRequest(s, f, m, d);
    case Arrive(_, _, _) => if d in s.core.connections { assert FiledAt(s, d); }
  }

  lemma FiledStep(s: Sys, t: Step)
    requires Filed(s) && Enabled(s, t)
    ensures Filed(Next(s, t))
  {
    forall d | d in Next(s, t).core.connections
      ensures FiledAt(Next(s, t), d)
    {
      FiledStepAt(s, t, d);
    }
  }

  lemma FiledAlways(states: seq<Sys>, ts: seq<Step>, i: nat)
    requires IsRun(states, ts) && i < |states|
    ensures Filed(states[i])
  {
    if i > 0 {
      FiledAlways(states, ts, i - 1);
      FiledStep(states[i - 1], ts[i - 1]);
    }
  }

  // ---------------------------------------------------------------- cancelled registrations

  /** The three ways in which a cancelled registration ends once its connection was published. */
  predicate EndedCancelled(p: Registration) {
    p.Abandoned? || p.Stranded? || p.Orphaned?
  }

  /** The last move of a cancelled registration. */
  predicate Withdraws(t: Step, c: Connection) {
    t.RegistrationStep? && t.c == c && (t.r.Retire? || t.r.InterruptRetire?)
  }

  /** Its disconnect did not take place. */
  predicate Fails(t: Step, c: Connection)
    requires Withdraws(t, c)
  {
    t.r.InterruptRetire? || !t.r.commits
  }

  lemma WithdrawalIff(s: Sys, t: Step, c: Connection)
    requires Enabled(s, t) && Withdraws(t, c)
    ensures c in s.registrations && s.registrations[c].Retiring?
    ensures EndedCancelled(Next(s, t).registrations[c])
    ensures Current(Next(s, t).core, c) <==> Current(s.core, c) && Fails(t, c)
    ensures Next(s, t).registrations[c].Abandoned? ==> !Current(Next(s, t).core, c)
  {
  }

  lemma RegistrationMoves(s: Sys, d: Connection, r: RegistrationMove, c: Connection)
    requires RegistrationEnabled(s, d, r)
    requires var next := NextRegistration(s, d, r);
             c in next.registrations && EndedCancelled(next.registrations[c])
    ensures c in s.registrations
    ensures Withdraws(RegistrationStep(d, r), c) || NextRegistration(s, d, r).registrations[c] == s.registrations[c]
    ensures !Withdraws(RegistrationStep(d, r), c) && Current(NextRegistration(s, d, r).core, c) ==> Current(s.core, c)
  {
  }

  lemma RequestPublishesNothing(s: Sys, f: FutureId, m: RequestMove, c: Connection)
    requires RequestEnabled(s, f, m)
    ensures NextRequest(s, f, m).registrations == s.registrations
    ensures Current(NextRequest(s, f, m).core, c) ==> Current(s.core, c)
  {
  }

  /** Only its own moves change a registration, and only its publication makes it current. */
  lemma RegistrationCause(s: Sys, t: Step, c: Connection)
    requires Enabled(s, t) && c in Next(s, t).registrations && EndedCancelled(Next(s, t).registrations[c])
    ensures c in s.registrations
    ensures Withdraws(t, c) || Next(s, t).registrations[c] == s.registrations[c]
    ensures !Withdraws(t, c) && Current(Next(s, t).core, c) ==> Current(s.core, c)
  {
    match t
    case RegistrationStep(d, r) => RegistrationMoves(s, d, r, c);
    case TableStep(op) => TableKeeps(s.core, op);
    case RequestStep(f, m) => RequestPublishesNothing(s, f, m, c);
    case Arrive(_, _, _) =>
  }

  /**
   However a cancelled registration ended, one move decided whether its connection stayed
   published: it did if and only if it was current then and that move was interrupted before
   its lock or could not commit. A withdrawn connection is never published again.
   */
  lemma {:induction false} CancelledRegistrationEnds(states: seq<Sys>, ts: seq<Step>, i: nat, c: Connection)
    returns (k: nat)
    requires IsRun(states, ts) && i < |states|
    requires c in states[i].registrations && EndedCancelled(states[i].registrations[c])
    ensures k < i && Withdraws(ts[k], c)
    ensures Current(states[k + 1].core, c) <==> Current(states[k].core, c) && Fails(ts[k], c)
    ensures Current(states[i].core, c) ==> Current(states[k + 1].core, c)
    ensures states[k + 1].registrations[c] == states[i].registrations[c]
  {
    RegistrationCause(states[i - 1], ts[i - 1], c);
    if Withdraws(ts[i - 1], c) {
      k := i - 1;
      WithdrawalIff(states[k], ts[k], c);
    } else {
      k := CancelledRegistrationEnds(states, ts, i - 1, c);
    }
  }

  /** With its disconnect done, a cancelled registration leaves its connection unpublished for good. */
  lemma CancelledRegistrationIsNotPublished(states: seq<Sys>, ts: seq<Step>, i: nat, c: Connection)
    requires IsRun(states, ts) && i < |states|
    requires c in states[i].registrations && states[i].registrations[c].Abandoned?
    ensures !Current(states[i].core, c)
  {
    FiledAlways(states, ts, i);
    if c.device in states[i].core.connections { assert FiledAt(states[i], c.device); }
  }

  /** `register` returns from a publication that replaced nothing, or once the replaced connection is closed. */
  lemma ResumeIff(s: Sys, c: Connection)
    requires Enabled(s, RegistrationStep(c, Resume))
    ensures var before, after := s.registrations[c], Next(s, RegistrationStep(c, Resume)).registrations[c];
            && (after.Owned? <==> before == Resumable(None) || before == ClosingOld)
            && (after == ClosingOld <==> before.Resumable? && before.replaced != None)
            && Next(s, RegistrationStep(c, Resume)).core == s.core
  {
  }

  /** The registration was cancelled before it returned. */
  predicate WasCancelled(p: Registration) {
    p == Publishing(true) || p.Retiring? || p.Refused? || EndedCancelled(p)
  }

  lemma CancelledMoves(s: Sys, t: Step, c: Connection)
    requires Enabled(s, t) && c in s.registrations
    ensures c in Next(s, t).registrations
    ensures WasCancelled(s.registrations[c]) || t == RegistrationStep(c, CancelRegister) ==>
              WasCancelled(Next(s, t).registrations[c])
  {
  }

  /** A registration cancelled before it returned never returns: nobody comes to own its connection. */
  lemma {:induction false} CancelledNeverReturns(states: seq<Sys>, ts: seq<Step>, i: nat, j: nat, c: Connection)
    requires IsRun(states, ts) && i < j < |states| && ts[i] == RegistrationStep(c, CancelRegister)
    ensures c in states[j].registrations && WasCancelled(states[j].registrations[c])
    ensures !states[j].registrations[c].Owned?
    decreases j
  {
    CancelledReturnStep(states, ts, i, c);
    if i + 1 < j {
      CancelledNeverReturns(states, ts, i, j - 1, c);
      CancelledMoves(states[j - 1], ts[j - 1], c);
    }
  }

  lemma CancelledReturnStep(states: seq<Sys>, ts: seq<Step>, i: nat, c: Connection)
    requires IsRun(states, ts) && i < |ts| && ts[i] == RegistrationStep(c, CancelRegister)
    ensures c in states[i + 1].registrations && WasCancelled(states[i + 1].registrations[c])
  {
    assert Enabled(states[i], ts[i]);
    CancelledMoves(states[i], ts[i], c);
  }

  // ---------------------------------------------------------------- presence

  /** The durable status agrees with the connection table. */
  ghost predicate Presence(core: Core) {
    && (forall d :: Live(core.rows, d) && core.rows[d].status.Online? ==> d in core.connections)
    && (forall d :: d in core.connections && Live(core.rows, d) ==> !core.rows[d].status.Offline?)
  }

  lemma PresenceDisconnect(core: Core, c: Connection, commits: bool)
    requires Presence(core)
    ensures Presence(Disconnect(core, c, commits))
  {
  }

  lemma PresenceTable(s: Sys, op: TableMove)
    requires Filed(s) && Presence(s.core) && TableEnabled(s, op)
    requires op.DoClose? ==> op.failing == {}
    ensures Presence(NextTable(s.core, op))
  {
    match op
    case DoDisconnect(c, commits) => PresenceDisconnect(s.core, c, commits);
    case _ =>
  }

  lemma PresenceRegistration(s: Sys, c: Connection, r: RegistrationMove)
    requires Filed(s) && Presence(s.core) && RegistrationEnabled(s, c, r)
    ensures Presence(NextRegistration(s, c, r).core)
  {
    if r.Retire? { PresenceDisconnect(s.core, c, r.commits); }
  }

  lemma PresenceRequest(s: Sys, f: FutureId, m: RequestMove)
    requires Presence(s.core) && RequestEnabled(s, f, m)
    ensures Presence(NextRequestCore(s, f, m))
  {
    if m.RetireBroken? { PresenceDisconnect(s.core, s.calls[f].phase.on, m.commits); }
  }

  /** The step is no shutdown that loses a presence update. */
  predicate LosesNothing(t: Step) {
    t.TableStep? && t.op.DoClose? ==> t.op.failing == {}
  }

  lemma PresenceStep(s: Sys, t: Step)
    requires Filed(s) && Presence(s.core) && Enabled(s, t)
    requires LosesNothing(t)
    ensures Presence(Next(s, t).core)
  {
    match t
    case RegistrationStep(c, r) => PresenceRegistration(s, c, r);
    case TableStep(op) => PresenceTable(s, op);
    case RequestStep(f, m) => PresenceRequest(s, f, m);
    case Arrive(_, _, _) =>
  }

  /** Holds whichever other transactions fail; only a failing shutdown update can break it. */
  lemma PresenceAlways(states: seq<Sys>, ts: seq<Step>, i: nat)
    requires IsRun(states, ts) && i < |states|
    requires forall k | 0 <= k < |ts| :: LosesNothing(ts[k])
    ensures Presence(states[i].core)
  {
    if i > 0 {
      PresenceAlways(states, ts, i - 1);
      FiledAlways(states, ts, i - 1);
      PresenceStep(states[i - 1], ts[i - 1]);
    }
  }

  /** Exactly when shutdown leaves presence consistent: no lost update concerned an ONLINE device. */
  lemma PresenceAfterClose(s: Sys, failing: set<DeviceId>)
    requires Filed(s) && Presence(s.core)
    ensures Presence(Next(s, TableStep(DoClose(failing))).core) <==>
            forall d :: d in failing && d in s.core.connections && Live(s.core.rows, d) ==>
              !s.core.rows[d].status.Online?
  {
    var after := Close(s.core, failing);
    forall d | d in failing && d in s.core.connections && Live(s.core.rows, d)
      ensures after.rows[d] == s.core.rows[d] && Live(after.rows, d) && d !in after.connections
    {
    }
  }

  // ---------------------------------------------------------------- revocation

  lemma FrozenTable(core: Core, op: TableMove, d: DeviceId)
    requires d in core.rows && core.rows[d].IsRevoked()
    requires op.DoPair? ==> op.d != d
    ensures d in NextTable(core, op).rows && Frozen(core.rows[d], NextTable(core, op).rows[d])
  {
  }

  lemma FrozenRegistration(s: Sys, c: Connection, r: RegistrationMove, d: DeviceId)
    requires Enabled(s, RegistrationStep(c, r)) && d in s.core.rows && s.core.rows[d].IsRevoked()
    ensures var next := Next(s, RegistrationStep(c, r)).core;
            d in next.rows && Frozen(s.core.rows[d], next.rows[d])
  {
  }

  lemma FrozenRequest(s: Sys, f: FutureId, m: RequestMove, d: DeviceId)
    requires Enabled(s, RequestStep(f, m)) && d in s.core.rows && s.core.rows[d].IsRevoked()
    ensures var next := Next(s, RequestStep(f, m)).core;
            d in next.rows && Frozen(s.core.rows[d], next.rows[d])
  {
  }

  lemma FrozenStep(s: Sys, t: Step, d: DeviceId)
    requires Enabled(s, t) && d in s.core.rows && s.core.rows[d].IsRevoked()
    ensures d in Next(s, t).core.rows && Frozen(s.core.rows[d], Next(s, t).core.rows[d])
  {
    match t
    case RegistrationStep(c, r) => FrozenRegistration(s, c, r, d);
    case TableStep(op) => FrozenTable(s.core, op, d);
    case RequestStep(f, m) => FrozenRequest(s, f, m, d);
    case Arrive(_, _, _) =>
  }

  lemma {:induction false} FrozenAt(states: seq<Sys>, ts: seq<Step>, k: nat, d: DeviceId)
    requires IsRun(states, ts) && k < |ts| && d in states[k].core.rows && states[k].core.rows[d].IsRevoked()
    ensures d in states[k + 1].core.rows && Frozen(states[k].core.rows[d], states[k + 1].core.rows[d])
  {
    FrozenStep(states[k], ts[k], d);
  }

  lemma {:induction false} FrozenFrom(states: seq<Sys>, ts: seq<Step>, i: nat, j: nat, d: DeviceId)
    requires IsRun(states, ts) && i <= j < |states|
    requires d in states[i].core.rows && states[i].core.rows[d].IsRevoked()
    ensures d in states[j].core.rows && Frozen(states[i].core.rows[d], states[j].core.rows[d])
    decreases j - i
  {
    if i < j {
      FrozenFrom(states, ts, i, j - 1, d);
      FrozenAt(states, ts, j - 1, d);
    }
  }

  /** Nothing is done for a revoked device. */
  lemma RevokedIsShutOut(core: Core, d: DeviceId)
    requires d in core.rows && core.rows[d].IsRevoked()
    ensures forall c: Connection, now, commits :: c.device == d ==> !Publish(core, c, now, commits).1.Published?
    ensures forall c: Connection, now, mono, commits :: c.device == d ==> !Touch(core, c, now, mono, commits).1.Touched?
    ensures forall token, verify :: !Authenticates(core.rows, d, token, verify)
    ensures forall required, mutation :: Authorize(core.rows, d, required, mutation) == Failure(DeviceRevoked)
  {
  }

  /**
   Revocation is absorbing: from then on nothing changes the row's `last_seen`, level or
   capabilities, its status can only be set to REVOKED, and the device is never again
   published, touched, authenticated or authorized.
   */
  lemma {:induction false} RevocationIsFinal(states: seq<Sys>, ts: seq<Step>, i: nat, j: nat, d: DeviceId)
    requires IsRun(states, ts) && i <= j < |states|
    requires d in states[i].core.rows && states[i].core.rows[d].IsRevoked()
    ensures d in states[j].core.rows && Frozen(states[i].core.rows[d], states[j].core.rows[d])
    ensures forall c: Connection, now, commits :: c.device == d ==>
              !Publish(states[j].core, c, now, commits).1.Published?
    ensures forall c: Connection, now, mono, commits :: c.device == d ==>
              !Touch(states[j].core, c, now, mono, commits).1.Touched?
    ensures forall token, verify :: !Authenticates(states[j].core.rows, d, token, verify)
    ensures forall required, mutation :: Authorize(states[j].core.rows, d, required, mutation) == Failure(DeviceRevoked)
  {
    FrozenFrom(states, ts, i, j, d);
    RevokedIsShutOut(states[j].core, d);
  }
}
