/**
 Every interleaving of the registry's callers: registrations, requests, heartbeats,
 answers, expiry, shutdown and the administrator. One step is one lock-protected
 block, or the code a task runs between two awaits outside the lock.
 */
module RegistryRuns {
  import opened Common
  import opened Devices
  import opened Registry

  /** How far one call of `register` has come. */
  datatype Registration =
    | Publishing(cancelled: bool)            // the shielded publication task is running
    | Resumable(replaced: Option<Connection>) // published; `register` has not resumed yet
    | ClosingOld                             // closing the connection it replaced
    | Owned                                  // returned to the WebSocket handler
    | Retiring                               // cancelled after publication, about to disconnect
    | Abandoned                              // ended by cancellation
    | Stranded                               // cancelled, and its disconnect could not commit
    | Orphaned                               // cancelled again before its disconnect got the lock
    | Refused                                // publication was rejected or failed

  /** How far one call of `request` has come. */
  datatype Phase =
    | Chosen                        // a connection was read, the lock is not held yet
    | Registered                    // its entry is in the pending table
    | Sending(on: Connection)
    | SendBroken(on: Connection)    // the socket failed; the connection is to be retired
    | Awaiting
    | CleaningUp                    // waiting for the lock in the `finally` block
    | Finished
    | Leaked                        // cancelled while waiting for that lock

  /** `since` counts the answers that had arrived when the entry was added. */
  datatype Call = Call(key: Key, recorded: Connection, since: nat, phase: Phase)

  datatype Arrival = Arrival(on: Connection, request: RequestId, body: Body)

  datatype Frame = Frame(call: FutureId, on: Connection)

  /**
   The registry with its callers. `arrivals`, `wire` and `source` are history:
   answers received, frames handed to a socket, and the answer that completed a future.
   */
  datatype Sys = Sys(
    core: Core,
    registrations: map<Connection, Registration>,
    calls: map<FutureId, Call>,
    arrivals: seq<Arrival>,
    source: map<FutureId, nat>,
    wire: seq<Frame>)

  /** What happens to one call of `register`, which `c` names. */
  datatype RegistrationMove =
    | Open(mono: Time)
    | DoPublish(now: Time, commits: bool)
    | Resume
    | CancelRegister
    | Retire(commits: bool)
    | InterruptRetire

  /** Blocks that concern only the registry and the device table. */
  datatype TableMove =
    | DoTouch(c: Connection, now: Time, mono: Time, commits: bool)
    | DoDisconnect(c: Connection, commits: bool)
    | DoExpire(gone: set<DeviceId>)
    | DoClose(failing: set<DeviceId>)
    | DoRevoke(d: DeviceId, at: Time)
    | DoSetPermission(d: DeviceId, level: Permission)
    | DoPair(d: DeviceId, device: Device)

  /** What happens to one call of `request`, which its future names. */
  datatype RequestMove =
    | Begin(key: Key)
    | DoAdmit
    | BeginSend
    | SendDone
    | SendBreaks
    | RetireBroken(commits: bool)
    | Wake
    | Interrupt
    | CleanUp
    | InterruptCleanUp

  datatype Step =
    | RegistrationStep(c: Connection, r: RegistrationMove)
    | TableStep(op: TableMove)
    | RequestStep(f: FutureId, m: RequestMove)
    | Arrive(on: Connection, request: RequestId, body: Body)

  predicate RegistrationEnabled(s: Sys, c: Connection, r: RegistrationMove) {
    match r
    case Open(_) => c !in s.registrations
    case DoPublish(_, _) => c in s.registrations && s.registrations[c].Publishing?
    case Resume => c in s.registrations && (s.registrations[c].Resumable? || s.registrations[c].ClosingOld?)
    case CancelRegister =>
      c in s.registrations &&
      (s.registrations[c] == Publishing(false) || s.registrations[c].Resumable? || s.registrations[c].ClosingOld?)
    case Retire(_) => c in s.registrations && s.registrations[c].Retiring?
    case InterruptRetire => c in s.registrations && s.registrations[c].Retiring?
  }

  predicate TableEnabled(s: Sys, op: TableMove) {
    match op
    case DoTouch(c, _, _, _) => c in s.registrations
    case DoDisconnect(c, _) => c in s.registrations
    case DoExpire(gone) => gone <= s.core.connections.Keys
    case DoPair(d, device) => d !in s.core.rows && device.status.Offline? && device.revokedAt.None?
    case _ => true
  }

  predicate RequestEnabled(s: Sys, f: FutureId, m: RequestMove) {
    if m.Begin? then
      f !in s.calls && m.key.device in s.core.connections
    else
      f in s.calls && f in s.core.futures && MayMove(s.calls[f].phase, s.core.futures[f], m)
  }

  predicate MayMove(p: Phase, future: FutureState, m: RequestMove) {
    match m
    case Begin(_) => false
    case DoAdmit => p.Chosen?
    case BeginSend => p.Registered?
    case SendDone => p.Sending?
    case SendBreaks => p.Sending?
    case RetireBroken(_) => p.SendBroken?
    case Wake => p.Awaiting? && !future.Waiting?
    case Interrupt => !p.CleaningUp? && !p.Finished? && !p.Leaked?
    case CleanUp => p.CleaningUp?
    case InterruptCleanUp => p.CleaningUp?
  }

  predicate Enabled(s: Sys, t: Step) {
    match t
    case RegistrationStep(c, r) => RegistrationEnabled(s, c, r)
    case TableStep(op) => TableEnabled(s, op)
    case RequestStep(f, m) => RequestEnabled(s, f, m)
    case Arrive(c, _, _) => c in s.registrations
  }

  function NextRegistration(s: Sys, c: Connection, r: RegistrationMove): Sys
    requires RegistrationEnabled(s, c, r)
  {
    match r
    case Open(mono) =>
      s.(core := s.core.(lastSeen := s.core.lastSeen[c := mono]),
         registrations := s.registrations[c := Publishing(false)])
    case DoPublish(now, commits) =>
      var (core, outcome) := Publish(s.core, c, now, commits);
      var after := if !outcome.Published? then Refused
                   else if s.registrations[c].cancelled then Retiring
                   else Resumable(outcome.replaced);
      s.(core := core, registrations := s.registrations[c := after])
    case Resume =>
      var after := if s.registrations[c].Resumable? && s.registrations[c].replaced.Some? then ClosingOld else Owned;
      s.(registrations := s.registrations[c := after])
    case CancelRegister =>
      var after := if s.registrations[c].Publishing? then Publishing(true) else Retiring;
      s.(registrations := s.registrations[c := after])
    case Retire(commits) =>
      var after := if Current(s.core, c) && !commits then Stranded else Abandoned;
      s.(core := Disconnect(s.core, c, commits), registrations := s.registrations[c := after])
    case InterruptRetire => s.(registrations := s.registrations[c := Orphaned])
  }

  function NextTable(core: Core, op: TableMove): Core {
    match op
    case DoTouch(c, now, mono, commits) => Touch(core, c, now, mono, commits).0
    case DoDisconnect(c, commits) => Disconnect(core, c, commits)
    case DoExpire(gone) => Expire(core, gone)
    case DoClose(failing) => Close(core, failing)
    case DoRevoke(d, at) => core.(rows := Revoke(core.rows, d, at))
    case DoSetPermission(d, level) => core.(rows := SetPermission(core.rows, d, level))
    case DoPair(d, device) => core.(rows := core.rows[d := device])
  }

  /** The call after one of its moves. */
  function NextCall(s: Sys, f: FutureId, m: RequestMove): Call
    requires RequestEnabled(s, f, m)
  {
    if m.Begin? then Call(m.key, s.core.connections[m.key.device], 0, Chosen) else
    var call := s.calls[f];
    match m
    case DoAdmit =>
      if call.key in s.core.pending then call.(phase := Finished)
      else call.(phase := Registered, since := |s.arrivals|)
    case BeginSend =>
      if call.key.device !in s.core.connections then call.(phase := CleaningUp)
      else call.(phase := Sending(s.core.connections[call.key.device]))
    case SendDone => call.(phase := if Current(s.core, call.phase.on) then Awaiting else CleaningUp)
    case SendBreaks => call.(phase := SendBroken(call.phase.on))
    case RetireBroken(_) => call.(phase := CleaningUp)
    case Wake => call.(phase := CleaningUp)
    case Interrupt => call.(phase := if call.phase.Chosen? then Finished else CleaningUp)
    case CleanUp => call.(phase := Finished)
    case InterruptCleanUp => call.(phase := Leaked)
  }

  /** The registry after one move of a call; cancelling a task that awaits a future cancels it. */
  function NextRequestCore(s: Sys, f: FutureId, m: RequestMove): Core
    requires RequestEnabled(s, f, m)
  {
    match m
    case Begin(_) => s.core.(futures := s.core.futures[f := Waiting])
    case DoAdmit => Admit(s.core, s.calls[f].key, s.calls[f].recorded, f)
    case RetireBroken(commits) => Disconnect(s.core, s.calls[f].phase.on, commits)
    case Interrupt =>
      if s.calls[f].phase.Awaiting? && s.core.futures[f].Waiting?
      then s.core.(futures := s.core.futures[f := Cancelled]) else s.core
    case CleanUp => Settle(s.core, s.calls[f].key, f)
    case _ => s.core
  }

  function NextRequest(s: Sys, f: FutureId, m: RequestMove): Sys
    requires RequestEnabled(s, f, m)
  {
    var call := NextCall(s, f, m);
    s.(core := NextRequestCore(s, f, m),
       calls := s.calls[f := call],
       wire := if m.BeginSend? && call.phase.Sending? then s.wire + [Frame(f, call.phase.on)] else s.wire)
  }

  predicate Completes(core: Core, c: Connection, request: RequestId) {
    && Accepts(core, c, request)
    && core.pending[Key(c.device, request)].future in core.futures
    && core.futures[core.pending[Key(c.device, request)].future].Waiting?
  }

  function NextArrival(s: Sys, c: Connection, request: RequestId, body: Body): Sys {
    s.(core := Resolve(s.core, c, request, body),
       arrivals := s.arrivals + [Arrival(c, request, body)],
       source := if Completes(s.core, c, request)
                 then s.source[s.core.pending[Key(c.device, request)].future := |s.arrivals|] else s.source)
  }

  function Next(s: Sys, t: Step): Sys
    requires Enabled(s, t)
  {
    match t
    case RegistrationStep(c, r) => NextRegistration(s, c, r)
    case TableStep(op) => s.(core := NextTable(s.core, op))
    case RequestStep(f, m) => NextRequest(s, f, m)
    case Arrive(c, request, body) => NextArrival(s, c, request, body)
  }

  /** A Gateway that has just started: nothing connected, no live device ONLINE. */
  ghost predicate Init(s: Sys) {
    && s.core.connections == map[] && s.core.pending == map[] && s.core.futures == map[]
    && s.registrations == map[] && s.calls == map[] && s.source == map[]
    && s.arrivals == [] && s.wire == []
    && (forall d :: d in s.core.rows && !s.core.rows[d].IsRevoked() ==> !s.core.rows[d].status.Online?)
  }

  ghost predicate IsRun(states: seq<Sys>, ts: seq<Step>) {
    && |states| == |ts| + 1
    && Init(states[0])
    && forall i :: 0 <= i < |ts| ==> Enabled(states[i], ts[i]) && states[i + 1] == Next(states[i], ts[i])
  }

  /** A run goes on with any enabled step. */
  lemma RunExtends(states: seq<Sys>, ts: seq<Step>, t: Step)
    requires IsRun(states, ts) && Enabled(states[|ts|], t)
    ensures IsRun(states + [Next(states[|ts|], t)], ts + [t])
  {
    var longer, steps := states + [Next(states[|ts|], t)], ts + [t];
    forall i | 0 <= i < |steps|
      ensures Enabled(longer[i], steps[i]) && longer[i + 1] == Next(longer[i], steps[i])
    {
      if i < |ts| { assert steps[i] == ts[i] && longer[i] == states[i] && longer[i + 1] == states[i + 1]; }
    }
  }
}
