/**
 What the WebSocket handler of an Agent does with an answer it has read: it touches the
 connection first, and hands the answer to `resolve` only if the touch succeeds; otherwise it
 leaves, which retires the connection. Everything else the registry does may interleave.
 */
module AgentHandlers {
  import opened Common
  import opened Devices
  import opened Registry
  import opened RegistryRuns
  import opened RegistryPresence
  import opened RegistryRequests
  import opened RegistryWitnesses

  /** Where a handler is with an answer; one that is not in the map waits for the next message. */
  datatype Handling =
    | Read(request: RequestId, body: Body)
    | Admitted(request: RequestId, body: Body)  // touched, about to be handed to `resolve`
    | Leaving                                   // the touch raised
    | Left

  datatype World = World(sys: Sys, handlers: map<Connection, Handling>)

  datatype WorldStep =
    | ReadAnswer(c: Connection, request: RequestId, body: Body)
    | TouchFirst(c: Connection, now: Time, mono: Time, commits: bool)
    | Hand(c: Connection)
    | Leave(c: Connection, commits: bool)
    | Elsewhere(t: Step)

  predicate Owned(w: World, c: Connection) {
    c in w.sys.registrations && w.sys.registrations[c].Owned?
  }

  predicate WorldEnabled(w: World, t: WorldStep) {
    match t
    case ReadAnswer(c, _, _) => Owned(w, c) && c !in w.handlers
    case TouchFirst(c, _, _, _) => Owned(w, c) && c in w.handlers && w.handlers[c].Read?
    case Hand(c) => Owned(w, c) && c in w.handlers && w.handlers[c].Admitted?
    case Leave(c, _) => Owned(w, c) && (c in w.handlers ==> !w.handlers[c].Left?)
    case Elsewhere(step) => !step.Arrive? && Enabled(w.sys, step)
  }

  /** The registry step that a step of the handlers takes, if any. */
  function Inner(w: World, t: WorldStep): Option<Step>
    requires WorldEnabled(w, t)
  {
    match t
    case ReadAnswer(_, _, _) => None
    case TouchFirst(c, now, mono, commits) => Some(TableStep(DoTouch(c, now, mono, commits)))
    case Hand(c) => Some(Arrive(c, w.handlers[c].request, w.handlers[c].body))
    case Leave(c, commits) => Some(TableStep(DoDisconnect(c, commits)))
    case Elsewhere(step) => Some(step)
  }

  function NextHandlers(w: World, t: WorldStep): map<Connection, Handling>
    requires WorldEnabled(w, t)
  {
    match t
    case ReadAnswer(c, request, body) => w.handlers[c := Read(request, body)]
    case TouchFirst(c, now, mono, commits) =>
      var outcome := Touch(w.sys.core, c, now, mono, commits).1;
      w.handlers[c := if outcome.Touched? then Admitted(w.handlers[c].request, w.handlers[c].body) else Leaving]
    case Hand(c) => w.handlers - {c}
    case Leave(c, _) => w.handlers[c := Left]
    case Elsewhere(_) => w.handlers
  }

  function NextWorld(w: World, t: WorldStep): World
    requires WorldEnabled(w, t)
  {
    World(if Inner(w, t).Some? then Next(w.sys, Inner(w, t).value) else w.sys, NextHandlers(w, t))
  }

  ghost predicate IsWorldRun(ws: seq<World>, ts: seq<WorldStep>) {
    && |ws| == |ts| + 1
    && Init(ws[0].sys) && ws[0].handlers == map[]
    && forall i :: 0 <= i < |ts| ==> WorldEnabled(ws[i], ts[i]) && ws[i + 1] == NextWorld(ws[i], ts[i])
  }

  // ---------------------------------------------------------------- a run of the registry inside

  /** Every run with handlers contains a run of the registry that ends in the same state. */
  lemma {:induction false} WorldRunProjects(ws: seq<World>, ts: seq<WorldStep>, i: nat)
    returns (states: seq<Sys>, steps: seq<Step>)
    requires IsWorldRun(ws, ts) && i < |ws|
    ensures IsRun(states, steps) && states[|steps|] == ws[i].sys
  {
    if i == 0 {
      states, steps := [ws[0].sys], [];
    } else {
      states, steps := WorldRunProjects(ws, ts, i - 1);
      var inner := Inner(ws[i - 1], ts[i - 1]);
      if inner.Some? {
        RunExtends(states, steps, inner.value);
        states, steps := states + [Next(ws[i - 1].sys, inner.value)], steps + [inner.value];
      }
    }
  }

  lemma {:induction false} WorldKeeps(ws: seq<World>, ts: seq<WorldStep>, i: nat, f: FutureId)
    requires IsWorldRun(ws, ts) && i < |ws|
    ensures Ownership(ws[i].sys) && KeepsEntry(ws[i].sys, f)
  {
    var states, steps := WorldRunProjects(ws, ts, i);
    OwnershipAlways(states, steps, |steps|);
    KeepsEntryAlways(states, steps, |steps|, f);
  }

  // ---------------------------------------------------------------- when an answer that was read is delivered

  /** The call is in progress, waits, and this would be the answer to it. */
  ghost predicate Awaits(s: Sys, f: FutureId, on: Connection, request: RequestId) {
    && f in s.calls && InProgress(s.calls[f].phase) && s.calls[f].key == Key(on.device, request)
    && f in s.core.futures && s.core.futures[f].Waiting?
  }

  /** The touch admits the answer exactly for the current connection of a live device, if it commits. */
  lemma TouchAdmitsIff(w: World, c: Connection, now: Time, mono: Time, commits: bool)
    requires WorldEnabled(w, TouchFirst(c, now, mono, commits))
    ensures var next := NextWorld(w, TouchFirst(c, now, mono, commits));
            && c in next.handlers
            && (WorldEnabled(next, Hand(c)) <==> Current(w.sys.core, c) && commits && Live(w.sys.core.rows, c.device))
            && (!WorldEnabled(next, Hand(c)) ==> next.handlers[c].Leaving?)
            && next.sys.core.futures == w.sys.core.futures && next.sys.core.pending == w.sys.core.pending
            && next.sys.calls == w.sys.calls
            && (WorldEnabled(next, Hand(c)) ==>
                  next.sys.core.rows[c.device].lastSeen == Some(now) && next.sys.core.lastSeen[c] == mono)
  {
  }

  /**
   Whatever happened since the touch: an admitted answer completes a waiting call if and only if
   it was read on the call's recorded connection.
   */
  lemma {:induction false} HandDeliversIff(ws: seq<World>, ts: seq<WorldStep>, i: nat, f: FutureId, c: Connection)
    requires IsWorldRun(ws, ts) && i < |ws| && WorldEnabled(ws[i], Hand(c))
    requires Awaits(ws[i].sys, f, c, ws[i].handlers[c].request)
    ensures var answered := NextWorld(ws[i], Hand(c)).sys.core.futures;
            f in answered && (answered[f] == Completed(ws[i].handlers[c].body) <==> c == ws[i].sys.calls[f].recorded)
  {
    WorldKeeps(ws, ts, i, f);
  }

  /** What the handler does with the answer it has read, when nothing interleaves. */
  function Handle(w: World, c: Connection, now: Time, mono: Time, commits: bool): World
    requires WorldEnabled(w, TouchFirst(c, now, mono, commits))
  {
    var touched := NextWorld(w, TouchFirst(c, now, mono, commits));
    if WorldEnabled(touched, Hand(c)) then NextWorld(touched, Hand(c)) else touched
  }

  /**
   Exactly when an answer that was read is delivered: a call in progress that still waits is
   completed if and only if the answer was read on the connection recorded at registration,
   this is still the current one of a live device, and the touch commits.
   */
  lemma {:induction false} ReadAnswerDeliveredIff(ws: seq<World>, ts: seq<WorldStep>, i: nat, f: FutureId,
                                                  on: Connection, now: Time, mono: Time, commits: bool)
    requires IsWorldRun(ws, ts) && i < |ws| && WorldEnabled(ws[i], TouchFirst(on, now, mono, commits))
    requires Awaits(ws[i].sys, f, on, ws[i].handlers[on].request)
    ensures var s, answered := ws[i].sys, Handle(ws[i], on, now, mono, commits).sys.core.futures;
            && f in answered
            && (answered[f] == Completed(ws[i].handlers[on].body) <==>
                  on == s.calls[f].recorded && Current(s.core, on) && commits && Live(s.core.rows, on.device))
  {
    WorldKeeps(ws, ts, i, f);
    TouchAdmitsIff(ws[i], on, now, mono, commits);
  }

  /**
   A handler that leaves fails a waiting call if and only if the connection is the call's
   recorded one and its retirement takes place; a replaced connection needs no transaction.
   */
  lemma {:induction false} LeaveFailsIff(ws: seq<World>, ts: seq<WorldStep>, i: nat, f: FutureId,
                                         c: Connection, commits: bool)
    requires IsWorldRun(ws, ts) && i < |ws| && WorldEnabled(ws[i], Leave(c, commits))
    requires f in ws[i].sys.calls && Awaits(ws[i].sys, f, ws[i].sys.calls[f].recorded, ws[i].sys.calls[f].key.request)
    ensures var s, failed := ws[i].sys, NextWorld(ws[i], Leave(c, commits)).sys.core.futures;
            && f in failed
            && (failed[f].Unavailable? <==> c == s.calls[f].recorded && (commits || !Current(s.core, c)))
  {
    WorldKeeps(ws, ts, i, f);
    var s := ws[i].sys;
    var k := s.calls[f].key;
    assert s.core.pending[k] == Entry(s.calls[f].recorded, f);
    DisconnectFails(s.core, c, commits);
    if c == s.calls[f].recorded {
      assert f in FuturesOf(s.core.pending, c);
    } else {
      AloneInTable(s, k);
      assert k in Disconnect(s.core, c, commits).pending;
      DisconnectSpares(s.core, c, commits, k);
    }
  }

  // ---------------------------------------------------------------- where delivered answers were read

  /** Step `b` touched `c` successfully. */
  ghost predicate TouchedAt(ws: seq<World>, ts: seq<WorldStep>, b: nat, c: Connection) {
    && b < |ts| < |ws| && ts[b].TouchFirst? && ts[b].c == c
    && Current(ws[b].sys.core, c) && Live(ws[b].sys.core.rows, c.device) && ts[b].commits
  }

  lemma HandlingCause(w: World, t: WorldStep, c: Connection)
    requires WorldEnabled(w, t) && c in NextWorld(w, t).handlers
    ensures var after := NextWorld(w, t).handlers[c];
            || (c in w.handlers && w.handlers[c] == after)
            || (after.Read? && t == ReadAnswer(c, after.request, after.body))
            || (after.Admitted? && c in w.handlers && w.handlers[c] == Read(after.request, after.body)
                && t.TouchFirst? && t.c == c && Current(w.sys.core, c) && Live(w.sys.core.rows, c.device) && t.commits)
            || after.Leaving? || after.Left?
  {
  }

  lemma {:induction false} ReadTrace(ws: seq<World>, ts: seq<WorldStep>, i: nat, c: Connection) returns (a: nat)
    requires IsWorldRun(ws, ts) && i < |ws| && c in ws[i].handlers && ws[i].handlers[c].Read?
    ensures a < i && ts[a] == ReadAnswer(c, ws[i].handlers[c].request, ws[i].handlers[c].body)
  {
    HandlingCause(ws[i - 1], ts[i - 1], c);
    if c in ws[i - 1].handlers && ws[i - 1].handlers[c] == ws[i].handlers[c] {
      a := ReadTrace(ws, ts, i - 1, c);
    } else {
      a := i - 1;
    }
  }

  lemma {:induction false} AdmittedTrace(ws: seq<World>, ts: seq<WorldStep>, i: nat, c: Connection)
    returns (a: nat, b: nat)
    requires IsWorldRun(ws, ts) && i < |ws| && c in ws[i].handlers && ws[i].handlers[c].Admitted?
    ensures a < b < i && TouchedAt(ws, ts, b, c)
    ensures ts[a] == ReadAnswer(c, ws[i].handlers[c].request, ws[i].handlers[c].body)
  {
    HandlingCause(ws[i - 1], ts[i - 1], c);
    if c in ws[i - 1].handlers && ws[i - 1].handlers[c] == ws[i].handlers[c] {
      a, b := AdmittedTrace(ws, ts, i - 1, c);
    } else {
      b := i - 1;
      a := ReadTrace(ws, ts, b, c);
    }
  }

  /** A handler that was listening has read an answer since, if it now has one. */
  lemma {:induction false} ReadSince(ws: seq<World>, ts: seq<WorldStep>, k: nat, i: nat, c: Connection) returns (a: nat)
    requires IsWorldRun(ws, ts) && k < i < |ws| && c !in ws[k].handlers
    requires c in ws[i].handlers && (ws[i].handlers[c].Read? || ws[i].handlers[c].Admitted?)
    ensures k <= a < i && ts[a].ReadAnswer? && ts[a].c == c
    decreases i
  {
    HandlingCause(ws[i - 1], ts[i - 1], c);
    if ts[i - 1].ReadAnswer? && ts[i - 1].c == c {
      a := i - 1;
    } else {
      a := ReadSince(ws, ts, k, i - 1, c);
    }
  }

  /** No answer is handed over twice: between two handovers of a handler it has read again. */
  lemma {:induction false} HandedOnce(ws: seq<World>, ts: seq<WorldStep>, k: nat, l: nat, c: Connection)
    returns (a: nat)
    requires IsWorldRun(ws, ts) && k < l < |ts| && ts[k] == Hand(c) && ts[l] == Hand(c)
    ensures k < a < l && ts[a].ReadAnswer? && ts[a].c == c
  {
    assert WorldEnabled(ws[l], ts[l]) && ws[k + 1] == NextWorld(ws[k], ts[k]);
    a := ReadSince(ws, ts, k + 1, l, c);
  }

  /** A handler that left is gone: it reads, touches and hands over nothing any more. */
  lemma {:induction false} LeftForGood(ws: seq<World>, ts: seq<WorldStep>, k: nat, i: nat, c: Connection)
    requires IsWorldRun(ws, ts) && k < i < |ws| && ts[k].Leave? && ts[k].c == c
    ensures c in ws[i].handlers && ws[i].handlers[c] == Left
    decreases i
  {
    if k + 1 < i {
      LeftForGood(ws, ts, k, i - 1, c);
      assert WorldEnabled(ws[i - 1], ts[i - 1]);
    }
  }

  predicate IsAnswered(s: Sys, f: FutureId) {
    f in s.core.futures && (s.core.futures[f].Answered? || s.core.futures[f].RemoteError?)
  }

  /** A future becomes answered only when its answer is handed over on the recorded connection. */
  lemma {:induction false} AnsweredBy(w: World, t: WorldStep, f: FutureId)
    requires Ownership(w.sys) && WorldEnabled(w, t) && IsAnswered(NextWorld(w, t).sys, f) && !IsAnswered(w.sys, f)
    ensures t.Hand? && f in w.sys.calls && t.c == w.sys.calls[f].recorded
    ensures w.sys.calls[f].key.request == w.handlers[t.c].request
    ensures NextWorld(w, t).sys.core.futures[f] == Completed(w.handlers[t.c].body)
    ensures NextWorld(w, t).sys.calls == w.sys.calls
  {
    var step := Inner(w, t).value;
    if f in w.sys.core.futures {
      FutureCause(w.sys, step, f);
      var k := Key(step.on.device, step.request);
      assert EntryOf(w.sys, k);
    } else {
      SameIdsStep(w.sys, step);
    }
  }

  lemma {:induction false} AnsweredStays(w: World, t: WorldStep, f: FutureId)
    requires Ownership(w.sys) && WorldEnabled(w, t) && IsAnswered(w.sys, f)
    ensures var next := NextWorld(w, t).sys;
            && f in next.core.futures && next.core.futures[f] == w.sys.core.futures[f]
            && f in w.sys.calls && f in next.calls
            && next.calls[f].key == w.sys.calls[f].key && next.calls[f].recorded == w.sys.calls[f].recorded
  {
    if Inner(w, t).Some? {
      DoneStays(w.sys, Inner(w, t).value, f);
      CallCause(w.sys, Inner(w, t).value, f);
    }
  }

  /** Answer `body` to `request` was read on `c` at step `a`, `c` was touched at `b`, and it was handed over at `k`. */
  ghost predicate HandledAt(ws: seq<World>, ts: seq<WorldStep>, a: nat, b: nat, k: nat,
                            c: Connection, request: RequestId, body: Body)
  {
    && a < b < k < |ts| && ts[a] == ReadAnswer(c, request, body)
    && TouchedAt(ws, ts, b, c) && ts[k] == Hand(c)
  }

  lemma {:induction false} DeliveredNow(ws: seq<World>, ts: seq<WorldStep>, k: nat, f: FutureId)
    returns (a: nat, b: nat, body: Body)
    requires IsWorldRun(ws, ts) && k < |ts| && !IsAnswered(ws[k].sys, f) && IsAnswered(ws[k + 1].sys, f)
    ensures f in ws[k + 1].sys.calls && ws[k + 1].sys.core.futures[f] == Completed(body)
    ensures HandledAt(ws, ts, a, b, k, ws[k + 1].sys.calls[f].recorded, ws[k + 1].sys.calls[f].key.request, body)
  {
    WorldKeeps(ws, ts, k, f);
    AnsweredBy(ws[k], ts[k], f);
    body := ws[k].handlers[ts[k].c].body;
    a, b := AdmittedTrace(ws, ts, k, ts[k].c);
  }

  /** The same outcome of the same call in both states. */
  ghost predicate SameAnswer(s: Sys, later: Sys, f: FutureId) {
    && f in s.core.futures && f in later.core.futures && later.core.futures[f] == s.core.futures[f]
    && f in s.calls && f in later.calls
    && later.calls[f].key == s.calls[f].key && later.calls[f].recorded == s.calls[f].recorded
  }

  /** The step at which a future became answered; it keeps that answer. */
  lemma {:induction false} AnswerStep(ws: seq<World>, ts: seq<WorldStep>, i: nat, f: FutureId) returns (k: nat)
    requires IsWorldRun(ws, ts) && i < |ws| && IsAnswered(ws[i].sys, f)
    ensures k < i && !IsAnswered(ws[k].sys, f) && IsAnswered(ws[k + 1].sys, f)
    ensures SameAnswer(ws[k + 1].sys, ws[i].sys, f)
  {
    WorldKeeps(ws, ts, i - 1, f);
    if IsAnswered(ws[i - 1].sys, f) {
      AnsweredStays(ws[i - 1], ts[i - 1], f);
      k := AnswerStep(ws, ts, i - 1, f);
    } else {
      AnsweredBy(ws[i - 1], ts[i - 1], f);
      k := i - 1;
    }
  }

  /**
   In every run a delivered answer was read on the recorded connection, then that connection was
   touched while it was the current one of a live device, and then the answer was handed over.
   */
  lemma {:induction false} DeliveredAfterTouch(ws: seq<World>, ts: seq<WorldStep>, i: nat, f: FutureId)
    returns (a: nat, b: nat, k: nat, body: Body)
    requires IsWorldRun(ws, ts) && i < |ws| && IsAnswered(ws[i].sys, f)
    ensures f in ws[i].sys.calls && ws[i].sys.core.futures[f] == Completed(body) && k < i
    ensures HandledAt(ws, ts, a, b, k, ws[i].sys.calls[f].recorded, ws[i].sys.calls[f].key.request, body)
  {
    k := AnswerStep(ws, ts, i, f);
    a, b, body := DeliveredNow(ws, ts, k, f);
  }

  // ---------------------------------------------------------------- a replaced connection

  /** SECOND has replaced FIRST, which the waiting call recorded; FIRST's handler still reads. */
  function ReplacedOwner(): Sys {
    Replaced2(Awaiting).(registrations := map[FIRST := RegistryRuns.Owned, SECOND := Resumable(Some(FIRST))])
  }

  lemma ReachReplacedOwner()
    ensures Reached(ReplacedOwner(), false)
  {
    ReachReplaced();
    ExtendRegistration(Replaced2(Awaiting), FIRST, Resume, ReplacedOwner(), false);
  }

  lemma TouchRefused(body: Body, now: Time, mono: Time)
    ensures var w := World(ReplacedOwner(), map[FIRST := Read(ASKED.request, body)]);
            && w == NextWorld(World(ReplacedOwner(), map[]), ReadAnswer(FIRST, ASKED.request, body))
            && NextWorld(w, TouchFirst(FIRST, now, mono, true)) == World(ReplacedOwner(), map[FIRST := Leaving])
  {
    var handlers: map<Connection, Handling> := map[];
    assert handlers[FIRST := Read(ASKED.request, body)] == map[FIRST := Read(ASKED.request, body)];
    assert map[FIRST := Read(ASKED.request, body)][FIRST := Leaving] == map[FIRST := Leaving];
    assert Touch(ReplacedOwner().core, FIRST, now, mono, true) == (ReplacedOwner().core, Replaced);
  }

  lemma LeavingFails(commits: bool)
    ensures var w := World(ReplacedOwner(), map[FIRST := Leaving]);
            NextWorld(w, Leave(FIRST, commits)).sys.core.futures == map[0 := Unavailable]
  {
    var core := ReplacedOwner().core;
    assert ASKED in core.pending && core.pending[ASKED] == Entry(FIRST, 0);
    assert FuturesOf(core.pending, FIRST) == {0};
  }

  /**
   An answer on the recorded connection that is not delivered: FIRST was replaced, so the touch
   refuses the answer and the call waits on, until FIRST's handler leaves and the call fails.
   */
  lemma ReplacedAnswerIsRefused(body: Body, now: Time, mono: Time, commits: bool)
    ensures Reached(ReplacedOwner(), false) && ReplacedOwner().calls[0].recorded == FIRST
    ensures var read := NextWorld(World(ReplacedOwner(), map[]), ReadAnswer(FIRST, ASKED.request, body));
            var refused := NextWorld(read, TouchFirst(FIRST, now, mono, true));
            && !WorldEnabled(refused, Hand(FIRST)) && refused.sys.core.futures == map[0 := Waiting]
            && NextWorld(refused, Leave(FIRST, commits)).sys.core.futures == map[0 := Unavailable]
  {
    ReachReplacedOwner();
    TouchRefused(body, now, mono);
    LeavingFails(commits);
  }
}
