/**
 Concrete runs of the registry that mark the limits of what it promises: a pending entry can
 outlive its call, a frame can be sent whose answer will be ignored, a connection can stay
 published after its registration was cancelled, and shutdown can leave a row ONLINE.
 */
module RegistryWitnesses {
  import opened Common
  import opened Devices
  import opened Registry
  import opened RegistryRuns
  import opened RegistryPresence
  import opened RegistryRequests

  const FIRST: Connection := Connection(0, 1)
  const SECOND: Connection := Connection(0, 2)
  const ASKED: Key := Key(0, 7)

  /** A run leads from the start to `s`; with `calm`, no call was cancelled before its cleanup. */
  ghost predicate Reached(s: Sys, calm: bool) {
    exists states: seq<Sys>, ts: seq<Step> ::
      && IsRun(states, ts) && states[|ts|] == s
      && (calm ==> forall k :: 0 <= k < |ts| && ts[k].RequestStep? ==> !ts[k].m.Interrupt?)
  }

  lemma ReachStart(s: Sys, calm: bool)
    requires Init(s)
    ensures Reached(s, calm)
  {
    var states, ts: seq<Step> := [s], [];
    assert IsRun(states, ts) && states[|ts|] == s;
  }

  lemma Extend(s: Sys, t: Step, calm: bool)
    requires Reached(s, calm) && Enabled(s, t)
    requires calm && t.RequestStep? ==> !t.m.Interrupt?
    ensures Reached(Next(s, t), calm)
  {
    var states: seq<Sys>, ts: seq<Step> :|
      && IsRun(states, ts) && states[|ts|] == s
      && (calm ==> forall k :: 0 <= k < |ts| && ts[k].RequestStep? ==> !ts[k].m.Interrupt?);
    RunExtends(states, ts, t);
    var longer, steps := states + [Next(s, t)], ts + [t];
    forall k | 0 <= k < |steps| && calm && steps[k].RequestStep?
      ensures !steps[k].m.Interrupt?
    {
      if k < |ts| { assert steps[k] == ts[k]; }
    }
    assert longer[|steps|] == Next(s, t);
  }

  lemma ExtendRequest(s: Sys, f: FutureId, m: RequestMove, next: Sys, calm: bool)
    requires Reached(s, calm) && RequestEnabled(s, f, m) && next == NextRequest(s, f, m)
    requires calm ==> !m.Interrupt?
    ensures Reached(next, calm)
  {
    Extend(s, RequestStep(f, m), calm);
  }

  lemma ExtendRegistration(s: Sys, c: Connection, r: RegistrationMove, next: Sys, calm: bool)
    requires Reached(s, calm) && RegistrationEnabled(s, c, r) && next == NextRegistration(s, c, r)
    ensures Reached(next, calm)
  {
    Extend(s, RegistrationStep(c, r), calm);
    assert Next(s, RegistrationStep(c, r)) == next;
  }

  function Row(status: Status, seen: Option<Time>): Table {
    map[0 := Device(status, ReadWrite, {}, 0, seen, None)]
  }

  function Booted(): Sys {
    Sys(Core(Row(Offline, None), map[], map[], map[], map[]), map[], map[], [], map[], [])
  }

  function Online1(): Sys {
    Sys(Core(Row(Online, Some(1)), map[0 := FIRST], map[FIRST := 0], map[], map[]),
        map[FIRST := Resumable(None)], map[], [], map[], [])
  }

  /** FIRST has been opened, and its publication is running. */
  function Joining1(cancelled: bool): Sys {
    Booted().(registrations := map[FIRST := Publishing(cancelled)],
              core := Booted().core.(lastSeen := map[FIRST := 0]))
  }

  lemma ReachJoining1(calm: bool)
    ensures Reached(Joining1(false), calm)
  {
    ReachStart(Booted(), calm);
    ExtendRegistration(Booted(), FIRST, Open(0), Joining1(false), calm);
  }

  lemma ReachOnline(calm: bool)
    ensures Reached(Online1(), calm)
  {
    ReachJoining1(calm);
    ExtendRegistration(Joining1(false), FIRST, DoPublish(1, true), Online1(), calm);
  }

  /** FIRST is published; its registration, cancelled, is at `r`. */
  function CancelledAt(r: Registration): Sys { Online1().(registrations := map[FIRST := r]) }

  lemma CancelledWhileJoining()
    ensures Reached(Joining1(true), true)
  {
    ReachJoining1(true);
    ExtendRegistration(Joining1(false), FIRST, CancelRegister, Joining1(true), true);
  }

  lemma CancelledPublishes()
    ensures Reached(CancelledAt(Retiring), true)
  {
    CancelledWhileJoining();
    ExtendRegistration(Joining1(true), FIRST, DoPublish(1, true), CancelledAt(Retiring), true);
  }

  /**
   A registration cancelled during its publication, and again while its disconnect waits for
   the lock, ends with its connection published and owned by nobody.
   */
  lemma InterruptedWithdrawalStaysPublished()
    ensures Reached(CancelledAt(Orphaned), true)
    ensures Current(CancelledAt(Orphaned).core, FIRST)
  {
    CancelledPublishes();
    ExtendRegistration(CancelledAt(Retiring), FIRST, InterruptRetire, CancelledAt(Orphaned), true);
  }

  /** Shut down with its update lost, a connected device stays ONLINE. */
  function ClosedOnline(): Sys { Online1().(core := Online1().core.(connections := map[])) }

  lemma LostShutdownStaysOnline()
    ensures Reached(ClosedOnline(), true)
    ensures !Presence(ClosedOnline().core)
  {
    ReachOnline(true);
    var t := TableStep(DoClose({0}));
    Extend(Online1(), t, true);
    assert Next(Online1(), t).core.rows == Online1().core.rows;
    assert Next(Online1(), t) == ClosedOnline();
    assert Live(ClosedOnline().core.rows, 0);
  }

  function Asked(p: Phase, since: nat): map<FutureId, Call> {
    map[0 := Call(ASKED, FIRST, since, p)]
  }

  /** FIRST is online, and a call has chosen it. */
  function Chosen1(): Sys {
    Online1().(calls := Asked(Chosen, 0), core := Online1().core.(futures := map[0 := Waiting]))
  }

  lemma ReachChosen(calm: bool)
    ensures Reached(Chosen1(), calm)
  {
    ReachOnline(calm);
    ExtendRequest(Online1(), 0, Begin(ASKED), Chosen1(), calm);
  }

  /** The state once FIRST has disconnected, with the call at `p`. */
  function Alone0(p: Phase): Sys {
    Sys(Core(Row(Offline, Some(1)), map[], map[FIRST := 0],
             if p.Chosen? then map[] else map[ASKED := Entry(FIRST, 0)], map[0 := Waiting]),
        map[FIRST := Resumable(None)], Asked(p, 0), [], map[], [])
  }

  lemma AloneFromChosen()
    ensures var s := Chosen1();
            Next(s, TableStep(DoDisconnect(FIRST, true))) == Alone0(Chosen)
  {
    var core := Online1().core.(futures := map[0 := Waiting]);
    var after := Disconnect(core, FIRST, true);
    assert after.pending == map[] && after.connections == map[];
    assert FuturesOf(core.pending, FIRST) == {};
    assert after.futures == map[0 := Waiting];
    assert after.rows == Row(Offline, Some(1));
  }

  lemma ReachAlone()
    ensures Reached(Alone0(Chosen), true)
  {
    ReachChosen(true);
    AloneFromChosen();
    Extend(Chosen1(),
           TableStep(DoDisconnect(FIRST, true)), true);
  }

  lemma AloneAdmits()
    requires Reached(Alone0(Chosen), true)
    ensures Reached(Alone0(Registered), true)
  {
    ExtendRequest(Alone0(Chosen), 0, DoAdmit, Alone0(Registered), true);
  }

  lemma AloneCannotSend()
    requires Reached(Alone0(Registered), true)
    ensures Reached(Alone0(CleaningUp), true)
  {
    ExtendRequest(Alone0(Registered), 0, BeginSend, Alone0(CleaningUp), true);
  }

  lemma AloneIsCancelled()
    requires Reached(Alone0(CleaningUp), true)
    ensures Reached(Alone0(Leaked), true)
  {
    ExtendRequest(Alone0(CleaningUp), 0, InterruptCleanUp, Alone0(Leaked), true);
  }

  /**
   One cancellation is enough: the device disconnects while the call waits for the lock, so
   the call fails before sending; cancelled while it waits for the lock of its cleanup, it
   leaves an entry no call owns, and that request ID stays "already pending".
   */
  lemma CancelledCleanupLeaks()
    ensures Reached(Alone0(Leaked), true)
    ensures ASKED in Alone0(Leaked).core.pending
    ensures forall f :: f in Alone0(Leaked).calls ==> !InProgress(Alone0(Leaked).calls[f].phase)
  {
    ReachAlone();
    AloneAdmits();
    AloneCannotSend();
    AloneIsCancelled();
  }

  /** The state once SECOND has replaced FIRST, with the call at `p`. */
  function Replaced2(p: Phase): Sys {
    Sys(Core(Row(Online, Some(3)), map[0 := SECOND], map[FIRST := 0, SECOND := 2],
             if p.Chosen? then map[] else map[ASKED := Entry(FIRST, 0)], map[0 := Waiting]),
        map[FIRST := Resumable(None), SECOND := Resumable(Some(FIRST))], Asked(p, 0), [], map[],
        if p.Sending? || p.Awaiting? then [Frame(0, SECOND)] else [])
  }

  function Joining(): Sys {
    Sys(Core(Row(Online, Some(1)), map[0 := FIRST], map[FIRST := 0, SECOND := 2], map[], map[0 := Waiting]),
        map[FIRST := Resumable(None), SECOND := Publishing(false)], Asked(Chosen, 0), [], map[], [])
  }

  lemma ReachJoining()
    ensures Reached(Joining(), false)
  {
    ReachChosen(false);
    var s := Chosen1();
    ExtendRegistration(s, SECOND, Open(2), Joining(), false);
  }

  lemma JoiningPublishes()
    requires Reached(Joining(), false)
    ensures Reached(Replaced2(Chosen), false)
  {
    ExtendRegistration(Joining(), SECOND, DoPublish(3, true), Replaced2(Chosen), false);
  }

  lemma ReplacedAdmits()
    requires Reached(Replaced2(Chosen), false)
    ensures Reached(Replaced2(Registered), false)
  {
    ExtendRequest(Replaced2(Chosen), 0, DoAdmit, Replaced2(Registered), false);
  }

  lemma ReplacedSends()
    requires Reached(Replaced2(Registered), false)
    ensures Reached(Replaced2(Sending(SECOND)), false)
  {
    ExtendRequest(Replaced2(Registered), 0, BeginSend, Replaced2(Sending(SECOND)), false);
  }

  lemma ReplacedHasSent()
    requires Reached(Replaced2(Sending(SECOND)), false)
    ensures Reached(Replaced2(Awaiting), false)
  {
    ExtendRequest(Replaced2(Sending(SECOND)), 0, SendDone, Replaced2(Awaiting), false);
  }

  lemma ReachReplaced()
    ensures Reached(Replaced2(Awaiting), false)
  {
    ReachJoining();
    JoiningPublishes();
    ReplacedAdmits();
    ReplacedSends();
    ReplacedHasSent();
  }

  /**
   The gap between reading a connection and registering: the request records FIRST and is
   sent on SECOND, so SECOND's answer is ignored and the call goes on waiting.
   */
  lemma SentButNotAnswered()
    ensures Reached(Replaced2(Awaiting).(arrivals := [Arrival(SECOND, ASKED.request, OperationResult(42))]), false)
    ensures Replaced2(Awaiting).wire == [Frame(0, SECOND)]
    ensures Replaced2(Awaiting).core.futures[0] == Waiting
  {
    ReachReplaced();
    var t := Arrive(SECOND, ASKED.request, OperationResult(42));
    Extend(Replaced2(Awaiting), t, false);
    assert Next(Replaced2(Awaiting), t) ==
           Replaced2(Awaiting).(arrivals := [Arrival(SECOND, ASKED.request, OperationResult(42))]);
  }
}
