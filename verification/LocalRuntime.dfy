/**
 Local actions and their approval. Every interleaving of any number of `execute` calls:
 one step is the code a call runs between two awaits. The operator answers a prompt in a
 thread of its own, so an answer exists before the call that asked for it resumes.
 */
module LocalRuntime {
  import opened Common

  datatype Permission = ReadOnly | ReadWrite

  datatype Decision = Once | Session | Deny

  /** What can be raised; cancellation is an `Unexpected` one. */
  datatype Failure =
    | Forbidden    // PermissionError
    | LocalError   // LocalActionError
    | Invalid      // KeyError, OSError, ValueError
    | Unexpected

  datatype Answer = Decided(decision: Decision) | PromptRaises(failure: Failure)

  datatype Response = OperationResult | ErrorReply | StrangeReply | DispatchRaises(failure: Failure)

  /** The result recorded in the audit log. */
  datatype Status = Done | Denied | Failed

  type CallId = nat

  datatype Event =
    | Prompted(call: CallId)
    | Replied(call: CallId, decision: Decision)
    | Recorded(call: CallId, decision: Decision)  // the call resumed with the answer
    | Dispatched(call: CallId)
    | Succeeded(call: CallId)
    | Escaped(call: CallId, failure: Failure)     // the dispatcher raised
    | Audited(call: CallId, status: Status)

  datatype Phase =
    | Waiting
    | Answered(decision: Decision)
    | Running
    | Settled(status: Status)
    | Finished(status: Status, written: bool)

  datatype Call = Call(tool: string, phase: Phase)

  /** `session` are the tools allowed for the session; `log` is history. */
  datatype State = State(session: set<string>, calls: seq<Call>, log: seq<Event>)

  datatype Step =
    | Begin(tool: string, failure: Option<Failure>) // up to the first await; `_message` may raise
    | Reply(call: CallId, answer: Answer)
    | Resume(call: CallId)
    | Respond(call: CallId, response: Response)
    | Cancel(call: CallId)
    | Audit(call: CallId, written: bool)

  predicate Mutates(tool: string) {
    tool == "filesystem_write" || tool == "command_start"
  }

  function StatusOf(failure: Failure): Status {
    if failure.Forbidden? then Denied else Failed
  }

  function ResponseStatus(response: Response): Status {
    match response
    case OperationResult => Done
    case ErrorReply => Failed
    case StrangeReply => Failed
    case DispatchRaises(failure) => StatusOf(failure)
  }

  function ResponseEvents(call: CallId, response: Response): seq<Event> {
    match response
    case OperationResult => [Succeeded(call)]
    case DispatchRaises(failure) => [Escaped(call, failure)]
    case _ => []
  }

  function Move(s: State, call: CallId, phase: Phase, events: seq<Event>): State
    requires call < |s.calls|
  {
    s.(calls := s.calls[call := s.calls[call].(phase := phase)], log := s.log + events)
  }

  /** The first phase of a call, and whether it opens a prompt or dispatches. */
  function FirstPhase(permission: Permission, session: set<string>, tool: string, failure: Option<Failure>): Phase {
    if failure.Some? then Settled(StatusOf(failure.value))
    else if !Mutates(tool) then Running
    else if permission.ReadOnly? then Settled(Denied)
    else if tool in session then Running
    else Waiting
  }

  function FirstEvents(phase: Phase, call: CallId): seq<Event> {
    match phase
    case Waiting => [Prompted(call)]
    case Running => [Dispatched(call)]
    case _ => []
  }

  function Append(s: State, call: Call): State {
    State(s.session, s.calls + [call], s.log + FirstEvents(call.phase, |s.calls|))
  }

  /** A step that its call is not ready for changes nothing. */
  function Apply(permission: Permission, s: State, step: Step): State {
    match step
    case Begin(tool, failure) =>
      Append(s, Call(tool, FirstPhase(permission, s.session, tool, failure)))
    case Reply(call, answer) =>
      if call < |s.calls| && s.calls[call].phase.Waiting? then
        match answer
        case Decided(decision) => Move(s, call, Answered(decision), [Replied(call, decision)])
        case PromptRaises(failure) => Move(s, call, Settled(StatusOf(failure)), [])
      else s
    case Resume(call) =>
      if call < |s.calls| && s.calls[call].phase.Answered? then Absorb(s, call, s.calls[call].phase.decision) else s
    case Respond(call, response) =>
      if call < |s.calls| && s.calls[call].phase.Running? then
        Move(s, call, Settled(ResponseStatus(response)), ResponseEvents(call, response))
      else s
    case Cancel(call) =>
      if call < |s.calls| && !s.calls[call].phase.Settled? && !s.calls[call].phase.Finished?
      then Move(s, call, Settled(Failed), []) else s
    case Audit(call, written) =>
      if call < |s.calls| && s.calls[call].phase.Settled? then
        var status := s.calls[call].phase.status;
        Move(s, call, Finished(status, written), if written then [Audited(call, status)] else [])
      else s
  }

  /** The rest of `approve`, and the dispatch that follows a grant. */
  function Absorb(s: State, call: CallId, decision: Decision): State
    requires call < |s.calls|
  {
    match decision
    case Deny => Move(s, call, Settled(Denied), [Recorded(call, Deny)])
    case Once => Move(s, call, Running, [Recorded(call, Once), Dispatched(call)])
    case Session =>
      Move(s.(session := s.session + {s.calls[call].tool}), call, Running, [Recorded(call, Session), Dispatched(call)])
  }

  function After(permission: Permission, s: State, steps: seq<Step>): State
    decreases |steps|
  {
    if steps == [] then s
    else Apply(permission, After(permission, s, steps[..|steps| - 1]), steps[|steps| - 1])
  }

  const INITIAL := State({}, [], [])

  function Run(permission: Permission, steps: seq<Step>): State {
    After(permission, INITIAL, steps)
  }

  // ---------------------------------------------------------------- one call's own history

  /** The events of one call. */
  function Own(log: seq<Event>, call: CallId): seq<Event> {
    if log == [] then []
    else Own(log[..|log| - 1], call) + if log[|log| - 1].call == call then [log[|log| - 1]] else []
  }

  /** New events of one call extend its own history and nobody else's. */
  lemma {:induction false} OwnNext(log: seq<Event>, more: seq<Event>, call: CallId, c: CallId)
    requires forall e | e in more :: e.call == call
    ensures Own(log + more, c) == if c == call then Own(log, c) + more else Own(log, c)
  {
    if more == [] {
      assert log + more == log;
    } else {
      OwnNext(log, more[..|more| - 1], call, c);
      assert (log + more)[..|log + more| - 1] == log + more[..|more| - 1];
    }
  }

  /** The call asked and took up the answer it got. */
  predicate Asked(own: seq<Event>, c: CallId)
    requires |own| >= 3
  {
    own[0] == Prompted(c) && own[1].Replied? && own[1].call == c && own[2] == Recorded(c, own[1].decision)
  }

  /** How a call comes to dispatch: without asking, or with an answer other than DENY. */
  predicate Launched(own: seq<Event>, c: CallId) {
    || (|own| == 1 && own[0] == Dispatched(c))
    || (|own| == 4 && Asked(own, c) && own[1].decision != Deny && own[3] == Dispatched(c))
  }

  /** What can lie behind a status before it is written to the audit log. */
  predicate Behind(own: seq<Event>, c: CallId, status: Status) {
    if status == Done then
      |own| > 0 && own[|own| - 1] == Succeeded(c) && Launched(own[..|own| - 1], c)
    else
      || |own| == 0
      || (|own| == 1 && own[0] == Prompted(c))
      || (|own| == 2 && own[0] == Prompted(c) && own[1].Replied? && own[1].call == c && status == Failed)
      || (|own| == 3 && Asked(own, c) && own[1].decision == Deny && status == Denied)
      || (status == Failed && Launched(own, c))
      || (|own| > 1 && Launched(own[..|own| - 1], c) && own[|own| - 1].Escaped? && own[|own| - 1].call == c
          && status == StatusOf(own[|own| - 1].failure))
  }

  /** Everything a call can have done, by its phase. */
  predicate Story(phase: Phase, own: seq<Event>, c: CallId) {
    match phase
    case Waiting => |own| == 1 && own[0] == Prompted(c)
    case Answered(decision) => |own| == 2 && own[0] == Prompted(c) && own[1] == Replied(c, decision)
    case Running => Launched(own, c)
    case Settled(status) => Behind(own, c, status)
    case Finished(status, written) =>
      if written then |own| > 0 && own[|own| - 1] == Audited(c, status) && Behind(own[..|own| - 1], c, status)
      else Behind(own, c, status)
  }

  ghost predicate Told(s: State, c: CallId) {
    if c < |s.calls| then Story(s.calls[c].phase, Own(s.log, c), c) else Own(s.log, c) == []
  }

  lemma {:induction false} StoryMove(s: State, call: CallId, phase: Phase, events: seq<Event>, c: CallId)
    requires call < |s.calls| && forall e | e in events :: e.call == call
    requires Told(s, c)
    requires c == call ==> Story(phase, Own(s.log, c) + events, c)
    ensures Told(Move(s, call, phase, events), c)
  {
    OwnNext(s.log, events, call, c);
  }

  lemma {:induction false} StoryResume(s: State, call: CallId, decision: Decision, c: CallId)
    requires call < |s.calls| && s.calls[call].phase == Answered(decision)
    requires Told(s, c)
    ensures Told(Absorb(s, call, decision), c)
  {
    match decision
    case Deny => StoryMove(s, call, Settled(Denied), [Recorded(call, Deny)], c);
    case Once => StoryMove(s, call, Running, [Recorded(call, Once), Dispatched(call)], c);
    case Session =>
      StoryMove(s.(session := s.session + {s.calls[call].tool}), call, Running,
                [Recorded(call, Session), Dispatched(call)], c);
  }

  lemma {:induction false} AuditedStory(own: seq<Event>, c: CallId, status: Status)
    requires Behind(own, c, status)
    ensures Story(Finished(status, true), own + [Audited(c, status)], c)
  {
    var longer := own + [Audited(c, status)];
    assert longer[..|longer| - 1] == own;
  }

  lemma {:induction false} StoryAudit(s: State, call: CallId, status: Status, c: CallId)
    requires call < |s.calls| && s.calls[call].phase == Settled(status)
    requires Told(s, c)
    ensures Told(Move(s, call, Finished(status, true), [Audited(call, status)]), c)
    ensures Told(Move(s, call, Finished(status, false), []), c)
  {
    if c == call {
      AuditedStory(Own(s.log, c), c, status);
      assert Own(s.log, c) + [] == Own(s.log, c);
    }
    StoryMove(s, call, Finished(status, true), [Audited(call, status)], c);
    StoryMove(s, call, Finished(status, false), [], c);
  }

  lemma {:induction false} StoryAppend(s: State, call: Call, c: CallId)
    requires Told(s, c)
    requires Story(call.phase, FirstEvents(call.phase, |s.calls|), |s.calls|)
    ensures Told(Append(s, call), c)
  {
    var events := FirstEvents(call.phase, |s.calls|);
    OwnNext(s.log, events, |s.calls|, c);
    var next := Append(s, call);
    if c < |s.calls| {
      assert next.calls[c] == s.calls[c] && Own(next.log, c) == Own(s.log, c);
    } else if c == |s.calls| {
      assert Own(next.log, c) == events && next.calls[c] == call;
    }
  }

  lemma {:induction false} FirstStory(permission: Permission, session: set<string>, tool: string,
                                     failure: Option<Failure>, c: CallId)
    ensures var phase := FirstPhase(permission, session, tool, failure);
            Story(phase, FirstEvents(phase, c), c)
  {
  }

  lemma {:induction false} StoryReply(s: State, call: CallId, answer: Answer, c: CallId)
    requires call < |s.calls| && s.calls[call].phase.Waiting?
    requires Told(s, c)
    ensures Told(Apply(ReadOnly, s, Reply(call, answer)), c)
  {
    match answer
    case Decided(decision) => StoryMove(s, call, Answered(decision), [Replied(call, decision)], c);
    case PromptRaises(failure) => StoryMove(s, call, Settled(StatusOf(failure)), [], c);
  }

  lemma {:induction false} StoryRespond(s: State, call: CallId, response: Response, c: CallId)
    requires call < |s.calls| && s.calls[call].phase.Running?
    requires Told(s, c)
    ensures Told(Apply(ReadOnly, s, Respond(call, response)), c)
  {
    var own, events := Own(s.log, c), ResponseEvents(call, response);
    assert |events| == 1 ==> (own + events)[..|own|] == own;
    StoryMove(s, call, Settled(ResponseStatus(response)), events, c);
  }

  lemma {:induction false} StoryStep(permission: Permission, s: State, step: Step, c: CallId)
    requires Told(s, c)
    ensures Told(Apply(permission, s, step), c)
  {
    if Apply(permission, s, step) != s {
      match step
      case Begin(tool, failure) =>
        FirstStory(permission, s.session, tool, failure, |s.calls|);
        StoryAppend(s, Call(tool, FirstPhase(permission, s.session, tool, failure)), c);
      case Reply(call, answer) => StoryReply(s, call, answer, c);
      case Resume(call) => StoryResume(s, call, s.calls[call].phase.decision, c);
      case Respond(call, response) => StoryRespond(s, call, response, c);
      case Cancel(call) => StoryMove(s, call, Settled(Failed), [], c);
      case Audit(call, written) => StoryAudit(s, call, s.calls[call].phase.status, c);
    }
  }

  /** Every call, in every interleaving, has done only what its phase allows. */
  lemma {:induction false} StoryAlways(permission: Permission, steps: seq<Step>, c: CallId)
    ensures Told(Run(permission, steps), c)
    decreases |steps|
  {
    if steps != [] {
      StoryAlways(permission, steps[..|steps| - 1], c);
      StoryStep(permission, Run(permission, steps[..|steps| - 1]), steps[|steps| - 1], c);
    }
  }

  // ---------------------------------------------------------------- across calls

  /** This answer allows call `c`: its own grant, or a session grant for the same tool. */
  predicate Allows(calls: seq<Call>, e: Event, c: CallId)
    requires c < |calls|
  {
    e.Replied? && e.call < |calls| &&
    ((e.call == c && e.decision != Deny) || (e.decision == Session && calls[e.call].tool == calls[c].tool))
  }

  /** This event recorded a session grant for `tool`. */
  predicate Grants(calls: seq<Call>, e: Event, tool: string) {
    e.Recorded? && e.decision == Session && e.call < |calls| && calls[e.call].tool == tool
  }

  ghost predicate Granted(calls: seq<Call>, log: seq<Event>, tool: string) {
    exists k :: 0 <= k < |log| && Grants(calls, log[k], tool)
  }

  /** The policy, at one event of the log. */
  ghost predicate Lawful(permission: Permission, calls: seq<Call>, log: seq<Event>, i: nat)
    requires i < |log|
  {
    var c := log[i].call;
    && c < |calls|
    && (log[i].Dispatched? && Mutates(calls[c].tool) ==>
          permission == ReadWrite && exists k :: 0 <= k < i && Allows(calls, log[k], c))
    && (log[i].Prompted? ==>
          permission == ReadWrite && Mutates(calls[c].tool) && !Granted(calls, log[..i], calls[c].tool))
    && (log[i].Recorded? ==> exists k :: 0 <= k < i && log[k] == Replied(c, log[i].decision))
  }

  ghost predicate LawfulUpTo(permission: Permission, calls: seq<Call>, log: seq<Event>) {
    forall i | 0 <= i < |log| :: Lawful(permission, calls, log, i)
  }

  /** The remembered tools are exactly those with a recorded session grant. */
  ghost predicate SessionExact(s: State) {
    forall tool :: tool in s.session <==> Granted(s.calls, s.log, tool)
  }

  predicate ToolsKept(calls: seq<Call>, more: seq<Call>) {
    |calls| <= |more| && forall c | 0 <= c < |calls| :: more[c].tool == calls[c].tool
  }

  ghost predicate Policy(permission: Permission, s: State) {
    LawfulUpTo(permission, s.calls, s.log) && SessionExact(s)
  }

  lemma GrantedKept(calls: seq<Call>, more: seq<Call>, log: seq<Event>, tool: string)
    requires ToolsKept(calls, more) && forall e | e in log :: e.call < |calls|
    ensures Granted(calls, log, tool) <==> Granted(more, log, tool)
  {
    forall k | 0 <= k < |log|
      ensures Grants(calls, log[k], tool) <==> Grants(more, log[k], tool)
    {
      assert log[k] in log;
    }
  }

  /** A lawful event stays lawful whatever happens later. */
  lemma LawfulKept(permission: Permission, calls: seq<Call>, more: seq<Call>, log: seq<Event>,
                   events: seq<Event>, i: nat)
    requires LawfulUpTo(permission, calls, log) && ToolsKept(calls, more) && i < |log|
    ensures Lawful(permission, more, log + events, i)
  {
    assert Lawful(permission, calls, log, i);
    var longer := log + events;
    assert longer[..i] == log[..i];
    forall e | e in log[..i]
      ensures e.call < |calls|
    {
      var k :| 0 <= k < i && e == log[k];
      assert Lawful(permission, calls, log, k);
    }
    var c := log[i].call;
    GrantedKept(calls, more, log[..i], calls[c].tool);
    if log[i].Dispatched? && Mutates(calls[c].tool) {
      var k :| 0 <= k < i && Allows(calls, log[k], c);
      assert Allows(more, longer[k], c);
    }
    if log[i].Recorded? {
      var k :| 0 <= k < i && log[k] == Replied(c, log[i].decision);
      assert longer[k] == log[k];
    }
  }

  /** Steps that append at most one event, which is lawful, and leave the session alone. */
  lemma PolicyExtends(permission: Permission, s: State, next: State, e: Event)
    requires Policy(permission, s) && ToolsKept(s.calls, next.calls)
    requires next.log == s.log || (next.log == s.log + [e] && Lawful(permission, next.calls, next.log, |s.log|))
    requires next.session == s.session + if next.log != s.log && e.Recorded? && e.decision == Session
                                         then {next.calls[e.call].tool} else {}
    ensures Policy(permission, next)
  {
    var more := next.log[|s.log|..];
    assert next.log == s.log + more;
    forall i | 0 <= i < |next.log|
      ensures Lawful(permission, next.calls, next.log, i)
    {
      if i < |s.log| {
        LawfulKept(permission, s.calls, next.calls, s.log, more, i);
      }
    }
    forall tool
      ensures tool in next.session <==> Granted(next.calls, next.log, tool)
    {
      forall x | x in s.log
        ensures x.call < |s.calls|
      {
        var k :| 0 <= k < |s.log| && x == s.log[k];
        assert Lawful(permission, s.calls, s.log, k);
      }
      GrantedKept(s.calls, next.calls, s.log, tool);
      GrantedNext(next.calls, s.log, more, tool);
      assert next.log != s.log ==> more == [e];
    }
  }

  lemma GrantedNext(calls: seq<Call>, log: seq<Event>, more: seq<Event>, tool: string)
    requires |more| <= 1
    ensures Granted(calls, log + more, tool) <==>
            Granted(calls, log, tool) || (|more| == 1 && Grants(calls, more[0], tool))
  {
    if Granted(calls, log, tool) {
      var k :| 0 <= k < |log| && Grants(calls, log[k], tool);
      assert Grants(calls, (log + more)[k], tool);
    }
    if |more| == 1 && Grants(calls, more[0], tool) {
      assert Grants(calls, (log + more)[|log|], tool);
    }
  }

  /** A call's own events are in the log. */
  lemma {:induction false} OwnIsLogged(log: seq<Event>, c: CallId, k: nat) returns (at: nat)
    requires k < |Own(log, c)|
    ensures at < |log| && log[at] == Own(log, c)[k]
  {
    if k < |Own(log[..|log| - 1], c)| {
      at := OwnIsLogged(log[..|log| - 1], c, k);
    } else {
      at := |log| - 1;
    }
  }

  lemma PolicyBegin(permission: Permission, s: State, tool: string, failure: Option<Failure>)
    requires Policy(permission, s)
    ensures Policy(permission, Apply(permission, s, Begin(tool, failure)))
  {
    var next := Apply(permission, s, Begin(tool, failure));
    var n, phase := |s.calls|, FirstPhase(permission, s.session, tool, failure);
    var e := if phase.Waiting? then Prompted(n) else Dispatched(n);
    assert next.log != s.log ==> next.log == s.log + [e] && next.log[..|s.log|] == s.log;
    forall x | x in s.log
      ensures x.call < n
    {
      var k :| 0 <= k < |s.log| && x == s.log[k];
      assert Lawful(permission, s.calls, s.log, k);
    }
    GrantedKept(s.calls, next.calls, s.log, tool);
    if phase.Running? && Mutates(tool) {
      var k :| 0 <= k < |s.log| && Grants(s.calls, s.log[k], tool);
      assert Lawful(permission, s.calls, s.log, k);
      var j :| 0 <= j < k && s.log[j] == Replied(s.log[k].call, Session);
      assert Allows(next.calls, next.log[j], n);
    }
    PolicyExtends(permission, s, next, e);
  }

  lemma PolicyResume(permission: Permission, s: State, call: CallId)
    requires Policy(permission, s) && Told(s, call)
    requires call < |s.calls| && s.calls[call].phase.Answered?
    ensures Policy(permission, Apply(permission, s, Resume(call)))
  {
    var decision, next := s.calls[call].phase.decision, Apply(permission, s, Resume(call));
    var mid := next.(log := s.log + [Recorded(call, decision)]);
    var asked := OwnIsLogged(s.log, call, 0);
    var replied := OwnIsLogged(s.log, call, 1);
    assert Lawful(permission, s.calls, s.log, asked);
    assert mid.log[replied] == Replied(call, decision);
    PolicyExtends(permission, s, mid, Recorded(call, decision));
    if decision != Deny {
      assert next.log == mid.log + [Dispatched(call)];
      assert next.log[replied] == Replied(call, decision);
      assert Allows(next.calls, next.log[replied], call);
      PolicyExtends(permission, mid, next, Dispatched(call));
    }
  }

  lemma PolicyStep(permission: Permission, s: State, step: Step)
    requires Policy(permission, s) && forall c :: Told(s, c)
    ensures Policy(permission, Apply(permission, s, step))
  {
    var next := Apply(permission, s, step);
    if next != s {
      match step
      case Begin(tool, failure) => PolicyBegin(permission, s, tool, failure);
      case Resume(call) =>
        assert Told(s, call);
        PolicyResume(permission, s, call);
      case Reply(call, answer) =>
        PolicyExtends(permission, s, next, if answer.Decided? then Replied(call, answer.decision) else Succeeded(call));
      case Respond(call, response) =>
        PolicyExtends(permission, s, next,
                      if response.DispatchRaises? then Escaped(call, response.failure) else Succeeded(call));
      case Cancel(call) => PolicyExtends(permission, s, next, Succeeded(call));
      case Audit(call, written) => PolicyExtends(permission, s, next, Audited(call, s.calls[call].phase.status));
    }
  }

  /**
   In every interleaving: READ_ONLY prompts for and dispatches no mutation; every other
   dispatched mutation has its own ONCE or SESSION answer, or an earlier SESSION answer for
   the same tool; and no prompt opens for a tool whose session grant is recorded.
   */
  lemma {:induction false} PolicyAlways(permission: Permission, steps: seq<Step>)
    ensures Policy(permission, Run(permission, steps))
    decreases |steps|
  {
    if steps != [] {
      var before := steps[..|steps| - 1];
      PolicyAlways(permission, before);
      forall c
        ensures Told(Run(permission, before), c)
      {
        StoryAlways(permission, before, c);
      }
      PolicyStep(permission, Run(permission, before), steps[|steps| - 1]);
    }
  }

  /** The two actions that change something, by name: READ_ONLY never dispatches them, in no interleaving. */
  lemma ReadOnlyChangesNothing(steps: seq<Step>, i: nat)
    requires i < |Run(ReadOnly, steps).log|
    ensures var s := Run(ReadOnly, steps);
            && !s.log[i].Prompted?
            && (s.log[i].Dispatched? ==>
                  && s.log[i].call < |s.calls|
                  && s.calls[s.log[i].call].tool != "filesystem_write"
                  && s.calls[s.log[i].call].tool != "command_start")
  {
    PolicyAlways(ReadOnly, steps);
    assert Lawful(ReadOnly, Run(ReadOnly, steps).calls, Run(ReadOnly, steps).log, i);
  }

  /** Any other action is dispatched at once, whatever the permission, if its message could be built. */
  lemma OthersRunAtOnce(permission: Permission, s: State, tool: string)
    requires tool != "filesystem_write" && tool != "command_start"
    ensures var next, n := Apply(permission, s, Begin(tool, None)), |s.calls|;
            && next.calls == s.calls + [Call(tool, Running)] && next.log == s.log + [Dispatched(n)]
            && next.session == s.session
  {
  }

  /** A cancellation fails its call, unless that is only waiting for its audit record. */
  lemma CancelledFails(permission: Permission, s: State, c: CallId)
    requires c < |s.calls|
    ensures var next, phase := Apply(permission, s, Cancel(c)), s.calls[c].phase;
            && next.log == s.log && next.session == s.session && |next.calls| == |s.calls|
            && next.calls[c].phase == if phase.Settled? || phase.Finished? then phase else Settled(Failed)
  {
  }

  /** A new call asks the operator exactly when it mutates, may, and has no recorded session grant. */
  lemma PromptsIff(permission: Permission, steps: seq<Step>, tool: string)
    ensures FirstPhase(permission, Run(permission, steps).session, tool, None).Waiting? <==>
            && permission == ReadWrite && Mutates(tool)
            && !Granted(Run(permission, steps).calls, Run(permission, steps).log, tool)
  {
    PolicyAlways(permission, steps);
  }

  lemma {:induction false} AuditEndsStory(own: seq<Event>, c: CallId, status: Status, written: bool)
    requires Story(Finished(status, written), own, c)
    ensures forall i | 0 <= i < |own| :: own[i].Audited? <==> written && i == |own| - 1
    ensures written ==> |own| > 0 && own[|own| - 1] == Audited(c, status)
  {
    var base := if written then own[..|own| - 1] else own;
    assert status == Done ==> Launched(base[..|base| - 1], c);
    assert forall i | 0 <= i < |base| :: !base[i].Audited?;
  }

  /** A finished call has exactly one audit record if it could be written, and it comes last. */
  lemma AuditedOnce(permission: Permission, steps: seq<Step>, c: CallId)
    requires c < |Run(permission, steps).calls| && Run(permission, steps).calls[c].phase.Finished?
    ensures var own, phase := Own(Run(permission, steps).log, c), Run(permission, steps).calls[c].phase;
            && (forall i | 0 <= i < |own| :: own[i].Audited? <==> phase.written && i == |own| - 1)
            && (phase.written ==> |own| > 0 && own[|own| - 1] == Audited(c, phase.status))
  {
    StoryAlways(permission, steps, c);
    var phase := Run(permission, steps).calls[c].phase;
    AuditEndsStory(Own(Run(permission, steps).log, c), c, phase.status, phase.written);
  }

  lemma {:induction false} DeniedStory(own: seq<Event>, c: CallId)
    requires Behind(own, c, Denied)
    ensures Dispatched(c) in own <==> Escaped(c, Forbidden) in own
    ensures Replied(c, Deny) in own ==> Dispatched(c) !in own
  {
    if |own| > 1 && own[|own| - 1].Escaped? {
      var launch := own[..|own| - 1];
      assert launch[|launch| - 1] == Dispatched(c) && own[|own| - 2] == Dispatched(c);
      assert own[|own| - 1] == Escaped(c, Forbidden);
    }
  }

  /**
   A call audited as denied dispatched nothing, except exactly when the dispatcher itself
   raised a permission error; and a call the operator denied never dispatches.
   */
  lemma {:induction false} DeniedDispatchedIff(permission: Permission, steps: seq<Step>, c: CallId)
    requires c < |Run(permission, steps).calls|
    ensures var s := Run(permission, steps);
            s.calls[c].phase.Finished? && s.calls[c].phase.status == Denied ==>
              (Dispatched(c) in Own(s.log, c) <==> Escaped(c, Forbidden) in Own(s.log, c))
    ensures var own := Own(Run(permission, steps).log, c);
            Replied(c, Deny) in own ==> Dispatched(c) !in own
  {
    StoryAlways(permission, steps, c);
    var own, phase := Own(Run(permission, steps).log, c), Run(permission, steps).calls[c].phase;
    match phase
    case Settled(status) => SettledStory(own, c, status);
    case Finished(status, written) =>
      var base := if written then own[..|own| - 1] else own;
      SettledStory(base, c, status);
      assert written ==> own == base + [Audited(c, status)];
    case _ =>
  }

  lemma {:induction false} SettledStory(own: seq<Event>, c: CallId, status: Status)
    requires Behind(own, c, status)
    ensures status == Denied ==> (Dispatched(c) in own <==> Escaped(c, Forbidden) in own)
    ensures Replied(c, Deny) in own ==> Dispatched(c) !in own
  {
    if status == Denied {
      DeniedStory(own, c);
    } else if |own| > 0 {
      var launch := own[..|own| - 1];
      assert own == launch + [own[|own| - 1]];
    }
  }

  /** The Agent's dispatcher answers every error of an operation with a message: then nothing escapes. */
  lemma {:induction false} NothingEscapes(permission: Permission, steps: seq<Step>, k: nat)
    requires forall i | 0 <= i < |steps| && steps[i].Respond? :: steps[i].response != DispatchRaises(Forbidden)
    requires k < |Run(permission, steps).log|
    ensures forall c :: Run(permission, steps).log[k] != Escaped(c, Forbidden)
    decreases |steps|
  {
    if steps != [] {
      var before := steps[..|steps| - 1];
      if k < |Run(permission, before).log| {
        NothingEscapes(permission, before, k);
        assert Run(permission, steps).log[k] == Run(permission, before).log[k];
      }
    }
  }

  lemma {:induction false} DeniedIsNotDispatched(permission: Permission, steps: seq<Step>, c: CallId)
    requires forall i | 0 <= i < |steps| && steps[i].Respond? :: steps[i].response != DispatchRaises(Forbidden)
    requires c < |Run(permission, steps).calls|
    requires Run(permission, steps).calls[c].phase.Finished? && Run(permission, steps).calls[c].phase.status == Denied
    ensures Dispatched(c) !in Own(Run(permission, steps).log, c)
  {
    var own := Own(Run(permission, steps).log, c);
    DeniedDispatchedIff(permission, steps, c);
    forall k | 0 <= k < |own|
      ensures own[k] != Escaped(c, Forbidden)
    {
      var at := OwnIsLogged(Run(permission, steps).log, c, k);
      NothingEscapes(permission, steps, at);
    }
  }

  // ---------------------------------------------------------------- sequential calls

  /** A call that was answered and ended without taking the answer up. */
  predicate Dropped(own: seq<Event>) {
    |own| >= 2 && own[1].Replied? && (|own| == 2 || own[2].Audited?)
  }

  ghost predicate KeepsAnswer(s: State, c: CallId) {
    c < |s.calls| && !s.calls[c].phase.Answered? ==> !Dropped(Own(s.log, c))
  }

  lemma {:induction false} KeepsMove(s: State, call: CallId, phase: Phase, events: seq<Event>, c: CallId)
    requires call < |s.calls| && forall e | e in events :: e.call == call
    requires KeepsAnswer(s, c)
    requires c == call && !phase.Answered? ==> !Dropped(Own(s.log, c) + events)
    ensures KeepsAnswer(Move(s, call, phase, events), c)
  {
    OwnNext(s.log, events, call, c);
  }

  lemma {:induction false} KeepsAppend(s: State, call: Call, c: CallId)
    requires Told(s, c) && KeepsAnswer(s, c)
    ensures KeepsAnswer(Append(s, call), c)
  {
    var events := FirstEvents(call.phase, |s.calls|);
    OwnNext(s.log, events, |s.calls|, c);
    assert c == |s.calls| ==> Own(Append(s, call).log, c) == events;
  }

  lemma {:induction false} KeepsResume(s: State, call: CallId, c: CallId)
    requires call < |s.calls| && s.calls[call].phase.Answered? && Told(s, c) && KeepsAnswer(s, c)
    ensures KeepsAnswer(Absorb(s, call, s.calls[call].phase.decision), c)
  {
    match s.calls[call].phase.decision
    case Deny => KeepsMove(s, call, Settled(Denied), [Recorded(call, Deny)], c);
    case Once => KeepsMove(s, call, Running, [Recorded(call, Once), Dispatched(call)], c);
    case Session =>
      KeepsMove(s.(session := s.session + {s.calls[call].tool}), call, Running,
                [Recorded(call, Session), Dispatched(call)], c);
  }

  /** The call is cancelled after its answer was given and before it resumes. */
  predicate DropsAnswer(s: State, step: Step, c: CallId) {
    step == Cancel(c) && c < |s.calls| && s.calls[c].phase.Answered?
  }

  lemma {:induction false} KeepsStep(permission: Permission, s: State, step: Step, c: CallId)
    requires Told(s, c) && KeepsAnswer(s, c) && !DropsAnswer(s, step, c)
    ensures KeepsAnswer(Apply(permission, s, step), c)
  {
    if Apply(permission, s, step) != s {
      match step
      case Begin(tool, failure) =>
        KeepsAppend(s, Call(tool, FirstPhase(permission, s.session, tool, failure)), c);
      case Reply(call, answer) =>
        if answer.PromptRaises? {
          KeepsMove(s, call, Settled(StatusOf(answer.failure)), [], c);
        }
      case Resume(call) => KeepsResume(s, call, c);
      case Respond(call, response) =>
        KeepsMove(s, call, Settled(ResponseStatus(response)), ResponseEvents(call, response), c);
      case Cancel(call) => KeepsMove(s, call, Settled(Failed), [], c);
      case Audit(call, written) =>
        var status := s.calls[call].phase.status;
        KeepsMove(s, call, Finished(status, written), if written then [Audited(call, status)] else [], c);
    }
  }

  /** In no step of the run does the call lose its answer. */
  ghost predicate AnswerKept(permission: Permission, steps: seq<Step>, c: CallId) {
    forall k | 0 <= k < |steps| :: !DropsAnswer(Run(permission, steps[..k]), steps[k], c)
  }

  lemma {:induction false} KeepsAlways(permission: Permission, steps: seq<Step>, c: CallId)
    requires AnswerKept(permission, steps, c)
    ensures KeepsAnswer(Run(permission, steps), c)
    decreases |steps|
  {
    if steps != [] {
      var before := steps[..|steps| - 1];
      assert forall k | 0 <= k < |before| :: before[..k] == steps[..k];
      KeepsAlways(permission, before, c);
      StoryAlways(permission, before, c);
      assert !DropsAnswer(Run(permission, steps[..|steps| - 1]), steps[|steps| - 1], c);
      KeepsStep(permission, Run(permission, before), steps[|steps| - 1], c);
    }
  }

  lemma {:induction false} LoggedIsOwn(log: seq<Event>, k: nat)
    requires k < |log|
    ensures log[k] in Own(log, log[k].call)
  {
    if k < |log| - 1 {
      LoggedIsOwn(log[..|log| - 1], k);
    }
  }

  lemma TakenUp(own: seq<Event>, c: CallId, status: Status, written: bool, decision: Decision)
    requires Story(Finished(status, written), own, c) && !Dropped(own) && Replied(c, decision) in own
    ensures |own| > 2 && own[2] == Recorded(c, decision)
  {
    var k :| 0 <= k < |own| && own[k] == Replied(c, decision);
    assert k == 1;
  }

  /**
   Between calls, a tool once allowed for the session is not prompted for again, unless the
   very call that was answered was cancelled before it took the answer up.
   */
  lemma SessionAnswerLasts(permission: Permission, steps: seq<Step>, k: nat, tool: string, failure: Option<Failure>)
    requires forall c | 0 <= c < |Run(permission, steps).calls| :: Run(permission, steps).calls[c].phase.Finished?
    requires k < |Run(permission, steps).log|
    requires var e := Run(permission, steps).log[k];
             && e.Replied? && e.decision == Session && e.call < |Run(permission, steps).calls|
             && Run(permission, steps).calls[e.call].tool == tool && AnswerKept(permission, steps, e.call)
    ensures !FirstPhase(permission, Run(permission, steps).session, tool, failure).Waiting?
  {
    var s := Run(permission, steps);
    var c := s.log[k].call;
    StoryAlways(permission, steps, c);
    KeepsAlways(permission, steps, c);
    PolicyAlways(permission, steps);
    LoggedIsOwn(s.log, k);
    assert Lawful(permission, s.calls, s.log, k);
    TakenUp(Own(s.log, c), c, s.calls[c].phase.status, s.calls[c].phase.written, Session);
    var at := OwnIsLogged(s.log, c, 2);
    assert Grants(s.calls, s.log[at], tool);
  }

  // ---------------------------------------------------------------- exactly when a tool is prompted for again

  /** Event `k` is a SESSION answer given for `tool`. */
  predicate SessionAnswer(s: State, k: nat, tool: string) {
    && k < |s.log| && s.log[k].Replied? && s.log[k].decision == Session
    && s.log[k].call < |s.calls| && s.calls[s.log[k].call].tool == tool
  }

  /** The call ended without taking its answer up, for good. */
  ghost predicate Lost(s: State, c: CallId) {
    && c < |s.calls| && (s.calls[c].phase.Settled? || s.calls[c].phase.Finished?)
    && Dropped(Own(s.log, c))
  }

  lemma {:induction false} LostMove(s: State, call: CallId, phase: Phase, events: seq<Event>, c: CallId)
    requires call < |s.calls| && c < |s.calls| && forall e | e in events :: e.call == call
    requires c != call ==> Lost(s, c)
    requires c == call ==> (phase.Settled? || phase.Finished?) && Dropped(Own(s.log, c) + events)
    ensures Lost(Move(s, call, phase, events), c)
  {
    OwnNext(s.log, events, call, c);
  }

  lemma {:induction false} LostBy(permission: Permission, s: State, c: CallId)
    requires Told(s, c) && DropsAnswer(s, Cancel(c), c)
    ensures Lost(Apply(permission, s, Cancel(c)), c)
  {
    LostMove(s, c, Settled(Failed), [], c);
  }

  lemma {:induction false} LostResume(s: State, call: CallId, decision: Decision, c: CallId)
    requires call < |s.calls| && call != c && Lost(s, c)
    ensures Lost(Absorb(s, call, decision), c)
  {
    match decision
    case Deny => LostMove(s, call, Settled(Denied), [Recorded(call, Deny)], c);
    case Once => LostMove(s, call, Running, [Recorded(call, Once), Dispatched(call)], c);
    case Session =>
      LostMove(s.(session := s.session + {s.calls[call].tool}), call, Running,
               [Recorded(call, Session), Dispatched(call)], c);
  }

  lemma {:induction false} LostAppend(s: State, call: Call, c: CallId)
    requires Lost(s, c)
    ensures Lost(Append(s, call), c)
  {
    OwnNext(s.log, FirstEvents(call.phase, |s.calls|), |s.calls|, c);
  }

  lemma {:induction false} LostAudit(s: State, call: CallId, status: Status, written: bool, c: CallId)
    requires call < |s.calls| && s.calls[call].phase == Settled(status) && Told(s, c) && Lost(s, c)
    ensures Lost(Move(s, call, Finished(status, written), if written then [Audited(call, status)] else []), c)
  {
    var events := if written then [Audited(call, status)] else [];
    if c == call {
      var own := Own(s.log, c);
      assert |own| == 2 && (own + events)[..2] == own;
      assert Dropped(own + events);
    }
    LostMove(s, call, Finished(status, written), events, c);
  }

  lemma {:induction false} LostStays(permission: Permission, s: State, step: Step, c: CallId)
    requires Told(s, c) && Lost(s, c)
    ensures Lost(Apply(permission, s, step), c)
  {
    if Apply(permission, s, step) != s {
      match step
      case Begin(tool, failure) => LostAppend(s, Call(tool, FirstPhase(permission, s.session, tool, failure)), c);
      case Audit(call, written) => LostAudit(s, call, s.calls[call].phase.status, written, c);
      case Resume(call) => LostResume(s, call, s.calls[call].phase.decision, c);
      case Respond(call, response) =>
        LostMove(s, call, Settled(ResponseStatus(response)), ResponseEvents(call, response), c);
      case Cancel(call) => LostMove(s, call, Settled(Failed), [], c);
      case Reply(call, Decided(decision)) => LostMove(s, call, Answered(decision), [Replied(call, decision)], c);
      case Reply(call, PromptRaises(failure)) => LostMove(s, call, Settled(StatusOf(failure)), [], c);
    }
  }

  lemma {:induction false} DroppedIsLost(permission: Permission, steps: seq<Step>, k: nat, c: CallId)
    requires k < |steps| && DropsAnswer(Run(permission, steps[..k]), steps[k], c)
    ensures Lost(Run(permission, steps), c)
    decreases |steps|
  {
    var before := steps[..|steps| - 1];
    StoryAlways(permission, before, c);
    if k < |steps| - 1 {
      assert before[..k] == steps[..k];
      DroppedIsLost(permission, before, k, c);
      LostStays(permission, Run(permission, before), steps[|steps| - 1], c);
    } else {
      LostBy(permission, Run(permission, before), c);
    }
  }

  /** A recorded answer was not dropped. */
  lemma {:induction false} RecordedIsKept(permission: Permission, steps: seq<Step>, c: CallId, at: nat)
    requires at < |Run(permission, steps).log| && Run(permission, steps).log[at].Recorded?
    requires Run(permission, steps).log[at].call == c
    ensures AnswerKept(permission, steps, c)
  {
    StoryAlways(permission, steps, c);
    LoggedIsOwn(Run(permission, steps).log, at);
    forall k | 0 <= k < |steps|
      ensures !DropsAnswer(Run(permission, steps[..k]), steps[k], c)
    {
      if DropsAnswer(Run(permission, steps[..k]), steps[k], c) {
        DroppedIsLost(permission, steps, k, c);
        LostHasNoRecord(Run(permission, steps), c);
      }
    }
  }

  lemma {:induction false} LostHasNoRecord(s: State, c: CallId)
    requires Told(s, c) && Lost(s, c)
    ensures forall e | e in Own(s.log, c) :: !e.Recorded?
  {
    var own, phase := Own(s.log, c), s.calls[c].phase;
    if phase.Finished? && phase.written {
      assert own == own[..|own| - 1] + [Audited(c, phase.status)];
    }
  }

  /** Between calls, a mutation is prompted for exactly if every SESSION answer given for its tool was dropped. */
  lemma {:induction false} PromptsAgainIff(steps: seq<Step>, tool: string)
    requires Mutates(tool)
    requires forall c | 0 <= c < |Run(ReadWrite, steps).calls| :: Run(ReadWrite, steps).calls[c].phase.Finished?
    ensures FirstPhase(ReadWrite, Run(ReadWrite, steps).session, tool, None).Waiting? <==>
            forall k: nat | SessionAnswer(Run(ReadWrite, steps), k, tool) ::
              !AnswerKept(ReadWrite, steps, Run(ReadWrite, steps).log[k].call)
  {
    var s := Run(ReadWrite, steps);
    if tool in s.session {
      PolicyAlways(ReadWrite, steps);
      var at :| 0 <= at < |s.log| && Grants(s.calls, s.log[at], tool);
      assert Lawful(ReadWrite, s.calls, s.log, at);
      var k :| 0 <= k < at && s.log[k] == Replied(s.log[at].call, Session);
      RecordedIsKept(ReadWrite, steps, s.log[at].call, at);
      assert SessionAnswer(s, k, tool) && AnswerKept(ReadWrite, steps, s.log[k].call);
    } else {
      forall k: nat | SessionAnswer(s, k, tool)
        ensures !AnswerKept(ReadWrite, steps, s.log[k].call)
      {
        if AnswerKept(ReadWrite, steps, s.log[k].call) {
          SessionAnswerLasts(ReadWrite, steps, k, tool, None);
        }
      }
    }
  }

  lemma RunNext(permission: Permission, steps: seq<Step>, step: Step)
    ensures Run(permission, steps + [step]) == Apply(permission, Run(permission, steps), step)
  {
    AfterNext(permission, INITIAL, steps, step);
  }

  /** A prompt opened by `w` and answered with SESSION; the call has not resumed. */
  lemma AnsweredCall(w: string)
    requires Mutates(w)
    ensures Run(ReadWrite, [Begin(w, None), Reply(0, Decided(Session))]) ==
            State({}, [Call(w, Answered(Session))], [Prompted(0), Replied(0, Session)])
  {
    RunNext(ReadWrite, [], Begin(w, None));
    assert [] + [Begin(w, None)] == [Begin(w, None)];
    RunNext(ReadWrite, [Begin(w, None)], Reply(0, Decided(Session)));
    assert [Begin(w, None)] + [Reply(0, Decided(Session))] == [Begin(w, None), Reply(0, Decided(Session))];
  }

  /** With two calls at once, the second can still be asked after the first was told SESSION. */
  lemma ConcurrentCallAsksAgain(w: string)
    requires Mutates(w)
    ensures Run(ReadWrite, [Begin(w, None), Reply(0, Decided(Session))] + [Begin(w, None)]).log ==
            [Prompted(0), Replied(0, Session), Prompted(1)]
  {
    AnsweredCall(w);
    RunNext(ReadWrite, [Begin(w, None), Reply(0, Decided(Session))], Begin(w, None));
  }

  /** Cancelled between its SESSION answer and resuming, a call leaves no grant behind. */
  lemma CancelledAnswerIsLost(w: string)
    requires Mutates(w)
    ensures Run(ReadWrite, [Begin(w, None), Reply(0, Decided(Session))] + [Cancel(0)]
                + [Audit(0, true)] + [Begin(w, None)]).log
            == [Prompted(0), Replied(0, Session), Audited(0, Failed), Prompted(1)]
  {
    var steps := [Begin(w, None), Reply(0, Decided(Session))];
    AnsweredCall(w);
    RunNext(ReadWrite, steps, Cancel(0));
    RunNext(ReadWrite, steps + [Cancel(0)], Audit(0, true));
    RunNext(ReadWrite, steps + [Cancel(0)] + [Audit(0, true)], Begin(w, None));
  }

  // ---------------------------------------------------------------- the objects

  datatype Verdict = Allowed | Refused | Raised(failure: Failure)

  /** `tools` remembered for the session; `answer` is what the prompt gives, if it is shown. */
  class SessionApprover {
    var sessionTools: set<string>

    constructor ()
      ensures sessionTools == {}
    {
      sessionTools := {};
    }

    method Approve(tool: string, answer: Answer) returns (verdict: Verdict, asked: bool)
      modifies this
      ensures asked <==> tool !in old(sessionTools)
      ensures verdict.Allowed? <==> !asked || answer == Decided(Once) || answer == Decided(Session)
      ensures asked && answer.PromptRaises? ==> verdict == Raised(answer.failure)
      ensures asked && answer == Decided(Deny) ==> verdict == Refused
      ensures sessionTools == old(sessionTools) + if asked && answer == Decided(Session) then {tool} else {}
    {
      if tool in sessionTools {
        return Allowed, false;
      }
      asked := true;
      match answer
      case PromptRaises(failure) => verdict := Raised(failure);
      case Decided(decision) =>
        if decision == Session {
          sessionTools := sessionTools + {tool};
        }
        verdict := if decision == Deny then Refused else Allowed;
    }
  }

  /** The steps of a call that nothing interrupts; those it does not reach have no effect. */
  function Asking(n: CallId, tool: string, failure: Option<Failure>, answer: Answer): seq<Step> {
    [Begin(tool, failure)] + [Reply(n, answer)] + [Resume(n)]
  }

  function Uninterrupted(n: CallId, tool: string, failure: Option<Failure>, answer: Answer, response: Response,
                         written: bool): seq<Step>
  {
    Asking(n, tool, failure, answer) + [Respond(n, response)] + [Audit(n, written)]
  }

  lemma AfterNext(permission: Permission, s: State, steps: seq<Step>, step: Step)
    ensures After(permission, s, steps + [step]) == Apply(permission, After(permission, s, steps), step)
  {
    assert (steps + [step])[..|steps|] == steps;
  }

  lemma AfterAsking(permission: Permission, s: State, n: CallId, tool: string, failure: Option<Failure>, answer: Answer)
    ensures After(permission, s, Asking(n, tool, failure, answer)) ==
            Apply(permission, Apply(permission, Apply(permission, s, Begin(tool, failure)), Reply(n, answer)),
                  Resume(n))
  {
    AfterNext(permission, s, [], Begin(tool, failure));
    assert [] + [Begin(tool, failure)] == [Begin(tool, failure)];
    AfterNext(permission, s, [Begin(tool, failure)], Reply(n, answer));
    AfterNext(permission, s, [Begin(tool, failure)] + [Reply(n, answer)], Resume(n));
  }

  /** What `execute` gives its caller. */
  datatype Outcome = Value | ActionError | Propagates

  function OutcomeOf(failure: Failure): Outcome {
    if failure.Unexpected? then Propagates else ActionError
  }

  /** The operator is asked about this action. */
  predicate Prompts(permission: Permission, session: set<string>, tool: string, failure: Option<Failure>) {
    && failure.None? && (tool == "filesystem_write" || tool == "command_start")
    && permission == ReadWrite && tool !in session
  }

  /** The action is dispatched: it changes nothing, or it is remembered or granted. */
  predicate Cleared(permission: Permission, session: set<string>, tool: string, failure: Option<Failure>,
                    answer: Answer)
  {
    && failure.None?
    && (tool == "filesystem_write" || tool == "command_start" ==>
          permission == ReadWrite && (tool in session || answer == Decided(Once) || answer == Decided(Session)))
  }

  /** The action is refused before its dispatch for want of permission. */
  predicate Refuses(permission: Permission, session: set<string>, tool: string, failure: Option<Failure>,
                    answer: Answer)
  {
    || failure == Some(Forbidden)
    || (failure.None? && permission == ReadOnly && (tool == "filesystem_write" || tool == "command_start"))
    || (Prompts(permission, session, tool, failure) && (answer == Decided(Deny) || answer == PromptRaises(Forbidden)))
  }

  class Runtime {
    const permission: Permission
    const approver: SessionApprover
    var calls: seq<Call>
    var log: seq<Event>

    constructor (permission: Permission, approver: SessionApprover)
      ensures this.permission == permission && this.approver == approver && calls == [] && log == []
    {
      this.permission, this.approver := permission, approver;
      calls, log := [], [];
    }

    ghost function Abstract(): State
      reads this, approver
    {
      State(approver.sessionTools, calls, log)
    }

    /** The part of `execute` up to the dispatch: `granted` unless something was raised. */
    method Authorize(tool: string, failure: Option<Failure>, answer: Answer)
      returns (raised: Option<Failure>)
      modifies this, approver
      ensures Abstract() ==
              After(permission, old(Abstract()), Asking(old(|calls|), tool, failure, answer))
      ensures |calls| == old(|calls|) + 1
      ensures calls[|calls| - 1].phase == if raised.None? then Running else Settled(StatusOf(raised.value))
      ensures var session := old(approver.sessionTools);
              && (raised.None? <==> Cleared(permission, session, tool, failure, answer))
              && (raised == Some(Forbidden) <==> Refuses(permission, session, tool, failure, answer))
              && (raised == Some(Unexpected) <==>
                    failure == Some(Unexpected)
                    || (Prompts(permission, session, tool, failure) && answer == PromptRaises(Unexpected)))
              && approver.sessionTools ==
                 session +
                 if Prompts(permission, session, tool, failure) && answer == Decided(Session) then {tool} else {}
    {
      AfterAsking(permission, Abstract(), |calls|, tool, failure, answer);
      raised := failure;
      var asked := false;
      if failure.None? && Mutates(tool) {
        if permission == ReadOnly {
          raised := Some(Forbidden);
        } else {
          var verdict;
          verdict, asked := approver.Approve(tool, answer);
          if asked {
            var n := |calls|;
            log := log + [Prompted(n)];
            if answer.Decided? {
              log := log + [Replied(n, answer.decision)] + [Recorded(n, answer.decision)];
            }
          }
          raised := match verdict case Allowed => None case Refused => Some(Forbidden) case Raised(f) => Some(f);
        }
      }
      if raised.None? {
        log := log + [Dispatched(|calls|)];
      }
      calls := calls + [Call(tool, if raised.None? then Running else Settled(StatusOf(raised.value)))];
    }

    /** The dispatch, and what its response means for the caller. */
    method Dispatch(call: CallId, response: Response) returns (outcome: Outcome)
      requires call < |calls| && calls[call].phase.Running?
      modifies this
      ensures Abstract() == Apply(permission, old(Abstract()), Respond(call, response))
      ensures call < |calls| == |old(calls)| && calls[call].phase == Settled(ResponseStatus(response))
      ensures outcome.Value? <==> response.OperationResult?
      ensures outcome.Propagates? <==> response == DispatchRaises(Unexpected)
    {
      match response {
        case OperationResult =>
          outcome := Value;
          log := log + [Succeeded(call)];
        case ErrorReply => outcome := ActionError;
        case StrangeReply => outcome := ActionError;
        case DispatchRaises(f) =>
          outcome := OutcomeOf(f);
          log := log + [Escaped(call, f)];
      }
      calls := calls[call := calls[call].(phase := Settled(ResponseStatus(response)))];
    }

    method WriteAudit(call: CallId, written: bool)
      requires call < |calls| && calls[call].phase.Settled?
      modifies this
      ensures Abstract() == Apply(permission, old(Abstract()), Audit(call, written))
      ensures call < |calls| == |old(calls)| && calls[call].phase == Finished(old(calls)[call].phase.status, written)
    {
      var status := calls[call].phase.status;
      calls := calls[call := calls[call].(phase := Finished(status, written))];
      if written {
        log := log + [Audited(call, status)];
      }
    }

    /**
     `execute`: its effect on the approver, the dispatcher and the audit log is the run of one
     uninterrupted call, and the caller gets a value exactly when the audit says it is done.
     */
    method Execute(tool: string, failure: Option<Failure>, answer: Answer, response: Response, written: bool)
      returns (outcome: Outcome)
      modifies this, approver
      ensures Abstract() ==
              After(permission, old(Abstract()),
                    Uninterrupted(old(|calls|), tool, failure, answer, response, written))
      ensures |calls| == old(|calls|) + 1 && calls[|calls| - 1].phase.Finished?
      ensures outcome.Value? <==> calls[|calls| - 1].phase.status == Done
      ensures var session := old(approver.sessionTools);
              var cleared := Cleared(permission, session, tool, failure, answer);
              && (outcome.Value? <==> cleared && response.OperationResult?)
              && (calls[|calls| - 1].phase.status == Denied <==>
                    Refuses(permission, session, tool, failure, answer)
                    || (cleared && response == DispatchRaises(Forbidden)))
              && (outcome.Propagates? <==>
                    || failure == Some(Unexpected)
                    || (Prompts(permission, session, tool, failure) && answer == PromptRaises(Unexpected))
                    || (cleared && response == DispatchRaises(Unexpected)))
    {
      ghost var before, n := Abstract(), |calls|;
      AfterNext(permission, before, Asking(n, tool, failure, answer), Respond(n, response));
      AfterNext(permission, before, Asking(n, tool, failure, answer) + [Respond(n, response)], Audit(n, written));
      var raised := Authorize(tool, failure, answer);
      var call := |calls| - 1;
      if raised.None? {
        outcome := Dispatch(call, response);
      } else {
        outcome := OutcomeOf(raised.value);
      }
      WriteAudit(call, written);
    }
  }
}
