/**
 One turn of the chat loop. The backend is any stream of replies and the runtime any stream
 of execution results; the validation of an examined payload is the abstract `decode`.
 */
module Orchestrator {
  import opened Common
  import opened Json
  import opened ActionScanner
  import opened ResultRendering

  datatype Action = Action(id: string, tool: string)

  /** A reply to one send, or an exception of the backend. */
  datatype Reply = Reply(content: string, conversation: string) | BackendError

  /** How `execute` ends; a value that JSON cannot represent makes rendering raise. */
  datatype Execution = Completes(result: Value) | Rejects(message: string) | Crashes | Unprintable

  datatype Parsed = Nothing | Malformed | Act(action: Action)

  type Decoder = string -> Option<Action>

  /** `parse_action` as a whole. */
  function Parse(content: string, decode: Decoder): (p: Parsed)
    ensures p.Act? ==> IsActionId(p.action.id)
  {
    match ParseAction(content)
    case NoAction => Nothing
    case Rejected => Malformed
    case Examine(payload) =>
      match decode(payload)
      case None => Malformed
      case Some(action) => if IsActionId(action.id) then Act(action) else Malformed
  }

  /** Exactly when a reply asks for an action, and for which; it asks for nothing exactly without a tag fragment. */
  lemma ParseIff(content: string, decode: Decoder, action: Action)
    ensures Parse(content, decode) == Act(action) <==>
            exists i: nat, j: nat, payload :: Block(content, i, j, OPEN, CLOSE, payload)
              && decode(payload) == Some(action) && IsActionId(action.id)
    ensures Parse(content, decode) == Nothing <==>
            !ActionScanner.Occurs(content, OPEN_FRAGMENT) && !ActionScanner.Occurs(content, CLOSE_FRAGMENT)
  {
    NoActionIffNoFragment(content);
    if Parse(content, decode) == Act(action) {
      var i, j := ExaminedIsOneBlock(content, ParseAction(content).payload);
    }
    if exists i: nat, j: nat, payload :: Block(content, i, j, OPEN, CLOSE, payload)
        && decode(payload) == Some(action) && IsActionId(action.id) {
      var i: nat, j: nat, payload :| Block(content, i, j, OPEN, CLOSE, payload)
        && decode(payload) == Some(action) && IsActionId(action.id);
      OneBlockIsExamined(content, i, j, payload);
    }
  }

  datatype Sent = Sent(text: string, conversation: string)

  datatype Ending =
    | Answered(content: string)
    | MalformedNotice
    | LimitReached
    | Raised

  /** What happened in a turn: messages sent, actions executed, and results in order. */
  datatype Turn = Turn(sends: seq<Sent>, executed: seq<Action>, results: seq<(string, Outcome)>)

  /** A parser of replies that only lets valid identifiers through. */
  ghost predicate Strict(parse: string -> Parsed) {
    forall content :: parse(content).Act? ==> IsActionId(parse(content).action.id)
  }

  /** `parse_action` is one, whatever its payload validation accepts. */
  lemma ParseIsStrict(decode: Decoder)
    ensures Strict(content => Parse(content, decode))
  {
  }

  /** The action a reply asks for, if it asks for one. */
  function Asked(reply: Reply, parse: string -> Parsed): Option<Action> {
    if reply.Reply? && parse(reply.content).Act? then Some(parse(reply.content).action) else None
  }

  /** Some executed action has this identifier. */
  predicate Covers(executed: seq<Action>, id: string) {
    exists a :: 0 <= a < |executed| && executed[a].id == id
  }

  /** Of the actions asked for, the first with each identifier. */
  function Firsts(asked: seq<Action>): (executed: seq<Action>) {
    if asked == [] then [] else
      var before := Firsts(asked[..|asked| - 1]);
      if Covers(before, asked[|asked| - 1].id) then before else before + [asked[|asked| - 1]]
  }

  /** How an execution is reported; None when rendering its value raises. */
  function Report(execution: Execution): Option<Outcome> {
    match execution
    case Completes(result) => Some(Returned(result))
    case Rejects(reason) => Some(Error("local_action_error", reason))
    case Crashes => Some(Error("internal_error", "local action failed"))
    case Unprintable => None
  }

  /** The outcome is what became of the execution. */
  predicate Explains(o: Outcome, execution: Execution) {
    && !execution.Unprintable?
    && (execution.Completes? ==> o == Returned(execution.result))
    && (execution.Rejects? ==> o == Error("local_action_error", execution.message))
    && (execution.Crashes? ==> o == Error("internal_error", "local action failed"))
  }

  const DUPLICATE := Error("duplicate_action", "action id was already handled in this turn")

  /**
   Result `k` carries the identifier of the action in reply `k`; it is the outcome of its own
   execution if that identifier is new, and otherwise says that it is a duplicate. The message
   sent next is this result, and reading it gives the outcome back.
   */
  ghost predicate AnsweredAt(t: Turn, asked: seq<Action>, runtime: nat -> Execution, k: nat)
    requires k < |asked| == |t.results| && |t.sends| == |t.results| + 1
  {
    var (id, o) := t.results[k];
    && id == asked[k].id
    && (if Covers(asked[..k], id) then o == Error("duplicate_action", "action id was already handled in this turn")
        else Explains(o, runtime(|Firsts(asked[..k])|)))
    && RenderResult(id, o) == Some(t.sends[k + 1].text)
    && ((o.Returned? ==> WellFormed(o.result)) ==> Tells(t.sends[k + 1].text, id, o))
  }

  ghost predicate Correlated(t: Turn, asked: seq<Action>, runtime: nat -> Execution) {
    && |asked| == |t.results| && |t.sends| == |t.results| + 1
    && forall k | 0 <= k < |asked| :: AnsweredAt(t, asked, runtime, k)
  }

  ghost predicate SameConversation(t: Turn, message: string, conversation: string) {
    && |t.sends| > 0 && t.sends[0] == Sent(message, conversation)
    && forall k | 0 <= k < |t.sends| :: t.sends[k].conversation == conversation
  }

  /** A reply that `_send` accepts. */
  predicate Attached(reply: Reply, conversation: string) {
    reply.Reply? && reply.conversation == conversation
  }

  /** The replies so far came in this conversation and asked for these actions. */
  ghost predicate AskedByReplies(asked: seq<Action>, backend: nat -> Reply, conversation: string,
                                 parse: string -> Parsed) {
    forall k: nat | k < |asked| ::
      Attached(backend(k), conversation) && Asked(backend(k), parse) == Some(asked[k])
  }

  /** The last action asked for is new and was executed, but its value could not be rendered. */
  ghost predicate RaisedRendering(t: Turn, asked: seq<Action>, last: Option<Action>, runtime: nat -> Execution) {
    && last.Some? && !Covers(asked, last.value.id) && runtime(|Firsts(asked)|).Unprintable?
    && t.executed == Firsts(asked + [last.value])
  }

  /** Whatever was asked for, each identifier is executed exactly once, and nothing else is. */
  lemma {:induction false} ExecutedOnce(asked: seq<Action>)
    ensures forall a, b | 0 <= a < b < |Firsts(asked)| :: Firsts(asked)[a].id != Firsts(asked)[b].id
    ensures forall x | x in Firsts(asked) :: x in asked
    ensures forall x | x in asked :: Covers(Firsts(asked), x.id)
  {
    if asked == [] {
    } else {
      var before, last := asked[..|asked| - 1], asked[|asked| - 1];
      ExecutedOnce(before);
      assert asked == before + [last];
      var executed := Firsts(asked);
      assert Firsts(before) <= executed;
      forall x | x in asked
        ensures Covers(executed, x.id)
      {
        if !Covers(Firsts(before), x.id) {
          assert executed[|executed| - 1].id == x.id;
        } else {
          var a :| 0 <= a < |Firsts(before)| && Firsts(before)[a].id == x.id;
          assert executed[a].id == x.id;
        }
      }
    }
  }

  lemma CoversFirsts(asked: seq<Action>, id: string)
    ensures Covers(Firsts(asked), id) <==> Covers(asked, id)
  {
    ExecutedOnce(asked);
    if Covers(asked, id) {
      var a :| 0 <= a < |asked| && asked[a].id == id;
      assert asked[a] in asked;
    }
    if Covers(Firsts(asked), id) {
      var a :| 0 <= a < |Firsts(asked)| && Firsts(asked)[a].id == id;
      assert Firsts(asked)[a] in Firsts(asked);
    }
  }

  function Extend(t: Turn, executed: seq<Action>, sent: Sent, id: string, o: Outcome): Turn {
    Turn(t.sends + [sent], executed, t.results + [(id, o)])
  }

  /** One more result, whose text is the next message. */
  lemma CorrelatedNext(t: Turn, asked: seq<Action>, runtime: nat -> Execution, action: Action,
                       executed: seq<Action>, o: Outcome, sent: Sent)
    requires Correlated(t, asked, runtime)
    requires IsActionId(action.id) && RenderResult(action.id, o) == Some(sent.text)
    requires if Covers(asked, action.id) then o == DUPLICATE else Explains(o, runtime(|Firsts(asked)|))
    ensures Correlated(Extend(t, executed, sent, action.id, o), asked + [action], runtime)
  {
    var next := Extend(t, executed, sent, action.id, o);
    if o.Returned? ==> WellFormed(o.result) {
      RenderedTells(action.id, o);
    }
    forall k | 0 <= k < |asked| + 1
      ensures AnsweredAt(next, asked + [action], runtime, k)
    {
      assert (asked + [action])[..k] == asked[..k];
      if k < |asked| {
        assert AnsweredAt(t, asked, runtime, k);
      } else {
        assert asked[..k] == asked;
      }
    }
  }

  lemma FirstsNext(asked: seq<Action>, action: Action)
    ensures Firsts(asked + [action]) ==
            if Covers(Firsts(asked), action.id) then Firsts(asked) else Firsts(asked) + [action]
    ensures forall id :: Covers(Firsts(asked + [action]), id) <==> Covers(Firsts(asked), id) || id == action.id
  {
    var executed := Firsts(asked + [action]);
    assert (asked + [action])[..|asked|] == asked;
    assert Firsts(asked) <= executed;
    forall id
      ensures Covers(executed, id) <==> Covers(Firsts(asked), id) || id == action.id
    {
      if Covers(Firsts(asked), id) {
        var a :| 0 <= a < |Firsts(asked)| && Firsts(asked)[a].id == id;
        assert executed[a].id == id;
      } else if id == action.id {
        assert executed[|executed| - 1].id == id;
      }
    }
  }

  /** The body of one round: executes the action unless its identifier was seen, and renders. */
  method Handle(t: Turn, ghost asked: seq<Action>, seen: set<string>, action: Action,
                runtime: nat -> Execution, ghost message: string, conversation: string)
    returns (t': Turn, seen': set<string>, raised: bool)
    requires IsActionId(action.id)
    requires Correlated(t, asked, runtime) && t.executed == Firsts(asked)
    requires SameConversation(t, message, conversation)
    requires forall id :: id in seen <==> Covers(t.executed, id)
    ensures t'.executed == Firsts(asked + [action])
    ensures raised <==> !Covers(asked, action.id) && runtime(|Firsts(asked)|).Unprintable?
    ensures Correlated(t', if raised then asked else asked + [action], runtime)
    ensures SameConversation(t', message, conversation)
    ensures forall id :: id in seen' <==> Covers(t'.executed, id)
  {
    FirstsNext(asked, action);
    CoversFirsts(asked, action.id);
    seen' := seen + {action.id};
    raised := false;
    var executed, outcome := t.executed, DUPLICATE;
    if action.id !in seen {
      executed := t.executed + [action];
      var report := Report(runtime(|t.executed|));
      if report.None? {
        t' := t.(executed := executed);
        assert forall k | 0 <= k < |asked| :: AnsweredAt(t, asked, runtime, k) ==> AnsweredAt(t', asked, runtime, k);
        return t', seen', true;
      }
      outcome := report.value;
    }
    var sent := Sent(RenderResult(action.id, outcome).value, conversation);
    CorrelatedNext(t, asked, runtime, action, executed, outcome, sent);
    t' := Extend(t, executed, sent, action.id, outcome);
  }

  /**
   `run_turn`. Whatever the backend replies: at most `limit` results and one more send than
   results, every send in the attached conversation; each result answers the action of the
   reply just before it; the executed actions are the first ones of each identifier. `asked`
   lists the actions of the replies that were answered; the reply after those, or an execution
   whose value cannot be rendered, decides how the turn ends.
   */
  method RunTurn(message: string, conversation: string, limit: nat,
                 backend: nat -> Reply, runtime: nat -> Execution, parse: string -> Parsed)
    returns (t: Turn, ending: Ending, ghost asked: seq<Action>)
    requires limit >= 1 && Strict(parse)
    ensures |t.results| <= limit && Correlated(t, asked, runtime)
    ensures SameConversation(t, message, conversation)
    ensures AskedByReplies(asked, backend, conversation, parse)
    ensures !ending.Raised? ==> t.executed == Firsts(asked) && Attached(backend(|asked|), conversation)
    ensures ending.Answered? ==>
              parse(ending.content).Nothing? && backend(|asked|) == Reply(ending.content, conversation)
    ensures ending.MalformedNotice? ==> parse(backend(|asked|).content).Malformed?
    ensures ending.LimitReached? ==> |t.results| == limit
    ensures ending.Raised? ==>
              || (!Attached(backend(|asked|), conversation) && t.executed == Firsts(asked))
              || RaisedRendering(t, asked, Asked(backend(|asked|), parse), runtime)
  {
    t := Turn([Sent(message, conversation)], [], []);
    asked := [];
    var response := backend(0);
    if !Attached(response, conversation) {
      return t, Raised, asked;
    }
    var seen: set<string> := {};
    var i := 0;
    while i < limit
      invariant 0 <= i <= limit && |asked| == i
      invariant Correlated(t, asked, runtime) && t.executed == Firsts(asked)
      invariant SameConversation(t, message, conversation)
      invariant AskedByReplies(asked, backend, conversation, parse)
      invariant forall id :: id in seen <==> Covers(t.executed, id)
      invariant response == backend(i) && Attached(response, conversation)
    {
      var parsed := parse(response.content);
      if parsed.Malformed? {
        return t, MalformedNotice, asked;
      }
      if parsed.Nothing? {
        return t, Answered(response.content), asked;
      }
      var raised;
      t, seen, raised := Handle(t, asked, seen, parsed.action, runtime, message, conversation);
      if raised {
        return t, Raised, asked;
      }
      asked := asked + [parsed.action];
      i := i + 1;
      response := backend(i);
      if !Attached(response, conversation) {
        return t, Raised, asked;
      }
    }
    return t, LimitReached, asked;
  }

  /** No message that answers an action can itself be taken for one. */
  lemma {:induction false} SendsAreInert(t: Turn, asked: seq<Action>, runtime: nat -> Execution)
    requires Correlated(t, asked, runtime)
    ensures forall k | 1 <= k < |t.sends| :: ParseAction(t.sends[k].text).NoAction?
  {
    forall k | 1 <= k < |t.sends|
      ensures ParseAction(t.sends[k].text).NoAction?
    {
      assert AnsweredAt(t, asked, runtime, k - 1);
      RenderedIsInert(t.results[k - 1].0, t.results[k - 1].1);
    }
  }

  /** `run_turn` with `parse_action`, whatever payloads its validation accepts. */
  method RunChatTurn(message: string, conversation: string, limit: nat,
                     backend: nat -> Reply, runtime: nat -> Execution, decode: Decoder)
    returns (t: Turn, ending: Ending, ghost asked: seq<Action>)
    requires limit >= 1
    ensures |t.results| <= limit && |t.sends| == |t.results| + 1 == |asked| + 1
    ensures SameConversation(t, message, conversation)
    ensures forall k: nat | k < |asked| ::
              && backend(k).Reply? && Parse(backend(k).content, decode) == Act(asked[k])
              && AnsweredAt(t, asked, runtime, k)
    ensures t.executed == Firsts(asked) || ending.Raised?
    ensures ending.Answered? ==> ParseAction(ending.content).NoAction?
    ensures forall k | 1 <= k < |t.sends| :: ParseAction(t.sends[k].text).NoAction?
  {
    ParseIsStrict(decode);
    t, ending, asked := RunTurn(message, conversation, limit, backend, runtime, content => Parse(content, decode));
    assert forall k: nat | k < |asked| :: Asked(backend(k), content => Parse(content, decode)) == Some(asked[k]);
    SendsAreInert(t, asked, runtime);
  }
}
