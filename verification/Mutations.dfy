/**
 Admission of mutations. `GatewayOperations` is the class that runs the checks of one call
 in order; `Gateway` is the whole Gateway with any number of `mutate` calls whose
 transactions interleave with each other, with lease traffic and with the registry.
 */
module Mutations {
  import opened Common
  import opened Devices
  import Leases
  import opened Registry
  import opened RegistryRuns
  import opened RegistryPresence
  import opened RegistryRequests

  datatype Denial = ByPolicy(error: AuthorizationError) | ByLease | ByReplay

  /** What the transport callback does; `Refusal` is an error that audit records as a denial. */
  datatype Execution = Returns | Refusal | Raises

  datatype Verdict = SUCCESS | DENIED | ERROR

  datatype AuditRow = AuditRow(request: Option<RequestId>, device: DeviceId, verdict: Verdict)

  datatype Intent = Intent(
    uuid: bool,
    device: DeviceId,
    caller: string,
    request: RequestId,
    lease: Leases.LeaseId,
    required: set<Capability>)

  // ---------------------------------------------------------------- one call, in order

  class GatewayOperations {
    const database: DeviceRepository
    const leases: Leases.LeaseService
    var claims: set<RequestId>
    var audit: seq<AuditRow>

    constructor (database: DeviceRepository, leases: Leases.LeaseService, claims: set<RequestId>)
      ensures this.database == database && this.leases == leases && this.claims == claims && audit == []
    {
      this.database, this.leases, this.claims, audit := database, leases, claims, [];
    }

    /** The durable claim: an insert that the primary key refuses the second time. */
    method ClaimRequest(request: RequestId) returns (inserted: bool)
      modifies this`claims
      ensures inserted <==> request !in old(claims)
      ensures claims == old(claims) + {request}
    {
      if request in claims {
        return false;
      }
      claims := claims + {request};
      return true;
    }

    method Record(i: Intent, verdict: Verdict)
      modifies this`audit
      ensures audit == old(audit) + [AuditRow(if i.uuid then Some(i.request) else None, i.device, verdict)]
    {
      audit := audit + [AuditRow(if i.uuid then Some(i.request) else None, i.device, verdict)];
    }

    /** The first check, in the order of the source, that refuses the call. */
    ghost function Refusing(i: Intent, now: Time): Option<Denial>
      reads this, database, leases
    {
      match Authorize(database.rows, i.device, i.required, true)
      case Failure(e) => Some(ByPolicy(e))
      case Success(_) =>
        if !Leases.Validates(leases.rows, i.lease, i.device, i.caller, now) then Some(ByLease)
        else if i.request in claims then Some(ByReplay)
        else None
    }

    /**
     `mutate`, uninterrupted. The callback runs, and the request ID is spent, only when every
     check passes; a refusal names the first check that failed; each call leaves exactly one
     audit row.
     */
    method Mutate(i: Intent, now: Time, execution: Execution)
      returns (executed: bool, denial: Option<Denial>, verdict: Verdict)
      modifies this
      ensures executed <==> i.uuid && old(Refusing(i, now)).None?
      ensures executed <==>
              && i.uuid && i.device in database.rows && MayMutate(database.rows[i.device], i.required)
              && Leases.Validates(leases.rows, i.lease, i.device, i.caller, now) && i.request !in old(claims)
      ensures denial == if i.uuid then old(Refusing(i, now)) else None
      ensures claims == old(claims) + if executed then {i.request} else {}
      ensures audit == old(audit) + [AuditRow(if i.uuid then Some(i.request) else None, i.device, verdict)]
      ensures verdict.SUCCESS? <==> executed && execution.Returns?
      ensures verdict.ERROR? <==> !i.uuid || (executed && execution.Raises?)
    {
      MutationAuthorizedIff(database.rows, i.device, i.required);
      executed, denial := false, None;
      if !i.uuid {
        verdict := ERROR;
        Record(i, verdict);
        return;
      }
      verdict := DENIED;
      var policy := Authorize(database.rows, i.device, i.required, true);
      if policy.Failure? {
        denial := Some(ByPolicy(policy.error));
        Record(i, verdict);
        return;
      }
      var lease := leases.ValidateLease(i.lease, i.device, i.caller, now);
      if lease.None? {
        denial := Some(ByLease);
        Record(i, verdict);
        return;
      }
      executed := ClaimRequest(i.request);
      if !executed {
        denial := Some(ByReplay);
        Record(i, verdict);
        return;
      }
      verdict := match execution case Returns => SUCCESS case Refusal => DENIED case Raises => ERROR;
      Record(i, verdict);
    }
  }

  // ---------------------------------------------------------------- any number of calls, interleaved

  type MutationId = nat

  datatype Stage =
    | Received
    | Authorized
    | LeaseChecked
    | Contended      // the claim's insert failed; the row is about to be looked up
    | Claimed
    | Executing
    | Succeeded
    | Denied(why: Denial)
    | Failed
    | Dropped        // the caller was cancelled

  /** `claimed` and `call` are history: the ID was spent, and the registry call it led to. */
  datatype Mutation = Mutation(intent: Intent, stage: Stage, claimed: bool, call: Option<FutureId>)

  /** `effects` lists the executions of the callback in order. */
  datatype Gateway = Gateway(
    sys: Sys,
    leases: Leases.History,
    claims: set<RequestId>,
    mutations: map<MutationId, Mutation>,
    effects: seq<MutationId>)

  datatype MutationMove =
    | Receive(intent: Intent)
    | CheckPolicy
    | CheckLease(now: Time)
    | Claim
    | LookUpClaim
    | Execute(f: FutureId)
    | Finish(ok: bool)
    | Break          // a transaction fails: nothing is written, the error propagates
    | Drop

  datatype GatewayStep =
    | MutationStep(m: MutationId, move: MutationMove)
    | LeaseStep(c: Leases.LeaseCall)
    | RegistryStep(t: Step)

  predicate Ended(s: Stage) {
    s.Succeeded? || s.Denied? || s.Failed? || s.Dropped?
  }

  predicate MutationEnabled(g: Gateway, m: MutationId, move: MutationMove) {
    if move.Receive? then
      m !in g.mutations
    else
      m in g.mutations && StageAllows(g, g.mutations[m], move)
  }

  predicate StageAllows(g: Gateway, u: Mutation, move: MutationMove) {
    match move
    case Receive(_) => false
    case CheckPolicy => u.stage.Received?
    case CheckLease(_) => u.stage.Authorized?
    case Claim => u.stage.LeaseChecked?
    case LookUpClaim => u.stage.Contended?
    case Execute(f) => u.stage.Claimed? && f !in g.sys.calls
    case Finish(ok) =>
      u.stage.Executing? && u.call.Some? && u.call.value in g.sys.calls && g.sys.calls[u.call.value].phase.Finished?
      && (ok ==> u.call.value in g.sys.core.futures && g.sys.core.futures[u.call.value].Answered?)
    case Break => !Ended(u.stage) && !u.stage.Executing?
    case Drop => !Ended(u.stage)
  }

  predicate GatewayEnabled(g: Gateway, t: GatewayStep) {
    match t
    case MutationStep(m, move) => MutationEnabled(g, m, move)
    case LeaseStep(_) => true
    case RegistryStep(t) => Enabled(g.sys, t)
  }

  predicate Reachable(g: Gateway, d: DeviceId) { d in g.sys.core.connections }

  function NextMutation(g: Gateway, m: MutationId, move: MutationMove): Mutation
    requires MutationEnabled(g, m, move)
  {
    if move.Receive? then Mutation(move.intent, Received, false, None) else
    var u := g.mutations[m];
    var i := u.intent;
    match move
    case CheckPolicy =>
      if !i.uuid then u.(stage := Failed)
      else (match Authorize(g.sys.core.rows, i.device, i.required, true)
            case Success(_) => u.(stage := Authorized)
            case Failure(e) => u.(stage := Denied(ByPolicy(e))))
    case CheckLease(now) =>
      u.(stage := if Leases.Validates(g.leases, i.lease, i.device, i.caller, now)
                  then LeaseChecked else Denied(ByLease))
    case Claim =>
      if i.request in g.claims then u.(stage := Contended) else u.(stage := Claimed, claimed := true)
    case LookUpClaim => u.(stage := if i.request in g.claims then Denied(ByReplay) else Failed)
    case Execute(f) =>
      if Reachable(g, i.device) then u.(stage := Executing, call := Some(f)) else u.(stage := Failed)
    case Finish(ok) => u.(stage := if ok then Succeeded else Failed)
    case Break => u.(stage := Failed)
    case Drop => u.(stage := Dropped)
  }

  function NextGateway(g: Gateway, t: GatewayStep): Gateway
    requires GatewayEnabled(g, t)
  {
    match t
    case MutationStep(m, move) =>
      var u := NextMutation(g, m, move);
      g.(mutations := g.mutations[m := u],
         claims := if move.Claim? then g.claims + {u.intent.request} else g.claims,
         effects := if move.Execute? then g.effects + [m] else g.effects,
         sys := if move.Execute? && Reachable(g, u.intent.device)
                then Next(g.sys, RequestStep(move.f, Begin(Key(u.intent.device, u.intent.request))))
                else g.sys)
    case LeaseStep(c) => g.(leases := Leases.Commit(g.leases, c).0)
    case RegistryStep(t) => g.(sys := Next(g.sys, t))
  }

  /** A Gateway that has just started; claims and leases of earlier runs are still there. */
  ghost predicate GatewayInit(g: Gateway) {
    Init(g.sys) && Leases.OnlyNewestOpen(g.leases) && g.mutations == map[] && g.effects == []
  }

  ghost predicate IsGatewayRun(states: seq<Gateway>, ts: seq<GatewayStep>) {
    && |states| == |ts| + 1
    && GatewayInit(states[0])
    && forall i :: 0 <= i < |ts| ==> GatewayEnabled(states[i], ts[i]) && states[i + 1] == NextGateway(states[i], ts[i])
  }

  // ---------------------------------------------------------------- what every step keeps

  ghost predicate Spent(g: Gateway, r: RequestId) {
    exists m :: m in g.mutations && g.mutations[m].claimed && g.mutations[m].intent.request == r
  }

  ghost predicate MutationOk(g: Gateway, m: MutationId) {
    m in g.mutations &&
    var u := g.mutations[m];
    && (u.claimed ==> u.intent.request in g.claims)
    && (u.stage.Claimed? || u.stage.Executing? || u.stage.Succeeded? ==> u.claimed)
    && (u.stage.Received? || u.stage.Authorized? || u.stage.LeaseChecked? ==> !u.claimed)
    && (u.stage.Contended? || u.stage.Denied? ==> !u.claimed)
    && (m in g.effects ==> u.claimed && !u.stage.Claimed?)
    && (u.call.Some? ==> m in g.effects && u.call.value in g.sys.calls
                         && g.sys.calls[u.call.value].key == Key(u.intent.device, u.intent.request))
  }

  /** No two mutations share a claimed ID or a registry call. */
  ghost predicate Distinct(g: Gateway) {
    && (forall m, n | m in g.mutations && n in g.mutations && g.mutations[m].claimed && g.mutations[n].claimed ::
          g.mutations[m].intent.request == g.mutations[n].intent.request ==> m == n)
    && (forall m, n | m in g.mutations && n in g.mutations && g.mutations[m].call.Some? ::
          g.mutations[m].call == g.mutations[n].call ==> m == n)
  }

  /** `prior` are the request IDs claimed before the Gateway started. */
  ghost predicate Admission(g: Gateway, prior: set<RequestId>) {
    && (forall m :: m in g.mutations ==> MutationOk(g, m))
    && prior <= g.claims
    && (forall r :: r in g.claims ==> r in prior || Spent(g, r))
    && (forall m :: m in g.mutations && g.mutations[m].claimed ==> g.mutations[m].intent.request !in prior)
    && Distinct(g)
    && (forall a, b :: 0 <= a < b < |g.effects| ==> g.effects[a] != g.effects[b])
    && (forall m :: m in g.effects ==> m in g.mutations)
  }

  /** The registry only ever adds calls, and never changes what a call is for. */
  lemma CallsPersist(s: Sys, t: Step)
    requires Enabled(s, t)
    ensures s.calls.Keys <= Next(s, t).calls.Keys
    ensures forall f :: f in s.calls ==> Next(s, t).calls[f].key == s.calls[f].key
  {
    forall f | f in s.calls
      ensures f in Next(s, t).calls && Next(s, t).calls[f].key == s.calls[f].key
    {
      CallCause(s, t, f);
    }
  }

  lemma MutationOkMoved(g: Gateway, m: MutationId, move: MutationMove)
    requires MutationEnabled(g, m, move)
    requires m in g.mutations ==> MutationOk(g, m)
    requires m !in g.mutations ==> m !in g.effects
    ensures MutationOk(NextGateway(g, MutationStep(m, move)), m)
  {
  }

  lemma MutationOkElsewhere(g: Gateway, m: MutationId, move: MutationMove, n: MutationId)
    requires MutationEnabled(g, m, move) && n != m && MutationOk(g, n)
    ensures MutationOk(NextGateway(g, MutationStep(m, move)), n)
  {
    if move.Execute? && Reachable(g, NextMutation(g, m, move).intent.device) {
      CallsPersist(g.sys, RequestStep(move.f, Begin(Key(g.mutations[m].intent.device, g.mutations[m].intent.request))));
    }
  }

  lemma EachAfter(g: Gateway, m: MutationId, move: MutationMove, prior: set<RequestId>, n: MutationId)
    requires Admission(g, prior) && MutationEnabled(g, m, move)
    requires n in NextGateway(g, MutationStep(m, move)).mutations
    ensures MutationOk(NextGateway(g, MutationStep(m, move)), n)
  {
    if n == m {
      MutationOkMoved(g, m, move);
    } else {
      MutationOkElsewhere(g, m, move, n);
    }
  }

  lemma AdmissionMutationStep(g: Gateway, m: MutationId, move: MutationMove, prior: set<RequestId>)
    requires Admission(g, prior) && MutationEnabled(g, m, move)
    ensures Admission(NextGateway(g, MutationStep(m, move)), prior)
  {
    var g' := NextGateway(g, MutationStep(m, move));
    assert g'.mutations.Keys == g.mutations.Keys + {m};
    forall n | n in g'.mutations
      ensures MutationOk(g', n)
    {
      EachAfter(g, m, move, prior, n);
    }
    forall r | r in g'.claims
      ensures r in prior || Spent(g', r)
    {
      SpentAfter(g, m, move, prior, r);
    }
    DistinctAfter(g, m, move, prior);
    DistinctStep(g, m, move, prior);
  }

  /** Replacing one mutation by one whose claimed ID and call are its own keeps all of them apart. */
  lemma DistinctUpdate(g: Gateway, m: MutationId, u: Mutation)
    requires Distinct(g)
    requires u.claimed ==> forall n | n in g.mutations && n != m && g.mutations[n].claimed ::
               g.mutations[n].intent.request != u.intent.request
    requires u.call.Some? ==> forall n | n in g.mutations && n != m :: g.mutations[n].call != u.call
    ensures Distinct(g.(mutations := g.mutations[m := u]))
  {
  }

  lemma DistinctStep(g: Gateway, m: MutationId, move: MutationMove, prior: set<RequestId>)
    requires Admission(g, prior) && MutationEnabled(g, m, move)
    ensures Distinct(NextGateway(g, MutationStep(m, move)))
  {
    DistinctAfter(g, m, move, prior);
    DistinctUpdate(g, m, NextMutation(g, m, move));
  }

  lemma SpentAfter(g: Gateway, m: MutationId, move: MutationMove, prior: set<RequestId>, r: RequestId)
    requires Admission(g, prior) && MutationEnabled(g, m, move)
    requires r in NextGateway(g, MutationStep(m, move)).claims
    ensures r in prior || Spent(NextGateway(g, MutationStep(m, move)), r)
  {
    var g' := NextGateway(g, MutationStep(m, move));
    if r in g.claims && r !in prior {
      assert Spent(g, r);
      var n :| n in g.mutations && g.mutations[n].claimed && g.mutations[n].intent.request == r;
      assert MutationOk(g, n);
      assert g'.mutations[n].claimed && g'.mutations[n].intent.request == r;
    } else if r !in g.claims {
      assert g'.mutations[m].claimed && g'.mutations[m].intent.request == r;
    }
  }

  /** A new claim, call or effect is none of those already there. */
  lemma DistinctAfter(g: Gateway, m: MutationId, move: MutationMove, prior: set<RequestId>)
    requires Admission(g, prior) && MutationEnabled(g, m, move)
    ensures var u := NextMutation(g, m, move);
            && (m in g.mutations ==> u.intent == g.mutations[m].intent)
            && (u.claimed ==> u.intent.request !in prior)
            && (u.claimed ==> forall n :: n in g.mutations && n != m && g.mutations[n].claimed ==>
                  g.mutations[n].intent.request != u.intent.request)
            && (u.call.Some? ==> forall n :: n in g.mutations && n != m ==> g.mutations[n].call != u.call)
            && (move.Execute? ==> m !in g.effects)
  {
    forall n | n in g.mutations
      ensures MutationOk(g, n)
    {
    }
  }

  lemma AdmissionStep(g: Gateway, t: GatewayStep, prior: set<RequestId>)
    requires Admission(g, prior) && GatewayEnabled(g, t)
    ensures Admission(NextGateway(g, t), prior)
  {
    var g' := NextGateway(g, t);
    match t
    case MutationStep(m, move) => AdmissionMutationStep(g, m, move, prior);
    case LeaseStep(c) =>
      forall n | n in g'.mutations ensures MutationOk(g', n) { assert MutationOk(g, n); }
      forall r | r in g'.claims ensures r in prior || Spent(g', r) { assert r in prior || Spent(g, r); }
    case RegistryStep(t) =>
      CallsPersist(g.sys, t);
      forall n | n in g'.mutations ensures MutationOk(g', n) { assert MutationOk(g, n); }
      forall r | r in g'.claims ensures r in prior || Spent(g', r) { assert r in prior || Spent(g, r); }
  }

  lemma AdmissionAlways(states: seq<Gateway>, ts: seq<GatewayStep>, i: nat)
    requires IsGatewayRun(states, ts) && i < |states|
    ensures Admission(states[i], states[0].claims)
  {
    if i > 0 {
      AdmissionAlways(states, ts, i - 1);
      AdmissionStep(states[i - 1], ts[i - 1], states[0].claims);
    }
  }

  // ---------------------------------------------------------------- the registry inside

  /** The registry step that a step of the Gateway takes, if any. */
  function Projected(g: Gateway, t: GatewayStep): seq<Step>
    requires GatewayEnabled(g, t)
  {
    match t
    case RegistryStep(step) => [step]
    case LeaseStep(_) => []
    case MutationStep(m, move) =>
      var i := NextMutation(g, m, move).intent;
      if move.Execute? && Reachable(g, i.device) then [RequestStep(move.f, Begin(Key(i.device, i.request)))] else []
  }

  lemma ProjectedStep(g: Gateway, t: GatewayStep)
    requires GatewayEnabled(g, t)
    ensures Projected(g, t) == [] ==> NextGateway(g, t).sys == g.sys
    ensures Projected(g, t) != [] ==>
              && |Projected(g, t)| == 1 && Enabled(g.sys, Projected(g, t)[0])
              && NextGateway(g, t).sys == Next(g.sys, Projected(g, t)[0])
  {
  }

  ghost function RegistrySteps(states: seq<Gateway>, ts: seq<GatewayStep>, i: nat): seq<Step>
    requires IsGatewayRun(states, ts) && i < |states|
  {
    if i == 0 then [] else RegistrySteps(states, ts, i - 1) + Projected(states[i - 1], ts[i - 1])
  }

  ghost function RegistryStates(states: seq<Gateway>, ts: seq<GatewayStep>, i: nat): seq<Sys>
    requires IsGatewayRun(states, ts) && i < |states|
  {
    if i == 0 then [states[0].sys]
    else RegistryStates(states, ts, i - 1) + if Projected(states[i - 1], ts[i - 1]) == [] then [] else [states[i].sys]
  }

  /** A run of the Gateway is a run of the registry, so every theorem about those applies to it. */
  lemma {:induction false} GatewayRunProjects(states: seq<Gateway>, ts: seq<GatewayStep>, i: nat)
    requires IsGatewayRun(states, ts) && i < |states|
    ensures IsRun(RegistryStates(states, ts, i), RegistrySteps(states, ts, i))
    ensures RegistryStates(states, ts, i)[|RegistrySteps(states, ts, i)|] == states[i].sys
  {
    if i > 0 {
      GatewayRunProjects(states, ts, i - 1);
      ProjectedStep(states[i - 1], ts[i - 1]);
      var steps := Projected(states[i - 1], ts[i - 1]);
      if steps != [] {
        assert steps == [steps[0]];
        RunExtends(RegistryStates(states, ts, i - 1), RegistrySteps(states, ts, i - 1), steps[0]);
      } else {
        assert RegistryStates(states, ts, i) == RegistryStates(states, ts, i - 1);
        assert RegistrySteps(states, ts, i) == RegistrySteps(states, ts, i - 1);
      }
    }
  }

  /** What runs of the registry keep, in a Gateway with mutations. */
  lemma {:induction false} RegistryAlways(states: seq<Gateway>, ts: seq<GatewayStep>, i: nat)
    requires IsGatewayRun(states, ts) && i < |states|
    ensures Ownership(states[i].sys) && Provenance(states[i].sys) && OneFrameEach(states[i].sys)
  {
    GatewayRunProjects(states, ts, i);
    var rs, rt := RegistryStates(states, ts, i), RegistrySteps(states, ts, i);
    OwnershipAlways(rs, rt, |rt|);
    ProvenanceAlways(rs, rt, |rt|);
    OneFrameAlways(rs, rt, |rt|);
  }

  /** Presence, as long as no shutdown update is lost. */
  lemma {:induction false} PresenceInGateway(states: seq<Gateway>, ts: seq<GatewayStep>, i: nat)
    requires IsGatewayRun(states, ts) && i < |states|
    requires forall k | 0 <= k < |ts| && ts[k].RegistryStep? :: LosesNothing(ts[k].t)
    ensures Presence(states[i].sys.core)
  {
    GatewayRunProjects(states, ts, i);
    ClosesProject(states, ts, i);
    var rs, rt := RegistryStates(states, ts, i), RegistrySteps(states, ts, i);
    PresenceAlways(rs, rt, |rt|);
  }

  lemma {:induction false} ClosesProject(states: seq<Gateway>, ts: seq<GatewayStep>, i: nat)
    requires IsGatewayRun(states, ts) && i < |states|
    requires forall k | 0 <= k < |ts| && ts[k].RegistryStep? :: LosesNothing(ts[k].t)
    ensures forall k | 0 <= k < |RegistrySteps(states, ts, i)| :: LosesNothing(RegistrySteps(states, ts, i)[k])
  {
    if i > 0 {
      ClosesProject(states, ts, i - 1);
      var before, more := RegistrySteps(states, ts, i - 1), Projected(states[i - 1], ts[i - 1]);
      assert forall k | 0 <= k < |before| :: LosesNothing(before[k]);
      assert forall k | 0 <= k < |more| :: LosesNothing(more[k]);
      assert RegistrySteps(states, ts, i) == before + more;
    }
  }

  /** A completed answer of a mutation's request stays what it is. */
  lemma {:induction false} FutureStays(g: Gateway, t: GatewayStep, f: FutureId)
    requires GatewayEnabled(g, t) && SameIds(g.sys)
    requires f in g.sys.core.futures && !g.sys.core.futures[f].Waiting?
    ensures f in NextGateway(g, t).sys.core.futures
    ensures NextGateway(g, t).sys.core.futures[f] == g.sys.core.futures[f]
  {
    ProjectedStep(g, t);
    if Projected(g, t) != [] {
      DoneStays(g.sys, Projected(g, t)[0], f);
    }
  }

  ghost predicate AnsweredOk(g: Gateway, m: MutationId) {
    m in g.mutations && g.mutations[m].stage.Succeeded? ==>
      var call := g.mutations[m].call;
      call.Some? && call.value in g.sys.core.futures && g.sys.core.futures[call.value].Answered?
  }

  lemma {:induction false} AnsweredAlways(states: seq<Gateway>, ts: seq<GatewayStep>, i: nat, m: MutationId)
    requires IsGatewayRun(states, ts) && i < |states|
    ensures AnsweredOk(states[i], m)
  {
    if i > 0 && m in states[i].mutations && states[i].mutations[m].stage.Succeeded? {
      AnsweredAlways(states, ts, i - 1, m);
      StageCause(states[i - 1], ts[i - 1], m);
      RegistryAlways(states, ts, i - 1);
      var f := states[i].mutations[m].call;
      assert f.Some? && f.value in states[i - 1].sys.core.futures && states[i - 1].sys.core.futures[f.value].Answered?;
      FutureStays(states[i - 1], ts[i - 1], f.value);
    }
  }

  /**
   Where the answer of a successful mutation came from: an operation result for its own request
   ID, received on the connection its request recorded, of its own device, and taken by no other call.
   */
  lemma {:induction false} SuccessIsAnswered(states: seq<Gateway>, ts: seq<GatewayStep>, i: nat, m: MutationId)
    returns (f: FutureId, n: nat)
    requires IsGatewayRun(states, ts) && i < |states|
    requires m in states[i].mutations && states[i].mutations[m].stage.Succeeded?
    ensures var s, u := states[i].sys, states[i].mutations[m];
            && u.call == Some(f) && f in s.calls && f in s.core.futures && n < |s.arrivals|
            && s.calls[f].key == Key(u.intent.device, u.intent.request)
            && s.arrivals[n].on == s.calls[f].recorded && s.arrivals[n].on.device == u.intent.device
            && s.arrivals[n].request == u.intent.request && s.arrivals[n].body.OperationResult?
            && s.core.futures[f] == Answered(s.arrivals[n].body.payload)
            && forall g | g in s.source && s.source[g] == n :: g == f
  {
    AnsweredAlways(states, ts, i, m);
    AdmissionAlways(states, ts, i);
    assert MutationOk(states[i], m);
    f := states[i].mutations[m].call.value;
    GatewayRunProjects(states, ts, i);
    var rs, rt := RegistryStates(states, ts, i), RegistrySteps(states, ts, i);
    AnswersComeFromRecordedConnection(rs, rt, |rt|, f);
    n := states[i].sys.source[f];
  }

  // ---------------------------------------------------------------- at most once

  /** The callback runs at most once per request ID, counting the runs before a restart. */
  lemma EffectAtMostOnce(states: seq<Gateway>, ts: seq<GatewayStep>, i: nat, a: nat, b: nat)
    requires IsGatewayRun(states, ts) && i < |states| && a < b < |states[i].effects|
    ensures var g := states[i];
            && g.effects[a] in g.mutations && g.effects[b] in g.mutations
            && g.mutations[g.effects[a]].intent.request != g.mutations[g.effects[b]].intent.request
            && g.mutations[g.effects[a]].intent.request !in states[0].claims
  {
    AdmissionAlways(states, ts, i);
    assert MutationOk(states[i], states[i].effects[a]) && MutationOk(states[i], states[i].effects[b]);
  }

  /** The frame was sent for the mutation `m`. */
  predicate SentFor(g: Gateway, n: nat, m: MutationId) {
    n < |g.sys.wire| && m in g.mutations && g.mutations[m].call == Some(g.sys.wire[n].call)
  }

  /** Mutations put at most one frame per request ID on the wire, to their own device. */
  lemma FrameAtMostOnce(states: seq<Gateway>, ts: seq<GatewayStep>, i: nat, a: nat, b: nat,
                        m: MutationId, n: MutationId)
    requires IsGatewayRun(states, ts) && i < |states|
    requires a < b && SentFor(states[i], a, m) && SentFor(states[i], b, n)
    ensures states[i].mutations[m].intent.request != states[i].mutations[n].intent.request
    ensures states[i].sys.wire[a].on.device == states[i].mutations[m].intent.device
  {
    AdmissionAlways(states, ts, i);
    RegistryAlways(states, ts, i);
    assert MutationOk(states[i], m) && MutationOk(states[i], n);
    assert FrameOk(states[i].sys, a);
  }

  /** An ID is spent exactly when a call claimed it; a denied call never did, and no call shares one. */
  lemma ClaimsAreExact(states: seq<Gateway>, ts: seq<GatewayStep>, i: nat)
    requires IsGatewayRun(states, ts) && i < |states|
    ensures forall r :: r in states[i].claims <==> r in states[0].claims || Spent(states[i], r)
    ensures forall m :: m in states[i].mutations && states[i].mutations[m].stage.Denied? ==>
              !states[i].mutations[m].claimed
    ensures forall m, n | m in states[i].mutations && n in states[i].mutations && m != n ::
              states[i].mutations[m].claimed && states[i].mutations[n].claimed ==>
              states[i].mutations[m].intent.request != states[i].mutations[n].intent.request
  {
    AdmissionAlways(states, ts, i);
    forall m | m in states[i].mutations
      ensures MutationOk(states[i], m)
    {
    }
  }

  // ---------------------------------------------------------------- checks before effects

  lemma StageCause(g: Gateway, t: GatewayStep, m: MutationId)
    requires GatewayEnabled(g, t) && m in NextGateway(g, t).mutations
    ensures m !in g.mutations ==> NextGateway(g, t).mutations[m].stage.Received?
    ensures m in g.mutations ==>
              && NextGateway(g, t).mutations[m].intent == g.mutations[m].intent
              && (NextGateway(g, t).mutations[m] == g.mutations[m]
                  || (t.MutationStep? && t.m == m && NextGateway(g, t).mutations[m] == NextMutation(g, m, t.move)))
  {
  }

  /** Step `k` is the policy check of `m`, made on a row that permits it. */
  ghost predicate PolicyPassed(states: seq<Gateway>, ts: seq<GatewayStep>, k: nat, m: MutationId, i: Intent) {
    && k < |ts| < |states| && ts[k] == MutationStep(m, CheckPolicy)
    && i.uuid && i.device in states[k].sys.core.rows && MayMutate(states[k].sys.core.rows[i.device], i.required)
  }

  /** Step `k` is the successful lease check of `m`: the lease was the device's active one. */
  ghost predicate LeasePassed(states: seq<Gateway>, ts: seq<GatewayStep>, k: nat, m: MutationId, i: Intent) {
    && k < |ts| < |states| && ts[k].MutationStep? && ts[k].m == m && ts[k].move.CheckLease?
    && Leases.Validates(states[k].leases, i.lease, i.device, i.caller, ts[k].move.now)
    && Leases.GetActive(states[k].leases, i.device, ts[k].move.now) == Some(i.lease)
  }

  /** Step `k` is the claim of `m`, and it spent a fresh ID. */
  ghost predicate ClaimPassed(states: seq<Gateway>, ts: seq<GatewayStep>, k: nat, m: MutationId, i: Intent) {
    k < |ts| < |states| && ts[k] == MutationStep(m, Claim) && i.request !in states[k].claims
  }

  lemma LeasesKeep(states: seq<Gateway>, ts: seq<GatewayStep>, k: nat)
    requires IsGatewayRun(states, ts) && k < |states|
    ensures Leases.OnlyNewestOpen(states[k].leases)
  {
    if k > 0 {
      LeasesKeep(states, ts, k - 1);
      if ts[k - 1].LeaseStep? {
        Leases.CommitKeeps(states[k - 1].leases, ts[k - 1].c);
      }
    }
  }

  lemma {:induction false} AuthorizedAfterPolicy(states: seq<Gateway>, ts: seq<GatewayStep>, k: nat, m: MutationId)
    returns (a: nat)
    requires IsGatewayRun(states, ts) && k < |states| && m in states[k].mutations
    requires states[k].mutations[m].stage.Authorized?
    ensures a < k && PolicyPassed(states, ts, a, m, states[k].mutations[m].intent)
  {
    StageCause(states[k - 1], ts[k - 1], m);
    if m in states[k - 1].mutations && states[k - 1].mutations[m] == states[k].mutations[m] {
      a := AuthorizedAfterPolicy(states, ts, k - 1, m);
    } else {
      a := k - 1;
      var i := states[k].mutations[m].intent;
      MutationAuthorizedIff(states[a].sys.core.rows, i.device, i.required);
    }
  }

  lemma CheckedBy(g: Gateway, t: GatewayStep, m: MutationId)
    requires GatewayEnabled(g, t) && m in NextGateway(g, t).mutations
             && NextGateway(g, t).mutations[m].stage.LeaseChecked?
    ensures m in g.mutations && NextGateway(g, t).mutations[m].intent == g.mutations[m].intent
    ensures var i := g.mutations[m].intent;
            || g.mutations[m].stage.LeaseChecked?
            || (t.MutationStep? && t.m == m && t.move.CheckLease? && g.mutations[m].stage.Authorized?
                && Leases.Validates(g.leases, i.lease, i.device, i.caller, t.move.now))
  {
    StageCause(g, t, m);
  }

  /** The lease check, and the policy passed before it. */
  lemma {:induction false} CheckedAfterLease(states: seq<Gateway>, ts: seq<GatewayStep>, k: nat, m: MutationId)
    returns (b: nat)
    requires IsGatewayRun(states, ts) && k < |states| && m in states[k].mutations
    requires states[k].mutations[m].stage.LeaseChecked?
    ensures b < k && LeasePassed(states, ts, b, m, states[k].mutations[m].intent)
    ensures m in states[b].mutations && states[b].mutations[m].intent == states[k].mutations[m].intent
    ensures states[b].mutations[m].stage.Authorized?
  {
    CheckedBy(states[k - 1], ts[k - 1], m);
    if states[k - 1].mutations[m].stage.LeaseChecked? {
      b := CheckedAfterLease(states, ts, k - 1, m);
    } else {
      b := k - 1;
      var i := states[k].mutations[m].intent;
      LeasesKeep(states, ts, b);
      Leases.OnlyActiveValidates(states[b].leases, i.lease, i.device, i.caller, ts[b].move.now);
    }
  }

  lemma ClaimedBy(g: Gateway, t: GatewayStep, m: MutationId)
    requires GatewayEnabled(g, t) && m in NextGateway(g, t).mutations && NextGateway(g, t).mutations[m].stage.Claimed?
    ensures m in g.mutations && NextGateway(g, t).mutations[m].intent == g.mutations[m].intent
    ensures g.mutations[m].stage.Claimed? ||
            (t == MutationStep(m, Claim) && g.mutations[m].stage.LeaseChecked?
              && g.mutations[m].intent.request !in g.claims)
  {
    StageCause(g, t, m);
  }

  /** The claim, and the lease checked before it. */
  lemma {:induction false} ClaimedAfterClaim(states: seq<Gateway>, ts: seq<GatewayStep>, k: nat, m: MutationId)
    returns (c: nat)
    requires IsGatewayRun(states, ts) && k < |states| && m in states[k].mutations
    requires states[k].mutations[m].stage.Claimed?
    ensures c < k && ClaimPassed(states, ts, c, m, states[k].mutations[m].intent)
    ensures m in states[c].mutations && states[c].mutations[m].intent == states[k].mutations[m].intent
    ensures states[c].mutations[m].stage.LeaseChecked?
  {
    ClaimedBy(states[k - 1], ts[k - 1], m);
    if states[k - 1].mutations[m].stage.Claimed? {
      c := ClaimedAfterClaim(states, ts, k - 1, m);
    } else {
      c := k - 1;
    }
  }

  /** Every execution follows that same call's own policy check, lease check and claim, in this order. */
  lemma ExecutionFollowsChecks(states: seq<Gateway>, ts: seq<GatewayStep>, k: nat, m: MutationId)
    requires IsGatewayRun(states, ts) && k < |ts| && ts[k].MutationStep? && ts[k].m == m && ts[k].move.Execute?
    ensures m in states[k].mutations
    ensures var i := states[k].mutations[m].intent;
            exists a: nat, b: nat, c: nat :: a < b < c < k && PolicyPassed(states, ts, a, m, i)
              && LeasePassed(states, ts, b, m, i) && ClaimPassed(states, ts, c, m, i)
  {
    assert GatewayEnabled(states[k], ts[k]);
    var c := ClaimedAfterClaim(states, ts, k, m);
    var b := CheckedAfterLease(states, ts, c, m);
    var a := AuthorizedAfterPolicy(states, ts, b, m);
  }

  /** Exactly when each check lets a mutation through; what fails leaves the claims alone. */
  lemma StagesIff(g: Gateway, m: MutationId, move: MutationMove)
    requires m in g.mutations && MutationEnabled(g, m, move)
    ensures var i, next := g.mutations[m].intent, NextGateway(g, MutationStep(m, move));
            var stage := next.mutations[m].stage;
            && (move.CheckPolicy? ==>
                  (stage.Authorized? <==>
                     i.uuid && i.device in g.sys.core.rows && MayMutate(g.sys.core.rows[i.device], i.required)))
            && (move.CheckLease? ==>
                  (stage.LeaseChecked? <==> Leases.Validates(g.leases, i.lease, i.device, i.caller, move.now)))
            && (move.Claim? ==> (stage.Claimed? <==> i.request !in g.claims))
            && (move.Execute? ==> (stage.Executing? <==> i.device in g.sys.core.connections))
            && (move.Finish? ==> (stage.Succeeded? <==> move.ok))
            && (stage.Denied? || stage.Contended? || stage.Dropped? || !move.Claim? ==> next.claims == g.claims)
            && (move.Break? ==> stage.Failed?) && (move.Drop? ==> stage.Dropped?)
  {
    var i := g.mutations[m].intent;
    MutationAuthorizedIff(g.sys.core.rows, i.device, i.required);
    assert move.Claim? && i.request in g.claims ==> g.claims + {i.request} == g.claims;
  }

  /** The lease was active at its check, not at the execution: its owner may release it in between. */
  lemma LeaseMayEndBeforeExecution(g: Gateway, m: MutationId, checked: Time, at: Time)
    requires m in g.mutations && g.mutations[m].stage.LeaseChecked?
    requires var i := g.mutations[m].intent;
             Leases.Validates(g.leases, i.lease, i.device, i.caller, checked) && i.request !in g.claims
    ensures var i := g.mutations[m].intent;
            var released := NextGateway(g, LeaseStep(Leases.ReleaseCall(i.lease, i.caller, at)));
            && MutationEnabled(released, m, Claim)
            && var claimed := NextGateway(released, MutationStep(m, Claim));
               && (forall reading :: !Leases.Validates(claimed.leases, i.lease, i.device, i.caller, reading))
               && (forall f | f !in claimed.sys.calls :: MutationEnabled(claimed, m, Execute(f)))
  {
  }

  /** The claim that lost the race is always found again, so a replay is reported as a denial. */
  lemma ReplayIsDenied(states: seq<Gateway>, ts: seq<GatewayStep>, i: nat, m: MutationId)
    requires IsGatewayRun(states, ts) && i < |states| && m in states[i].mutations
             && states[i].mutations[m].stage.Contended?
    ensures MutationEnabled(states[i], m, LookUpClaim)
    ensures NextGateway(states[i], MutationStep(m, LookUpClaim)).mutations[m].stage == Denied(ByReplay)
    decreases i
  {
    StageCause(states[i - 1], ts[i - 1], m);
    if m in states[i - 1].mutations && states[i - 1].mutations[m] == states[i].mutations[m] {
      ReplayIsDenied(states, ts, i - 1, m);
    }
  }
}
