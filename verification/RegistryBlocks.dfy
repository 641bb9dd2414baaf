/**
 What each block of the registry does to the rows, the two tables and the futures, place by
 place, and what that means for the calls of `request` in every run.
 */
module RegistryBlocks {
  import opened Common
  import opened Devices
  import opened Registry
  import opened RegistryRuns
  import opened RegistryRequests

  // ---------------------------------------------------------------- connections

  /** A published connection is current and its device ONLINE as of now; otherwise nothing happened. */
  lemma PublishIff(s: Core, c: Connection, now: Time, commits: bool, d: DeviceId)
    ensures var (after, r) := Publish(s, c, now, commits);
            && (r.Published? <==> commits && Live(s.rows, c.device))
            && (r.PublishFailed? <==> !commits)
            && (!r.Published? ==> after == s)
            && (r.Published? ==>
                  && Current(after, c) && after.rows[c.device].status == Online
                  && after.rows[c.device].lastSeen == Some(now)
                  && (r.replaced == None <==> c.device !in s.connections)
                  && (c.device in s.connections ==> r.replaced == Some(s.connections[c.device]))
                  && after.(rows := s.rows, connections := s.connections) == s
                  && (d != c.device ==> (d in after.connections <==> d in s.connections)
                                        && (d in s.connections ==> after.connections[d] == s.connections[d])))
  {
  }

  /**
   A heartbeat is taken exactly from the current connection of a live device; the connection is
   then silent for expiry only once the threshold has passed since that reading.
   */
  lemma TouchedIsFresh(s: Core, c: Connection, now: Time, mono: Time, commits: bool,
                       threshold: Time, clock: DeviceId -> Time)
    ensures var (after, r) := Touch(s, c, now, mono, commits);
            && (r.Touched? <==> Current(s, c) && commits && Live(s.rows, c.device))
            && (r.Replaced? <==> !Current(s, c)) && (r.TouchFailed? <==> Current(s, c) && !commits)
            && (!r.Touched? ==> after == s)
            && (r.Touched? ==>
                  && (c.device in Stale(after, threshold, clock) <==> clock(c.device) >= mono + threshold)
                  && after.rows[c.device].lastSeen == Some(now) && after.rows[c.device].status != Offline
                  && after.(rows := s.rows, lastSeen := s.lastSeen) == s)
  {
  }

  /** Expiry concerns exactly the retired devices: their rows, and their places in the table. */
  lemma ExpireWrites(s: Core, gone: set<DeviceId>, d: DeviceId)
    requires gone <= s.connections.Keys
    ensures var after := Expire(s, gone);
            && (d in after.connections <==> d in s.connections && d !in gone)
            && (d in after.connections ==> after.connections[d] == s.connections[d])
            && (d in after.rows <==> d in s.rows)
            && (d in s.rows ==>
                  after.rows[d] == if d in gone && Live(s.rows, d) then s.rows[d].(status := Offline) else s.rows[d])
            && after.pending == s.pending && after.futures == s.futures && after.lastSeen == s.lastSeen
  {
  }

  /** A committed retirement, or one of a replaced connection, leaves nothing of the connection behind. */
  lemma DisconnectWrites(s: Core, c: Connection, commits: bool)
    ensures var after := Disconnect(s, c, commits);
            if Current(s, c) && !commits then after == s
            else
              && !Current(after, c)
              && (forall d | d in s.connections && s.connections[d] != c ::
                    d in after.connections && after.connections[d] == s.connections[d])
              && (Current(s, c) && Live(s.rows, c.device) ==> after.rows[c.device].status == Offline)
              && (!Current(s, c) ==> after.rows == s.rows && after.connections == s.connections)
              && (forall k :: k in after.pending <==> k in s.pending && s.pending[k].owner != c)
              && (forall k | k in after.pending :: after.pending[k] == s.pending[k])
              && (forall k | k in s.pending && s.pending[k].owner == c && s.pending[k].future in s.futures ::
                    after.futures[s.pending[k].future] != Waiting)
  {
    if !(Current(s, c) && !commits) {
      forall k | k in s.pending && s.pending[k].owner == c
        ensures s.pending[k].future in FuturesOf(s.pending, c)
      {
      }
    }
  }

  /** Shutdown empties both tables, fails exactly the waiting futures of entries, and marks committed rows OFFLINE. */
  lemma CloseWrites(s: Core, failing: set<DeviceId>, d: DeviceId, f: FutureId)
    ensures var after := Close(s, failing);
            && after.connections == map[] && after.pending == map[] && after.lastSeen == s.lastSeen
            && (d in s.rows ==>
                  && d in after.rows
                  && after.rows[d] == if d in s.connections && d !in failing && Live(s.rows, d)
                                      then s.rows[d].(status := Offline) else s.rows[d])
            && (f in after.futures <==> f in s.futures)
            && (f in s.futures ==>
                  after.futures[f] == if s.futures[f] == Waiting && Held(s, f, None) then Unavailable else s.futures[f])
  {
    assert f in AllFutures(s.pending) <==> Held(s, f, None);
  }

  // ---------------------------------------------------------------- requests

  /** An admitted request has exactly its own entry in the table; a rejected one changes nothing. */
  lemma AdmitWrites(s: Core, key: Key, c: Connection, f: FutureId, k: Key)
    ensures var after := Admit(s, key, c, f);
            && (key in s.pending ==> after == s)
            && (key !in s.pending ==> key in after.pending && after.pending[key] == Entry(c, f))
            && (k != key ==> (k in after.pending <==> k in s.pending)
                             && (k in s.pending ==> after.pending[k] == s.pending[k]))
            && after.(pending := s.pending) == s
  {
  }

  /** The cleanup leaves no entry of its call, no waiting future, and everything else as it was. */
  lemma SettleWrites(s: Core, key: Key, f: FutureId, k: Key, g: FutureId)
    ensures var after := Settle(s, key, f);
            && (key in after.pending ==> after.pending[key].future != f)
            && (k in after.pending <==> k in s.pending && !(k == key && s.pending[k].future == f))
            && (k in after.pending ==> after.pending[k] == s.pending[k])
            && (g in after.futures <==> g in s.futures)
            && (g in s.futures ==>
                  after.futures[g] == if g == f && s.futures[g] == Waiting then Cancelled else s.futures[g])
            && after.(pending := s.pending, futures := s.futures) == s
  {
  }

  /** An answer on the owner of its entry is delivered as it is: a result as a result, an error as an error. */
  lemma ResolveWrites(s: Core, c: Connection, request: RequestId, body: Body, g: FutureId)
    ensures var (after, k) := (Resolve(s, c, request, body), Key(c.device, request));
            if k !in s.pending || s.pending[k].owner != c then after == s
            else
              var f := s.pending[k].future;
              && k !in after.pending && after.pending == s.pending - {k}
              && (f in s.futures && s.futures[f] == Waiting ==>
                    && (body.OperationResult? ==> after.futures[f] == Answered(body.payload))
                    && (body.AgentError? ==> after.futures[f] == RemoteError(body.code)))
              && (g in after.futures <==> g in s.futures)
              && (g in s.futures && (g != f || s.futures[g] != Waiting) ==> after.futures[g] == s.futures[g])
              && after.(pending := s.pending, futures := s.futures) == s
  {
  }

  // ---------------------------------------------------------------- what runs guarantee

  /** Shutdown in any run: the pending table is empty, and every call that waited fails at once. */
  lemma {:induction false} ShutdownFailsCalls(states: seq<Sys>, ts: seq<Step>, i: nat, f: FutureId)
    requires IsRun(states, ts) && i < |ts| && ts[i].TableStep? && ts[i].op.DoClose?
    ensures states[i + 1].core.pending == map[] && states[i + 1].core.connections == map[]
    ensures f in states[i].calls && InProgress(states[i].calls[f].phase) && f in states[i].core.futures
            && states[i].core.futures[f] == Waiting ==>
              f in states[i + 1].core.futures && states[i + 1].core.futures[f] == Unavailable
  {
    KeepsEntryAlways(states, ts, i, f);
    CloseWrites(states[i].core, ts[i].op.failing, 0, f);
  }

  /** Retiring a connection in any run fails at once every waiting call that recorded it. */
  lemma {:induction false} RetirementFailsCalls(states: seq<Sys>, ts: seq<Step>, i: nat, c: Connection, f: FutureId)
    requires IsRun(states, ts) && i < |ts| && Retires(states[i], ts[i], c) && !Current(states[i + 1].core, c)
    requires f in states[i].calls && InProgress(states[i].calls[f].phase) && states[i].calls[f].recorded == c
    requires f in states[i].core.futures && states[i].core.futures[f] == Waiting
    ensures f in states[i + 1].core.futures && states[i + 1].core.futures[f] == Unavailable
  {
    KeepsEntryAlways(states, ts, i, f);
    OwnershipAlways(states, ts, i);
    var k := states[i].calls[f].key;
    assert states[i].core.pending[k] == Entry(c, f);
    FutureCause(states[i], ts[i], f);
    DisconnectWrites(states[i].core, c, true);
    DisconnectWrites(states[i].core, c, false);
  }

  /** A broken send retires the connection it was made on, unless that update cannot commit. */
  lemma BrokenSendRetires(s: Sys, f: FutureId, commits: bool)
    requires Enabled(s, RequestStep(f, RetireBroken(commits)))
    ensures var next, on := Next(s, RequestStep(f, RetireBroken(commits))), s.calls[f].phase.on;
            && next.calls[f].phase.CleaningUp?
            && (Current(next.core, on) <==> Current(s.core, on) && !commits)
            && (commits ==> forall k | k in next.core.pending :: next.core.pending[k].owner != on)
  {
    DisconnectWrites(s.core, s.calls[f].phase.on, commits);
  }

  /**
   A frame goes out on the connection that is current then, and its call goes on to wait for an
   answer exactly if that connection is still current when the send returns.
   */
  lemma SendOnCurrent(s: Sys, f: FutureId)
    ensures Enabled(s, RequestStep(f, BeginSend)) ==>
              var next, d := Next(s, RequestStep(f, BeginSend)), s.calls[f].key.device;
              if d in s.core.connections
              then next.wire == s.wire + [Frame(f, s.core.connections[d])]
                   && next.calls[f].phase == Sending(s.core.connections[d])
              else next.wire == s.wire && next.calls[f].phase == CleaningUp
    ensures Enabled(s, RequestStep(f, SendDone)) ==>
              var next := Next(s, RequestStep(f, SendDone));
              && next.wire == s.wire && next.core == s.core
              && (next.calls[f].phase.Awaiting? <==> Current(s.core, s.calls[f].phase.on))
              && (next.calls[f].phase.CleaningUp? <==> !Current(s.core, s.calls[f].phase.on))
  {
  }

  /** Giving up while waiting, or cleaning up, leaves no future of the call waiting. */
  lemma EndedCallsDoNotWait(s: Sys, f: FutureId, m: RequestMove)
    requires Enabled(s, RequestStep(f, m)) && (m.CleanUp? || (m.Interrupt? && s.calls[f].phase.Awaiting?))
    ensures var next := Next(s, RequestStep(f, m));
            && f in next.core.futures && next.core.futures[f] != Waiting
            && (s.core.futures[f] == Waiting ==> next.core.futures[f] == Cancelled)
            && (m.CleanUp? ==> next.calls[f].phase.Finished?) && (m.Interrupt? ==> next.calls[f].phase.CleaningUp?)
  {
  }

  /** What the administrator, pairing and expiry do to a device they concern. */
  lemma AdministrationTakesEffect(s: Sys, d: DeviceId, at: Time, level: Permission, device: Device, gone: set<DeviceId>)
    ensures d in s.core.rows ==>
              var next := Next(s, TableStep(DoRevoke(d, at))).core;
              d in next.rows && next.rows[d].IsRevoked() && next.connections == s.core.connections
    ensures Live(s.core.rows, d) ==>
              Next(s, TableStep(DoSetPermission(d, level))).core.rows[d] == s.core.rows[d].(permission := level)
    ensures Enabled(s, TableStep(DoPair(d, device))) ==>
              Next(s, TableStep(DoPair(d, device))).core.rows == s.core.rows[d := device]
    ensures Enabled(s, TableStep(DoExpire(gone))) ==>
              Next(s, TableStep(DoExpire(gone))).core.connections.Keys == s.core.connections.Keys - gone
  {
  }
}
