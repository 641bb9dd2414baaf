/**
 The state one Gateway process keeps about its Agents, and the lock-protected
 blocks that change it. Each block is a function on the state, written without
 loops; `ConnectionRegistry` is the class whose methods do the same work on
 dictionaries, step by step.
 */
module Registry {
  import opened Common
  import opened Devices

  /** Connections are compared by identity, which `serial` stands for. */
  datatype Connection = Connection(device: DeviceId, serial: nat)

  type RequestId = nat

  /** Identity of the future a call to `request` creates; it also names the call. */
  type FutureId = nat

  type Payload = nat

  datatype Key = Key(device: DeviceId, request: RequestId)

  datatype Entry = Entry(owner: Connection, future: FutureId)

  /** The two message kinds `resolve` accepts as answers. */
  datatype Body = OperationResult(payload: Payload) | AgentError(code: nat)

  datatype FutureState =
    | Waiting
    | Answered(payload: Payload)
    | RemoteError(code: nat)
    | Unavailable
    | Cancelled

  datatype Core = Core(
    rows: Table,
    connections: map<DeviceId, Connection>,
    lastSeen: map<Connection, Time>,
    pending: map<Key, Entry>,
    futures: map<FutureId, FutureState>)

  datatype PublishOutcome = Published(replaced: Option<Connection>) | NotPublished | PublishFailed

  datatype TouchOutcome = Touched | Replaced | NotTouched | TouchFailed

  predicate Current(s: Core, c: Connection) {
    c.device in s.connections && s.connections[c.device] == c
  }

  /** `_publish`: commit ONLINE, then make `c` the device's connection. */
  function Publish(s: Core, c: Connection, now: Time, commits: bool): (Core, PublishOutcome) {
    if !commits then (s, PublishFailed)
    else if !Live(s.rows, c.device) then (s, NotPublished)
    else
      var replaced := if c.device in s.connections then Some(s.connections[c.device]) else None;
      (s.(rows := MarkOnline(s.rows, c.device, now), connections := s.connections[c.device := c]), Published(replaced))
  }

  function Touch(s: Core, c: Connection, now: Time, mono: Time, commits: bool): (Core, TouchOutcome) {
    if !Current(s, c) then (s, Replaced)
    else if !commits then (s, TouchFailed)
    else if !Live(s.rows, c.device) then (s, NotTouched)
    else (s.(rows := TouchRow(s.rows, c.device, now), lastSeen := s.lastSeen[c := mono]), Touched)
  }

  /** The futures of the entries that `c` owns. */
  function FuturesOf(pending: map<Key, Entry>, c: Connection): set<FutureId> {
    set k | k in pending && pending[k].owner == c :: pending[k].future
  }

  function AllFutures(pending: map<Key, Entry>): set<FutureId> {
    set k | k in pending :: pending[k].future
  }

  /** `set_exception` on those of `ids` that are not done yet. */
  function Fail(futures: map<FutureId, FutureState>, ids: set<FutureId>): map<FutureId, FutureState> {
    map f | f in futures :: if f in ids && futures[f].Waiting? then Unavailable else futures[f]
  }

  function Disconnect(s: Core, c: Connection, commits: bool): Core {
    if Current(s, c) && !commits then s
    else
      s.(rows := if Current(s, c) then MarkOffline(s.rows, c.device) else s.rows,
         connections := if Current(s, c) then s.connections - {c.device} else s.connections,
         pending := map k | k in s.pending && s.pending[k].owner != c :: s.pending[k],
         futures := Fail(s.futures, FuturesOf(s.pending, c)))
  }

  /** The first locked block of `request`. */
  function Admit(s: Core, key: Key, c: Connection, f: FutureId): Core {
    if key in s.pending then s else s.(pending := s.pending[key := Entry(c, f)])
  }

  /** `request`'s `finally` block. */
  function Settle(s: Core, key: Key, f: FutureId): Core {
    s.(pending := if key in s.pending && s.pending[key].future == f then s.pending - {key} else s.pending,
       futures := if f in s.futures && s.futures[f].Waiting? then s.futures[f := Cancelled] else s.futures)
  }

  function Completed(body: Body): FutureState {
    match body
    case OperationResult(payload) => Answered(payload)
    case AgentError(code) => RemoteError(code)
  }

  predicate Accepts(s: Core, c: Connection, request: RequestId) {
    var key := Key(c.device, request);
    key in s.pending && s.pending[key].owner == c
  }

  function Resolve(s: Core, c: Connection, request: RequestId, body: Body): Core {
    if !Accepts(s, c, request) then s
    else
      var key := Key(c.device, request);
      var f := s.pending[key].future;
      s.(pending := s.pending - {key},
         futures := if f in s.futures && s.futures[f].Waiting? then s.futures[f := Completed(body)] else s.futures)
  }

  /** The devices `expire` finds silent; `clock` gives the reading made for each. */
  function Stale(s: Core, threshold: Time, clock: DeviceId -> Time): set<DeviceId> {
    set d | d in s.connections && s.connections[d] in s.lastSeen
            && clock(d) - s.lastSeen[s.connections[d]] >= threshold
  }

  /** What `expire` does when it retires exactly the devices of `gone`. */
  function Expire(s: Core, gone: set<DeviceId>): Core {
    s.(rows := MarkAllOffline(s.rows, gone * s.connections.Keys), connections := s.connections - gone)
  }

  /** Shutdown; the OFFLINE update of the devices of `failing` is lost. */
  function Close(s: Core, failing: set<DeviceId>): Core {
    s.(rows := MarkAllOffline(s.rows, s.connections.Keys - failing),
       connections := map[],
       pending := map[],
       futures := Fail(s.futures, AllFutures(s.pending)))
  }

  class ConnectionRegistry {
    const database: DeviceRepository
    var connections: map<DeviceId, Connection>
    var lastSeen: map<Connection, Time>
    var pending: map<Key, Entry>
    var futures: map<FutureId, FutureState>

    /** Every published connection has a `last_seen`, set when it was built. */
    ghost predicate Valid() reads this {
      && (forall d :: d in connections ==> connections[d].device == d && connections[d] in lastSeen)
      && (forall k :: k in pending ==> pending[k].future in futures)
    }

    ghost function State(): Core reads this, database {
      Core(database.rows, connections, lastSeen, pending, futures)
    }

    constructor (database: DeviceRepository)
      ensures Valid() && this.database == database
      ensures State() == Core(database.rows, map[], map[], map[], map[])
    {
      this.database := database;
      connections, lastSeen, pending, futures := map[], map[], map[], map[];
    }

    /** `register` builds the connection, a new object with its own `last_seen`. */
    method OpenConnection(c: Connection, mono: Time)
      requires Valid() && c !in lastSeen
      modifies this`lastSeen
      ensures Valid()
      ensures State() == old(State()).(lastSeen := old(lastSeen)[c := mono])
    {
      lastSeen := lastSeen[c := mono];
    }

    method PublishConnection(c: Connection, now: Time, commits: bool) returns (r: PublishOutcome)
      requires Valid() && c in lastSeen
      modifies this`connections, database
      ensures Valid()
      ensures (State(), r) == Publish(old(State()), c, now, commits)
    {
      if !commits {
        return PublishFailed;
      }
      var matched := database.MarkOnlineRow(c.device, now);
      if !matched {
        return NotPublished;
      }
      r := Published(if c.device in connections then Some(connections[c.device]) else None);
      connections := connections[c.device := c];
    }

    method TouchConnection(c: Connection, now: Time, mono: Time, commits: bool) returns (r: TouchOutcome)
      requires Valid()
      modifies this`lastSeen, database
      ensures Valid()
      ensures (State(), r) == Touch(old(State()), c, now, mono, commits)
    {
      if c.device !in connections || connections[c.device] != c {
        return Replaced;
      }
      if !commits {
        return TouchFailed;
      }
      var matched := database.TouchPresence(c.device, now);
      if !matched {
        return NotTouched;
      }
      lastSeen := lastSeen[c := mono];
      return Touched;
    }

    /** Sets the exception on every listed future that is not done. */
    method FailAll(ids: set<FutureId>)
      requires ids <= futures.Keys
      modifies this`futures
      ensures futures == Fail(old(futures), ids)
    {
      var todo := ids;
      while todo != {}
        invariant todo <= ids
        invariant futures == Fail(old(futures), ids - todo)
        decreases todo
      {
        var f :| f in todo;
        if futures[f].Waiting? {
          futures := futures[f := Unavailable];
        }
        todo := todo - {f};
        assert ids - todo == ids - (todo + {f}) + {f};
      }
      assert ids - todo == ids;
    }

    method DisconnectConnection(c: Connection, commits: bool) returns (raised: bool)
      requires Valid()
      modifies this, database
      ensures Valid()
      ensures State() == Disconnect(old(State()), c, commits)
      ensures raised <==> Current(old(State()), c) && !commits
    {
      if c.device in connections && connections[c.device] == c {
        if !commits {
          return true;
        }
        database.MarkOfflineRow(c.device);
        connections := connections - {c.device};
      }
      var failed: set<FutureId> := {};
      var todo := pending.Keys;
      while todo != {}
        invariant todo <= old(pending).Keys
        invariant pending == map k | k in old(pending) && (k in todo || old(pending)[k].owner != c) :: old(pending)[k]
        invariant failed == set k | k in old(pending) && k !in todo && old(pending)[k].owner == c ::
                    old(pending)[k].future
        invariant database.rows == (if Current(old(State()), c) then MarkOffline(old(database.rows), c.device)
                                       else old(database.rows))
        invariant connections == if Current(old(State()), c) then old(connections) - {c.device} else old(connections)
        invariant lastSeen == old(lastSeen) && futures == old(futures)
        decreases todo
      {
        var key :| key in todo;
        var entry := pending[key];
        if entry.owner == c {
          pending := pending - {key};
          failed := failed + {entry.future};
        }
        todo := todo - {key};
      }
      assert failed == FuturesOf(old(pending), c);
      FailAll(failed);
      raised := false;
    }

    /** The start of `request`: the device's connection is read and the new future `f` created. */
    method BeginRequest(d: DeviceId, f: FutureId) returns (c: Option<Connection>)
      requires Valid() && f !in futures
      modifies this`futures
      ensures Valid()
      ensures c == if d in connections then Some(connections[d]) else None
      ensures State() == if c.Some? then old(State()).(futures := old(futures)[f := Waiting]) else old(State())
    {
      if d !in connections {
        return None;
      }
      futures := futures[f := Waiting];
      return Some(connections[d]);
    }

    method AdmitRequest(key: Key, c: Connection, f: FutureId) returns (admitted: bool)
      requires Valid() && f in futures
      modifies this`pending
      ensures Valid()
      ensures State() == Admit(old(State()), key, c, f)
      ensures admitted <==> key !in old(pending)
    {
      admitted := key !in pending;
      if admitted {
        pending := pending[key := Entry(c, f)];
      }
    }

    method SettleRequest(key: Key, f: FutureId)
      requires Valid() && f in futures
      modifies this`pending, this`futures
      ensures Valid()
      ensures State() == Settle(old(State()), key, f)
    {
      if key in pending && pending[key].future == f {
        pending := pending - {key};
      }
      if futures[f].Waiting? {
        futures := futures[f := Cancelled];
      }
    }

    /** `message` is None where the message is not an answer; otherwise true is returned, taken or not. */
    method ResolveMessage(c: Connection, request: RequestId, message: Option<Body>) returns (answer: bool)
      requires Valid()
      modifies this`pending, this`futures
      ensures Valid()
      ensures answer <==> message.Some?
      ensures State() == if answer then Resolve(old(State()), c, request, message.value) else old(State())
    {
      if message.None? {
        return false;
      }
      var key := Key(c.device, request);
      if key !in pending {
        return true;
      }
      if pending[key].owner != c {
        return true;
      }
      var f := pending[key].future;
      pending := pending - {key};
      if !futures[f].Waiting? {
        return true;
      }
      futures := futures[f := Completed(message.value)];
      return true;
    }

    /** Stops at the first device of `failing` it has to retire. */
    method ExpireConnections(threshold: Time, clock: DeviceId -> Time, failing: set<DeviceId>)
      returns (gone: set<DeviceId>, raised: bool)
      requires Valid()
      modifies this`connections, database
      ensures Valid()
      ensures State() == Expire(old(State()), gone)
      ensures gone <= Stale(old(State()), threshold, clock) - failing
      ensures !raised ==> gone == Stale(old(State()), threshold, clock)
      ensures forall d | d in gone ::
                d in old(connections) && clock(d) >= old(lastSeen)[old(connections)[d]] + threshold
      ensures forall d | d in old(connections) && clock(d) >= old(lastSeen)[old(connections)[d]] + threshold ::
                d in gone || raised
      ensures raised ==> Stale(old(State()), threshold, clock) * failing != {}
    {
      gone, raised := {}, false;
      var todo := connections.Keys;
      MarkAllOfflineNone(database.rows);
      assert {} * old(connections.Keys) == {};
      while todo != {}
        invariant todo <= old(connections).Keys && gone <= old(connections).Keys
        invariant connections == old(connections) - gone
        invariant todo <= connections.Keys
        invariant database.rows == MarkAllOffline(old(database.rows), gone)
        invariant gone == Stale(old(State()), threshold, clock) - todo
        invariant gone !! failing
        decreases todo
      {
        var d :| d in todo;
        var c := connections[d];
        if clock(d) - lastSeen[c] >= threshold {
          if d in failing {
            assert gone * old(connections).Keys == gone;
            assert d in Stale(old(State()), threshold, clock) * failing;
            raised := true;
            return;
          }
          MarkAllOfflineOne(old(database.rows), gone, d);
          database.MarkOfflineRow(d);
          connections := connections - {d};
          gone := gone + {d};
        }
        todo := todo - {d};
      }
      assert gone * old(connections).Keys == gone;
    }

    method CloseRegistry(failing: set<DeviceId>)
      requires Valid()
      modifies this, database
      ensures Valid()
      ensures State() == Close(old(State()), failing)
      ensures connections == map[] && pending == map[]
      ensures futures.Keys == old(futures).Keys
      ensures forall k | k in old(pending) ::
                old(pending)[k].future in futures && futures[old(pending)[k].future] != Waiting
    {
      var todo := connections.Keys;
      MarkAllOfflineNone(database.rows);
      while todo != {}
        invariant connections == map d | d in old(connections) && d in todo :: old(connections)[d]
        invariant todo <= old(connections).Keys
        invariant database.rows == MarkAllOffline(old(database.rows), old(connections).Keys - todo - failing)
        invariant pending == old(pending) && futures == old(futures) && lastSeen == old(lastSeen)
        decreases todo
      {
        var d :| d in todo;
        var done := old(connections).Keys - todo - failing;
        if d !in failing {
          MarkAllOfflineOne(old(database.rows), done, d);
          database.MarkOfflineRow(d);
          assert old(connections).Keys - (todo - {d}) - failing == done + {d};
        } else {
          assert old(connections).Keys - (todo - {d}) - failing == done;
        }
        connections := connections - {d};
        todo := todo - {d};
      }
      assert old(connections).Keys - todo - failing == old(connections).Keys - failing;
      var failed := set k | k in pending :: pending[k].future;
      assert forall k | k in pending :: pending[k].future in failed;
      pending := map[];
      FailAll(failed);
    }
  }
}
