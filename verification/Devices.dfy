/**
 The device table: the conditional updates of DeviceRepository, and the two
 read-only decisions taken from a row (authentication and authorization).
 Every update is one SQL statement inside one transaction, so it is one step.
 */
module Devices {
  import opened Common

  type DeviceId = nat

  datatype Status = Online | Offline | Busy | Degraded | Revoked

  datatype Permission = ReadOnly | ReadWrite | FullAccess

  type Capability = nat

  datatype Device = Device(
    status: Status,
    permission: Permission,
    capabilities: set<Capability>,
    tokenHash: nat,
    lastSeen: Option<Time>,
    revokedAt: Option<Time>)
  {
    predicate IsRevoked() { status.Revoked? || revokedAt.Some? }
  }

  type Table = map<DeviceId, Device>

  /** The rows the `WHERE` clause of each presence update selects. */
  predicate Live(rows: Table, id: DeviceId) {
    id in rows && !rows[id].IsRevoked()
  }

  function MarkOnline(rows: Table, id: DeviceId, now: Time): Table {
    if Live(rows, id) then rows[id := rows[id].(status := Online, lastSeen := Some(now))] else rows
  }

  function MarkOffline(rows: Table, id: DeviceId): Table {
    if Live(rows, id) then rows[id := rows[id].(status := Offline)] else rows
  }

  function TouchRow(rows: Table, id: DeviceId, now: Time): Table {
    if Live(rows, id) then
      rows[id := rows[id].(lastSeen := Some(now),
                           status := if rows[id].status.Offline? then Online else rows[id].status)]
    else rows
  }

  function SetPermission(rows: Table, id: DeviceId, level: Permission): Table {
    if Live(rows, id) then rows[id := rows[id].(permission := level)] else rows
  }

  /** The administrator's `devices revoke`. */
  function Revoke(rows: Table, id: DeviceId, at: Time): Table {
    if id in rows then rows[id := rows[id].(status := Revoked, revokedAt := Some(at))] else rows
  }

  /** Several `mark_offline` updates, one for each device of `ids`. */
  function MarkAllOffline(rows: Table, ids: set<DeviceId>): Table {
    map d | d in rows :: if d in ids && !rows[d].IsRevoked() then rows[d].(status := Offline) else rows[d]
  }

  lemma MarkAllOfflineOne(rows: Table, ids: set<DeviceId>, id: DeviceId)
    ensures MarkOffline(MarkAllOffline(rows, ids), id) == MarkAllOffline(rows, ids + {id})
  {
  }

  lemma MarkAllOfflineNone(rows: Table)
    ensures MarkAllOffline(rows, {}) == rows
  {
  }

  /** DeviceAuthenticator.authenticate; `verify` stands for the salted token hash. */
  predicate Authenticates(rows: Table, id: DeviceId, token: nat, verify: (nat, nat) -> bool) {
    && id in rows
    && verify(token, rows[id].tokenHash)
    && !rows[id].IsRevoked()
  }

  datatype AuthorizationError = UnknownDevice | DeviceRevoked | MissingCapability | ForbiddenLevel

  /** GatewayOperations._authorize, with its checks in the order of the source. */
  function Authorize(rows: Table, id: DeviceId, required: set<Capability>, mutation: bool):
    (r: Result<Device, AuthorizationError>)
  {
    if id !in rows then Failure(UnknownDevice)
    else if rows[id].IsRevoked() then Failure(DeviceRevoked)
    else if !(required <= rows[id].capabilities) then Failure(MissingCapability)
    else if mutation && rows[id].permission.ReadOnly? then Failure(ForbiddenLevel)
    else Success(rows[id])
  }

  /** What a row must say for a mutation that needs these capabilities. */
  predicate MayMutate(row: Device, required: set<Capability>) {
    && !row.status.Revoked? && row.revokedAt.None?
    && (forall c | c in required :: c in row.capabilities)
    && (row.permission == ReadWrite || row.permission == FullAccess)
  }

  /** Exactly when a call is authorized, and which check refuses it otherwise. */
  lemma AuthorizeIff(rows: Table, id: DeviceId, required: set<Capability>, mutation: bool)
    ensures var r := Authorize(rows, id, required, mutation);
            && (r == Failure(UnknownDevice) <==> id !in rows)
            && (id in rows ==>
                  var row := rows[id];
                  var revoked, able := row.status == Revoked || row.revokedAt != None, required <= row.capabilities;
                  && (r == Failure(DeviceRevoked) <==> revoked)
                  && (r == Failure(MissingCapability) <==> !revoked && !able)
                  && (r == Failure(ForbiddenLevel) <==> !revoked && able && mutation && row.permission == ReadOnly)
                  && (r == Success(row) <==> !revoked && able && (mutation ==> MayMutate(row, required))))
  {
  }

  /** A mutation is authorized exactly on an existing row that permits it. */
  lemma MutationAuthorizedIff(rows: Table, id: DeviceId, required: set<Capability>)
    ensures Authorize(rows, id, required, true).Success? <==> id in rows && MayMutate(rows[id], required)
  {
    AuthorizeIff(rows, id, required, true);
  }

  /** A row is the same but for its presence. */
  predicate SameButPresence(before: Device, after: Device) {
    after.(status := before.status, lastSeen := before.lastSeen) == before
  }

  /** What each presence update writes on a live row; BUSY and DEGRADED survive a heartbeat. */
  lemma PresenceWrites(rows: Table, id: DeviceId, now: Time, other: DeviceId)
    requires Live(rows, id)
    ensures var online, offline, touched := MarkOnline(rows, id, now), MarkOffline(rows, id), TouchRow(rows, id, now);
            && online.Keys == offline.Keys == touched.Keys == rows.Keys
            && online[id].status == Online && online[id].lastSeen == Some(now)
            && offline[id].status == Offline && offline[id].lastSeen == rows[id].lastSeen
            && touched[id].status == (if rows[id].status == Offline then Online else rows[id].status)
            && touched[id].lastSeen == Some(now)
            && SameButPresence(rows[id], online[id]) && SameButPresence(rows[id], offline[id])
            && SameButPresence(rows[id], touched[id])
            && (other in rows && other != id ==> online[other] == offline[other] == touched[other] == rows[other])
  {
  }

  /** An update that finds no live row writes nothing. */
  lemma NoLiveRowNoWrite(rows: Table, id: DeviceId, now: Time, level: Permission)
    requires !Live(rows, id)
    ensures MarkOnline(rows, id, now) == rows && MarkOffline(rows, id) == rows && TouchRow(rows, id, now) == rows
    ensures SetPermission(rows, id, level) == rows
  {
  }

  /** A live device authenticates exactly with a token its stored hash verifies. */
  lemma AuthenticatesIff(rows: Table, id: DeviceId, token: nat, verify: (nat, nat) -> bool)
    ensures Authenticates(rows, id, token, verify) <==> Live(rows, id) && verify(token, rows[id].tokenHash)
  {
  }

  /** The administrator's level decides, for a live device, whether it may be mutated at all. */
  lemma PermissionDecides(rows: Table, id: DeviceId, level: Permission, required: set<Capability>, other: DeviceId)
    requires Live(rows, id) && required <= rows[id].capabilities
    ensures var after := SetPermission(rows, id, level);
            && Authorize(after, id, required, true) ==
               (if level == ReadOnly then Failure(ForbiddenLevel) else Success(after[id]))
            && after[id].(permission := rows[id].permission) == rows[id]
            && (other != id ==> (other in after <==> other in rows) && (other in rows ==> after[other] == rows[other]))
  {
  }

  /** Revocation shuts a known device out of everything, and concerns no other. */
  lemma RevocationShutsOut(rows: Table, id: DeviceId, at: Time, other: DeviceId)
    requires id in rows
    ensures var after := Revoke(rows, id, at);
            && after[id].status.Revoked? && after[id].revokedAt == Some(at)
            && (forall required, mutation :: Authorize(after, id, required, mutation) == Failure(DeviceRevoked))
            && (forall token, verify :: !Authenticates(after, id, token, verify))
            && !Live(after, id) && after[id].lastSeen == rows[id].lastSeen
            && (other != id ==> (other in after <==> other in rows) && (other in rows ==> after[other] == rows[other]))
  {
  }

  /** What a revoked row keeps for ever. */
  predicate Frozen(before: Device, after: Device) {
    && before.IsRevoked()
    && after.IsRevoked()
    && after.lastSeen == before.lastSeen
    && after.permission == before.permission
    && after.capabilities == before.capabilities
    && (after.status == before.status || after.status.Revoked?)
  }

  /** The repository over a table that its statements change in place. */
  class DeviceRepository {
    var rows: Table

    constructor (initial: Table)
      ensures rows == initial
    {
      rows := initial;
    }

    method MarkOnlineRow(id: DeviceId, now: Time) returns (matched: bool)
      modifies this
      ensures rows == MarkOnline(old(rows), id, now)
      ensures matched == Live(old(rows), id)
    {
      matched := id in rows && !rows[id].status.Revoked? && rows[id].revokedAt.None?;
      if matched {
        rows := rows[id := rows[id].(status := Online, lastSeen := Some(now))];
      }
    }

    method MarkOfflineRow(id: DeviceId)
      modifies this
      ensures rows == MarkOffline(old(rows), id)
    {
      if id in rows && !rows[id].status.Revoked? && rows[id].revokedAt.None? {
        rows := rows[id := rows[id].(status := Offline)];
      }
    }

    method TouchPresence(id: DeviceId, now: Time) returns (matched: bool)
      modifies this
      ensures rows == TouchRow(old(rows), id, now)
      ensures matched == Live(old(rows), id)
    {
      matched := id in rows && !rows[id].status.Revoked? && rows[id].revokedAt.None?;
      if matched {
        var status := if rows[id].status.Offline? then Online else rows[id].status;
        rows := rows[id := rows[id].(lastSeen := Some(now), status := status)];
      }
    }

    method SetPermissionLevel(id: DeviceId, level: Permission)
      returns (r: Result<Option<(Permission, Permission)>, AuthorizationError>)
      modifies this
      ensures rows == SetPermission(old(rows), id, level)
      ensures r == if id !in old(rows) then Success(None)
                   else if old(rows)[id].IsRevoked() then Failure(DeviceRevoked)
                   else Success(Some((old(rows)[id].permission, level)))
    {
      if id !in rows {
        return Success(None);
      }
      if rows[id].status.Revoked? || rows[id].revokedAt.Some? {
        return Failure(DeviceRevoked);
      }
      var previous := rows[id].permission;
      rows := rows[id := rows[id].(permission := level)];
      return Success(Some((previous, level)));
    }
  }
}
