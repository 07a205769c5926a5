/**
 * Inbound restock: validate the request, resolve (or provision) the
 * operator by name, append an immutable inbound record, then either add
 * the quantity to the (plate, batch) line or open a new inventory line.
 */
module Inbound {
  import opened Tables
  import opened Models
  import opened Store
  import opened Statistics

  /** Operator name used when the request names none. */
  const UnknownOperator := "未知操作员"
  /** Password given to an operator provisioned from a bare name. */
  const ProvisionedPassword := "123456"

  /**
   * An inbound request. `plateId` and `quantity` are 0 when absent (the
   * handler tests them for truthiness); the optional fields are None when
   * absent or null.
   */
  datatype InboundRequest = InboundRequest(
    plateId: int,
    quantity: int,
    operatorName: Option<string>,
    batchNumber: Option<string>,
    supplier: Option<string>,
    location: Option<string>,
    warningThreshold: Option<int>,
    remark: Option<string>)

  function OperatorName(req: InboundRequest): string
  {
    if req.operatorName.Some? then req.operatorName.value else UnknownOperator
  }

  /** ASCII lower-casing of one character. */
  function LowerAscii(c: char): (d: char)
    ensures 'A' <= c <= 'Z' ==> d as int == c as int + 32
    ensures !('A' <= c <= 'Z') ==> d == c
  {
    if 'A' <= c <= 'Z' then (c as int + 32) as char else c
  }

  /** The username derived from an operator's display name: lower-cased, spaces turned into underscores. */
  function ProvisionedUsername(name: string): (u: string)
    ensures |u| == |name|
    ensures forall i :: 0 <= i < |u| ==> u[i] != ' ' && !('A' <= u[i] <= 'Z')
    ensures forall i :: 0 <= i < |u| ==> (name[i] == ' ' ==> u[i] == '_')
    ensures forall i :: 0 <= i < |u| ==> (name[i] != ' ' ==> u[i] == LowerAscii(name[i]))
  {
    if |name| == 0 then ""
    else [if name[0] == ' ' then '_' else LowerAscii(name[0])] + ProvisionedUsername(name[1..])
  }

  /** The first user whose display name or username is `name`. */
  function OperatorIndex(users: seq<User>, name: string): Option<nat>
  {
    FindFirst(users, (u: User) => u.realName == name || u.username == name)
  }

  function UsernameIndex(users: seq<User>, username: string): Option<nat>
  {
    FindFirst(users, (u: User) => u.username == username)
  }

  /** The line a restock adds to: only looked up when a batch number is given. */
  function BatchLineIndex(lines: seq<InventoryLine>, plateId: int, batch: Option<string>): Option<nat>
  {
    if Truthy(batch) then FindFirst(lines, (l: InventoryLine) => l.plateId == plateId && l.batchNumber == batch)
    else None
  }

  /** The request passes validation and names an existing plate. */
  ghost predicate Admissible(s: Snapshot, req: InboundRequest)
  {
    req.plateId != 0 && req.quantity > 0 && PlateExists(s.plates, req.plateId)
  }

  /** The derived username of an operator that must be provisioned is already taken. */
  ghost predicate ProvisioningClash(s: Snapshot, req: InboundRequest)
  {
    OperatorIndex(s.users, OperatorName(req)).None? &&
    UsernameIndex(s.users, ProvisionedUsername(OperatorName(req))).Some?
  }

  /**
   * The users table once the operator named `name` is resolved: unchanged
   * when a user matches, otherwise with one active warehouse user appended
   * whose username is derived from the name.
   */
  function WithOperator(users: seq<User>, name: string, now: int): seq<User>
    requires StrictlyIncreasing(users, UserKey)
  {
    if OperatorIndex(users, name).Some? then users
    else users + [User(NextKey(users, UserKey), ProvisionedUsername(name), ProvisionedPassword,
                       name, DefaultRole, UserActive, now)]
  }

  /** Id of the operator the record is attributed to: the matching user, or the one provisioned now. */
  function OperatorId(users: seq<User>, name: string): int
    requires StrictlyIncreasing(users, UserKey)
  {
    match OperatorIndex(users, name)
    case Some(i) => users[i].id
    case None => NextKey(users, UserKey)
  }

  /**
   * Resolving an operator only ever appends, and afterwards the name
   * resolves to a user carrying the id the record is attributed to.
   */
  lemma WithOperatorResolves(users: seq<User>, name: string, now: int)
    requires StrictlyIncreasing(users, UserKey)
    ensures var r := WithOperator(users, name, now);
      && |users| <= |r| <= |users| + 1 && r[..|users|] == users
      && OperatorIndex(r, name).Some?
      && r[OperatorIndex(r, name).value].id == OperatorId(users, name)
  {
    var r := WithOperator(users, name, now);
    assert r[..|users|] == users;
    if OperatorIndex(users, name).None? {
      var k := OperatorIndex(r, name);
      assert r[|users|].realName == name;
      assert k.Some? && k.value == |users| by {
        forall j | 0 <= j < |users| ensures !(r[j].realName == name || r[j].username == name) {
          assert r[j] == users[j];
        }
      }
    }
  }

  /**
   * The ledger after a restock of `req.quantity`: with a batch number that
   * already has a line for the plate, that line grows and is stamped `now`;
   * otherwise a new line is opened with the request's location, batch and
   * threshold (10 when none is given).
   */
  function Restocked(lines: seq<InventoryLine>, req: InboundRequest, now: int): seq<InventoryLine>
    requires StrictlyIncreasing(lines, LineKey)
  {
    match BatchLineIndex(lines, req.plateId, req.batchNumber)
    case Some(i) => lines[i := lines[i].(quantity := lines[i].quantity + req.quantity, lastUpdated := now)]
    case None =>
      lines + [InventoryLine(NextKey(lines, LineKey), req.plateId, req.quantity, req.location, req.batchNumber,
                             if req.warningThreshold.Some? then req.warningThreshold.value
                             else DefaultWarningThreshold, now)]
  }

  /** A restock raises the total stock on hand by exactly the received quantity. */
  lemma RestockedTotal(lines: seq<InventoryLine>, req: InboundRequest, now: int)
    requires StrictlyIncreasing(lines, LineKey)
    ensures TotalInventory(Restocked(lines, req, now)) == TotalInventory(lines) + req.quantity
  {
    match BatchLineIndex(lines, req.plateId, req.batchNumber)
    case Some(i) =>
      SumUpdate(lines, LineQuantity, i, lines[i].(quantity := lines[i].quantity + req.quantity, lastUpdated := now));
    case None =>
      SumAppend(lines, LineQuantity, Restocked(lines, req, now)[|lines|]);
      assert Restocked(lines, req, now) == lines + [Restocked(lines, req, now)[|lines|]];
  }

  /**
   * A restock touches one line: the first line of the plate with the given
   * (non-empty) batch number gains the quantity and nothing else of it
   * changes but its update time; without such a line every existing line
   * is kept and one line of the plate, batch and location is added under a
   * fresh id.
   */
  lemma RestockedLines(lines: seq<InventoryLine>, req: InboundRequest, now: int)
    requires StrictlyIncreasing(lines, LineKey)
    ensures var r := Restocked(lines, req, now);
      match BatchLineIndex(lines, req.plateId, req.batchNumber)
      case Some(i) =>
        && Truthy(req.batchNumber)
        && lines[i].plateId == req.plateId && lines[i].batchNumber == req.batchNumber
        && |r| == |lines|
        && r[i].quantity == lines[i].quantity + req.quantity && r[i].lastUpdated == now
        && r[i].(quantity := lines[i].quantity, lastUpdated := lines[i].lastUpdated) == lines[i]
        && (forall j :: 0 <= j < |lines| && j != i ==> r[j] == lines[j])
      case None =>
        && (Truthy(req.batchNumber) ==>
              forall j :: 0 <= j < |lines| ==> !(lines[j].plateId == req.plateId && lines[j].batchNumber == req.batchNumber))
        && |r| == |lines| + 1 && r[..|lines|] == lines
        && r[|lines|].plateId == req.plateId && r[|lines|].quantity == req.quantity
        && r[|lines|].batchNumber == req.batchNumber && r[|lines|].location == req.location
        && (forall j :: 0 <= j < |lines| ==> lines[j].id < r[|lines|].id)
  {
    var r := Restocked(lines, req, now);
    if BatchLineIndex(lines, req.plateId, req.batchNumber).None? {
      assert r[..|lines|] == lines;
    }
  }

  /** Resolves (or provisions) the operator; None when provisioning would break the unique username. */
  method ResolveOperator(w: Warehouse, name: string, now: int) returns (id: Option<int>)
    requires w.Valid()
    modifies w
    ensures w.Valid()
    ensures id.None? <==> OperatorIndex(old(w.users), name).None? &&
                          UsernameIndex(old(w.users), ProvisionedUsername(name)).Some?
    ensures id.None? ==> w.State() == old(w.State())
    ensures id.Some? ==> id.value == OperatorId(old(w.users), name) &&
                         w.State() == old(w.State()).(users := WithOperator(old(w.users), name, now))
  {
    match OperatorIndex(w.users, name) {
      case Some(i) =>
        return Some(w.users[i].id);
      case None =>
        var username := ProvisionedUsername(name);
        if UsernameIndex(w.users, username).Some? {
          // the unique index on username rejects the flush; nothing is committed
          return None;
        }
        var operator := User(NextKey(w.users, UserKey), username, ProvisionedPassword, name, DefaultRole, UserActive, now);
        ValidAfterUserAppend(w.State(), operator);
        w.users := w.users + [operator];
        return Some(operator.id);
    }
  }

  /** Adds a restock to the ledger. */
  method Restock(w: Warehouse, req: InboundRequest, now: int)
    requires w.Valid() && PlateExists(w.plates, req.plateId)
    modifies w
    ensures w.Valid()
    ensures w.State() == old(w.State()).(lines := Restocked(old(w.lines), req, now))
  {
    match BatchLineIndex(w.lines, req.plateId, req.batchNumber) {
      case Some(i) =>
        var line := w.lines[i].(quantity := w.lines[i].quantity + req.quantity, lastUpdated := now);
        ValidAfterLineUpdate(w.State(), i, line);
        w.lines := w.lines[i := line];
      case None =>
        var threshold := if req.warningThreshold.Some? then req.warningThreshold.value else DefaultWarningThreshold;
        var line := InventoryLine(NextKey(w.lines, LineKey), req.plateId, req.quantity,
                                  req.location, req.batchNumber, threshold, now);
        ValidAfterLineAppend(w.State(), line);
        w.lines := w.lines + [line];
    }
  }

  /**
   * POST /api/inbound: a valid restock of an existing plate resolves the
   * operator, appends one inbound record and restocks the ledger, and
   * touches nothing else; every refusal leaves the whole store unchanged.
   */
  method CreateInbound(w: Warehouse, req: InboundRequest, now: int) returns (o: Outcome)
    requires w.Valid()
    modifies w
    ensures w.Valid()
    ensures o in {Ok, Invalid, NotFound, Failed}
    ensures o == Invalid <==> req.plateId == 0 || req.quantity <= 0
    ensures o == NotFound <==> req.plateId != 0 && req.quantity > 0 && !PlateExists(old(w.plates), req.plateId)
    ensures o == Failed <==> Admissible(old(w.State()), req) && ProvisioningClash(old(w.State()), req)
    ensures o != Ok ==> w.State() == old(w.State())
    ensures o == Ok ==>
      w.State() == old(w.State()).(
        users := WithOperator(old(w.users), OperatorName(req), now),
        inbounds := old(w.inbounds) + [InboundRecord(NextKey(old(w.inbounds), InboundKey), req.plateId, req.quantity,
                                                     req.batchNumber, req.supplier,
                                                     OperatorId(old(w.users), OperatorName(req)), now, req.remark)],
        lines := Restocked(old(w.lines), req, now))
  {
    if req.plateId == 0 || req.quantity == 0 {
      return Invalid;
    }
    if req.quantity <= 0 {
      return Invalid;
    }
    if PlateIndex(w.plates, req.plateId).None? {
      PlateIndexExists(w.plates, req.plateId);
      return NotFound;
    }
    PlateIndexExists(w.plates, req.plateId);
    var operatorId := ResolveOperator(w, OperatorName(req), now);
    if operatorId.None? {
      return Failed;
    }
    var record := InboundRecord(NextKey(w.inbounds, InboundKey), req.plateId, req.quantity,
                                req.batchNumber, req.supplier, operatorId.value, now, req.remark);
    ValidAfterInboundAppend(w.State(), record);
    w.inbounds := w.inbounds + [record];
    Restock(w, req, now);
    return Ok;
  }

  /** A record stamped now counts towards today's inbound figure with its whole quantity. */
  lemma InboundCountsToday(inbounds: seq<InboundRecord>, r: InboundRecord, lines: seq<InventoryLine>,
                           outbounds: seq<OutboundRecord>, tasks: seq<DispatchTask>, now: int)
    requires r.inboundTime == now
    ensures GetOverview(lines, inbounds + [r], outbounds, tasks, now).todayInbound ==
            GetOverview(lines, inbounds, outbounds, tasks, now).todayInbound + r.quantity
  {
    SumAppend(inbounds, InboundSince(DayStart(now)), r);
  }
}
