/**
 * Outbound workflow: an application is recorded as pending together with a
 * high-priority approval task for an administrator; approval debits the
 * plate's first inventory line, rejection only closes the record.
 */
module Outbound {
  import opened Tables
  import opened Models
  import opened Store
  import opened Statistics
  import opened Text

  /** Applicant name used when the request names none. */
  const UnknownApplicant := "未知用户"
  const RejectionPrefix := "拒绝原因: "

  /**
   * An outbound application. `plateId`, `quantity` and `applicantId` are 0
   * when absent (the handler tests them for truthiness); `applicantName`
   * and `remark` tell a missing key from an explicit null.
   */
  datatype OutboundRequest = OutboundRequest(
    plateId: int,
    quantity: int,
    applicantId: int,
    applicantName: Field<string>,
    remark: Field<string>)

  /** The applicant name the handler reads: "未知用户" for a missing key, None for null. */
  function ApplicantName(req: OutboundRequest): Option<string>
  {
    GetOr(req.applicantName, UnknownApplicant)
  }

  /** The remark stored on the record: None for a missing key or null. */
  function RecordRemark(req: OutboundRequest): Option<string>
  {
    if req.remark.Given? then Some(req.remark.value) else None
  }

  /** The user matched by display name or username. */
  function UserByName(users: seq<User>, name: string): Option<nat>
  {
    FindFirst(users, (u: User) => u.realName == name || u.username == name)
  }

  /**
   * The user matched by the applicant name. A null name is compared as SQL
   * IS NULL, which no user matches: display name and username are NOT NULL.
   */
  function ApplicantByName(users: seq<User>, req: OutboundRequest): Option<nat>
  {
    if ApplicantName(req).None? then None else UserByName(users, ApplicantName(req).value)
  }

  /**
   * Id the application is filed under: the user with the given id when an
   * id is sent, otherwise the user matching the name; failing that the
   * first user, and 1 on an empty users table.
   */
  function ApplicantRef(users: seq<User>, req: OutboundRequest): int
  {
    var found := if req.applicantId != 0 then UserIndex(users, req.applicantId)
                 else ApplicantByName(users, req);
    match found
    case Some(i) => users[i].id
    case None => FirstUserIdOr1(users)
  }

  /** The applicant is an existing user whenever there is one, and the named id wins when it exists. */
  lemma ApplicantRefResolves(users: seq<User>, req: OutboundRequest)
    ensures |users| > 0 ==> exists k :: 0 <= k < |users| && users[k].id == ApplicantRef(users, req)
    ensures |users| == 0 ==> ApplicantRef(users, req) == 1
    ensures req.applicantId != 0 && (exists k :: 0 <= k < |users| && users[k].id == req.applicantId) ==>
      ApplicantRef(users, req) == req.applicantId
  {
    if |users| > 0 {
      var found := if req.applicantId != 0 then UserIndex(users, req.applicantId)
                   else ApplicantByName(users, req);
      if found.Some? {
        assert users[found.value].id == ApplicantRef(users, req);
      } else {
        assert users[0].id == ApplicantRef(users, req);
      }
    }
  }

  /**
   * An application sent with a null applicant name and no id matches no
   * user by name, so it is filed under the first user, and its approval
   * task names the applicant "None"; a missing name reads "未知用户".
   */
  lemma NullApplicantName(users: seq<User>, plates: seq<Plate>, req: OutboundRequest)
    requires req.applicantId == 0
    ensures req.applicantName.Null? ==> ApplicantRef(users, req) == FirstUserIdOr1(users)
    ensures var d := ApprovalDescription(plates, req);
      && (req.applicantName.Null? ==> d[..|"申请人: None"|] == "申请人: None")
      && (req.applicantName.Absent? ==> d[..|"申请人: " + UnknownApplicant|] == "申请人: " + UnknownApplicant)
  {
    var d := ApprovalDescription(plates, req);
    var rest := "\n铝板: " + PlateInfo(plates, req.plateId) + "\n数量: " + IntString(req.quantity)
                + "\n备注: " + Render(GetOr(req.remark, "无"));
    assert d == ("申请人: " + Render(ApplicantName(req))) + rest;
  }

  /**
   * Id recorded as the approver: the user with the given id when an id is
   * sent, otherwise the first administrator; 1 when that user is missing.
   */
  function ApproverRef(users: seq<User>, approverId: int): int
  {
    var found := if approverId != 0 then UserIndex(users, approverId) else FirstAdmin(users);
    match found
    case Some(i) => users[i].id
    case None => 1
  }

  /** Without an explicit approver, the decision is attributed to an administrator when one exists. */
  lemma ApproverDefaultsToAdmin(users: seq<User>)
    requires exists k :: 0 <= k < |users| && users[k].role == "admin"
    ensures exists k :: 0 <= k < |users| && users[k].role == "admin" && users[k].id == ApproverRef(users, 0)
  {
    var k := FirstAdmin(users).value;
    assert users[k].role == "admin" && users[k].id == ApproverRef(users, 0);
  }

  /** "model - specification" of the plate, or "铝板ID:<id>" when the plate is missing. */
  function PlateInfo(plates: seq<Plate>, plateId: int): string
  {
    match PlateIndex(plates, plateId)
    case Some(k) => plates[k].model + " - " + plates[k].specification
    case None => "铝板ID:" + IntString(plateId)
  }

  /** Title of the approval task raised for an application. */
  function ApprovalTitle(plates: seq<Plate>, req: OutboundRequest): string
  {
    "出库审批: " + PlateInfo(plates, req.plateId) + " x " + IntString(req.quantity)
  }

  /**
   * Description of the approval task: applicant name, plate, quantity and
   * remark ("无" for a missing key); a null name or remark prints as "None".
   */
  function ApprovalDescription(plates: seq<Plate>, req: OutboundRequest): string
  {
    "申请人: " + Render(ApplicantName(req)) + "\n铝板: " + PlateInfo(plates, req.plateId)
    + "\n数量: " + IntString(req.quantity)
    + "\n备注: " + Render(GetOr(req.remark, "无"))
  }

  /** The pending record an accepted application appends. */
  function PendingRecord(users: seq<User>, outbounds: seq<OutboundRecord>, req: OutboundRequest): OutboundRecord
    requires StrictlyIncreasing(outbounds, OutboundKey)
  {
    OutboundRecord(NextKey(outbounds, OutboundKey), req.plateId, req.quantity,
                   ApplicantRef(users, req), None, Pending, None, RecordRemark(req))
  }

  /** The approval task an accepted application appends: assigned to the first administrator (else 1). */
  function ApprovalTask(users: seq<User>, plates: seq<Plate>, tasks: seq<DispatchTask>,
                        req: OutboundRequest, now: int): DispatchTask
    requires StrictlyIncreasing(tasks, TaskKey)
  {
    var admin := FirstAdmin(users);
    DispatchTask(NextKey(tasks, TaskKey), ApprovalTitle(plates, req),
                 Some(ApprovalDescription(plates, req)),
                 if admin.Some? then users[admin.value].id else 1,
                 ApplicantRef(users, req), TaskPending, PriorityHigh, None, now, None)
  }

  /** The title carries the requested quantity, readable back from its last digits. */
  lemma ApprovalTitleQuantity(plates: seq<Plate>, req: OutboundRequest)
    requires req.quantity > 0
    ensures var t := ApprovalTitle(plates, req);
      var d := Decimal(req.quantity);
      && |d| <= |t| && t[|t| - |d|..] == d && DigitsValue(t[|t| - |d|..]) == req.quantity
  {
    DecimalRoundTrip(req.quantity);
    var t := ApprovalTitle(plates, req);
    var d := Decimal(req.quantity);
    assert t == ("出库审批: " + PlateInfo(plates, req.plateId) + " x ") + d;
    assert t[|t| - |d|..] == d;
  }

  /**
   * Filing an application moves no stock: the ledger total and today's
   * outbound quantity stay as they are, while one more application and one
   * more open task are waiting.
   */
  lemma {:induction false} ApplicationMovesNoStock(lines: seq<InventoryLine>, inbounds: seq<InboundRecord>,
                                                   outbounds: seq<OutboundRecord>, tasks: seq<DispatchTask>,
                                                   r: OutboundRecord, t: DispatchTask, now: int)
    requires r.status == Pending && t.status == TaskPending
    ensures var before := GetOverview(lines, inbounds, outbounds, tasks, now);
      var after := GetOverview(lines, inbounds, outbounds + [r], tasks + [t], now);
      && after.totalInventory == before.totalInventory
      && after.todayOutbound == before.todayOutbound
      && after.todayInbound == before.todayInbound
      && after.pendingOutbound == before.pendingOutbound + 1
      && after.pendingTasks == before.pendingTasks + 1
  {
    SumAppend(outbounds, ApprovedSince(DayStart(now)), r);
    CountAppend(outbounds, IsPendingOutbound, r);
    CountAppend(tasks, IsOpenTask, t);
  }

  /**
   * POST /api/outbound: a positive request for a plate whose first
   * inventory line holds enough stock appends one pending record and one
   * approval task and changes nothing else; stock is only checked here,
   * not reserved.
   */
  method CreateOutbound(w: Warehouse, req: OutboundRequest, now: int) returns (o: Outcome)
    requires w.Valid()
    modifies w
    ensures w.Valid()
    ensures o in {Ok, Invalid, NotFound, Conflict}
    ensures o == Invalid <==> req.plateId == 0 || req.quantity <= 0
    ensures o == NotFound <==>
      req.plateId != 0 && req.quantity > 0 && FirstLineOfPlate(old(w.lines), req.plateId).None?
    ensures o == Conflict <==>
      && req.plateId != 0 && req.quantity > 0 && FirstLineOfPlate(old(w.lines), req.plateId).Some?
      && old(w.lines)[FirstLineOfPlate(old(w.lines), req.plateId).value].quantity < req.quantity
    ensures o != Ok ==> w.State() == old(w.State())
    ensures o == Ok ==>
      w.State() == old(w.State()).(outbounds := old(w.outbounds) + [PendingRecord(old(w.users), old(w.outbounds), req)],
                                   tasks := old(w.tasks) + [ApprovalTask(old(w.users), old(w.plates), old(w.tasks), req, now)])
  {
    if req.plateId == 0 || req.quantity == 0 {
      return Invalid;
    }
    if req.quantity <= 0 {
      return Invalid;
    }
    var line := FirstLineOfPlate(w.lines, req.plateId);
    if line.None? {
      return NotFound;
    }
    if w.lines[line.value].quantity < req.quantity {
      return Conflict;
    }
    var record := PendingRecord(w.users, w.outbounds, req);
    var task := ApprovalTask(w.users, w.plates, w.tasks, req, now);
    assert PlateExists(w.plates, w.lines[line.value].plateId);
    ValidAfterOutboundAppend(w.State(), record);
    w.outbounds := w.outbounds + [record];
    ValidAfterTaskAppend(w.State(), task);
    w.tasks := w.tasks + [task];
    return Ok;
  }

  /** Why an approval or rejection is refused, in the order the handler tests. */
  function DecisionGuard(s: Snapshot, outboundId: int): Outcome
  {
    match OutboundIndex(s.outbounds, outboundId)
    case None => NotFound
    case Some(k) => if s.outbounds[k].status != Pending then Conflict else Ok
  }

  /** The approved record: stamped with the approver and the outbound time. */
  function ApprovedRecord(r: OutboundRecord, approver: int, now: int): OutboundRecord
  {
    r.(status := Approved, approverId := Some(approver), outboundTime := Some(now))
  }

  /** The ledger after an approval: the plate's first line debited by the record's quantity. */
  function Debited(lines: seq<InventoryLine>, i: nat, quantity: int, now: int): seq<InventoryLine>
    requires i < |lines|
  {
    lines[i := lines[i].(quantity := lines[i].quantity - quantity, lastUpdated := now)]
  }

  /**
   * PUT /api/outbound/<id>/approve: a pending record whose plate's first
   * inventory line still holds its quantity becomes approved, and exactly
   * that line is debited; every refusal leaves the store unchanged.
   */
  method ApproveOutbound(w: Warehouse, outboundId: int, approverId: int, now: int) returns (o: Outcome)
    requires w.Valid()
    modifies w
    ensures w.Valid()
    ensures o in {Ok, NotFound, Conflict}
    ensures DecisionGuard(old(w.State()), outboundId) != Ok ==> o == DecisionGuard(old(w.State()), outboundId)
    ensures DecisionGuard(old(w.State()), outboundId) == Ok ==>
      var r := old(w.outbounds)[OutboundIndex(old(w.outbounds), outboundId).value];
      var line := FirstLineOfPlate(old(w.lines), r.plateId);
      && (line.None? ==> o == NotFound)
      && (line.Some? && old(w.lines)[line.value].quantity < r.quantity ==> o == Conflict)
      && (line.Some? && old(w.lines)[line.value].quantity >= r.quantity ==> o == Ok)
    ensures o != Ok ==> w.State() == old(w.State())
    ensures o == Ok ==>
      var k := OutboundIndex(old(w.outbounds), outboundId).value;
      var r := old(w.outbounds)[k];
      var i := FirstLineOfPlate(old(w.lines), r.plateId).value;
      w.State() == old(w.State()).(
        outbounds := old(w.outbounds)[k := ApprovedRecord(r, ApproverRef(old(w.users), approverId), now)],
        lines := Debited(old(w.lines), i, r.quantity, now))
  {
    var approver := ApproverRef(w.users, approverId);
    var found := OutboundIndex(w.outbounds, outboundId);
    if found.None? {
      return NotFound;
    }
    var k := found.value;
    var r := w.outbounds[k];
    if r.status != Pending {
      return Conflict;
    }
    var line := FirstLineOfPlate(w.lines, r.plateId);
    if line.None? {
      return NotFound;
    }
    var i := line.value;
    if w.lines[i].quantity < r.quantity {
      return Conflict;
    }
    CommitApproval(w, k, i, approver, now);
    return Ok;
  }

  /** The writes of an accepted approval: the record is stamped and line `i` is debited. */
  method CommitApproval(w: Warehouse, k: nat, i: nat, approver: int, now: int)
    requires w.Valid() && k < |w.outbounds| && i < |w.lines|
    modifies w
    ensures w.Valid()
    ensures w.State() == old(w.State()).(
      outbounds := old(w.outbounds)[k := ApprovedRecord(old(w.outbounds)[k], approver, now)],
      lines := Debited(old(w.lines), i, old(w.outbounds)[k].quantity, now))
  {
    var r := w.outbounds[k];
    ValidAfterOutboundUpdate(w.State(), k, ApprovedRecord(r, approver, now));
    w.outbounds := w.outbounds[k := ApprovedRecord(r, approver, now)];
    var debited := w.lines[i].(quantity := w.lines[i].quantity - r.quantity, lastUpdated := now);
    ValidAfterLineUpdate(w.State(), i, debited);
    w.lines := w.lines[i := debited];
  }

  /**
   * An approval takes exactly the approved quantity off the ledger and
   * never drives the debited line negative.
   */
  lemma ApprovalDebitsLedger(lines: seq<InventoryLine>, i: nat, quantity: int, now: int)
    requires i < |lines| && lines[i].quantity >= quantity
    ensures Debited(lines, i, quantity, now)[i].quantity >= 0
    ensures TotalInventory(Debited(lines, i, quantity, now)) == TotalInventory(lines) - quantity
  {
    SumUpdate(lines, LineQuantity, i, lines[i].(quantity := lines[i].quantity - quantity, lastUpdated := now));
  }

  /** An approval closes one pending application and adds its quantity to today's outbound figure. */
  lemma ApprovalClosesApplication(s: Snapshot, k: nat, approver: int, now: int)
    requires k < |s.outbounds| && s.outbounds[k].status == Pending
    ensures var outbounds' := s.outbounds[k := ApprovedRecord(s.outbounds[k], approver, now)];
      var before := GetOverview(s.lines, s.inbounds, s.outbounds, s.tasks, now);
      var after := GetOverview(s.lines, s.inbounds, outbounds', s.tasks, now);
      && after.pendingOutbound + 1 == before.pendingOutbound
      && after.todayOutbound == before.todayOutbound + s.outbounds[k].quantity
      && after.totalInventory == before.totalInventory
  {
    var approved := ApprovedRecord(s.outbounds[k], approver, now);
    SumUpdate(s.outbounds, ApprovedSince(DayStart(now)), k, approved);
    CountUpdate(s.outbounds, IsPendingOutbound, k, approved);
  }

  /** The remark of a rejected record: the reason is appended on a new line, or becomes the remark. */
  function RejectionRemark(remark: Option<string>, reason: Option<string>): (r: Option<string>)
  {
    if !Truthy(reason) then remark
    else if Truthy(remark) then Some(remark.value + "\n" + RejectionPrefix + reason.value)
    else Some(RejectionPrefix + reason.value)
  }

  /**
   * Rejection keeps the applicant's remark as a prefix when there is one,
   * and the reason, when given, ends the new remark.
   */
  lemma RejectionRemarkKeepsRemark(remark: Option<string>, reason: Option<string>)
    ensures var r := RejectionRemark(remark, reason);
      && (!Truthy(reason) ==> r == remark)
      && (Truthy(reason) ==> r.Some? && |reason.value| <= |r.value|
                             && r.value[|r.value| - |reason.value|..] == reason.value)
      && (Truthy(reason) && Truthy(remark) ==>
            |remark.value| < |r.value| && r.value[..|remark.value|] == remark.value
            && r.value[|remark.value|] == '\n')
      && (Truthy(reason) && !Truthy(remark) ==> r.value[..|RejectionPrefix|] == RejectionPrefix)
  {
    var r := RejectionRemark(remark, reason);
    if Truthy(reason) {
      if Truthy(remark) {
        assert r.value == (remark.value + "\n" + RejectionPrefix) + reason.value;
        assert r.value[..|remark.value|] == remark.value;
      } else {
        assert r.value == RejectionPrefix + reason.value;
      }
    }
  }

  /** The rejected record: stamped with the approver, no outbound time, reason folded into the remark. */
  function RejectedRecord(r: OutboundRecord, approver: int, reason: Option<string>): OutboundRecord
  {
    r.(status := Rejected, approverId := Some(approver), remark := RejectionRemark(r.remark, reason))
  }

  /**
   * PUT /api/outbound/<id>/reject: a pending record becomes rejected; the
   * ledger is not touched and every refusal leaves the store unchanged.
   */
  method RejectOutbound(w: Warehouse, outboundId: int, approverId: int, reason: Option<string>, now: int)
    returns (o: Outcome)
    requires w.Valid()
    modifies w
    ensures w.Valid()
    ensures o == DecisionGuard(old(w.State()), outboundId)
    ensures o != Ok ==> w.State() == old(w.State())
    ensures o == Ok ==>
      var k := OutboundIndex(old(w.outbounds), outboundId).value;
      w.State() == old(w.State()).(
        outbounds := old(w.outbounds)[k := RejectedRecord(old(w.outbounds)[k], ApproverRef(old(w.users), approverId), reason)])
  {
    var approver := ApproverRef(w.users, approverId);
    var found := OutboundIndex(w.outbounds, outboundId);
    if found.None? {
      return NotFound;
    }
    var k := found.value;
    if w.outbounds[k].status != Pending {
      return Conflict;
    }
    var rejected := RejectedRecord(w.outbounds[k], approver, reason);
    ValidAfterOutboundUpdate(w.State(), k, rejected);
    w.outbounds := w.outbounds[k := rejected];
    return Ok;
  }

  /** A rejection moves no stock and closes one pending application. */
  lemma RejectionMovesNoStock(s: Snapshot, k: nat, approver: int, reason: Option<string>, now: int)
    requires k < |s.outbounds| && s.outbounds[k].status == Pending
    ensures var outbounds' := s.outbounds[k := RejectedRecord(s.outbounds[k], approver, reason)];
      var before := GetOverview(s.lines, s.inbounds, s.outbounds, s.tasks, now);
      var after := GetOverview(s.lines, s.inbounds, outbounds', s.tasks, now);
      && after.totalInventory == before.totalInventory
      && after.todayOutbound == before.todayOutbound
      && after.pendingOutbound + 1 == before.pendingOutbound
  {
    var rejected := RejectedRecord(s.outbounds[k], approver, reason);
    SumUpdate(s.outbounds, ApprovedSince(DayStart(now)), k, rejected);
    CountUpdate(s.outbounds, IsPendingOutbound, k, rejected);
  }

  /** While ids strictly increase, a record's id finds that very record. */
  lemma OutboundIndexOfId(outbounds: seq<OutboundRecord>, k: nat)
    requires StrictlyIncreasing(outbounds, OutboundKey) && k < |outbounds|
    ensures OutboundIndex(outbounds, outbounds[k].id) == Some(k)
  {
    forall j | 0 <= j < k ensures outbounds[j].id != outbounds[k].id {
      assert OutboundKey(outbounds[j]) < OutboundKey(outbounds[k]);
    }
  }

  /**
   * Approved and rejected are terminal: a pending record can be decided,
   * and once either decision is recorded any further approval or rejection
   * of it is refused.
   */
  lemma DecisionIsFinal(s: Snapshot, k: nat, approver: int, reason: Option<string>, now: int)
    requires StrictlyIncreasing(s.outbounds, OutboundKey) && k < |s.outbounds| && s.outbounds[k].status == Pending
    ensures DecisionGuard(s, s.outbounds[k].id) == Ok
    ensures DecisionGuard(s.(outbounds := s.outbounds[k := ApprovedRecord(s.outbounds[k], approver, now)]),
                          s.outbounds[k].id) == Conflict
    ensures DecisionGuard(s.(outbounds := s.outbounds[k := RejectedRecord(s.outbounds[k], approver, reason)]),
                          s.outbounds[k].id) == Conflict
  {
    var approved := s.outbounds[k := ApprovedRecord(s.outbounds[k], approver, now)];
    var rejected := s.outbounds[k := RejectedRecord(s.outbounds[k], approver, reason)];
    OutboundIndexOfId(s.outbounds, k);
    UpdateKeepsIncreasing(s.outbounds, OutboundKey, k, ApprovedRecord(s.outbounds[k], approver, now));
    UpdateKeepsIncreasing(s.outbounds, OutboundKey, k, RejectedRecord(s.outbounds[k], approver, reason));
    OutboundIndexOfId(approved, k);
    OutboundIndexOfId(rejected, k);
  }
}
