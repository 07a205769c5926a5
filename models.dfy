/**
 * Record shapes of the warehouse ledger (users, plates, inventory lines,
 * inbound and outbound records, dispatch tasks, inventory checks), their
 * column defaults, the low-stock test and the inventory view.
 *
 * Timestamps are seconds on the naive local (UTC+8) clock the backend
 * stamps its rows with; the clock itself is a parameter of every handler.
 */
module Models {
  import opened Tables

  /** What a handler answers, by the HTTP status family it returns. */
  datatype Outcome =
    | Ok            // 200 / 201
    | Invalid       // 400: a missing or malformed field, a bad enum value
    | NotFound      // 404: a referenced row does not exist
    | Conflict      // 400: a state or guard refusal (stock, status, duplicates, references)
    | Forbidden     // 403: role or account status refuses the caller
    | Unauthorized  // 401: unknown user or wrong credential
    | Failed        // 500: the store raised (a unique constraint), nothing committed

  datatype User = User(
    id: int,
    username: string,
    credential: string,  // opaque stand-in for the password hash
    realName: string,
    role: string,
    status: string,
    createdAt: int)

  datatype Plate = Plate(
    id: int,
    model: string,
    specification: string,
    unit: string,
    supplier: Option<string>,
    remark: Option<string>)

  datatype InventoryLine = InventoryLine(
    id: int,
    plateId: int,
    quantity: int,
    location: Option<string>,
    batchNumber: Option<string>,
    warningThreshold: int,
    lastUpdated: int)

  datatype InboundRecord = InboundRecord(
    id: int,
    plateId: int,
    quantity: int,
    batchNumber: Option<string>,
    supplier: Option<string>,
    operatorId: int,
    inboundTime: int,
    remark: Option<string>)

  datatype OutboundStatus = Pending | Approved | Rejected

  datatype OutboundRecord = OutboundRecord(
    id: int,
    plateId: int,
    quantity: int,
    applicantId: int,
    approverId: Option<int>,
    status: OutboundStatus,
    outboundTime: Option<int>,
    remark: Option<string>)

  datatype DispatchTask = DispatchTask(
    id: int,
    title: string,
    description: Option<string>,
    assigneeId: int,
    creatorId: int,
    status: string,
    priority: string,
    dueDate: Option<int>,
    createdAt: int,
    completedAt: Option<int>)

  datatype InventoryCheck = InventoryCheck(
    id: int,
    inventoryId: int,
    expectedQuantity: int,
    actualQuantity: int,
    difference: int,
    checkerId: int,
    checkTime: int,
    remark: Option<string>)

  // Column defaults and the enumerated string values the handlers use.
  const DefaultUnit := "张"
  const DefaultWarningThreshold := 10
  const DefaultRole := "warehouse"
  const UserActive := "active"
  const TaskPending := "pending"
  const TaskInProgress := "in_progress"
  const TaskCompleted := "completed"
  const PriorityHigh := "high"
  const PriorityMedium := "medium"
  const PriorityLow := "low"

  /** A string field that is present and non-empty: Python's truthiness of an optional string. */
  predicate Truthy(s: Option<string>) { s.Some? && s.value != "" }

  /**
   * A request field where the handler tells a missing key (`data.get(k, d)`
   * yields the default `d`) from a key sent as JSON null (it yields None).
   */
  datatype Field<T> = Absent | Null | Given(value: T)

  /** `data.get(k, d)`: the default for a missing key, None for null, else the value. */
  function GetOr<T>(f: Field<T>, d: T): (r: Option<T>)
    ensures r.None? <==> f.Null?
    ensures f.Absent? ==> r == Some(d)
    ensures f.Given? ==> r == Some(f.value)
  {
    match f
    case Absent => Some(d)
    case Null => None
    case Given(v) => Some(v)
  }

  /** Python's rendering of an optional string inside an f-string: None prints as "None". */
  function Render(s: Option<string>): string
  {
    if s.Some? then s.value else "None"
  }

  /** An inventory line is low on stock when its quantity is at or below its threshold. */
  predicate IsLowStock(line: InventoryLine)
  {
    line.quantity <= line.warningThreshold
  }

  /** The serialised inventory line the API hands out. */
  datatype InventoryView = InventoryView(
    id: int,
    plateId: int,
    plateCode: string,
    specification: string,
    unit: string,
    supplier: Option<string>,
    totalQuantity: int,
    availableQuantity: int,
    reservedQuantity: int,
    defectiveQuantity: int,
    location: Option<string>,
    batchNumber: Option<string>,
    warningThreshold: int,
    updatedAt: int)

  /**
   * The view of a line, joined with its plate when the plate exists: there
   * is no reservation and no defective stock, so every quantity column is
   * the line's quantity or zero.
   */
  function View(line: InventoryLine, plate: Option<Plate>): (v: InventoryView)
    ensures v.totalQuantity == v.availableQuantity == line.quantity
    ensures v.reservedQuantity == 0 && v.defectiveQuantity == 0
    ensures plate.None? ==> v.plateCode == "" && v.specification == "" && v.unit == DefaultUnit
    ensures plate.Some? ==> v.plateCode == plate.value.model && v.unit == plate.value.unit
    ensures v.id == line.id && v.warningThreshold == line.warningThreshold
  {
    InventoryView(
      line.id, line.plateId,
      if plate.Some? then plate.value.model else "",
      if plate.Some? then plate.value.specification else "",
      if plate.Some? then plate.value.unit else DefaultUnit,
      if plate.Some? then plate.value.supplier else Some(""),
      line.quantity, line.quantity, 0, 0,
      line.location, line.batchNumber, line.warningThreshold, line.lastUpdated)
  }
}
