# Aluminium-plate warehouse ledger in Dafny

This project models the Flask backend of an aluminium-plate warehouse. The backend keeps seven
tables: users, plates, inventory lines, inbound records, outbound records, dispatch tasks and
inventory checks. Each HTTP handler is one transaction against those tables. It either refuses
and changes nothing, or applies a fixed set of writes and commits them.

The model treats the whole store as one sequential state machine:

- `Store.Warehouse` is a class with one `seq` field per table. Tables are kept in id order. A new
  row gets the largest id plus one, as SQLite does.
- `Store.ValidState` is the invariant that every handler keeps:
  - ids strictly increase in every table;
  - usernames are unique;
  - (model, specification) pairs are unique;
  - every inventory line, inbound record and outbound record refers to an existing plate;
  - inbound quantities are positive;
  - an outbound record's approver and outbound time match its status.
- Every handler is a method on the warehouse (`modifies w`). It returns an `Outcome`, named after
  the HTTP status family the handler answers with: `Ok`, `Invalid`, `NotFound`, `Conflict`,
  `Forbidden`, `Unauthorized` or `Failed`.
- Each handler states:
  - exactly which inputs lead to each refusal;
  - that a refusal leaves the whole state as it was;
  - the complete new state on success, as a function of the old state.
- Read-only endpoints are functions over the tables: the dashboard overview, the inventory and
  warning lists, and the grouped statistics. The trend endpoint is a method. It merges two
  per-period series in two loops over a dictionary and then sorts the rows, as the handler does.
- The clock is an explicit `now` parameter. So are the caller's identity, the generated password
  and the database's `strftime`.

Request bodies are datatypes. An absent or `null` field is `None`, except where the handler
reads a missing key and a `null` differently (`data.get(k, default)` followed by a test or a
rendering of the value). Such a field is a `Models.Field`: `Absent`, `Null` or `Given(v)`. That
covers the task priority and the outbound applicant name and remark. A numeric field that the
handler tests for truthiness is `0` when absent. A string tested for truthiness counts only when
it is non-empty (`Models.Truthy`). Where the handler stores an explicit `null`, the ORM skips the
column on insert and the column default applies. That is why `null` behaves like an absent field
for the unit, the warning threshold, the role, the user status and the task status.

Where the design description and the code disagree, the model follows the code:

- An outbound application does not provision an unknown applicant. It falls back to the first
  user (`Outbound.ApplicantRef`).
- A stock-take may set a negative quantity, so non-negative stock is not a ledger invariant.
  Approval still never makes the debited line negative.
- User statuses include `disabled` (`backend/app/routes/auth.py:257`). Registration and the
  profile update store any role or status they are sent.
- Creating a task stores the requested status without checking it. Only the status endpoint
  validates statuses.

## Model

| member | source | states |
|---|---|---|
| Models.View | backend/app/models.py:107-125 | the serialised line reports total = available = quantity and reserved = defective = 0; a missing plate gives empty code and specification and the unit "张" |
| Tables.FindFirst | backend/app/routes/inbound.py:36-41 | `.first()`: the result is the first row matching the filter; no earlier row matches; None iff no row matches |
| Tables.NextKey | backend/app/models.py:14 | a new primary key is larger than every existing key |
| Tables.Filter | backend/app/routes/inventory.py:66-68 | a WHERE filter keeps exactly the matching rows; its length is their count |
| Tables.SumOfFilter | backend/app/routes/statistics.py:29-42 | a filtered SUM: a column that is zero outside a filter sums to the sum over the filtered rows |
| Tables.SortBy | backend/app/routes/inventory.py:70 | ORDER BY returns a permutation of its input, in non-decreasing key order |
| Inbound.ProvisionedUsername | backend/app/routes/inbound.py:45 | the derived username has the name's length, no spaces and no ASCII capitals; each space becomes `_` and each other character is lower-cased |
| Inbound.LowerAscii | backend/app/routes/inbound.py:45 | only `A`–`Z` change, each to its lower-case letter |
| Inbound.WithOperatorResolves | backend/app/routes/inbound.py:36-52 | resolving an operator adds at most one user and keeps the existing ones; afterwards the name finds a user carrying the recorded operator id |
| Inbound.ResolveOperator | backend/app/routes/inbound.py:36-52 | a matching display name or username adds no user; otherwise one active warehouse user is provisioned; resolution fails with nothing written iff the derived username is taken |
| Inbound.RestockedTotal | backend/app/routes/inbound.py:67-85 | a restock raises the ledger total by exactly the received quantity |
| Inbound.RestockedLines | backend/app/routes/inbound.py:67-85 | with a batch number that has a (plate, batch) line, that line alone gains the quantity; otherwise, including when the batch is absent, every line is kept and one new line of the plate, batch and location is appended |
| Inbound.Restock | backend/app/routes/inbound.py:67-85 | the ledger becomes the restocked ledger; no other table changes |
| Inbound.CreateInbound | backend/app/routes/inbound.py:14-100 | missing plate or quantity, or quantity ≤ 0, is Invalid; an unknown plate is NotFound; a clashing provisioned username is Failed; each refusal changes nothing; success appends exactly one record carrying plate, quantity, batch, supplier, operator and time, resolves the operator and restocks the ledger |
| Inbound.InboundCountsToday | backend/app/routes/statistics.py:29-33 | a record stamped now raises today's inbound figure by its quantity |
| Outbound.ApplicantRefResolves | backend/app/routes/outbound.py:30-44 | the applicant is an existing user whenever one exists (1 on an empty table); an existing explicit applicant id is used as given |
| Outbound.ApproverDefaultsToAdmin | backend/app/routes/outbound.py:153-162 | without an approver id the decision is attributed to an administrator when one exists |
| Outbound.ApprovalTitleQuantity | backend/app/routes/outbound.py:70 | the task title ends with the decimal quantity, which reads back as the requested quantity |
| Outbound.ApplicationMovesNoStock | backend/app/routes/outbound.py:56-80 | filing an application leaves the ledger total and today's figures unchanged and adds one pending application and one open task |
| Outbound.CreateOutbound | backend/app/routes/outbound.py:14-85 | missing fields or quantity ≤ 0 is Invalid; no line for the plate is NotFound; a first line holding less than requested is Conflict; each refusal changes nothing; success appends one pending record (no approver, no outbound time, the remark or none) and one high-priority pending task for the first administrator (else 1), filed under the resolved applicant, and nothing else |
| Outbound.NullApplicantName | backend/app/routes/outbound.py:25-71 | with no applicant id, a `null` applicant name matches no user (display name and username are NOT NULL), so the application falls to the first user (else 1) and the task text reads "申请人: None"; a missing name reads "申请人: 未知用户" |
| Outbound.ApproveOutbound | backend/app/routes/outbound.py:148-191 | an unknown record is NotFound; a decided record is Conflict; a missing or short first line is NotFound or Conflict; each refusal changes nothing; success marks the record approved with approver and time and debits exactly that line by the record's quantity |
| Outbound.ApprovalDebitsLedger | backend/app/routes/outbound.py:171-183 | an approval never drives the debited line below 0 and lowers the ledger total by exactly the approved quantity |
| Outbound.ApprovalClosesApplication | backend/app/routes/outbound.py:178-180 | an approval removes one pending application and adds its quantity to today's outbound figure |
| Outbound.RejectOutbound | backend/app/routes/outbound.py:194-230 | the outcome is NotFound for an unknown record and Conflict for a decided one, with no change; success marks the record rejected with the approver and touches nothing else |
| Outbound.RejectionRemarkKeepsRemark | backend/app/routes/outbound.py:220-224 | a given reason ends the new remark; an existing remark is kept as its prefix before a newline; otherwise the remark starts with "拒绝原因: " |
| Outbound.RejectionMovesNoStock | backend/app/routes/outbound.py:217-224 | a rejection keeps the ledger total and today's outbound figure and removes one pending application |
| Outbound.OutboundIndexOfId | backend/app/routes/outbound.py:164 | looking a record up by its own id finds that record |
| Outbound.DecisionIsFinal | backend/app/routes/outbound.py:168-169 | a pending record may be decided; once approved or rejected, any further approval or rejection is Conflict, so both states are terminal |
| Inventory.JoinKeepsExisting | backend/app/routes/inventory.py:22 | the join with plates keeps a line iff its plate exists |
| Inventory.SortedFilterMembers | backend/app/routes/inventory.py:33-36 | sorting the filtered lines keeps exactly the lines that pass the filter |
| Inventory.ListInventoriesSpec | backend/app/routes/inventory.py:11-46 | the list holds exactly the lines whose plate exists (with the flag, only low-stock lines), most recently updated first, each through its view; with the flag every view has total ≤ threshold |
| Inventory.WarningsSpec | backend/app/routes/inventory.py:60-80 | the warnings are exactly the low-stock lines whose plate exists, each as often as the join yields it, in ascending quantity |
| Inventory.WarningsMatchOverview | backend/app/routes/inventory.py:66-68 | while every line has its plate, the warning count equals the overview's low-stock count |
| Inventory.ReconcileMovesTotalByDifference | backend/app/routes/inventory.py:95-112 | expected is the quantity before the check; expected + difference = actual = the new quantity; the ledger total moves by the difference, whatever its sign |
| Inventory.CreateInventoryCheck | backend/app/routes/inventory.py:83-119 | a missing line id or a null count is Invalid; an unknown line is NotFound; each refusal changes nothing; success appends one check record by the first user (else 1) and sets only that line's quantity to the count |
| Tasks.CreatedTaskIsSound | backend/app/routes/tasks.py:18-45 | an accepted task names an existing assignee and creator, has a valid priority (medium when the key is missing, the sent one otherwise), status pending by default, no completion time and a fresh id |
| Tasks.ExplicitNullPriorityIsRefused | backend/app/routes/tasks.py:29-31 | a request whose priority is `null` never creates a task; once title, people and users pass, it is Invalid |
| Tasks.CreateTask | backend/app/routes/tasks.py:13-56 | missing title, assignee or creator is Invalid; an unknown assignee or creator is NotFound; a priority that is `null` or not high, medium or low is Invalid, as is a bad due date; each refusal changes nothing; success appends one task |
| Tasks.PatchedSpec | backend/app/routes/tasks.py:124-145 | an update never touches status, completion time, people or creation time; an absent due date is kept and an empty one clears it |
| Tasks.UpdateTask | backend/app/routes/tasks.py:113-151 | an unknown task is NotFound; an empty body, an unknown priority or a malformed due date is Invalid; each refusal changes nothing; success replaces only that task by its patched form |
| Tasks.UpdateTaskStatus | backend/app/routes/tasks.py:154-183 | Ok iff the task exists and the status is pending, in_progress or completed, from any prior status; the completion time is set iff the new status is completed; refusals change nothing |
| Tasks.StatusChangeMovesOpenCount | backend/app/routes/tasks.py:173-176 | completing an open task lowers the open-task count by one; reopening a completed one raises it by one |
| Tasks.AssignTask | backend/app/routes/tasks.py:186-210 | an unknown task or an unknown user is NotFound; a missing assignee is Invalid; success changes only the assignee, to an existing user |
| Tasks.DeleteTask | backend/app/routes/tasks.py:213-223 | an unknown task is NotFound with no change; success removes exactly that task, and its id no longer resolves |
| Plates.CreatePlate | backend/app/routes/plates.py:91-122 | a role other than admin or warehouse is Forbidden; missing model or specification is Invalid; an existing pair is Conflict; each refusal changes nothing; success appends one plate (unit "张" by default), found afterwards by its pair |
| Plates.PairUnchangedWithoutModelOrSpec | backend/app/routes/plates.py:154-162 | an update that sends neither model nor specification keeps the pair, so it cannot collide |
| Plates.UpdatePlate | backend/app/routes/plates.py:125-166 | Forbidden, NotFound, and Conflict when a sent model or specification makes another plate's pair; refusals change nothing; success replaces only that plate, and pairs stay unique |
| Plates.DeletePlate | backend/app/routes/plates.py:169-192 | Forbidden, NotFound, and Conflict iff an inventory line, inbound record or outbound record refers to the plate; success removes exactly that plate |
| Auth.Login | backend/app/routes/auth.py:55-77 | the answer is Ok, Invalid, Unauthorized or Forbidden, and carries a user id exactly when it is Ok; Invalid iff the username or password is missing or empty; Ok names an active user with that username and credential |
| Auth.LoginRefusals | backend/app/routes/auth.py:62-69 | with unique usernames and both fields given: Unauthorized iff no user of that name has that credential, so an unknown name and a wrong password are answered alike; Forbidden iff the user of that name has that credential but is not active |
| Auth.LoginSucceedsExactlyForActiveMatch | backend/app/routes/auth.py:62-69 | with unique usernames, login succeeds iff the user of that name has that credential and is active |
| Auth.InactiveUserCannotLogin | backend/app/routes/auth.py:68-69 | a user whose status is not active never logs in |
| Auth.Register | backend/app/routes/auth.py:93-118 | missing username, password or real name is Invalid; a taken username is Conflict; refusals change nothing; success appends one user (role warehouse, status active by default), who can then log in |
| Auth.UpdateUser | backend/app/routes/auth.py:162-190 | an unknown user is NotFound; only non-empty real name, role, status and password overwrite; the username never changes |
| Auth.ResetPassword | backend/app/routes/auth.py:227-242 | an unknown user is NotFound; otherwise only that user's credential changes, to the generated one |
| Auth.UpdateUserStatus | backend/app/routes/auth.py:245-262 | an unknown user is NotFound; a status outside active, inactive and disabled is Invalid with no change; otherwise only the status changes |
| Auth.DeleteUser | backend/app/routes/auth.py:193-224 | deleting oneself, the admin account or a user with inbound records, applications or tasks is Conflict; an unknown user is NotFound; refusals change nothing; success removes exactly that user |
| Auth.RemovedUserIsGone | backend/app/routes/auth.py:221-222 | after the removal an id names a user iff it did before and was not the removed user's |
| Auth.DeleteKeepsActivityReferences | backend/app/routes/auth.py:210-219 | a deletion the guard allows leaves every operator, applicant, assignee and creator reference that resolved still resolving |
| Statistics.DayStart | backend/app/routes/statistics.py:22-23 | the start of today is at most now and less than a day before it |
| Statistics.GetOverview | backend/app/routes/statistics.py:19-63 | total inventory is the sum of quantities (0 when empty); today's inbound figure is the summed quantity of the records that arrived since midnight of `now`; today's outbound figure is the summed quantity of the approved records with an outbound time since that midnight; low-stock, pending-application and open-task figures are the sizes of the matching filters |
| Statistics.TodayInboundCountsOnlyToday | backend/app/routes/statistics.py:22-33 | a new inbound record from before today's midnight leaves today's inbound figure unchanged; one from today raises it by its quantity |
| Statistics.TodayOutboundCountsOnlyApprovedToday | backend/app/routes/statistics.py:22-42 | a new outbound record that is not approved, has no outbound time or was dispatched before today's midnight leaves today's outbound figure unchanged; an approved one dispatched today raises it by its quantity |
| Statistics.TodayOutboundOnlyApproved | backend/app/routes/statistics.py:35-42 | in any table, replacing a record that is not approved by another that is not approved, or deleting it, leaves today's outbound figure unchanged |
| Statistics.GroupByIsPerGroupSum | backend/app/routes/statistics.py:73-109 | a group exists iff some row falls in it; its total is the sum and its count the number of its rows |
| Statistics.GroupKeyHasRow | backend/app/routes/statistics.py:80-81 | every group is the group of some row |
| Statistics.ByLocationSpec | backend/app/routes/statistics.py:93-109 | a location appears iff some line is stored there, with the sum of those lines' quantities and their number |
| Statistics.ByLocationSkipsUnlocated | backend/app/routes/statistics.py:97-98 | a line without a location changes no location group |
| Statistics.ByModel | backend/app/routes/statistics.py:73-91 | the by-model groups are exactly the plate groups of the join |
| Statistics.ByModelSpec | backend/app/routes/statistics.py:73-91 | a plate appears iff it exists and has a line, with its model, specification, summed quantity and line count |
| Statistics.TrendWindow | backend/app/routes/statistics.py:128-140 | a window exists iff both dates are given and well formed and the start is not after 23:59:59 of the end date |
| Statistics.PeriodFormat | backend/app/routes/statistics.py:126-151 | the grouping is accepted iff it is absent, day, week or month |
| Statistics.MergeTrend | backend/app/routes/statistics.py:178-197 | the merged periods are exactly the non-empty periods of either series, each carrying both sums (0 where a series has none) |
| Statistics.Least | backend/app/routes/statistics.py:199 | the chosen period precedes every other remaining one |
| Statistics.SortedStep | backend/app/routes/statistics.py:199 | taking the least remaining period next keeps the rows sorted and complete so far |
| Statistics.SortedTrend | backend/app/routes/statistics.py:199 | the rows are the merged rows, each period present, in strictly ascending period order |
| Statistics.GetTrend | backend/app/routes/statistics.py:121-205 | Invalid iff the window or the grouping is rejected, with no rows; otherwise the rows are the trend of the in-window inbound and approved outbound series |
| Statistics.AscendingSamePeriods | backend/app/routes/statistics.py:199 | two ascending row lists over the same periods have them in the same places |
| Statistics.TrendIsDetermined | backend/app/routes/statistics.py:178-199 | the trend is unique: the visiting order of query rows and dictionary entries does not matter |
| Statistics.TrendRowIsPeriodSum | backend/app/routes/statistics.py:153-197 | a row's inbound figure is the sum of in-window inbound quantities of its period, its outbound figure the sum of in-window approved quantities; a period with no such outbound shows 0 outbound, and vice versa |
| Statistics.TrendIgnoresUnapproved | backend/app/routes/statistics.py:165-176 | a pending or rejected record never changes the outbound series |
| Text.DecimalRoundTrip | backend/app/routes/outbound.py:70-71 | the decimal rendering of a quantity reads back as that quantity |
| Text.StrLessIrreflexive | backend/app/routes/statistics.py:199 | no period sorts before itself |
| Text.StrLessTransitive | backend/app/routes/statistics.py:199 | string order is transitive |
| Text.StrLessTotal | backend/app/routes/statistics.py:199 | any two distinct periods are ordered |
| Text.StrLessAsymmetric | backend/app/routes/statistics.py:199 | two strings never precede each other |
| Text.StrLessEqAntisymmetric | backend/app/routes/statistics.py:199 | strings that are each at most the other are equal |

## Left out

- JWT issuance and checking: the caller's id and role are parameters.
- Password hashing and its check: the credential is an opaque string that login compares for
  equality.
- The random password in a reset: the generated password is a parameter.
- The spreadsheet export of inbound records: file output.
- List and detail endpoints other than the inventory and warning lists. Pagination, text search
  (`contains`, `ilike`) and the ORDER BY on those endpoints are left out too. So is the order
  among rows with equal sort keys, where the database's order is unspecified.
- Date parsing and `strftime` period keys: dates arrive parsed or marked malformed. The period
  key is a parameter of the trend.
- The clock: `now` is a parameter, and "today" is the day of `now` on the same naive clock.
- Concurrency, such as two approvals of the same stock at once: the operations are modelled
  strictly sequentially.
- Failures of the database other than the unique username clash on inbound are not modelled.
  In particular, a body that is not a JSON object makes several handlers fail with a 500.
- Inbound.OperatorName: an explicit `null` operator name raises in the handler (500). The model
  treats it like an absent name.
- Outbound.ApplicantRef and Outbound.ApproverRef: ids that do not convert to an integer are left
  out. Such a request falls back to the name lookup or the first administrator.
- Inventory.CreateInventoryCheck: the count arrives as an integer. The handler's `int()`
  conversion is left out: it accepts a numeric string such as "5" and truncates a fraction such as
  5.7 to 5, and text it cannot convert raises (500).
- Inbound.LowerAscii: Python's `lower()` also lower-cases non-ASCII letters. The model changes
  only ASCII capitals.
- Auth.DeleteUser: a deleted user's approver and checker references are left as they are. What
  the ORM does to them on delete is not modelled: it may null the approver or refuse the NOT NULL
  checker column.
- Statistics.TrendWindow: the calendar arithmetic of the end date is reduced to adding 86399
  seconds to its midnight.
- Plates.UpdatePlate: an update with no body raises in the handler (500). The model always takes
  a patch.
- Application wiring, configuration, database initialisation scripts and the front end.
