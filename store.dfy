/**
 * The warehouse state: the seven tables the handlers read and write, kept
 * in primary-key order, and the invariant every handler preserves.
 */
module Store {
  import opened Tables
  import opened Models

  function UserKey(u: User): int { u.id }
  function PlateKey(p: Plate): int { p.id }
  function LineKey(l: InventoryLine): int { l.id }
  function InboundKey(r: InboundRecord): int { r.id }
  function OutboundKey(r: OutboundRecord): int { r.id }
  function TaskKey(t: DispatchTask): int { t.id }
  function CheckKey(c: InventoryCheck): int { c.id }

  /** A snapshot of every table, to say what a handler left alone. */
  datatype Snapshot = Snapshot(
    users: seq<User>,
    plates: seq<Plate>,
    lines: seq<InventoryLine>,
    inbounds: seq<InboundRecord>,
    outbounds: seq<OutboundRecord>,
    tasks: seq<DispatchTask>,
    checks: seq<InventoryCheck>)

  /** The unique index on `users.username`. */
  ghost predicate UniqueUsernames(users: seq<User>)
  {
    forall i, j :: 0 <= i < j < |users| ==> users[i].username != users[j].username
  }

  /** No two plates share a (model, specification) pair. */
  ghost predicate UniquePlatePairs(plates: seq<Plate>)
  {
    forall i, j :: 0 <= i < j < |plates| ==>
      (plates[i].model, plates[i].specification) != (plates[j].model, plates[j].specification)
  }

  ghost predicate PlateExists(plates: seq<Plate>, id: int)
  {
    exists k :: 0 <= k < |plates| && plates[k].id == id
  }

  /** Every inventory line, inbound and outbound record names an existing plate. */
  ghost predicate RefersToPlates(plates: seq<Plate>, lines: seq<InventoryLine>,
                                 inbounds: seq<InboundRecord>, outbounds: seq<OutboundRecord>)
  {
    && (forall i :: 0 <= i < |lines| ==> PlateExists(plates, lines[i].plateId))
    && (forall i :: 0 <= i < |inbounds| ==> PlateExists(plates, inbounds[i].plateId))
    && (forall i :: 0 <= i < |outbounds| ==> PlateExists(plates, outbounds[i].plateId))
  }

  /**
   * What the approval workflow guarantees of an outbound record: pending has
   * no approver and no outbound time, approved has both, rejected has an
   * approver only.
   */
  ghost predicate OutboundWellFormed(r: OutboundRecord)
  {
    && r.quantity > 0
    && (r.status == Pending ==> r.approverId.None? && r.outboundTime.None?)
    && (r.status == Approved ==> r.approverId.Some? && r.outboundTime.Some?)
    && (r.status == Rejected ==> r.approverId.Some? && r.outboundTime.None?)
  }

  /** A completion time is only ever recorded on a completed task. */
  ghost predicate TaskWellFormed(t: DispatchTask)
  {
    t.completedAt.Some? ==> t.status == TaskCompleted
  }

  ghost predicate ValidState(s: Snapshot)
  {
    && StrictlyIncreasing(s.users, UserKey)
    && StrictlyIncreasing(s.plates, PlateKey)
    && StrictlyIncreasing(s.lines, LineKey)
    && StrictlyIncreasing(s.inbounds, InboundKey)
    && StrictlyIncreasing(s.outbounds, OutboundKey)
    && StrictlyIncreasing(s.tasks, TaskKey)
    && StrictlyIncreasing(s.checks, CheckKey)
    && UniqueUsernames(s.users)
    && UniquePlatePairs(s.plates)
    && RefersToPlates(s.plates, s.lines, s.inbounds, s.outbounds)
    && (forall i :: 0 <= i < |s.inbounds| ==> s.inbounds[i].quantity > 0)
    && (forall i :: 0 <= i < |s.outbounds| ==> OutboundWellFormed(s.outbounds[i]))
    && (forall i :: 0 <= i < |s.tasks| ==> TaskWellFormed(s.tasks[i]))
  }

  class Warehouse {
    var users: seq<User>
    var plates: seq<Plate>
    var lines: seq<InventoryLine>
    var inbounds: seq<InboundRecord>
    var outbounds: seq<OutboundRecord>
    var tasks: seq<DispatchTask>
    var checks: seq<InventoryCheck>

    ghost function State(): Snapshot
      reads this
    {
      Snapshot(users, plates, lines, inbounds, outbounds, tasks, checks)
    }

    ghost predicate Valid()
      reads this
    {
      ValidState(State())
    }

    /** A freshly created schema: every table empty. */
    constructor ()
      ensures Valid()
      ensures State() == Snapshot([], [], [], [], [], [], [])
    {
      users, plates, lines := [], [], [];
      inbounds, outbounds, tasks, checks := [], [], [], [];
    }
  }

  // Lookups by primary key and the other `.first()` queries the handlers share.

  function UserIndex(users: seq<User>, id: int): Option<nat>
  {
    FindFirst(users, (u: User) => u.id == id)
  }

  function PlateIndex(plates: seq<Plate>, id: int): Option<nat>
  {
    FindFirst(plates, (p: Plate) => p.id == id)
  }

  function LineIndex(lines: seq<InventoryLine>, id: int): Option<nat>
  {
    FindFirst(lines, (l: InventoryLine) => l.id == id)
  }

  function OutboundIndex(outbounds: seq<OutboundRecord>, id: int): Option<nat>
  {
    FindFirst(outbounds, (r: OutboundRecord) => r.id == id)
  }

  function TaskIndex(tasks: seq<DispatchTask>, id: int): Option<nat>
  {
    FindFirst(tasks, (t: DispatchTask) => t.id == id)
  }

  /** The first inventory line of a plate, whatever its batch. */
  function FirstLineOfPlate(lines: seq<InventoryLine>, plateId: int): Option<nat>
  {
    FindFirst(lines, (l: InventoryLine) => l.plateId == plateId)
  }

  /** The first user whose role is admin. */
  function FirstAdmin(users: seq<User>): Option<nat>
  {
    FindFirst(users, (u: User) => u.role == "admin")
  }

  /** The id of the first user, or the hard-coded fallback 1 on an empty table. */
  function FirstUserIdOr1(users: seq<User>): int
  {
    if |users| > 0 then users[0].id else 1
  }

  lemma PlateIndexExists(plates: seq<Plate>, id: int)
    ensures PlateIndex(plates, id).Some? <==> PlateExists(plates, id)
  {
  }

  /** Adding a plate keeps every existing reference resolvable. */
  lemma RefersAfterPlateAppend(s: Snapshot, p: Plate)
    requires RefersToPlates(s.plates, s.lines, s.inbounds, s.outbounds)
    ensures RefersToPlates(s.plates + [p], s.lines, s.inbounds, s.outbounds)
  {
    var ps := s.plates + [p];
    forall id | PlateExists(s.plates, id) ensures PlateExists(ps, id) {
      var k :| 0 <= k < |s.plates| && s.plates[k].id == id;
      assert ps[k].id == id;
    }
  }

  /** Rewriting a plate's other columns keeps every reference resolvable. */
  lemma RefersAfterPlateUpdate(s: Snapshot, k: nat, p: Plate)
    requires RefersToPlates(s.plates, s.lines, s.inbounds, s.outbounds)
    requires k < |s.plates| && p.id == s.plates[k].id
    ensures RefersToPlates(s.plates[k := p], s.lines, s.inbounds, s.outbounds)
  {
    var ps := s.plates[k := p];
    forall id | PlateExists(s.plates, id) ensures PlateExists(ps, id) {
      var j :| 0 <= j < |s.plates| && s.plates[j].id == id;
      assert ps[j].id == id;
    }
  }

  /** Deleting a plate nothing refers to keeps every reference resolvable. */
  lemma RefersAfterPlateRemove(s: Snapshot, k: nat)
    requires RefersToPlates(s.plates, s.lines, s.inbounds, s.outbounds)
    requires StrictlyIncreasing(s.plates, PlateKey)
    requires k < |s.plates|
    requires forall i :: 0 <= i < |s.lines| ==> s.lines[i].plateId != s.plates[k].id
    requires forall i :: 0 <= i < |s.inbounds| ==> s.inbounds[i].plateId != s.plates[k].id
    requires forall i :: 0 <= i < |s.outbounds| ==> s.outbounds[i].plateId != s.plates[k].id
    ensures RefersToPlates(RemoveAt(s.plates, k), s.lines, s.inbounds, s.outbounds)
  {
    var ps := RemoveAt(s.plates, k);
    forall id | PlateExists(s.plates, id) && id != s.plates[k].id ensures PlateExists(ps, id) {
      var j :| 0 <= j < |s.plates| && s.plates[j].id == id;
      assert j != k;
      if j < k { assert ps[j].id == id; } else { assert ps[j - 1].id == id; }
    }
  }

  // How each kind of write keeps the invariant.

  lemma ValidAfterUserAppend(s: Snapshot, u: User)
    requires ValidState(s)
    requires u.id == NextKey(s.users, UserKey)
    requires forall i :: 0 <= i < |s.users| ==> s.users[i].username != u.username
    ensures ValidState(s.(users := s.users + [u]))
  {
    AppendFreshKey(s.users, UserKey, u);
  }

  lemma ValidAfterUserUpdate(s: Snapshot, k: nat, u: User)
    requires ValidState(s) && k < |s.users|
    requires u.id == s.users[k].id && u.username == s.users[k].username
    ensures ValidState(s.(users := s.users[k := u]))
  {
    UpdateKeepsIncreasing(s.users, UserKey, k, u);
  }

  lemma ValidAfterUserRemove(s: Snapshot, k: nat)
    requires ValidState(s) && k < |s.users|
    ensures ValidState(s.(users := RemoveAt(s.users, k)))
  {
    RemoveKeepsIncreasing(s.users, UserKey, k);
  }

  lemma ValidAfterPlateAppend(s: Snapshot, p: Plate)
    requires ValidState(s)
    requires p.id == NextKey(s.plates, PlateKey)
    requires forall i :: 0 <= i < |s.plates| ==>
      (s.plates[i].model, s.plates[i].specification) != (p.model, p.specification)
    ensures ValidState(s.(plates := s.plates + [p]))
  {
    AppendFreshKey(s.plates, PlateKey, p);
    RefersAfterPlateAppend(s, p);
  }

  lemma ValidAfterPlateUpdate(s: Snapshot, k: nat, p: Plate)
    requires ValidState(s) && k < |s.plates| && p.id == s.plates[k].id
    requires forall i :: 0 <= i < |s.plates| && i != k ==>
      (s.plates[i].model, s.plates[i].specification) != (p.model, p.specification)
    ensures ValidState(s.(plates := s.plates[k := p]))
  {
    UpdateKeepsIncreasing(s.plates, PlateKey, k, p);
    RefersAfterPlateUpdate(s, k, p);
  }

  lemma ValidAfterPlateRemove(s: Snapshot, k: nat)
    requires ValidState(s) && k < |s.plates|
    requires forall i :: 0 <= i < |s.lines| ==> s.lines[i].plateId != s.plates[k].id
    requires forall i :: 0 <= i < |s.inbounds| ==> s.inbounds[i].plateId != s.plates[k].id
    requires forall i :: 0 <= i < |s.outbounds| ==> s.outbounds[i].plateId != s.plates[k].id
    ensures ValidState(s.(plates := RemoveAt(s.plates, k)))
  {
    RemoveKeepsIncreasing(s.plates, PlateKey, k);
    RefersAfterPlateRemove(s, k);
  }

  lemma ValidAfterLineAppend(s: Snapshot, l: InventoryLine)
    requires ValidState(s)
    requires l.id == NextKey(s.lines, LineKey) && PlateExists(s.plates, l.plateId)
    ensures ValidState(s.(lines := s.lines + [l]))
  {
    AppendFreshKey(s.lines, LineKey, l);
  }

  lemma ValidAfterLineUpdate(s: Snapshot, k: nat, l: InventoryLine)
    requires ValidState(s) && k < |s.lines|
    requires l.id == s.lines[k].id && l.plateId == s.lines[k].plateId
    ensures ValidState(s.(lines := s.lines[k := l]))
  {
    UpdateKeepsIncreasing(s.lines, LineKey, k, l);
  }

  lemma ValidAfterInboundAppend(s: Snapshot, r: InboundRecord)
    requires ValidState(s)
    requires r.id == NextKey(s.inbounds, InboundKey) && PlateExists(s.plates, r.plateId) && r.quantity > 0
    ensures ValidState(s.(inbounds := s.inbounds + [r]))
  {
    AppendFreshKey(s.inbounds, InboundKey, r);
  }

  lemma ValidAfterOutboundAppend(s: Snapshot, r: OutboundRecord)
    requires ValidState(s)
    requires r.id == NextKey(s.outbounds, OutboundKey) && PlateExists(s.plates, r.plateId)
    requires OutboundWellFormed(r)
    ensures ValidState(s.(outbounds := s.outbounds + [r]))
  {
    AppendFreshKey(s.outbounds, OutboundKey, r);
  }

  lemma ValidAfterOutboundUpdate(s: Snapshot, k: nat, r: OutboundRecord)
    requires ValidState(s) && k < |s.outbounds|
    requires r.id == s.outbounds[k].id && r.plateId == s.outbounds[k].plateId
    requires OutboundWellFormed(r)
    ensures ValidState(s.(outbounds := s.outbounds[k := r]))
  {
    UpdateKeepsIncreasing(s.outbounds, OutboundKey, k, r);
  }

  lemma ValidAfterTaskAppend(s: Snapshot, t: DispatchTask)
    requires ValidState(s)
    requires t.id == NextKey(s.tasks, TaskKey) && TaskWellFormed(t)
    ensures ValidState(s.(tasks := s.tasks + [t]))
  {
    AppendFreshKey(s.tasks, TaskKey, t);
  }

  lemma ValidAfterTaskUpdate(s: Snapshot, k: nat, t: DispatchTask)
    requires ValidState(s) && k < |s.tasks|
    requires t.id == s.tasks[k].id && TaskWellFormed(t)
    ensures ValidState(s.(tasks := s.tasks[k := t]))
  {
    UpdateKeepsIncreasing(s.tasks, TaskKey, k, t);
  }

  lemma ValidAfterTaskRemove(s: Snapshot, k: nat)
    requires ValidState(s) && k < |s.tasks|
    ensures ValidState(s.(tasks := RemoveAt(s.tasks, k)))
  {
    RemoveKeepsIncreasing(s.tasks, TaskKey, k);
  }

  lemma ValidAfterCheckAppend(s: Snapshot, c: InventoryCheck)
    requires ValidState(s)
    requires c.id == NextKey(s.checks, CheckKey)
    ensures ValidState(s.(checks := s.checks + [c]))
  {
    AppendFreshKey(s.checks, CheckKey, c);
  }
}
