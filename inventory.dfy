/**
 * Inventory routes: the stock-take (reconciliation) that records expected,
 * actual and difference and then overwrites a line's quantity, and the
 * inventory list and warning list with their low-stock filter.
 */
module Inventory {
  import opened Tables
  import opened Models
  import opened Store
  import opened Statistics

  /** The plate a line joins with, if it exists. */
  function PlateOf(plates: seq<Plate>, l: InventoryLine): Option<Plate>
  {
    match PlateIndex(plates, l.plateId)
    case Some(k) => Some(plates[k])
    case None => None
  }

  /** The inner join with plates keeps a line only when its plate exists. */
  function HasPlate(plates: seq<Plate>): InventoryLine -> bool
  {
    (l: InventoryLine) => PlateIndex(plates, l.plateId).Some?
  }

  function LowStockJoined(plates: seq<Plate>): InventoryLine -> bool
  {
    (l: InventoryLine) => IsLowStock(l) && HasPlate(plates)(l)
  }

  /** Most recently updated first. */
  function RecencyKey(l: InventoryLine): int { -l.lastUpdated }

  function ViewsOf(plates: seq<Plate>, rows: seq<InventoryLine>): (r: seq<InventoryView>)
  {
    seq(|rows|, i requires 0 <= i < |rows| => View(rows[i], PlateOf(plates, rows[i])))
  }

  /**
   * GET /api/inventory: lines joined with their plate, most recently
   * updated first; with the low-stock flag only lines at or below their
   * threshold.
   */
  function ListInventories(plates: seq<Plate>, lines: seq<InventoryLine>, lowStock: bool): seq<InventoryView>
  {
    var rows := Filter(lines, if lowStock then LowStockJoined(plates) else HasPlate(plates));
    ViewsOf(plates, SortBy(rows, RecencyKey))
  }

  /** The lines of the list, in order: a permutation of the joined (and filtered) lines. */
  function ListedRows(plates: seq<Plate>, lines: seq<InventoryLine>, lowStock: bool): seq<InventoryLine>
  {
    SortBy(Filter(lines, if lowStock then LowStockJoined(plates) else HasPlate(plates)), RecencyKey)
  }

  /** A line survives the join exactly when its plate exists. */
  lemma JoinKeepsExisting(plates: seq<Plate>, l: InventoryLine)
    ensures HasPlate(plates)(l) <==> PlateExists(plates, l.plateId)
    ensures LowStockJoined(plates)(l) <==> IsLowStock(l) && PlateExists(plates, l.plateId)
  {
    PlateIndexExists(plates, l.plateId);
  }

  /** Sorting keeps exactly the filtered rows, each as often. */
  lemma SortedFilterMembers(lines: seq<InventoryLine>, p: InventoryLine -> bool, key: InventoryLine -> int,
                            l: InventoryLine)
    ensures l in SortBy(Filter(lines, p), key) <==> l in lines && p(l)
  {
    var f := Filter(lines, p);
    var r := SortBy(f, key);
    assert l in r <==> l in multiset(r);
    assert l in f <==> l in multiset(f);
  }

  /**
   * The list shows exactly the lines whose plate exists (and, with the
   * flag, that are low on stock), newest update first, each through its
   * view; under the flag every view reports a total at or below its
   * threshold.
   */
  lemma ListInventoriesSpec(plates: seq<Plate>, lines: seq<InventoryLine>, lowStock: bool)
    ensures var rows := ListedRows(plates, lines, lowStock);
      && (forall l :: l in rows <==> l in lines && PlateExists(plates, l.plateId) && (lowStock ==> IsLowStock(l)))
      && (forall i, j :: 0 <= i < j < |rows| ==> rows[i].lastUpdated >= rows[j].lastUpdated)
    ensures var rows := ListedRows(plates, lines, lowStock);
      var r := ListInventories(plates, lines, lowStock);
      && |r| == |rows|
      && (forall i :: 0 <= i < |r| ==> r[i] == View(rows[i], PlateOf(plates, rows[i])))
      && (lowStock ==> forall i :: 0 <= i < |r| ==> r[i].totalQuantity <= r[i].warningThreshold)
  {
    var p := if lowStock then LowStockJoined(plates) else HasPlate(plates);
    var rows := ListedRows(plates, lines, lowStock);
    forall l: InventoryLine
      ensures l in rows <==> l in lines && PlateExists(plates, l.plateId) && (lowStock ==> IsLowStock(l))
    {
      SortedFilterMembers(lines, p, RecencyKey, l);
      JoinKeepsExisting(plates, l);
    }
    forall i, j | 0 <= i < j < |rows| ensures rows[i].lastUpdated >= rows[j].lastUpdated {
      assert RecencyKey(rows[i]) <= RecencyKey(rows[j]);
    }
    var r := ListInventories(plates, lines, lowStock);
    assert r == ViewsOf(plates, rows);
    if lowStock {
      forall i | 0 <= i < |r| ensures r[i].totalQuantity <= r[i].warningThreshold {
        assert rows[i] in rows;
        assert r[i] == View(rows[i], PlateOf(plates, rows[i]));
      }
    }
  }

  /**
   * GET /api/inventory/warnings: the low-stock lines joined with their
   * plate, in ascending order of quantity.
   */
  function Warnings(plates: seq<Plate>, lines: seq<InventoryLine>): seq<InventoryLine>
  {
    SortBy(Filter(lines, LowStockJoined(plates)), LineQuantity)
  }

  /**
   * The warning list holds exactly the low-stock lines whose plate exists,
   * each as often as the join yields it, emptiest first.
   */
  lemma WarningsSpec(plates: seq<Plate>, lines: seq<InventoryLine>)
    ensures var r := Warnings(plates, lines);
      && (forall l :: l in r <==> l in lines && IsLowStock(l) && PlateExists(plates, l.plateId))
      && (forall i, j :: 0 <= i < j < |r| ==> r[i].quantity <= r[j].quantity)
      && multiset(r) == multiset(Filter(lines, LowStockJoined(plates)))
      && |r| == CountOf(lines, LowStockJoined(plates))
  {
    var f := Filter(lines, LowStockJoined(plates));
    var r := Warnings(plates, lines);
    forall l: InventoryLine ensures l in r <==> l in lines && IsLowStock(l) && PlateExists(plates, l.plateId) {
      SortedFilterMembers(lines, LowStockJoined(plates), LineQuantity, l);
      JoinKeepsExisting(plates, l);
    }
    forall i, j | 0 <= i < j < |r| ensures r[i].quantity <= r[j].quantity {
      assert LineQuantity(r[i]) <= LineQuantity(r[j]);
    }
    assert |r| == |multiset(r)| == |multiset(f)| == |f|;
  }

  /**
   * While every line refers to an existing plate, the warning list is as
   * long as the dashboard's low-stock count: the join drops nothing.
   */
  lemma WarningsMatchOverview(plates: seq<Plate>, lines: seq<InventoryLine>, inbounds: seq<InboundRecord>,
                              outbounds: seq<OutboundRecord>, tasks: seq<DispatchTask>, now: int)
    requires forall i :: 0 <= i < |lines| ==> PlateExists(plates, lines[i].plateId)
    ensures |Warnings(plates, lines)| == GetOverview(lines, inbounds, outbounds, tasks, now).lowStockWarning
  {
    WarningsSpec(plates, lines);
    forall i | 0 <= i < |lines| ensures LowStockJoined(plates)(lines[i]) == IsLowStock(lines[i]) {
      JoinKeepsExisting(plates, lines[i]);
    }
    CountAgree(lines, LowStockJoined(plates), IsLowStock);
  }

  /**
   * A line after a stock-take: its quantity is the counted one; the update
   * time is refreshed only when the quantity actually changed (the column's
   * on-update hook fires only for a real change).
   */
  function Reconciled(line: InventoryLine, actual: int, now: int): InventoryLine
  {
    line.(quantity := actual, lastUpdated := if actual != line.quantity then now else line.lastUpdated)
  }

  /** The check record of a stock-take, attributed to the first user (1 on an empty table). */
  function CheckRecord(users: seq<User>, checks: seq<InventoryCheck>, inventoryId: int, line: InventoryLine,
                       actual: int, remark: Option<string>, now: int): InventoryCheck
    requires StrictlyIncreasing(checks, CheckKey)
  {
    InventoryCheck(NextKey(checks, CheckKey), inventoryId, line.quantity, actual, actual - line.quantity,
                   FirstUserIdOr1(users), now, remark)
  }

  /**
   * A stock-take moves the ledger total by exactly the recorded difference,
   * and the recorded expectation plus the difference is the counted
   * quantity; a negative count is taken as it is.
   */
  lemma ReconcileMovesTotalByDifference(users: seq<User>, checks: seq<InventoryCheck>, lines: seq<InventoryLine>,
                                        i: nat, actual: int, remark: Option<string>, now: int)
    requires i < |lines| && StrictlyIncreasing(checks, CheckKey)
    ensures var c := CheckRecord(users, checks, lines[i].id, lines[i], actual, remark, now);
      var lines' := lines[i := Reconciled(lines[i], actual, now)];
      && c.expectedQuantity == lines[i].quantity
      && c.expectedQuantity + c.difference == c.actualQuantity == lines'[i].quantity
      && TotalInventory(lines') == TotalInventory(lines) + c.difference
      && (IsLowStock(lines'[i]) <==> actual <= lines[i].warningThreshold)
  {
    SumUpdate(lines, LineQuantity, i, Reconciled(lines[i], actual, now));
  }

  /**
   * POST /api/inventory/check: for an existing line and a given count,
   * appends one check record and sets that line's quantity to the count;
   * nothing else changes, and a refusal changes nothing.
   */
  method CreateInventoryCheck(w: Warehouse, inventoryId: int, actual: Option<int>, remark: Option<string>, now: int)
    returns (o: Outcome)
    requires w.Valid()
    modifies w
    ensures w.Valid()
    ensures o in {Ok, Invalid, NotFound}
    ensures o == Invalid <==> inventoryId == 0 || actual.None?
    ensures o == NotFound <==> inventoryId != 0 && actual.Some? && LineIndex(old(w.lines), inventoryId).None?
    ensures o != Ok ==> w.State() == old(w.State())
    ensures o == Ok ==>
      var i := LineIndex(old(w.lines), inventoryId).value;
      w.State() == old(w.State()).(
        checks := old(w.checks) + [CheckRecord(old(w.users), old(w.checks), inventoryId, old(w.lines)[i],
                                               actual.value, remark, now)],
        lines := old(w.lines)[i := Reconciled(old(w.lines)[i], actual.value, now)])
  {
    if inventoryId == 0 || actual.None? {
      return Invalid;
    }
    var found := LineIndex(w.lines, inventoryId);
    if found.None? {
      return NotFound;
    }
    var i := found.value;
    var check := CheckRecord(w.users, w.checks, inventoryId, w.lines[i], actual.value, remark, now);
    ValidAfterCheckAppend(w.State(), check);
    w.checks := w.checks + [check];
    var line := Reconciled(w.lines[i], actual.value, now);
    ValidAfterLineUpdate(w.State(), i, line);
    w.lines := w.lines[i := line];
    return Ok;
  }
}
