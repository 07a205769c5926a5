/**
 * Read-only rollups over the ledger and the movement log: the dashboard
 * overview, inventory grouped by location or by plate, and the
 * inbound/outbound trend.
 */
module Statistics {
  import opened Tables
  import opened Models
  import opened Store
  import opened Text

  const SecondsPerDay := 86400
  /** The end date of a trend range is taken at 23:59:59. */
  const EndOfDayOffset := 86399

  /** Midnight of the local calendar day containing `t`. */
  function DayStart(t: int): (d: int)
    ensures d <= t < d + SecondsPerDay
    ensures (t - d) % SecondsPerDay == t - d
  {
    t - t % SecondsPerDay
  }

  function LineQuantity(l: InventoryLine): int { l.quantity }

  /** Sum of every line's quantity; 0 on an empty ledger. */
  function TotalInventory(lines: seq<InventoryLine>): int
  {
    SumOf(lines, LineQuantity)
  }

  /** Quantity of an inbound record that arrived at or after `start`, else 0. */
  function InboundSince(start: int): InboundRecord -> int
  {
    (r: InboundRecord) => if r.inboundTime >= start then r.quantity else 0
  }

  /** Quantity of an outbound record approved with an outbound time at or after `start`, else 0. */
  function ApprovedSince(start: int): OutboundRecord -> int
  {
    (r: OutboundRecord) =>
      if r.status == Approved && r.outboundTime.Some? && r.outboundTime.value >= start
      then r.quantity else 0
  }

  predicate IsPendingOutbound(r: OutboundRecord) { r.status == Pending }

  /** A task still open: pending or in progress. */
  predicate IsOpenTask(t: DispatchTask) { t.status == TaskPending || t.status == TaskInProgress }

  /** An inbound record that arrived at or after `start`. */
  function ArrivedSince(start: int): InboundRecord -> bool
  {
    (r: InboundRecord) => r.inboundTime >= start
  }

  /** An outbound record approved with an outbound time at or after `start`. */
  function DispatchedSince(start: int): OutboundRecord -> bool
  {
    (r: OutboundRecord) => r.status == Approved && r.outboundTime.Some? && r.outboundTime.value >= start
  }

  function InboundQuantity(r: InboundRecord): int { r.quantity }

  function OutboundQuantity(r: OutboundRecord): int { r.quantity }

  datatype Overview = Overview(
    totalInventory: int,
    todayInbound: int,
    todayOutbound: int,
    pendingOutbound: nat,
    lowStockWarning: nat,
    pendingTasks: nat)

  /**
   * The dashboard overview at clock time `now`: today's figures sum the
   * records of the calendar day of `now` so far, outbound ones only once
   * approved; an empty sum is 0.
   */
  function GetOverview(lines: seq<InventoryLine>, inbounds: seq<InboundRecord>,
                       outbounds: seq<OutboundRecord>, tasks: seq<DispatchTask>, now: int): (o: Overview)
    ensures o.totalInventory == TotalInventory(lines)
    ensures o.todayInbound == SumOf(Filter(inbounds, ArrivedSince(DayStart(now))), InboundQuantity)
    ensures o.todayOutbound == SumOf(Filter(outbounds, DispatchedSince(DayStart(now))), OutboundQuantity)
    ensures o.lowStockWarning == |Filter(lines, IsLowStock)|
    ensures o.pendingOutbound == |Filter(outbounds, IsPendingOutbound)|
    ensures o.pendingTasks == |Filter(tasks, IsOpenTask)|
    ensures lines == [] ==> o.totalInventory == 0 && o.lowStockWarning == 0
  {
    var today := DayStart(now);
    SumOfFilter(inbounds, InboundSince(today), ArrivedSince(today), InboundQuantity);
    SumOfFilter(outbounds, ApprovedSince(today), DispatchedSince(today), OutboundQuantity);
    Overview(
      TotalInventory(lines),
      SumOf(inbounds, InboundSince(today)),
      SumOf(outbounds, ApprovedSince(today)),
      CountOf(outbounds, IsPendingOutbound),
      CountOf(lines, IsLowStock),
      CountOf(tasks, IsOpenTask))
  }

  /**
   * Today's inbound figure counts a newly logged record exactly when it
   * arrived on the calendar day of `now`: one from before midnight adds
   * nothing, one from today adds its quantity.
   */
  lemma TodayInboundCountsOnlyToday(lines: seq<InventoryLine>, inbounds: seq<InboundRecord>,
                                    outbounds: seq<OutboundRecord>, tasks: seq<DispatchTask>,
                                    r: InboundRecord, now: int)
    ensures var before := GetOverview(lines, inbounds, outbounds, tasks, now).todayInbound;
      var after := GetOverview(lines, inbounds + [r], outbounds, tasks, now).todayInbound;
      && (r.inboundTime < DayStart(now) ==> after == before)
      && (DayStart(now) <= r.inboundTime ==> after == before + r.quantity)
  {
    SumAppend(inbounds, InboundSince(DayStart(now)), r);
  }

  /**
   * Today's outbound figure counts a record only when it is approved with
   * an outbound time on the calendar day of `now`: a pending or rejected
   * record, or one dispatched before midnight, adds nothing.
   */
  lemma TodayOutboundCountsOnlyApprovedToday(lines: seq<InventoryLine>, inbounds: seq<InboundRecord>,
                                             outbounds: seq<OutboundRecord>, tasks: seq<DispatchTask>,
                                             r: OutboundRecord, now: int)
    ensures var before := GetOverview(lines, inbounds, outbounds, tasks, now).todayOutbound;
      var after := GetOverview(lines, inbounds, outbounds + [r], tasks, now).todayOutbound;
      && (r.status != Approved || r.outboundTime.None? || r.outboundTime.value < DayStart(now) ==> after == before)
      && (r.status == Approved && r.outboundTime.Some? && DayStart(now) <= r.outboundTime.value
          ==> after == before + r.quantity)
  {
    SumAppend(outbounds, ApprovedSince(DayStart(now)), r);
  }

  /**
   * Only approved records count towards today's outbound quantity: in any
   * table, replacing or deleting a record that is not approved by one that
   * is not approved either leaves the figure unchanged.
   */
  lemma TodayOutboundOnlyApproved(lines: seq<InventoryLine>, inbounds: seq<InboundRecord>,
                                  outbounds: seq<OutboundRecord>, tasks: seq<DispatchTask>,
                                  k: nat, r: OutboundRecord, now: int)
    requires k < |outbounds| && outbounds[k].status != Approved && r.status != Approved
    ensures var before := GetOverview(lines, inbounds, outbounds, tasks, now).todayOutbound;
      && GetOverview(lines, inbounds, outbounds[k := r], tasks, now).todayOutbound == before
      && GetOverview(lines, inbounds, RemoveAt(outbounds, k), tasks, now).todayOutbound == before
  {
    SumUpdate(outbounds, ApprovedSince(DayStart(now)), k, r);
    SumRemove(outbounds, ApprovedSince(DayStart(now)), k);
  }

  // ---------------------------------------------------------------------
  // SQL GROUP BY, shared by the inventory statistics and the trend

  datatype GroupStat = GroupStat(totalQuantity: int, batchCount: nat)

  /**
   * SQL GROUP BY: `key` gives a row's group, None for rows the query's
   * filter or join leaves out; each group carries the sum of `qty` over its
   * rows and its number of rows.
   */
  function GroupBy<T, K(==)>(s: seq<T>, key: T -> Option<K>, qty: T -> int): map<K, GroupStat>
  {
    if |s| == 0 then map[]
    else
      var m := GroupBy(s[..|s| - 1], key, qty);
      var x := s[|s| - 1];
      match key(x)
      case None => m
      case Some(k) =>
        var g := if k in m then m[k] else GroupStat(0, 0);
        m[k := GroupStat(g.totalQuantity + qty(x), g.batchCount + 1)]
  }

  function InGroup<T, K(==)>(key: T -> Option<K>, k: K): T -> bool
  {
    (x: T) => key(x) == Some(k)
  }

  function QuantityIn<T, K(==)>(key: T -> Option<K>, qty: T -> int, k: K): T -> int
  {
    (x: T) => if key(x) == Some(k) then qty(x) else 0
  }

  /**
   * A group exists exactly when some row falls in it, and its total and
   * count are the sum and the number of the rows in it.
   */
  lemma {:induction false} GroupByIsPerGroupSum<T, K>(s: seq<T>, key: T -> Option<K>, qty: T -> int, k: K)
    ensures k in GroupBy(s, key, qty) <==> CountOf(s, InGroup(key, k)) > 0
    ensures k in GroupBy(s, key, qty) ==>
      GroupBy(s, key, qty)[k] == GroupStat(SumOf(s, QuantityIn(key, qty, k)), CountOf(s, InGroup(key, k)))
    ensures k !in GroupBy(s, key, qty) ==> SumOf(s, QuantityIn(key, qty, k)) == 0
  {
    if |s| > 0 {
      var prefix, x := s[..|s| - 1], s[|s| - 1];
      GroupByIsPerGroupSum(prefix, key, qty, k);
      var m := GroupBy(prefix, key, qty);
      assert SumOf(s, QuantityIn(key, qty, k)) == SumOf(prefix, QuantityIn(key, qty, k)) + QuantityIn(key, qty, k)(x);
      assert CountOf(s, InGroup(key, k)) == CountOf(prefix, InGroup(key, k)) + (if InGroup(key, k)(x) then 1 else 0);
      if key(x) == Some(k) {
        var g := if k in m then m[k] else GroupStat(0, 0);
        assert GroupBy(s, key, qty) == m[k := GroupStat(g.totalQuantity + qty(x), g.batchCount + 1)];
      } else {
        assert k in GroupBy(s, key, qty) <==> k in m;
        assert k in m ==> GroupBy(s, key, qty)[k] == m[k];
      }
    }
  }

  /** Every group is the group of some row. */
  lemma GroupKeyHasRow<T, K>(s: seq<T>, key: T -> Option<K>, qty: T -> int, k: K)
    requires k in GroupBy(s, key, qty)
    ensures exists i :: 0 <= i < |s| && key(s[i]) == Some(k)
  {
    GroupByIsPerGroupSum(s, key, qty, k);
    CountZero(s, InGroup(key, k));
  }

  // ---------------------------------------------------------------------
  // Inventory statistics grouped by location and by plate

  function LocationKey(l: InventoryLine): Option<string> { l.location }

  /** Lines grouped by storage location; lines with no location are left out. */
  function ByLocation(lines: seq<InventoryLine>): map<string, GroupStat>
  {
    GroupBy(lines, LocationKey, LineQuantity)
  }

  lemma ByLocationSpec(lines: seq<InventoryLine>, loc: string)
    ensures loc in ByLocation(lines) <==> exists i :: 0 <= i < |lines| && lines[i].location == Some(loc)
    ensures loc in ByLocation(lines) ==>
      ByLocation(lines)[loc].totalQuantity == SumOf(lines, QuantityIn(LocationKey, LineQuantity, loc)) &&
      ByLocation(lines)[loc].batchCount == CountOf(lines, InGroup(LocationKey, loc))
  {
    GroupByIsPerGroupSum(lines, LocationKey, LineQuantity, loc);
    CountZero(lines, InGroup(LocationKey, loc));
  }

  /** Lines with no location never form a group. */
  lemma ByLocationSkipsUnlocated(lines: seq<InventoryLine>, l: InventoryLine)
    requires l.location.None?
    ensures ByLocation(lines + [l]) == ByLocation(lines)
  {
    assert (lines + [l])[..|lines|] == lines;
  }

  datatype ModelStat = ModelStat(model: string, specification: string, totalQuantity: int, batchCount: nat)

  /** The group of a line when joined with plates: its plate id, or None when the plate is missing. */
  function PlateKeyOf(plates: seq<Plate>): InventoryLine -> Option<int>
  {
    (l: InventoryLine) => if PlateIndex(plates, l.plateId).Some? then Some(l.plateId) else None
  }

  /** Lines joined with their plate and grouped by plate, with the plate's model and specification. */
  function ByModel(plates: seq<Plate>, lines: seq<InventoryLine>): (r: map<int, ModelStat>)
    ensures r.Keys == GroupBy(lines, PlateKeyOf(plates), LineQuantity).Keys
  {
    var g := GroupBy(lines, PlateKeyOf(plates), LineQuantity);
    assert forall id | id in g :: PlateIndex(plates, id).Some? by {
      forall id | id in g ensures PlateIndex(plates, id).Some? {
        GroupKeyHasRow(lines, PlateKeyOf(plates), LineQuantity, id);
      }
    }
    map id | id in g && PlateIndex(plates, id).Some? ::
      var p := plates[PlateIndex(plates, id).value];
      ModelStat(p.model, p.specification, g[id].totalQuantity, g[id].batchCount)
  }

  /** Each by-model row carries its plate's sum and line count. */
  lemma ByModelSpec(plates: seq<Plate>, lines: seq<InventoryLine>, id: int)
    ensures id in ByModel(plates, lines) <==>
      PlateIndex(plates, id).Some? && exists i :: 0 <= i < |lines| && lines[i].plateId == id
    ensures id in ByModel(plates, lines) ==>
      var r := ByModel(plates, lines)[id];
      var p := plates[PlateIndex(plates, id).value];
      && p.id == id && r.model == p.model && r.specification == p.specification
      && r.totalQuantity == SumOf(lines, QuantityIn(PlateKeyOf(plates), LineQuantity, id))
      && r.batchCount == CountOf(lines, InGroup(PlateKeyOf(plates), id))
  {
    var key := PlateKeyOf(plates);
    GroupByIsPerGroupSum(lines, key, LineQuantity, id);
    CountZero(lines, InGroup(key, id));
    if PlateIndex(plates, id).Some? && exists i :: 0 <= i < |lines| && lines[i].plateId == id {
      var i :| 0 <= i < |lines| && lines[i].plateId == id;
      assert key(lines[i]) == Some(id);
    }
  }

  // ---------------------------------------------------------------------
  // Inbound/outbound trend

  /** A date query argument: absent or empty, not in YYYY-MM-DD form, or the midnight it denotes. */
  datatype DateArg = Missing | Malformed | Date(midnight: int)

  /** The time window of a trend: from the start date's midnight to 23:59:59 of the end date. */
  datatype Window = Window(from: int, to: int)

  const DayFormat := "%Y-%m-%d"
  const WeekFormat := "%Y-%W"
  const MonthFormat := "%Y-%m"

  function TrendWindow(start: DateArg, end: DateArg): (r: Option<Window>)
    ensures r.Some? <==> start.Date? && end.Date? && start.midnight <= end.midnight + EndOfDayOffset
    ensures r.Some? ==> r.value.from <= r.value.to
  {
    if start.Date? && end.Date? && start.midnight <= end.midnight + EndOfDayOffset
    then Some(Window(start.midnight, end.midnight + EndOfDayOffset))
    else None
  }

  /** The strftime pattern of a grouping; an absent group_by means by day. */
  function PeriodFormat(groupBy: Option<string>): (r: Option<string>)
    ensures r.Some? <==> groupBy.None? || groupBy.value in {"day", "week", "month"}
  {
    var g := if groupBy.Some? then groupBy.value else "day";
    if g == "day" then Some(DayFormat)
    else if g == "week" then Some(WeekFormat)
    else if g == "month" then Some(MonthFormat)
    else None
  }

  /**
   * The period of an inbound record inside the window, rendered by the
   * database's strftime (a parameter of the model); None outside it.
   */
  function InboundPeriod(strftime: (string, int) -> string, fmt: string, win: Window): InboundRecord -> Option<string>
  {
    (r: InboundRecord) =>
      if win.from <= r.inboundTime <= win.to then Some(strftime(fmt, r.inboundTime)) else None
  }

  /** The period of an approved outbound record inside the window; None for any other. */
  function OutboundPeriod(strftime: (string, int) -> string, fmt: string, win: Window): OutboundRecord -> Option<string>
  {
    (r: OutboundRecord) =>
      if r.status == Approved && r.outboundTime.Some? && win.from <= r.outboundTime.value <= win.to
      then Some(strftime(fmt, r.outboundTime.value)) else None
  }

  datatype TrendRow = TrendRow(period: string, inboundQuantity: int, outboundQuantity: int)

  /** A group's summed quantity, 0 for a period the query returned no row for. */
  function Total(m: map<string, GroupStat>, p: string): int
  {
    if p in m then m[p].totalQuantity else 0
  }

  /**
   * Merges the two per-period series into one row per non-empty period:
   * inbound rows first with outbound 0, then the outbound sums filled in or
   * added with inbound 0.
   */
  method MergeTrend(inbound: map<string, GroupStat>, outbound: map<string, GroupStat>)
    returns (trend: map<string, TrendRow>)
    ensures forall p :: p in trend <==> p != "" && (p in inbound || p in outbound)
    ensures forall p :: p in trend ==> trend[p] == TrendRow(p, Total(inbound, p), Total(outbound, p))
  {
    trend := map[];
    var rest := inbound.Keys;
    while rest != {}
      invariant rest <= inbound.Keys
      invariant forall p :: p in trend <==> p != "" && p in inbound && p !in rest
      invariant forall p :: p in trend ==> trend[p] == TrendRow(p, Total(inbound, p), 0)
      decreases |rest|
    {
      var p :| p in rest;
      if p != "" {
        trend := trend[p := TrendRow(p, inbound[p].totalQuantity, 0)];
      }
      rest := rest - {p};
    }
    rest := outbound.Keys;
    while rest != {}
      invariant rest <= outbound.Keys
      invariant forall p :: p in trend <==> p != "" && (p in inbound || (p in outbound && p !in rest))
      invariant forall p :: p in trend ==>
        trend[p] == TrendRow(p, Total(inbound, p), if p in rest then 0 else Total(outbound, p))
      decreases |rest|
    {
      var p :| p in rest;
      if p != "" {
        if p in trend {
          trend := trend[p := trend[p].(outboundQuantity := outbound[p].totalQuantity)];
        } else {
          trend := trend[p := TrendRow(p, 0, outbound[p].totalQuantity)];
        }
      }
      rest := rest - {p};
    }
  }

  /** The least string of a non-empty set in Python's order. */
  method Least(s: set<string>) returns (m: string)
    requires s != {}
    ensures m in s
    ensures forall p :: p in s && p != m ==> StrLess(m, p)
  {
    m :| m in s;
    var rest := s - {m};
    while rest != {}
      invariant rest <= s && m in s && m !in rest
      invariant forall p :: p in s - rest && p != m ==> StrLess(m, p)
      decreases |rest|
    {
      var x :| x in rest;
      if StrLess(x, m) {
        forall p | p in s - rest && p != m ensures StrLess(x, p) {
          StrLessTransitive(x, m, p);
        }
        m := x;
      } else {
        StrLessTotal(x, m);
      }
      rest := rest - {x};
    }
  }

  predicate HasPeriod(rows: seq<TrendRow>, p: string)
  {
    exists i :: 0 <= i < |rows| && rows[i].period == p
  }

  /** Periods strictly ascending in Python's string order. */
  predicate Ascending(rows: seq<TrendRow>)
  {
    forall i, j :: 0 <= i < j < |rows| ==> StrLess(rows[i].period, rows[j].period)
  }

  /**
   * Sorting halfway: `rows` holds the periods of `trend` not in `rest`, in
   * ascending order, each below every period still in `rest`.
   */
  ghost predicate SortedSoFar(trend: map<string, TrendRow>, rows: seq<TrendRow>, rest: set<string>)
  {
    && rest <= trend.Keys
    && (forall i :: 0 <= i < |rows| ==>
          rows[i].period in trend && rows[i].period !in rest && rows[i] == trend[rows[i].period])
    && (forall p :: p in trend && p !in rest ==> HasPeriod(rows, p))
    && Ascending(rows)
    && (forall i, p :: 0 <= i < |rows| && p in rest ==> StrLess(rows[i].period, p))
  }

  /** Moving the least remaining period to the end of the rows keeps the rows sorted. */
  lemma SortedStep(trend: map<string, TrendRow>, rows: seq<TrendRow>, rest: set<string>, m: string)
    requires forall p :: p in trend ==> trend[p].period == p
    requires SortedSoFar(trend, rows, rest)
    requires m in rest && forall p :: p in rest && p != m ==> StrLess(m, p)
    ensures SortedSoFar(trend, rows + [trend[m]], rest - {m})
  {
    var rows', rest' := rows + [trend[m]], rest - {m};
    forall p | p in trend && p !in rest' ensures HasPeriod(rows', p) {
      if p == m {
        assert rows'[|rows| ].period == p;
      } else {
        var i :| 0 <= i < |rows| && rows[i].period == p;
        assert rows'[i].period == p;
      }
    }
    forall i, j | 0 <= i < j < |rows'| ensures StrLess(rows'[i].period, rows'[j].period) {
      assert i < |rows|;
      if j == |rows| {
        assert rows'[j].period == m;
      }
    }
  }

  /** The rows of the merged series in ascending period order. */
  method SortedTrend(trend: map<string, TrendRow>) returns (rows: seq<TrendRow>)
    requires forall p :: p in trend ==> trend[p].period == p
    ensures forall i :: 0 <= i < |rows| ==> rows[i].period in trend && rows[i] == trend[rows[i].period]
    ensures forall p :: p in trend ==> HasPeriod(rows, p)
    ensures Ascending(rows)
  {
    rows := [];
    var rest := trend.Keys;
    while rest != {}
      invariant SortedSoFar(trend, rows, rest)
      decreases |rest|
    {
      var m := Least(rest);
      SortedStep(trend, rows, rest, m);
      rows := rows + [trend[m]];
      rest := rest - {m};
    }
  }

  /** The per-period sums of inbound quantity inside the window. */
  function InboundSeries(inbounds: seq<InboundRecord>, strftime: (string, int) -> string, fmt: string, win: Window)
    : map<string, GroupStat>
  {
    GroupBy(inbounds, InboundPeriod(strftime, fmt, win), InboundQuantity)
  }

  /** The per-period sums of approved outbound quantity inside the window. */
  function OutboundSeries(outbounds: seq<OutboundRecord>, strftime: (string, int) -> string, fmt: string, win: Window)
    : map<string, GroupStat>
  {
    GroupBy(outbounds, OutboundPeriod(strftime, fmt, win), OutboundQuantity)
  }

  /**
   * `rows` is the trend of the two series: one row per non-empty period
   * either series has, carrying both sums (0 where a series has none), in
   * ascending period order.
   */
  ghost predicate IsTrend(rows: seq<TrendRow>, inbound: map<string, GroupStat>, outbound: map<string, GroupStat>)
  {
    && (forall i :: 0 <= i < |rows| ==>
          && rows[i].period != "" && (rows[i].period in inbound || rows[i].period in outbound)
          && rows[i] == TrendRow(rows[i].period, Total(inbound, rows[i].period), Total(outbound, rows[i].period)))
    && (forall p :: p != "" && (p in inbound || p in outbound) ==> HasPeriod(rows, p))
    && Ascending(rows)
  }

  /**
   * GET /api/statistics/trend: both dates are required and well formed, the
   * start may not follow the end date's last second, and the grouping must
   * be day, week or month; then the inbound and approved outbound sums per
   * period, merged and sorted.
   */
  method GetTrend(inbounds: seq<InboundRecord>, outbounds: seq<OutboundRecord>, start: DateArg, end: DateArg,
                  groupBy: Option<string>, strftime: (string, int) -> string)
    returns (o: Outcome, rows: seq<TrendRow>)
    ensures o in {Ok, Invalid}
    ensures o == Invalid <==> TrendWindow(start, end).None? || PeriodFormat(groupBy).None?
    ensures o == Invalid ==> rows == []
    ensures o == Ok ==>
      var fmt, win := PeriodFormat(groupBy).value, TrendWindow(start, end).value;
      IsTrend(rows, InboundSeries(inbounds, strftime, fmt, win), OutboundSeries(outbounds, strftime, fmt, win))
  {
    rows := [];
    var window := TrendWindow(start, end);
    if window.None? {
      return Invalid, rows;
    }
    var format := PeriodFormat(groupBy);
    if format.None? {
      return Invalid, rows;
    }
    var inbound := InboundSeries(inbounds, strftime, format.value, window.value);
    var outbound := OutboundSeries(outbounds, strftime, format.value, window.value);
    var trend := MergeTrend(inbound, outbound);
    rows := SortedTrend(trend);
    return Ok, rows;
  }

  /** Two ascending row lists with the same periods have them at the same places. */
  lemma {:induction false} AscendingSamePeriods(r1: seq<TrendRow>, r2: seq<TrendRow>)
    requires Ascending(r1) && Ascending(r2)
    requires forall i :: 0 <= i < |r1| ==> HasPeriod(r2, r1[i].period)
    requires forall j :: 0 <= j < |r2| ==> HasPeriod(r1, r2[j].period)
    ensures |r1| == |r2| && forall i :: 0 <= i < |r1| ==> r1[i].period == r2[i].period
  {
    if |r1| > 0 {
      assert HasPeriod(r2, r1[0].period);
    }
    if |r2| > 0 {
      assert HasPeriod(r1, r2[0].period);
    }
    if |r1| > 0 {
      var j :| 0 <= j < |r2| && r2[j].period == r1[0].period;
      var i :| 0 <= i < |r1| && r1[i].period == r2[0].period;
      assert StrLessEq(r1[0].period, r1[i].period);
      assert StrLessEq(r2[0].period, r2[j].period);
      StrLessEqAntisymmetric(r1[0].period, r2[0].period);
      var t1, t2 := r1[1..], r2[1..];
      StrLessIrreflexive(r1[0].period);
      forall a | 0 <= a < |t1| ensures HasPeriod(t2, t1[a].period) {
        var b :| 0 <= b < |r2| && r2[b].period == r1[a + 1].period;
        assert StrLess(r1[0].period, r1[a + 1].period);
        assert b != 0;
        assert t2[b - 1].period == t1[a].period;
      }
      forall b | 0 <= b < |t2| ensures HasPeriod(t1, t2[b].period) {
        var a :| 0 <= a < |r1| && r1[a].period == r2[b + 1].period;
        assert StrLess(r2[0].period, r2[b + 1].period);
        assert a != 0;
        assert t1[a - 1].period == t2[b].period;
      }
      AscendingSamePeriods(t1, t2);
      forall a | 0 <= a < |r1| ensures r1[a].period == r2[a].period {
        if a > 0 {
          assert r1[a].period == t1[a - 1].period;
        }
      }
    }
  }

  /**
   * The trend of two series is unique: whatever order the query rows and
   * the dictionary are visited in, the answer is the same.
   */
  lemma TrendIsDetermined(r1: seq<TrendRow>, r2: seq<TrendRow>, inbound: map<string, GroupStat>,
                          outbound: map<string, GroupStat>)
    requires IsTrend(r1, inbound, outbound) && IsTrend(r2, inbound, outbound)
    ensures r1 == r2
  {
    forall i | 0 <= i < |r1| ensures HasPeriod(r2, r1[i].period) {
      assert r1[i].period != "" && (r1[i].period in inbound || r1[i].period in outbound);
    }
    forall j | 0 <= j < |r2| ensures HasPeriod(r1, r2[j].period) {
      assert r2[j].period != "" && (r2[j].period in inbound || r2[j].period in outbound);
    }
    AscendingSamePeriods(r1, r2);
  }

  /**
   * Each trend row carries the sum of the in-window inbound quantities of
   * its period and the sum of the in-window approved outbound quantities of
   * its period; a period with no such outbound shows 0 outbound, and one
   * with no such inbound shows 0 inbound.
   */
  lemma TrendRowIsPeriodSum(inbounds: seq<InboundRecord>, outbounds: seq<OutboundRecord>,
                            strftime: (string, int) -> string, fmt: string, win: Window,
                            rows: seq<TrendRow>, i: nat)
    requires IsTrend(rows, InboundSeries(inbounds, strftime, fmt, win), OutboundSeries(outbounds, strftime, fmt, win))
    requires i < |rows|
    ensures rows[i].inboundQuantity == SumOf(inbounds, QuantityIn(InboundPeriod(strftime, fmt, win), InboundQuantity, rows[i].period))
    ensures rows[i].outboundQuantity == SumOf(outbounds, QuantityIn(OutboundPeriod(strftime, fmt, win), OutboundQuantity, rows[i].period))
    ensures (forall j :: 0 <= j < |outbounds| ==> OutboundPeriod(strftime, fmt, win)(outbounds[j]) != Some(rows[i].period))
            ==> rows[i].outboundQuantity == 0
    ensures (forall j :: 0 <= j < |inbounds| ==> InboundPeriod(strftime, fmt, win)(inbounds[j]) != Some(rows[i].period))
            ==> rows[i].inboundQuantity == 0
  {
    var p := rows[i].period;
    GroupByIsPerGroupSum(inbounds, InboundPeriod(strftime, fmt, win), InboundQuantity, p);
    GroupByIsPerGroupSum(outbounds, OutboundPeriod(strftime, fmt, win), OutboundQuantity, p);
    if forall j :: 0 <= j < |outbounds| ==> OutboundPeriod(strftime, fmt, win)(outbounds[j]) != Some(p) {
      CountZero(outbounds, InGroup(OutboundPeriod(strftime, fmt, win), p));
    }
    if forall j :: 0 <= j < |inbounds| ==> InboundPeriod(strftime, fmt, win)(inbounds[j]) != Some(p) {
      CountZero(inbounds, InGroup(InboundPeriod(strftime, fmt, win), p));
    }
  }

  /** A pending or rejected application never shows in the outbound series. */
  lemma TrendIgnoresUnapproved(outbounds: seq<OutboundRecord>, r: OutboundRecord,
                               strftime: (string, int) -> string, fmt: string, win: Window)
    requires r.status != Approved
    ensures OutboundSeries(outbounds + [r], strftime, fmt, win) == OutboundSeries(outbounds, strftime, fmt, win)
  {
    assert (outbounds + [r])[..|outbounds|] == outbounds;
  }
}
