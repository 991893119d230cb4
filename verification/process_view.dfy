/** The process table's derivation pipeline: classify a snapshot, order it by
    load, narrow it through the filter chain, optionally re-sort it on one
    column, and show a growing prefix of 100-row pages. */
module ProcessView {
  import opened Js
  import opened Text
  import opened Seqs
  import opened ProcessRecords

  // ---------------------------------------------------------------------------
  // Classification and base order
  // ---------------------------------------------------------------------------

  /** A snapshot split into unknown, known-active and known-inactive records. */
  datatype Classified = Classified(
    unknown: seq<ProcessRecord>,
    active: seq<ProcessRecord>,
    inactive: seq<ProcessRecord>)

  function UnknownTest(): ProcessRecord -> bool { p => IsUnknown(p) }

  function ActiveTest(): ProcessRecord -> bool { p => IsActive(p) }

  /** The three `filter` calls of the `visibleRows` memo. */
  function Classify(snapshot: seq<ProcessRecord>): (c: Classified)
    ensures forall x :: x in c.unknown <==> x in snapshot && IsUnknown(x)
    ensures forall x :: x in c.active <==> x in snapshot && !IsUnknown(x) && IsActive(x)
    ensures forall x :: x in c.inactive <==> x in snapshot && !IsUnknown(x) && !IsActive(x)
  {
    var known := Keep(snapshot, Not(UnknownTest()));
    Classified(Keep(snapshot, UnknownTest()), Keep(known, ActiveTest()), Keep(known, Not(ActiveTest())))
  }

  /** The split loses and duplicates nothing: every record of the snapshot
      lands in exactly one of the three lists. */
  lemma ClassifyPartition(snapshot: seq<ProcessRecord>)
    ensures var c := Classify(snapshot);
      && |c.unknown| + |c.active| + |c.inactive| == |snapshot|
      && multiset(c.unknown) + multiset(c.active) + multiset(c.inactive) == multiset(snapshot)
  {
    var known := Keep(snapshot, Not(UnknownTest()));
    KeepSplit(snapshot, UnknownTest());
    KeepSplit(known, ActiveTest());
  }

  /** The sort key of `sortByLoad`: CPU descending, then memory descending,
      then name ascending. */
  function LoadKey(p: ProcessRecord): Key {
    Key(-CpuPercent(p), -MemoryMb(p), p.name)
  }

  /** `a` may be listed before `b` in a load-ordered group. */
  predicate LoadOrdered(a: ProcessRecord, b: ProcessRecord) {
    CpuPercent(a) > CpuPercent(b)
    || (CpuPercent(a) == CpuPercent(b)
        && (MemoryMb(a) > MemoryMb(b) || (MemoryMb(a) == MemoryMb(b) && StrLe(a.name, b.name))))
  }

  /** Sorted active records followed by sorted inactive records. */
  function BaseRows(c: Classified): seq<ProcessRecord> {
    SortBy(c.active, LoadKey) + SortBy(c.inactive, LoadKey)
  }

  /** The `visibleRows` memo: the base order, with the unknown records
      appended only when they are to be shown. */
  function VisibleRows(snapshot: seq<ProcessRecord>, showUnknown: bool): (r: seq<ProcessRecord>)
    ensures forall x :: x in r <==> x in snapshot && (showUnknown || !IsUnknown(x))
  {
    var c := Classify(snapshot);
    assert forall x :: x in SortBy(c.active, LoadKey) <==> x in multiset(c.active);
    assert forall x :: x in SortBy(c.inactive, LoadKey) <==> x in multiset(c.inactive);
    BaseRows(c) + (if showUnknown then c.unknown else [])
  }

  /** Every earlier row of `g` may precede every later one under the load order. */
  predicate GroupOrdered(g: seq<ProcessRecord>) {
    forall i, j :: 0 <= i < j < |g| ==> LoadOrdered(g[i], g[j])
  }

  /** Sorting a group by `LoadKey` orders it by load and keeps its members. */
  lemma SortedGroup(g: seq<ProcessRecord>)
    ensures GroupOrdered(SortBy(g, LoadKey))
    ensures forall x :: x in SortBy(g, LoadKey) <==> x in g
  {
    var r := SortBy(g, LoadKey);
    SortBySorted(g, LoadKey);
    forall x ensures x in r <==> x in g {
      assert x in r <==> x in multiset(r);
      assert x in g <==> x in multiset(g);
    }
  }

  /** Base order: active rows first, inactive rows next, each group ordered by
      CPU desc, memory desc, name asc; unknown rows follow, in snapshot order,
      exactly when they are shown. */
  lemma VisibleRowsOrder(snapshot: seq<ProcessRecord>, showUnknown: bool)
    ensures var c := Classify(snapshot); var r := VisibleRows(snapshot, showUnknown);
      var na := |c.active|; var n := na + |c.inactive|;
      && n <= |r|
      && (forall x :: x in r[..na] <==> x in snapshot && !IsUnknown(x) && IsActive(x))
      && (forall x :: x in r[na..n] <==> x in snapshot && !IsUnknown(x) && !IsActive(x))
      && GroupOrdered(r[..na])
      && GroupOrdered(r[na..n])
      && r[n..] == (if showUnknown then c.unknown else [])
  {
    var c := Classify(snapshot);
    var r := VisibleRows(snapshot, showUnknown);
    var sa, si := SortBy(c.active, LoadKey), SortBy(c.inactive, LoadKey);
    var na := |c.active|;
    var n := na + |c.inactive|;
    assert r == sa + si + (if showUnknown then c.unknown else []);
    assert r[..na] == sa;
    assert r[na..n] == si;
    SortedGroup(c.active);
    SortedGroup(c.inactive);
  }

  /** With unknown records shown the table rows are a permutation of the snapshot. */
  lemma VisibleRowsPermutation(snapshot: seq<ProcessRecord>)
    ensures multiset(VisibleRows(snapshot, true)) == multiset(snapshot)
  {
    ClassifyPartition(snapshot);
  }

  /** Hidden unknown records never reach the table, and every other record does. */
  lemma HiddenUnknownExcluded(snapshot: seq<ProcessRecord>, x: ProcessRecord)
    ensures x in VisibleRows(snapshot, false) <==> x in snapshot && !IsUnknown(x)
  {
    var c := Classify(snapshot);
    var r := VisibleRows(snapshot, false);
    var na := |c.active|;
    VisibleRowsOrder(snapshot, false);
    assert r == r[..na] + r[na..|r|];
  }

  // ---------------------------------------------------------------------------
  // Filter chain
  // ---------------------------------------------------------------------------

  /** The search boxes and the filter panel. Numeric bounds hold
      `parseFloat` of a non-empty field (possibly NaN); `None` is an empty field. */
  datatype Criteria = Criteria(
    pidQuery: string,
    nameQuery: string,
    portQuery: string,
    username: string,
    cpuMin: Option<Num>,
    cpuMax: Option<Num>,
    memoryMin: Option<Num>,
    memoryMax: Option<Num>)

  /** `q.trim().toLowerCase()`. */
  function Query(q: string): string {
    Lower(Trim(q))
  }

  /** `String(p?.pid || '')`: pid 0 renders as the empty string. */
  function PidText(p: ProcessRecord): string {
    if p.pid == 0 then "" else IntToString(p.pid)
  }

  predicate PidMatches(q: string, p: ProcessRecord) { Contains(PidText(p), q) }

  predicate NameMatches(q: string, p: ProcessRecord) { Contains(Lower(p.name), q) }

  predicate PortMatches(q: string, p: ProcessRecord) {
    exists i :: 0 <= i < |p.ports| && Contains(NatToString(p.ports[i]), q)
  }

  predicate UserMatches(q: string, p: ProcessRecord) { Contains(Lower(p.username), q) }

  /** A finite bound the value falls short of; unset and NaN bounds exclude nothing. */
  predicate BelowMin(v: real, min: Option<Num>) {
    min.Some? && min.value.Finite? && v < min.value.value
  }

  predicate AboveMax(v: real, max: Option<Num>) {
    max.Some? && max.value.Finite? && v > max.value.value
  }

  predicate WithinBounds(v: real, min: Option<Num>, max: Option<Num>) {
    !BelowMin(v, min) && !AboveMax(v, max)
  }

  function PidFilter(q: string): ProcessRecord -> bool { p => PidMatches(q, p) }
  function NameFilter(q: string): ProcessRecord -> bool { p => NameMatches(q, p) }
  function PortFilter(q: string): ProcessRecord -> bool { p => PortMatches(q, p) }
  function UserFilter(q: string): ProcessRecord -> bool { p => UserMatches(q, p) }
  function CpuFilter(min: Option<Num>, max: Option<Num>): ProcessRecord -> bool {
    p => WithinBounds(CpuPercent(p), min, max)
  }
  function MemoryFilter(min: Option<Num>, max: Option<Num>): ProcessRecord -> bool {
    p => WithinBounds(MemoryMb(p), min, max)
  }

  /** pid search: applies only to a query that is not blank after trimming. */
  function ByPid(rows: seq<ProcessRecord>, c: Criteria): (r: seq<ProcessRecord>)
    ensures IsSubseq(r, rows)
    ensures Trim(c.pidQuery) == "" ==> r == rows
    ensures forall x :: x in r ==> x in rows && (Trim(c.pidQuery) == "" || PidMatches(Query(c.pidQuery), x))
  {
    KeepIsSubseq(rows, PidFilter(Query(c.pidQuery)));
    SubseqRefl(rows);
    if Trim(c.pidQuery) != "" then Keep(rows, PidFilter(Query(c.pidQuery))) else rows
  }

  /** Name search, case-insensitive. */
  function ByName(rows: seq<ProcessRecord>, c: Criteria): (r: seq<ProcessRecord>)
    ensures IsSubseq(r, rows)
    ensures Trim(c.nameQuery) == "" ==> r == rows
    ensures forall x :: x in r ==> x in rows && (Trim(c.nameQuery) == "" || NameMatches(Query(c.nameQuery), x))
  {
    KeepIsSubseq(rows, NameFilter(Query(c.nameQuery)));
    SubseqRefl(rows);
    if Trim(c.nameQuery) != "" then Keep(rows, NameFilter(Query(c.nameQuery))) else rows
  }

  /** Port search: some port's decimal text contains the query. */
  function ByPort(rows: seq<ProcessRecord>, c: Criteria): (r: seq<ProcessRecord>)
    ensures IsSubseq(r, rows)
    ensures Trim(c.portQuery) == "" ==> r == rows
    ensures forall x :: x in r ==> x in rows && (Trim(c.portQuery) == "" || PortMatches(Query(c.portQuery), x))
  {
    KeepIsSubseq(rows, PortFilter(Query(c.portQuery)));
    SubseqRefl(rows);
    if Trim(c.portQuery) != "" then Keep(rows, PortFilter(Query(c.portQuery))) else rows
  }

  /** User filter: guarded by the raw field being non-empty; a blank field
      normalises to the empty query, which every user name contains. */
  function ByUser(rows: seq<ProcessRecord>, c: Criteria): (r: seq<ProcessRecord>)
    ensures IsSubseq(r, rows)
    ensures Trim(c.username) == "" ==> r == rows
    ensures forall x :: x in r ==> x in rows && (c.username == "" || UserMatches(Query(c.username), x))
  {
    KeepIsSubseq(rows, UserFilter(Query(c.username)));
    SubseqRefl(rows);
    BlankQueryKeepsAll(rows, c.username);
    if c.username != "" then Keep(rows, UserFilter(Query(c.username))) else rows
  }

  /** A blank user field is applied, but as the empty query it keeps every row. */
  lemma BlankQueryKeepsAll(rows: seq<ProcessRecord>, q: string)
    ensures Trim(q) == "" ==> Keep(rows, UserFilter(Query(q))) == rows
  {
    if Trim(q) == "" {
      assert Query(q) == "";
      forall i | 0 <= i < |rows| ensures UserFilter(Query(q))(rows[i]) {
        ContainsEmpty(Lower(rows[i].username));
      }
      KeepAll(rows, UserFilter(Query(q)));
    }
  }

  /** CPU range: applied when either bound is set; both ends inclusive. */
  function ByCpu(rows: seq<ProcessRecord>, c: Criteria): (r: seq<ProcessRecord>)
    ensures IsSubseq(r, rows)
    ensures c.cpuMin.None? && c.cpuMax.None? ==> r == rows
    ensures forall x :: x in r ==> x in rows && WithinBounds(CpuPercent(x), c.cpuMin, c.cpuMax)
  {
    KeepIsSubseq(rows, CpuFilter(c.cpuMin, c.cpuMax));
    SubseqRefl(rows);
    if c.cpuMin.Some? || c.cpuMax.Some? then Keep(rows, CpuFilter(c.cpuMin, c.cpuMax)) else rows
  }

  /** Memory range in MB: applied when either bound is set; both ends inclusive. */
  function ByMemory(rows: seq<ProcessRecord>, c: Criteria): (r: seq<ProcessRecord>)
    ensures IsSubseq(r, rows)
    ensures c.memoryMin.None? && c.memoryMax.None? ==> r == rows
    ensures forall x :: x in r ==> x in rows && WithinBounds(MemoryMb(x), c.memoryMin, c.memoryMax)
  {
    KeepIsSubseq(rows, MemoryFilter(c.memoryMin, c.memoryMax));
    SubseqRefl(rows);
    if c.memoryMin.Some? || c.memoryMax.Some? then Keep(rows, MemoryFilter(c.memoryMin, c.memoryMax)) else rows
  }

  /** The filter stages of the `filteredRows` memo, in the source's order. */
  function FilterRows(rows: seq<ProcessRecord>, c: Criteria): (r: seq<ProcessRecord>)
    ensures IsSubseq(r, rows)
  {
    var r1 := ByPid(rows, c);
    var r2 := ByName(r1, c);
    var r3 := ByPort(r2, c);
    var r4 := ByUser(r3, c);
    var r5 := ByCpu(r4, c);
    SubseqTrans(r2, r1, rows);
    SubseqTrans(r3, r2, rows);
    SubseqTrans(r4, r3, rows);
    SubseqTrans(r5, r4, rows);
    SubseqTrans(ByMemory(r5, c), r5, rows);
    ByMemory(ByCpu(ByUser(ByPort(ByName(ByPid(rows, c), c), c), c), c), c)
  }

  /** Everything the filter chain asks of one record, as one condition. */
  predicate Matches(c: Criteria, p: ProcessRecord) {
    && (Trim(c.pidQuery) == "" || PidMatches(Query(c.pidQuery), p))
    && (Trim(c.nameQuery) == "" || NameMatches(Query(c.nameQuery), p))
    && (Trim(c.portQuery) == "" || PortMatches(Query(c.portQuery), p))
    && (c.username == "" || UserMatches(Query(c.username), p))
    && WithinBounds(CpuPercent(p), c.cpuMin, c.cpuMax)
    && WithinBounds(MemoryMb(p), c.memoryMin, c.memoryMax)
  }

  function MatchesTest(c: Criteria): ProcessRecord -> bool { p => Matches(c, p) }

  function PidStage(c: Criteria): ProcessRecord -> bool {
    p => Trim(c.pidQuery) == "" || PidMatches(Query(c.pidQuery), p)
  }
  function NameStage(c: Criteria): ProcessRecord -> bool {
    p => Trim(c.nameQuery) == "" || NameMatches(Query(c.nameQuery), p)
  }
  function PortStage(c: Criteria): ProcessRecord -> bool {
    p => Trim(c.portQuery) == "" || PortMatches(Query(c.portQuery), p)
  }
  function UserStage(c: Criteria): ProcessRecord -> bool {
    p => c.username == "" || UserMatches(Query(c.username), p)
  }

  /** Each stage, guard included, is one filter. */
  lemma PidStageIsFilter(rows: seq<ProcessRecord>, c: Criteria)
    ensures ByPid(rows, c) == Keep(rows, PidStage(c))
  {
    KeepGuarded(rows, Trim(c.pidQuery) != "", PidFilter(Query(c.pidQuery)), PidStage(c));
  }

  lemma NameStageIsFilter(rows: seq<ProcessRecord>, c: Criteria)
    ensures ByName(rows, c) == Keep(rows, NameStage(c))
  {
    KeepGuarded(rows, Trim(c.nameQuery) != "", NameFilter(Query(c.nameQuery)), NameStage(c));
  }

  lemma PortStageIsFilter(rows: seq<ProcessRecord>, c: Criteria)
    ensures ByPort(rows, c) == Keep(rows, PortStage(c))
  {
    KeepGuarded(rows, Trim(c.portQuery) != "", PortFilter(Query(c.portQuery)), PortStage(c));
  }

  lemma UserStageIsFilter(rows: seq<ProcessRecord>, c: Criteria)
    ensures ByUser(rows, c) == Keep(rows, UserStage(c))
  {
    KeepGuarded(rows, c.username != "", UserFilter(Query(c.username)), UserStage(c));
  }

  lemma CpuStageIsFilter(rows: seq<ProcessRecord>, c: Criteria)
    ensures ByCpu(rows, c) == Keep(rows, CpuFilter(c.cpuMin, c.cpuMax))
  {
    if c.cpuMin.None? && c.cpuMax.None? {
      KeepAll(rows, CpuFilter(c.cpuMin, c.cpuMax));
    }
  }

  lemma MemoryStageIsFilter(rows: seq<ProcessRecord>, c: Criteria)
    ensures ByMemory(rows, c) == Keep(rows, MemoryFilter(c.memoryMin, c.memoryMax))
  {
    if c.memoryMin.None? && c.memoryMax.None? {
      KeepAll(rows, MemoryFilter(c.memoryMin, c.memoryMax));
    }
  }

  /** One record meets the criteria exactly when it passes all six stages. */
  lemma StagesConjunction(c: Criteria)
    ensures forall x :: And(And(And(And(And(PidStage(c), NameStage(c)), PortStage(c)), UserStage(c)),
                               CpuFilter(c.cpuMin, c.cpuMax)), MemoryFilter(c.memoryMin, c.memoryMax))(x)
                     == MatchesTest(c)(x)
  {
    var cpu, mem := CpuFilter(c.cpuMin, c.cpuMax), MemoryFilter(c.memoryMin, c.memoryMax);
    var f2 := And(PidStage(c), NameStage(c));
    var f3 := And(f2, PortStage(c));
    var f4 := And(f3, UserStage(c));
    var f5 := And(f4, cpu);
    forall x ensures And(f5, mem)(x) == MatchesTest(c)(x) {
      var a, b, d, e, g, h := PidStage(c)(x), NameStage(c)(x), PortStage(c)(x), UserStage(c)(x), cpu(x), mem(x);
      assert f2(x) == (a && b);
      assert f3(x) == (a && b && d);
      assert f4(x) == (a && b && d && e);
      assert f5(x) == (a && b && d && e && g);
      assert MatchesTest(c)(x) == Matches(c, x) == (a && b && d && e && g && h);
    }
  }

  /** The six stage filters, chained, are the one conjunctive filter. */
  lemma ChainedStages(rows: seq<ProcessRecord>, c: Criteria)
    ensures Keep(Keep(Keep(Keep(Keep(Keep(rows, PidStage(c)), NameStage(c)), PortStage(c)), UserStage(c)),
                 CpuFilter(c.cpuMin, c.cpuMax)), MemoryFilter(c.memoryMin, c.memoryMax))
         == Keep(rows, MatchesTest(c))
  {
    var cpu, mem := CpuFilter(c.cpuMin, c.cpuMax), MemoryFilter(c.memoryMin, c.memoryMax);
    var f2 := And(PidStage(c), NameStage(c));
    var f3 := And(f2, PortStage(c));
    var f4 := And(f3, UserStage(c));
    var f5 := And(f4, cpu);
    calc {
      Keep(Keep(Keep(Keep(Keep(Keep(rows, PidStage(c)), NameStage(c)), PortStage(c)), UserStage(c)), cpu), mem);
      { KeepKeep(rows, PidStage(c), NameStage(c)); }
      Keep(Keep(Keep(Keep(Keep(rows, f2), PortStage(c)), UserStage(c)), cpu), mem);
      { KeepKeep(rows, f2, PortStage(c)); }
      Keep(Keep(Keep(Keep(rows, f3), UserStage(c)), cpu), mem);
      { KeepKeep(rows, f3, UserStage(c)); }
      Keep(Keep(Keep(rows, f4), cpu), mem);
      { KeepKeep(rows, f4, cpu); }
      Keep(Keep(rows, f5), mem);
      { KeepKeep(rows, f5, mem); }
      Keep(rows, And(f5, mem));
      { StagesConjunction(c); KeepExt(rows, And(f5, mem), MatchesTest(c)); }
      Keep(rows, MatchesTest(c));
    }
  }

  /** The chain keeps exactly the records that meet every criterion, in their
      order; so the order of the stages does not matter. */
  lemma FilterRowsIsConjunction(rows: seq<ProcessRecord>, c: Criteria)
    ensures FilterRows(rows, c) == Keep(rows, MatchesTest(c))
  {
    var r1 := ByPid(rows, c);
    PidStageIsFilter(rows, c);
    var r2 := ByName(r1, c);
    NameStageIsFilter(r1, c);
    var r3 := ByPort(r2, c);
    PortStageIsFilter(r2, c);
    var r4 := ByUser(r3, c);
    UserStageIsFilter(r3, c);
    var r5 := ByCpu(r4, c);
    CpuStageIsFilter(r4, c);
    MemoryStageIsFilter(r5, c);
    ChainedStages(rows, c);
  }

  /** Swapping any two criteria sets around leaves the result alone: filtering
      by `c1` then `c2` equals filtering by `c2` then `c1`. */
  lemma FilterRowsCommute(rows: seq<ProcessRecord>, c1: Criteria, c2: Criteria)
    ensures FilterRows(FilterRows(rows, c1), c2) == FilterRows(FilterRows(rows, c2), c1)
  {
    FilterRowsIsConjunction(rows, c1);
    FilterRowsIsConjunction(rows, c2);
    FilterRowsIsConjunction(Keep(rows, MatchesTest(c1)), c2);
    FilterRowsIsConjunction(Keep(rows, MatchesTest(c2)), c1);
    KeepCommute(rows, MatchesTest(c1), MatchesTest(c2));
  }

  /** With all queries blank and all bounds unset the chain changes nothing. */
  lemma EmptyCriteriaKeepAll(rows: seq<ProcessRecord>, c: Criteria)
    requires AllSpace(c.pidQuery) && AllSpace(c.nameQuery) && AllSpace(c.portQuery) && AllSpace(c.username)
    requires c.cpuMin.None? && c.cpuMax.None? && c.memoryMin.None? && c.memoryMax.None?
    ensures FilterRows(rows, c) == rows
  {
    TrimEmptyIffAllSpace(c.pidQuery);
    TrimEmptyIffAllSpace(c.nameQuery);
    TrimEmptyIffAllSpace(c.portQuery);
    TrimEmptyIffAllSpace(c.username);
  }

  /** The CPU range is inclusive at both ends. */
  lemma CpuRangeInclusive(rows: seq<ProcessRecord>, c: Criteria, lo: real, hi: real, x: ProcessRecord)
    requires c.cpuMin == Some(Finite(lo)) && c.cpuMax == Some(Finite(hi))
    ensures x in ByCpu(rows, c) <==> x in rows && lo <= CpuPercent(x) <= hi
  {
    if x in rows && lo <= CpuPercent(x) <= hi {
      var i :| 0 <= i < |rows| && rows[i] == x;
      assert CpuFilter(c.cpuMin, c.cpuMax)(rows[i]);
    }
  }

  /** The memory range is inclusive at both ends. */
  lemma MemoryRangeInclusive(rows: seq<ProcessRecord>, c: Criteria, lo: real, hi: real, x: ProcessRecord)
    requires c.memoryMin == Some(Finite(lo)) && c.memoryMax == Some(Finite(hi))
    ensures x in ByMemory(rows, c) <==> x in rows && lo <= MemoryMb(x) <= hi
  {
    if x in rows && lo <= MemoryMb(x) <= hi {
      var i :| 0 <= i < |rows| && rows[i] == x;
      assert MemoryFilter(c.memoryMin, c.memoryMax)(rows[i]);
    }
  }

  /** A lower bound above the upper bound is accepted and yields no rows. */
  lemma InvertedRangeEmpty(rows: seq<ProcessRecord>, c: Criteria)
    requires (c.cpuMin.Some? && c.cpuMin.value.Finite? && c.cpuMax.Some? && c.cpuMax.value.Finite?
              && c.cpuMin.value.value > c.cpuMax.value.value)
          || (c.memoryMin.Some? && c.memoryMin.value.Finite? && c.memoryMax.Some? && c.memoryMax.value.Finite?
              && c.memoryMin.value.value > c.memoryMax.value.value)
    ensures FilterRows(rows, c) == []
  {
    FilterRowsIsConjunction(rows, c);
    KeepNone(rows, MatchesTest(c));
  }

  // ---------------------------------------------------------------------------
  // Column sort override
  // ---------------------------------------------------------------------------

  datatype SortColumn = CpuColumn | MemoryColumn

  datatype SortOrder = Asc | Desc

  /** `sortBy` (null until a column header is clicked) and `sortOrder`. */
  datatype SortState = SortState(sortBy: Option<SortColumn>, order: SortOrder)

  const InitialSort: SortState := SortState(None, Desc)

  function ColumnValue(col: SortColumn, p: ProcessRecord): real {
    match col
    case CpuColumn => CpuPercent(p)
    case MemoryColumn => MemoryMb(p)
  }

  /** The comparator `aValue - bValue` (ascending) or `bValue - aValue` (descending). */
  function OverrideKey(col: SortColumn, order: SortOrder): ProcessRecord -> Key {
    p => Key(if order == Asc then ColumnValue(col, p) else -ColumnValue(col, p), 0.0, "")
  }

  function HasValue(col: SortColumn, v: real): ProcessRecord -> bool {
    p => ColumnValue(col, p) == v
  }

  /** The `if (sortBy)` block of the `filteredRows` memo. */
  function ApplySort(rows: seq<ProcessRecord>, s: SortState): (r: seq<ProcessRecord>)
    ensures multiset(r) == multiset(rows)
    ensures s.sortBy.None? ==> r == rows
    ensures s.sortBy.Some? ==> ColumnOrdered(r, s.sortBy.value, s.order)
  {
    match s.sortBy
    case None => rows
    case Some(col) =>
      ColumnSortOrdered(rows, col, s.order);
      SortBy(rows, OverrideKey(col, s.order))
  }

  /** `r` runs ascending or descending on the column. */
  predicate ColumnOrdered(r: seq<ProcessRecord>, col: SortColumn, order: SortOrder) {
    forall i, j :: 0 <= i < j < |r| ==>
      if order == Asc then ColumnValue(col, r[i]) <= ColumnValue(col, r[j])
      else ColumnValue(col, r[i]) >= ColumnValue(col, r[j])
  }

  /** Sorting on a column orders the rows in the chosen direction. */
  lemma ColumnSortOrdered(rows: seq<ProcessRecord>, col: SortColumn, order: SortOrder)
    ensures ColumnOrdered(SortBy(rows, OverrideKey(col, order)), col, order)
  {
    var key := OverrideKey(col, order);
    var r := SortBy(rows, key);
    SortBySorted(rows, key);
    forall i, j | 0 <= i < j < |r|
      ensures if order == Asc then ColumnValue(col, r[i]) <= ColumnValue(col, r[j])
              else ColumnValue(col, r[i]) >= ColumnValue(col, r[j])
    {
      assert KeyLe(key(r[i]), key(r[j]));
    }
  }

  /** Sorting on a column keeps the rows sharing a value in their previous order. */
  lemma ColumnSortStable(rows: seq<ProcessRecord>, col: SortColumn, order: SortOrder, v: real)
    ensures Keep(SortBy(rows, OverrideKey(col, order)), HasValue(col, v)) == Keep(rows, HasValue(col, v))
  {
    var key := OverrideKey(col, order);
    var k := Key(if order == Asc then v else -v, 0.0, "");
    SortByStable(rows, key, k);
    KeepExt(SortBy(rows, key), SameKey(key, k), HasValue(col, v));
    KeepExt(rows, SameKey(key, k), HasValue(col, v));
  }

  /** The re-sort is a permutation, ordered on the chosen column in the chosen
      direction, and records with equal values keep their previous order. */
  lemma ApplySortSpec(rows: seq<ProcessRecord>, s: SortState, v: real)
    ensures var r := ApplySort(rows, s);
      && multiset(r) == multiset(rows)
      && (s.sortBy.None? ==> r == rows)
      && (s.sortBy.Some? ==> ColumnOrdered(r, s.sortBy.value, s.order))
      && (s.sortBy.Some? ==> Keep(r, HasValue(s.sortBy.value, v)) == Keep(rows, HasValue(s.sortBy.value, v)))
  {
    if s.sortBy.Some? {
      ColumnSortOrdered(rows, s.sortBy.value, s.order);
      ColumnSortStable(rows, s.sortBy.value, s.order, v);
    }
  }

  /** `handleSort`: the same column flips the direction, another column
      becomes the sort column in descending order. */
  function HandleSort(s: SortState, column: SortColumn): (r: SortState)
    ensures r.sortBy == Some(column)
    ensures s.sortBy == Some(column) ==> r.order != s.order
    ensures s.sortBy != Some(column) ==> r.order == Desc
  {
    if s.sortBy == Some(column) then
      SortState(s.sortBy, if s.order == Asc then Desc else Asc)
    else
      SortState(Some(column), Desc)
  }

  /** Clicking the current sort column twice restores the sort state. */
  lemma HandleSortTwice(s: SortState, column: SortColumn)
    requires s.sortBy == Some(column)
    ensures HandleSort(HandleSort(s, column), column) == s
  {
  }

  /** The whole `filteredRows` memo. */
  function FilteredRows(snapshot: seq<ProcessRecord>, showUnknown: bool, c: Criteria, s: SortState): (r: seq<ProcessRecord>)
    ensures forall x :: x in r <==> x in snapshot && (showUnknown || !IsUnknown(x)) && Matches(c, x)
  {
    var rows := VisibleRows(snapshot, showUnknown);
    SortedFilterMembers(rows, c, s);
    ApplySort(FilterRows(rows, c), s)
  }

  /** Sorting after filtering keeps exactly the rows that meet the criteria. */
  lemma SortedFilterMembers(rows: seq<ProcessRecord>, c: Criteria, s: SortState)
    ensures forall x :: x in ApplySort(FilterRows(rows, c), s) <==> x in rows && Matches(c, x)
  {
    var f := FilterRows(rows, c);
    FilterRowsIsConjunction(rows, c);
    KeepMembers(rows, MatchesTest(c));
    SameMembers(ApplySort(f, s), f);
  }

  /** Without a sort column the table is a subsequence of the visible rows,
      holding exactly the visible rows that meet the criteria. */
  lemma FilteredRowsUnsorted(snapshot: seq<ProcessRecord>, showUnknown: bool, c: Criteria, s: SortState)
    requires s.sortBy.None?
    ensures var r := FilteredRows(snapshot, showUnknown, c, s);
      && IsSubseq(r, VisibleRows(snapshot, showUnknown))
      && forall x :: x in r <==> x in VisibleRows(snapshot, showUnknown) && Matches(c, x)
  {
    var rows := VisibleRows(snapshot, showUnknown);
    FilterRowsIsConjunction(rows, c);
    KeepIsSubseq(rows, MatchesTest(c));
  }

  /** With a sort column the table is a permutation of the filtered rows. */
  lemma FilteredRowsSorted(snapshot: seq<ProcessRecord>, showUnknown: bool, c: Criteria, s: SortState)
    ensures multiset(FilteredRows(snapshot, showUnknown, c, s))
         == multiset(FilterRows(VisibleRows(snapshot, showUnknown), c))
  {
    ApplySortSpec(FilterRows(VisibleRows(snapshot, showUnknown), c), s, 0.0);
  }

  // ---------------------------------------------------------------------------
  // Incremental pagination
  // ---------------------------------------------------------------------------

  const PageSize: nat := 100

  /** Scroll position of the table body, the three numbers `onScrollLoadMore` reads. */
  datatype ScrollGeometry = ScrollGeometry(scrollTop: real, clientHeight: real, scrollHeight: real)

  /** Within 48 px of the bottom: at most that much of the table lies below
      the visible part. */
  function NearBottom(g: ScrollGeometry): (r: bool)
    ensures r <==> g.scrollHeight - (g.scrollTop + g.clientHeight) <= 48.0
  {
    g.scrollTop + g.clientHeight >= g.scrollHeight - 48.0
  }

  /** The effect on `filteredRows`: any new result starts again at one page. */
  function ResetRenderCount(): (r: nat)
    ensures forall rowCount: nat :: PagingInvariant(r, rowCount)
    ensures forall rows: seq<ProcessRecord> :: |RenderedRows(rows, r)| <= PageSize
  {
    PageSize
  }

  /** `onScrollLoadMore`: with the table mounted and scrolled near the bottom,
      one more page is added while rows remain unshown. */
  function LoadMore(count: nat, rowCount: nat, el: Option<ScrollGeometry>): (r: nat)
    ensures r == count || r == count + PageSize
    ensures r > count <==> el.Some? && NearBottom(el.value) && count < rowCount
  {
    if el.None? then count
    else if NearBottom(el.value) then (if count < rowCount then count + PageSize else count)
    else count
  }

  /** `filteredRows.slice(0, renderCount)`. */
  function RenderedRows(rows: seq<ProcessRecord>, count: nat): (r: seq<ProcessRecord>)
    ensures |r| == if count < |rows| then count else |rows|
    ensures r == rows[..|r|]
  {
    if count < |rows| then rows[..count] else rows
  }

  /** What the render count can be: whole pages, at least one, and never more
      than one page past the rows. */
  ghost predicate PagingInvariant(count: nat, rowCount: nat) {
    count >= PageSize && count % PageSize == 0 && (count == PageSize || count < rowCount + PageSize)
  }

  lemma PagingInvariantKept(count: nat, rowCount: nat, el: Option<ScrollGeometry>)
    requires PagingInvariant(count, rowCount)
    ensures PagingInvariant(LoadMore(count, rowCount, el), rowCount)
    ensures PagingInvariant(ResetRenderCount(), rowCount)
  {
  }

  /** `k` scroll events near the bottom, starting from `count`. */
  function ScrollTimes(count: nat, rowCount: nat, k: nat): nat
    decreases k
  {
    if k == 0 then count else ScrollTimes(LoadMore(count, rowCount, Some(ScrollGeometry(0.0, 0.0, 0.0))), rowCount, k - 1)
  }

  /** Pages needed to show all rows (at least one). */
  function Pages(rowCount: nat): nat {
    if rowCount == 0 then 1 else (rowCount + PageSize - 1) / PageSize
  }

  lemma {:induction false} ScrollTimesPages(m: nat, rowCount: nat, k: nat)
    requires 1 <= m <= Pages(rowCount)
    ensures ScrollTimes(m * PageSize, rowCount, k) == PageSize * (if m + k < Pages(rowCount) then m + k else Pages(rowCount))
    decreases k
  {
    var p := Pages(rowCount);
    assert rowCount == 0 || (p - 1) * PageSize < rowCount <= p * PageSize;
    if k > 0 {
      if m * PageSize < rowCount {
        assert m < p;
        assert LoadMore(m * PageSize, rowCount, Some(ScrollGeometry(0.0, 0.0, 0.0))) == (m + 1) * PageSize;
        ScrollTimesPages(m + 1, rowCount, k - 1);
      } else {
        assert m == p;
        ScrollTimesPages(m, rowCount, k - 1);
      }
    }
  }

  /** Scrolling to the bottom `Pages - 1` times renders every row. */
  lemma ScrollingRendersAll(rows: seq<ProcessRecord>)
    ensures RenderedRows(rows, ScrollTimes(ResetRenderCount(), |rows|, Pages(|rows|) - 1)) == rows
  {
    ScrollTimesPages(1, |rows|, Pages(|rows|) - 1);
  }
}
