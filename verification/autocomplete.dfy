/** The suggestion list under the process table's search fields: which
    processes are suggested for a query, one per pid, at most a fixed number,
    ordered by kind and name; the keyboard highlight; and the value a chosen
    suggestion puts into the field. */
module Autocomplete {
  import opened Js
  import opened Text
  import opened Seqs
  import opened ProcessRecords
  import ProcessView

  /** The name shown for a process that has none. */
  const UnnamedLabel: string := "Неизвестно"

  /** The default `maxSuggestions`. */
  const DefaultMaxSuggestions: nat := 8

  /** What a query is matched against. */
  datatype Mode = PidMode | NameMode | PortMode

  /** The `searchType` prop: 'auto' or one fixed mode. */
  datatype SearchType = Auto | Fixed(mode: Mode)

  datatype Suggestion = Suggestion(
    pid: string,
    name: string,
    username: string,
    ports: seq<nat>,
    displayValue: string,
    kind: Mode)

  /** The query: the trimmed field value in lower case. */
  function Query(value: string): string {
    Lower(Trim(value))
  }

  /** 'auto' searches pids for an all-digit query and names otherwise. */
  function ActualMode(st: SearchType, q: string): (r: Mode)
    ensures st.Fixed? ==> r == st.mode
    ensures st.Auto? ==> (r == PidMode <==> IsDigits(q)) && r != PortMode
  {
    match st
    case Fixed(m) => m
    case Auto => if IsDigits(q) then PidMode else NameMode
  }

  /** The map key of a process: its pid as text, "" for a missing pid. */
  function PidKey(p: ProcessRecord): string {
    ProcessView.PidText(p)
  }

  function DisplayName(p: ProcessRecord): string {
    if p.name == "" then UnnamedLabel else p.name
  }

  function PortContains(q: string): nat -> bool {
    (port: nat) => Contains(NatToString(port), q)
  }

  /** The ports of `p` whose decimal text contains the query. */
  function MatchingPorts(p: ProcessRecord, q: string): seq<nat> {
    Keep(p.ports, PortContains(q))
  }

  function PortTexts(ports: seq<nat>): (r: seq<string>)
    ensures |r| == |ports|
    ensures forall i :: 0 <= i < |ports| ==> r[i] == NatToString(ports[i])
  {
    seq(|ports|, i requires 0 <= i < |ports| => NatToString(ports[i]))
  }

  /** Whether the process is suggested. In pid mode a pid equal to the query
      is left out: it is already what the field holds. */
  predicate Included(m: Mode, q: string, p: ProcessRecord) {
    match m
    case PidMode => Contains(PidKey(p), q) && PidKey(p) != q
    case NameMode => Contains(Lower(p.name), q)
    case PortMode => |MatchingPorts(p, q)| > 0
  }

  /** The suggestion a matching process yields. */
  function Make(m: Mode, q: string, p: ProcessRecord): (r: Suggestion)
    ensures r.pid == PidKey(p) && r.name == DisplayName(p) && r.kind == m && r.ports == p.ports
    ensures m == PidMode ==> r.displayValue == r.pid
    ensures m == NameMode ==> r.displayValue == r.name
    ensures m == PortMode ==> r.displayValue == Join(PortTexts(MatchingPorts(p, q)), ", ")
  {
    var display := match m
      case PidMode => PidKey(p)
      case NameMode => DisplayName(p)
      case PortMode => Join(PortTexts(MatchingPorts(p, q)), ", ");
    Suggestion(PidKey(p), DisplayName(p), p.username, p.ports, display, m)
  }

  /** `ps[k]` satisfies `inc` and no earlier element that does has the same key. */
  ghost predicate FirstOfKey<T, K>(ps: seq<T>, inc: T -> bool, key: T -> K, k: int) {
    && 0 <= k < |ps| && inc(ps[k])
    && forall j :: 0 <= j < k ==> !(inc(ps[j]) && key(ps[j]) == key(ps[k]))
  }

  function Keys<T, K(==)>(s: seq<T>, key: T -> K): (r: set<K>)
    ensures forall i :: 0 <= i < |s| ==> key(s[i]) in r
    ensures forall k :: k in r ==> exists i :: 0 <= i < |s| && key(s[i]) == k
    decreases |s|
  {
    if |s| == 0 then {} else Keys(s[..|s| - 1], key) + {key(s[|s| - 1])}
  }

  /** A map filled in order whose existing entries are never replaced: the
      first element satisfying `inc` of each key, in order of first appearance. */
  function FirstByKey<T, K(==)>(ps: seq<T>, inc: T -> bool, key: T -> K): (r: seq<T>)
    ensures |r| <= |ps|
    ensures forall i, j :: 0 <= i < j < |r| ==> key(r[i]) != key(r[j])
    decreases |ps|
  {
    if |ps| == 0 then []
    else
      var init := FirstByKey(ps[..|ps| - 1], inc, key);
      var p := ps[|ps| - 1];
      if inc(p) && key(p) !in Keys(init, key) then init + [p] else init
  }

  /** A key is present exactly when some element with that key satisfies `inc`. */
  lemma {:induction false} FirstByKeyKeys<T, K>(ps: seq<T>, inc: T -> bool, key: T -> K)
    ensures forall k :: k in Keys(FirstByKey(ps, inc, key), key) <==> exists j :: 0 <= j < |ps| && inc(ps[j]) && key(ps[j]) == k
    decreases |ps|
  {
    if |ps| > 0 {
      var init := ps[..|ps| - 1];
      var c := FirstByKey(init, inc, key);
      FirstByKeyKeys(init, inc, key);
      var p := ps[|ps| - 1];
      if inc(p) && key(p) !in Keys(c, key) {
        assert (c + [p])[..|c|] == c;
      }
      forall k
        ensures k in Keys(FirstByKey(ps, inc, key), key) <==> exists j :: 0 <= j < |ps| && inc(ps[j]) && key(ps[j]) == k
      {
        if exists j :: 0 <= j < |init| && inc(init[j]) && key(init[j]) == k {
          var j :| 0 <= j < |init| && inc(init[j]) && key(init[j]) == k;
          assert ps[j] == init[j];
        }
        if exists j :: 0 <= j < |ps| && inc(ps[j]) && key(ps[j]) == k {
          var j :| 0 <= j < |ps| && inc(ps[j]) && key(ps[j]) == k;
          if j < |init| {
            assert init[j] == ps[j];
          }
        }
      }
    }
  }

  lemma NotInKeys<T, K>(s: seq<T>, inc: T -> bool, key: T -> K, k: K)
    requires forall j :: 0 <= j < |s| ==> !(inc(s[j]) && key(s[j]) == k)
    ensures k !in Keys(FirstByKey(s, inc, key), key)
  {
    FirstByKeyKeys(s, inc, key);
  }

  lemma {:induction false} InKeys<T, K>(s: seq<T>, inc: T -> bool, key: T -> K, j: int)
    requires 0 <= j < |s| && inc(s[j])
    ensures key(s[j]) in Keys(FirstByKey(s, inc, key), key)
    decreases |s|
  {
    var init := s[..|s| - 1];
    var c := FirstByKey(init, inc, key);
    var p := s[|s| - 1];
    if inc(p) && key(p) !in Keys(c, key) {
      assert (c + [p])[..|c|] == c;
      assert Keys(c + [p], key) == Keys(c, key) + {key(p)};
      if j < |s| - 1 {
        assert init[j] == s[j];
        InKeys(init, inc, key, j);
      }
    } else if j < |s| - 1 {
      assert init[j] == s[j];
      InKeys(init, inc, key, j);
    }
  }

  /** Below the last position, being first of a key does not depend on the last element. */
  lemma FirstOfKeyPrefix<T, K>(ps: seq<T>, inc: T -> bool, key: T -> K, k: int)
    requires 0 <= k < |ps| - 1
    ensures FirstOfKey(ps, inc, key, k) <==> FirstOfKey(ps[..|ps| - 1], inc, key, k)
  {
    assert forall j :: 0 <= j <= k ==> ps[j] == ps[..|ps| - 1][j];
  }

  /** Every kept element is the first of its key. */
  lemma {:induction false} FirstByKeySound<T, K>(ps: seq<T>, inc: T -> bool, key: T -> K)
    ensures forall x :: x in FirstByKey(ps, inc, key) ==> exists k :: FirstOfKey(ps, inc, key, k) && x == ps[k]
    decreases |ps|
  {
    if |ps| > 0 {
      var init := ps[..|ps| - 1];
      var last := |ps| - 1;
      var c := FirstByKey(init, inc, key);
      FirstByKeySound(init, inc, key);
      forall x | x in FirstByKey(ps, inc, key)
        ensures exists k :: FirstOfKey(ps, inc, key, k) && x == ps[k]
      {
        if x in c {
          var k :| FirstOfKey(init, inc, key, k) && x == init[k];
          FirstOfKeyPrefix(ps, inc, key, k);
          assert x == ps[k];
        } else {
          forall j | 0 <= j < last
            ensures !(inc(ps[j]) && key(ps[j]) == key(ps[last]))
          {
            if inc(ps[j]) && key(ps[j]) == key(ps[last]) {
              assert init[j] == ps[j];
              InKeys(init, inc, key, j);
            }
          }
          assert FirstOfKey(ps, inc, key, last);
        }
      }
    }
  }

  /** The first element of every key is kept. */
  lemma {:induction false} FirstByKeyComplete<T, K>(ps: seq<T>, inc: T -> bool, key: T -> K)
    ensures forall k :: FirstOfKey(ps, inc, key, k) ==> ps[k] in FirstByKey(ps, inc, key)
    decreases |ps|
  {
    if |ps| > 0 {
      var init := ps[..|ps| - 1];
      var last := |ps| - 1;
      var c := FirstByKey(init, inc, key);
      FirstByKeyComplete(init, inc, key);
      forall k | FirstOfKey(ps, inc, key, k)
        ensures ps[k] in FirstByKey(ps, inc, key)
      {
        if k < last {
          FirstOfKeyPrefix(ps, inc, key, k);
          assert init[k] == ps[k];
        } else {
          forall j | 0 <= j < |init|
            ensures !(inc(init[j]) && key(init[j]) == key(ps[last]))
          {
            assert init[j] == ps[j];
          }
          NotInKeys(init, inc, key, key(ps[last]));
        }
      }
    }
  }

  function IncludedTest(m: Mode, q: string): ProcessRecord -> bool {
    p => Included(m, q, p)
  }

  function MakeAll(m: Mode, q: string, ps: seq<ProcessRecord>): (r: seq<Suggestion>)
    ensures |r| == |ps|
    ensures forall i :: 0 <= i < |ps| ==> r[i] == Make(m, q, ps[i])
  {
    seq(|ps|, i requires 0 <= i < |ps| => Make(m, q, ps[i]))
  }

  /** The suggestion map in insertion order. */
  function Collect(m: Mode, q: string, ps: seq<ProcessRecord>): (r: seq<Suggestion>)
    ensures |r| <= |ps|
    ensures forall i :: 0 <= i < |r| ==> r[i].kind == m
    ensures forall i, j :: 0 <= i < j < |r| ==> r[i].pid != r[j].pid
  {
    MakeAll(m, q, FirstByKey(ps, IncludedTest(m, q), PidKey))
  }

  /** Each collected suggestion is that of the first matching process of its pid. */
  lemma CollectSound(m: Mode, q: string, ps: seq<ProcessRecord>)
    ensures forall x :: x in Collect(m, q, ps) ==>
      exists k :: FirstOfKey(ps, IncludedTest(m, q), PidKey, k) && x == Make(m, q, ps[k])
  {
    var firsts := FirstByKey(ps, IncludedTest(m, q), PidKey);
    FirstByKeySound(ps, IncludedTest(m, q), PidKey);
    forall x | x in Collect(m, q, ps)
      ensures exists k :: FirstOfKey(ps, IncludedTest(m, q), PidKey, k) && x == Make(m, q, ps[k])
    {
      var i :| 0 <= i < |firsts| && Collect(m, q, ps)[i] == x;
      assert firsts[i] in firsts;
    }
  }

  /** The first matching process of every pid has its suggestion collected. */
  lemma CollectComplete(m: Mode, q: string, ps: seq<ProcessRecord>)
    ensures forall k :: FirstOfKey(ps, IncludedTest(m, q), PidKey, k) ==> Make(m, q, ps[k]) in Collect(m, q, ps)
  {
    var firsts := FirstByKey(ps, IncludedTest(m, q), PidKey);
    FirstByKeyComplete(ps, IncludedTest(m, q), PidKey);
    forall k | FirstOfKey(ps, IncludedTest(m, q), PidKey, k)
      ensures Make(m, q, ps[k]) in Collect(m, q, ps)
    {
      var i :| 0 <= i < |firsts| && firsts[i] == ps[k];
      assert Collect(m, q, ps)[i] == Make(m, q, ps[k]);
    }
  }

  /** `order[type]`: pid before name before port. */
  function Rank(m: Mode): real {
    match m
    case PidMode => 0.0
    case NameMode => 1.0
    case PortMode => 2.0
  }

  /** The comparator's key: kind rank, then name. */
  function RankKey(s: Suggestion): Key {
    Key(Rank(s.kind), 0.0, s.name)
  }

  function Take<T>(s: seq<T>, n: nat): (r: seq<T>)
    ensures |r| <= n && |r| <= |s| && r == s[..|r|]
    ensures n <= |s| ==> |r| == n
    ensures |s| <= n ==> r == s
  {
    if n <= |s| then s[..n] else s
  }

  /** The `suggestions` memo: nothing for a blank value; otherwise the
      collected suggestions cut to `max` and then sorted by kind and name. */
  function Suggestions(ps: seq<ProcessRecord>, value: string, max: nat, st: SearchType): (r: seq<Suggestion>)
    ensures |r| <= max
    ensures AllSpace(value) ==> r == []
    ensures var q := Query(value);
      !AllSpace(value) ==> multiset(r) == multiset(Take(Collect(ActualMode(st, q), q, ps), max))
    ensures forall i :: 0 <= i < |r| ==> r[i].kind == ActualMode(st, Query(value))
    ensures SortedBy(r, RankKey)
  {
    TrimEmptyIffAllSpace(value);
    if Trim(value) == "" then []
    else
      var q := Query(value);
      var taken := Take(Collect(ActualMode(st, q), q, ps), max);
      SortBySorted(taken, RankKey);
      var r := SortBy(taken, RankKey);
      SameKind(taken, r, ActualMode(st, q));
      r
  }

  /** Reordering keeps every suggestion's kind. */
  lemma SameKind(a: seq<Suggestion>, b: seq<Suggestion>, m: Mode)
    requires forall i :: 0 <= i < |a| ==> a[i].kind == m
    requires multiset(a) == multiset(b)
    ensures forall i :: 0 <= i < |b| ==> b[i].kind == m
  {
    forall i | 0 <= i < |b| ensures b[i].kind == m {
      assert b[i] in multiset(a);
    }
  }

  /** No two positions of `s` share an id. */
  ghost predicate DistinctIds<T, K>(s: seq<T>, id: T -> K) {
    forall i, j :: 0 <= i < |s| && 0 <= j < |s| && i != j ==> id(s[i]) != id(s[j])
  }

  lemma ConsDistinct<T, K>(a: T, rest: seq<T>, id: T -> K)
    requires DistinctIds(rest, id)
    requires forall y :: y in rest ==> id(y) != id(a)
    ensures DistinctIds([a] + rest, id)
  {
    var s := [a] + rest;
    forall i, j | 0 <= i < |s| && 0 <= j < |s| && i != j
      ensures id(s[i]) != id(s[j])
    {
      if i > 0 && j > 0 {
        assert s[i] == rest[i - 1] && s[j] == rest[j - 1];
      } else if i == 0 {
        assert s[j] == rest[j - 1];
      } else {
        assert s[i] == rest[i - 1];
      }
    }
  }

  lemma {:induction false} InsertKeepsDistinct<T, K>(s: seq<T>, x: T, key: T -> Key, id: T -> K)
    requires DistinctIds(s, id)
    requires forall y :: y in s ==> id(y) != id(x)
    ensures DistinctIds(Insert(s, x, key), id)
    decreases |s|
  {
    if |s| == 0 {
    } else if KeyLe(key(s[0]), key(x)) {
      var tail := s[1..];
      assert DistinctIds(tail, id) by {
        forall i, j | 0 <= i < |tail| && 0 <= j < |tail| && i != j
          ensures id(tail[i]) != id(tail[j])
        {
          assert tail[i] == s[i + 1] && tail[j] == s[j + 1];
        }
      }
      InsertKeepsDistinct(tail, x, key, id);
      var rest := Insert(tail, x, key);
      forall z | z in rest
        ensures id(z) != id(s[0])
      {
        assert z in multiset(tail) + multiset{x};
        if z != x {
          var i :| 0 <= i < |tail| && tail[i] == z;
          assert s[i + 1] == z;
        }
      }
      ConsDistinct(s[0], rest, id);
    } else {
      ConsDistinct(x, s, id);
    }
  }

  /** Sorting keeps a sequence free of repeated ids. */
  lemma {:induction false} SortByKeepsDistinct<T, K>(s: seq<T>, key: T -> Key, id: T -> K)
    requires DistinctIds(s, id)
    ensures DistinctIds(SortBy(s, key), id)
    decreases |s|
  {
    if |s| > 0 {
      var init, x := s[..|s| - 1], s[|s| - 1];
      assert DistinctIds(init, id) by {
        forall i, j | 0 <= i < |init| && 0 <= j < |init| && i != j
          ensures id(init[i]) != id(init[j])
        {
          assert init[i] == s[i] && init[j] == s[j];
        }
      }
      SortByKeepsDistinct(init, key, id);
      var sorted := SortBy(init, key);
      forall y | y in sorted
        ensures id(y) != id(x)
      {
        assert y in multiset(init);
        var i :| 0 <= i < |init| && init[i] == y;
        assert s[i] == y;
      }
      InsertKeepsDistinct(sorted, x, key, id);
    }
  }

  function SuggestionPid(x: Suggestion): string { x.pid }

  /** Every suggestion comes from the first matching process of its pid. */
  lemma SuggestionsAreFirstMatches(ps: seq<ProcessRecord>, value: string, max: nat, st: SearchType)
    ensures var q := Query(value); var m := ActualMode(st, q);
      forall x :: x in Suggestions(ps, value, max, st) ==>
        exists k :: FirstOfKey(ps, IncludedTest(m, q), PidKey, k) && x == Make(m, q, ps[k])
  {
    var q := Query(value);
    var m := ActualMode(st, q);
    CollectSound(m, q, ps);
    TrimEmptyIffAllSpace(value);
    if !AllSpace(value) {
      var c := Collect(m, q, ps);
      var taken := Take(c, max);
      forall x | x in Suggestions(ps, value, max, st)
        ensures x in c
      {
        assert x in multiset(taken);
      }
    }
  }

  /** No two suggestions share a pid. */
  lemma SuggestionsDistinct(ps: seq<ProcessRecord>, value: string, max: nat, st: SearchType)
    ensures var r := Suggestions(ps, value, max, st);
      forall i, j :: 0 <= i < j < |r| ==> r[i].pid != r[j].pid
  {
    TrimEmptyIffAllSpace(value);
    if !AllSpace(value) {
      var q := Query(value);
      var taken := Take(Collect(ActualMode(st, q), q, ps), max);
      TakenDistinct(Collect(ActualMode(st, q), q, ps), max);
      SortByKeepsDistinct(taken, RankKey, SuggestionPid);
      var r := SortBy(taken, RankKey);
      assert r == Suggestions(ps, value, max, st);
      DistinctPids(r);
    }
  }

  /** A prefix of a list with distinct pids has distinct pids. */
  lemma TakenDistinct(c: seq<Suggestion>, max: nat)
    requires forall i, j :: 0 <= i < j < |c| ==> c[i].pid != c[j].pid
    ensures DistinctIds(Take(c, max), SuggestionPid)
  {
    var t := Take(c, max);
    forall i, j | 0 <= i < |t| && 0 <= j < |t| && i != j
      ensures SuggestionPid(t[i]) != SuggestionPid(t[j])
    {
      assert t[i] == c[i] && t[j] == c[j];
    }
  }

  lemma DistinctPids(r: seq<Suggestion>)
    requires DistinctIds(r, SuggestionPid)
    ensures forall i, j :: 0 <= i < j < |r| ==> r[i].pid != r[j].pid
  {
    forall i, j | 0 <= i < j < |r| ensures r[i].pid != r[j].pid {
      assert SuggestionPid(r[i]) != SuggestionPid(r[j]);
    }
  }

  /** A pid search never suggests the pid the field already holds. */
  lemma PidSearchSkipsExactPid(ps: seq<ProcessRecord>, value: string, max: nat, st: SearchType)
    requires ActualMode(st, Query(value)) == PidMode
    ensures forall x :: x in Suggestions(ps, value, max, st) ==> x.pid != Query(value) && Contains(x.pid, Query(value))
  {
    var q := Query(value);
    SuggestionsAreFirstMatches(ps, value, max, st);
    forall x | x in Suggestions(ps, value, max, st)
      ensures x.pid != q && Contains(x.pid, q)
    {
      var k :| FirstOfKey(ps, IncludedTest(PidMode, q), PidKey, k) && x == Make(PidMode, q, ps[k]);
      assert IncludedTest(PidMode, q)(ps[k]);
    }
  }

  /** With the component's default limit of eight, a query that matches at
      most eight processes suggests every one of them, and a broader query
      suggests exactly eight. */
  lemma DefaultLimit(ps: seq<ProcessRecord>, value: string, st: SearchType)
    requires !AllSpace(value)
    ensures var c := Collect(ActualMode(st, Query(value)), Query(value), ps);
      var r := Suggestions(ps, value, DefaultMaxSuggestions, st);
      && (|c| <= DefaultMaxSuggestions ==> multiset(r) == multiset(c))
      && (|c| >= DefaultMaxSuggestions ==> |r| == DefaultMaxSuggestions)
  {
    var c := Collect(ActualMode(st, Query(value)), Query(value), ps);
    var r := Suggestions(ps, value, DefaultMaxSuggestions, st);
    assert |r| == |multiset(r)| == |Take(c, DefaultMaxSuggestions)|;
  }

  /** The list is cut before it is sorted: with a limit of one, the first
      matching process is suggested even when a later one sorts first. */
  lemma TruncationBeforeSort()
    ensures var later := ProcessRecord(2, "xa", "", "", "", "", 0, 0, Finite(0.0), 0.0, Finite(0.0), []);
      var earlier := ProcessRecord(1, "xb", "", "", "", "", 0, 0, Finite(0.0), 0.0, Finite(0.0), []);
      && Suggestions([earlier, later], "x", 1, Auto) == [Make(NameMode, "x", earlier)]
      && StrLe("xa", "xb") && "xa" != "xb"
  {
    var later := ProcessRecord(2, "xa", "", "", "", "", 0, 0, Finite(0.0), 0.0, Finite(0.0), []);
    var earlier := ProcessRecord(1, "xb", "", "", "", "", 0, 0, Finite(0.0), 0.0, Finite(0.0), []);
    assert Trim("x") == "x";
    assert Lower("x") == "x";
    assert Query("x") == "x";
    assert !IsDigits("x");
    assert ActualMode(Auto, "x") == NameMode;
    CollectStartsWith(earlier, later);
    var c := Collect(NameMode, "x", [earlier, later]);
    assert Take(c, 1) == [Make(NameMode, "x", earlier)];
    var r := Suggestions([earlier, later], "x", 1, Auto);
    assert multiset(r) == multiset([Make(NameMode, "x", earlier)]);
    assert |r| == 1;
    assert r[0] in multiset(r);
  }

  /** The first collected suggestion for a name query "x" comes from the
      first process, when its name contains "x". */
  lemma CollectStartsWith(earlier: ProcessRecord, later: ProcessRecord)
    requires earlier.name == "xb"
    ensures var c := Collect(NameMode, "x", [earlier, later]);
      |c| >= 1 && c[0] == Make(NameMode, "x", earlier)
  {
    var ps := [earlier, later];
    var inc := IncludedTest(NameMode, "x");
    assert Lower("xb") == "xb";
    assert OccursAt("xb", "x", 0);
    assert inc(earlier);
    assert ps[..1] == [earlier];
    assert ps[..1][..0] == [];
    assert FirstByKey(ps[..1], inc, PidKey) == [earlier];
    var f := FirstByKey(ps, inc, PidKey);
    assert f == [earlier] || f == [earlier, later];
  }

  /** Keys the open list reacts to. */
  datatype KeyPress = ArrowDown | ArrowUp | Enter | Escape | OtherKey

  /** The list's visibility and highlighted row (-1 for none). */
  datatype Menu = Menu(isOpen: bool, highlighted: int)

  /** The highlight is "none" or a row of a list of `n` suggestions. */
  predicate HighlightInRange(m: Menu, n: nat) {
    -1 <= m.highlighted < n
  }

  /** The effect that runs when the list length or the value changes: open
      exactly when there is something to show, nothing highlighted. */
  function Refresh(n: nat, value: string): (r: Menu)
    ensures r.isOpen <==> n > 0 && !AllSpace(value)
    ensures HighlightInRange(r, n) && r.highlighted == -1
  {
    TrimEmptyIffAllSpace(value);
    Menu(n > 0 && Trim(value) != "", -1)
  }

  /** The mouse entering row `i`. */
  function Hover(m: Menu, n: nat, i: nat): (r: Menu)
    requires i < n
    ensures HighlightInRange(r, n) && r.highlighted == i && r.isOpen == m.isOpen
  {
    m.(highlighted := i)
  }

  /** The key handler: a closed list ignores keys; the arrows move the
      highlight without leaving the list; Enter picks the highlighted row
      (closing the list and clearing the highlight); Escape closes. The
      second component is the picked row. */
  function OnKey(m: Menu, n: nat, k: KeyPress): (r: (Menu, Option<nat>))
    ensures !m.isOpen ==> r == (m, None)
    ensures HighlightInRange(m, n) ==> HighlightInRange(r.0, n)
    ensures r.1.Some? <==> m.isOpen && k == Enter && m.highlighted >= 0
    ensures r.1.Some? ==> r.1.value == m.highlighted && r.0 == Menu(false, -1)
    ensures r.1.Some? && HighlightInRange(m, n) ==> r.1.value < n
    ensures m.isOpen && k == Escape ==> !r.0.isOpen && r.0.highlighted == m.highlighted
  {
    if !m.isOpen then (m, None)
    else match k
      case ArrowDown => (m.(highlighted := if m.highlighted < n - 1 then m.highlighted + 1 else m.highlighted), None)
      case ArrowUp => (m.(highlighted := if m.highlighted > 0 then m.highlighted - 1 else -1), None)
      case Enter => if m.highlighted >= 0 then (Menu(false, -1), Some(m.highlighted as nat)) else (m, None)
      case Escape => (m.(isOpen := false), None)
      case OtherKey => (m, None)
  }

  /** ArrowUp undoes ArrowDown unless the highlight was already on the last
      row, and ArrowDown undoes ArrowUp unless nothing was highlighted. */
  lemma ArrowsUndoEachOther(m: Menu, n: nat)
    requires m.isOpen && HighlightInRange(m, n)
    ensures m.highlighted < n - 1 ==> OnKey(OnKey(m, n, ArrowDown).0, n, ArrowUp).0 == m
    ensures m.highlighted >= 0 ==> OnKey(OnKey(m, n, ArrowUp).0, n, ArrowDown).0 == m
  {
  }

  /** Pressing ArrowDown `times` times from anywhere in the list, or ArrowUp
      from anywhere, ends on the last row or on no row at all. */
  function Repeat(m: Menu, n: nat, k: KeyPress, times: nat): Menu
    decreases times
  {
    if times == 0 then m else Repeat(OnKey(m, n, k).0, n, k, times - 1)
  }

  lemma {:induction false} ArrowsSaturate(m: Menu, n: nat)
    requires m.isOpen && HighlightInRange(m, n)
    ensures Repeat(m, n, ArrowDown, n).highlighted == n - 1
    ensures Repeat(m, n, ArrowUp, n).highlighted == -1
  {
    DownSaturates(m, n, n);
    UpSaturates(m, n, n);
  }

  lemma {:induction false} DownSaturates(m: Menu, n: nat, times: nat)
    requires m.isOpen && HighlightInRange(m, n)
    ensures var r := Repeat(m, n, ArrowDown, times);
      r.isOpen && r.highlighted == (if m.highlighted + times <= n - 1 then m.highlighted + times else n - 1)
    decreases times
  {
    if times > 0 {
      DownSaturates(OnKey(m, n, ArrowDown).0, n, times - 1);
    }
  }

  lemma {:induction false} UpSaturates(m: Menu, n: nat, times: nat)
    requires m.isOpen && HighlightInRange(m, n)
    ensures var r := Repeat(m, n, ArrowUp, times);
      r.isOpen && r.highlighted == (if m.highlighted - times >= -1 then m.highlighted - times else -1)
    decreases times
  {
    if times > 0 {
      UpSaturates(OnKey(m, n, ArrowUp).0, n, times - 1);
    }
  }

  /** No port before position `i` contains the query. */
  predicate FirstContaining(ports: seq<nat>, q: string, i: int) {
    forall j :: 0 <= j < i && j < |ports| ==> !Contains(NatToString(ports[j]), q)
  }

  /** The first port whose decimal text contains the query (`ports.find`). */
  function FindPort(ports: seq<nat>, q: string): (r: Option<nat>)
    ensures r.Some? ==> r.value in ports && Contains(NatToString(r.value), q)
    ensures r.None? <==> forall i :: 0 <= i < |ports| ==> !Contains(NatToString(ports[i]), q)
    ensures r.Some? ==> exists i :: 0 <= i < |ports| && ports[i] == r.value && FirstContaining(ports, q, i)
    decreases |ports|
  {
    if |ports| == 0 then None
    else if Contains(NatToString(ports[0]), q) then Some(ports[0])
    else
      var rest := FindPort(ports[1..], q);
      assert forall i :: 0 < i < |ports| ==> ports[i] == ports[1..][i - 1];
      rest
  }

  /** `handleSelect`: the text a chosen suggestion puts into its field. For
      a port suggestion it is the first port containing the trimmed value,
      else the first port, else nothing; port 0 counts as absent either way. */
  function SelectValue(x: Suggestion, value: string): (r: string)
    ensures x.kind == PidMode ==> r == x.pid
    ensures x.kind == NameMode ==> r == x.name
    ensures x.kind == PortMode ==> r == "" || exists i :: 0 <= i < |x.ports| && x.ports[i] != 0 && r == NatToString(x.ports[i])
    ensures x.kind == PortMode && FindPort(x.ports, Trim(value)) == Some(0) && |x.ports| > 0 && x.ports[0] == 0 ==> r == ""
    ensures x.kind == PortMode && FindPort(x.ports, Trim(value)).Some? && FindPort(x.ports, Trim(value)).value != 0 ==>
      r == NatToString(FindPort(x.ports, Trim(value)).value)
    ensures x.kind == PortMode && (FindPort(x.ports, Trim(value)).None? || FindPort(x.ports, Trim(value)) == Some(0)) ==>
      r == (if |x.ports| > 0 && x.ports[0] != 0 then NatToString(x.ports[0]) else "")
  {
    match x.kind
    case PidMode => x.pid
    case NameMode => x.name
    case PortMode =>
      var found := FindPort(x.ports, Trim(value));
      if found.Some? && found.value != 0 then NatToString(found.value)
      else if |x.ports| > 0 && x.ports[0] != 0 then NatToString(x.ports[0])
      else ""
  }

  /** A port suggestion picks the first port, in the process's order, that
      contains the typed value. */
  lemma PortSelectionPrefersMatch(x: Suggestion, value: string, i: nat)
    requires x.kind == PortMode && i < |x.ports| && x.ports[i] != 0
    requires Contains(NatToString(x.ports[i]), Trim(value))
    requires forall j :: 0 <= j < i ==> !Contains(NatToString(x.ports[j]), Trim(value))
    ensures SelectValue(x, value) == NatToString(x.ports[i])
  {
    var found := FindPort(x.ports, Trim(value));
    var k :| 0 <= k < |x.ports| && x.ports[k] == found.value && FirstContaining(x.ports, Trim(value), k);
    assert k == i;
  }
}
