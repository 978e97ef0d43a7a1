/**
 * The stream and segment operations the viewer calls: selecting the traces
 * or picks of one station, sorting picks by their upper frequency bound, and
 * gathering the synthetic traces that go with the current data trace.
 */
module Streams {
  import opened Python

  /** A station code such as "ANMO". */
  type Station = string

  /** A seismogram; only its station and channel codes matter here. */
  datatype Trace = Trace(station: Station, channel: string)

  /** A two-element window `[start, end]`: hours for time, mHz for frequency. */
  datatype Window = Window(start: real, end: real)

  /** One manual pick (segment): time window tw1-tw2, frequency window fw1-fw2. */
  datatype Pick = Pick(station: Station, tw1: real, tw2: real, fw1: real, fw2: real)

  /** One entry of a misfit list: the synthetic it belongs to and its misfit value. */
  datatype MisfitEntry = MisfitEntry(name: string, value: real)

  // ---------------------------------------------------------------------------
  // select(station=...)
  // ---------------------------------------------------------------------------

  /**
   * `stream.select(station=s)`: the traces of station `s`, in stream order,
   * each as often as it occurs in the stream.
   */
  function SelectStation(s: seq<Trace>, station: Station): (r: seq<Trace>)
    ensures |r| <= |s|
  {
    if s == [] then []
    else (if s[0].station == station then [s[0]] else []) + SelectStation(s[1..], station)
  }

  /** SelectStation keeps exactly the traces of the station, each as often as it occurs. */
  lemma {:induction false} SelectStationMembers(s: seq<Trace>, station: Station)
    ensures forall t :: t in SelectStation(s, station) <==> t in s && t.station == station
    ensures forall t :: multiset(SelectStation(s, station))[t]
                        == if t.station == station then multiset(s)[t] else 0
  {
    if s != [] {
      SelectStationMembers(s[1..], station);
      assert s == [s[0]] + s[1..];
    }
  }

  /** Selecting from two streams one after the other keeps their order. */
  lemma {:induction false} SelectStationAppend(a: seq<Trace>, b: seq<Trace>, station: Station)
    ensures SelectStation(a + b, station) == SelectStation(a, station) + SelectStation(b, station)
  {
    if a != [] {
      var x, a1 := a[0], a[1..];
      assert a == [x] + a1 && a + b == [x] + (a1 + b);
      SelectStationAppend(a1, b, station);
      SelectStationCons(x, a1 + b, station);
      SelectStationCons(x, a1, station);
      var h: seq<Trace> := if x.station == station then [x] else [];
      assert h + (SelectStation(a1, station) + SelectStation(b, station))
          == (h + SelectStation(a1, station)) + SelectStation(b, station);
    } else {
      assert a + b == b;
    }
  }

  lemma {:induction false} SelectStationCons(x: Trace, u: seq<Trace>, station: Station)
    ensures SelectStation([x] + u, station)
         == (if x.station == station then [x] else []) + SelectStation(u, station)
  {
    assert ([x] + u)[0] == x && ([x] + u)[1..] == u;
  }

  /**
   * `segments.select(station=s)`: the picks of station `s`, in segment order;
   * its length is `maxj`.
   */
  function SelectPicks(s: seq<Pick>, station: Station): (r: seq<Pick>)
    ensures |r| <= |s|
  {
    if s == [] then []
    else (if s[0].station == station then [s[0]] else []) + SelectPicks(s[1..], station)
  }

  /** SelectPicks keeps exactly the picks of the station, each as often as it occurs. */
  lemma {:induction false} SelectPicksMembers(s: seq<Pick>, station: Station)
    ensures forall p :: p in SelectPicks(s, station) <==> p in s && p.station == station
    ensures forall p :: multiset(SelectPicks(s, station))[p]
                        == if p.station == station then multiset(s)[p] else 0
  {
    if s != [] {
      SelectPicksMembers(s[1..], station);
      assert s == [s[0]] + s[1..];
    }
  }

  /** Selecting from two lists of picks one after the other keeps their order. */
  lemma {:induction false} SelectPicksAppend(a: seq<Pick>, b: seq<Pick>, station: Station)
    ensures SelectPicks(a + b, station) == SelectPicks(a, station) + SelectPicks(b, station)
  {
    if a != [] {
      assert (a + b)[0] == a[0] && (a + b)[1..] == a[1..] + b;
      SelectPicksAppend(a[1..], b, station);
    } else {
      assert a + b == b;
    }
  }

  lemma {:induction false} SelectPicksCons(p: Pick, s: seq<Pick>, station: Station)
    ensures SelectPicks([p] + s, station)
         == (if p.station == station then [p] else []) + SelectPicks(s, station)
  {
    assert ([p] + s)[1..] == s;
  }

  // ---------------------------------------------------------------------------
  // segments.sort(['fw2']): stable, ascending
  // ---------------------------------------------------------------------------

  /** Picks in non-decreasing order of their upper frequency bound. */
  predicate SortedByFw2(s: seq<Pick>) {
    forall a, b :: 0 <= a < b < |s| ==> s[a].fw2 <= s[b].fw2
  }

  /** Puts `p` in front of the first pick whose fw2 is not below p's. */
  function InsertByFw2(p: Pick, s: seq<Pick>): (r: seq<Pick>)
    ensures multiset(r) == multiset(s) + multiset{p}
    ensures |r| == |s| + 1
  {
    if s == [] then [p]
    else if p.fw2 <= s[0].fw2 then [p] + s
    else
      assert s == [s[0]] + s[1..];
      [s[0]] + InsertByFw2(p, s[1..])
  }

  /** Insertion sort on fw2; equal keys keep their input order. */
  function SortByFw2(s: seq<Pick>): (r: seq<Pick>)
    ensures multiset(r) == multiset(s)
    ensures |r| == |s|
  {
    if s == [] then []
    else
      assert s == [s[0]] + s[1..];
      InsertByFw2(s[0], SortByFw2(s[1..]))
  }

  /** The head of an insertion is the inserted pick or the old head. */
  lemma {:induction false} InsertHead(p: Pick, s: seq<Pick>)
    ensures InsertByFw2(p, s)[0] == p || (s != [] && InsertByFw2(p, s)[0] == s[0])
  {
  }

  /** A sorted sequence stays sorted under a pick no greater than its head. */
  lemma {:induction false} SortedCons(x: Pick, r: seq<Pick>)
    requires SortedByFw2(r)
    requires r == [] || x.fw2 <= r[0].fw2
    ensures SortedByFw2([x] + r)
  {
    var u := [x] + r;
    forall a, b | 0 <= a < b < |u| ensures u[a].fw2 <= u[b].fw2 {
      assert u[b] == r[b - 1];
      if a > 0 {
        assert u[a] == r[a - 1];
      } else if b > 1 {
        assert r[0].fw2 <= r[b - 1].fw2;
      }
    }
  }

  lemma {:induction false} InsertSorted(p: Pick, s: seq<Pick>)
    requires SortedByFw2(s)
    ensures SortedByFw2(InsertByFw2(p, s))
  {
    if s == [] || p.fw2 <= s[0].fw2 {
      SortedCons(p, s);
    } else {
      var s1 := s[1..];
      assert SortedByFw2(s1);
      InsertSorted(p, s1);
      InsertHead(p, s1);
      assert s1 != [] ==> s[0].fw2 <= s1[0].fw2;
      SortedCons(s[0], InsertByFw2(p, s1));
    }
  }

  /** The sort's result is sorted. */
  lemma {:induction false} SortSorted(s: seq<Pick>)
    ensures SortedByFw2(SortByFw2(s))
  {
    if s != [] {
      SortSorted(s[1..]);
      InsertSorted(s[0], SortByFw2(s[1..]));
    }
  }

  /** Sorting picks that are already sorted changes nothing. */
  lemma {:induction false} SortKeepsSorted(s: seq<Pick>)
    requires SortedByFw2(s)
    ensures SortByFw2(s) == s
  {
    if s != [] {
      assert SortedByFw2(s[1..]);
      SortKeepsSorted(s[1..]);
      assert s == [s[0]] + s[1..];
    }
  }

  lemma {:induction false} InsertFront(p: Pick, u: seq<Pick>)
    requires u == [] || p.fw2 <= u[0].fw2
    ensures InsertByFw2(p, u) == [p] + u
  {
  }

  lemma {:induction false} InsertPast(p: Pick, x: Pick, u: seq<Pick>)
    requires x.fw2 < p.fw2
    ensures InsertByFw2(p, [x] + u) == [x] + InsertByFw2(p, u)
  {
    assert ([x] + u)[1..] == u;
  }

  /** In sorted picks, the first pick of a station is not below the first pick. */
  lemma {:induction false} SelectedNotBelowHead(t: seq<Pick>, station: Station)
    requires SortedByFw2(t) && SelectPicks(t, station) != []
    ensures t[0].fw2 <= SelectPicks(t, station)[0].fw2
  {
    var u := SelectPicks(t, station);
    SelectPicksMembers(t, station);
    assert u[0] in u;
    var k :| 0 <= k < |t| && t[k] == u[0];
    assert t[0].fw2 <= t[k].fw2;
  }

  lemma {:induction false} SelectInsert(p: Pick, t: seq<Pick>, station: Station)
    requires SortedByFw2(t)
    ensures p.station == station ==>
              SelectPicks(InsertByFw2(p, t), station) == InsertByFw2(p, SelectPicks(t, station))
    ensures p.station != station ==>
              SelectPicks(InsertByFw2(p, t), station) == SelectPicks(t, station)
  {
    if t == [] || p.fw2 <= t[0].fw2 {
      SelectInsertFront(p, t, station);
    } else {
      var t1 := t[1..];
      assert t == [t[0]] + t1;
      assert SortedByFw2(t1);
      SelectInsert(p, t1, station);
      SelectInsertPast(p, t[0], t1, station);
    }
  }

  lemma {:induction false} SelectInsertFront(p: Pick, t: seq<Pick>, station: Station)
    requires SortedByFw2(t)
    requires t == [] || p.fw2 <= t[0].fw2
    ensures p.station == station ==>
              SelectPicks(InsertByFw2(p, t), station) == InsertByFw2(p, SelectPicks(t, station))
    ensures p.station != station ==>
              SelectPicks(InsertByFw2(p, t), station) == SelectPicks(t, station)
  {
    var u := SelectPicks(t, station);
    InsertFront(p, t);
    SelectPicksCons(p, t, station);
    if p.station == station {
      if u != [] {
        SelectedNotBelowHead(t, station);
      }
      InsertFront(p, u);
    } else {
      assert [] + u == u;
    }
  }

  lemma {:induction false} SelectInsertPast(p: Pick, x: Pick, t1: seq<Pick>, station: Station)
    requires x.fw2 < p.fw2
    requires p.station == station ==>
               SelectPicks(InsertByFw2(p, t1), station) == InsertByFw2(p, SelectPicks(t1, station))
    requires p.station != station ==>
               SelectPicks(InsertByFw2(p, t1), station) == SelectPicks(t1, station)
    ensures p.station == station ==>
              SelectPicks(InsertByFw2(p, [x] + t1), station) == InsertByFw2(p, SelectPicks([x] + t1, station))
    ensures p.station != station ==>
              SelectPicks(InsertByFw2(p, [x] + t1), station) == SelectPicks([x] + t1, station)
  {
    var ins := InsertByFw2(p, t1);
    var u1 := SelectPicks(t1, station);
    var ex: seq<Pick> := if x.station == station then [x] else [];
    InsertPast(p, x, t1);
    SelectPicksCons(x, ins, station);
    SelectPicksCons(x, t1, station);
    assert SelectPicks(InsertByFw2(p, [x] + t1), station) == ex + SelectPicks(ins, station);
    assert SelectPicks([x] + t1, station) == ex + u1;
    if x.station == station {
      if p.station == station {
        InsertPast(p, x, u1);
      }
    } else {
      assert ex + u1 == u1;
      assert ex + SelectPicks(ins, station) == SelectPicks(ins, station);
    }
  }

  /**
   * Selecting one station's picks from the sorted segments gives that
   * station's picks sorted: the sort being stable, the j-th pick of a
   * station is its j-th pick by increasing fw2.
   */
  lemma {:induction false} SelectCommutesWithSort(s: seq<Pick>, station: Station)
    ensures SelectPicks(SortByFw2(s), station) == SortByFw2(SelectPicks(s, station))
  {
    if s != [] {
      var x, s1 := s[0], s[1..];
      var sorted1 := SortByFw2(s1);
      var r1 := SelectPicks(s1, station);
      assert s == [x] + s1;
      assert SortByFw2(s) == InsertByFw2(x, sorted1);
      SelectCommutesWithSort(s1, station);
      SortSorted(s1);
      SelectInsert(x, sorted1, station);
      SelectPicksCons(x, s1, station);
      if x.station == station {
        assert SelectPicks(s, station) == [x] + r1;
        assert ([x] + r1)[1..] == r1;
        assert SortByFw2([x] + r1) == InsertByFw2(x, SortByFw2(r1));
      } else {
        assert SelectPicks(s, station) == r1;
      }
    }
  }

  /** The picks whose upper frequency bound is `f`, in their order. */
  function WithFw2(s: seq<Pick>, f: real): (r: seq<Pick>)
    ensures |r| <= |s|
  {
    if s == [] then []
    else (if s[0].fw2 == f then [s[0]] else []) + WithFw2(s[1..], f)
  }

  /**
   * Inserting a pick leaves the other picks of its fw2 after it, in their
   * order: every pick passed over has a strictly smaller fw2.
   */
  lemma {:induction false} InsertKeepsTies(p: Pick, u: seq<Pick>, f: real)
    ensures WithFw2(InsertByFw2(p, u), f) == (if p.fw2 == f then [p] else []) + WithFw2(u, f)
  {
    if u == [] {
      WithFw2Cons(p, [], f);
      assert [p] + [] == [p];
    } else if p.fw2 <= u[0].fw2 {
      WithFw2Cons(p, u, f);
    } else {
      var x, u1 := u[0], u[1..];
      var ins := InsertByFw2(p, u1);
      assert u == [x] + u1;
      assert InsertByFw2(p, u) == [x] + ins;
      InsertKeepsTies(p, u1, f);
      WithFw2Cons(x, ins, f);
      WithFw2Cons(x, u1, f);
      var head := if x.fw2 == f then [x] else [];
      var mine := if p.fw2 == f then [p] else [];
      assert head == [] || mine == [];
      assert WithFw2(InsertByFw2(p, u), f) == head + (mine + WithFw2(u1, f));
      assert head + (mine + WithFw2(u1, f)) == mine + (head + WithFw2(u1, f));
    }
  }

  lemma {:induction false} WithFw2Cons(p: Pick, u: seq<Pick>, f: real)
    ensures WithFw2([p] + u, f) == (if p.fw2 == f then [p] else []) + WithFw2(u, f)
  {
    assert ([p] + u)[0] == p && ([p] + u)[1..] == u;
  }

  /**
   * The sort is stable: the picks that share an fw2 come out in the order
   * they went in.
   */
  lemma {:induction false} SortIsStable(s: seq<Pick>, f: real)
    ensures WithFw2(SortByFw2(s), f) == WithFw2(s, f)
  {
    if s != [] {
      SortIsStable(s[1..], f);
      InsertKeepsTies(s[0], SortByFw2(s[1..]), f);
    }
  }

  /** A station has as many picks after the sort as before. */
  lemma {:induction false} SortKeepsStationCount(s: seq<Pick>, station: Station)
    ensures |SelectPicks(SortByFw2(s), station)| == |SelectPicks(s, station)|
  {
    SelectCommutesWithSort(s, station);
  }

  // ---------------------------------------------------------------------------
  // Synthetic traces for the current data trace
  // ---------------------------------------------------------------------------

  /** All traces of the streams, stream after stream. */
  function Concat(ss: seq<seq<Trace>>): seq<Trace> {
    if ss == [] then [] else Concat(ss[..|ss| - 1]) + ss[|ss| - 1]
  }

  /**
   * `for s in st_syn_work: syn_trs += s.select(station=...)`: the station's
   * traces among all synthetic traces, in stream order and with their
   * multiplicity.
   */
  function SynByStation(ss: seq<seq<Trace>>, station: Station): (r: seq<Trace>)
    ensures r == SelectStation(Concat(ss), station)
  {
    if ss == [] then []
    else
      var rest := SynByStation(ss[..|ss| - 1], station);
      SelectStationAppend(Concat(ss[..|ss| - 1]), ss[|ss| - 1], station);
      rest + SelectStation(ss[|ss| - 1], station)
  }

  /** A trace is in the concatenation exactly when it is in one of the streams. */
  lemma {:induction false} ConcatMembers(ss: seq<seq<Trace>>)
    ensures forall t :: t in Concat(ss) <==> exists k :: 0 <= k < |ss| && t in ss[k]
  {
    if ss != [] {
      var init := ss[..|ss| - 1];
      ConcatMembers(init);
      assert forall k :: 0 <= k < |init| ==> init[k] == ss[k];
      var last := ss[|ss| - 1];
      assert Concat(ss) == Concat(init) + last;
      forall t | t in Concat(ss) ensures exists k :: 0 <= k < |ss| && t in ss[k] {
        if t !in last {
          assert t in Concat(init);
          var k :| 0 <= k < |init| && t in init[k];
          assert t in ss[k];
        } else {
          assert t in ss[|ss| - 1];
        }
      }
      forall t | (exists k :: 0 <= k < |ss| && t in ss[k]) ensures t in Concat(ss) {
        var k :| 0 <= k < |ss| && t in ss[k];
        if k < |init| {
          assert t in init[k];
        }
      }
    }
  }

  /**
   * `for s in st_syn_work: syn_trs += s[i]`: the i-th trace of every
   * synthetic stream; None when some stream has no trace i.
   */
  function SynByPosition(ss: seq<seq<Trace>>, i: int): (r: Option<seq<Trace>>)
    ensures r.Some? <==> forall k :: 0 <= k < |ss| ==> IsIndex(ss[k], i)
    ensures r.Some? ==> |r.value| == |ss|
    ensures r.Some? ==> forall k :: 0 <= k < |ss| ==> At(ss[k], i) == Some(r.value[k])
  {
    if ss == [] then Some([])
    else
      var init := ss[..|ss| - 1];
      assert forall k :: 0 <= k < |ss| - 1 ==> init[k] == ss[k];
      match SynByPosition(init, i)
      case None => None
      case Some(rest) =>
        match At(ss[|ss| - 1], i)
        case None => None
        case Some(t) => Some(rest + [t])
  }

  /** The synthetic-selection loop, accumulating into a fresh stream. */
  method CollectSynthetics(ss: seq<seq<Trace>>, sameOrder: bool, i: int, station: Station)
    returns (r: Option<seq<Trace>>)
    ensures r == if sameOrder then SynByPosition(ss, i) else Some(SynByStation(ss, station))
  {
    var acc: seq<Trace> := [];
    var k := 0;
    while k < |ss|
      invariant 0 <= k <= |ss|
      invariant sameOrder ==> SynByPosition(ss[..k], i) == Some(acc)
      invariant !sameOrder ==> SynByStation(ss[..k], station) == acc
    {
      assert ss[..k + 1][..k] == ss[..k];
      if sameOrder {
        var t := At(ss[k], i);
        if t.None? {
          return None;
        }
        acc := acc + [t.value];
      } else {
        acc := acc + SelectStation(ss[k], station);
      }
      k := k + 1;
    }
    assert ss[..k] == ss;
    r := Some(acc);
  }
}
