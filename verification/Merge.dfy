/** The order in which the portfolio engine visits bars (bot/multi_backtester.py, run): a heap of one head per
    symbol, ordered by timestamp, position in the symbol's list, and symbol. */
module Merge {
  import opened Types

  type Feeds = map<Symbol, seq<Bar>>
  type Cursors = map<Symbol, nat>

  /** A heap entry without its bar, which is feeds[symbol][index]; no two entries share index and symbol, so the
      bars themselves are never compared. */
  datatype Key = Key(time: int, index: nat, symbol: Symbol)

  // ---- the order

  predicate LexLess(a: string, b: string) {
    if b == "" then false
    else if a == "" then true
    else if a[0] != b[0] then a[0] < b[0]
    else LexLess(a[1..], b[1..])
  }

  predicate Less(x: Key, y: Key) {
    x.time < y.time || (x.time == y.time && (x.index < y.index || (x.index == y.index && LexLess(x.symbol, y.symbol))))
  }

  lemma {:induction false} LexTotal(a: string, b: string)
    ensures LexLess(a, b) || a == b || LexLess(b, a)
    ensures !(LexLess(a, b) && LexLess(b, a)) && !LexLess(a, a)
    decreases |a|
  {
    if a != "" && b != "" && a[0] == b[0] {
      LexTotal(a[1..], b[1..]);
      LexTotal(a[1..], a[1..]);
      assert a == [a[0]] + a[1..] && b == [b[0]] + b[1..];
    } else if a != "" {
      LexTotal(a[1..], a[1..]);
    }
  }

  lemma {:induction false} LexTransitive(a: string, b: string, c: string)
    requires LexLess(a, b) && LexLess(b, c)
    ensures LexLess(a, c)
    decreases |a|
  {
    if a != "" && a[0] == b[0] && b[0] == c[0] {
      LexTransitive(a[1..], b[1..], c[1..]);
    }
  }

  lemma LessTotal(x: Key, y: Key)
    ensures Less(x, y) || x == y || Less(y, x)
    ensures !(Less(x, y) && Less(y, x)) && !Less(x, x)
  {
    LexTotal(x.symbol, y.symbol);
    LexTotal(x.symbol, x.symbol);
  }

  lemma LessTransitive(x: Key, y: Key, z: Key)
    requires Less(x, y) && Less(y, z)
    ensures Less(x, z)
  {
    if LexLess(x.symbol, y.symbol) && LexLess(y.symbol, z.symbol) {
      LexTransitive(x.symbol, y.symbol, z.symbol);
    }
  }

  ghost predicate IsMin(k: Key, heap: set<Key>) {
    k in heap && forall j :: j in heap && j != k ==> Less(k, j)
  }

  /** The heap's pop: scanning for the least entry. */
  method PopMin(heap: set<Key>) returns (least: Key)
    requires heap != {}
    ensures IsMin(least, heap)
  {
    least :| least in heap;
    var rest := heap - {least};
    while rest != {}
      invariant rest <= heap && least in heap - rest
      invariant IsMin(least, heap - rest)
      decreases |rest|
    {
      var k :| k in rest;
      ghost var before := heap - rest;
      LessTotal(k, least);
      if Less(k, least) {
        forall j | j in before && j != least ensures Less(k, j) { LessTransitive(k, least, j); }
        least := k;
      }
      rest := rest - {k};
      assert heap - rest == before + {k};
    }
    assert heap - rest == heap;
  }

  lemma MinIsUnique(j: Key, k: Key, heap: set<Key>)
    requires IsMin(j, heap) && IsMin(k, heap)
    ensures j == k
  {
    LessTotal(j, k);
  }

  lemma {:induction false} MinExists(heap: set<Key>)
    requires heap != {}
    ensures exists k :: IsMin(k, heap)
    decreases |heap|
  {
    var x :| x in heap;
    if heap == {x} {
      assert IsMin(x, heap);
    } else {
      var rest := heap - {x};
      assert heap == rest + {x};
      MinExists(rest);
      var k :| IsMin(k, rest);
      LessTotal(k, x);
      if Less(x, k) {
        forall j | j in heap && j != x ensures Less(x, j) { if j != k { LessTransitive(x, k, j); } }
        assert IsMin(x, heap);
      } else {
        assert IsMin(k, heap);
      }
    }
  }

  ghost function MinOf(heap: set<Key>): (k: Key)
    requires heap != {}
    ensures IsMin(k, heap)
  {
    MinExists(heap);
    var k :| IsMin(k, heap);
    k
  }

  // ---- the merge

  predicate Ready(feeds: Feeds, cursors: Cursors) {
    feeds.Keys == cursors.Keys && forall s :: s in feeds ==> cursors[s] <= |feeds[s]|
  }

  function KeyAt(feeds: Feeds, s: Symbol, i: nat): Key
    requires s in feeds && i < |feeds[s]|
  { Key(feeds[s][i].timestamp, i, s) }

  /** One head for every symbol with bars left: this is what the heap holds. */
  function Heads(feeds: Feeds, cursors: Cursors): set<Key>
    requires Ready(feeds, cursors)
  {
    set s | s in feeds && cursors[s] < |feeds[s]| :: KeyAt(feeds, s, cursors[s])
  }

  /** Every bar not visited yet. */
  function Rest(feeds: Feeds, cursors: Cursors): set<Key>
    requires Ready(feeds, cursors)
  {
    set s, i: nat | s in feeds && cursors[s] <= i < |feeds[s]| :: KeyAt(feeds, s, i)
  }

  function Advance(feeds: Feeds, cursors: Cursors, k: Key): Cursors
    requires Ready(feeds, cursors) && k in Heads(feeds, cursors)
  {
    cursors[k.symbol := k.index + 1]
  }

  lemma AdvanceTakesOne(feeds: Feeds, cursors: Cursors, k: Key)
    requires Ready(feeds, cursors) && k in Heads(feeds, cursors)
    ensures Ready(feeds, Advance(feeds, cursors, k))
    ensures k in Rest(feeds, cursors)
    ensures Rest(feeds, Advance(feeds, cursors, k)) == Rest(feeds, cursors) - {k}
    ensures |Rest(feeds, Advance(feeds, cursors, k))| < |Rest(feeds, cursors)|
  {
    var next := Advance(feeds, cursors, k);
    assert Ready(feeds, next);
    assert k == KeyAt(feeds, k.symbol, cursors[k.symbol]);
    var r, q := Rest(feeds, cursors), Rest(feeds, next);
    forall j ensures j in q <==> j in r && j != k {
      if j in r && j != k {
        assert j == KeyAt(feeds, j.symbol, j.index);
      }
    }
    assert q == r - {k};
  }

  lemma HeadsEmpty(feeds: Feeds, cursors: Cursors)
    requires Ready(feeds, cursors)
    ensures Heads(feeds, cursors) == {} <==> Rest(feeds, cursors) == {}
    ensures Heads(feeds, cursors) <= Rest(feeds, cursors)
  {
    var h, r := Heads(feeds, cursors), Rest(feeds, cursors);
    if r != {} {
      var j :| j in r;
      assert KeyAt(feeds, j.symbol, cursors[j.symbol]) in h;
    }
  }

  /** The visits still to come: always the least head. */
  ghost function VisitOrder(feeds: Feeds, cursors: Cursors): seq<Key>
    requires Ready(feeds, cursors)
    decreases |Rest(feeds, cursors)|
  {
    if Heads(feeds, cursors) == {} then [] else
      var k := MinOf(Heads(feeds, cursors));
      AdvanceTakesOne(feeds, cursors, k);
      [k] + VisitOrder(feeds, Advance(feeds, cursors, k))
  }

  // ---- what the order is

  /** Every remaining bar is visited exactly once, and the bars of one symbol in list order. */
  ghost predicate VisitsOnce(visits: seq<Key>, rest: set<Key>) {
    && (forall k :: k in visits <==> k in rest)
    && (forall p, q :: 0 <= p < q < |visits| ==> visits[p] != visits[q])
    && (forall p, q :: 0 <= p < q < |visits| && visits[p].symbol == visits[q].symbol ==>
          visits[p].index < visits[q].index)
  }

  lemma VisitFirst(k: Key, later: seq<Key>, rest: set<Key>)
    requires k in rest && VisitsOnce(later, rest - {k})
    requires forall j :: j in rest - {k} && j.symbol == k.symbol ==> k.index < j.index
    ensures VisitsOnce([k] + later, rest)
  {
    var visits := [k] + later;
    forall q | 0 <= q < |later| ensures later[q] in rest - {k} { assert later[q] in later; }
    forall p, q | 0 <= p < q < |visits|
      ensures visits[p] != visits[q] && (visits[p].symbol == visits[q].symbol ==> visits[p].index < visits[q].index)
    {
      assert visits[q] == later[q - 1];
      if p > 0 { assert visits[p] == later[p - 1]; }
    }
  }

  lemma {:induction false} OrderVisitsOnce(feeds: Feeds, cursors: Cursors)
    requires Ready(feeds, cursors)
    ensures VisitsOnce(VisitOrder(feeds, cursors), Rest(feeds, cursors))
    decreases |Rest(feeds, cursors)|
  {
    HeadsEmpty(feeds, cursors);
    if Heads(feeds, cursors) != {} {
      var k := MinOf(Heads(feeds, cursors));
      AdvanceTakesOne(feeds, cursors, k);
      OrderVisitsOnce(feeds, Advance(feeds, cursors, k));
      VisitFirst(k, VisitOrder(feeds, Advance(feeds, cursors, k)), Rest(feeds, cursors));
    }
  }

  ghost predicate StrictlySorted(visits: seq<Key>) {
    forall p, q :: 0 <= p < q < |visits| ==> Less(visits[p], visits[q])
  }

  ghost predicate AllInTimeOrder(feeds: Feeds) { forall s :: s in feeds ==> InTimeOrder(feeds[s]) }

  /** When every symbol's bars are in time order, the visits are strictly sorted. */
  lemma {:induction false} OrderIsSorted(feeds: Feeds, cursors: Cursors)
    requires Ready(feeds, cursors) && AllInTimeOrder(feeds)
    ensures StrictlySorted(VisitOrder(feeds, cursors))
    decreases |Rest(feeds, cursors)|
  {
    if Heads(feeds, cursors) != {} {
      var k := MinOf(Heads(feeds, cursors));
      var next := Advance(feeds, cursors, k);
      AdvanceTakesOne(feeds, cursors, k);
      OrderIsSorted(feeds, next);
      OrderVisitsOnce(feeds, next);
      var later := VisitOrder(feeds, next);
      forall q | 0 <= q < |later| ensures Less(k, later[q]) {
        assert later[q] in later;
        HeadIsFirst(feeds, cursors, k, later[q]);
      }
    }
  }

  lemma HeadIsFirst(feeds: Feeds, cursors: Cursors, k: Key, j: Key)
    requires Ready(feeds, cursors) && AllInTimeOrder(feeds)
    requires IsMin(k, Heads(feeds, cursors)) && j in Rest(feeds, cursors) && j != k
    ensures Less(k, j)
  {
    var s := j.symbol;
    assert InTimeOrder(feeds[s]);
    var head := KeyAt(feeds, s, cursors[s]);
    assert head in Heads(feeds, cursors);
    if head != j { assert Less(head, j); }
    if head != k && head != j { LessTransitive(k, head, j); }
  }

  /** A strictly sorted list of given keys is unique, so the visits depend on nothing but the bars. */
  lemma {:induction false} SortedIsUnique(xs: seq<Key>, ys: seq<Key>)
    requires StrictlySorted(xs) && StrictlySorted(ys)
    requires forall k :: k in xs <==> k in ys
    ensures xs == ys
    decreases |xs|
  {
    if xs != [] { assert xs[0] in xs; }
    if ys != [] { assert ys[0] in ys; }
    if xs != [] {
      var x, y := xs[0], ys[0];
      assert x == y by {
        var i :| 0 <= i < |ys| && ys[i] == x;
        var j :| 0 <= j < |xs| && xs[j] == y;
        LessTotal(x, y);
      }
      forall k ensures k in xs[1..] <==> k in ys[1..] {
        LessTotal(k, x);
        if k in xs[1..] { assert k in xs && Less(x, k); }
        if k in ys[1..] { assert k in ys && Less(y, k); }
      }
      SortedIsUnique(xs[1..], ys[1..]);
    }
  }

  /** Timestamps never go back. */
  ghost predicate NeverBack(visits: seq<Key>) {
    forall p, q :: 0 <= p < q < |visits| ==> visits[p].time <= visits[q].time
  }

  /** No other strictly sorted list has the same entries. */
  ghost predicate IsTheSorted(visits: seq<Key>) {
    StrictlySorted(visits) &&
    forall other: seq<Key> :: StrictlySorted(other) && (forall k :: k in other <==> k in visits) ==> other == visits
  }

  function Beginning(feeds: Feeds): Cursors { map s | s in feeds :: 0 }

  /** From the start: every bar of every symbol exactly once, each symbol's bars in list order, and the timestamps of
      the visits never go back if and only if no symbol's own bars do; in that case the order is the one sorted order.
      */
  lemma MergeVisitsAllInOrder(feeds: Feeds)
    ensures var visits := VisitOrder(feeds, Beginning(feeds));
            && VisitsOnce(visits, set s, i: nat | s in feeds && 0 <= i < |feeds[s]| :: KeyAt(feeds, s, i))
            && (AllInTimeOrder(feeds) <==> NeverBack(visits))
            && (AllInTimeOrder(feeds) ==> IsTheSorted(visits))
  {
    var start := Beginning(feeds);
    var visits := VisitOrder(feeds, start);
    OrderVisitsOnce(feeds, start);
    assert Rest(feeds, start) == set s, i: nat | s in feeds && 0 <= i < |feeds[s]| :: KeyAt(feeds, s, i);
    if AllInTimeOrder(feeds) {
      OrderIsSorted(feeds, start);
      forall p, q | 0 <= p < q < |visits| ensures visits[p].time <= visits[q].time {
        assert Less(visits[p], visits[q]);
      }
      forall other | StrictlySorted(other) && (forall k :: k in other <==> k in visits) ensures other == visits {
        SortedIsUnique(other, visits);
      }
    }
    if NeverBack(visits) {
      forall s | s in feeds ensures InTimeOrder(feeds[s]) { SortedVisitsSortedFeed(feeds, visits, s); }
    }
  }

  lemma SortedVisitsSortedFeed(feeds: Feeds, visits: seq<Key>, s: Symbol)
    requires s in feeds && VisitsOnce(visits, Rest(feeds, Beginning(feeds)))
    requires NeverBack(visits)
    ensures InTimeOrder(feeds[s])
  {
    forall i, j | 0 <= i < j < |feeds[s]| ensures feeds[s][i].timestamp <= feeds[s][j].timestamp {
      var x, y := KeyAt(feeds, s, i), KeyAt(feeds, s, j);
      assert x in Rest(feeds, Beginning(feeds)) && y in Rest(feeds, Beginning(feeds));
      var p :| 0 <= p < |visits| && visits[p] == x;
      var q :| 0 <= q < |visits| && visits[q] == y;
    }
  }

  // ---- dictionary order

  /** Bars of one time are visited in the order in which the list names their symbols. */
  ghost predicate FollowsList(visits: seq<Key>, symbols: seq<Symbol>) {
    forall p, q, a, b :: 0 <= p < q < |visits| && 0 <= a < |symbols| && 0 <= b < |symbols| ==>
      (visits[p].time == visits[q].time && visits[p].symbol == symbols[a] && visits[q].symbol == symbols[b] ==> a <= b)
  }

  /** Bar i of s and bar j of t carry one time. */
  predicate SameTime(feeds: Feeds, s: Symbol, i: nat, t: Symbol, j: nat) {
    s in feeds && t in feeds && i < |feeds[s]| && j < |feeds[t]| && feeds[s][i].timestamp == feeds[t][j].timestamp
  }

  /** Of two bars of one time, the one whose symbol is listed first has had fewer bars of its own before it, or as
      many and the lesser name. */
  ghost predicate TiesFollowList(feeds: Feeds, symbols: seq<Symbol>) {
    forall a, b, i: nat, j: nat :: 0 <= a < b < |symbols| && SameTime(feeds, symbols[a], i, symbols[b], j) ==>
      (i < j || (i == j && LexLess(symbols[a], symbols[b])))
  }

  /** The list names exactly the symbols of the feeds, each once. */
  ghost predicate Names(feeds: Feeds, symbols: seq<Symbol>) {
    (forall s :: s in symbols <==> s in feeds) && forall a, b :: 0 <= a < b < |symbols| ==> symbols[a] != symbols[b]
  }

  /** Bars of one time are taken in dictionary order if and only if the ties of the input allow it. */
  lemma DictionaryOrderExactly(feeds: Feeds, symbols: seq<Symbol>)
    requires AllInTimeOrder(feeds) && Names(feeds, symbols)
    ensures FollowsList(VisitOrder(feeds, Beginning(feeds)), symbols) <==> TiesFollowList(feeds, symbols)
  {
    var visits := VisitOrder(feeds, Beginning(feeds));
    OrderVisitsOnce(feeds, Beginning(feeds));
    OrderIsSorted(feeds, Beginning(feeds));
    if FollowsList(visits, symbols) { FollowedTies(feeds, visits, symbols); }
    if TiesFollowList(feeds, symbols) { TiesAreFollowed(feeds, visits, symbols); }
  }

  lemma FollowedTies(feeds: Feeds, visits: seq<Key>, symbols: seq<Symbol>)
    requires VisitsOnce(visits, Rest(feeds, Beginning(feeds))) && StrictlySorted(visits)
    requires Names(feeds, symbols) && FollowsList(visits, symbols)
    ensures TiesFollowList(feeds, symbols)
  {
    forall a, b, i: nat, j: nat | 0 <= a < b < |symbols| && SameTime(feeds, symbols[a], i, symbols[b], j)
      ensures i < j || (i == j && LexLess(symbols[a], symbols[b]))
    {
      var x, y := KeyAt(feeds, symbols[a], i), KeyAt(feeds, symbols[b], j);
      assert x in Rest(feeds, Beginning(feeds)) && y in Rest(feeds, Beginning(feeds));
      FollowedPair(visits, symbols, x, y, a, b);
    }
  }

  lemma FollowedPair(visits: seq<Key>, symbols: seq<Symbol>, x: Key, y: Key, a: nat, b: nat)
    requires StrictlySorted(visits) && FollowsList(visits, symbols) && x in visits && y in visits && x != y
    requires a < b < |symbols| && x.time == y.time && x.symbol == symbols[a] && y.symbol == symbols[b]
    ensures Less(x, y)
  {
    var p :| 0 <= p < |visits| && visits[p] == x;
    var q :| 0 <= q < |visits| && visits[q] == y;
    assert q < p ==> b <= a;
  }

  lemma TiesAreFollowed(feeds: Feeds, visits: seq<Key>, symbols: seq<Symbol>)
    requires VisitsOnce(visits, Rest(feeds, Beginning(feeds))) && StrictlySorted(visits)
    requires TiesFollowList(feeds, symbols)
    ensures FollowsList(visits, symbols)
  {
    forall p, q, a, b | 0 <= p < q < |visits| && 0 <= a < |symbols| && 0 <= b < |symbols|
      && visits[p].time == visits[q].time && visits[p].symbol == symbols[a] && visits[q].symbol == symbols[b]
      ensures a <= b
    {
      var x, y := visits[p], visits[q];
      assert x in visits && y in visits && Less(x, y);
      if b < a { TiedPair(feeds, symbols, y, x, b, a); }
    }
  }

  lemma TiedPair(feeds: Feeds, symbols: seq<Symbol>, x: Key, y: Key, a: nat, b: nat)
    requires x in Rest(feeds, Beginning(feeds)) && y in Rest(feeds, Beginning(feeds))
    requires a < b < |symbols| && x.time == y.time && x.symbol == symbols[a] && y.symbol == symbols[b]
    requires TiesFollowList(feeds, symbols)
    ensures !Less(y, x)
  {
    assert SameTime(feeds, symbols[a], x.index, symbols[b], y.index);
    LessTotal(x, y);
  }

  /** Two bars of one time, B listed before A, and A is visited first. */
  lemma DictionaryOrderFails(bar: Bar)
    ensures var feeds: Feeds := map["B" := [bar], "A" := [bar]];
            && AllInTimeOrder(feeds) && Names(feeds, ["B", "A"])
            && VisitOrder(feeds, Beginning(feeds)) == [Key(bar.timestamp, 0, "A"), Key(bar.timestamp, 0, "B")]
            && !FollowsList(VisitOrder(feeds, Beginning(feeds)), ["B", "A"])
  {
    var feeds: Feeds := map["B" := [bar], "A" := [bar]];
    var symbols, a, b := ["B", "A"], Key(bar.timestamp, 0, "A"), Key(bar.timestamp, 0, "B");
    var visits := VisitOrder(feeds, Beginning(feeds));
    assert symbols[0] == "B" && symbols[1] == "A";
    OrderVisitsOnce(feeds, Beginning(feeds));
    OrderIsSorted(feeds, Beginning(feeds));
    forall k ensures k in [a, b] <==> k in visits {
      assert k in [a, b] <==> k in Rest(feeds, Beginning(feeds)) by {
        assert a == KeyAt(feeds, "A", 0) && b == KeyAt(feeds, "B", 0);
      }
    }
    SortedIsUnique([a, b], visits);
    assert visits[0].symbol == symbols[1] && visits[1].symbol == symbols[0];
  }
}
