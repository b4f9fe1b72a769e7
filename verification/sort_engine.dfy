/** The archetype ordering of `sortArchetypes` (src/App.tsx): a stable sort
    under a three-key comparator, each key with an ascending and a descending
    direction. `Array.prototype.sort` is stable, so it is modelled as a stable
    insertion sort; the result of a stable sort under a consistent comparator
    is determined, so any stable algorithm gives the same list. */
module SortEngine {
  import opened Shapes
  import opened Strings
  import opened Seqs

  /** The source's `'games' | 'winrate' | 'alpha'`. */
  datatype Method = ByGames | ByWinRate | Alpha

  datatype Direction = Asc | Desc

  function Flip(d: Direction): Direction {
    if d == Asc then Desc else Asc
  }

  /** Everything the comparator reads: the key, the direction and the
      archetype records the numeric keys are taken from. */
  datatype Order = Order(key: Method, direction: Direction, records: map<string, Tally>)

  /** wins + losses, with 0 for an archetype that has no record. */
  function GamesOf(records: map<string, Tally>, a: string): nat {
    if a in records then Games(records[a]) else 0
  }

  /** wins / (wins + losses), with 0 for an archetype that has no record.
      A present record with no games gives NaN in the source; `RatesDefined`
      keeps the model away from that case, and 0 stands in for it here. */
  function RateOf(records: map<string, Tally>, a: string): real {
    if a in records && Games(records[a]) > 0
    then records[a].wins as real / Games(records[a]) as real
    else 0.0
  }

  /** Every listed archetype that has a record has played at least one game,
      so the source's win-rate comparator never divides 0 by 0. */
  predicate RatesDefined(records: map<string, Tally>, list: seq<string>) {
    forall i :: 0 <= i < |list| && list[i] in records ==> Games(records[list[i]]) > 0
  }

  /** The comparator passed to `sort`: negative or zero keeps `a` before `b`.
      The alphabetical key is inverted with respect to the numeric ones:
      ascending compares `b` with `a`, so it lists Z to A. */
  function Compare(o: Order, a: string, b: string): (c: real)
    ensures o.key == ByGames ==>
      (c <= 0.0 <==> if o.direction == Asc then GamesOf(o.records, a) <= GamesOf(o.records, b)
                     else GamesOf(o.records, a) >= GamesOf(o.records, b))
    ensures o.key == ByWinRate ==>
      (c <= 0.0 <==> if o.direction == Asc then RateOf(o.records, a) <= RateOf(o.records, b)
                     else RateOf(o.records, a) >= RateOf(o.records, b))
    ensures o.key == Alpha ==>
      (c <= 0.0 <==> if o.direction == Asc then StrCompare(a, b) >= 0 else StrCompare(a, b) <= 0)
  {
    StrCompareAntisymmetric(a, b);
    match o.key
    case ByGames =>
      if o.direction == Asc then (GamesOf(o.records, a) - GamesOf(o.records, b)) as real
      else (GamesOf(o.records, b) - GamesOf(o.records, a)) as real
    case ByWinRate =>
      if o.direction == Asc then RateOf(o.records, a) - RateOf(o.records, b)
      else RateOf(o.records, b) - RateOf(o.records, a)
    case Alpha =>
      if o.direction == Asc then StrCompare(b, a) as real else StrCompare(a, b) as real
  }

  /** `a` may stand before `b`. */
  predicate Le(o: Order, a: string, b: string) {
    Compare(o, a, b) <= 0.0
  }

  /** `a` and `b` compare equal, so a stable sort keeps them in input order. */
  predicate Equiv(o: Order, a: string, b: string) {
    Compare(o, a, b) == 0.0
  }

  /** The comparator as a relation, for the generic sort below. */
  function LeOf(o: Order): (string, string) -> bool {
    (a: string, b: string) => Le(o, a, b)
  }

  predicate Sorted(o: Order, s: seq<string>) {
    SortedBy(LeOf(o), s)
  }

  lemma CompareAntisymmetric(o: Order, a: string, b: string)
    ensures Compare(o, a, b) == -Compare(o, b, a)
  {
    if o.key == Alpha {
      StrCompareAntisymmetric(a, b);
    }
  }

  lemma LeTotal(o: Order, a: string, b: string)
    ensures Le(o, a, b) || Le(o, b, a)
  {
    CompareAntisymmetric(o, a, b);
  }

  lemma LeTransitive(o: Order, a: string, b: string, c: string)
    requires Le(o, a, b) && Le(o, b, c)
    ensures Le(o, a, c)
  {
    if o.key == Alpha {
      if o.direction == Asc {
        StrCompareTransitive(c, b, a);
      } else {
        StrCompareTransitive(a, b, c);
      }
    }
  }

  /** Reversing the direction swaps the comparator's arguments, for every key. */
  lemma CompareFlip(o: Order, a: string, b: string)
    ensures Compare(o.(direction := Flip(o.direction)), a, b) == Compare(o, b, a)
  {
  }

  lemma OrderIsPreorder(o: Order)
    ensures TotalPreorder(LeOf(o))
  {
    forall a, b ensures LeOf(o)(a, b) || LeOf(o)(b, a) {
      LeTotal(o, a, b);
    }
    forall a, b, c | LeOf(o)(a, b) && LeOf(o)(b, c) ensures LeOf(o)(a, c) {
      LeTransitive(o, a, b, c);
    }
  }

  /** A relation that any two elements satisfy one way or the other, and transitive:
      what a comparator must be for a sort to order by it. */
  ghost predicate TotalPreorder(le: (string, string) -> bool) {
    && (forall a, b :: le(a, b) || le(b, a))
    && (forall a, b, c :: le(a, b) && le(b, c) ==> le(a, c))
  }

  predicate SortedBy(le: (string, string) -> bool, s: seq<string>) {
    forall i, j :: 0 <= i < j < |s| ==> le(s[i], s[j])
  }

  /** Insert `x` in front of the first element it may precede. */
  function Insert(le: (string, string) -> bool, x: string, ys: seq<string>): (r: seq<string>)
    ensures multiset(r) == multiset(ys) + multiset{x}
  {
    if ys == [] then [x]
    else if le(x, ys[0]) then [x] + ys
    else
      assert ys == [ys[0]] + ys[1..];
      [ys[0]] + Insert(le, x, ys[1..])
  }

  lemma {:induction false} InsertSorted(le: (string, string) -> bool, x: string, ys: seq<string>)
    requires TotalPreorder(le) && SortedBy(le, ys)
    ensures SortedBy(le, Insert(le, x, ys))
  {
    if ys != [] {
      var r := Insert(le, x, ys);
      if le(x, ys[0]) {
        assert r == [x] + ys;
        forall j | 1 <= j < |r| ensures le(r[0], r[j]) {
          if j > 1 { assert le(ys[0], ys[j - 1]); }
        }
      } else {
        var t := Insert(le, x, ys[1..]);
        InsertSorted(le, x, ys[1..]);
        forall j | 0 <= j < |t| ensures le(ys[0], t[j]) {
          assert t[j] in multiset(t);
          if t[j] != x {
            assert t[j] in multiset(ys[1..]);
            var k :| 0 <= k < |ys[1..]| && ys[1..][k] == t[j];
            assert ys[k + 1] == t[j];
          }
        }
        assert r == [ys[0]] + t;
      }
    }
  }

  /** The stable sort: each element is inserted in front of the already
      sorted remainder, ahead of everything it compares equal to. */
  function SortBy(le: (string, string) -> bool, xs: seq<string>): (r: seq<string>)
    requires TotalPreorder(le)
    ensures multiset(r) == multiset(xs)
    ensures SortedBy(le, r)
  {
    if xs == [] then []
    else
      var rest := SortBy(le, xs[1..]);
      InsertSorted(le, xs[0], rest);
      assert xs == [xs[0]] + xs[1..];
      Insert(le, xs[0], rest)
  }

  /** Sorting an already sorted list changes nothing: equal elements are never swapped. */
  lemma {:induction false} SortOfSorted(le: (string, string) -> bool, xs: seq<string>)
    requires TotalPreorder(le) && SortedBy(le, xs)
    ensures SortBy(le, xs) == xs
  {
    if xs != [] {
      SortOfSorted(le, xs[1..]);
      if |xs| > 1 {
        assert le(xs[0], xs[1..][0]);
      }
    }
  }

  /** An element that may precede every element of `ys` goes in front. */
  lemma {:induction false} InsertFront(le: (string, string) -> bool, x: string, ys: seq<string>)
    requires forall i :: 0 <= i < |ys| ==> le(x, ys[i])
    ensures Insert(le, x, ys) == [x] + ys
  {
  }

  lemma {:induction false} InsertFilter(le: (string, string) -> bool, x: string, ys: seq<string>, p: string -> bool)
    requires TotalPreorder(le) && SortedBy(le, ys)
    ensures Filter(Insert(le, x, ys), p) == if p(x) then Insert(le, x, Filter(ys, p)) else Filter(ys, p)
  {
    if ys == [] {
      FilterCons(x, [], p);
    } else if le(x, ys[0]) {
      assert Insert(le, x, ys) == [x] + ys;
      FilterCons(x, ys, p);
      if p(x) {
        InsertBeforeAll(le, x, ys, p);
      }
    } else {
      var t := Insert(le, x, ys[1..]);
      assert Insert(le, x, ys) == [ys[0]] + t;
      assert ys == [ys[0]] + ys[1..];
      FilterCons(ys[0], t, p);
      FilterCons(ys[0], ys[1..], p);
      InsertFilter(le, x, ys[1..], p);
      var f := Filter(ys[1..], p);
      if p(ys[0]) {
        assert Filter(ys, p) == [ys[0]] + f;
        var g := [ys[0]] + f;
        assert g[0] == ys[0] && g[1..] == f;
        assert Insert(le, x, g) == [ys[0]] + Insert(le, x, f);
      } else {
        assert Filter(ys, p) == f;
      }
    }
  }

  /** When `x` may precede the head of a sorted list, it may precede every
      element a filter keeps, so it goes in front of the filtered list too. */
  lemma InsertBeforeAll(le: (string, string) -> bool, x: string, ys: seq<string>, p: string -> bool)
    requires TotalPreorder(le) && SortedBy(le, ys) && ys != [] && le(x, ys[0])
    ensures Insert(le, x, Filter(ys, p)) == [x] + Filter(ys, p)
  {
    var f := Filter(ys, p);
    forall i | 0 <= i < |f| ensures le(x, f[i]) {
      assert f[i] in ys;
      var k :| 0 <= k < |ys| && ys[k] == f[i];
      if k > 0 { assert le(ys[0], ys[k]); }
    }
    InsertFront(le, x, f);
  }

  /** Stability, in the form the view relies on: filtering a sorted list
      gives the sorted filtered list. */
  lemma {:induction false} SortFilterCommute(le: (string, string) -> bool, xs: seq<string>, p: string -> bool)
    requires TotalPreorder(le)
    ensures Filter(SortBy(le, xs), p) == SortBy(le, Filter(xs, p))
  {
    if xs != [] {
      var x, t := xs[0], xs[1..];
      assert xs == [x] + t;
      SortByCons(le, x, t);
      SortFilterCommute(le, t, p);
      InsertFilter(le, x, SortBy(le, t), p);
      FilterCons(x, t, p);
      if p(x) {
        SortByCons(le, x, Filter(t, p));
      } else {
        assert Filter(xs, p) == Filter(t, p);
      }
    }
  }

  /** Sorting a list with a head inserts the head into the sorted tail. */
  lemma SortByCons(le: (string, string) -> bool, x: string, s: seq<string>)
    requires TotalPreorder(le)
    ensures SortBy(le, [x] + s) == Insert(le, x, SortBy(le, s))
  {
    assert ([x] + s)[1..] == s;
  }

  /** No two different elements of `xs` compare equal. */
  ghost predicate KeysDistinct(le: (string, string) -> bool, xs: seq<string>) {
    forall x, y :: x in xs && y in xs && le(x, y) && le(y, x) ==> x == y
  }

  /** There is only one sorted arrangement of a multiset whose keys are distinct. */
  lemma {:induction false} SortedUnique(le: (string, string) -> bool, a: seq<string>, b: seq<string>)
    requires multiset(a) == multiset(b)
    requires SortedBy(le, a) && SortedBy(le, b)
    requires KeysDistinct(le, a)
    ensures a == b
  {
    if a != [] {
      HeadsEqual(le, a, b);
      TailShares(le, a, b);
      SortedUnique(le, a[1..], b[1..]);
      assert a == [a[0]] + a[1..] && b == [b[0]] + b[1..];
    }
  }

  lemma HeadsEqual(le: (string, string) -> bool, a: seq<string>, b: seq<string>)
    requires a != [] && multiset(a) == multiset(b)
    requires SortedBy(le, a) && SortedBy(le, b)
    requires KeysDistinct(le, a)
    ensures b != [] && a[0] == b[0]
  {
    assert a[0] in multiset(b);
    assert b[0] in multiset(a);
    var k :| 0 <= k < |b| && b[k] == a[0];
    var m :| 0 <= m < |a| && a[m] == b[0];
    if k > 0 && m > 0 {
      assert le(b[0], b[k]) && le(a[0], a[m]);
      assert a[0] in a && b[0] in a;
    }
  }

  /** Equal heads leave tails with the same elements, still sorted and still distinct. */
  lemma TailShares(le: (string, string) -> bool, a: seq<string>, b: seq<string>)
    requires a != [] && b != [] && a[0] == b[0] && multiset(a) == multiset(b)
    requires SortedBy(le, a) && SortedBy(le, b)
    requires KeysDistinct(le, a)
    ensures multiset(a[1..]) == multiset(b[1..])
    ensures SortedBy(le, a[1..]) && SortedBy(le, b[1..])
    ensures KeysDistinct(le, a[1..])
  {
    assert a == [a[0]] + a[1..] && b == [b[0]] + b[1..];
    calc {
      multiset(a[1..]);
      multiset(a) - multiset{a[0]};
      multiset(b) - multiset{b[0]};
      multiset(b[1..]);
    }
    forall x, y | x in a[1..] && y in a[1..] && le(x, y) && le(y, x) ensures x == y {
      assert x in a && y in a;
    }
  }

  lemma ReverseSorted(le: (string, string) -> bool, ge: (string, string) -> bool, s: seq<string>)
    requires forall a, b :: ge(a, b) == le(b, a)
    requires SortedBy(le, s)
    ensures SortedBy(ge, Reverse(s))
  {
    var r := Reverse(s);
    forall i, j | 0 <= i < j < |r| ensures ge(r[i], r[j]) {
      assert r[i] == s[|s| - 1 - i] && r[j] == s[|s| - 1 - j];
      assert le(s[|s| - 1 - j], s[|s| - 1 - i]);
    }
  }

  /** With distinct keys, sorting by the converse relation gives exactly the reverse order. */
  lemma ConverseReverses(le: (string, string) -> bool, ge: (string, string) -> bool, xs: seq<string>)
    requires TotalPreorder(le) && TotalPreorder(ge)
    requires forall a, b :: ge(a, b) == le(b, a)
    requires KeysDistinct(le, xs)
    ensures SortBy(ge, xs) == Reverse(SortBy(le, xs))
  {
    var s := SortBy(le, xs);
    var r := Reverse(s);
    ReverseMultiset(s);
    ReverseSorted(le, ge, s);
    var g := SortBy(ge, xs);
    forall x, y | x in g && y in g && ge(x, y) && ge(y, x) ensures x == y {
      assert x in multiset(xs) && y in multiset(xs);
    }
    SortedUnique(ge, g, r);
  }

  /** `sortArchetypes`' ordering under one comparator. */
  function Sort(o: Order, xs: seq<string>): (r: seq<string>)
    ensures multiset(r) == multiset(xs)
    ensures Sorted(o, r)
  {
    OrderIsPreorder(o);
    SortBy(LeOf(o), xs)
  }

  /** `sortArchetypes(method, direction, list)`: a reordering of `list`
      (the input itself is copied and never changed) that follows the key. */
  function SortArchetypes(key: Method, direction: Direction, records: map<string, Tally>, list: seq<string>): (r: seq<string>)
    requires key == ByWinRate ==> RatesDefined(records, list)
    ensures multiset(r) == multiset(list)
    ensures key == ByGames && direction == Desc ==>
      forall i, j :: 0 <= i < j < |r| ==> GamesOf(records, r[i]) >= GamesOf(records, r[j])
    ensures key == ByGames && direction == Asc ==>
      forall i, j :: 0 <= i < j < |r| ==> GamesOf(records, r[i]) <= GamesOf(records, r[j])
    ensures key == ByWinRate && direction == Desc ==>
      forall i, j :: 0 <= i < j < |r| ==> RateOf(records, r[i]) >= RateOf(records, r[j])
    ensures key == ByWinRate && direction == Asc ==>
      forall i, j :: 0 <= i < j < |r| ==> RateOf(records, r[i]) <= RateOf(records, r[j])
    ensures key == Alpha && direction == Desc ==>
      forall i, j :: 0 <= i < j < |r| ==> StrCompare(r[i], r[j]) <= 0
    ensures key == Alpha && direction == Asc ==>
      forall i, j :: 0 <= i < j < |r| ==> StrCompare(r[i], r[j]) >= 0
  {
    var r := Sort(Order(key, direction, records), list);
    SortedMeaning(Order(key, direction, records), r);
    r
  }

  /** What sortedness under each comparator says about the keys themselves,
      in both directions: a list is sorted exactly when its keys are ordered. */
  lemma SortedMeaning(o: Order, r: seq<string>)
    ensures o.key == ByGames && o.direction == Desc ==>
      (Sorted(o, r) <==> forall i, j :: 0 <= i < j < |r| ==> GamesOf(o.records, r[i]) >= GamesOf(o.records, r[j]))
    ensures o.key == ByGames && o.direction == Asc ==>
      (Sorted(o, r) <==> forall i, j :: 0 <= i < j < |r| ==> GamesOf(o.records, r[i]) <= GamesOf(o.records, r[j]))
    ensures o.key == ByWinRate && o.direction == Desc ==>
      (Sorted(o, r) <==> forall i, j :: 0 <= i < j < |r| ==> RateOf(o.records, r[i]) >= RateOf(o.records, r[j]))
    ensures o.key == ByWinRate && o.direction == Asc ==>
      (Sorted(o, r) <==> forall i, j :: 0 <= i < j < |r| ==> RateOf(o.records, r[i]) <= RateOf(o.records, r[j]))
    ensures o.key == Alpha && o.direction == Desc ==>
      (Sorted(o, r) <==> forall i, j :: 0 <= i < j < |r| ==> StrCompare(r[i], r[j]) <= 0)
    ensures o.key == Alpha && o.direction == Asc ==>
      (Sorted(o, r) <==> forall i, j :: 0 <= i < j < |r| ==> StrCompare(r[i], r[j]) >= 0)
  {
    forall i, j | 0 <= i < j < |r| ensures LeOf(o)(r[i], r[j]) <==> Le(o, r[i], r[j]) {
    }
    if o.key == Alpha && o.direction == Asc {
      forall i, j | 0 <= i < j < |r| ensures Le(o, r[i], r[j]) <==> StrCompare(r[i], r[j]) >= 0 {
        StrCompareAntisymmetric(r[i], r[j]);
      }
    }
  }

  /** Sorting an already sorted list gives it back; in particular sorting twice is sorting once. */
  lemma SortIdempotent(o: Order, xs: seq<string>)
    ensures Sort(o, Sort(o, xs)) == Sort(o, xs)
  {
    OrderIsPreorder(o);
    SortOfSorted(LeOf(o), Sort(o, xs));
  }

  /** A list already in order is left as it is. */
  lemma SortKeepsSorted(o: Order, xs: seq<string>)
    requires Sorted(o, xs)
    ensures Sort(o, xs) == xs
  {
    OrderIsPreorder(o);
    SortOfSorted(LeOf(o), xs);
  }

  /** Whether the win rates are defined depends only on which names are listed. */
  lemma RatesDefinedByContents(records: map<string, Tally>, xs: seq<string>, ys: seq<string>)
    requires multiset(xs) == multiset(ys) && RatesDefined(records, xs)
    ensures RatesDefined(records, ys)
  {
    forall i | 0 <= i < |ys| && ys[i] in records ensures Games(records[ys[i]]) > 0 {
      assert ys[i] in multiset(xs);
      var j :| 0 <= j < |xs| && xs[j] == ys[i];
    }
  }

  /** Filtering commutes with the ordering (a consequence of stability). */
  lemma SortCommutesWithFilter(o: Order, xs: seq<string>, p: string -> bool)
    ensures Filter(Sort(o, xs), p) == Sort(o, Filter(xs, p))
  {
    OrderIsPreorder(o);
    SortFilterCommute(LeOf(o), xs, p);
  }

  /** Elements that compare equal keep their input order. */
  lemma SortStable(o: Order, xs: seq<string>, x: string)
    ensures Filter(Sort(o, xs), y => Equiv(o, y, x)) == Filter(xs, y => Equiv(o, y, x))
  {
    OrderIsPreorder(o);
    var p := y => Equiv(o, y, x);
    SortFilterCommute(LeOf(o), xs, p);
    var f := Filter(xs, p);
    forall i, j | 0 <= i < j < |f| ensures LeOf(o)(f[i], f[j]) {
      assert p(f[i]) && p(f[j]);
      CompareAntisymmetric(o, f[j], x);
      LeTransitive(o, f[i], x, f[j]);
    }
    SortOfSorted(LeOf(o), f);
  }

  /** No two different listed archetypes compare equal under `o`. */
  predicate DistinctUnder(o: Order, xs: seq<string>) {
    forall i, j :: 0 <= i < |xs| && 0 <= j < |xs| && xs[i] != xs[j] ==> Compare(o, xs[i], xs[j]) != 0.0
  }

  /** With distinct keys, sorting in the other direction gives exactly the reverse order. */
  lemma FlipReverses(o: Order, xs: seq<string>)
    requires DistinctUnder(o, xs)
    ensures Sort(o.(direction := Flip(o.direction)), xs) == Reverse(Sort(o, xs))
  {
    var f := o.(direction := Flip(o.direction));
    OrderIsPreorder(o);
    OrderIsPreorder(f);
    forall a, b ensures LeOf(f)(a, b) == LeOf(o)(b, a) {
      CompareFlip(o, a, b);
    }
    forall x, y | x in xs && y in xs && LeOf(o)(x, y) && LeOf(o)(y, x) ensures x == y {
      CompareAntisymmetric(o, x, y);
      var i :| 0 <= i < |xs| && xs[i] == x;
      var j :| 0 <= j < |xs| && xs[j] == y;
    }
    ConverseReverses(LeOf(o), LeOf(f), xs);
  }

  /** Different names never compare equal alphabetically, so flipping the
      alphabetical direction always reverses the list. */
  lemma AlphaFlipReverses(d: Direction, records: map<string, Tally>, xs: seq<string>)
    ensures SortArchetypes(Alpha, Flip(d), records, xs) == Reverse(SortArchetypes(Alpha, d, records, xs))
  {
    AlphaDistinct(d, records, xs);
    FlipReverses(Order(Alpha, d, records), xs);
  }

  /** With distinct keys the result depends only on which names are listed, not on their order. */
  lemma SortDeterminedByContents(o: Order, xs: seq<string>, ys: seq<string>)
    requires multiset(xs) == multiset(ys) && DistinctUnder(o, xs)
    ensures Sort(o, xs) == Sort(o, ys)
  {
    OrderIsPreorder(o);
    var a, b := Sort(o, xs), Sort(o, ys);
    forall x, y | x in a && y in a && LeOf(o)(x, y) && LeOf(o)(y, x) ensures x == y {
      assert x in multiset(xs) && y in multiset(xs);
      CompareAntisymmetric(o, x, y);
      var i :| 0 <= i < |xs| && xs[i] == x;
      var j :| 0 <= j < |xs| && xs[j] == y;
    }
    SortedUnique(LeOf(o), a, b);
  }

  /** Different names never compare equal alphabetically. */
  lemma AlphaDistinct(d: Direction, records: map<string, Tally>, xs: seq<string>)
    ensures DistinctUnder(Order(Alpha, d, records), xs)
  {
    var o := Order(Alpha, d, records);
    forall i, j | 0 <= i < |xs| && 0 <= j < |xs| && xs[i] != xs[j] ensures Compare(o, xs[i], xs[j]) != 0.0 {
      StrCompareZero(xs[i], xs[j]);
      StrCompareZero(xs[j], xs[i]);
    }
  }

  /** The sort control's state: the active key and its direction. */
  datatype SortState = SortState(key: Method, direction: Direction)

  /** `handleSort`'s state change: choosing the active key flips the
      direction; choosing another key selects it, descending. */
  function NextSortState(s: SortState, chosen: Method): (r: SortState)
    ensures r.key == chosen
    ensures chosen == s.key ==> r.direction != s.direction
    ensures chosen != s.key ==> r.direction == Desc
  {
    if chosen == s.key then SortState(chosen, Flip(s.direction)) else SortState(chosen, Desc)
  }

  /** Choosing the active key twice restores the state; choosing a new key
      twice ends ascending on it. */
  lemma NextSortStateTwice(s: SortState, chosen: Method)
    ensures chosen == s.key ==> NextSortState(NextSortState(s, chosen), chosen) == s
    ensures chosen != s.key ==> NextSortState(NextSortState(s, chosen), chosen) == SortState(chosen, Asc)
  {
  }
}
