/**
 * The view projector the four tables share: filter the records, sort a copy with the
 * comparator built from the sort configuration (a stable sort, as ECMA-262 requires of
 * `Array.prototype.sort` since its 2019 edition), cut one ten-row page with `slice`,
 * and the pager and sort-header controls around it.
 */
module TableView {
  import opened Seqs
  import opened Text

  /** `ITEMS_PER_PAGE` */
  const PageSize: nat := 10

  datatype Direction = Ascending | Descending

  datatype SortConfig<K> = SortConfig(key: K, direction: Direction)

  /** A field value as the comparator sees it: a JavaScript number or a string. */
  datatype Value = Num(n: int) | Str(s: string)

  /** JavaScript `<` on strings: lexicographic on characters, a proper prefix first. */
  predicate StrLess(a: string, b: string)
    decreases |a|
  {
    if a == [] then b != []
    else if b == [] then false
    else if a[0] != b[0] then a[0] < b[0]
    else StrLess(a[1..], b[1..])
  }

  /**
   * JavaScript `<` on two values of one field. A field always holds one kind of value,
   * so a number is never compared with a string; the order puts numbers first so that
   * the relation is total.
   */
  predicate ValueLess(a: Value, b: Value) {
    match (a, b)
    case (Num(x), Num(y)) => x < y
    case (Str(x), Str(y)) => StrLess(x, y)
    case (Num(_), Str(_)) => true
    case (Str(_), Num(_)) => false
  }

  lemma {:induction false} StrLessIrreflexive(a: string)
    ensures !StrLess(a, a)
    decreases |a|
  {
    if a != [] {
      StrLessIrreflexive(a[1..]);
    }
  }

  lemma {:induction false} StrLessAsymmetric(a: string, b: string)
    ensures !(StrLess(a, b) && StrLess(b, a))
    decreases |a|
  {
    if a != [] && b != [] && a[0] == b[0] {
      StrLessAsymmetric(a[1..], b[1..]);
    }
  }

  lemma {:induction false} StrLessTransitive(a: string, b: string, c: string)
    requires StrLess(a, b) && StrLess(b, c)
    ensures StrLess(a, c)
    decreases |a|
  {
    if a != [] && a[0] == b[0] && b[0] == c[0] {
      StrLessTransitive(a[1..], b[1..], c[1..]);
    }
  }

  lemma {:induction false} StrLessConnected(a: string, b: string)
    requires a != b
    ensures StrLess(a, b) || StrLess(b, a)
    decreases |a|
  {
    if a != [] && b != [] && a[0] == b[0] {
      assert a == [a[0]] + a[1..] && b == [b[0]] + b[1..];
      StrLessConnected(a[1..], b[1..]);
    }
  }

  /** JavaScript compares strings character by character, so "10" sorts before "9". */
  lemma NumeralStringsCompareAsText()
    ensures StrLess("10", "9") && !StrLess("9", "10")
  {
    assert "10"[0] == '1' && "9"[0] == '9';
  }

  /** `ValueLess` is a strict total order: exactly one of a < b, a == b, b < a holds. */
  lemma ValueTrichotomy(a: Value, b: Value)
    ensures !(ValueLess(a, b) && ValueLess(b, a))
    ensures a == b <==> !ValueLess(a, b) && !ValueLess(b, a)
  {
    if a.Str? && b.Str? {
      StrLessAsymmetric(a.s, b.s);
      if a == b { StrLessIrreflexive(a.s); } else { StrLessConnected(a.s, b.s); }
    }
  }

  lemma ValueLessTransitive(a: Value, b: Value, c: Value)
    requires ValueLess(a, b) && ValueLess(b, c)
    ensures ValueLess(a, c)
  {
    if a.Str? && b.Str? && c.Str? {
      StrLessTransitive(a.s, b.s, c.s);
    }
  }

  /**
   * The comparator passed to `sort`: a negative number puts `a` first, a positive one
   * puts `b` first, 0 keeps the pair's current order.
   */
  function Compare(a: Value, b: Value, dir: Direction): int {
    if ValueLess(a, b) then (if dir == Ascending then -1 else 1)
    else if ValueLess(b, a) then (if dir == Ascending then 1 else -1)
    else 0
  }

  /** The comparator answers 0 exactly for equal values, and swapping its arguments negates it. */
  lemma CompareProperties(a: Value, b: Value, dir: Direction)
    ensures Compare(a, b, dir) == 0 <==> a == b
    ensures Compare(b, a, dir) == -Compare(a, b, dir)
    ensures Compare(a, b, dir) < 0 <==> (if dir == Ascending then ValueLess(a, b) else ValueLess(b, a))
  {
    ValueTrichotomy(a, b);
  }

  lemma CompareTransitive(a: Value, b: Value, c: Value, dir: Direction)
    requires Compare(a, b, dir) <= 0 && Compare(b, c, dir) <= 0
    ensures Compare(a, c, dir) <= 0
  {
    CompareProperties(a, b, dir);
    CompareProperties(b, c, dir);
    CompareProperties(a, c, dir);
    if a != b && b != c {
      if dir == Ascending { ValueLessTransitive(a, b, c); } else { ValueLessTransitive(c, b, a); }
    }
  }

  /** No later element should come before an earlier one under the comparator. */
  ghost predicate Sorted<T>(s: seq<T>, key: T -> Value, dir: Direction) {
    forall i, j :: 0 <= i < j < |s| ==> Compare(key(s[i]), key(s[j]), dir) <= 0
  }

  /** The elements whose sort key is `v`, in their order. */
  function KeyClass<T>(s: seq<T>, key: T -> Value, v: Value): seq<T> {
    Filter(s, (x: T) => key(x) == v)
  }

  /** Equal-key elements keep their relative order. */
  ghost predicate StableFrom<T>(r: seq<T>, xs: seq<T>, key: T -> Value) {
    forall v :: KeyClass(r, key, v) == KeyClass(xs, key, v)
  }

  /** `x` goes in front of the first element that the comparator does not put before it. */
  function Insert<T>(x: T, s: seq<T>, key: T -> Value, dir: Direction): seq<T> {
    if s == [] then [x]
    else if Compare(key(s[0]), key(x), dir) < 0 then [s[0]] + Insert(x, s[1..], key, dir)
    else [x] + s
  }

  /** `[...xs].sort(comparator)`, written as a stable insertion sort. */
  function SortBy<T>(xs: seq<T>, key: T -> Value, dir: Direction): seq<T> {
    if xs == [] then [] else Insert(xs[0], SortBy(xs[1..], key, dir), key, dir)
  }

  lemma {:induction false} InsertCount<T>(x: T, s: seq<T>, key: T -> Value, dir: Direction)
    ensures multiset(Insert(x, s, key, dir)) == multiset(s) + multiset{x}
  {
    if s != [] && Compare(key(s[0]), key(x), dir) < 0 {
      InsertCount(x, s[1..], key, dir);
      assert s == [s[0]] + s[1..];
    }
  }

  lemma SortedTail<T>(s: seq<T>, key: T -> Value, dir: Direction)
    requires s != [] && Sorted(s, key, dir)
    ensures Sorted(s[1..], key, dir)
  {
    var t := s[1..];
    forall i, j | 0 <= i < j < |t| ensures Compare(key(t[i]), key(t[j]), dir) <= 0 {
      assert t[i] == s[i + 1] && t[j] == s[j + 1];
    }
  }

  lemma SortedCons<T>(h: T, t: seq<T>, key: T -> Value, dir: Direction)
    requires Sorted(t, key, dir)
    requires forall j :: 0 <= j < |t| ==> Compare(key(h), key(t[j]), dir) <= 0
    ensures Sorted([h] + t, key, dir)
  {
    var r := [h] + t;
    forall i, j | 0 <= i < j < |r| ensures Compare(key(r[i]), key(r[j]), dir) <= 0 {
      assert r[j] == t[j - 1];
      if i > 0 {
        assert r[i] == t[i - 1];
      }
    }
  }

  lemma {:induction false} InsertSorted<T>(x: T, s: seq<T>, key: T -> Value, dir: Direction)
    requires Sorted(s, key, dir)
    ensures Sorted(Insert(x, s, key, dir), key, dir)
  {
    if s == [] {
    } else if Compare(key(s[0]), key(x), dir) < 0 {
      var t := s[1..];
      SortedTail(s, key, dir);
      InsertSorted(x, t, key, dir);
      InsertCount(x, t, key, dir);
      var rest := Insert(x, t, key, dir);
      forall j | 0 <= j < |rest| ensures Compare(key(s[0]), key(rest[j]), dir) <= 0 {
        assert rest[j] in multiset(t) + multiset{x};
        if rest[j] != x {
          var k :| 0 <= k < |t| && t[k] == rest[j];
          assert s[k + 1] == rest[j];
        }
      }
      SortedCons(s[0], rest, key, dir);
    } else {
      CompareProperties(key(s[0]), key(x), dir);
      forall j | 0 <= j < |s| ensures Compare(key(x), key(s[j]), dir) <= 0 {
        if j > 0 {
          CompareTransitive(key(x), key(s[0]), key(s[j]), dir);
        }
      }
      SortedCons(x, s, key, dir);
    }
  }

  lemma {:induction false} InsertKeyClass<T>(x: T, s: seq<T>, key: T -> Value, dir: Direction, v: Value)
    ensures KeyClass(Insert(x, s, key, dir), key, v)
         == if key(x) == v then [x] + KeyClass(s, key, v) else KeyClass(s, key, v)
  {
    var keep := (y: T) => key(y) == v;
    if s == [] {
    } else if Compare(key(s[0]), key(x), dir) < 0 {
      InsertKeyClass(x, s[1..], key, dir, v);
      CompareProperties(key(s[0]), key(x), dir);
      FilterDistributes([s[0]], Insert(x, s[1..], key, dir), keep);
      FilterDistributes([s[0]], s[1..], keep);
      assert s == [s[0]] + s[1..];
    } else {
      FilterDistributes([x], s, keep);
    }
  }

  /**
   * The sorted copy is a permutation of its input, ordered by the comparator, with
   * equal-key elements in their input order.
   */
  lemma {:induction false} SortBySpec<T>(xs: seq<T>, key: T -> Value, dir: Direction)
    ensures multiset(SortBy(xs, key, dir)) == multiset(xs)
    ensures Sorted(SortBy(xs, key, dir), key, dir)
    ensures StableFrom(SortBy(xs, key, dir), xs, key)
  {
    if xs != [] {
      var t := SortBy(xs[1..], key, dir);
      SortBySpec(xs[1..], key, dir);
      InsertCount(xs[0], t, key, dir);
      InsertSorted(xs[0], t, key, dir);
      assert xs == [xs[0]] + xs[1..];
      forall v ensures KeyClass(SortBy(xs, key, dir), key, v) == KeyClass(xs, key, v) {
        InsertKeyClass(xs[0], t, key, dir, v);
        FilterDistributes([xs[0]], xs[1..], (y: T) => key(y) == v);
      }
    }
  }

  lemma KeyClassCons<T>(h: T, t: seq<T>, key: T -> Value, v: Value)
    ensures KeyClass([h] + t, key, v) == if key(h) == v then [h] + KeyClass(t, key, v) else KeyClass(t, key, v)
  {
    assert ([h] + t)[1..] == t;
  }

  lemma SortedStableHeads<T>(r1: seq<T>, r2: seq<T>, key: T -> Value, dir: Direction)
    requires r1 != [] && multiset(r1) == multiset(r2)
    requires Sorted(r1, key, dir) && Sorted(r2, key, dir)
    requires forall v :: KeyClass(r1, key, v) == KeyClass(r2, key, v)
    ensures r2 != [] && r1[0] == r2[0]
  {
    assert |r2| == |multiset(r2)| == |r1|;
    var a, b := r1[0], r2[0];
    if key(a) == key(b) {
      var v := key(a);
      KeyClassCons(a, r1[1..], key, v);
      KeyClassCons(b, r2[1..], key, v);
      assert r1 == [a] + r1[1..] && r2 == [b] + r2[1..];
      assert KeyClass(r1, key, v)[0] == a && KeyClass(r2, key, v)[0] == b;
      assert KeyClass(r1, key, v) == KeyClass(r2, key, v);
    } else {
      assert b in multiset(r1) && a in multiset(r2);
      var i :| 0 <= i < |r1| && r1[i] == b;
      var j :| 0 <= j < |r2| && r2[j] == a;
      assert i > 0 && j > 0;
      CompareProperties(key(a), key(b), dir);
      assert false;
    }
  }

  lemma SameHeadTails<T>(a: T, t1: seq<T>, t2: seq<T>, key: T -> Value)
    requires multiset([a] + t1) == multiset([a] + t2)
    requires forall v :: KeyClass([a] + t1, key, v) == KeyClass([a] + t2, key, v)
    ensures multiset(t1) == multiset(t2)
    ensures forall v :: KeyClass(t1, key, v) == KeyClass(t2, key, v)
  {
    assert multiset(t1) == multiset([a] + t1) - multiset{a};
    assert multiset(t2) == multiset([a] + t2) - multiset{a};
    forall v ensures KeyClass(t1, key, v) == KeyClass(t2, key, v) {
      KeyClassCons(a, t1, key, v);
      KeyClassCons(a, t2, key, v);
      assert KeyClass([a] + t1, key, v) == KeyClass([a] + t2, key, v);
      if key(a) == v {
        assert ([a] + KeyClass(t1, key, v))[1..] == KeyClass(t1, key, v);
        assert ([a] + KeyClass(t2, key, v))[1..] == KeyClass(t2, key, v);
      }
    }
  }

  /**
   * The comparator, stability and being a permutation pin the result down: every stable
   * sort of the same records with the same comparator returns the same sequence.
   */
  lemma {:induction false} SortedStableUnique<T>(r1: seq<T>, r2: seq<T>, key: T -> Value, dir: Direction)
    requires multiset(r1) == multiset(r2)
    requires Sorted(r1, key, dir) && Sorted(r2, key, dir)
    requires forall v :: KeyClass(r1, key, v) == KeyClass(r2, key, v)
    ensures r1 == r2
  {
    if r1 != [] {
      SortedStableHeads(r1, r2, key, dir);
      var t1, t2 := r1[1..], r2[1..];
      assert r1 == [r1[0]] + t1 && r2 == [r1[0]] + t2;
      SameHeadTails(r1[0], t1, t2, key);
      SortedTail(r1, key, dir);
      SortedTail(r2, key, dir);
      SortedStableUnique(t1, t2, key, dir);
    } else {
      assert |r2| == |multiset(r2)| == 0;
    }
  }

  /** JavaScript's clamping of a `slice` bound: negative counts from the end. */
  function SliceIndex(i: int, len: nat): (k: nat)
    ensures k <= len
  {
    if i < 0 then (if len + i < 0 then 0 else len + i)
    else if i < len then i else len
  }

  /** `s.slice(start, end)` */
  function Slice<T>(s: seq<T>, start: int, end: int): seq<T> {
    var from, to := SliceIndex(start, |s|), SliceIndex(end, |s|);
    if from < to then s[from..to] else []
  }

  /** The rows of page `page` (1-based) of an already sorted sequence. */
  function PageOf<T>(sorted: seq<T>, page: int): seq<T> {
    var start := (page - 1) * PageSize;
    Slice(sorted, start, start + PageSize)
  }

  /**
   * Page `page` >= 1 holds the rows from position (page-1)*10 on, ten of them or as many
   * as remain, and none past the end.
   */
  lemma PageOfSpec<T>(sorted: seq<T>, page: int)
    requires page >= 1
    ensures var start := (page - 1) * PageSize;
            var n := |sorted|;
            && |PageOf(sorted, page)| == (if n <= start then 0 else if n - start < PageSize then n - start else PageSize)
            && forall i :: 0 <= i < |PageOf(sorted, page)| ==> PageOf(sorted, page)[i] == sorted[start + i]
  {
  }

  /** The rows a table shows: the kept records, sorted by the configured key, cut to one page. */
  function Project<T>(xs: seq<T>, keep: T -> bool, key: T -> Value, dir: Direction, page: int): seq<T> {
    PageOf(SortBy(Filter(xs, keep), key, dir), page)
  }

  /**
   * Every shown row is a record that passes the filter, and the page is the page-th block
   * of ten of the one stable, comparator-ordered permutation of the kept records.
   */
  lemma ProjectSpec<T>(xs: seq<T>, keep: T -> bool, key: T -> Value, dir: Direction, page: int)
    requires page >= 1
    ensures forall x :: x in Project(xs, keep, key, dir, page) ==> x in xs && keep(x)
    ensures var kept := Filter(xs, keep);
            forall r :: multiset(r) == multiset(kept) && Sorted(r, key, dir) && StableFrom(r, kept, key) ==>
              Project(xs, keep, key, dir, page) == PageOf(r, page)
  {
    var kept := Filter(xs, keep);
    var sorted := SortBy(kept, key, dir);
    SortBySpec(kept, key, dir);
    PageOfSpec(sorted, page);
    forall x | x in Project(xs, keep, key, dir, page) ensures x in xs && keep(x) {
      var i :| 0 <= i < |PageOf(sorted, page)| && PageOf(sorted, page)[i] == x;
      assert x in multiset(sorted);
      FilterMembership(xs, keep, x);
    }
    forall r | multiset(r) == multiset(kept) && Sorted(r, key, dir) && StableFrom(r, kept, key)
      ensures Project(xs, keep, key, dir, page) == PageOf(r, page)
    {
      SortedStableUnique(sorted, r, key, dir);
    }
  }

  /** `Math.ceil(n / ITEMS_PER_PAGE)` */
  function TotalPages(n: nat): nat {
    (n + PageSize - 1) / PageSize
  }

  /** `TotalPages` is the number of pages that hold at least one row. */
  lemma TotalPagesSpec<T>(sorted: seq<T>, page: int)
    requires page >= 1
    ensures PageOf(sorted, page) != [] <==> page <= TotalPages(|sorted|)
    ensures TotalPages(|sorted|) * PageSize >= |sorted|
    ensures TotalPages(|sorted|) == 0 <==> sorted == []
  {
    PageOfSpec(sorted, page);
  }

  /** The Previous button: disabled on page 1, otherwise `Math.max(p - 1, 1)`. */
  function ClickPrevious(page: int): (r: int)
    ensures page >= 1 ==> r >= 1
    ensures page > 1 ==> r == page - 1
    ensures page <= 1 ==> r >= page
  {
    if page == 1 then page else if page - 1 > 1 then page - 1 else 1
  }

  /** The Next button: disabled on the last page or with no pages, otherwise `Math.min(p + 1, total)`. */
  function ClickNext(page: int, total: nat): (r: int)
    ensures page >= 1 ==> r >= 1
    ensures 1 <= page <= total ==> r <= total
    ensures 1 <= page < total ==> r == page + 1
    ensures page > total > 0 ==> r == total
    ensures total == 0 ==> r == page
  {
    if page == total || total == 0 then page
    else if page + 1 < total then page + 1 else total
  }

  /**
   * A sort-header click: the current key while ascending turns descending, any other
   * click sorts by the clicked key ascending.
   */
  function ToggleSort<K(==)>(current: SortConfig<K>, key: K): (r: SortConfig<K>)
    ensures r.key == key
    ensures r.direction == Descending <==> current == SortConfig(key, Ascending)
  {
    SortConfig(key, if current.key == key && current.direction == Ascending then Descending else Ascending)
  }

  /** Repeated clicks on one header alternate ascending and descending from the first click on. */
  lemma ToggleAlternates<K>(c: SortConfig<K>, key: K)
    ensures ToggleSort(ToggleSort(c, key), key).direction != ToggleSort(c, key).direction
    ensures ToggleSort(ToggleSort(ToggleSort(c, key), key), key) == ToggleSort(c, key)
    ensures c.key != key ==> ToggleSort(c, key).direction == Ascending
  {
  }

  /** The `reduce` over the records: the amounts of those whose lower-cased status is "success". */
  function SuccessTotal<R>(rs: seq<R>, status: R -> string, amount: R -> int): int {
    if rs == [] then 0
    else
      var last := rs[|rs| - 1];
      SuccessTotal(rs[..|rs| - 1], status, amount) + (if Lower(status(last)) == "success" then amount(last) else 0)
  }

  function SumAmounts<R>(rs: seq<R>, amount: R -> int): int {
    if rs == [] then 0 else amount(rs[0]) + SumAmounts(rs[1..], amount)
  }

  lemma {:induction false} SumAmountsAppend<R>(a: seq<R>, b: seq<R>, amount: R -> int)
    ensures SumAmounts(a + b, amount) == SumAmounts(a, amount) + SumAmounts(b, amount)
  {
    if a != [] {
      assert (a + b)[1..] == a[1..] + b;
      SumAmountsAppend(a[1..], b, amount);
    } else {
      assert a + b == b;
    }
  }

  /** The records whose status reads "success" in any letter case, in their order. */
  function Successful<R>(rs: seq<R>, status: R -> string): seq<R> {
    Filter(rs, (r: R) => Lower(status(r)) == "success")
  }

  /** A record counts as successful exactly when its lower-cased status is "success". */
  lemma SuccessfulMembership<R>(rs: seq<R>, status: R -> string, x: R)
    ensures x in Successful(rs, status) <==> x in rs && Lower(status(x)) == "success"
  {
    FilterMembership(rs, (r: R) => Lower(status(r)) == "success", x);
  }

  /** The running sum equals the plain sum of the amounts of the successful records. */
  lemma {:induction false} SuccessTotalSpec<R>(rs: seq<R>, status: R -> string, amount: R -> int)
    ensures SuccessTotal(rs, status, amount) == SumAmounts(Successful(rs, status), amount)
  {
    var ok := (r: R) => Lower(status(r)) == "success";
    if rs != [] {
      var init, last := rs[..|rs| - 1], rs[|rs| - 1];
      SuccessTotalSpec(init, status, amount);
      assert rs == init + [last];
      FilterDistributes(init, [last], ok);
      SumAmountsAppend(Filter(init, ok), Filter([last], ok), amount);
    }
  }
}
