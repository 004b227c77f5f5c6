/**
 * The history page's derived data: the listed rows (quality filter, then
 * substring search over four fields, then newest date first), the summary
 * statistics of the listed rows and the rows the chart shows.
 */
module HistoryPage {
  import opened Wrappers
  import opened Text

  /** One history entry; every value is kept as the page keeps it, as a string. */
  datatype HistoryItem = HistoryItem(id: int, date: string, temp: string, humidity: string,
                                     pressure: string, windSpeed: string, quality: string,
                                     score: string, icon: string)

  /** The fixed entries the page lists. */
  const MockHistory: seq<HistoryItem> := [
    HistoryItem(1, "2025-12-01", "28", "65", "1013", "5", "Baik", "82", "✅"),
    HistoryItem(2, "2025-11-30", "24", "72", "1010", "8", "Baik", "78", "✅"),
    HistoryItem(3, "2025-11-29", "31", "45", "1025", "3", "Kurang", "45", "❌"),
    HistoryItem(4, "2025-11-28", "26", "58", "1015", "12", "Sedang", "68", "⚠️")
  ]

  /** The quality filter value that lets every quality through. */
  const AllQualities: string := "semua"

  /** The search text as the page compares it: trimmed, then lower-cased. */
  function NormalizeQuery(query: string): (q: string)
    ensures |q| <= |query|
    ensures q == [] <==> forall i :: 0 <= i < |query| ==> IsJsSpace(query[i])
  {
    ToLower(Trim(query))
  }

  /** The search: date, quality, score or temperature, lower-cased, contains `q`. */
  predicate MatchesQuery(it: HistoryItem, q: string) {
    Includes(ToLower(it.date), q) || Includes(ToLower(it.quality), q) ||
    Includes(ToLower(it.score), q) || Includes(ToLower(it.temp), q)
  }

  /** The filter callback: the quality test first, then the search unless `q` is empty. */
  predicate Keep(it: HistoryItem, filterQuality: string, q: string) {
    if filterQuality != AllQualities && it.quality != filterQuality then false
    else if q == [] then true
    else MatchesQuery(it, q)
  }

  /** `filter`: the kept entries, in their order. */
  function Filter(items: seq<HistoryItem>, filterQuality: string, q: string): (out: seq<HistoryItem>)
    ensures |out| <= |items|
    ensures forall it :: it in out <==> it in items && Keep(it, filterQuality, q)
    ensures multiset(out) <= multiset(items)
    ensures forall it :: multiset(out)[it] == if Keep(it, filterQuality, q) then multiset(items)[it] else 0
  {
    if items == [] then []
    else
      var rest := Filter(items[1..], filterQuality, q);
      assert items == [items[0]] + items[1..];
      if Keep(items[0], filterQuality, q) then [items[0]] + rest else rest
  }

  /** JavaScript's `<` on strings: lexicographic order of the characters. */
  predicate LexLess(a: string, b: string)
    decreases |a|
  {
    if a == [] then b != []
    else if b == [] then false
    else if a[0] != b[0] then a[0] < b[0]
    else LexLess(a[1..], b[1..])
  }

  lemma {:induction false} LexLessIrreflexive(a: string)
    ensures !LexLess(a, a)
    decreases |a|
  {
    if a != [] {
      LexLessIrreflexive(a[1..]);
    }
  }

  lemma {:induction false} LexLessAsymmetric(a: string, b: string)
    ensures LexLess(a, b) ==> !LexLess(b, a)
    decreases |a|
  {
    if a != [] && b != [] && a[0] == b[0] {
      LexLessAsymmetric(a[1..], b[1..]);
    }
  }

  lemma {:induction false} LexLessTransitive(a: string, b: string, c: string)
    ensures LexLess(a, b) && LexLess(b, c) ==> LexLess(a, c)
    decreases |a|
  {
    if a != [] && b != [] && c != [] && a[0] == b[0] && b[0] == c[0] {
      LexLessTransitive(a[1..], b[1..], c[1..]);
    }
  }

  /** Two different strings are always ordered one way or the other. */
  lemma {:induction false} LexLessTotal(a: string, b: string)
    ensures a != b ==> LexLess(a, b) || LexLess(b, a)
    decreases |a|
  {
    if a != [] && b != [] && a[0] == b[0] {
      LexLessTotal(a[1..], b[1..]);
      assert a == [a[0]] + a[1..] && b == [b[0]] + b[1..];
    }
  }

  /** No entry is listed before one with a later date. */
  predicate NewestFirst(s: seq<HistoryItem>) {
    forall i, j :: 0 <= i < j < |s| ==> !LexLess(s[i].date, s[j].date)
  }

  /** Places `x` in front of the first entry it is not older than. */
  function Insert(x: HistoryItem, s: seq<HistoryItem>): (out: seq<HistoryItem>)
    requires NewestFirst(s)
    ensures NewestFirst(out)
    ensures multiset(out) == multiset(s) + multiset{x}
  {
    if s == [] then [x]
    else if !LexLess(x.date, s[0].date) then
      forall j | 0 <= j < |s|
        ensures !LexLess(x.date, s[j].date)
      {
        if j > 0 {
          LexLessTotal(s[0].date, s[j].date);
          LexLessTransitive(x.date, s[j].date, s[0].date);
        }
      }
      [x] + s
    else
      var rest := Insert(x, s[1..]);
      NewestFirstCons(x, s, rest);
      assert s == [s[0]] + s[1..];
      [s[0]] + rest
  }

  /** Putting `s[0]` back in front of `x` inserted into the rest of `s` keeps it newest first. */
  lemma NewestFirstCons(x: HistoryItem, s: seq<HistoryItem>, rest: seq<HistoryItem>)
    requires s != [] && NewestFirst(s) && LexLess(x.date, s[0].date)
    requires NewestFirst(rest) && multiset(rest) == multiset(s[1..]) + multiset{x}
    ensures NewestFirst([s[0]] + rest)
  {
    forall j | 0 <= j < |rest|
      ensures !LexLess(s[0].date, rest[j].date)
    {
      assert rest[j] in multiset(rest);
      if rest[j] == x {
        LexLessAsymmetric(x.date, s[0].date);
      } else {
        assert rest[j] in multiset(s[1..]);
        var k :| 0 <= k < |s[1..]| && s[1..][k] == rest[j];
        assert s[k + 1] == rest[j];
      }
    }
    var out := [s[0]] + rest;
    forall i, j | 0 <= i < j < |out|
      ensures !LexLess(out[i].date, out[j].date)
    {
      if i > 0 {
        assert out[i] == rest[i - 1] && out[j] == rest[j - 1];
      } else {
        assert out[j] == rest[j - 1];
      }
    }
  }

  /**
   * `sort((a, b) => (a.date < b.date ? 1 : -1))`: the same entries, newest
   * date first. The comparator never answers 0, so the order among entries
   * with equal dates is not fixed by it; this is one admissible order.
   */
  function SortNewestFirst(s: seq<HistoryItem>): (out: seq<HistoryItem>)
    ensures NewestFirst(out)
    ensures multiset(out) == multiset(s)
  {
    if s == [] then []
    else
      assert s == [s[0]] + s[1..];
      Insert(s[0], SortNewestFirst(s[1..]))
  }

  /** The listed entries. */
  function List(items: seq<HistoryItem>, query: string, filterQuality: string): seq<HistoryItem> {
    SortNewestFirst(Filter(items, filterQuality, NormalizeQuery(query)))
  }

  /** What is listed: exactly the kept entries, each as often as in `items`, newest date first. */
  lemma ListMeaning(items: seq<HistoryItem>, query: string, filterQuality: string)
    ensures var list := List(items, query, filterQuality);
      var q := NormalizeQuery(query);
      && NewestFirst(list)
      && multiset(list) <= multiset(items)
      && (forall it :: multiset(list)[it] == if Keep(it, filterQuality, q) then multiset(items)[it] else 0)
      && (forall it :: it in list <==> it in items && Keep(it, filterQuality, q))
  {
    var filtered := Filter(items, filterQuality, NormalizeQuery(query));
    var list := SortNewestFirst(filtered);
    assert forall it :: it in list <==> it in multiset(list);
  }

  /** With a quality other than "semua" chosen, every listed entry has that quality. */
  lemma ListHonoursQuality(items: seq<HistoryItem>, query: string, filterQuality: string)
    requires filterQuality != AllQualities
    ensures forall it :: it in List(items, query, filterQuality) ==> it.quality == filterQuality
  {
    ListMeaning(items, query, filterQuality);
  }

  /** A blank search lists every entry that passes the quality filter. */
  lemma BlankQueryListsAll(items: seq<HistoryItem>, query: string, filterQuality: string)
    requires forall i :: 0 <= i < |query| ==> IsJsSpace(query[i])
    ensures forall it :: it in items && (filterQuality == AllQualities || it.quality == filterQuality) ==>
      it in List(items, query, filterQuality)
  {
    ListMeaning(items, query, filterQuality);
  }

  /**
   * A non-blank search keeps an entry exactly when one of the four searched
   * fields contains it; humidity, pressure and wind are not searched.
   */
  lemma SearchFields(items: seq<HistoryItem>, query: string)
    requires NormalizeQuery(query) != []
    ensures forall it :: it in List(items, query, AllQualities) <==>
      it in items && MatchesQuery(it, NormalizeQuery(query))
  {
    ListMeaning(items, query, AllQualities);
  }

  /** A number, or the NaN that `parseInt` gives for text that is not one. */
  datatype Num = Int(v: int) | NaN

  /** The statistics card; `best` is None when it shows "-". */
  datatype Stats = Stats(avg: Num, best: Option<Num>, total: nat)

  function Sum(xs: seq<int>): int {
    if xs == [] then 0 else xs[0] + Sum(xs[1..])
  }

  /** `Math.max(...xs)` of a non-empty list. */
  function MaxOf(xs: seq<int>): (m: int)
    requires xs != []
    ensures m in xs && forall i :: 0 <= i < |xs| ==> xs[i] <= m
  {
    if |xs| == 1 then xs[0]
    else
      var rest := MaxOf(xs[1..]);
      assert forall i :: 1 <= i < |xs| ==> xs[i] == xs[1..][i - 1];
      if xs[0] >= rest then xs[0] else rest
  }

  function MinOf(xs: seq<int>): (m: int)
    requires xs != []
    ensures m in xs && forall i :: 0 <= i < |xs| ==> m <= xs[i]
  {
    if |xs| == 1 then xs[0]
    else
      var rest := MinOf(xs[1..]);
      assert forall i :: 1 <= i < |xs| ==> xs[i] == xs[1..][i - 1];
      if xs[0] <= rest then xs[0] else rest
  }

  /** Every element between `lo` and `hi` puts the sum between |xs| times each. */
  lemma {:induction false} SumBounds(xs: seq<int>, lo: int, hi: int)
    requires forall i :: 0 <= i < |xs| ==> lo <= xs[i] <= hi
    ensures |xs| * lo <= Sum(xs) <= |xs| * hi
  {
    if xs != [] {
      assert forall i :: 1 <= i < |xs| ==> xs[i] == xs[1..][i - 1];
      SumBounds(xs[1..], lo, hi);
      assert |xs| * lo == (|xs| - 1) * lo + lo;
      assert |xs| * hi == (|xs| - 1) * hi + hi;
    }
  }

  lemma MulMonotone(c: int, a: int, b: int)
    requires c >= 0 && a <= b
    ensures c * a <= c * b
  {
    assert c * b - c * a == c * (b - a);
  }

  /** `Math.round(sum / n)` for a positive count `n`: the nearest integer, halves rounded up. */
  function RoundDiv(sum: int, n: int): (r: int)
    requires n > 0
    ensures 2 * n * r <= 2 * sum + n < 2 * n * (r + 1)
  {
    (2 * sum + n) / (2 * n)
  }

  /** A mean of values between `lo` and `hi` rounds to a value between them. */
  lemma RoundDivBetween(sum: int, n: int, lo: int, hi: int)
    requires n > 0 && n * lo <= sum <= n * hi
    ensures lo <= RoundDiv(sum, n) <= hi
  {
    var r := RoundDiv(sum, n);
    if r < lo {
      assert 2 * n * lo == 2 * (n * lo);
      MulMonotone(2 * n, r + 1, lo);
    }
    if r > hi {
      assert 2 * n * (hi + 1) == 2 * (n * hi) + 2 * n;
      MulMonotone(2 * n, hi + 1, r);
    }
  }

  /** The parsed scores, or None when one of them is NaN. */
  function ParseAll(list: seq<HistoryItem>, parseInt: string -> Option<int>): (r: Option<seq<int>>)
    ensures r.Some? <==> forall i :: 0 <= i < |list| ==> parseInt(list[i].score).Some?
    ensures r.Some? ==>
      (|r.value| == |list| && forall i :: 0 <= i < |list| ==> r.value[i] == parseInt(list[i].score).value)
  {
    if list == [] then Some([])
    else
      var rest := ParseAll(list[1..], parseInt);
      assert forall i :: 1 <= i < |list| ==> list[i] == list[1..][i - 1];
      match parseInt(list[0].score)
      case None => None
      case Some(x) => if rest.None? then None else Some([x] + rest.value)
  }

  /**
   * The `stats` memo: zero, "-" and zero for an empty list; otherwise the
   * rounded mean and the largest score (both NaN when a score does not
   * parse) and the number of entries.
   */
  function StatsOf(list: seq<HistoryItem>, parseInt: string -> Option<int>): (s: Stats)
    ensures list == [] ==> s == Stats(Int(0), None, 0)
    ensures list != [] ==> s.total == |list| && s.best.Some?
    ensures list != [] && ParseAll(list, parseInt).None? ==> s.avg == NaN && s.best == Some(NaN)
    ensures list != [] && ParseAll(list, parseInt).Some? ==>
      var scores := ParseAll(list, parseInt).value;
      && s.avg.Int? && s.best.Some? && s.best.value.Int?
      && (forall i :: 0 <= i < |scores| ==> scores[i] <= s.best.value.v)
      && s.best.value.v in scores
      && s.avg == Int(RoundDiv(Sum(scores), |scores|))
      && MinOf(scores) <= s.avg.v <= s.best.value.v
  {
    if list == [] then Stats(Int(0), None, 0)
    else
      match ParseAll(list, parseInt)
      case None => Stats(NaN, Some(NaN), |list|)
      case Some(scores) =>
        var avg := RoundDiv(Sum(scores), |scores|);
        SumBounds(scores, MinOf(scores), MaxOf(scores));
        RoundDivBetween(Sum(scores), |scores|, MinOf(scores), MaxOf(scores));
        Stats(Int(avg), Some(Int(MaxOf(scores))), |list|)
  }

  /** `list.slice(0, 5)`: the first five listed entries, or all of them when there are fewer. */
  function Chart(list: seq<HistoryItem>): (shown: seq<HistoryItem>)
    ensures |shown| <= 5 && |shown| <= |list|
    ensures |shown| == 5 || |shown| == |list|
    ensures shown == list[..|shown|]
  {
    if |list| <= 5 then list else list[..5]
  }
}
