/** The canonical text that is hashed for cache keys and idempotency checks: object properties
    are sorted by key before printing, at every level. */
module CanonicalJson {
  import opened Json
  import opened Utf16

  // --- Key orders ---------------------------------------------------------------------

  /** Position of a character in UTF-16 code unit order: surrogate pairs sort below U+E000. */
  function Rank(c: char): int {
    var v := c as int;
    if v < 0xD800 then v else if v >= 0x10000 then v - 0x10000 + 0xD800 else v + 0x100000
  }

  /** The `<` of JavaScript strings. */
  predicate Less(a: string, b: string) {
    b != "" && (a == "" || Rank(a[0]) < Rank(b[0]) || (a[0] == b[0] && Less(a[1..], b[1..])))
  }

  predicate Digits(s: string) {
    forall i :: 0 <= i < |s| ==> '0' <= s[i] <= '9'
  }

  /** Keys that JavaScript objects enumerate first, in numeric order: 0 to 2^32 - 2. */
  predicate IsIndex(k: string) {
    && k != "" && Digits(k) && (k[0] != '0' || |k| == 1)
    && (|k| < 10 || (|k| == 10 && (k == "4294967294" || Less(k, "4294967294"))))
  }

  /** Numeric order of numerals without leading zeros. */
  predicate ShortLess(a: string, b: string) {
    |a| < |b| || (|a| == |b| && Less(a, b))
  }

  /** The order in which the properties of the rebuilt object are printed. */
  predicate Before(a: string, b: string) {
    if IsIndex(a) && IsIndex(b) then ShortLess(a, b)
    else if IsIndex(a) || IsIndex(b) then IsIndex(a)
    else Less(a, b)
  }

  // --- What the orders mean --------------------------------------------------------------

  predicate UnitsLess(a: seq<int>, b: seq<int>) {
    b != [] && (a == [] || a[0] < b[0] || (a[0] == b[0] && UnitsLess(a[1..], b[1..])))
  }

  lemma UnitsLessCons(x: int, u: seq<int>, y: int, v: seq<int>)
    ensures UnitsLess([x] + u, [y] + v) <==> x < y || (x == y && UnitsLess(u, v))
  {
    assert ([x] + u)[1..] == u && ([y] + v)[1..] == v;
  }

  lemma UnitsLessPair(x: int, x': int, u: seq<int>, y: int, y': int, v: seq<int>)
    ensures UnitsLess([x, x'] + u, [y, y'] + v)
            <==> x < y || (x == y && (x' < y' || (x' == y' && UnitsLess(u, v))))
  {
    assert [x, x'] + u == [x] + ([x'] + u) && [y, y'] + v == [y] + ([y'] + v);
    UnitsLessCons(x, [x'] + u, y, [y'] + v);
    UnitsLessCons(x', u, y', v);
  }

  lemma HighAndLow(v: int, w: int)
    ensures v < w <==> v / 0x400 < w / 0x400 || (v / 0x400 == w / 0x400 && v % 0x400 < w % 0x400)
    ensures v == w <==> v / 0x400 == w / 0x400 && v % 0x400 == w % 0x400
  {
    assert v == 0x400 * (v / 0x400) + v % 0x400;
    assert w == 0x400 * (w / 0x400) + w % 0x400;
  }

  lemma RankIsUnitOrder(c: char, u: seq<int>, d: char, v: seq<int>)
    ensures UnitsLess(CodeUnits(c) + u, CodeUnits(d) + v) <==> Rank(c) < Rank(d) || (c == d && UnitsLess(u, v))
  {
    var x, y := c as int, d as int;
    if x < 0x10000 && y < 0x10000 {
      UnitsLessCons(x, u, y, v);
    } else if x < 0x10000 {
      assert CodeUnits(d) + v == [CodeUnits(d)[0]] + ([CodeUnits(d)[1]] + v);
      UnitsLessCons(x, u, CodeUnits(d)[0], [CodeUnits(d)[1]] + v);
    } else if y < 0x10000 {
      assert CodeUnits(c) + u == [CodeUnits(c)[0]] + ([CodeUnits(c)[1]] + u);
      UnitsLessCons(CodeUnits(c)[0], [CodeUnits(c)[1]] + u, y, v);
    } else {
      HighAndLow(x - 0x10000, y - 0x10000);
      UnitsLessPair(CodeUnits(c)[0], CodeUnits(c)[1], u, CodeUnits(d)[0], CodeUnits(d)[1], v);
    }
  }

  lemma CodeUnitsExist(c: char, u: seq<int>)
    ensures CodeUnits(c) + u != []
  {
    assert |CodeUnits(c)| > 0;
  }

  /** The order of JavaScript strings is the order of their UTF-16 code units. */
  lemma {:induction false} LessIsCodeUnitOrder(a: string, b: string)
    ensures Less(a, b) <==> UnitsLess(Encode(a), Encode(b))
    decreases a
  {
    if a != "" {
      CodeUnitsExist(a[0], Encode(a[1..]));
    }
    if b != "" {
      CodeUnitsExist(b[0], Encode(b[1..]));
    }
    if a != "" && b != "" {
      LessIsCodeUnitOrder(a[1..], b[1..]);
      RankIsUnitOrder(a[0], Encode(a[1..]), b[0], Encode(b[1..]));
    }
  }

  function Pow10(n: nat): nat {
    if n == 0 then 1 else 10 * Pow10(n - 1)
  }

  function Digit(c: char): int {
    c as int - '0' as int
  }

  /** The number that a string of digits denotes. */
  function Numeral(s: string): nat
    requires Digits(s)
  {
    if s == "" then 0 else 10 * Numeral(s[..|s| - 1]) + Digit(s[|s| - 1])
  }

  lemma NumeralSnoc(s: string, c: char)
    requires Digits(s) && '0' <= c <= '9'
    ensures Digits(s + [c]) && Numeral(s + [c]) == 10 * Numeral(s) + Digit(c)
  {
    assert (s + [c])[..|s|] == s;
  }

  lemma {:induction false} NumeralBelow(s: string)
    requires Digits(s)
    ensures Numeral(s) < Pow10(|s|)
  {
    if s != "" {
      NumeralBelow(s[..|s| - 1]);
    }
  }

  /** A numeral without superfluous zeros. */
  predicate Canonic(s: string) {
    s != "" && Digits(s) && (s[0] != '0' || |s| == 1)
  }

  lemma {:induction false} NumeralAtLeast(s: string)
    requires s != "" && Digits(s) && s[0] != '0'
    ensures Numeral(s) >= Pow10(|s| - 1)
  {
    if |s| > 1 {
      NumeralAtLeast(s[..|s| - 1]);
    } else {
      assert s[..0] == "";
    }
  }

  lemma {:induction false} Pow10Grows(m: nat, n: nat)
    requires m <= n
    ensures 1 <= Pow10(m) <= Pow10(n)
    decreases n
  {
    if m < n {
      Pow10Grows(m, n - 1);
    } else if n > 0 {
      Pow10Grows(n - 1, n - 1);
    }
  }

  lemma {:induction false} LessSnoc(a: string, x: char, b: string, y: char)
    requires |a| == |b|
    ensures Less(a + [x], b + [y]) <==> Less(a, b) || (a == b && Rank(x) < Rank(y))
  {
    var s, t := a + [x], b + [y];
    if a == "" {
      assert s[1..] == "" && t[1..] == "";
    } else {
      assert s[0] == a[0] && t[0] == b[0] && s[1..] == a[1..] + [x] && t[1..] == b[1..] + [y];
      LessSnoc(a[1..], x, b[1..], y);
      assert a[0] == b[0] ==> (a == b <==> a[1..] == b[1..]) by {
        assert a == [a[0]] + a[1..] && b == [b[0]] + b[1..];
      }
    }
  }

  lemma DigitOrder(x: char, y: char)
    requires '0' <= x <= '9' && '0' <= y <= '9'
    ensures Rank(x) < Rank(y) <==> Digit(x) < Digit(y)
    ensures x == y <==> Digit(x) == Digit(y)
  {
  }

  /** Appending digits to numbers of which the order is known. */
  lemma AppendDigits(m: nat, x: nat, n: nat, y: nat)
    requires x < 10 && y < 10
    ensures 10 * m + x < 10 * n + y <==> m < n || (m == n && x < y)
    ensures 10 * m + x == 10 * n + y <==> m == n && x == y
  {
  }

  lemma SnocEqual(a: string, x: char, b: string, y: char)
    requires |a| == |b|
    ensures a + [x] == b + [y] <==> a == b && x == y
  {
    if a + [x] == b + [y] {
      assert a == (a + [x])[..|a|] == (b + [y])[..|b|] == b;
      assert x == (a + [x])[|a|] == (b + [y])[|b|] == y;
    }
  }

  lemma {:induction false} LessIsNumeric(a: string, b: string)
    requires Digits(a) && Digits(b) && |a| == |b|
    ensures Less(a, b) <==> Numeral(a) < Numeral(b)
    ensures a == b <==> Numeral(a) == Numeral(b)
    decreases |a|
  {
    if a != "" {
      var n := |a| - 1;
      var c, x, d, y := a[..n], a[n], b[..n], b[n];
      assert a == c + [x] && b == d + [y];
      LessIsNumeric(c, d);
      LessSnoc(c, x, d, y);
      SnocEqual(c, x, d, y);
      DigitOrder(x, y);
      NumeralSnoc(c, x);
      NumeralSnoc(d, y);
      AppendDigits(Numeral(c), Digit(x), Numeral(d), Digit(y));
    }
  }

  lemma ShorterIsSmaller(a: string, b: string)
    requires Canonic(a) && Canonic(b) && |a| < |b|
    ensures Numeral(a) < Numeral(b)
  {
    NumeralBelow(a);
    NumeralAtLeast(b);
    Pow10Grows(|a|, |b| - 1);
  }

  /** Integer-like keys are printed in numeric order. */
  lemma ShortLessIsNumeric(a: string, b: string)
    requires Canonic(a) && Canonic(b)
    ensures ShortLess(a, b) <==> Numeral(a) < Numeral(b)
  {
    if |a| < |b| {
      ShorterIsSmaller(a, b);
    } else if |b| < |a| {
      ShorterIsSmaller(b, a);
    } else {
      LessIsNumeric(a, b);
    }
  }

  lemma Pow10Values()
    ensures Pow10(9) == 1000000000 && Pow10(10) == 10000000000
  {
    assert Pow10(3) == 1000;
    assert Pow10(6) == 1000000;
  }

  lemma NumeralIs(s: string, c: char, value: nat, next: string)
    requires Digits(s) && Numeral(s) == value && '0' <= c <= '9' && next == s + [c]
    ensures Digits(next) && Numeral(next) == 10 * value + Digit(c)
  {
    NumeralSnoc(s, c);
  }

  lemma FirstFive()
    ensures Digits("42949") && Numeral("42949") == 42949
  {
    NumeralIs("", '4', 0, "4");
    NumeralIs("4", '2', 4, "42");
    NumeralIs("42", '9', 42, "429");
    NumeralIs("429", '4', 429, "4294");
    NumeralIs("4294", '9', 4294, "42949");
  }

  lemma LargestIndex()
    ensures Digits("4294967294") && Numeral("4294967294") == 0xFFFFFFFE
  {
    FirstFive();
    NumeralIs("42949", '6', 42949, "429496");
    NumeralIs("429496", '7', 429496, "4294967");
    NumeralIs("4294967", '2', 4294967, "42949672");
    NumeralIs("42949672", '9', 42949672, "429496729");
    NumeralIs("429496729", '4', 429496729, "4294967294");
  }

  /** The integer-like keys are the numerals of 0 to 2^32 - 2. */
  lemma IndexIsArrayIndex(k: string)
    ensures IsIndex(k) <==> Canonic(k) && Numeral(k) < 0xFFFFFFFF
  {
    LargestIndex();
    Pow10Values();
    if Canonic(k) {
      if |k| < 10 {
        NumeralBelow(k);
        Pow10Grows(|k|, 9);
      } else if |k| == 10 {
        LessIsNumeric(k, "4294967294");
      } else {
        NumeralAtLeast(k);
        Pow10Grows(10, |k| - 1);
      }
    }
  }

  lemma RankInjective(c: char, d: char)
    requires Rank(c) == Rank(d)
    ensures c == d
  {
  }

  lemma {:induction false} LessTransitive(a: string, b: string, c: string)
    requires Less(a, b) && Less(b, c)
    ensures Less(a, c)
  {
    if a != "" && a[0] == b[0] == c[0] {
      LessTransitive(a[1..], b[1..], c[1..]);
    }
  }

  lemma {:induction false} LessIrreflexive(a: string)
    ensures !Less(a, a)
  {
    if a != "" {
      LessIrreflexive(a[1..]);
    }
  }

  lemma {:induction false} LessTotal(a: string, b: string)
    requires a != b
    ensures Less(a, b) || Less(b, a)
  {
    if a != "" && b != "" {
      if a[0] == b[0] {
        assert a == [a[0]] + a[1..] && b == [b[0]] + b[1..];
        LessTotal(a[1..], b[1..]);
      } else if Rank(a[0]) == Rank(b[0]) {
        RankInjective(a[0], b[0]);
      }
    }
  }

  lemma BeforeIrreflexive(a: string)
    ensures !Before(a, a)
  {
    LessIrreflexive(a);
  }

  lemma BeforeTransitive(a: string, b: string, c: string)
    requires Before(a, b) && Before(b, c)
    ensures Before(a, c)
  {
    if Less(a, b) && Less(b, c) {
      LessTransitive(a, b, c);
    }
  }

  // --- Sorting ------------------------------------------------------------------------

  /** Array.prototype.sort with a comparator, as insertion sort. */
  function Insert(lt: (string, string) -> bool, p: Prop, ps: seq<Prop>): seq<Prop> {
    if ps == [] then [p]
    else if lt(p.key, ps[0].key) then [p] + ps
    else [ps[0]] + Insert(lt, p, ps[1..])
  }

  function Sort(lt: (string, string) -> bool, ps: seq<Prop>): seq<Prop> {
    if ps == [] then [] else Insert(lt, ps[0], Sort(lt, ps[1..]))
  }

  function Select(index: bool, ps: seq<Prop>): seq<Prop> {
    if ps == [] then []
    else (if IsIndex(ps[0].key) == index then [ps[0]] else []) + Select(index, ps[1..])
  }

  /** The enumeration order of an object built by Object.fromEntries: integer-like keys in
      numeric order, then the other keys in insertion order. */
  function FromEntries(ps: seq<Prop>): seq<Prop> {
    Sort(ShortLess, Select(true, ps)) + Select(false, ps)
  }

  function SortedProps(ps: seq<Prop>): seq<Prop> {
    FromEntries(Sort(Less, ps))
  }

  /** The value JSON.stringify prints once the replacer has rebuilt every object. */
  function Canonical(j: Json): Json {
    match j
    case Arr(items) => Arr(CanonicalItems(items))
    case Obj(props) => Obj(SortedProps(CanonicalProps(props)))
    case _ => j
  }

  function CanonicalItems(items: seq<Json>): (r: seq<Json>)
    ensures |r| == |items|
    ensures forall i :: 0 <= i < |items| ==> r[i] == Canonical(items[i])
  {
    if items == [] then [] else [Canonical(items[0])] + CanonicalItems(items[1..])
  }

  function CanonicalProps(props: seq<Prop>): (r: seq<Prop>)
    ensures |r| == |props|
    ensures forall i :: 0 <= i < |props| ==> r[i] == Prop(props[i].key, Canonical(props[i].value))
  {
    if props == [] then []
    else [Prop(props[0].key, Canonical(props[0].value))] + CanonicalProps(props[1..])
  }

  function CanonicalText(j: Json): string {
    Text(Canonical(j))
  }

  // --- Sorting keeps the properties -----------------------------------------------------

  lemma {:induction false} InsertKeeps(lt: (string, string) -> bool, p: Prop, ps: seq<Prop>)
    ensures multiset(Insert(lt, p, ps)) == multiset(ps) + multiset{p}
  {
    if ps != [] && !lt(p.key, ps[0].key) {
      InsertKeeps(lt, p, ps[1..]);
      assert ps == [ps[0]] + ps[1..];
    }
  }

  lemma {:induction false} SortKeeps(lt: (string, string) -> bool, ps: seq<Prop>)
    ensures multiset(Sort(lt, ps)) == multiset(ps)
  {
    if ps != [] {
      SortKeeps(lt, ps[1..]);
      InsertKeeps(lt, ps[0], Sort(lt, ps[1..]));
      assert ps == [ps[0]] + ps[1..];
    }
  }

  lemma {:induction false} SelectsKeep(ps: seq<Prop>)
    ensures multiset(Select(true, ps)) + multiset(Select(false, ps)) == multiset(ps)
    ensures forall p :: p in Select(true, ps) ==> IsIndex(p.key)
    ensures forall p :: p in Select(false, ps) ==> !IsIndex(p.key)
  {
    if ps != [] {
      SelectsKeep(ps[1..]);
      assert ps == [ps[0]] + ps[1..];
    }
  }

  lemma SortedPropsKeep(ps: seq<Prop>)
    ensures multiset(SortedProps(ps)) == multiset(ps)
  {
    var sorted := Sort(Less, ps);
    SortKeeps(Less, ps);
    SelectsKeep(sorted);
    SortKeeps(ShortLess, Select(true, sorted));
  }

  // --- Sorting sorts --------------------------------------------------------------------

  /** A transitive order that compares every two different keys of interest. */
  ghost predicate Ordering(lt: (string, string) -> bool) {
    && (forall a, b, c :: lt(a, b) && lt(b, c) ==> lt(a, c))
    && (forall a, b :: a != b ==> lt(a, b) || lt(b, a))
  }

  predicate Sorted(lt: (string, string) -> bool, ps: seq<Prop>) {
    forall i, j :: 0 <= i < j < |ps| ==> lt(ps[i].key, ps[j].key)
  }

  predicate Fresh(k: string, ps: seq<Prop>) {
    forall i :: 0 <= i < |ps| ==> ps[i].key != k
  }

  lemma LessOrders()
    ensures Ordering(Less)
  {
    forall a, b, c | Less(a, b) && Less(b, c) ensures Less(a, c) {
      LessTransitive(a, b, c);
    }
    forall a: string, b: string | a != b ensures Less(a, b) || Less(b, a) {
      LessTotal(a, b);
    }
  }

  lemma ShortLessOrders()
    ensures Ordering(ShortLess)
  {
    LessOrders();
  }

  lemma ConsSorted(lt: (string, string) -> bool, p: Prop, ps: seq<Prop>)
    requires Sorted(lt, ps) && forall q :: q in ps ==> lt(p.key, q.key)
    ensures Sorted(lt, [p] + ps)
  {
    var r := [p] + ps;
    forall i, j | 0 <= i < j < |r| ensures lt(r[i].key, r[j].key) {
      assert r[j] == ps[j - 1] && ps[j - 1] in ps;
    }
  }

  lemma {:induction false} InsertSorts(lt: (string, string) -> bool, p: Prop, ps: seq<Prop>)
    requires Ordering(lt) && Sorted(lt, ps) && Fresh(p.key, ps)
    ensures Sorted(lt, Insert(lt, p, ps))
    decreases ps
  {
    if ps != [] && !lt(p.key, ps[0].key) {
      InsertSorts(lt, p, ps[1..]);
      InsertKeeps(lt, p, ps[1..]);
      var r := Insert(lt, p, ps[1..]);
      forall q | q in r ensures lt(ps[0].key, q.key) {
        assert q in multiset(r);
        assert q == p || q in ps[1..];
      }
    }
  }

  lemma KeysOf(ps: seq<Prop>, qs: seq<Prop>, k: string)
    requires multiset(ps) == multiset(qs) && Fresh(k, ps)
    ensures Fresh(k, qs)
  {
    forall i | 0 <= i < |qs| ensures qs[i].key != k {
      assert qs[i] in multiset(ps);
    }
  }

  lemma {:induction false} SortSorts(lt: (string, string) -> bool, ps: seq<Prop>)
    requires Ordering(lt) && DistinctKeys(ps)
    ensures Sorted(lt, Sort(lt, ps))
  {
    if ps != [] {
      SortSorts(lt, ps[1..]);
      SortKeeps(lt, ps[1..]);
      KeysOf(ps[1..], Sort(lt, ps[1..]), ps[0].key);
      InsertSorts(lt, ps[0], Sort(lt, ps[1..]));
    }
  }

  lemma {:induction false} SelectKeepsOrder(index: bool, ps: seq<Prop>)
    requires Sorted(Less, ps)
    ensures Sorted(Less, Select(index, ps))
    ensures forall p :: p in Select(index, ps) ==> p in ps
  {
    if ps != [] {
      var r := Select(index, ps[1..]);
      SelectKeepsOrder(index, ps[1..]);
      forall p | p in r ensures Less(ps[0].key, p.key) {
        assert p in ps[1..];
      }
      if IsIndex(ps[0].key) == index {
        ConsSorted(Less, ps[0], r);
      } else {
        assert [] + r == r;
      }
    }
  }

  lemma SortedDistinct(ps: seq<Prop>)
    requires Sorted(Less, ps)
    ensures DistinctKeys(ps)
  {
    forall i, j | 0 <= i < j < |ps| ensures ps[i].key != ps[j].key {
      LessIrreflexive(ps[i].key);
    }
  }

  lemma SortedPropsSorted(ps: seq<Prop>)
    requires DistinctKeys(ps)
    ensures Sorted(Before, SortedProps(ps))
  {
    var sorted := Sort(Less, ps);
    LessOrders();
    ShortLessOrders();
    SortSorts(Less, ps);
    SelectsKeep(sorted);
    SelectKeepsOrder(true, sorted);
    SelectKeepsOrder(false, sorted);
    var indices, names := Select(true, sorted), Select(false, sorted);
    SortedDistinct(indices);
    SortSorts(ShortLess, indices);
    SortKeeps(ShortLess, indices);
    var front := Sort(ShortLess, indices);
    forall i | 0 <= i < |front| ensures IsIndex(front[i].key) {
      assert front[i] in multiset(indices);
    }
  }

  // --- A sorted sequence is determined by its properties -------------------------------------

  lemma {:induction false} SortedUnique(ps: seq<Prop>, qs: seq<Prop>)
    requires Sorted(Before, ps) && Sorted(Before, qs)
    requires forall p :: p in ps <==> p in qs
    ensures ps == qs
  {
    assert ps != [] ==> ps[0] in qs;
    assert qs != [] ==> qs[0] in ps;
    if ps != [] {
      if ps[0] != qs[0] {
        assert Before(qs[0].key, ps[0].key) && Before(ps[0].key, qs[0].key);
        BeforeTransitive(qs[0].key, ps[0].key, qs[0].key);
        BeforeIrreflexive(qs[0].key);
      }
      forall p | p in ps[1..] ensures p in qs[1..] { TailMember(ps, qs, p); }
      forall p | p in qs[1..] ensures p in ps[1..] { TailMember(qs, ps, p); }
      SortedUnique(ps[1..], qs[1..]);
      assert ps == [ps[0]] + ps[1..] && qs == [qs[0]] + qs[1..];
    }
  }

  lemma TailMember(ps: seq<Prop>, qs: seq<Prop>, p: Prop)
    requires Sorted(Before, ps) && ps != [] && qs != [] && ps[0] == qs[0]
    requires p in ps[1..] && p in qs
    ensures p in qs[1..]
  {
    BeforeIrreflexive(ps[0].key);
    assert Before(ps[0].key, p.key);
    assert p != qs[0];
  }

  // --- Equality up to property order -----------------------------------------------------------

  ghost function Keys(ps: seq<Prop>): set<string> {
    set i | 0 <= i < |ps| :: ps[i].key
  }

  /** Equal except for the order in which objects list their properties. Array order, text and
      number literals are significant. */
  ghost predicate SameUpToOrder(a: Json, b: Json)
    decreases a
  {
    match (a, b)
    case (Arr(xs), Arr(ys)) => |xs| == |ys| && forall i :: 0 <= i < |xs| ==> SameUpToOrder(xs[i], ys[i])
    case (Obj(ps), Obj(qs)) =>
      && Keys(ps) == Keys(qs)
      && forall i, j :: 0 <= i < |ps| && 0 <= j < |qs| && ps[i].key == qs[j].key ==>
           SameUpToOrder(ps[i].value, qs[j].value)
    case _ => a == b
  }

  lemma {:induction false} CanonicalIdentifies(a: Json, b: Json)
    requires WellFormed(a) && WellFormed(b)
    ensures Canonical(a) == Canonical(b) <==> SameUpToOrder(a, b)
    decreases a
  {
    match (a, b) {
      case (Arr(xs), Arr(ys)) =>
        if |xs| == |ys| {
          forall i | 0 <= i < |xs|
            ensures Canonical(xs[i]) == Canonical(ys[i]) <==> SameUpToOrder(xs[i], ys[i])
          {
            CanonicalIdentifies(xs[i], ys[i]);
          }
          if forall i :: 0 <= i < |xs| ==> Canonical(xs[i]) == Canonical(ys[i]) {
            assert CanonicalItems(xs) == CanonicalItems(ys);
          }
          if CanonicalItems(xs) == CanonicalItems(ys) {
            assert forall i :: 0 <= i < |xs| ==>
                CanonicalItems(xs)[i] == Canonical(xs[i]) && CanonicalItems(ys)[i] == Canonical(ys[i]);
          }
        }
      case (Obj(ps), Obj(qs)) =>
        forall i, j | 0 <= i < |ps| && 0 <= j < |qs|
          ensures Canonical(ps[i].value) == Canonical(qs[j].value) <==> SameUpToOrder(ps[i].value, qs[j].value)
        {
          CanonicalIdentifies(ps[i].value, qs[j].value);
        }
        ObjectsIdentified(ps, qs);
      case _ =>
    }
  }

  /** Two objects whose values are already compared canonically. */
  ghost predicate AgreeOnKeys(ps: seq<Prop>, qs: seq<Prop>) {
    && Keys(ps) == Keys(qs)
    && forall i, j :: 0 <= i < |ps| && 0 <= j < |qs| && ps[i].key == qs[j].key ==> ps[i].value == qs[j].value
  }

  lemma AgreeingContain(ps: seq<Prop>, qs: seq<Prop>, p: Prop)
    requires AgreeOnKeys(ps, qs) && p in ps
    ensures p in qs
  {
    var i :| 0 <= i < |ps| && ps[i] == p;
    assert p.key in Keys(qs);
    var j :| 0 <= j < |qs| && qs[j].key == p.key;
    assert qs[j] == p;
  }

  lemma ContainingAgree(ps: seq<Prop>, qs: seq<Prop>)
    requires DistinctKeys(qs) && forall p :: p in ps <==> p in qs
    ensures AgreeOnKeys(ps, qs)
  {
    forall k | k in Keys(ps) ensures k in Keys(qs) {
      var i :| 0 <= i < |ps| && ps[i].key == k;
      assert ps[i] in qs;
    }
    forall k | k in Keys(qs) ensures k in Keys(ps) {
      var i :| 0 <= i < |qs| && qs[i].key == k;
      assert qs[i] in ps;
    }
    forall i, j | 0 <= i < |ps| && 0 <= j < |qs| && ps[i].key == qs[j].key ensures ps[i].value == qs[j].value {
      assert ps[i] in qs;
      var n :| 0 <= n < |qs| && qs[n] == ps[i];
      assert n == j;
    }
  }

  lemma SameElements(ps: seq<Prop>, qs: seq<Prop>)
    requires multiset(ps) == multiset(qs)
    ensures forall p :: p in ps <==> p in qs
  {
    assert forall p :: p in ps <==> p in multiset(ps);
    assert forall p :: p in qs <==> p in multiset(qs);
  }

  /** Sorting two property lists gives the same list exactly when they agree as maps. */
  lemma SortedPropsIdentify(ps: seq<Prop>, qs: seq<Prop>)
    requires DistinctKeys(ps) && DistinctKeys(qs)
    ensures SortedProps(ps) == SortedProps(qs) <==> AgreeOnKeys(ps, qs)
  {
    SortedPropsKeep(ps);
    SortedPropsKeep(qs);
    SameElements(SortedProps(ps), ps);
    SameElements(SortedProps(qs), qs);
    if SortedProps(ps) == SortedProps(qs) {
      ContainingAgree(ps, qs);
    }
    if AgreeOnKeys(ps, qs) {
      SortedPropsSorted(ps);
      SortedPropsSorted(qs);
      forall p | p in ps ensures p in qs { AgreeingContain(ps, qs, p); }
      forall p | p in qs ensures p in ps { AgreeingContain(qs, ps, p); }
      SortedUnique(SortedProps(ps), SortedProps(qs));
    }
  }

  lemma ObjectsIdentified(ps: seq<Prop>, qs: seq<Prop>)
    requires DistinctKeys(ps) && DistinctKeys(qs)
    requires forall i, j :: 0 <= i < |ps| && 0 <= j < |qs| ==>
               (Canonical(ps[i].value) == Canonical(qs[j].value) <==> SameUpToOrder(ps[i].value, qs[j].value))
    ensures Canonical(Obj(ps)) == Canonical(Obj(qs)) <==> SameUpToOrder(Obj(ps), Obj(qs))
  {
    var cs, ds := CanonicalProps(ps), CanonicalProps(qs);
    SortedPropsIdentify(cs, ds);
    assert Keys(cs) == Keys(ps) by { KeysCanonical(ps); }
    assert Keys(ds) == Keys(qs) by { KeysCanonical(qs); }
    if AgreeOnKeys(cs, ds) {
      forall i, j | 0 <= i < |ps| && 0 <= j < |qs| && ps[i].key == qs[j].key
        ensures SameUpToOrder(ps[i].value, qs[j].value)
      {
        assert cs[i].key == ds[j].key;
      }
    }
    if SameUpToOrder(Obj(ps), Obj(qs)) {
      forall i, j | 0 <= i < |cs| && 0 <= j < |ds| && cs[i].key == ds[j].key
        ensures cs[i].value == ds[j].value
      {
        assert ps[i].key == qs[j].key;
      }
    }
  }

  lemma KeysCanonical(ps: seq<Prop>)
    ensures Keys(CanonicalProps(ps)) == Keys(ps)
  {
    var cs := CanonicalProps(ps);
    forall k | k in Keys(ps) ensures k in Keys(cs) {
      var i :| 0 <= i < |ps| && ps[i].key == k;
      assert cs[i].key == k;
    }
    forall k | k in Keys(cs) ensures k in Keys(ps) {
      var i :| 0 <= i < |cs| && cs[i].key == k;
      assert ps[i].key == k;
    }
  }

  // --- The canonical text ------------------------------------------------------------------------

  lemma {:induction false} CanonicalWellFormed(j: Json)
    requires WellFormed(j)
    ensures WellFormed(Canonical(j))
    decreases j
  {
    match j {
      case Arr(xs) =>
        forall i | 0 <= i < |xs| ensures WellFormed(Canonical(xs[i])) { CanonicalWellFormed(xs[i]); }
      case Obj(ps) =>
        forall i | 0 <= i < |ps| ensures WellFormed(Canonical(ps[i].value)) { CanonicalWellFormed(ps[i].value); }
        var cs := CanonicalProps(ps);
        assert DistinctKeys(cs);
        SortedPropsSorted(cs);
        SortedPropsKeep(cs);
        SameElements(SortedProps(cs), cs);
        var r := SortedProps(cs);
        forall i, k | 0 <= i < k < |r| ensures r[i].key != r[k].key { BeforeIrreflexive(r[i].key); }
        forall i | 0 <= i < |r| ensures WellFormed(r[i].value) { assert r[i] in cs; }
      case _ =>
    }
  }

  /** The text that is hashed identifies a value up to property order, and nothing more. */
  lemma CanonicalTextIdentifies(a: Json, b: Json)
    requires WellFormed(a) && WellFormed(b)
    ensures CanonicalText(a) == CanonicalText(b) <==> SameUpToOrder(a, b)
  {
    CanonicalWellFormed(a);
    CanonicalWellFormed(b);
    CanonicalIdentifies(a, b);
    if CanonicalText(a) == CanonicalText(b) {
      TextInjective(Canonical(a), Canonical(b));
    }
  }

  // --- Keys built from the hash ------------------------------------------------------------------

  /** SHA-256, idealised as a function without collisions. */
  ghost predicate CollisionFree(sha: string -> string) {
    forall a, b :: sha(a) == sha(b) ==> a == b
  }

  function Hash(sha: string -> string, j: Json): string {
    sha(CanonicalText(j))
  }

  function ChatCacheKey(sha: string -> string, namespace: string, owner: string, request: Json): string {
    "modelmux:chat-cache:v1:" + Hash(sha, Arr([Str(namespace), Str(owner), request]))
  }

  lemma HashIdentifies(sha: string -> string, a: Json, b: Json)
    requires CollisionFree(sha) && WellFormed(a) && WellFormed(b)
    ensures Hash(sha, a) == Hash(sha, b) <==> SameUpToOrder(a, b)
  {
    CanonicalTextIdentifies(a, b);
  }

  lemma SameTriple(a: seq<Json>, b: seq<Json>)
    requires |a| == |b| == 3
    ensures SameUpToOrder(Arr(a), Arr(b))
            <==> SameUpToOrder(a[0], b[0]) && SameUpToOrder(a[1], b[1]) && SameUpToOrder(a[2], b[2])
  {
  }

  /** Two cache keys are equal exactly when namespace, owner and request agree. */
  lemma CacheKeyIdentifies(sha: string -> string, n: string, o: string, r: Json, n': string, o': string, r': Json)
    requires CollisionFree(sha) && WellFormed(r) && WellFormed(r')
    ensures ChatCacheKey(sha, n, o, r) == ChatCacheKey(sha, n', o', r')
            <==> n == n' && o == o' && SameUpToOrder(r, r')
  {
    var a, b := [Str(n), Str(o), r], [Str(n'), Str(o'), r'];
    var prefix := "modelmux:chat-cache:v1:";
    HashIdentifies(sha, Arr(a), Arr(b));
    if prefix + Hash(sha, Arr(a)) == prefix + Hash(sha, Arr(b)) {
      WordPrefix(prefix, Hash(sha, Arr(a)), Hash(sha, Arr(b)));
    }
    SameTriple(a, b);
  }
}
