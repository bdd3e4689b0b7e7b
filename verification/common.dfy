/** Shared vocabulary of the model: optional values, the random draws and
    clock readings that the dashboard takes from `Math.random`, `Date.now`
    and `Date.getHours`, JavaScript's rounding helpers, decimal rendering of
    counters, and the small folds over sequences and maps that several
    components share. */
module Common {

  datatype Option<+T> = None | Some(value: T)

  /** One value of `Math.random()`: a real in [0, 1). */
  type Unit = u: real | 0.0 <= u < 1.0 witness 0.0

  /** A local hour of day as `Date.getHours()` returns it. */
  type Hour = h: int | 0 <= h < 24

  /** A percentage as produced by rounding `100 * sigmoid(z)`. */
  type Percent = p: int | 0 <= p <= 100

  /** Number of milliseconds in one day. */
  const DayMs: int := 86_400_000

  function MinReal(a: real, b: real): real { if a <= b then a else b }
  function MaxInt(a: int, b: int): int { if a >= b then a else b }

  /** `Math.ceil` on a real. */
  function Ceil(x: real): (r: int)
    ensures x <= r as real < x + 1.0
  {
    -((-x).Floor)
  }

  /** `Math.round`: halves go up. */
  function Round(x: real): (r: int)
    ensures x - 0.5 < r as real <= x + 0.5
  {
    (x + 0.5).Floor
  }

  /** `Number(x.toFixed(1))`, read as rounding to the nearest tenth: a
      whole number of tenths within half a tenth of `x`. */
  function RoundTenth(x: real): (r: real)
    ensures x - 0.05 < r <= x + 0.05
    ensures (r * 10.0).Floor as real == r * 10.0
  {
    var n := Round(x * 10.0);
    assert (n as real / 10.0) * 10.0 == n as real;
    n as real / 10.0
  }

  /** Where `x / w` lies relative to 0 and 1, for a positive `w`. */
  lemma DivBounds(x: real, w: real)
    requires w > 0.0
    ensures x < 0.0 <==> x / w < 0.0
    ensures x > w <==> x / w > 1.0
    ensures 0.0 <= x <= w ==> 0.0 <= x / w <= 1.0
    ensures 0.0 <= x < w ==> 0.0 <= x / w < 1.0
    ensures x == w ==> x / w == 1.0
  {
    var r := x / w;
    assert r * w == x;
    if x < 0.0 { assert r < 0.0; }
    if r < 0.0 { assert r * w < 0.0; }
    if x > w { assert r > 1.0; }
    if r > 1.0 { assert r * w > w; }
    if x <= w { assert r <= 1.0; }
    if x < w { assert r < 1.0; }
  }

  /** Real division floored is (Euclidean) integer division for a positive
      divisor. */
  lemma FloorOfQuotient(n: int, d: nat)
    requires d > 0
    ensures (n as real / d as real).Floor == n / d
  {
    var q, m := n / d, n % d;
    assert n == q * d + m;
    var dd := d as real;
    assert n as real == q as real * dd + m as real;
    assert n as real / dd == q as real + m as real / dd;
    DivBounds(m as real, dd);
  }

  // ---------------------------------------------------------------------
  // Decimal rendering of counters (template literals such as `USR-${n}`)
  // ---------------------------------------------------------------------

  function DigitChar(d: nat): char
    requires d < 10
  {
    "0123456789"[d]
  }

  function DigitValue(c: char): nat
  {
    if '0' <= c <= '9' then (c as int - '0' as int) as nat else 0
  }

  /** The decimal numeral of `n`, without leading zeros. */
  function Show(n: nat): (s: string)
    ensures 0 < |s|
    ensures forall i :: 0 <= i < |s| ==> '0' <= s[i] <= '9'
    ensures n < 10 <==> |s| == 1
  {
    if n < 10 then [DigitChar(n)] else Show(n / 10) + [DigitChar(n % 10)]
  }

  /** Reads a decimal numeral back; the partner of `Show`. */
  function ParseDecimal(s: string): nat
  {
    if |s| == 0 then 0 else 10 * ParseDecimal(s[..|s| - 1]) + DigitValue(s[|s| - 1])
  }

  lemma {:induction false} ShowRoundTrip(n: nat)
    ensures ParseDecimal(Show(n)) == n
  {
    var s := Show(n);
    if n >= 10 {
      assert s[..|s| - 1] == Show(n / 10);
      assert s[|s| - 1] == DigitChar(n % 10);
      DigitRoundTrip(n % 10);
      ShowRoundTrip(n / 10);
    } else {
      DigitRoundTrip(n);
      assert s[..|s| - 1] == [];
    }
  }

  /** Each digit reads back as its value. */
  lemma DigitRoundTrip(d: nat)
    requires d < 10
    ensures DigitValue(DigitChar(d)) == d
  {
  }

  /** Distinct counters render to distinct numerals. */
  lemma ShowInjective(a: nat, b: nat)
    requires Show(a) == Show(b)
    ensures a == b
  {
    ShowRoundTrip(a);
    ShowRoundTrip(b);
  }

  // ---------------------------------------------------------------------
  // Sequences
  // ---------------------------------------------------------------------

  function SumInt(s: seq<int>): int
  {
    if |s| == 0 then 0 else SumInt(s[..|s| - 1]) + s[|s| - 1]
  }

  function SumNat(s: seq<nat>): nat
  {
    if |s| == 0 then 0 else SumNat(s[..|s| - 1]) + s[|s| - 1]
  }

  /** Overwriting one entry changes the total by the difference. */
  lemma {:induction false} SumNatUpdate(s: seq<nat>, h: nat, v: nat)
    requires h < |s|
    ensures SumNat(s[h := v]) == SumNat(s) - s[h] + v
    decreases |s|
  {
    var n := |s| - 1;
    var t := s[h := v];
    assert t[..n] == if h < n then s[..n][h := v] else s[..n];
    if h < n {
      SumNatUpdate(s[..n], h, v);
    }
  }

  /** `s.map(key)`. */
  function Keys<T, K>(s: seq<T>, key: T -> K): (r: seq<K>)
    ensures |r| == |s|
    ensures forall i :: 0 <= i < |s| ==> r[i] == key(s[i])
  {
    seq(|s|, i requires 0 <= i < |s| => key(s[i]))
  }

  /** The elements whose key is `k`, in their original order. */
  function Select<T, K(==)>(s: seq<T>, key: T -> K, k: K): (r: seq<T>)
    ensures |r| <= |s|
    ensures forall i :: 0 <= i < |r| ==> key(r[i]) == k
    decreases |s|
  {
    if |s| == 0 then []
    else
      var rest := Select(s[..|s| - 1], key, k);
      if key(s[|s| - 1]) == k then rest + [s[|s| - 1]] else rest
  }

  /** The distinct values of `s` in order of first occurrence: the key
      order of a JavaScript `Map` or object filled by walking `s`. */
  function Distinct<T(==)>(s: seq<T>): (r: seq<T>)
    ensures |r| <= |s| && (|s| > 0 ==> |r| > 0)
    ensures forall i :: 0 <= i < |r| ==> r[i] in s
    ensures forall i :: 0 <= i < |s| ==> s[i] in r
    ensures forall i, j :: 0 <= i < j < |r| ==> r[i] != r[j]
    decreases |s|
  {
    if |s| == 0 then []
    else
      var d := Distinct(s[..|s| - 1]);
      if s[|s| - 1] in d then d else d + [s[|s| - 1]]
  }

  /** The sequence `f(0), ..., f(n - 1)`. */
  function Tabulate<T>(n: nat, f: nat -> T): (s: seq<T>)
    ensures |s| == n
    ensures forall i :: 0 <= i < n ==> s[i] == f(i)
  {
    seq(n, i requires 0 <= i < n => f(i))
  }

  /** The elements of `s` as a set: `new Set(s)`. */
  function Elements<T>(s: seq<T>): set<T>
  {
    set i | 0 <= i < |s| :: s[i]
  }

  /** `new Set(s).size` counts the same values `Distinct` lists. */
  lemma {:induction false} DistinctIsSetSize<T>(s: seq<T>)
    ensures |Distinct(s)| == |Elements(s)|
    decreases |s|
  {
    if |s| > 0 {
      var n := |s| - 1;
      var init, x := s[..n], s[n];
      DistinctIsSetSize(init);
      ElementsSnoc(s);
      var d := Distinct(init);
      assert x in d <==> x in init by {
        if x in d { var j :| 0 <= j < |d| && d[j] == x; }
        if x in init { var i :| 0 <= i < n && init[i] == x; }
      }
      if x in d {
        assert Elements(s) == Elements(init);
        assert Distinct(s) == d;
      } else {
        assert x !in Elements(init);
        assert Distinct(s) == d + [x];
      }
    }
  }

  /** Appending one element adds it to the set of elements; membership in
      the set is membership in the sequence. */
  lemma ElementsSnoc<T>(s: seq<T>)
    requires |s| > 0
    ensures Elements(s) == Elements(s[..|s| - 1]) + {s[|s| - 1]}
    ensures s[|s| - 1] in Elements(s[..|s| - 1]) <==> s[|s| - 1] in s[..|s| - 1]
  {
    var n := |s| - 1;
    var init, x := s[..n], s[n];
    forall y | y in Elements(s) ensures y in Elements(init) + {x} {
      var i :| 0 <= i < |s| && s[i] == y;
      if i < n { assert init[i] == y; }
    }
    forall y | y in Elements(init) ensures y in Elements(s) {
      var i :| 0 <= i < n && init[i] == y;
      assert s[i] == y;
    }
    if x in init {
      var i :| 0 <= i < n && init[i] == x;
    }
  }

  lemma {:induction false} SelectLast<T, K>(s: seq<T>, key: T -> K, k: K)
    requires |Select(s, key, k)| > 0
    ensures exists i :: 0 <= i < |s| && s[i] == Select(s, key, k)[|Select(s, key, k)| - 1]
                     && key(s[i]) == k && forall j :: i < j < |s| ==> key(s[j]) != k
    decreases |s|
  {
    var last := |s| - 1;
    if key(s[last]) == k {
      assert Select(s, key, k) == Select(s[..last], key, k) + [s[last]];
    } else {
      assert Select(s, key, k) == Select(s[..last], key, k);
      SelectLast(s[..last], key, k);
      var i :| 0 <= i < last && s[..last][i] == Select(s[..last], key, k)[|Select(s[..last], key, k)| - 1]
               && key(s[..last][i]) == k && forall j :: i < j < last ==> key(s[..last][j]) != k;
      assert s[i] == s[..last][i];
      assert forall j :: i < j < last ==> s[j] == s[..last][j];
    }
  }

  /** A key that no element has selects nothing. */
  lemma SelectEmpty<T, K>(s: seq<T>, key: T -> K, k: K)
    requires forall i :: 0 <= i < |s| ==> key(s[i]) != k
    ensures |Select(s, key, k)| == 0
    decreases |s|
  {
    if |s| > 0 {
      var n := |s| - 1;
      assert forall i :: 0 <= i < n ==> s[..n][i] == s[i];
      SelectEmpty(s[..n], key, k);
    }
  }

  /** A key that occurs in `s` selects a non-empty group. */
  lemma SelectNonEmpty<T, K>(s: seq<T>, key: T -> K, k: K)
    requires k in Keys(s, key)
    ensures |Select(s, key, k)| > 0
    decreases |s|
  {
    var last := |s| - 1;
    if key(s[last]) != k {
      var i :| 0 <= i < |s| && Keys(s, key)[i] == k;
      assert Keys(s[..last], key)[i] == k;
      SelectNonEmpty(s[..last], key, k);
    }
  }

  /** The group of key `k` holds every element of `s` with that key, as
      often as `s` does, and nothing else. */
  lemma {:induction false} SelectMultiset<T, K>(s: seq<T>, key: T -> K, k: K)
    ensures forall x :: multiset(Select(s, key, k))[x] == if key(x) == k then multiset(s)[x] else 0
    decreases |s|
  {
    if |s| > 0 {
      var n := |s| - 1;
      SelectMultiset(s[..n], key, k);
      assert s == s[..n] + [s[n]];
      assert multiset(s) == multiset(s[..n]) + multiset{s[n]};
    }
  }

  /** The sizes of the groups of `s` whose keys are listed in `order`,
      added up. */
  function GroupSizes<T, K(==)>(s: seq<T>, key: T -> K, order: seq<K>): nat
  {
    if |order| == 0 then 0 else GroupSizes(s, key, order[..|order| - 1]) + |Select(s, key, order[|order| - 1])|
  }

  /** One more element grows exactly the group of its key, if listed. */
  lemma {:induction false} GroupSizesSnoc<T, K>(s: seq<T>, x: T, key: T -> K, order: seq<K>)
    requires forall i, j :: 0 <= i < j < |order| ==> order[i] != order[j]
    ensures GroupSizes(s + [x], key, order) == GroupSizes(s, key, order) + (if key(x) in order then 1 else 0)
  {
    var t := s + [x];
    assert t[..|t| - 1] == s;
    if |order| > 0 {
      var init := order[..|order| - 1];
      var k := order[|order| - 1];
      GroupSizesSnoc(s, x, key, init);
      assert key(x) in order <==> key(x) in init || key(x) == k;
      if key(x) == k {
        assert k !in init;
      }
    }
  }

  /** Grouping by key partitions the sequence: the groups of the distinct
      keys add up to its length. */
  lemma {:induction false} GroupsPartition<T, K>(s: seq<T>, key: T -> K)
    ensures GroupSizes(s, key, Distinct(Keys(s, key))) == |s|
    decreases |s|
  {
    if |s| > 0 {
      var n := |s| - 1;
      assert s == s[..n] + [s[n]];
      GroupsPartition(s[..n], key);
      GroupsStep(s[..n], s[n], key);
    }
  }

  /** One more element adds one to the sizes of the groups of the distinct
      keys. */
  lemma {:induction false} GroupsStep<T, K>(init: seq<T>, x: T, key: T -> K)
    requires GroupSizes(init, key, Distinct(Keys(init, key))) == |init|
    ensures GroupSizes(init + [x], key, Distinct(Keys(init + [x], key))) == |init| + 1
  {
    var s := init + [x];
    var d := Distinct(Keys(init, key));
    var ds := Distinct(Keys(s, key));
    DistinctKeysSnoc(init, x, key);
    GroupSizesSnoc(init, x, key, d);
    if key(x) in d {
      assert ds == d;
      assert GroupSizes(s, key, d) == GroupSizes(init, key, d) + 1;
    } else {
      assert ds == d + [key(x)];
      assert GroupSizes(s, key, d) == GroupSizes(init, key, d);
      NewKeyGroup(init, x, key);
      GroupSizesAppend(s, key, d, key(x));
    }
  }

  /** Listing one more key adds the size of its group. */
  lemma GroupSizesAppend<T, K>(s: seq<T>, key: T -> K, order: seq<K>, k: K)
    ensures GroupSizes(s, key, order + [k]) == GroupSizes(s, key, order) + |Select(s, key, k)|
  {
    assert (order + [k])[..|order|] == order;
  }

  /** The distinct keys after one more element: the key is appended if new. */
  lemma DistinctKeysSnoc<T, K>(init: seq<T>, x: T, key: T -> K)
    ensures var d := Distinct(Keys(init, key));
            Distinct(Keys(init + [x], key)) == if key(x) in d then d else d + [key(x)]
  {
    var ks := Keys(init + [x], key);
    assert ks[..|init|] == Keys(init, key);
    assert ks[|init|] == key(x);
  }

  /** An element whose key is new starts a group of its own. */
  lemma NewKeyGroup<T, K>(init: seq<T>, x: T, key: T -> K)
    requires key(x) !in Distinct(Keys(init, key))
    ensures |Select(init + [x], key, key(x))| == 1
  {
    forall i | 0 <= i < |init| ensures key(init[i]) != key(x) {
      assert Keys(init, key)[i] in Distinct(Keys(init, key));
    }
    SelectEmpty(init, key, key(x));
    var s := init + [x];
    assert s[..|s| - 1] == init;
  }

  // ---------------------------------------------------------------------
  // Counting maps (`counts[k] = (counts[k] || 0) + 1`)
  // ---------------------------------------------------------------------

  /** `m[k] || 0`. */
  function Get<K>(m: map<K, nat>, k: K): nat
  {
    if k in m then m[k] else 0
  }

  /** `m[k] = (m[k] || 0) + 1`. */
  function Bump<K>(m: map<K, nat>, k: K): (r: map<K, nat>)
    ensures r.Keys == m.Keys + {k}
    ensures r[k] == Get(m, k) + 1
    ensures forall j :: j in m && j != k ==> r[j] == m[j]
  {
    m[k := Get(m, k) + 1]
  }

  /** Counting the last element of `s` into a map that counts the rest
      gives a map that counts all of `s`. */
  lemma CountLast<T, K>(m: map<K, nat>, m0: map<K, nat>, s: seq<T>, key: T -> K)
    requires |s| > 0
    requires forall k :: Get(m, k) == Get(m0, k) + |Select(s[..|s| - 1], key, k)|
    ensures forall k :: Get(Bump(m, key(s[|s| - 1])), k) == Get(m0, k) + |Select(s, key, k)|
  {
  }

  /** `CountLast` for one key and a map that starts empty. */
  lemma CountLastAt<T, K>(m: map<K, nat>, s: seq<T>, key: T -> K, k: K)
    requires |s| > 0
    requires Get(m, k) == |Select(s[..|s| - 1], key, k)|
    ensures Get(Bump(m, key(s[|s| - 1])), k) == |Select(s, key, k)|
  {
  }

  /** The total of a counting map, read in the key order `order`
      (`Object.values(m)` summed in insertion order). */
  function SumOver<K>(order: seq<K>, m: map<K, nat>): nat
  {
    if |order| == 0 then 0 else SumOver(order[..|order| - 1], m) + Get(m, order[|order| - 1])
  }

  lemma {:induction false} SumOverAgree<K>(order: seq<K>, m: map<K, nat>, m': map<K, nat>)
    requires forall i :: 0 <= i < |order| ==> Get(m, order[i]) == Get(m', order[i])
    ensures SumOver(order, m) == SumOver(order, m')
  {
    if |order| > 0 {
      SumOverAgree(order[..|order| - 1], m, m');
    }
  }

  /** Bumping a key already listed once in the order adds one to the total. */
  lemma {:induction false} SumOverBumpListed<K>(order: seq<K>, m: map<K, nat>, k: K)
    requires k in order
    requires forall i, j :: 0 <= i < j < |order| ==> order[i] != order[j]
    ensures SumOver(order, Bump(m, k)) == SumOver(order, m) + 1
  {
    var n := |order|;
    var init := order[..n - 1];
    if order[n - 1] == k {
      assert k !in init;
      SumOverAgree(init, m, Bump(m, k));
    } else {
      assert k in init;
      SumOverBumpListed(init, m, k);
    }
  }

  /** Bumping a fresh key appended to the order adds one to the total. */
  lemma SumOverBumpFresh<K>(order: seq<K>, m: map<K, nat>, k: K)
    requires k !in order
    ensures SumOver(order + [k], Bump(m, k)) == SumOver(order, m) + Get(m, k) + 1
  {
    assert (order + [k])[..|order|] == order;
    SumOverAgree(order, m, Bump(m, k));
  }
}
