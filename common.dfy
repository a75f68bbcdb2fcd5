/** Small shared vocabulary: an optional value, Python's `min` with a key,
    Python's flooring `%` on floats, and the little string toolkit the
    phraseology engine needs (ASCII lower-casing, `strip`, `in`). */
module Common {

  datatype Option<+T> = None | Some(value: T)

  function Abs(x: real): (r: real)
    ensures r >= 0.0 && (r == x || r == -x)
  {
    if x < 0.0 then -x else x
  }

  function Max(a: real, b: real): (r: real)
    ensures r >= a && r >= b && (r == a || r == b)
  {
    if a >= b then a else b
  }

  /** Python's `x % m` on floats for a positive modulus: the remainder takes
      the sign of the divisor, so it always lies in [0, m). */
  function FloorMod(x: real, m: real): (r: real)
    requires m > 0.0
    ensures 0.0 <= r < m
    ensures 0.0 <= x < m ==> r == x
  {
    var y := x / m;
    var q := y.Floor;
    FloorBracket(x, m, q as real, y);
    x - (q as real) * m
  }

  /** The arithmetic behind FloorMod: with q <= x/m < q + 1, x - q*m lies in [0, m). */
  lemma FloorBracket(x: real, m: real, qr: real, y: real)
    requires m > 0.0 && y * m == x && qr <= y < qr + 1.0
    ensures 0.0 <= x - qr * m
    ensures x - qr * m < m
    ensures qr >= 1.0 ==> x >= m
    ensures qr <= -1.0 ==> x < 0.0
  {
    var d := qr + 1.0 - y;
    assert d * m > 0.0;
    assert d * m == qr * m + m - y * m;
    var a := qr * m;
    var b := y * m;
    assert a + m - b > 0.0;
    assert b == x;
    assert a + m - x > 0.0;
    assert (y - qr) * m >= 0.0;
    if qr >= 1.0 {
      var e := qr - 1.0;
      assert e * m >= 0.0;
      assert e * m == a - m;
    }
    if qr <= -1.0 {
      var e := -(qr + 1.0);
      assert e * m >= 0.0;
      assert e * m == -a - m;
    }
  }

  /** Index of the element Python's `min(keys)` picks: the first one among
      the smallest (later equal keys never replace an earlier one). */
  function FirstArgMin(keys: seq<real>): (i: nat)
    requires |keys| > 0
    ensures i < |keys|
    ensures forall j :: 0 <= j < |keys| ==> keys[i] <= keys[j]
    ensures forall j :: 0 <= j < i ==> keys[i] < keys[j]
  {
    if |keys| == 1 then 0
    else
      var k := FirstArgMin(keys[..|keys| - 1]);
      assert forall j :: 0 <= j < |keys| - 1 ==> keys[..|keys| - 1][j] == keys[j];
      if keys[|keys| - 1] < keys[k] then |keys| - 1 else k
  }

  // ---------------------------------------------------------------------
  // Text

  /** Python `str.lower()`, restricted to the ASCII letters. */
  function LowerChar(c: char): (d: char)
    ensures 'A' <= c <= 'Z' ==> d as int == c as int + 32
    ensures !('A' <= c <= 'Z') ==> d == c
  {
    if 'A' <= c <= 'Z' then (c as int + 32) as char else c
  }

  function Lower(s: string): (r: string)
    ensures |r| == |s|
  {
    if s == [] then [] else [LowerChar(s[0])] + Lower(s[1..])
  }

  /** Lower-casing works character by character. */
  lemma {:induction false} LowerEachChar(s: string)
    ensures forall i :: 0 <= i < |s| ==> Lower(s)[i] == LowerChar(s[i])
  {
    if s != [] {
      LowerEachChar(s[1..]);
      assert forall i :: 1 <= i < |s| ==> Lower(s)[i] == Lower(s[1..])[i - 1];
    }
  }

  /** Two strings lower-case alike when their characters do, place by place. */
  lemma LowerAlike(a: string, b: string)
    requires |a| == |b|
    requires forall i :: 0 <= i < |a| ==> LowerChar(a[i]) == LowerChar(b[i])
    ensures Lower(a) == Lower(b)
  {
    LowerEachChar(a);
    LowerEachChar(b);
  }

  /** The characters Python's `str.isspace()` accepts (and so `strip()` removes). */
  predicate IsSpace(c: char)
  {
    c == ' ' || ('\t' <= c <= '\r') || ('\U{1C}' <= c <= '\U{1F}')
    || c == '\U{85}' || c == '\U{A0}' || c == '\U{1680}'
    || ('\U{2000}' <= c <= '\U{200A}') || c == '\U{2028}' || c == '\U{2029}'
    || c == '\U{202F}' || c == '\U{205F}' || c == '\U{3000}'
  }

  function StripLeft(s: string): (r: string)
    ensures |r| <= |s| && r == s[|s| - |r|..]
    ensures r == [] || !IsSpace(r[0])
    ensures forall i :: 0 <= i < |s| - |r| ==> IsSpace(s[i])
  {
    if s != [] && IsSpace(s[0]) then StripLeft(s[1..]) else s
  }

  function StripRight(s: string): (r: string)
    ensures |r| <= |s| && r == s[..|r|]
    ensures r == [] || !IsSpace(r[|r| - 1])
    ensures forall i :: |r| <= i < |s| ==> IsSpace(s[i])
  {
    if s != [] && IsSpace(s[|s| - 1]) then StripRight(s[..|s| - 1]) else s
  }

  /** Python `str.strip()`: drop leading and trailing whitespace. */
  function Strip(s: string): (r: string)
    ensures |r| <= |s|
    ensures r == [] || (!IsSpace(r[0]) && !IsSpace(r[|r| - 1]))
  {
    StripRight(StripLeft(s))
  }

  /** `strip()` leaves a string alone that has no white space at either end. */
  lemma StripUntouched(s: string)
    requires s == [] || (!IsSpace(s[0]) && !IsSpace(s[|s| - 1]))
    ensures Strip(s) == s
  {
  }

  /** `strip()` takes off white-space padding around a string whose own
      first and last characters are not white space. */
  lemma StripPadded(p: string, s: string, q: string)
    requires forall k :: 0 <= k < |p| ==> IsSpace(p[k])
    requires forall k :: 0 <= k < |q| ==> IsSpace(q[k])
    requires s != [] && !IsSpace(s[0]) && !IsSpace(s[|s| - 1])
    ensures Strip(p + s + q) == s
  {
    assert p + s + q == p + (s + q);
    StripLeftPadded(p, s + q);
    StripRightPadded(s, q);
  }

  lemma {:induction false} StripLeftPadded(p: string, t: string)
    requires forall k :: 0 <= k < |p| ==> IsSpace(p[k])
    requires t != [] && !IsSpace(t[0])
    ensures StripLeft(p + t) == t
  {
    if p == [] {
      assert p + t == t;
    } else {
      assert (p + t)[0] == p[0];
      assert (p + t)[1..] == p[1..] + t;
      StripLeftPadded(p[1..], t);
    }
  }

  lemma {:induction false} StripRightPadded(s: string, q: string)
    requires forall k :: 0 <= k < |q| ==> IsSpace(q[k])
    requires s != [] && !IsSpace(s[|s| - 1])
    ensures StripRight(s + q) == s
  {
    if q == [] {
      assert s + q == s;
    } else {
      var n := |s + q|;
      assert (s + q)[n - 1] == q[|q| - 1];
      assert (s + q)[..n - 1] == s + q[..|q| - 1];
      StripRightPadded(s, q[..|q| - 1]);
    }
  }

  /** `strip()` removes only white space, and only from the two ends. */
  lemma StripRemovesOnlyEnds(s: string)
    ensures exists i, j :: 0 <= i <= j <= |s| && Strip(s) == s[i..j]
              && (forall k :: 0 <= k < i ==> IsSpace(s[k]))
              && (forall k :: j <= k < |s| ==> IsSpace(s[k]))
  {
    var l := StripLeft(s);
    var r := StripRight(l);
    var i, j := |s| - |l|, |s| - |l| + |r|;
    assert Strip(s) == s[i..j] by {
      assert r == s[i..][..|r|];
    }
    assert forall k :: j <= k < |s| ==> IsSpace(s[k]) by {
      forall k | j <= k < |s|
        ensures IsSpace(s[k])
      {
        assert s[k] == l[k - i];
      }
    }
  }


  /** Python `needle in haystack` for strings: an offset where `needle` occurs. */
  predicate Contains(haystack: string, needle: string)
  {
    exists i | 0 <= i <= |haystack| - |needle| :: OccursAt(haystack, needle, i)
  }

  predicate OccursAt(haystack: string, needle: string, i: int)
    requires 0 <= i <= |haystack| - |needle|
  {
    haystack[i..i + |needle|] == needle
  }

  /** Python `sep.join(parts)`. */
  function Join(sep: string, parts: seq<string>): (r: string)
    ensures parts == [] ==> r == []
    ensures |parts| == 1 ==> r == parts[0]
    ensures |parts| >= 1 ==> |parts[0]| <= |r| && r[..|parts[0]|] == parts[0]
  {
    if parts == [] then []
    else if |parts| == 1 then parts[0]
    else parts[0] + sep + Join(sep, parts[1..])
  }

  // ---------------------------------------------------------------------
  // Python dicts and list comprehensions

  /** A Python dict: its entries, and its keys in first-insertion order
      (assigning to a key already present keeps the key's place). */
  datatype Dict<K(==,!new), V> = Dict(entries: map<K, V>, keys: seq<K>)

  /** The keys listed are exactly the keys present, each once. */
  predicate Ordered<K(==,!new), V>(d: Dict<K, V>)
  {
    (forall k :: k in d.entries ==> k in d.keys)
    && (forall k :: k in d.keys ==> k in d.entries)
    && forall i, j :: 0 <= i < j < |d.keys| ==> d.keys[i] != d.keys[j]
  }

  function EmptyDict<K(==,!new), V>(): (d: Dict<K, V>)
    ensures Ordered(d) && d.entries == map[]
  {
    Dict(map[], [])
  }

  /** `d[k] = v`: the value is replaced, and a new key goes last. */
  function Put<K(==,!new), V>(d: Dict<K, V>, k: K, v: V): (r: Dict<K, V>)
    ensures Ordered(d) ==> Ordered(r)
    ensures r.entries == d.entries[k := v]
    ensures k in d.entries ==> r.keys == d.keys
    ensures k !in d.entries ==> r.keys == d.keys + [k]
  {
    Dict(d.entries[k := v], if k in d.entries then d.keys else d.keys + [k])
  }

  /** `d.get(k)`. */
  function Get<K(==,!new), V>(d: Dict<K, V>, k: K): (r: Option<V>)
    ensures r.Some? <==> k in d.entries
    ensures r.Some? ==> r.value == d.entries[k]
  {
    if k in d.entries then Some(d.entries[k]) else None
  }

  /** `list(d.values())`: the values in key order. */
  function Values<K(==,!new), V>(d: Dict<K, V>): (vs: seq<V>)
    requires Ordered(d)
    ensures |vs| == |d.keys|
    ensures forall i :: 0 <= i < |d.keys| ==> vs[i] == d.entries[d.keys[i]]
  {
    seq(|d.keys|, i requires 0 <= i < |d.keys| => d.entries[d.keys[i]])
  }

  /** A dict display `{k0: v0, k1: v1, ...}`: the pairs put in order. */
  function FromPairs<K(==,!new), V>(ps: seq<(K, V)>): (d: Dict<K, V>)
    ensures Ordered(d)
  {
    if ps == [] then EmptyDict() else Put(FromPairs(ps[..|ps| - 1]), ps[|ps| - 1].0, ps[|ps| - 1].1)
  }

  /** With distinct keys, a dict display lists every key, in order. */
  lemma {:induction false} FromDistinctPairs<K(!new), V>(ps: seq<(K, V)>)
    requires forall i, j :: 0 <= i < j < |ps| ==> ps[i].0 != ps[j].0
    ensures |FromPairs(ps).keys| == |ps|
    ensures forall i :: 0 <= i < |ps| ==> FromPairs(ps).keys[i] == ps[i].0
  {
    if ps != [] {
      var init := ps[..|ps| - 1];
      FromDistinctPairs(init);
      var d := FromPairs(init);
      var last := ps[|ps| - 1];
      assert last.0 !in d.keys by {
        forall i | 0 <= i < |init| ensures d.keys[i] != last.0 {
          assert init[i] == ps[i];
        }
      }
      forall i | 0 <= i < |ps| - 1 ensures FromPairs(ps).keys[i] == ps[i].0 {
        assert init[i] == ps[i];
      }
    }
  }

  /** With distinct keys, a dict display keeps every pair's value. */
  lemma {:induction false} FromDistinctPairsValues<K(!new), V>(ps: seq<(K, V)>)
    requires forall i, j :: 0 <= i < j < |ps| ==> ps[i].0 != ps[j].0
    ensures forall i :: 0 <= i < |ps| ==> ps[i].0 in FromPairs(ps).entries && FromPairs(ps).entries[ps[i].0] == ps[i].1
  {
    if ps != [] {
      var init := ps[..|ps| - 1];
      FromDistinctPairsValues(init);
      forall i | 0 <= i < |ps| - 1
        ensures ps[i].0 in FromPairs(ps).entries && FromPairs(ps).entries[ps[i].0] == ps[i].1
      {
        assert init[i] == ps[i];
      }
    }
  }

  /** The values of a list of pairs. */
  function Seconds<K, V>(ps: seq<(K, V)>): (vs: seq<V>)
    ensures |vs| == |ps|
    ensures forall i :: 0 <= i < |ps| ==> vs[i] == ps[i].1
  {
    seq(|ps|, i requires 0 <= i < |ps| => ps[i].1)
  }

  lemma ValuesOfDistinctPairs<K(!new), V>(ps: seq<(K, V)>)
    requires forall i, j :: 0 <= i < j < |ps| ==> ps[i].0 != ps[j].0
    ensures Values(FromPairs(ps)) == Seconds(ps)
  {
    FromDistinctPairs(ps);
    FromDistinctPairsValues(ps);
  }

  lemma LookupOfDistinctPairs<K(!new), V>(ps: seq<(K, V)>, i: nat)
    requires forall i, j :: 0 <= i < j < |ps| ==> ps[i].0 != ps[j].0
    requires i < |ps|
    ensures ps[i].0 in FromPairs(ps).entries && FromPairs(ps).entries[ps[i].0] == ps[i].1
  {
    FromDistinctPairsValues(ps);
  }

  /** A key no pair carries is absent from the display. */
  lemma {:induction false} AbsentFromPairs<K(!new), V>(ps: seq<(K, V)>, k: K)
    requires forall i :: 0 <= i < |ps| ==> ps[i].0 != k
    ensures k !in FromPairs(ps).entries
  {
    if ps != [] {
      AbsentFromPairs(ps[..|ps| - 1], k);
    }
  }

  /** `for e in es: d[k] = v` for each element that `pick` maps to a pair
      (k, v); the other elements are skipped. */
  function PutEach<E, K(==,!new), V>(d: Dict<K, V>, es: seq<E>, pick: E -> Option<(K, V)>): (r: Dict<K, V>)
    ensures Ordered(d) ==> Ordered(r)
    ensures |d.keys| <= |r.keys| && r.keys[..|d.keys|] == d.keys
  {
    if es == [] then d
    else
      var r0 := PutEach(d, es[..|es| - 1], pick);
      match pick(es[|es| - 1])
      case None => r0
      case Some(p) => Put(r0, p.0, p.1)
  }

  /** One more element of the loop over es. */
  lemma PutEachStep<E, K(!new), V>(d: Dict<K, V>, es: seq<E>, pick: E -> Option<(K, V)>, i: nat)
    requires i < |es|
    ensures PutEach(d, es[..i + 1], pick) ==
      match pick(es[i])
      case None => PutEach(d, es[..i], pick)
      case Some(p) => Put(PutEach(d, es[..i], pick), p.0, p.1)
  {
    assert es[..i + 1][..i] == es[..i];
  }

  /** A key ends up present exactly when it was there before or some
      element carries it; a key no element carries keeps its value. */
  lemma {:induction false} PutEachKeys<E, K(!new), V>(d: Dict<K, V>, es: seq<E>, pick: E -> Option<(K, V)>, k: K)
    ensures k in PutEach(d, es, pick).entries <==>
      k in d.entries || exists i :: 0 <= i < |es| && pick(es[i]).Some? && pick(es[i]).value.0 == k
    ensures (forall i :: 0 <= i < |es| && pick(es[i]).Some? ==> pick(es[i]).value.0 != k) && k in d.entries ==>
      PutEach(d, es, pick).entries[k] == d.entries[k]
  {
    if es != [] {
      var init := es[..|es| - 1];
      PutEachKeys(d, init, pick, k);
      assert forall i :: 0 <= i < |init| ==> init[i] == es[i];
      if k in PutEach(d, es, pick).entries && k !in d.entries && pick(es[|es| - 1]).Some? && pick(es[|es| - 1]).value.0 == k {
        assert exists i :: 0 <= i < |es| && pick(es[i]).Some? && pick(es[i]).value.0 == k;
      }
    }
  }

  /** The last element carrying a key decides its value. */
  lemma {:induction false} PutEachLastWins<E, K(!new), V>(d: Dict<K, V>, es: seq<E>, pick: E -> Option<(K, V)>, i: nat)
    requires i < |es| && pick(es[i]).Some?
    requires forall j :: i < j < |es| && pick(es[j]).Some? ==> pick(es[j]).value.0 != pick(es[i]).value.0
    ensures pick(es[i]).value.0 in PutEach(d, es, pick).entries
    ensures PutEach(d, es, pick).entries[pick(es[i]).value.0] == pick(es[i]).value.1
  {
    var init := es[..|es| - 1];
    if i < |es| - 1 {
      assert init[i] == es[i];
      forall j | i < j < |init| && pick(init[j]).Some?
        ensures pick(init[j]).value.0 != pick(init[i]).value.0
      {
        assert init[j] == es[j];
      }
      PutEachLastWins(d, init, pick, i);
    }
  }

  /** `[x for x in xs if keep(x)]`. */
  function Filter<T>(xs: seq<T>, keep: T -> bool): (r: seq<T>)
    ensures |r| <= |xs|
  {
    if xs == [] then []
    else Filter(xs[..|xs| - 1], keep) + (if keep(xs[|xs| - 1]) then [xs[|xs| - 1]] else [])
  }

  /** The filter holds exactly the elements kept. */
  lemma {:induction false} FilterMembers<T(!new)>(xs: seq<T>, keep: T -> bool)
    ensures forall x :: x in Filter(xs, keep) <==> x in xs && keep(x)
  {
    if xs != [] {
      var init := xs[..|xs| - 1];
      FilterMembers(init, keep);
      assert xs == init + [xs[|xs| - 1]];
    }
  }

  /** Filtering keeps the order: it works piece by piece. */
  lemma {:induction false} FilterAppend<T>(a: seq<T>, b: seq<T>, keep: T -> bool)
    ensures Filter(a + b, keep) == Filter(a, keep) + Filter(b, keep)
    decreases |b|
  {
    if b != [] {
      var b0 := b[..|b| - 1];
      assert (a + b)[..|a + b| - 1] == a + b0;
      FilterAppend(a, b0, keep);
    } else {
      assert a + b == a;
    }
  }
}
