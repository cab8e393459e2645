/**
 * The counting dictionaries of the two test components: `trueFreq` in
 * `RealWorldTest.jsx` (label -> occurrences) and `errorHist` (error -> how
 * often it occurred). A JavaScript object used this way is an ordered
 * dictionary: `Object.keys` lists its keys in the order they were first
 * inserted, and `d[x] = (d[x] || 0) + 1` bumps one counter.
 */
module Tally {

  /** Number of occurrences of `x` in `s`. */
  function Count<T(==)>(s: seq<T>, x: T): nat
  {
    if s == [] then 0 else Count(s[..|s| - 1], x) + (if s[|s| - 1] == x then 1 else 0)
  }

  lemma {:induction false} CountAppend<T>(s: seq<T>, t: seq<T>, x: T)
    ensures Count(s + t, x) == Count(s, x) + Count(t, x)
  {
    if t == [] {
      assert s + t == s;
    } else {
      assert (s + t)[..|s + t| - 1] == s + t[..|t| - 1];
      CountAppend(s, t[..|t| - 1], x);
    }
  }

  lemma {:induction false} CountZeroIffAbsent<T>(s: seq<T>, x: T)
    ensures Count(s, x) == 0 <==> x !in s
  {
    if s != [] {
      CountZeroIffAbsent(s[..|s| - 1], x);
      assert s == s[..|s| - 1] + [s[|s| - 1]];
    }
  }

  /** A non-empty sequence is its prefix followed by its last element. */
  lemma SplitLast<T>(s: seq<T>)
    requires s != []
    ensures s == s[..|s| - 1] + [s[|s| - 1]]
  {
  }

  /** An object used as a counter: keys in insertion order, and their counts. */
  datatype Dict<K> = Dict(keys: seq<K>, freq: map<K, nat>)

  /** Keys are listed once each, and exactly the keys of the map are listed. */
  ghost predicate WellFormed<K>(d: Dict<K>)
  {
    (forall i, j :: 0 <= i < j < |d.keys| ==> d.keys[i] != d.keys[j])
    && d.freq.Keys == (set k | k in d.keys)
  }

  /**
   * `d[x] = (d[x] || 0) + 1`: `x` is mapped to one more than its old count
   * (0 when absent), and every other key keeps its count.
   */
  function Add<K(==)>(d: Dict<K>, x: K): (r: Dict<K>)
    ensures x in r.freq && r.freq[x] == (if x in d.freq then d.freq[x] else 0) + 1
    ensures forall k :: k in r.freq && k != x ==> k in d.freq
    ensures forall k :: k in d.freq && k != x ==> k in r.freq && r.freq[k] == d.freq[k]
  {
    if x in d.freq then Dict(d.keys, d.freq[x := d.freq[x] + 1])
    else Dict(d.keys + [x], d.freq[x := 1])
  }

  /** The dictionary after counting every element of `s`, in order, from `{}`. */
  function Of<K(==)>(s: seq<K>): Dict<K>
  {
    if s == [] then Dict([], map[]) else Add(Of(s[..|s| - 1]), s[|s| - 1])
  }

  lemma OfSnoc<K>(s: seq<K>, x: K)
    ensures Of(s + [x]) == Add(Of(s), x)
  {
    assert (s + [x])[..|s|] == s;
  }

  /** Sum of the counts of `keys`, i.e. `Object.values(d).reduce(+)`. */
  function SumOver<K(==)>(keys: seq<K>, m: map<K, nat>): int
    requires forall k :: k in keys ==> k in m
  {
    if keys == [] then 0 else SumOver(keys[..|keys| - 1], m) + m[keys[|keys| - 1]]
  }

  function Sum<K(==)>(d: Dict<K>): int
    requires WellFormed(d)
  {
    SumOver(d.keys, d.freq)
  }

  lemma {:induction false} SumOverAgree<K>(keys: seq<K>, m: map<K, nat>, m': map<K, nat>)
    requires forall k :: k in keys ==> k in m && k in m' && m[k] == m'[k]
    ensures SumOver(keys, m) == SumOver(keys, m')
  {
    if keys != [] {
      SumOverAgree(keys[..|keys| - 1], m, m');
    }
  }

  lemma {:induction false} SumOverBump<K>(keys: seq<K>, m: map<K, nat>, x: K)
    requires forall k :: k in keys ==> k in m
    requires forall i, j :: 0 <= i < j < |keys| ==> keys[i] != keys[j]
    requires x in keys
    ensures SumOver(keys, m[x := m[x] + 1]) == SumOver(keys, m) + 1
  {
    var init, last := keys[..|keys| - 1], keys[|keys| - 1];
    if last == x {
      assert x !in init;
      SumOverAgree(init, m, m[x := m[x] + 1]);
    } else {
      assert x in init by {
        var i :| 0 <= i < |keys| && keys[i] == x;
        assert i < |keys| - 1;
        assert init[i] == x;
      }
      SumOverBump(init, m, x);
    }
  }

  /** Counting one more element keeps the dictionary well formed and bumps one count. */
  lemma AddFacts<K>(d: Dict<K>, x: K)
    requires WellFormed(d)
    ensures WellFormed(Add(d, x))
    ensures x in Add(d, x).freq
    ensures forall k :: k in Add(d, x).freq ==>
      Add(d, x).freq[k] == (if k in d.freq then d.freq[k] else 0) + (if k == x then 1 else 0)
    ensures Add(d, x).keys == if x in d.freq then d.keys else d.keys + [x]
    ensures Sum(Add(d, x)) == Sum(d) + 1
  {
    AddWellFormed(d, x);
    AddSum(d, x);
  }

  lemma AddSum<K>(d: Dict<K>, x: K)
    requires WellFormed(d)
    ensures forall k :: k in Add(d, x).keys ==> k in Add(d, x).freq
    ensures SumOver(Add(d, x).keys, Add(d, x).freq) == SumOver(d.keys, d.freq) + 1
  {
    KeysAreDomain(d);
    if x in d.freq {
      assert Add(d, x) == Dict(d.keys, d.freq[x := d.freq[x] + 1]);
      SumOverBump(d.keys, d.freq, x);
    } else {
      assert Add(d, x) == Dict(d.keys + [x], d.freq[x := 1]);
      SumOverNew(d.keys, d.freq, x);
    }
  }

  lemma SumOverNew<K>(keys: seq<K>, m: map<K, nat>, x: K)
    requires forall k :: k in keys ==> k in m
    requires x !in keys
    ensures SumOver(keys + [x], m[x := 1]) == SumOver(keys, m) + 1
  {
    var keys' := keys + [x];
    assert keys'[..|keys'| - 1] == keys;
    SumOverAgree(keys, m, m[x := 1]);
  }

  lemma KeysAreDomain<K>(d: Dict<K>)
    requires WellFormed(d)
    ensures forall k :: k in d.keys <==> k in d.freq
  {
    forall k ensures k in d.keys <==> k in d.freq {
      assert k in d.freq <==> k in (set k | k in d.keys);
    }
  }

  lemma AddWellFormed<K>(d: Dict<K>, x: K)
    requires WellFormed(d)
    ensures WellFormed(Add(d, x))
  {
    if x !in d.freq {
      var keys := d.keys + [x];
      assert x !in d.keys;
      forall i, j | 0 <= i < j < |keys| ensures keys[i] != keys[j] {
        if j == |keys| - 1 {
          assert keys[i] == d.keys[i];
        } else {
          assert keys[i] == d.keys[i] && keys[j] == d.keys[j];
        }
      }
      assert (set k | k in keys) == (set k | k in d.keys) + {x};
    }
  }

  /**
   * Counting a sequence gives one key per distinct element, each mapped to its
   * number of occurrences, and the counts add up to the length of the sequence.
   */
  lemma {:induction false} OfFacts<K>(s: seq<K>)
    ensures WellFormed(Of(s))
    ensures forall x :: x in Of(s).freq <==> x in s
    ensures forall x :: x in Of(s).freq ==> Of(s).freq[x] == Count(s, x)
    ensures Sum(Of(s)) == |s|
  {
    if s != [] {
      var init, last := s[..|s| - 1], s[|s| - 1];
      SplitLast(s);
      OfFacts(init);
      var d := Of(init);
      AddFacts(d, last);
      assert Of(s) == Add(d, last);
      forall x ensures x in Of(s).freq <==> x in s {
        assert x in s <==> x in init || x == last;
      }
      forall x | x in Of(s).freq ensures Of(s).freq[x] == Count(s, x) {
        CountZeroIffAbsent(init, x);
        assert Count(s, x) == Count(init, x) + (if x == last then 1 else 0);
      }
    }
  }

  /**
   * `Object.entries(d)`: the pairs `(key, count)` in key order. Each pair of
   * the dictionary is listed, nothing else is, and no key is listed twice.
   */
  function Entries<K>(d: Dict<K>): (es: seq<(K, nat)>)
    requires WellFormed(d)
    ensures |es| == |d.keys|
    ensures forall i :: 0 <= i < |es| ==> es[i] == (d.keys[i], d.freq[d.keys[i]])
    ensures forall p :: p in es ==> p.0 in d.freq && p.1 == d.freq[p.0]
    ensures forall k :: k in d.freq ==> (k, d.freq[k]) in es
    ensures forall i, j :: 0 <= i < j < |es| ==> es[i].0 != es[j].0
  {
    KeysAreDomain(d);
    var es := seq(|d.keys|, i requires 0 <= i < |d.keys| => (d.keys[i], d.freq[d.keys[i]]));
    EntriesMembers(d, es);
    es
  }

  lemma EntriesMembers<K>(d: Dict<K>, es: seq<(K, nat)>)
    requires WellFormed(d)
    requires forall k :: k in d.keys <==> k in d.freq
    requires |es| == |d.keys|
    requires forall i :: 0 <= i < |es| ==> es[i] == (d.keys[i], d.freq[d.keys[i]])
    ensures forall k :: k in d.freq ==> (k, d.freq[k]) in es
  {
    forall k | k in d.freq ensures (k, d.freq[k]) in es {
      var i :| 0 <= i < |d.keys| && d.keys[i] == k;
      assert es[i] == (k, d.freq[k]);
    }
  }
}
