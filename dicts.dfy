/**
 * Python dictionaries built from a sequence of key/value pairs, as a dict
 * comprehension `{k: v for k, v in pairs}` builds them: pairs are inserted in
 * order, so when a key repeats the last pair's value is the one kept, and no
 * error is raised.
 */
module PyDicts {

  /** The keys that occur in a sequence of pairs. */
  function KeysOf<K, V>(ps: seq<(K, V)>): set<K> {
    set i | 0 <= i < |ps| :: ps[i].0
  }

  /** `{k: v for k, v in ps}` */
  function FromPairs<K, V>(ps: seq<(K, V)>): (d: map<K, V>)
    ensures d.Keys == KeysOf(ps)
  {
    if |ps| == 0 then map[]
    else
      var d' := FromPairs(ps[..|ps| - 1]);
      assert KeysOf(ps) == KeysOf(ps[..|ps| - 1]) + {ps[|ps| - 1].0} by {
        forall k | k in KeysOf(ps) ensures k in KeysOf(ps[..|ps| - 1]) + {ps[|ps| - 1].0} {
          var i :| 0 <= i < |ps| && ps[i].0 == k;
          if i < |ps| - 1 { assert ps[..|ps| - 1][i] == ps[i]; }
        }
      }
      d'[ps[|ps| - 1].0 := ps[|ps| - 1].1]
  }

  /** Pair `i` is the last one in `ps` with its key. */
  predicate IsLastFor<K(==), V>(ps: seq<(K, V)>, i: nat) {
    i < |ps| && forall j :: i < j < |ps| ==> ps[j].0 != ps[i].0
  }

  /** Every key of the dict holds the value of the last pair carrying that key. */
  lemma {:induction false} FromPairsLastWins<K, V>(ps: seq<(K, V)>, i: nat)
    requires IsLastFor(ps, i)
    ensures ps[i].0 in FromPairs(ps) && FromPairs(ps)[ps[i].0] == ps[i].1
  {
    var n := |ps| - 1;
    if i < n {
      assert IsLastFor(ps[..n], i) by {
        forall j | i < j < n ensures ps[..n][j].0 != ps[..n][i].0 {
          assert ps[..n][j] == ps[j];
        }
      }
      FromPairsLastWins(ps[..n], i);
      assert ps[..n][i] == ps[i];
    }
  }

  /** A single pair gives a one-entry dict. */
  lemma FromOnePair<K, V>(k: K, v: V)
    ensures FromPairs([(k, v)]) == map[k := v]
  {
    assert [(k, v)][..0] == [];
  }

  // ---------------------------------------------------------------------
  // Insertion-ordered dicts, for the places where iteration order matters.

  /**
   * A Python dict whose iteration order matters: `order` lists the keys in
   * insertion order and `entries` holds the values.
   */
  datatype ODict<K(==), V> = ODict(order: seq<K>, entries: map<K, V>)

  /** The set of elements of a sequence. */
  function ElementsOf<K>(s: seq<K>): (r: set<K>)
    ensures forall i :: 0 <= i < |s| ==> s[i] in r
  {
    if |s| == 0 then {} else ElementsOf(s[..|s| - 1]) + {s[|s| - 1]}
  }

  /** `ElementsOf(s)` holds exactly the elements of `s`. */
  lemma {:induction false} ElementsOfOccur<K>(s: seq<K>, k: K)
    ensures k in ElementsOf(s) <==> k in s
  {
    if |s| > 0 {
      ElementsOfOccur(s[..|s| - 1], k);
      assert s == s[..|s| - 1] + [s[|s| - 1]];
    }
  }

  lemma ElementsOfAppend<K>(s: seq<K>, k: K)
    ensures ElementsOf(s + [k]) == ElementsOf(s) + {k}
  {
    assert (s + [k])[..|s|] == s;
  }

  predicate Distinct<K(==)>(s: seq<K>) {
    forall i, j :: 0 <= i < j < |s| ==> s[i] != s[j]
  }

  /** The keys listed in `order` are distinct and are exactly the keys of `entries`. */
  predicate Valid<K(==), V>(d: ODict<K, V>) {
    Distinct(d.order) && ElementsOf(d.order) == d.entries.Keys
  }

  function Empty<K(==), V>(): (d: ODict<K, V>)
    ensures Valid(d) && d.entries == map[]
  {
    ODict([], map[])
  }

  /**
   * `d[k] = v`: a new key goes to the end of the iteration order, an existing
   * key keeps its place and takes the new value.
   */
  function Put<K(==), V>(d: ODict<K, V>, k: K, v: V): (r: ODict<K, V>)
    ensures r.entries == d.entries[k := v]
  {
    if k in d.entries then ODict(d.order, d.entries[k := v])
    else ODict(d.order + [k], d.entries[k := v])
  }

  /** `d[k] = v` keeps a dict well formed. */
  lemma PutValid<K, V>(d: ODict<K, V>, k: K, v: V)
    requires Valid(d)
    ensures Valid(Put(d, k, v))
  {
    if k !in d.entries {
      ElementsOfAppend(d.order, k);
    }
  }
}
