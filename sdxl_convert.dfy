/**
 * `_convert_sdxl_keys_to_diffusers_format`: the layer keys of an SDXL LoRA
 * written in the Stability AI naming are renamed to the diffusers naming.
 * Each UNet key (`lora_unet_...`) is looked up by binary search in the sorted
 * keys of the exported conversion table; the text-encoder keys
 * (`lora_te1_...`, `lora_te2_...`) are kept; any other key is refused, and so
 * is a dict in which some UNet keys were renamed and others not.
 */
module SdxlConvert {
  import opened Wrappers
  import opened PyStrings
  import opened PyDicts
  import opened LoRAState
  import opened SdxlUnetMap

  // ---------------------------------------------------------------------
  // Sorting the table's keys

  /** Strictly increasing, as a sorted list of distinct strings is. */
  predicate Sorted(a: seq<string>) {
    forall i, j :: 0 <= i < j < |a| ==> Less(a[i], a[j])
  }

  /** `a` holds exactly the strings of `keys`. */
  predicate Lists(a: seq<string>, keys: set<string>) {
    (forall i :: 0 <= i < |a| ==> a[i] in keys) && (forall k :: k in keys ==> k in a)
  }

  /**
   * `sorted(list(keys))`, written as insertion of one key at a time before
   * the first key that does not sort below it.
   */
  method SortKeys(keys: set<string>) returns (sorted: seq<string>)
    ensures Sorted(sorted) && Lists(sorted, keys)
  {
    sorted := [];
    var rest := keys;
    while rest != {}
      invariant rest <= keys
      invariant Sorted(sorted)
      invariant forall k :: k in sorted ==> k in keys && k !in rest
      invariant forall k :: k in keys ==> k in sorted || k in rest
      decreases rest
    {
      var x :| x in rest;
      sorted := Insert(sorted, x);
      rest := rest - {x};
    }
  }

  /** Inserts a new key into a sorted sequence, after the keys that sort before it. */
  method Insert(sorted: seq<string>, x: string) returns (r: seq<string>)
    requires Sorted(sorted) && x !in sorted
    ensures Sorted(r)
    ensures forall k :: k in r <==> k in sorted || k == x
  {
    var p := 0;
    while p < |sorted| && Less(sorted[p], x)
      invariant p <= |sorted|
      invariant forall i :: 0 <= i < p ==> Less(sorted[i], x)
    {
      p := p + 1;
    }
    forall i | p <= i < |sorted| ensures Less(x, sorted[i]) {
      LessTotal(sorted[p], x);
      if i > p { LessTransitive(x, sorted[p], sorted[i]); }
    }
    r := sorted[..p] + [x] + sorted[p..];
    InsertKeepsOrder(sorted, x, p);
    InsertMembers(sorted, x, p);
  }

  /** Putting `x` between the keys below it and the keys above it keeps the sequence sorted. */
  lemma InsertKeepsOrder(sorted: seq<string>, x: string, p: nat)
    requires Sorted(sorted) && p <= |sorted|
    requires forall i :: 0 <= i < p ==> Less(sorted[i], x)
    requires forall i :: p <= i < |sorted| ==> Less(x, sorted[i])
    ensures Sorted(sorted[..p] + [x] + sorted[p..])
  {
    var r := sorted[..p] + [x] + sorted[p..];
    forall i, j | 0 <= i < j < |r| ensures Less(r[i], r[j]) {
      var a := if i < p then i else i - 1;
      var b := if j <= p then j else j - 1;
      if i < p && p < j {
        LessTransitive(r[i], x, r[j]);
      } else if i < p && j == p {
      } else if i == p {
      } else {
        assert r[i] == sorted[a] && r[j] == sorted[b];
      }
    }
  }

  /** Inserting adds `x` and keeps every other key. */
  lemma InsertMembers(sorted: seq<string>, x: string, p: nat)
    requires p <= |sorted|
    ensures forall k :: k in sorted[..p] + [x] + sorted[p..] <==> k in sorted || k == x
  {
    assert sorted == sorted[..p] + sorted[p..];
  }

  /**
   * `bisect.bisect_right(a, x)`: the position after every element that sorts
   * no later than `x`, found by halving the range.
   */
  method BisectRight(a: seq<string>, x: string) returns (lo: nat)
    requires Sorted(a)
    ensures lo <= |a|
    ensures forall i :: 0 <= i < lo ==> LessEq(a[i], x)
    ensures forall i :: lo <= i < |a| ==> Less(x, a[i])
  {
    lo := 0;
    var hi := |a|;
    while lo < hi
      invariant lo <= hi <= |a|
      invariant forall i :: 0 <= i < lo ==> LessEq(a[i], x)
      invariant forall i :: hi <= i < |a| ==> Less(x, a[i])
    {
      var mid := (lo + hi) / 2;
      if Less(x, a[mid]) {
        forall i | mid < i < hi ensures Less(x, a[i]) {
          LessTransitive(x, a[mid], a[i]);
        }
        hi := mid;
      } else {
        LessTotal(x, a[mid]);
        forall i | lo <= i < mid ensures LessEq(a[i], x) {
          LessEqTransitive(a[i], a[mid], x);
        }
        lo := mid + 1;
      }
    }
  }

  // ---------------------------------------------------------------------
  // Which table key the lookup lands on

  /** The greatest string of a non-empty set. */
  ghost function Greatest(keys: set<string>): string
    requires keys != {}
  {
    var x :| x in keys;
    if keys == {x} then x
    else
      var g := Greatest(keys - {x});
      if Less(g, x) then x else g
  }

  lemma {:induction false} GreatestIsMax(keys: set<string>)
    requires keys != {}
    ensures Greatest(keys) in keys
    ensures forall k :: k in keys ==> LessEq(k, Greatest(keys))
    decreases keys
  {
    forall smaller | smaller < keys && smaller != {}
      ensures Greatest(smaller) in smaller
      ensures forall k :: k in smaller ==> LessEq(k, Greatest(smaller))
    {
      GreatestIsMax(smaller);
    }
    forall a, b, c | a in keys && b in keys && c in keys && LessEq(a, b) && LessEq(b, c) ensures LessEq(a, c) {
      LessEqTransitive(a, b, c);
    }
    forall a, b | a in keys && b in keys && !Less(a, b) ensures LessEq(b, a) {
      LessTotal(a, b);
    }
  }

  /** A string of the set that no string of the set sorts after is its greatest. */
  lemma MaxIsGreatest(keys: set<string>, m: string)
    requires m in keys && forall k :: k in keys ==> LessEq(k, m)
    ensures m == Greatest(keys)
  {
    GreatestIsMax(keys);
    if m != Greatest(keys) {
      LessAsymmetric(m, Greatest(keys));
    }
  }

  /**
   * `stability_unet_keys[bisect_right(stability_unet_keys, s) - 1]`: the
   * greatest key sorting no later than `s`; when every key sorts after `s`
   * the index is -1, which Python reads as the last, greatest, key.
   */
  ghost function Candidate(keys: set<string>, s: string): string
    requires keys != {}
  {
    var below := set k | k in keys && LessEq(k, s);
    if below != {} then Greatest(below) else Greatest(keys)
  }

  /**
   * The candidate is a key; if it sorts no later than `s` no key between it
   * and `s` exists, and otherwise every key sorts after `s` and the
   * candidate is the greatest of them.
   */
  lemma CandidateShape(keys: set<string>, s: string)
    requires keys != {}
    ensures Candidate(keys, s) in keys
    ensures LessEq(Candidate(keys, s), s) ==>
      forall k :: k in keys && LessEq(k, s) ==> LessEq(k, Candidate(keys, s))
    ensures !LessEq(Candidate(keys, s), s) ==>
      forall k :: k in keys ==> Less(s, k) && LessEq(k, Candidate(keys, s))
  {
    var below := set k | k in keys && LessEq(k, s);
    GreatestIsMax(keys);
    if below != {} {
      GreatestIsMax(below);
    } else {
      forall k | k in keys ensures Less(s, k) {
        assert k !in below;
        LessTotal(k, s);
      }
    }
  }

  /** The position `bisect_right` returns, less one and wrapping at zero, picks the candidate. */
  lemma BisectPicksCandidate(a: seq<string>, keys: set<string>, s: string, p: nat)
    requires Sorted(a) && Lists(a, keys) && keys != {}
    requires p <= |a|
    requires forall i :: 0 <= i < p ==> LessEq(a[i], s)
    requires forall i :: p <= i < |a| ==> Less(s, a[i])
    ensures |a| > 0
    ensures (if p == 0 then a[|a| - 1] else a[p - 1]) == Candidate(keys, s)
  {
    var some :| some in keys;
    assert some in a;
    var below := set k | k in keys && LessEq(k, s);
    if p == 0 {
      forall k | k in keys ensures k !in below && LessEq(k, a[|a| - 1]) {
        var i :| 0 <= i < |a| && a[i] == k;
        LessAsymmetric(s, k);
      }
      assert below == {};
      MaxIsGreatest(keys, a[|a| - 1]);
    } else {
      forall k | k in below ensures LessEq(k, a[p - 1]) {
        var i :| 0 <= i < |a| && a[i] == k;
        if i >= p { LessAsymmetric(s, k); }
      }
      assert a[p - 1] in below;
      MaxIsGreatest(below, a[p - 1]);
    }
  }

  /** When every key sorts after `s`, the wrapped-around candidate is never a prefix of `s`. */
  lemma WrapNeverMatches(keys: set<string>, s: string)
    requires keys != {}
    requires forall k :: k in keys ==> Less(s, k)
    ensures !StartsWith(s, Candidate(keys, s))
  {
    CandidateShape(keys, s);
    var c := Candidate(keys, s);
    if StartsWith(s, c) {
      PrefixLessEq(c, s);
      LessAsymmetric(s, c);
    }
  }

  /** No key of the table is a prefix of another. */
  predicate PrefixFree(keys: set<string>) {
    forall a, b :: a in keys && b in keys && a != b ==> !StartsWith(b, a)
  }

  /**
   * The point of sorting and bisecting: in a prefix-free table, a key that
   * is a prefix of `s` is the candidate the lookup lands on.
   */
  lemma PrefixFreeFindsPrefix(keys: set<string>, s: string, k: string)
    requires PrefixFree(keys)
    requires k in keys && StartsWith(s, k)
    ensures Candidate(keys, s) == k
  {
    PrefixLessEq(k, s);
    CandidateShape(keys, s);
    var c := Candidate(keys, s);
    if !LessEq(c, s) {
      LessAsymmetric(s, k);
    }
    BetweenPrefixSharesPrefix(k, c, s);
  }

  // ---------------------------------------------------------------------
  // The renaming, one key at a time

  predicate IsUnetKey(key: string) {
    StartsWith(key, "lora_unet_")
  }

  predicate IsTextEncoderKey(key: string) {
    StartsWith(key, "lora_te1_") || StartsWith(key, "lora_te2_")
  }

  predicate Recognized(key: string) {
    IsUnetKey(key) || IsTextEncoderKey(key)
  }

  /** The position of the first key with an unrecognized prefix, or `|keys|`. */
  function FirstUnrecognized(keys: seq<string>): (r: nat)
    ensures r <= |keys|
    ensures forall j :: 0 <= j < r ==> Recognized(keys[j])
    ensures r < |keys| ==> !Recognized(keys[r])
  {
    if |keys| == 0 then 0
    else if !Recognized(keys[0]) then 0
    else 1 + FirstUnrecognized(keys[1..])
  }

  /**
   * The diffusers name of a UNet key, or `None` when the candidate key of
   * the table is not a prefix of the key's search string.
   */
  ghost function Renaming(table: map<string, string>, key: string): Option<string>
    requires table != map[]
  {
    var search := ReplaceAll(key, "lora_unet_", "");
    assert table.Keys != {} by { var k :| k in table; }
    CandidateShape(table.Keys, search);
    var mapKey := Candidate(table.Keys, search);
    if StartsWith(search, mapKey) then Some(ReplaceAll(key, mapKey, table[mapKey])) else None
  }

  /** The name a key is stored under in the new dict. */
  ghost function NewKey(table: map<string, string>, key: string): string
    requires table != map[]
  {
    if IsUnetKey(key) && Renaming(table, key).Some? then Renaming(table, key).value else key
  }

  /** The new dict with the two counters. */
  datatype Conversion<V> = Conversion(dict: ODict<string, V>, converted: nat, notConverted: nat)

  /** The state after the first `n` keys of `sd`. */
  ghost function ConvertAll<V>(sd: ODict<string, V>, table: map<string, string>, n: nat): Conversion<V>
    requires Valid(sd) && table != map[] && n <= |sd.order|
  {
    if n == 0 then Conversion(Empty(), 0, 0)
    else
      var key := sd.order[n - 1];
      ConvertStep(ConvertAll(sd, table, n - 1), table, key, sd.entries[key])
  }

  /** The state after one more key is one step from the state before it. */
  lemma ConvertAllNext<V>(sd: ODict<string, V>, table: map<string, string>, n: nat)
    requires Valid(sd) && table != map[] && n < |sd.order|
    ensures ConvertAll(sd, table, n + 1) == ConvertStep(ConvertAll(sd, table, n), table, sd.order[n], sd.entries[sd.order[n]])
  {
  }

  /** One key of the loop: the value is stored under its new name and the matching counter advances. */
  ghost function ConvertStep<V>(prev: Conversion<V>, table: map<string, string>, key: string, value: V): Conversion<V>
    requires table != map[]
  {
    var dict := Put(prev.dict, NewKey(table, key), value);
    if !IsUnetKey(key) then Conversion(dict, prev.converted, prev.notConverted)
    else if Renaming(table, key).Some? then Conversion(dict, prev.converted + 1, prev.notConverted)
    else Conversion(dict, prev.converted, prev.notConverted + 1)
  }

  /**
   * What the conversion returns: the first key with an unrecognized prefix
   * raises; a mix of renamed and not renamed UNet keys raises with both
   * counts; otherwise the new dict.
   */
  ghost function ConvertSpec<V>(sd: ODict<string, V>, table: map<string, string>): Result<ODict<string, V>, LoRAError>
    requires Valid(sd) && table != map[]
  {
    var i := FirstUnrecognized(sd.order);
    if i < |sd.order| then Err(UnrecognizedPrefix(sd.order[i]))
    else
      var c := ConvertAll(sd, table, |sd.order|);
      if c.converted > 0 && c.notConverted > 0 then Err(PartialConversion(c.converted, c.notConverted))
      else Ok(c.dict)
  }

  // ---------------------------------------------------------------------
  // The conversion

  /**
   * The new name of a UNet key: the sorted table key just before where the
   * key without its `lora_unet_` prefix would be inserted (the last one when
   * that is the front), renamed when that key is a prefix of it.
   */
  method RenameUnetKey(stabilityUnetKeys: seq<string>, table: map<string, string>, fullKey: string) returns (renamed: Option<string>)
    requires table != map[] && Sorted(stabilityUnetKeys) && Lists(stabilityUnetKeys, table.Keys)
    ensures renamed == Renaming(table, fullKey)
  {
    assert table.Keys != {} by { var k :| k in table; }
    var searchKey := ReplaceAll(fullKey, "lora_unet_", "");
    var position := BisectRight(stabilityUnetKeys, searchKey);
    BisectPicksCandidate(stabilityUnetKeys, table.Keys, searchKey, position);
    var mapKey := if position == 0 then stabilityUnetKeys[|stabilityUnetKeys| - 1] else stabilityUnetKeys[position - 1];
    if StartsWith(searchKey, mapKey) {
      renamed := Some(ReplaceAll(fullKey, mapKey, table[mapKey]));
    } else {
      renamed := None;
    }
  }

  /** The body of the loop for a key with a recognized prefix. */
  method ConvertOne<V>(stabilityUnetKeys: seq<string>, table: map<string, string>, prev: Conversion<V>, fullKey: string, value: V)
    returns (next: Conversion<V>)
    requires table != map[] && Sorted(stabilityUnetKeys) && Lists(stabilityUnetKeys, table.Keys)
    ensures next == ConvertStep(prev, table, fullKey, value)
  {
    if StartsWith(fullKey, "lora_unet_") {
      var renamed := RenameUnetKey(stabilityUnetKeys, table, fullKey);
      if renamed.Some? {
        next := Conversion(Put(prev.dict, renamed.value, value), prev.converted + 1, prev.notConverted);
      } else {
        next := Conversion(Put(prev.dict, fullKey, value), prev.converted, prev.notConverted + 1);
      }
    } else {
      next := Conversion(Put(prev.dict, fullKey, value), prev.converted, prev.notConverted);
    }
  }

  /** The loop of `_convert_sdxl_keys_to_diffusers_format`, over any non-empty table. */
  method ConvertKeys<V>(sd: ODict<string, V>, table: map<string, string>) returns (r: Result<ODict<string, V>, LoRAError>)
    requires Valid(sd) && table != map[]
    ensures r == ConvertSpec(sd, table)
  {
    var stabilityUnetKeys := SortKeys(table.Keys);
    assert table.Keys != {} by { var k :| k in table; }
    var convertedCount, notConvertedCount := 0, 0;
    var newStateDict: ODict<string, V> := Empty();
    for i := 0 to |sd.order|
      invariant i <= FirstUnrecognized(sd.order)
      invariant ConvertAll(sd, table, i) == Conversion(newStateDict, convertedCount, notConvertedCount)
    {
      var fullKey := sd.order[i];
      if !Recognized(fullKey) {
        assert FirstUnrecognized(sd.order) == i;
        return Err(UnrecognizedPrefix(fullKey));
      }
      var next := ConvertOne(stabilityUnetKeys, table, Conversion(newStateDict, convertedCount, notConvertedCount), fullKey, sd.entries[fullKey]);
      ConvertAllNext(sd, table, i);
      newStateDict, convertedCount, notConvertedCount := next.dict, next.converted, next.notConverted;
    }
    if convertedCount > 0 && notConvertedCount > 0 {
      return Err(PartialConversion(convertedCount, notConvertedCount));
    }
    return Ok(newStateDict);
  }

  /** `_convert_sdxl_keys_to_diffusers_format`, over `SDXL_UNET_STABILITY_TO_DIFFUSERS_MAP`. */
  method ConvertSdxlKeysToDiffusersFormat<V>(sd: ODict<string, V>) returns (r: Result<ODict<string, V>, LoRAError>)
    requires Valid(sd)
    ensures r == ConvertSpec(sd, SdxlUnetStabilityToDiffusersMap())
  {
    var conversion := MakeSdxlUnetConversionMap();
    var table := ExportTable(conversion);
    assert table == SdxlUnetStabilityToDiffusersMap();
    r := ConvertKeys(sd, table);
  }

  // ---------------------------------------------------------------------
  // Properties of the conversion

  /** The new dict is well formed. */
  lemma {:induction false} ConvertAllValid<V>(sd: ODict<string, V>, table: map<string, string>, n: nat)
    requires Valid(sd) && table != map[] && n <= |sd.order|
    ensures Valid(ConvertAll(sd, table, n).dict)
  {
    if n > 0 {
      ConvertAllValid(sd, table, n - 1);
      var key := sd.order[n - 1];
      PutValid(ConvertAll(sd, table, n - 1).dict, NewKey(table, key), sd.entries[key]);
    }
  }

  /** A successful conversion gives a well-formed dict. */
  lemma ConvertSpecValid<V>(sd: ODict<string, V>, table: map<string, string>)
    requires Valid(sd) && table != map[]
    ensures ConvertSpec(sd, table).Ok? ==> Valid(ConvertSpec(sd, table).value)
  {
    ConvertAllValid(sd, table, |sd.order|);
  }

  /** `converted` stays zero exactly while no UNet key has been renamed. */
  lemma {:induction false} ConvertedCount<V>(sd: ODict<string, V>, table: map<string, string>, n: nat)
    requires Valid(sd) && table != map[] && n <= |sd.order|
    ensures ConvertAll(sd, table, n).converted == 0 <==>
      forall j :: 0 <= j < n && IsUnetKey(sd.order[j]) ==> Renaming(table, sd.order[j]).None?
  {
    if n > 0 {
      ConvertedCount(sd, table, n - 1);
      var key := sd.order[n - 1];
      assert ConvertAll(sd, table, n).converted
        == ConvertAll(sd, table, n - 1).converted + if IsUnetKey(key) && Renaming(table, key).Some? then 1 else 0;
    }
  }

  /** `not_converted` stays zero exactly while every UNet key has been renamed. */
  lemma {:induction false} NotConvertedCount<V>(sd: ODict<string, V>, table: map<string, string>, n: nat)
    requires Valid(sd) && table != map[] && n <= |sd.order|
    ensures ConvertAll(sd, table, n).notConverted == 0 <==>
      forall j :: 0 <= j < n && IsUnetKey(sd.order[j]) ==> Renaming(table, sd.order[j]).Some?
  {
    if n > 0 {
      NotConvertedCount(sd, table, n - 1);
      var key := sd.order[n - 1];
      assert ConvertAll(sd, table, n).notConverted
        == ConvertAll(sd, table, n - 1).notConverted + if IsUnetKey(key) && Renaming(table, key).None? then 1 else 0;
    }
  }

  /**
   * The conversion succeeds exactly when every key has a recognized prefix
   * and either every UNet key is renamed or none is.
   */
  lemma ConvertSucceedsIff<V>(sd: ODict<string, V>, table: map<string, string>)
    requires Valid(sd) && table != map[]
    ensures ConvertSpec(sd, table).Ok? <==>
      (forall j :: 0 <= j < |sd.order| ==> Recognized(sd.order[j]))
      && ((forall j :: 0 <= j < |sd.order| && IsUnetKey(sd.order[j]) ==> Renaming(table, sd.order[j]).Some?)
          || (forall j :: 0 <= j < |sd.order| && IsUnetKey(sd.order[j]) ==> Renaming(table, sd.order[j]).None?))
  {
    ConvertedCount(sd, table, |sd.order|);
    NotConvertedCount(sd, table, |sd.order|);
  }

  /** An empty dict converts to an empty dict. */
  lemma ConvertEmpty<V>(table: map<string, string>)
    requires table != map[]
    ensures ConvertSpec(Empty<string, V>(), table) == Ok(Empty())
  {
  }

  /** The first key with an unrecognized prefix is the one reported. */
  lemma ConvertRefusesUnrecognized<V>(sd: ODict<string, V>, table: map<string, string>, i: nat)
    requires Valid(sd) && table != map[]
    requires i < |sd.order| && !Recognized(sd.order[i])
    requires forall j :: 0 <= j < i ==> Recognized(sd.order[j])
    ensures ConvertSpec(sd, table) == Err(UnrecognizedPrefix(sd.order[i]))
  {
  }

  /** Every key of the input is stored under its new name. */
  lemma {:induction false} ConvertKeepsEveryName<V>(sd: ODict<string, V>, table: map<string, string>, n: nat, i: nat)
    requires Valid(sd) && table != map[] && i < n <= |sd.order|
    ensures NewKey(table, sd.order[i]) in ConvertAll(sd, table, n).dict.entries
  {
    if i < n - 1 {
      ConvertKeepsEveryName(sd, table, n - 1, i);
    }
  }

  /** A key whose new name no later key takes keeps its value under that name. */
  lemma {:induction false} ConvertKeepsEveryValue<V>(sd: ODict<string, V>, table: map<string, string>, n: nat, i: nat)
    requires Valid(sd) && table != map[] && i < n <= |sd.order|
    requires forall j :: i < j < n ==> NewKey(table, sd.order[j]) != NewKey(table, sd.order[i])
    ensures NewKey(table, sd.order[i]) in ConvertAll(sd, table, n).dict.entries
    ensures ConvertAll(sd, table, n).dict.entries[NewKey(table, sd.order[i])] == sd.entries[sd.order[i]]
  {
    ConvertKeepsEveryName(sd, table, n, i);
    if i < n - 1 {
      ConvertKeepsEveryValue(sd, table, n - 1, i);
    }
  }

  /** The entries after one more key: the previous entries with the key's value stored under its new name. */
  lemma ConvertAllEntries<V>(sd: ODict<string, V>, table: map<string, string>, n: nat)
    requires Valid(sd) && table != map[] && 0 < n <= |sd.order|
    ensures ConvertAll(sd, table, n).dict.entries
      == ConvertAll(sd, table, n - 1).dict.entries[NewKey(table, sd.order[n - 1]) := sd.entries[sd.order[n - 1]]]
  {
  }

  /** No key from `j + 1` up to `n` gets the new name `k`. */
  ghost predicate NoLaterName<V>(sd: ODict<string, V>, table: map<string, string>, j: nat, n: nat, k: string)
    requires table != map[] && n <= |sd.order|
  {
    forall j' :: j < j' < n ==> NewKey(table, sd.order[j']) != k
  }

  /** Key `j` is the last of the first `n` keys with the new name `k`, and its value is stored there. */
  ghost predicate LastNamedBy<V>(sd: ODict<string, V>, table: map<string, string>, n: nat, k: string, j: nat)
    requires Valid(sd) && table != map[] && n <= |sd.order|
  {
    j < n && NewKey(table, sd.order[j]) == k
    && k in ConvertAll(sd, table, n).dict.entries
    && ConvertAll(sd, table, n).dict.entries[k] == sd.entries[sd.order[j]]
    && NoLaterName(sd, table, j, n, k)
  }

  /**
   * Every entry of the new dict is the value of the last input key stored
   * under that entry's name.
   */
  lemma {:induction false} ConvertInventsNothing<V>(sd: ODict<string, V>, table: map<string, string>, n: nat, k: string)
    requires Valid(sd) && table != map[] && n <= |sd.order|
    requires k in ConvertAll(sd, table, n).dict.entries
    ensures exists j :: LastNamedBy(sd, table, n, k, j)
  {
    if n == 0 {
      assert false;
    } else if NewKey(table, sd.order[n - 1]) == k {
      ConvertAllEntries(sd, table, n);
      assert LastNamedBy(sd, table, n, k, n - 1);
    } else {
      ConvertInventsNothing(sd, table, n - 1, k);
      var j :| LastNamedBy(sd, table, n - 1, k, j);
      ConvertAllEntries(sd, table, n);
      assert LastNamedBy(sd, table, n, k, j);
    }
  }

  /** The text-encoder keys come through under their own names. */
  lemma TextEncoderKeysKept<V>(sd: ODict<string, V>, table: map<string, string>, i: nat)
    requires Valid(sd) && table != map[]
    requires ConvertSpec(sd, table).Ok?
    requires i < |sd.order| && IsTextEncoderKey(sd.order[i])
    ensures sd.order[i] in ConvertSpec(sd, table).value.entries
  {
    assert !IsUnetKey(sd.order[i]) by {
      assert "lora_unet_"[5] != "lora_te1_"[5] && "lora_unet_"[5] != "lora_te2_"[5];
    }
    ConvertKeepsEveryName(sd, table, |sd.order|, i);
  }

  /** In a prefix-free table, a UNet key whose search string starts with a table key is renamed by that key. */
  lemma PrefixFreeTableRenames(table: map<string, string>, key: string, k: string)
    requires PrefixFree(table.Keys)
    requires k in table && StartsWith(ReplaceAll(key, "lora_unet_", ""), k)
    ensures Renaming(table, key) == Some(ReplaceAll(key, k, table[k]))
  {
    PrefixFreeFindsPrefix(table.Keys, ReplaceAll(key, "lora_unet_", ""), k);
  }

  /** The entries of `sd` whose keys are among the first `n`. */
  function FirstEntries<V>(sd: ODict<string, V>, n: nat): ODict<string, V>
    requires n <= |sd.order|
  {
    ODict(sd.order[..n], map k | k in sd.entries && k in ElementsOf(sd.order[..n]) :: sd.entries[k])
  }

  /** Storing the next key of a well-formed dict extends its first entries by one. */
  lemma FirstEntriesStep<V>(sd: ODict<string, V>, n: nat)
    requires Valid(sd) && 0 < n <= |sd.order|
    ensures FirstEntries(sd, n) == Put(FirstEntries(sd, n - 1), sd.order[n - 1], sd.entries[sd.order[n - 1]])
  {
    var key := sd.order[n - 1];
    var before := sd.order[..n - 1];
    assert sd.order[..n] == before + [key];
    ElementsOfAppend(before, key);
    ElementsOfOccur(before, key);
    forall j | 0 <= j < |before| ensures before[j] != key {
      assert before[j] == sd.order[j];
    }
  }

  /** While no key gets a new name, the loop rebuilds the input dict entry by entry. */
  lemma {:induction false} ConvertRebuilds<V>(sd: ODict<string, V>, table: map<string, string>, n: nat)
    requires Valid(sd) && table != map[] && n <= |sd.order|
    requires forall j :: 0 <= j < n ==> NewKey(table, sd.order[j]) == sd.order[j]
    ensures ConvertAll(sd, table, n).dict == FirstEntries(sd, n)
  {
    if n > 0 {
      ConvertRebuilds(sd, table, n - 1);
      FirstEntriesStep(sd, n);
    }
  }

  /** An input in which no UNet key is renamed comes back unchanged. */
  lemma ConvertLeavesUnrenamedUnchanged<V>(sd: ODict<string, V>, table: map<string, string>)
    requires Valid(sd) && table != map[]
    requires forall j :: 0 <= j < |sd.order| ==> Recognized(sd.order[j])
    requires forall j :: 0 <= j < |sd.order| && IsUnetKey(sd.order[j]) ==> Renaming(table, sd.order[j]).None?
    ensures ConvertSpec(sd, table) == Ok(sd)
  {
    ConvertedCount(sd, table, |sd.order|);
    NotConvertedCount(sd, table, |sd.order|);
    ConvertRebuilds(sd, table, |sd.order|);
    assert sd.order[..|sd.order|] == sd.order;
    assert FirstEntries(sd, |sd.order|).entries == sd.entries;
  }

  // ---------------------------------------------------------------------
  // Diffusers naming

  /** A name in the diffusers UNet: one of its top-level module names, written with `_`. */
  predicate DiffusersName(s: string) {
    StartsWith(s, "down_blocks_") || StartsWith(s, "up_blocks_") || StartsWith(s, "mid_block_")
    || StartsWith(s, "conv_") || StartsWith(s, "time_embedding_") || StartsWith(s, "add_embedding_")
  }

  lemma PrefixChars(s: string, k: string)
    requires StartsWith(s, k)
    ensures forall i :: 0 <= i < |k| ==> s[i] == k[i]
  {
    forall i | 0 <= i < |k| ensures s[i] == k[i] {
      assert s[..|k|][i] == s[i];
    }
  }

  /** What a Stability AI name's first, fourth and eleventh characters can be. */
  lemma StabilityNameChars(k: string)
    requires StabilityName(k)
    ensures |k| >= 4 && k[0] in {'i', 'o', 'm', 't', 'l'}
    ensures k[0] == 'm' ==> k[3] == 'd'
    ensures k[0] == 't' ==> |k| >= 11 && k[10] == '_'
  {
    if StartsWith(k, "input_blocks_") { PrefixChars(k, "input_blocks_"); }
    else if StartsWith(k, "output_blocks_") { PrefixChars(k, "output_blocks_"); }
    else if StartsWith(k, "middle_block_") { PrefixChars(k, "middle_block_"); }
    else if StartsWith(k, "time_embed_") { PrefixChars(k, "time_embed_"); }
    else if StartsWith(k, "label_emb_") { PrefixChars(k, "label_emb_"); }
    else { PrefixChars(k, "out_"); }
  }

  /** What a diffusers name's first, fourth and eleventh characters can be. */
  lemma DiffusersNameChars(s: string)
    requires DiffusersName(s)
    ensures |s| >= 4 && s[0] in {'d', 'u', 'm', 'c', 't', 'a'}
    ensures s[0] == 'm' ==> s[3] == '_'
    ensures s[0] == 't' ==> |s| >= 11 && s[10] == 'd'
  {
    if StartsWith(s, "down_blocks_") { PrefixChars(s, "down_blocks_"); }
    else if StartsWith(s, "up_blocks_") { PrefixChars(s, "up_blocks_"); }
    else if StartsWith(s, "mid_block_") { PrefixChars(s, "mid_block_"); }
    else if StartsWith(s, "conv_") { PrefixChars(s, "conv_"); }
    else if StartsWith(s, "time_embedding_") { PrefixChars(s, "time_embedding_"); }
    else { PrefixChars(s, "add_embedding_"); }
  }

  /**
   * No diffusers name starts with a Stability AI name: the two namings
   * differ at the first, fourth or eleventh character.
   */
  lemma NamingsApart(s: string, k: string)
    requires StabilityName(k) && DiffusersName(s)
    ensures !StartsWith(s, k)
  {
    if StartsWith(s, k) {
      PrefixChars(s, k);
      StabilityNameChars(k);
      DiffusersNameChars(s);
    }
  }

  /** The table renames no UNet key already in diffusers naming. */
  lemma DiffusersKeyNotRenamed(key: string)
    requires DiffusersName(ReplaceAll(key, "lora_unet_", ""))
    ensures Renaming(SdxlUnetStabilityToDiffusersMap(), key).None?
  {
    var table := SdxlUnetStabilityToDiffusersMap();
    var search := ReplaceAll(key, "lora_unet_", "");
    assert table.Keys != {} by { var k :| k in table; }
    CandidateShape(table.Keys, search);
    TableKeysStemmed();
    NamingsApart(search, Candidate(table.Keys, search));
  }

  /**
   * A state dict already in diffusers naming, its UNet keys named after the
   * diffusers modules and its other keys text-encoder keys, comes back
   * unchanged.
   */
  lemma ConvertLeavesDiffusersUnchanged<V>(sd: ODict<string, V>)
    requires Valid(sd)
    requires forall j :: 0 <= j < |sd.order| ==> Recognized(sd.order[j])
    requires forall j :: 0 <= j < |sd.order| && IsUnetKey(sd.order[j]) ==> DiffusersName(ReplaceAll(sd.order[j], "lora_unet_", ""))
    ensures ConvertSpec(sd, SdxlUnetStabilityToDiffusersMap()) == Ok(sd)
  {
    forall j | 0 <= j < |sd.order| && IsUnetKey(sd.order[j])
      ensures Renaming(SdxlUnetStabilityToDiffusersMap(), sd.order[j]).None?
    {
      DiffusersKeyNotRenamed(sd.order[j]);
    }
    ConvertLeavesUnrenamedUnchanged(sd, SdxlUnetStabilityToDiffusersMap());
  }
}
