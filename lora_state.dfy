/**
 * The non-numeric part of loading a LoRA checkpoint: tensors reduced to their
 * shape and element size, the errors the loader raises, grouping a flat
 * state dict into per-layer dicts (`LoRAModelRaw._group_state`), matching a
 * layer's key set against required and optional keys (`_keys_match`) and
 * classifying a layer by its keys (`get_layer_type_from_state_dict_keys`).
 */
module LoRAState {
  import opened Wrappers
  import opened PyStrings
  import opened PyDicts

  // ---------------------------------------------------------------------
  // Tensors and errors

  /** A tensor as far as the loader looks at it: its shape and the size in bytes of one element. */
  datatype Tensor = Tensor(shape: seq<nat>, elementSize: nat)

  /** The product of the dimensions; 1 for a zero-dimensional tensor. */
  function Product(dims: seq<nat>): nat {
    if |dims| == 0 then 1 else Product(dims[..|dims| - 1]) * dims[|dims| - 1]
  }

  /** `t.nelement()` */
  function NElement(t: Tensor): nat {
    Product(t.shape)
  }

  /** `t.nelement() * t.element_size()` */
  function Bytes(t: Tensor): nat {
    NElement(t) * t.elementSize
  }

  /** The exceptions the loader raises, one constructor per raising site. */
  datatype LoRAError =
    | MissingKey(key: string)                      // KeyError on `values[key]`
    | NotAScalar(elements: nat)                    // `.item()` on a tensor that does not hold one element
    | NoLeadingDimension                           // `shape[0]` of a zero-dimensional tensor
    | NotEnoughValuesToUnpack(key: string)         // `stem, leaf = key.split(".", 1)` on a key without `.`
    | UnsupportedLayerKeys(keys: set<string>)      // no layer kind matches the keys
    | UnexpectedDiffKeys(extra: set<string>)       // a full (diff) layer with keys besides `diff`
    | UnrecognizedPrefix(key: string)              // an SDXL key with an unknown prefix
    | PartialConversion(converted: nat, notConverted: nat)
    | EmptyStateDict                               // `next(iter(state_dict))` on an empty dict

  // ---------------------------------------------------------------------
  // Grouping: "stem.leaf" -> result[stem][leaf]

  /** A state dict grouped by layer: layer key, then parameter name. */
  type Grouped<V> = ODict<string, ODict<string, V>>

  /** Every inner dict of a grouped state dict is itself a well-formed dict. */
  predicate ValidGrouped<V>(g: Grouped<V>) {
    Valid(g) && forall s | s in g.entries :: Valid(g.entries[s])
  }

  /** `grouped[stem][leaf] = value`, creating `grouped[stem] = {}` first when the stem is new. */
  function Place<V>(g: Grouped<V>, stem: string, leaf: string, v: V): Grouped<V> {
    var inner := if stem in g.entries then g.entries[stem] else Empty();
    Put(g, stem, Put(inner, leaf, v))
  }

  /** Creating the inner dict first and then storing into it is `Place`. */
  lemma PlaceInTwoSteps<V>(g: Grouped<V>, stem: string, leaf: string, v: V)
    ensures
      var created := if stem in g.entries then g else Put(g, stem, Empty());
      Put(created, stem, Put(created.entries[stem], leaf, v)) == Place(g, stem, leaf, v)
  {
  }

  lemma PlaceStores<V>(g: Grouped<V>, stem: string, leaf: string, v: V)
    ensures
      var r := Place(g, stem, leaf, v);
      stem in r.entries && leaf in r.entries[stem].entries && r.entries[stem].entries[leaf] == v
  {
  }

  lemma PlaceKeepsOthers<V>(g: Grouped<V>, stem: string, leaf: string, v: V, s: string, l: string)
    requires s in g.entries && l in g.entries[s].entries
    requires (s, l) != (stem, leaf)
    ensures
      var r := Place(g, stem, leaf, v);
      s in r.entries && l in r.entries[s].entries && r.entries[s].entries[l] == g.entries[s].entries[l]
  {
  }

  lemma PlaceValid<V>(g: Grouped<V>, stem: string, leaf: string, v: V)
    requires ValidGrouped(g)
    ensures ValidGrouped(Place(g, stem, leaf, v))
  {
    var inner := if stem in g.entries then g.entries[stem] else Empty();
    PutValid(inner, leaf, v);
    PutValid(g, stem, Put(inner, leaf, v));
  }

  /** Position of the first key without a `.`, or the number of keys when every key has one. */
  function FirstUndotted(keys: seq<string>): (r: nat)
    ensures r <= |keys|
    ensures forall j :: 0 <= j < r ==> '.' in keys[j]
    ensures r < |keys| ==> '.' !in keys[r]
  {
    if |keys| == 0 then 0
    else if '.' !in keys[0] then 0
    else 1 + FirstUndotted(keys[1..])
  }

  /** `stem, leaf = key.split(".", 1)` for a key that has a `.`. */
  function StemLeaf(key: string): (r: (string, string))
    requires '.' in key
    ensures '.' !in r.0
  {
    SplitFirstDotJoin(key);
    SplitFirstDot(key).value
  }

  /** The stem, a `.` and the leaf spell the key again. */
  lemma StemLeafJoin(key: string)
    requires '.' in key
    ensures StemLeaf(key).0 + "." + StemLeaf(key).1 == key
  {
    SplitFirstDotJoin(key);
  }

  /** Two different keys never split into the same stem and leaf. */
  lemma StemLeafDistinct(k1: string, k2: string)
    requires '.' in k1 && '.' in k2 && k1 != k2
    ensures StemLeaf(k1) != StemLeaf(k2)
  {
    StemLeafJoin(k1);
    StemLeafJoin(k2);
  }

  /** The grouping of the first `n` entries of `sd`, in iteration order, when they all have a `.`. */
  function GroupAll<V>(sd: ODict<string, V>, n: nat): Grouped<V>
    requires Valid(sd) && n <= FirstUndotted(sd.order)
  {
    if n == 0 then Empty()
    else
      var key := sd.order[n - 1];
      var (stem, leaf) := StemLeaf(key);
      Place(GroupAll(sd, n - 1), stem, leaf, sd.entries[key])
  }

  /**
   * What `_group_state` computes: the unpacking raises at the first key
   * without a `.`; otherwise every entry is filed.
   */
  function GroupSpec<V>(sd: ODict<string, V>): Result<Grouped<V>, LoRAError>
    requires Valid(sd)
  {
    var i := FirstUndotted(sd.order);
    if i < |sd.order| then Err(NotEnoughValuesToUnpack(sd.order[i]))
    else Ok(GroupAll(sd, i))
  }

  /** `_group_state`: split each key at its first `.` and file its value under stem and leaf. */
  method GroupState<V>(sd: ODict<string, V>) returns (r: Result<Grouped<V>, LoRAError>)
    requires Valid(sd)
    ensures r == GroupSpec(sd)
  {
    var grouped: Grouped<V> := Empty();
    for i := 0 to |sd.order|
      invariant i <= FirstUndotted(sd.order)
      invariant grouped == GroupAll(sd, i)
    {
      var key := sd.order[i];
      var split := SplitFirstDot(key);
      if split.None? {
        SplitFirstDotJoin(key);
        return Err(NotEnoughValuesToUnpack(key));
      }
      SplitFirstDotJoin(key);
      var (stem, leaf) := split.value;
      ghost var before := grouped;
      if stem !in grouped.entries {
        grouped := Put(grouped, stem, Empty());
      }
      grouped := Put(grouped, stem, Put(grouped.entries[stem], leaf, sd.entries[key]));
      PlaceInTwoSteps(before, stem, leaf, sd.entries[key]);
    }
    return Ok(grouped);
  }

  /** Grouping fails exactly when some key has no `.`, and the error names the first such key. */
  lemma GroupFailsIff<V>(sd: ODict<string, V>)
    requires Valid(sd)
    ensures GroupSpec(sd).Err? <==> exists j :: 0 <= j < |sd.order| && '.' !in sd.order[j]
    ensures GroupSpec(sd).Err? ==>
      exists j :: 0 <= j < |sd.order| && GroupSpec(sd).error == NotEnoughValuesToUnpack(sd.order[j])
        && '.' !in sd.order[j] && forall i :: 0 <= i < j ==> '.' in sd.order[i]
  {
  }

  /** The first key without a `.` is the one the error names. */
  lemma GroupRefusesAt<V>(sd: ODict<string, V>, i: nat)
    requires Valid(sd)
    requires i < |sd.order| && '.' !in sd.order[i]
    requires forall j :: 0 <= j < i ==> '.' in sd.order[j]
    ensures GroupSpec(sd) == Err(NotEnoughValuesToUnpack(sd.order[i]))
  {
  }

  /** The grouped dict and every dict inside it are well formed. */
  lemma {:induction false} GroupAllValid<V>(sd: ODict<string, V>, n: nat)
    requires Valid(sd) && n <= FirstUndotted(sd.order)
    ensures ValidGrouped(GroupAll(sd, n))
  {
    if n > 0 {
      GroupAllValid(sd, n - 1);
      var (stem, leaf) := StemLeaf(sd.order[n - 1]);
      PlaceValid(GroupAll(sd, n - 1), stem, leaf, sd.entries[sd.order[n - 1]]);
    }
  }

  /** A successful grouping is well formed. */
  lemma GroupSpecValid<V>(sd: ODict<string, V>)
    requires Valid(sd)
    ensures GroupSpec(sd).Ok? ==> ValidGrouped(GroupSpec(sd).value)
  {
    var i := FirstUndotted(sd.order);
    if i == |sd.order| {
      GroupAllValid(sd, i);
      assert GroupSpec(sd) == Ok(GroupAll(sd, i));
    }
  }

  /** No entry is lost: each key `stem.leaf` ends up at `grouped[stem][leaf]` with its value. */
  lemma {:induction false} GroupPlacesEveryEntry<V>(sd: ODict<string, V>, n: nat, i: nat)
    requires Valid(sd) && i < n <= FirstUndotted(sd.order)
    ensures
      var (stem, leaf) := StemLeaf(sd.order[i]);
      var g := GroupAll(sd, n);
      stem in g.entries && leaf in g.entries[stem].entries
      && g.entries[stem].entries[leaf] == sd.entries[sd.order[i]]
  {
    var key := sd.order[n - 1];
    var (s, l) := StemLeaf(key);
    var (stem, leaf) := StemLeaf(sd.order[i]);
    if i < n - 1 {
      GroupPlacesEveryEntry(sd, n - 1, i);
      assert key != sd.order[i];
      StemLeafDistinct(key, sd.order[i]);
      PlaceKeepsOthers(GroupAll(sd, n - 1), s, l, sd.entries[key], stem, leaf);
    } else {
      PlaceStores(GroupAll(sd, n - 1), s, l, sd.entries[key]);
    }
  }

  /** Nothing is invented: each `grouped[stem][leaf]` is the value of the key `stem.leaf`. */
  lemma {:induction false} GroupInventsNothing<V>(sd: ODict<string, V>, n: nat, stem: string, leaf: string)
    requires Valid(sd) && n <= FirstUndotted(sd.order)
    requires stem in GroupAll(sd, n).entries
    requires leaf in GroupAll(sd, n).entries[stem].entries
    ensures '.' !in stem
    ensures stem + "." + leaf in sd.entries
    ensures GroupAll(sd, n).entries[stem].entries[leaf] == sd.entries[stem + "." + leaf]
  {
    var key := sd.order[n - 1];
    var (s, l) := StemLeaf(key);
    if s != stem || l != leaf {
      GroupInventsNothing(sd, n - 1, stem, leaf);
    } else {
      StemLeafJoin(key);
    }
  }

  // ---------------------------------------------------------------------
  // Matching and classifying a layer's key set

  /** `_keys_match`: no required key is missing and every other key is optional. */
  function KeysMatch(keys: set<string>, required: set<string>, optional: set<string>): (b: bool)
    ensures b <==> required <= keys && keys - required <= optional
  {
    if |required - keys| > 0 then
      assert required - keys != {};
      false
    else
      assert required <= keys by {
        forall x | x in required ensures x in keys {
          assert x !in required - keys;
        }
      }
      forall k | k in keys - required :: k in optional
  }

  /** The five layer classes, in the order the classifier tries them. */
  datatype LayerKind = LoRALayer | LoHALayer | LoKRLayer | FullLayer | IA3Layer

  /** The keys every layer kind may carry: an alpha and the three parts of a sparse bias. */
  const CommonOptionalKeys: set<string> := {"alpha", "bias_indices", "bias_values", "bias_size"}

  function RequiredKeys(kind: LayerKind): set<string> {
    match kind
    case LoRALayer => {"lora_down.weight", "lora_up.weight"}
    case LoHALayer => {"hada_w1_b", "hada_w1_a", "hada_w2_b", "hada_w2_a"}
    case LoKRLayer => {}
    case FullLayer => {"diff"}
    case IA3Layer => {"weight", "on_input"}
  }

  function OptionalKeys(kind: LayerKind): set<string> {
    match kind
    case LoRALayer => CommonOptionalKeys + {"lora_mid.weight"}
    case LoHALayer => CommonOptionalKeys + {"hada_t1", "hada_t2"}
    case LoKRLayer =>
      CommonOptionalKeys + {"lokr_w1", "lokr_w1_a", "lokr_w1_b", "lokr_w2", "lokr_w2_a", "lokr_w2_b", "lokr_t2"}
    case FullLayer => CommonOptionalKeys
    case IA3Layer => CommonOptionalKeys
  }

  predicate Matches(keys: set<string>, kind: LayerKind) {
    KeysMatch(keys, RequiredKeys(kind), OptionalKeys(kind))
  }

  /** `get_layer_type_from_state_dict_keys`: the first kind, in declaration order, whose keys match. */
  function LayerTypeOf(keys: set<string>): (r: Result<LayerKind, LoRAError>)
    ensures r.Ok? ==> Matches(keys, r.value)
    ensures r.Err? ==> r.error == UnsupportedLayerKeys(keys)
    ensures r.Err? ==>
      !Matches(keys, LoRALayer) && !Matches(keys, LoHALayer) && !Matches(keys, LoKRLayer)
      && !Matches(keys, FullLayer) && !Matches(keys, IA3Layer)
  {
    if Matches(keys, LoRALayer) then Ok(LoRALayer)
    else if Matches(keys, LoHALayer) then Ok(LoHALayer)
    else if Matches(keys, LoKRLayer) then Ok(LoKRLayer)
    else if Matches(keys, FullLayer) then Ok(FullLayer)
    else if Matches(keys, IA3Layer) then Ok(IA3Layer)
    else Err(UnsupportedLayerKeys(keys))
  }

  /** All keys a layer of this kind may carry. */
  function AllowedKeys(kind: LayerKind): set<string> {
    RequiredKeys(kind) + OptionalKeys(kind)
  }

  /**
   * Every kind but LoKR has a required key that no other kind allows; this
   * is what makes the kinds exclusive.
   */
  function Witness(kind: LayerKind): (w: string)
    requires kind != LoKRLayer
    ensures w in RequiredKeys(kind)
  {
    match kind
    case LoRALayer => "lora_down.weight"
    case LoHALayer => "hada_w1_a"
    case FullLayer => "diff"
    case IA3Layer => "weight"
  }

  lemma WitnessIsOwn(kind: LayerKind, other: LayerKind)
    requires kind != LoKRLayer && other != kind
    ensures Witness(kind) !in AllowedKeys(other)
  {
    var w := Witness(kind);
    assert |w| == 16 || |w| == 9 || |w| == 4 || |w| == 6;
  }

  /** At most one kind matches any key set, so the order the classifier tries them in never matters. */
  lemma KindsAreExclusive(keys: set<string>, a: LayerKind, b: LayerKind)
    requires Matches(keys, a) && Matches(keys, b)
    ensures a == b
  {
    if a != b {
      var k := if a != LoKRLayer then a else b;
      var other := if a != LoKRLayer then b else a;
      WitnessIsOwn(k, other);
    }
  }

  /** The classifier returns a kind exactly when that kind's keys match. */
  lemma LayerTypeOfMatches(keys: set<string>, kind: LayerKind)
    ensures LayerTypeOf(keys) == Ok(kind) <==> Matches(keys, kind)
  {
    if Matches(keys, kind) {
      match kind {
        case LoRALayer =>
        case LoHALayer =>
        case LoKRLayer =>
        case FullLayer =>
        case IA3Layer =>
      }
      KindsAreExclusive(keys, kind, LayerTypeOf(keys).value);
    }
  }

  /**
   * Every set of LoKR keys, the empty set included, classifies as LoKR: that
   * kind has no required keys.
   */
  lemma LoKRAcceptsItsSubsets(keys: set<string>)
    requires keys <= OptionalKeys(LoKRLayer)
    ensures LayerTypeOf(keys) == Ok(LoKRLayer)
  {
    LayerTypeOfMatches(keys, LoKRLayer);
  }
}
