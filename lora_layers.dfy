/**
 * The five LoRA layer classes of `invokeai/backend/lora.py` as values: what
 * each constructor picks out of a layer's parameter dict, which errors it
 * raises and in which order, the rank it records, and `calc_size`.
 * Once built a layer is only changed by `to()`, which moves tensors between
 * devices and dtypes (changing their element sizes) and is not modelled, so
 * layers are immutable values here.
 */
module LoRALayers {
  import opened Wrappers
  import opened LoRAState

  /** One layer's parameters by name, as grouping filed them. */
  type Values = map<string, Tensor>

  /**
   * `torch.sparse_coo_tensor(indices, values, size)`: building a tensor is
   * outside the model, so the caller supplies it.
   */
  type SparseBuilder = (Tensor, Tensor, Tensor) -> Tensor

  /** What `LoRALayerBase.__init__` sets: the key, the alpha and the bias. */
  datatype Base = Base(layerKey: string, alpha: Option<Tensor>, bias: Option<Tensor>)

  /** The tensors each layer class keeps, `None` where the class stores `None`. */
  datatype Params =
    | LoRAParams(up: Tensor, mid: Option<Tensor>, down: Tensor)
    | LoHAParams(hadaW1A: Tensor, hadaW1B: Tensor, hadaW2A: Tensor, hadaW2B: Tensor, t1: Option<Tensor>, t2: Option<Tensor>)
    | LoKRParams(w1: Option<Tensor>, w1A: Option<Tensor>, w1B: Option<Tensor>,
                 w2: Option<Tensor>, w2A: Option<Tensor>, w2B: Option<Tensor>, t2: Option<Tensor>)
    | FullParams(weight: Tensor)
    | IA3Params(weight: Tensor, onInput: Tensor)

  /** A constructed layer; `rank` is `None` where the class leaves the layer unscaled. */
  datatype Layer = Layer(base: Base, rank: Option<nat>, params: Params)

  /** `values[key]`, which raises `KeyError` when the key is missing. */
  function Lookup(values: Values, key: string): Result<Tensor, LoRAError> {
    if key in values then Ok(values[key]) else Err(MissingKey(key))
  }

  /** `values[key] if key in values else None` */
  function Optional(values: Values, key: string): Option<Tensor> {
    if key in values then Some(values[key]) else None
  }

  /** `t.shape[0]`, which raises `IndexError` on a zero-dimensional tensor. */
  function LeadingDim(t: Tensor): Result<nat, LoRAError> {
    if |t.shape| == 0 then Err(NoLeadingDimension) else Ok(t.shape[0])
  }

  predicate HasBias(values: Values) {
    "bias_indices" in values && "bias_values" in values && "bias_size" in values
  }

  /** `values["alpha"].item()` succeeds: no alpha, or an alpha of exactly one element. */
  predicate AlphaIsScalar(values: Values) {
    "alpha" in values ==> NElement(values["alpha"]) == 1
  }

  // ---------------------------------------------------------------------
  // Constructors

  /**
   * `LoRALayerBase.__init__`: the alpha is read when present and must hold
   * one element; the bias is built only when all three of its parts are
   * present, and is `None` otherwise.
   */
  function MakeBase(layerKey: string, values: Values, sparse: SparseBuilder): (r: Result<Base, LoRAError>)
    ensures r.Ok? <==> AlphaIsScalar(values)
    ensures r.Err? ==> r.error == NotAScalar(NElement(values["alpha"]))
    ensures r.Ok? ==> r.value.layerKey == layerKey && r.value.alpha == Optional(values, "alpha")
    ensures r.Ok? ==> (r.value.bias.Some? <==> HasBias(values))
    ensures r.Ok? && HasBias(values) ==>
      r.value.bias == Some(sparse(values["bias_indices"], values["bias_values"], values["bias_size"]))
  {
    var alpha :-
      if "alpha" !in values then Ok(None)
      else if NElement(values["alpha"]) == 1 then Ok(Some(values["alpha"]))
      else Err(NotAScalar(NElement(values["alpha"])));
    var bias :=
      if HasBias(values) then Some(sparse(values["bias_indices"], values["bias_values"], values["bias_size"]))
      else None;
    Ok(Base(layerKey, alpha, bias))
  }

  /** `LoRALayer.__init__`: up, then down, then the optional mid; the rank is down's leading dimension. */
  function MakeLoRA(layerKey: string, values: Values, sparse: SparseBuilder): Result<Layer, LoRAError> {
    var base :- MakeBase(layerKey, values, sparse);
    var up :- Lookup(values, "lora_up.weight");
    var down :- Lookup(values, "lora_down.weight");
    var mid := Optional(values, "lora_mid.weight");
    var rank :- LeadingDim(down);
    Ok(Layer(base, Some(rank), LoRAParams(up, mid, down)))
  }

  /** `LoHALayer.__init__`: the four factors are required; the rank is `w1_b`'s leading dimension. */
  function MakeLoHA(layerKey: string, values: Values, sparse: SparseBuilder): Result<Layer, LoRAError> {
    var base :- MakeBase(layerKey, values, sparse);
    var w1A :- Lookup(values, "hada_w1_a");
    var w1B :- Lookup(values, "hada_w1_b");
    var w2A :- Lookup(values, "hada_w2_a");
    var w2B :- Lookup(values, "hada_w2_b");
    var t1 := Optional(values, "hada_t1");
    var t2 := Optional(values, "hada_t2");
    var rank :- LeadingDim(w1B);
    Ok(Layer(base, Some(rank), LoHAParams(w1A, w1B, w2A, w2B, t1, t2)))
  }

  /**
   * `LoKRLayer.__init__`: each Kronecker factor is either whole (`lokr_w1`)
   * or a product of two (`lokr_w1_a`, `lokr_w1_b`); the rank comes from
   * `lokr_w1_b` if present, else from `lokr_w2_b`, else the layer is unscaled.
   */
  function MakeLoKR(layerKey: string, values: Values, sparse: SparseBuilder): Result<Layer, LoRAError> {
    var base :- MakeBase(layerKey, values, sparse);
    var w1s: (Option<Tensor>, Option<Tensor>, Option<Tensor>) :-
      if "lokr_w1" in values then Ok((Some(values["lokr_w1"]), None, None))
      else
        var a :- Lookup(values, "lokr_w1_a");
        var b :- Lookup(values, "lokr_w1_b");
        Ok((None, Some(a), Some(b)));
    var w2s: (Option<Tensor>, Option<Tensor>, Option<Tensor>) :-
      if "lokr_w2" in values then Ok((Some(values["lokr_w2"]), None, None))
      else
        var a :- Lookup(values, "lokr_w2_a");
        var b :- Lookup(values, "lokr_w2_b");
        Ok((None, Some(a), Some(b)));
    var t2 := Optional(values, "lokr_t2");
    var rank: Option<nat> :-
      if "lokr_w1_b" in values then
        var d :- LeadingDim(values["lokr_w1_b"]); Ok(Some(d))
      else if "lokr_w2_b" in values then
        var d :- LeadingDim(values["lokr_w2_b"]); Ok(Some(d))
      else Ok(None);
    Ok(Layer(base, rank, LoKRParams(w1s.0, w1s.1, w1s.2, w2s.0, w2s.1, w2s.2, t2)))
  }

  /** `FullLayer.__init__`: the `diff` weight, and no other key at all. */
  function MakeFull(layerKey: string, values: Values, sparse: SparseBuilder): Result<Layer, LoRAError> {
    var base :- MakeBase(layerKey, values, sparse);
    var weight :- Lookup(values, "diff");
    if |values.Keys| > 1 then Err(UnexpectedDiffKeys(values.Keys - {"diff"}))
    else Ok(Layer(base, None, FullParams(weight)))
  }

  /** `IA3Layer.__init__`: the weight and the `on_input` flag tensor. */
  function MakeIA3(layerKey: string, values: Values, sparse: SparseBuilder): Result<Layer, LoRAError> {
    var base :- MakeBase(layerKey, values, sparse);
    var weight :- Lookup(values, "weight");
    var onInput :- Lookup(values, "on_input");
    Ok(Layer(base, None, IA3Params(weight, onInput)))
  }

  /** `layer_cls(layer_key, values)` for the class the classifier chose. */
  function MakeLayer(kind: LayerKind, layerKey: string, values: Values, sparse: SparseBuilder): Result<Layer, LoRAError> {
    match kind
    case LoRALayer => MakeLoRA(layerKey, values, sparse)
    case LoHALayer => MakeLoHA(layerKey, values, sparse)
    case LoKRLayer => MakeLoKR(layerKey, values, sparse)
    case FullLayer => MakeFull(layerKey, values, sparse)
    case IA3Layer => MakeIA3(layerKey, values, sparse)
  }

  // ---------------------------------------------------------------------
  // When construction succeeds, and what it keeps

  /** `t.shape[0]` exists for the tensor under `key`. */
  predicate HasLeadingDim(values: Values, key: string)
    requires key in values
  {
    |values[key].shape| > 0
  }

  /** Either the whole factor `w` or both halves `w_a`, `w_b` are present. */
  predicate HasFactor(values: Values, whole: string, a: string, b: string) {
    whole in values || (a in values && b in values)
  }

  /** The inputs on which each constructor returns a layer instead of raising. */
  predicate Buildable(kind: LayerKind, values: Values) {
    AlphaIsScalar(values) &&
    match kind
    case LoRALayer =>
      "lora_up.weight" in values && "lora_down.weight" in values && HasLeadingDim(values, "lora_down.weight")
    case LoHALayer =>
      "hada_w1_a" in values && "hada_w1_b" in values && "hada_w2_a" in values && "hada_w2_b" in values
      && HasLeadingDim(values, "hada_w1_b")
    case LoKRLayer =>
      HasFactor(values, "lokr_w1", "lokr_w1_a", "lokr_w1_b")
      && HasFactor(values, "lokr_w2", "lokr_w2_a", "lokr_w2_b")
      && (if "lokr_w1_b" in values then HasLeadingDim(values, "lokr_w1_b")
          else "lokr_w2_b" in values ==> HasLeadingDim(values, "lokr_w2_b"))
    case FullLayer => values.Keys == {"diff"}
    case IA3Layer => "weight" in values && "on_input" in values
  }

  lemma FullBuildable(layerKey: string, values: Values, sparse: SparseBuilder)
    ensures MakeFull(layerKey, values, sparse).Ok? <==> Buildable(FullLayer, values)
  {
    if "diff" in values && |values.Keys| <= 1 {
      var others := values.Keys - {"diff"};
      assert values.Keys == others + {"diff"};
      assert |others| == 0;
    }
  }

  /** A constructor returns a layer exactly on the inputs `Buildable` describes. */
  lemma MakeLayerSucceeds(kind: LayerKind, layerKey: string, values: Values, sparse: SparseBuilder)
    ensures MakeLayer(kind, layerKey, values, sparse).Ok? <==> Buildable(kind, values)
  {
    if kind == FullLayer {
      FullBuildable(layerKey, values, sparse);
    }
  }

  /**
   * Where each attribute of a layer comes from, in the order `calc_size`
   * lists the attributes: `Some(key)` for an attribute read from `values`
   * (a missing optional key reads as `None`), `None` for an attribute the
   * class sets to `None` outright. A LoKR factor given whole leaves its two
   * halves `None` even when their keys are present.
   */
  function ParamSlots(kind: LayerKind, values: Values): seq<Option<string>> {
    match kind
    case LoRALayer => [Some("lora_up.weight"), Some("lora_mid.weight"), Some("lora_down.weight")]
    case LoHALayer =>
      [Some("hada_w1_a"), Some("hada_w1_b"), Some("hada_w2_a"), Some("hada_w2_b"), Some("hada_t1"), Some("hada_t2")]
    case LoKRLayer =>
      FactorSlots(values, "lokr_w1", "lokr_w1_a", "lokr_w1_b")
      + FactorSlots(values, "lokr_w2", "lokr_w2_a", "lokr_w2_b")
      + [Some("lokr_t2")]
    case FullLayer => [Some("diff")]
    case IA3Layer => [Some("weight"), Some("on_input")]
  }

  function FactorSlots(values: Values, whole: string, a: string, b: string): seq<Option<string>> {
    if whole in values then [Some(whole), None, None] else [None, Some(a), Some(b)]
  }

  /** The tensors read through each slot. */
  function StoredTensors(values: Values, slots: seq<Option<string>>): (ts: seq<Option<Tensor>>)
    ensures |ts| == |slots|
  {
    seq(|slots|, i requires 0 <= i < |slots| => if slots[i].Some? then Optional(values, slots[i].value) else None)
  }

  /** The tensors a layer holds besides its bias, in the order `calc_size` lists them. */
  function OwnTensors(p: Params): seq<Option<Tensor>> {
    match p
    case LoRAParams(up, mid, down) => [Some(up), mid, Some(down)]
    case LoHAParams(w1A, w1B, w2A, w2B, t1, t2) => [Some(w1A), Some(w1B), Some(w2A), Some(w2B), t1, t2]
    case LoKRParams(w1, w1A, w1B, w2, w2A, w2B, t2) => [w1, w1A, w1B, w2, w2A, w2B, t2]
    case FullParams(weight) => [Some(weight)]
    case IA3Params(weight, onInput) => [Some(weight), Some(onInput)]
  }

  /** The leading dimension of the tensor under `key`. */
  function DimOf(values: Values, key: string): nat
    requires key in values && HasLeadingDim(values, key)
  {
    values[key].shape[0]
  }

  /** The rank each class records, from the key it reads it from. */
  function RankOf(kind: LayerKind, values: Values): Option<nat>
    requires Buildable(kind, values)
  {
    match kind
    case LoRALayer => Some(DimOf(values, "lora_down.weight"))
    case LoHALayer => Some(DimOf(values, "hada_w1_b"))
    case LoKRLayer =>
      if "lokr_w1_b" in values then Some(DimOf(values, "lokr_w1_b"))
      else if "lokr_w2_b" in values then Some(DimOf(values, "lokr_w2_b"))
      else None
    case FullLayer => None
    case IA3Layer => None
  }

  /**
   * A built layer holds, apart from its bias, exactly the tensors read
   * through its kind's slots, the alpha stored under `alpha`, and the rank
   * its class reads.
   */
  lemma LayerHoldsLoadedTensors(kind: LayerKind, layerKey: string, values: Values, sparse: SparseBuilder)
    requires MakeLayer(kind, layerKey, values, sparse).Ok?
    ensures Buildable(kind, values)
    ensures
      var layer := MakeLayer(kind, layerKey, values, sparse).value;
      OwnTensors(layer.params) == StoredTensors(values, ParamSlots(kind, values))
      && layer.base == MakeBase(layerKey, values, sparse).value
      && layer.rank == RankOf(kind, values)
  {
    MakeLayerSucceeds(kind, layerKey, values, sparse);
    var layer := MakeLayer(kind, layerKey, values, sparse).value;
    var stored := StoredTensors(values, ParamSlots(kind, values));
    if kind == LoKRLayer {
      LoKRHoldsLoadedTensors(layerKey, values, sparse);
    }
  }

  /** A LoKR layer holds each factor in the form the values give it, then `lokr_t2`. */
  lemma LoKRHoldsLoadedTensors(layerKey: string, values: Values, sparse: SparseBuilder)
    requires MakeLoKR(layerKey, values, sparse).Ok?
    ensures OwnTensors(MakeLoKR(layerKey, values, sparse).value.params) == StoredTensors(values, ParamSlots(LoKRLayer, values))
  {
    var own := OwnTensors(MakeLoKR(layerKey, values, sparse).value.params);
    var stored := StoredTensors(values, ParamSlots(LoKRLayer, values));
    assert own[..3] == stored[..3];
    assert own[3..6] == stored[3..6];
    assert own == own[..3] + own[3..6] + [own[6]];
    assert stored == stored[..3] + stored[3..6] + [stored[6]];
  }

  /**
   * The classifier accepts every LoKR key set, the empty one included, but
   * the LoKR constructor needs one form of each factor: a layer with no
   * parameters classifies as LoKR and then fails on the missing `lokr_w1_a`.
   */
  lemma EmptyLayerClassifiesThenFails(layerKey: string, sparse: SparseBuilder)
    ensures LayerTypeOf({}) == Ok(LoKRLayer)
    ensures MakeLayer(LoKRLayer, layerKey, map[], sparse) == Err(MissingKey("lokr_w1_a"))
  {
    LoKRAcceptsItsSubsets({});
  }

  /**
   * The classifier lets a full layer carry an alpha or a bias, but the
   * constructor refuses any key besides `diff`: every such layer fails.
   */
  lemma FullLayerRefusesOptionalKeys(layerKey: string, values: Values, sparse: SparseBuilder)
    requires LayerTypeOf(values.Keys) == Ok(FullLayer)
    ensures MakeLayer(FullLayer, layerKey, values, sparse).Ok? <==> values.Keys == {"diff"}
  {
    MakeLayerSucceeds(FullLayer, layerKey, values, sparse);
  }

  // ---------------------------------------------------------------------
  // calc_size

  /** `val.nelement() * val.element_size()` summed over the tensors that are not `None`. */
  function TotalBytes(ts: seq<Option<Tensor>>): nat {
    if |ts| == 0 then 0
    else TotalBytes(ts[..|ts| - 1]) + (if ts[|ts| - 1].Some? then Bytes(ts[|ts| - 1].value) else 0)
  }

  lemma TotalBytesSingle(t: Option<Tensor>)
    ensures TotalBytes([t]) == if t.Some? then Bytes(t.value) else 0
  {
    assert [t][..0] == [];
  }

  /** The size of a layer: its bias, then its own tensors. */
  function LayerBytes(layer: Layer): nat {
    TotalBytes([layer.base.bias]) + TotalBytes(OwnTensors(layer.params))
  }

  /** The `for val in [...]: if val is not None: model_size += ...` loop of every `calc_size`. */
  method AddSizes(start: nat, ts: seq<Option<Tensor>>) returns (size: nat)
    ensures size == start + TotalBytes(ts)
  {
    size := start;
    for i := 0 to |ts|
      invariant size == start + TotalBytes(ts[..i])
    {
      assert ts[..i + 1][..i] == ts[..i];
      if ts[i].Some? {
        size := size + Bytes(ts[i].value);
      }
    }
    assert ts[..|ts|] == ts;
  }

  /** `calc_size` of each layer class: the base class counts the bias, the subclass its own tensors. */
  method CalcSize(layer: Layer) returns (size: nat)
    ensures size == LayerBytes(layer)
  {
    size := AddSizes(0, [layer.base.bias]);
    match layer.params
    case FullParams(weight) =>
      size := size + Bytes(weight);
      TotalBytesSingle(Some(weight));
    case IA3Params(weight, onInput) =>
      size := size + Bytes(weight);
      size := size + Bytes(onInput);
      TotalBytesSingle(Some(weight));
      assert OwnTensors(layer.params)[..1] == [Some(weight)];
    case _ =>
      size := AddSizes(size, OwnTensors(layer.params));
  }

  /**
   * A built layer's size is the size of its bias plus the sizes of the
   * tensors read through its slots; the alpha is never counted.
   */
  lemma LayerSizeCountsLoadedTensors(kind: LayerKind, layerKey: string, values: Values, sparse: SparseBuilder)
    requires MakeLayer(kind, layerKey, values, sparse).Ok?
    ensures
      var layer := MakeLayer(kind, layerKey, values, sparse).value;
      var biasBytes := if HasBias(values) then Bytes(sparse(values["bias_indices"], values["bias_values"], values["bias_size"])) else 0;
      LayerBytes(layer) == biasBytes + TotalBytes(StoredTensors(values, ParamSlots(kind, values)))
  {
    var layer := MakeLayer(kind, layerKey, values, sparse).value;
    LayerHoldsLoadedTensors(kind, layerKey, values, sparse);
    TotalBytesSingle(layer.base.bias);
  }
}
