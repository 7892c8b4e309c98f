/**
 * `LoRAModelRaw`: a named dict of constructed layers, its `calc_size`, and
 * what `from_checkpoint` does once the checkpoint file has been read: group
 * the flat state dict by layer, rename the keys of an SDXL LoRA, classify the
 * first layer, and construct every layer as that kind.
 */
module LoRAModel {
  import opened Wrappers
  import opened PyDicts
  import opened LoRAState
  import opened LoRALayers
  import opened SdxlUnetMap
  import opened SdxlConvert

  /** `base_model`, as far as loading tells the values apart. */
  datatype BaseModel = StableDiffusionXL | OtherBaseModel

  /** The summed sizes of the layers listed in `keys`. */
  function ModelBytes(keys: seq<string>, entries: map<string, Layer>): nat
    requires forall i :: 0 <= i < |keys| ==> keys[i] in entries
  {
    if |keys| == 0 then 0
    else ModelBytes(keys[..|keys| - 1], entries) + LayerBytes(entries[keys[|keys| - 1]])
  }

  class LoRAModelRaw {
    var name: string
    var layers: ODict<string, Layer>

    constructor(name: string, layers: ODict<string, Layer>)
      ensures this.name == name && this.layers == layers
    {
      this.name := name;
      this.layers := layers;
    }

    /** `calc_size`: the sizes of all layers added up. */
    method CalcSize() returns (modelSize: nat)
      requires Valid(layers)
      ensures modelSize == ModelBytes(layers.order, layers.entries)
    {
      modelSize := 0;
      for i := 0 to |layers.order|
        invariant modelSize == ModelBytes(layers.order[..i], layers.entries)
      {
        assert layers.order[..i + 1][..i] == layers.order[..i];
        var layerSize := LoRALayers.CalcSize(layers.entries[layers.order[i]]);
        modelSize := modelSize + layerSize;
      }
      assert layers.order[..|layers.order|] == layers.order;
    }
  }

  // ---------------------------------------------------------------------
  // Loading

  /** Grouping, then the SDXL renaming when the base model is SDXL. */
  ghost function Prepared(sd: ODict<string, Tensor>, baseModel: Option<BaseModel>): (r: Result<Grouped<Tensor>, LoRAError>)
    requires Valid(sd)
    ensures r.Ok? ==> Valid(r.value)
  {
    GroupSpecValid(sd);
    if GroupSpec(sd).Err? || baseModel != Some(StableDiffusionXL) then GroupSpec(sd)
    else
      ConvertSpecValid(GroupSpec(sd).value, SdxlUnetStabilityToDiffusersMap());
      ConvertSpec(GroupSpec(sd).value, SdxlUnetStabilityToDiffusersMap())
  }

  /** `_group_state`, then `_convert_sdxl_keys_to_diffusers_format` when the base model is SDXL. */
  method PrepareStateDict(sd: ODict<string, Tensor>, baseModel: Option<BaseModel>) returns (r: Result<Grouped<Tensor>, LoRAError>)
    requires Valid(sd)
    ensures r == Prepared(sd, baseModel)
  {
    r := GroupState(sd);
    if r.Ok? && baseModel == Some(StableDiffusionXL) {
      GroupSpecValid(sd);
      r := ConvertSdxlKeysToDiffusersFormat(r.value);
    }
  }

  /** A layer class applied to a layer key and its values. */
  type Builder = (string, Values) -> Result<Layer, LoRAError>

  /** `layer_cls`: the constructor of the layer class of `kind`. */
  function Constructor(kind: LayerKind, sparse: SparseBuilder): Builder {
    (layerKey, values) => MakeLayer(kind, layerKey, values, sparse)
  }

  /** The first `n` layers constructed by `build`; the first layer that cannot be raises. */
  function BuildLayers(stateDict: Grouped<Tensor>, build: Builder, n: nat): Result<ODict<string, Layer>, LoRAError>
    requires Valid(stateDict) && n <= |stateDict.order|
  {
    if n == 0 then Ok(Empty())
    else
      var layers :- BuildLayers(stateDict, build, n - 1);
      var layerKey := stateDict.order[n - 1];
      var layer :- build(layerKey, stateDict.entries[layerKey].entries);
      Ok(Put(layers, layerKey, layer))
  }

  /** The kind the first layer's keys give, which every layer is then constructed as. */
  function FirstLayerKind(stateDict: Grouped<Tensor>): Result<LayerKind, LoRAError>
    requires Valid(stateDict)
  {
    if |stateDict.order| == 0 then Err(EmptyStateDict)
    else LayerTypeOf(stateDict.entries[stateDict.order[0]].entries.Keys)
  }

  /** Classify the first layer, then construct every layer as that kind. */
  function ClassifyAndBuild(stateDict: Grouped<Tensor>, sparse: SparseBuilder): Result<ODict<string, Layer>, LoRAError>
    requires Valid(stateDict)
  {
    var kind :- FirstLayerKind(stateDict);
    BuildLayers(stateDict, Constructor(kind, sparse), |stateDict.order|)
  }

  /** The layers `from_checkpoint` gives the model, or the error it raises. */
  ghost function LoadSpec(sd: ODict<string, Tensor>, baseModel: Option<BaseModel>, sparse: SparseBuilder): Result<ODict<string, Layer>, LoRAError>
    requires Valid(sd)
  {
    var stateDict :- Prepared(sd, baseModel);
    ClassifyAndBuild(stateDict, sparse)
  }

  /** Once a layer fails to construct, the loop has failed with that layer's error. */
  lemma {:induction false} BuildLayersStaysFailed(stateDict: Grouped<Tensor>, build: Builder, i: nat, n: nat)
    requires Valid(stateDict) && i <= n <= |stateDict.order|
    requires BuildLayers(stateDict, build, i).Err?
    ensures BuildLayers(stateDict, build, n) == BuildLayers(stateDict, build, i)
  {
    if i < n {
      BuildLayersStaysFailed(stateDict, build, i, n - 1);
    }
  }

  /**
   * The part of `from_checkpoint` after the state dict is prepared: classify
   * the first layer and store each layer, constructed as that kind, in the
   * model's layers. `None` when every layer was stored.
   */
  method AddLayers(model: LoRAModelRaw, stateDict: Grouped<Tensor>, sparse: SparseBuilder) returns (failure: Option<LoRAError>)
    requires Valid(stateDict) && model.layers == Empty()
    modifies model
    ensures model.name == old(model.name)
    ensures failure.None? <==> ClassifyAndBuild(stateDict, sparse).Ok?
    ensures failure.Some? ==> failure.value == ClassifyAndBuild(stateDict, sparse).error
    ensures failure.None? ==> model.layers == ClassifyAndBuild(stateDict, sparse).value
  {
    if |stateDict.order| == 0 {
      return Some(EmptyStateDict);
    }
    var firstModuleKey := stateDict.order[0];
    var peftLayerKeys := stateDict.entries[firstModuleKey].entries.Keys;
    var layerCls := LayerTypeOf(peftLayerKeys);
    if layerCls.Err? {
      return Some(layerCls.error);
    }
    failure := StoreLayers(model, stateDict, Constructor(layerCls.value, sparse));
  }

  /** The loop of `from_checkpoint` that constructs each layer with `layerCls` and stores it under its layer key. */
  method StoreLayers(model: LoRAModelRaw, stateDict: Grouped<Tensor>, layerCls: Builder)
    returns (failure: Option<LoRAError>)
    requires Valid(stateDict) && model.layers == Empty()
    modifies model
    ensures model.name == old(model.name)
    ensures
      var built := BuildLayers(stateDict, layerCls, |stateDict.order|);
      (failure.None? <==> built.Ok?)
      && (failure.Some? ==> failure.value == built.error)
      && (failure.None? ==> model.layers == built.value)
  {
    for i := 0 to |stateDict.order|
      invariant model.name == old(model.name)
      invariant BuildLayers(stateDict, layerCls, i) == Ok(model.layers)
    {
      var layerKey := stateDict.order[i];
      var layer := layerCls(layerKey, stateDict.entries[layerKey].entries);
      if layer.Err? {
        BuildLayersStaysFailed(stateDict, layerCls, i + 1, |stateDict.order|);
        return Some(layer.error);
      }
      model.layers := Put(model.layers, layerKey, layer.value);
    }
    return None;
  }

  /**
   * `from_checkpoint` after the file is read (`name` is the file's stem and
   * `sd` its flat state dict): the new model holds the layers built from
   * the prepared state dict, or the first error raised on the way.
   */
  method FromStateDict(name: string, sd: ODict<string, Tensor>, baseModel: Option<BaseModel>, sparse: SparseBuilder)
    returns (r: Result<LoRAModelRaw, LoRAError>)
    requires Valid(sd)
    ensures
      var spec := LoadSpec(sd, baseModel, sparse);
      (r.Ok? <==> spec.Ok?)
      && (r.Err? ==> r.error == spec.error)
      && (r.Ok? ==> fresh(r.value) && r.value.name == name && r.value.layers == spec.value)
  {
    var model := new LoRAModelRaw(name, Empty());
    var prepared := PrepareStateDict(sd, baseModel);
    if prepared.Err? {
      return Err(prepared.error);
    }
    var failure := AddLayers(model, prepared.value, sparse);
    if failure.Some? {
      return Err(failure.value);
    }
    return Ok(model);
  }

  // ---------------------------------------------------------------------
  // Properties of loading

  /** The kind a constructed layer was built as. */
  function KindOf(layer: Layer): LayerKind {
    match layer.params
    case LoRAParams(_, _, _) => LoRALayer
    case LoHAParams(_, _, _, _, _, _) => LoHALayer
    case LoKRParams(_, _, _, _, _, _, _) => LoKRLayer
    case FullParams(_) => FullLayer
    case IA3Params(_, _) => IA3Layer
  }

  /** The construction loop succeeds exactly when every layer can be constructed. */
  lemma {:induction false} BuildLayersSucceedsIff(stateDict: Grouped<Tensor>, build: Builder, n: nat)
    requires Valid(stateDict) && n <= |stateDict.order|
    ensures BuildLayers(stateDict, build, n).Ok? <==>
      forall i :: 0 <= i < n ==> build(stateDict.order[i], stateDict.entries[stateDict.order[i]].entries).Ok?
  {
    if n > 0 {
      BuildLayersSucceedsIff(stateDict, build, n - 1);
    }
  }

  /** Each turn of a successful loop appends a new layer key with the layer constructed from its values. */
  lemma BuildLayersStep(stateDict: Grouped<Tensor>, build: Builder, n: nat)
    requires Valid(stateDict) && 0 < n <= |stateDict.order|
    requires BuildLayers(stateDict, build, n).Ok?
    ensures BuildLayers(stateDict, build, n - 1).Ok?
    ensures
      var key := stateDict.order[n - 1];
      var before := BuildLayers(stateDict, build, n - 1).value;
      var after := BuildLayers(stateDict, build, n).value;
      build(key, stateDict.entries[key].entries).Ok?
      && after.order == before.order + [key]
      && after.entries == before.entries[key := build(key, stateDict.entries[key].entries).value]
      && key !in before.entries
    decreases n, 0
  {
    var key := stateDict.order[n - 1];
    var before := BuildLayers(stateDict, build, n - 1).value;
    BuildLayersShape(stateDict, build, n - 1);
    ElementsOfOccur(before.order, key);
    forall j | 0 <= j < n - 1 ensures before.order[j] != key {
      assert before.order[j] == stateDict.order[j];
    }
  }

  /**
   * The layers keep the state dict's layer keys in order, and each key holds
   * the layer constructed from its own values.
   */
  lemma {:induction false} BuildLayersShape(stateDict: Grouped<Tensor>, build: Builder, n: nat)
    requires Valid(stateDict) && n <= |stateDict.order|
    requires BuildLayers(stateDict, build, n).Ok?
    ensures
      var layers := BuildLayers(stateDict, build, n).value;
      Valid(layers) && layers.order == stateDict.order[..n]
      && forall i :: 0 <= i < n ==>
        var key := stateDict.order[i];
        build(key, stateDict.entries[key].entries).Ok?
        && layers.entries[key] == build(key, stateDict.entries[key].entries).value
    decreases n, 1
  {
    if n > 0 {
      BuildLayersShape(stateDict, build, n - 1);
      BuildLayersStep(stateDict, build, n);
      var key := stateDict.order[n - 1];
      var before := BuildLayers(stateDict, build, n - 1).value;
      assert stateDict.order[..n] == before.order + [key];
      PutValid(before, key, build(key, stateDict.entries[key].entries).value);
    }
  }

  /** A constructor builds a layer of its own kind. */
  lemma MakeLayerKind(kind: LayerKind, layerKey: string, values: Values, sparse: SparseBuilder)
    requires MakeLayer(kind, layerKey, values, sparse).Ok?
    ensures KindOf(MakeLayer(kind, layerKey, values, sparse).value) == kind
  {
  }

  /**
   * Loading a prepared state dict succeeds exactly when it is not empty, its
   * first layer's keys are classified, and every layer can be built as that
   * kind; the layers then keep the layer keys in order, all of that one kind.
   */
  lemma LoadedLayersShareOneKind(stateDict: Grouped<Tensor>, sparse: SparseBuilder)
    requires Valid(stateDict)
    ensures ClassifyAndBuild(stateDict, sparse).Ok? <==>
      FirstLayerKind(stateDict).Ok?
      && forall i :: 0 <= i < |stateDict.order| ==>
        Buildable(FirstLayerKind(stateDict).value, stateDict.entries[stateDict.order[i]].entries)
    ensures ClassifyAndBuild(stateDict, sparse).Ok? ==>
      var layers := ClassifyAndBuild(stateDict, sparse).value;
      layers.order == stateDict.order
      && forall key :: key in layers.entries ==> KindOf(layers.entries[key]) == FirstLayerKind(stateDict).value
  {
    if FirstLayerKind(stateDict).Ok? {
      var kind := FirstLayerKind(stateDict).value;
      var build := Constructor(kind, sparse);
      var n := |stateDict.order|;
      BuildLayersSucceedsIff(stateDict, build, n);
      forall i | 0 <= i < n
        ensures build(stateDict.order[i], stateDict.entries[stateDict.order[i]].entries).Ok?
            <==> Buildable(kind, stateDict.entries[stateDict.order[i]].entries)
      {
        MakeLayerSucceeds(kind, stateDict.order[i], stateDict.entries[stateDict.order[i]].entries, sparse);
      }
      if BuildLayers(stateDict, build, n).Ok? {
        BuildLayersShape(stateDict, build, n);
        assert stateDict.order[..n] == stateDict.order;
        var layers := BuildLayers(stateDict, build, n).value;
        forall key | key in layers.entries ensures KindOf(layers.entries[key]) == kind {
          ElementsOfOccur(layers.order, key);
          var i :| 0 <= i < n && layers.order[i] == key;
          MakeLayerKind(kind, key, stateDict.entries[key].entries, sparse);
        }
      }
    }
  }

  /** A state dict with a key that has no `.` is refused at the first such key, whatever the base model. */
  lemma LoadRefusesUndottedKey(sd: ODict<string, Tensor>, baseModel: Option<BaseModel>, sparse: SparseBuilder, i: nat)
    requires Valid(sd)
    requires i < |sd.order| && '.' !in sd.order[i]
    requires forall j :: 0 <= j < i ==> '.' in sd.order[j]
    ensures LoadSpec(sd, baseModel, sparse) == Err(NotEnoughValuesToUnpack(sd.order[i]))
  {
    GroupRefusesAt(sd, i);
  }

  /** An empty state dict is refused when the first layer is looked up. */
  lemma LoadRefusesEmpty(baseModel: Option<BaseModel>, sparse: SparseBuilder)
    ensures LoadSpec(Empty(), baseModel, sparse) == Err(EmptyStateDict)
  {
    PreparedEmpty(baseModel);
  }

  /** Grouping and converting an empty state dict give an empty one. */
  lemma PreparedEmpty(baseModel: Option<BaseModel>)
    ensures Prepared(Empty(), baseModel) == Ok(Empty())
  {
    var sd: ODict<string, Tensor> := Empty();
    assert GroupSpec(sd) == Ok(Empty());
    ConvertEmpty<ODict<string, Tensor>>(SdxlUnetStabilityToDiffusersMap());
  }

  /** What `calc_size` counts for one layer's values: the bias when present and the tensors the layer class reads. */
  function LoadedLayerBytes(kind: LayerKind, values: Values, sparse: SparseBuilder): nat {
    (if HasBias(values) then Bytes(sparse(values["bias_indices"], values["bias_values"], values["bias_size"])) else 0)
    + TotalBytes(StoredTensors(values, ParamSlots(kind, values)))
  }

  /** `LoadedLayerBytes` for layers of one kind, as a function of the values alone. */
  function LoadedSize(kind: LayerKind, sparse: SparseBuilder): Values -> nat {
    values => LoadedLayerBytes(kind, values, sparse)
  }

  /** The sizes `size` gives the first `n` layers of a prepared state dict, summed. */
  function SummedSizes(stateDict: Grouped<Tensor>, size: Values -> nat, n: nat): nat
    requires Valid(stateDict) && n <= |stateDict.order|
  {
    if n == 0 then 0
    else SummedSizes(stateDict, size, n - 1) + size(stateDict.entries[stateDict.order[n - 1]].entries)
  }

  /** The model size reads only the listed layers. */
  lemma {:induction false} ModelBytesFrame(keys: seq<string>, e1: map<string, Layer>, e2: map<string, Layer>)
    requires forall i :: 0 <= i < |keys| ==> keys[i] in e1 && keys[i] in e2 && e1[keys[i]] == e2[keys[i]]
    ensures ModelBytes(keys, e1) == ModelBytes(keys, e2)
  {
    if |keys| > 0 {
      ModelBytesFrame(keys[..|keys| - 1], e1, e2);
    }
  }

  /** Storing a layer under a new key adds its size to the model's. */
  lemma ModelBytesPut(layers: ODict<string, Layer>, key: string, layer: Layer)
    requires Valid(layers) && key !in layers.entries
    ensures Valid(Put(layers, key, layer))
    ensures
      var after := Put(layers, key, layer);
      ModelBytes(after.order, after.entries) == ModelBytes(layers.order, layers.entries) + LayerBytes(layer)
  {
    PutValid(layers, key, layer);
    var after := Put(layers, key, layer);
    assert after.order[..|layers.order|] == layers.order;
    forall i | 0 <= i < |layers.order| ensures layers.order[i] in after.entries && after.entries[layers.order[i]] == layers.entries[layers.order[i]] {
      assert layers.order[i] != key;
    }
    ModelBytesFrame(layers.order, layers.entries, after.entries);
  }

  /** The summed sizes of the layers `build` gives for the first `n` layer keys. */
  function BuiltBytes(stateDict: Grouped<Tensor>, build: Builder, n: nat): nat
    requires Valid(stateDict) && n <= |stateDict.order|
  {
    if n == 0 then 0
    else
      var key := stateDict.order[n - 1];
      var layer := build(key, stateDict.entries[key].entries);
      BuiltBytes(stateDict, build, n - 1) + (if layer.Ok? then LayerBytes(layer.value) else 0)
  }

  /** The size of the layers the loop stores is the sum of the sizes of the layers it constructs: each is counted once. */
  lemma {:induction false} StoredLayersSize(stateDict: Grouped<Tensor>, build: Builder, n: nat)
    requires Valid(stateDict) && n <= |stateDict.order|
    requires BuildLayers(stateDict, build, n).Ok?
    ensures
      var layers := BuildLayers(stateDict, build, n).value;
      Valid(layers) && ModelBytes(layers.order, layers.entries) == BuiltBytes(stateDict, build, n)
  {
    BuildLayersShape(stateDict, build, n);
    if n > 0 {
      BuildLayersStep(stateDict, build, n);
      BuildLayersShape(stateDict, build, n - 1);
      StoredLayersSize(stateDict, build, n - 1);
      var key := stateDict.order[n - 1];
      ModelBytesPut(BuildLayers(stateDict, build, n - 1).value, key, build(key, stateDict.entries[key].entries).value);
    }
  }

  /** When `build` gives each layer the size `size` gives its values, the layers it builds sum to those sizes. */
  lemma {:induction false} BuiltBytesAreSummedSizes(stateDict: Grouped<Tensor>, build: Builder, size: Values -> nat, n: nat)
    requires Valid(stateDict) && n <= |stateDict.order|
    requires forall i :: 0 <= i < n ==>
      var values := stateDict.entries[stateDict.order[i]].entries;
      build(stateDict.order[i], values).Ok? && LayerBytes(build(stateDict.order[i], values).value) == size(values)
    ensures BuiltBytes(stateDict, build, n) == SummedSizes(stateDict, size, n)
  {
    if n > 0 {
      BuiltBytesAreSummedSizes(stateDict, build, size, n - 1);
    }
  }

  /**
   * The size of a loaded model counts every layer once: its bias when the
   * bias keys are present and each tensor its class reads from the state
   * dict, and nothing else.
   */
  lemma ModelSizeCountsLoadedTensors(stateDict: Grouped<Tensor>, sparse: SparseBuilder)
    requires Valid(stateDict)
    requires ClassifyAndBuild(stateDict, sparse).Ok?
    ensures
      var layers := ClassifyAndBuild(stateDict, sparse).value;
      Valid(layers)
      && ModelBytes(layers.order, layers.entries)
        == SummedSizes(stateDict, LoadedSize(FirstLayerKind(stateDict).value, sparse), |stateDict.order|)
  {
    var kind := FirstLayerKind(stateDict).value;
    var n := |stateDict.order|;
    LoadedLayersShareOneKind(stateDict, sparse);
    var build := Constructor(kind, sparse);
    StoredLayersSize(stateDict, build, n);
    forall i | 0 <= i < n
      ensures
        var values := stateDict.entries[stateDict.order[i]].entries;
        build(stateDict.order[i], values).Ok? && LayerBytes(build(stateDict.order[i], values).value) == LoadedSize(kind, sparse)(values)
    {
      LoadedLayerSize(kind, stateDict.order[i], stateDict.entries[stateDict.order[i]].entries, sparse);
    }
    BuiltBytesAreSummedSizes(stateDict, build, LoadedSize(kind, sparse), n);
  }

  /** A constructed layer's size is what `LoadedLayerBytes` counts for its values. */
  lemma LoadedLayerSize(kind: LayerKind, layerKey: string, values: Values, sparse: SparseBuilder)
    requires Buildable(kind, values)
    ensures Constructor(kind, sparse)(layerKey, values).Ok?
    ensures LayerBytes(Constructor(kind, sparse)(layerKey, values).value) == LoadedLayerBytes(kind, values, sparse)
  {
    MakeLayerSucceeds(kind, layerKey, values, sparse);
    LayerSizeCountsLoadedTensors(kind, layerKey, values, sparse);
  }
}
