# LoRA state-dict handling and generation metadata, in Dafny

This project models two parts of InvokeAI.

**LoRA loading** (`invokeai/backend/lora.py`). After a checkpoint file has
been read, `LoRAModelRaw.from_checkpoint` does four things:

- It groups the flat state dict by layer (`_group_state`). Each key is split
  at its first `.`.
- For an SDXL base model, it renames Stability-AI UNet keys to diffusers
  names (`_convert_sdxl_keys_to_diffusers_format`). The renaming uses a table
  built by `make_sdxl_unet_conversion_map` and exported as
  `SDXL_UNET_STABILITY_TO_DIFFUSERS_MAP`.
- It classifies the first layer's keys (`_keys_match` and
  `get_layer_type_from_state_dict_keys`).
- It constructs every layer as that kind and stores it in the model.

The five layer classes are modelled too: which values each constructor
keeps, the rank it records, the errors it raises, and `calc_size`.

**Generation metadata** (`invokeai/app/invocations/metadata.py`). This part
covers:

- the `CoreMetadata`, `LoRAMetadataField` and `ImageMetadata` records, with
  the rule that a field whose value is `None` is left out of the serialized
  form;
- the metadata accumulator node;
- the metadata item node;
- the node that builds a dictionary from one item or a list of items;
- the node that merges a list of metadata dictionaries.

Layout:

- `wrappers.dfy` (`Wrappers`): `Option` and `Result`.
- `strings.dfy` (`PyStrings`): `str.startswith`, `str.replace`, and the
  ordering `sort` and `bisect` use on strings.
- `dicts.dfy` (`PyDicts`): an insertion-ordered dictionary (`ODict`) with
  Python's assignment semantics, and `dict.update`.
- `metadata_schema.dfy` (`MetadataSchema`): the records, their serializer,
  and a strict parser that reads the serialized form back.
- `metadata_nodes.dfy` (`MetadataNodes`): the four metadata nodes.
- `lora_state.dfy` (`LoRAState`): tensors as shapes, the loader's errors,
  `_group_state`, `_keys_match` and the layer classifier.
- `lora_layers.dfy` (`LoRALayers`): the layer constructors and the
  per-layer `calc_size`.
- `sdxl_map.dfy` (`SdxlUnetMap`): the conversion table.
- `sdxl_convert.dfy` (`SdxlConvert`): the SDXL key conversion.
- `lora_model.dfy` (`LoRAModel`): `LoRAModelRaw`, its `calc_size`, and
  `from_checkpoint` once the file has been read.

Code that updates state step by step is modelled as methods with loops:

- the grouping loop;
- the conversion loop with its two counters;
- the sort of the table keys;
- `bisect_right`;
- the list building of the conversion table;
- the `calc_size` sums;
- the merge loop;
- the loop that stores constructed layers into a `LoRAModelRaw` object.

Most of these methods are proved equal to a specification function, and
the properties are proved about those functions. `SortKeys`, `Insert` and
`BisectRight` are the exceptions: their postconditions state the properties
directly (sorted and each key once; sorted with exactly one key added; every
key before the position at most the search key and every key after it
greater).

## Model

| member | source | states |
|---|---|---|
| MetadataSchema.NameRoundTrip | invokeai/app/invocations/metadata.py:30-84 | every field's serialized name reads back as the same field |
| MetadataSchema.NamesDistinct | invokeai/app/invocations/metadata.py:30-84 | no two fields of the record share a serialized name |
| MetadataSchema.FieldNames | invokeai/app/invocations/metadata.py:30-84 | the names of the record's keys are exactly the names of its fields |
| MetadataSchema.FieldValue | invokeai/app/invocations/metadata.py:18 | a field whose value is `None` has no serialized value, so a field never serializes to null |
| MetadataSchema.SerializeCore | invokeai/app/invocations/metadata.py:30-84 | the serialized record holds a field's name exactly when that field is set, with that field's value; it has no other keys and no nulls |
| MetadataSchema.SerializedLookup | invokeai/app/invocations/metadata.py:30-84 | reading a field from the serialized record gives that field's value, or nothing when the field is `None` |
| MetadataSchema.SerializeDescribes | invokeai/app/invocations/metadata.py:30-84 | the serialized record describes the record field by field |
| MetadataSchema.ParseDescribed | invokeai/app/invocations/metadata.py:30-84 | any document that describes a record parses back to exactly that record |
| MetadataSchema.CoreRoundTrip | invokeai/app/invocations/metadata.py:30-84 | parsing the serialized `CoreMetadata` gives back the same record, optional fields left `None` included |
| MetadataSchema.LoRARoundTrip | invokeai/app/invocations/metadata.py:23-27 | a `LoRAMetadataField` serializes to exactly the keys `lora` and `weight`, and parses back to itself |
| MetadataSchema.LoRAsRoundTrip | invokeai/app/invocations/metadata.py:53 | a list of LoRA entries parses back to itself, element by element |
| MetadataSchema.ControlsRoundTrip | invokeai/app/invocations/metadata.py:52 | a list of ControlNet references parses back to itself |
| MetadataSchema.SerializeImage | invokeai/app/invocations/metadata.py:87-91 | `metadata` and `workflow` are keys exactly when they are set; there are no other keys and no nulls |
| MetadataSchema.ImageRoundTrip | invokeai/app/invocations/metadata.py:87-91 | parsing the serialized `ImageMetadata` gives back the same record |
| MetadataNodes.Accumulate | invokeai/app/invocations/metadata.py:179-182 | the accumulated record carries every input in the field of the same name; `app_version` is the running version and `created_by` is unset |
| MetadataNodes.AccumulateInputsOf | invokeai/app/invocations/metadata.py:104-182 | a record without `created_by` is what the accumulator makes of its own inputs and app version, so no field is lost or invented |
| MetadataNodes.FieldValueOfAccumulated | invokeai/app/invocations/metadata.py:104-182 | a field of the accumulated record has a value exactly when it is required or the matching optional input was supplied (`app_version` always has one) |
| MetadataNodes.AccumulatedKeys | invokeai/app/invocations/metadata.py:104-182 | the serialized accumulated record holds a field's name exactly when that input was supplied, so unsupplied optional inputs are absent |
| MetadataNodes.TextToImageScenario | invokeai/app/invocations/metadata.py:104-182 | for a text-to-image run without refiner inputs, the serialized record holds the given mode, seed, steps, scale, model and empty lists, and none of the refiner fields |
| MetadataNodes.MakeItem | invokeai/app/invocations/metadata.py:204-205 | the item node's item has exactly the label and value it was given |
| MetadataNodes.BuildDict | invokeai/app/invocations/metadata.py:225-229 | a single item gives the one-entry dict from its label to its value; a list gives a dict whose keys are exactly the items' labels |
| MetadataNodes.BuildDictLastWins | invokeai/app/invocations/metadata.py:229 | for a repeated label, the dict holds the value of the label's last occurrence |
| MetadataNodes.SingleIsOneElementList | invokeai/app/invocations/metadata.py:226-229 | a single item and the one-element list holding it give equal dicts |
| MetadataNodes.DuplicateLabelExample | invokeai/app/invocations/metadata.py:229 | two items labelled `x` give `{x: 2}`, with no error |
| MetadataNodes.BuildDictIsMerge | invokeai/app/invocations/metadata.py:225-243 | building a dict from a list of items equals merging the one-item dicts of those items |
| MetadataNodes.MergeMetadataDicts | invokeai/app/invocations/metadata.py:238-243 | the loop that updates `data` with each dict in turn ends with the left-to-right merge of the collection |
| MetadataNodes.MergeKeys | invokeai/app/invocations/metadata.py:239-243 | the merged dict's keys are the union of the keys of all the dicts |
| MetadataNodes.MergeLastWins | invokeai/app/invocations/metadata.py:239-243 | each key maps to its value in the last dict of the collection that holds it |
| MetadataNodes.MergeEmpty | invokeai/app/invocations/metadata.py:239-243 | merging no dicts gives the empty dict |
| MetadataNodes.MergeSingle | invokeai/app/invocations/metadata.py:239-243 | merging `[d]` gives `d` |
| MetadataNodes.MergeAppend | invokeai/app/invocations/metadata.py:239-243 | merging `a + b` is merging `a`, then updating the result with the merge of `b` |
| MetadataNodes.MergeExample | invokeai/app/invocations/metadata.py:239-243 | a concrete merge in which a later dict overrides an earlier key and keeps the others |
| LoRAState.StemLeaf | invokeai/backend/lora.py:560 | the stem of a key split at its first `.` holds no `.` |
| LoRAState.StemLeafJoin | invokeai/backend/lora.py:560 | stem, `.` and leaf put back together give the key |
| LoRAState.StemLeafDistinct | invokeai/backend/lora.py:560 | two different dotted keys split into different stem/leaf pairs |
| LoRAState.GroupState | invokeai/backend/lora.py:556-565 | the grouping loop returns the grouping specification: each `stem.leaf` filed under `[stem][leaf]`, or the unpacking error at the first key without `.` |
| LoRAState.GroupFailsIff | invokeai/backend/lora.py:559-560 | grouping raises exactly when some key has no `.`; the error names the first such key |
| LoRAState.GroupRefusesAt | invokeai/backend/lora.py:559-560 | the error names the first key without `.` |
| LoRAState.PlaceValid | invokeai/backend/lora.py:561-563 | filing one value keeps the nested dict well formed |
| LoRAState.GroupSpecValid | invokeai/backend/lora.py:556-565 | a successful grouping is a well-formed nested dict |
| LoRAState.GroupPlacesEveryEntry | invokeai/backend/lora.py:556-565 | every key of the input is found at `[stem][leaf]` with its value, so no entry is lost |
| LoRAState.GroupInventsNothing | invokeai/backend/lora.py:556-565 | every `[stem][leaf]` of the result comes from the input key `stem.leaf` with the same value, and the stem holds no `.` |
| LoRAState.KeysMatch | invokeai/backend/lora.py:461-473 | true exactly when every required key is present and every other key is optional |
| LoRAState.LayerTypeOf | invokeai/backend/lora.py:476-507 | the chosen kind's key sets match the keys; it raises with the keys when no kind matches |
| LoRAState.LayerTypeOfMatches | invokeai/backend/lora.py:476-507 | the classifier returns a kind exactly when that kind's key sets match, in both directions |
| LoRAState.KindsAreExclusive | invokeai/backend/lora.py:476-507 | no key set matches two kinds, so the order of the tests never decides the result |
| LoRAState.LoKRAcceptsItsSubsets | invokeai/backend/lora.py:493-499 | LoKR has no required keys, so any set of its optional keys, the empty set included, classifies as LoKR |
| LoRALayers.MakeBase | invokeai/backend/lora.py:27-48 | alpha is read when present and must be one element; bias is set exactly when all three bias keys are present, built from them |
| LoRALayers.MakeLayerSucceeds | invokeai/backend/lora.py:195-230 | each constructor returns a layer exactly when its required keys are present, alpha is a scalar, the rank tensor has a leading dimension, and (for a full layer) `diff` is the only key |
| LoRALayers.LayerHoldsLoadedTensors | invokeai/backend/lora.py:195-230 | a built layer holds the tensors read from its kind's keys (LoKR takes `w1` whole or as `w1_a`/`w1_b`, and likewise `w2`), its alpha and bias, and the rank from `lokr_w1_b`, else `lokr_w2_b`, else none |
| LoRALayers.EmptyLayerClassifiesThenFails | invokeai/backend/lora.py:493-499 | an empty key set classifies as LoKR, whose constructor then raises for the missing `lokr_w1_a` |
| LoRALayers.FullLayerRefusesOptionalKeys | invokeai/backend/lora.py:301-306 | a layer classified as full builds only when `diff` is its only key: the alpha and bias keys the classifier accepts make the constructor raise |
| LoRALayers.AddSizes | invokeai/backend/lora.py:101-106 | the loop adds nelement times element size for each tensor that is not `None` |
| LoRALayers.CalcSize | invokeai/backend/lora.py:53-58 | a layer's size is its bias bytes plus the bytes of its own tensors |
| LoRALayers.TotalBytesSingle | invokeai/backend/lora.py:53-58 | a `None` tensor adds nothing and a tensor adds nelement times element size |
| LoRALayers.LayerSizeCountsLoadedTensors | invokeai/backend/lora.py:257-262 | a built layer's size is the bias bytes plus the bytes of exactly the tensors it read from its values |
| SdxlUnetMap.BuildLayerMap | invokeai/backend/lora.py:572-618 | the nested loops build the layer list of the table's specification |
| SdxlUnetMap.ExpandLayers | invokeai/backend/lora.py:630-636 | the expansion loop gives the expansion specification |
| SdxlUnetMap.MakeSdxlUnetConversionMap | invokeai/backend/lora.py:570-652 | the function's list is the full conversion list: the expanded layers, then the time embedding, label embedding and the three tail pairs |
| SdxlUnetMap.ResnetLoopEntries | invokeai/backend/lora.py:633-634 | the resnet loop appends the six suffix pairs in order after what was there |
| SdxlUnetMap.ExpandIntoShape | invokeai/backend/lora.py:631-636 | a pair whose diffusers name holds `resnets` becomes six pairs with the resnet suffixes appended; any other pair is kept once |
| SdxlUnetMap.ExpandLength | invokeai/backend/lora.py:630-636 | the expanded list has five more entries per resnet pair |
| SdxlUnetMap.ExpandKeepsOrder | invokeai/backend/lora.py:630-636 | expanding a prefix of the layer list gives a prefix of the expansion |
| SdxlUnetMap.ExportShape | invokeai/backend/lora.py:656 | the exported name drops the trailing dots and turns every remaining `.` into `_` |
| SdxlUnetMap.ExportPairs | invokeai/backend/lora.py:656 | each pair is exported on both sides, and the order is kept |
| SdxlUnetMap.ExportTableEntries | invokeai/backend/lora.py:655-657 | the table's keys are the exported Stability-AI names; a name maps to the diffusers name of its last pair |
| SdxlUnetMap.ExportTableKeys | invokeai/backend/lora.py:655-657 | the exported dict's keys are exactly the exported Stability-AI names of the pairs |
| SdxlUnetMap.ConversionMapStemmed | invokeai/backend/lora.py:570-652 | every Stability-AI name in the conversion list starts with one of the stems `input_blocks.`, `output_blocks.`, `middle_block.`, `time_embed.`, `label_emb.`, `out.` |
| SdxlUnetMap.ExportStemmed | invokeai/backend/lora.py:656 | exporting such a name gives one starting with the same stem with `_` for `.` |
| SdxlUnetMap.TableKeysStemmed | invokeai/backend/lora.py:655-657 | every key of the exported table starts with `input_blocks_`, `output_blocks_`, `middle_block_`, `time_embed_`, `label_emb_` or `out_` |
| SdxlConvert.SortKeys | invokeai/backend/lora.py:427-428 | the table's keys are listed once each, in sorted order |
| SdxlConvert.Insert | invokeai/backend/lora.py:428 | inserting a key keeps the list sorted and adds exactly that key |
| SdxlConvert.BisectRight | invokeai/backend/lora.py:435 | the returned position has every key before it at most the search key, and every key after it greater |
| SdxlConvert.BisectPicksCandidate | invokeai/backend/lora.py:435-436 | the key before the bisect position, or the last key when the position is 0, is the greatest key not above the search key, or the greatest key of all when there is none |
| SdxlConvert.WrapNeverMatches | invokeai/backend/lora.py:436-438 | when the position is 0, the wrapped-to last key is never a prefix of the search key, so the wrap only ever leaves a key unconverted |
| SdxlConvert.PrefixFreeFindsPrefix | invokeai/backend/lora.py:435-438 | in a table where no key is a prefix of another, the candidate is the table key that is a prefix of the search key |
| SdxlConvert.PrefixFreeTableRenames | invokeai/backend/lora.py:432-441 | over such a table, a UNet key that starts with a table key is renamed through that key |
| SdxlConvert.RenameUnetKey | invokeai/backend/lora.py:432-444 | a `lora_unet_` key is renamed when the candidate is a prefix of its search key, and is kept otherwise |
| SdxlConvert.ConvertOne | invokeai/backend/lora.py:431-448 | one key is stored under its new name, and the converted or not-converted counter advances for UNet keys only |
| SdxlConvert.ConvertKeys | invokeai/backend/lora.py:421-458 | the loop returns the conversion specification: the unrecognized-prefix error, the partial-conversion error with both counts, or the new dict |
| SdxlConvert.ConvertSdxlKeysToDiffusersFormat | invokeai/backend/lora.py:403-458 | the conversion over the exported table is the conversion specification |
| SdxlConvert.ConvertSpecValid | invokeai/backend/lora.py:430-447 | a converted dict is well formed |
| SdxlConvert.ConvertedCount | invokeai/backend/lora.py:441 | no key was converted exactly when no UNet key had a renaming |
| SdxlConvert.NotConvertedCount | invokeai/backend/lora.py:444 | every key was converted exactly when every UNet key had a renaming |
| SdxlConvert.ConvertSucceedsIff | invokeai/backend/lora.py:449-456 | the conversion succeeds exactly when every key has a recognized prefix and the UNet keys are all renamed or all kept |
| SdxlConvert.ConvertEmpty | invokeai/backend/lora.py:421-458 | the empty state dict converts to the empty dict |
| SdxlConvert.ConvertRefusesUnrecognized | invokeai/backend/lora.py:449-450 | the first key whose prefix is not `lora_unet_`, `lora_te1_` or `lora_te2_` raises with that key |
| SdxlConvert.ConvertKeepsEveryName | invokeai/backend/lora.py:431-447 | every key appears in the new dict under its new name |
| SdxlConvert.ConvertKeepsEveryValue | invokeai/backend/lora.py:431-447 | the new name of a key keeps that key's value unless a later key is renamed to the same name |
| SdxlConvert.ConvertInventsNothing | invokeai/backend/lora.py:431-447 | every key of the new dict is the new name of some input key and holds the value of the last input key with that new name |
| SdxlConvert.TextEncoderKeysKept | invokeai/backend/lora.py:445-448 | a successful conversion keeps every `lora_te1_`/`lora_te2_` key unchanged |
| SdxlConvert.ConvertRebuilds | invokeai/backend/lora.py:430-447 | when no key is renamed, the loop rebuilds the input dict |
| SdxlConvert.ConvertLeavesUnrenamedUnchanged | invokeai/backend/lora.py:430-456 | over any table, a state dict with recognized prefixes and no renamable UNet key is returned unchanged |
| SdxlConvert.NamingsApart | invokeai/backend/lora.py:438 | a name starting with a diffusers module stem never starts with a key starting with a Stability-AI stem |
| SdxlConvert.DiffusersKeyNotRenamed | invokeai/backend/lora.py:432-444 | with the concrete table, a `lora_unet_` key whose search key is named after a diffusers module has no renaming |
| SdxlConvert.ConvertLeavesDiffusersUnchanged | invokeai/backend/lora.py:404-407 | with the concrete table, a state dict whose UNet keys are named after diffusers modules (`down_blocks_`, `up_blocks_`, `mid_block_`, `conv_`, `time_embedding_`, `add_embedding_`) and whose other keys are text-encoder keys comes back unchanged |
| LoRAModel.LoRAModelRaw.constructor | invokeai/backend/lora.py:375-385 | the model holds the name and layers it was given |
| LoRAModel.LoRAModelRaw.CalcSize | invokeai/backend/lora.py:396-400 | the model size is the sum of its layers' sizes |
| LoRAModel.PrepareStateDict | invokeai/backend/lora.py:533-536 | grouping, then the SDXL conversion for an SDXL base model only |
| LoRAModel.Prepared | invokeai/backend/lora.py:533-536 | a prepared state dict is well formed |
| LoRAModel.AddLayers | invokeai/backend/lora.py:540-552 | the first layer's keys choose the class; the model then holds every layer built as that class, or the first error raised |
| LoRAModel.StoreLayers | invokeai/backend/lora.py:544-552 | the storing loop leaves the model holding the layers built in order, or returns the first construction error |
| LoRAModel.FromStateDict | invokeai/backend/lora.py:510-553 | a fresh model with the given name and the loaded layers, or the error loading raises |
| LoRAModel.BuildLayersStaysFailed | invokeai/backend/lora.py:544-552 | once a layer fails to construct, the error is final |
| LoRAModel.BuildLayersSucceedsIff | invokeai/backend/lora.py:544-552 | the construction loop succeeds exactly when every layer can be constructed |
| LoRAModel.BuildLayersShape | invokeai/backend/lora.py:544-552 | the built layers are keyed by the layer keys in order, each holding what its constructor built |
| LoRAModel.MakeLayerKind | invokeai/backend/lora.py:545 | a constructed layer is of the class it was constructed with |
| LoRAModel.LoadedLayersShareOneKind | invokeai/backend/lora.py:538-552 | loading succeeds exactly when the first layer classifies and every layer is buildable as that kind; all loaded layers then share that kind |
| LoRAModel.LoadRefusesUndottedKey | invokeai/backend/lora.py:533 | a key without `.` makes loading fail with the unpacking error of the first such key |
| LoRAModel.LoadRefusesEmpty | invokeai/backend/lora.py:540 | an empty state dict makes loading fail, because there is no first layer |
| LoRAModel.StoredLayersSize | invokeai/backend/lora.py:396-400 | the size of the stored layers is the sum of the built layers' sizes |
| LoRAModel.ModelSizeCountsLoadedTensors | invokeai/backend/lora.py:396-400 | a loaded model's size is the sum, over its layers, of the bias bytes and the bytes of exactly the tensors each layer read |

## Left out

- File loading (`load_file`, `torch.load`) and `Path` handling are I/O and are not modelled. `FromStateDict` takes the file's stem as `name` and its state dict as `sd`. The `device` and `dtype` defaults are not modelled either.
- `to()` on layers and models moves tensors between devices and dtypes. A dtype move changes each tensor's element size, and so what `calc_size` reports. It is not modelled, so layers are immutable values.
- The `get_weight` methods are floating-point tensor algebra and are not modelled.
- Tensors are reduced to their shape and element size. `nelement` is the product of the shape, and no contents are kept.
- `torch.sparse_coo_tensor` is a parameter (`SparseBuilder`), because building a tensor is outside the model. The builder is a total function: the model assumes it never fails, while torch raises when the bias tensors are inconsistent.
- LoRAModel.ModelSizeCountsLoadedTensors: sizes are those of the tensors as read from the file. `from_checkpoint` then moves every layer to `dtype` (float32 by default) with `to()`, which changes element sizes and so what `calc_size` reports for the loaded model.
- MetadataSchema.ParseCore: it is a strict stand-in for pydantic validation, used only to state that the serializer's output reads back. Pydantic's coercion (accepting `7` for a float or `"7"` for an int) is not modelled.
- Metadata dicts and serialized documents are unordered maps, so the insertion order of Python dicts is not kept there. Nothing in the metadata nodes depends on it.
- The item's `label` field is named `itemLabel`, because `label` is a reserved word in Dafny.
- LoRALayers.MakeBase: `.item()` is modelled only as the check that alpha has exactly one element. The stored alpha is the tensor itself, not its float.
- Floats (`cfg_scale`, `strength`, the aesthetic scores, the LoRA `weight`) are opaque 64-bit patterns. No arithmetic or validation is done on them.
- The model references (`MainModelField`, `VAEModelField`, `LoRAModelField`, `ControlField`) are opaque documents, because their validation lives elsewhere.
- Pydantic validation (apart from the strict parser `ParseCore`, described below), `self.dict()`, the invocation decorators, the input and output field machinery and the UI types are left out. Each node's `invoke` is a function of its inputs.
- The null-excluding base class is not part of this model. Its rule, that a field whose value is `None` is absent from the serialized form, is modelled directly as the serializer.
- `__version__` is a parameter (`runningVersion`).
- `BaseModelType` is reduced to SDXL or any other value, because loading only compares it with SDXL.
- SdxlConvert.SortKeys: `list.sort` is modelled as an insertion sort. Only its result (sorted, each key once) is claimed.
- SdxlUnetMap.SdxlUnetStabilityToDiffusersMap: the model does not prove that the concrete table is prefix-free, that is, that no table key is a prefix of another. Renaming through the prefix is proved for any prefix-free table, and renaming through the bisect candidate is proved for every table.
- The `name` property of `LoRAModelRaw` is modelled as a read of the `name` field.
- The `RawModel` base class and `invokeai/backend/image_util/safety_checker.py` are not part of this model. The safety checker downloads models, runs a classifier and edits images.
