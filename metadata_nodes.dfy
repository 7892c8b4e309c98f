/**
 * The metadata nodes of the pipeline: the accumulator that assembles one core
 * record from its inputs, the item node that wraps a labelled value, the node
 * that turns one item or a list of items into a dictionary, and the node that
 * merges a list of such dictionaries.
 */
module MetadataNodes {
  import opened Wrappers
  import opened MetadataSchema
  import PyDicts

  // ---------------------------------------------------------------------
  // The metadata accumulator

  /**
   * The inputs of the accumulator node: every field of the core record except
   * `app_version` and `created_by`, which the node does not take.
   */
  datatype AccumulatorInputs = AccumulatorInputs(
    generationMode: string,
    positivePrompt: string,
    negativePrompt: string,
    width: int,
    height: int,
    seed: int,
    randDevice: string,
    cfgScale: Float,
    steps: int,
    scheduler: string,
    clipSkip: Option<int>,
    model: MainModelField,
    controlnets: seq<ControlField>,
    loras: seq<LoRAMetadataField>,
    strength: Option<Float>,
    initImage: Option<string>,
    vae: Option<VaeModelField>,
    positiveStylePrompt: Option<string>,
    negativeStylePrompt: Option<string>,
    refinerModel: Option<MainModelField>,
    refinerCfgScale: Option<Float>,
    refinerSteps: Option<int>,
    refinerScheduler: Option<string>,
    refinerPositiveAestheticScore: Option<Float>,
    refinerNegativeAestheticScore: Option<Float>,
    refinerStart: Option<Float>)

  /** The accumulator inputs that a record carries. */
  function InputsOf(c: CoreMetadata): AccumulatorInputs {
    AccumulatorInputs(
      c.generationMode, c.positivePrompt, c.negativePrompt,
      c.width, c.height, c.seed, c.randDevice, c.cfgScale, c.steps, c.scheduler, c.clipSkip,
      c.model, c.controlnets, c.loras, c.strength, c.initImage, c.vae,
      c.positiveStylePrompt, c.negativeStylePrompt,
      c.refinerModel, c.refinerCfgScale, c.refinerSteps, c.refinerScheduler,
      c.refinerPositiveAestheticScore, c.refinerNegativeAestheticScore, c.refinerStart)
  }

  /**
   * The accumulator's output record: each input copied into the field of the
   * same name, `app_version` left to its default (the running version) and
   * `created_by` left unset. No field is checked against another.
   */
  function Accumulate(inputs: AccumulatorInputs, runningVersion: string): (c: CoreMetadata)
    ensures c.appVersion == runningVersion
    ensures c.createdBy == None
    ensures InputsOf(c) == inputs
  {
    CoreMetadata(
      runningVersion, inputs.generationMode, None, inputs.positivePrompt, inputs.negativePrompt,
      inputs.width, inputs.height, inputs.seed, inputs.randDevice, inputs.cfgScale, inputs.steps,
      inputs.scheduler, inputs.clipSkip, inputs.model, inputs.controlnets, inputs.loras, inputs.vae,
      inputs.strength, inputs.initImage, inputs.positiveStylePrompt, inputs.negativeStylePrompt,
      inputs.refinerModel, inputs.refinerCfgScale, inputs.refinerSteps, inputs.refinerScheduler,
      inputs.refinerPositiveAestheticScore, inputs.refinerNegativeAestheticScore, inputs.refinerStart)
  }

  /** Every record without a creator is what the accumulator makes of its own inputs. */
  lemma AccumulateInputsOf(c: CoreMetadata)
    requires c.createdBy == None
    ensures Accumulate(InputsOf(c), c.appVersion) == c
  {
  }

  /** Whether the accumulator's inputs give field `f` a value. */
  predicate Supplied(inputs: AccumulatorInputs, f: Field) {
    match f
    case CreatedBy => false
    case ClipSkip => inputs.clipSkip.Some?
    case Vae => inputs.vae.Some?
    case Strength => inputs.strength.Some?
    case InitImage => inputs.initImage.Some?
    case PositiveStylePrompt => inputs.positiveStylePrompt.Some?
    case NegativeStylePrompt => inputs.negativeStylePrompt.Some?
    case RefinerModel => inputs.refinerModel.Some?
    case RefinerCfgScale => inputs.refinerCfgScale.Some?
    case RefinerSteps => inputs.refinerSteps.Some?
    case RefinerScheduler => inputs.refinerScheduler.Some?
    case RefinerPositiveAestheticScore => inputs.refinerPositiveAestheticScore.Some?
    case RefinerNegativeAestheticScore => inputs.refinerNegativeAestheticScore.Some?
    case RefinerStart => inputs.refinerStart.Some?
    case _ => true
  }

  lemma FieldValueOfAccumulated(inputs: AccumulatorInputs, runningVersion: string, f: Field)
    ensures FieldValue(Accumulate(inputs, runningVersion), f).Some? <==> Supplied(inputs, f)
  {
  }

  /**
   * The serialized output of the accumulator holds exactly the required
   * fields, `app_version`, and the optional fields whose input was supplied.
   */
  lemma AccumulatedKeys(inputs: AccumulatorInputs, runningVersion: string, f: Field)
    ensures Name(f) in SerializeCore(Accumulate(inputs, runningVersion)) <==> Supplied(inputs, f)
  {
    FieldValueOfAccumulated(inputs, runningVersion, f);
  }

  /** `7.5` as an IEEE 754 double. */
  const SevenPointFive := Float(0x401E_0000_0000_0000)

  /**
   * A text-to-image run with seed 42, 30 steps and guidance 7.5 and no
   * optional input: its document has no `refiner_*` key, and holds the
   * required keys with the values given, with empty lists for the
   * ControlNets and LoRAs.
   */
  lemma TextToImageScenario(
    positivePrompt: string, negativePrompt: string, width: int, height: int, randDevice: string,
    scheduler: string, model: MainModelField, runningVersion: string)
    ensures
      var inputs := AccumulatorInputs(
        "txt2img", positivePrompt, negativePrompt, width, height, 42, randDevice, SevenPointFive, 30,
        scheduler, None, model, [], [], None, None, None, None, None,
        None, None, None, None, None, None, None);
      var d := SerializeCore(Accumulate(inputs, runningVersion));
      && Lookup(d, GenerationMode) == Some(Str("txt2img"))
      && Lookup(d, Seed) == Some(Int(42))
      && Lookup(d, Steps) == Some(Int(30))
      && Lookup(d, CfgScale) == Some(Number(SevenPointFive))
      && Lookup(d, Controlnets) == Some(List([]))
      && Lookup(d, Loras) == Some(List([]))
      && Lookup(d, Model) == Some(Object(model.doc))
      && Name(RefinerModel) !in d && Name(RefinerCfgScale) !in d && Name(RefinerSteps) !in d
      && Name(RefinerScheduler) !in d && Name(RefinerPositiveAestheticScore) !in d
      && Name(RefinerNegativeAestheticScore) !in d && Name(RefinerStart) !in d
  {
    var inputs := AccumulatorInputs(
      "txt2img", positivePrompt, negativePrompt, width, height, 42, randDevice, SevenPointFive, 30,
      scheduler, None, model, [], [], None, None, None, None, None,
      None, None, None, None, None, None, None);
    var c := Accumulate(inputs, runningVersion);
    SerializeSampling(c);
    SerializeModels(c);
    SerializeRefiner(c);
    SerializePrompts(c);
  }

  // ---------------------------------------------------------------------
  // Metadata items and dictionaries

  /** A labelled value of any transport kind. */
  datatype MetadataItem = MetadataItem(itemLabel: string, value: Value)

  /** The data of a metadata dictionary node. */
  datatype MetadataDict = MetadataDict(data: map<string, Value>)

  /** The item node: wraps its label and value, unchanged, in one item. */
  function MakeItem(itemLabel: string, value: Value): (item: MetadataItem)
    ensures item.itemLabel == itemLabel && item.value == value
  {
    MetadataItem(itemLabel, value)
  }

  /** The metadata node's input: one item, or a list of them. */
  datatype ItemsInput = Single(item: MetadataItem) | Collection(items: seq<MetadataItem>)

  function Pairs(items: seq<MetadataItem>): (ps: seq<(string, Value)>)
    ensures |ps| == |items|
    ensures forall i :: 0 <= i < |items| ==> ps[i] == (items[i].itemLabel, items[i].value)
  {
    seq(|items|, i requires 0 <= i < |items| => (items[i].itemLabel, items[i].value))
  }

  /** The labels of a list of items. */
  function Labels(items: seq<MetadataItem>): set<string> {
    set i | 0 <= i < |items| :: items[i].itemLabel
  }

  /**
   * The metadata node: one item gives a one-entry dictionary; a list gives
   * the dictionary of its labels, the last item with a label supplying its
   * value.
   */
  function BuildDict(input: ItemsInput): (d: MetadataDict)
    ensures input.Single? ==> d.data == map[input.item.itemLabel := input.item.value]
    ensures input.Collection? ==> d.data.Keys == Labels(input.items)
  {
    match input
    case Single(item) => MetadataDict(map[item.itemLabel := item.value])
    case Collection(items) =>
      var ps := Pairs(items);
      assert PyDicts.KeysOf(ps) == Labels(items) by {
        forall k | k in Labels(items) ensures k in PyDicts.KeysOf(ps) {
          var i :| 0 <= i < |items| && items[i].itemLabel == k;
          assert ps[i].0 == k;
        }
      }
      MetadataDict(PyDicts.FromPairs(ps))
  }

  /** Item `i` is the last one in the list with its label. */
  predicate IsLastLabel(items: seq<MetadataItem>, i: nat) {
    i < |items| && forall j :: i < j < |items| ==> items[j].itemLabel != items[i].itemLabel
  }

  /** In a list, each label maps to the value of the last item carrying it. */
  lemma BuildDictLastWins(items: seq<MetadataItem>, i: nat)
    requires IsLastLabel(items, i)
    ensures items[i].itemLabel in BuildDict(Collection(items)).data
    ensures BuildDict(Collection(items)).data[items[i].itemLabel] == items[i].value
  {
    var ps := Pairs(items);
    assert PyDicts.IsLastFor(ps, i) by {
      forall j | i < j < |ps| ensures ps[j].0 != ps[i].0 {
        assert items[j].itemLabel != items[i].itemLabel;
      }
    }
    PyDicts.FromPairsLastWins(ps, i);
  }

  /** One item and the one-element list holding it give the same dictionary. */
  lemma SingleIsOneElementList(item: MetadataItem)
    ensures BuildDict(Single(item)) == BuildDict(Collection([item]))
  {
    assert Pairs([item]) == [(item.itemLabel, item.value)];
    PyDicts.FromOnePair(item.itemLabel, item.value);
  }

  /** Two items labelled "x" and values 1 then 2 give `{x: 2}`. */
  lemma DuplicateLabelExample()
    ensures BuildDict(Collection([MetadataItem("x", Int(1)), MetadataItem("x", Int(2))])).data
      == map["x" := Int(2)]
  {
    var items := [MetadataItem("x", Int(1)), MetadataItem("x", Int(2))];
    BuildDictLastWins(items, 1);
    assert Labels(items) == {"x"} by {
      assert items[0].itemLabel == "x" && items[1].itemLabel == "x";
    }
  }

  // ---------------------------------------------------------------------
  // Merging metadata dictionaries

  /** Applying `update` with each dictionary in turn to an empty dictionary. */
  function MergeSpec(collection: seq<MetadataDict>): map<string, Value> {
    if |collection| == 0 then map[]
    else MergeSpec(collection[..|collection| - 1]) + collection[|collection| - 1].data
  }

  /** The merge node: a fresh dictionary updated with each input dictionary in order. */
  method MergeMetadataDicts(collection: seq<MetadataDict>) returns (result: MetadataDict)
    ensures result.data == MergeSpec(collection)
  {
    var data: map<string, Value> := map[];
    for i := 0 to |collection|
      invariant data == MergeSpec(collection[..i])
    {
      assert collection[..i + 1][..i] == collection[..i];
      data := data + collection[i].data;
    }
    assert collection[..|collection|] == collection;
    return MetadataDict(data);
  }

  /** The keys that occur in some dictionary of the collection. */
  function AllKeys(collection: seq<MetadataDict>): set<string> {
    set i, k | 0 <= i < |collection| && k in collection[i].data :: k
  }

  /** The merged keys are exactly the keys of the inputs. */
  lemma {:induction false} MergeKeys(collection: seq<MetadataDict>)
    ensures MergeSpec(collection).Keys == AllKeys(collection)
  {
    if |collection| > 0 {
      var n := |collection| - 1;
      MergeKeys(collection[..n]);
      forall k | k in AllKeys(collection) ensures k in MergeSpec(collection) {
        var i :| 0 <= i < |collection| && k in collection[i].data;
        if i < n {
          assert collection[..n][i] == collection[i];
        }
      }
      forall k | k in MergeSpec(collection) ensures k in AllKeys(collection) {
        if k !in collection[n].data {
          var i :| 0 <= i < n && k in collection[..n][i].data;
          assert collection[..n][i] == collection[i];
        }
      }
    }
  }

  /** Dictionary `i` is the last in the collection that holds key `k`. */
  predicate IsLastHolder(collection: seq<MetadataDict>, i: nat, k: string) {
    i < |collection| && k in collection[i].data
    && forall j :: i < j < |collection| ==> k !in collection[j].data
  }

  /** A merged key keeps the value of the last dictionary that holds it. */
  lemma {:induction false} MergeLastWins(collection: seq<MetadataDict>, i: nat, k: string)
    requires IsLastHolder(collection, i, k)
    ensures k in MergeSpec(collection) && MergeSpec(collection)[k] == collection[i].data[k]
  {
    var n := |collection| - 1;
    if i < n {
      assert k !in collection[n].data;
      assert IsLastHolder(collection[..n], i, k) by {
        forall j | i < j < n ensures k !in collection[..n][j].data {
          assert collection[..n][j] == collection[j];
        }
      }
      MergeLastWins(collection[..n], i, k);
      assert collection[..n][i] == collection[i];
    }
  }

  /** Merging nothing gives the empty dictionary. */
  lemma MergeEmpty()
    ensures MergeSpec([]) == map[]
  {
  }

  /** Merging a single dictionary gives that dictionary. */
  lemma MergeSingle(m: MetadataDict)
    ensures MergeSpec([m]) == m.data
  {
    assert [m][..0] == [];
  }

  /** Merging a concatenation is merging each part, the later part winning. */
  lemma {:induction false} MergeAppend(a: seq<MetadataDict>, b: seq<MetadataDict>)
    ensures MergeSpec(a + b) == MergeSpec(a) + MergeSpec(b)
  {
    if |b| == 0 {
      assert a + b == a;
    } else {
      var n := |b| - 1;
      assert (a + b)[..|a + b| - 1] == a + b[..n];
      MergeAppend(a, b[..n]);
    }
  }

  /** `[{a: 1, b: 2}, {b: 3, c: 4}]` merges to `{a: 1, b: 3, c: 4}`. */
  lemma MergeExample()
    ensures MergeSpec([
      MetadataDict(map["a" := Int(1), "b" := Int(2)]),
      MetadataDict(map["b" := Int(3), "c" := Int(4)])])
      == map["a" := Int(1), "b" := Int(3), "c" := Int(4)]
  {
    var m1 := MetadataDict(map["a" := Int(1), "b" := Int(2)]);
    var m2 := MetadataDict(map["b" := Int(3), "c" := Int(4)]);
    MergeAppend([m1], [m2]);
    MergeSingle(m1);
    MergeSingle(m2);
    assert [m1] + [m2] == [m1, m2];
  }

  /** The dictionaries of single items, one per item. */
  function SingletonDicts(items: seq<MetadataItem>): (ds: seq<MetadataDict>)
    ensures |ds| == |items|
    ensures forall i :: 0 <= i < |items| ==> ds[i] == BuildDict(Single(items[i]))
  {
    seq(|items|, i requires 0 <= i < |items| => BuildDict(Single(items[i])))
  }

  /**
   * Building the dictionary of a list of items is merging the one-entry
   * dictionaries of its items, in order.
   */
  lemma {:induction false} BuildDictIsMerge(items: seq<MetadataItem>)
    ensures BuildDict(Collection(items)).data == MergeSpec(SingletonDicts(items))
  {
    PairsAreMerged(items);
  }

  lemma {:induction false} PairsAreMerged(items: seq<MetadataItem>)
    ensures PyDicts.FromPairs(Pairs(items)) == MergeSpec(SingletonDicts(items))
  {
    if |items| > 0 {
      var n := |items| - 1;
      PairsAreMerged(items[..n]);
      assert SingletonDicts(items)[..n] == SingletonDicts(items[..n]);
      assert Pairs(items)[..n] == Pairs(items[..n]);
    }
  }
}
