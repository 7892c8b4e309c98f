/**
 * The generation metadata records of an image (`CoreMetadata`,
 * `LoRAMetadataField`, `ImageMetadata`) and their serialized form. All three
 * derive from a base model that leaves out every field whose value is `None`
 * when the record is turned into a document; that rule is modelled here as a
 * serializer and a parser that reads a document back into a record.
 */
module MetadataSchema {
  import opened Wrappers

  /** A Python float, carried as its 64-bit pattern: no field is computed on or range-checked. */
  datatype Float = Float(bits: bv64)

  /** A transport value: the closed set of kinds a metadata value can take. */
  datatype Value =
    | Null
    | Bool(b: bool)
    | Int(i: int)
    | Number(f: Float)
    | Str(s: string)
    | List(elems: seq<Value>)
    | Object(fields: map<string, Value>)

  /** A serialized record: field name to value. */
  type Document = map<string, Value>

  // The model and control references are defined and validated elsewhere;
  // here each is carried, untouched, as the document it serializes to.
  datatype MainModelField = MainModelField(doc: Document)
  datatype VaeModelField = VaeModelField(doc: Document)
  datatype LoRAModelField = LoRAModelField(doc: Document)
  datatype ControlField = ControlField(doc: Document)

  /** One LoRA applied to the generation and its weight. */
  datatype LoRAMetadataField = LoRAMetadataField(lora: LoRAModelField, weight: Float)

  /** The core generation metadata record; every `Option` field defaults to `None`. */
  datatype CoreMetadata = CoreMetadata(
    appVersion: string,
    generationMode: string,
    createdBy: Option<string>,
    positivePrompt: string,
    negativePrompt: string,
    width: int,
    height: int,
    seed: int,
    randDevice: string,
    cfgScale: Float,
    steps: int,
    scheduler: string,
    clipSkip: Option<int>,
    model: MainModelField,
    controlnets: seq<ControlField>,
    loras: seq<LoRAMetadataField>,
    vae: Option<VaeModelField>,
    // latents-to-latents
    strength: Option<Float>,
    initImage: Option<string>,
    // SDXL
    positiveStylePrompt: Option<string>,
    negativeStylePrompt: Option<string>,
    // SDXL refiner
    refinerModel: Option<MainModelField>,
    refinerCfgScale: Option<Float>,
    refinerSteps: Option<int>,
    refinerScheduler: Option<string>,
    refinerPositiveAestheticScore: Option<Float>,
    refinerNegativeAestheticScore: Option<Float>,
    refinerStart: Option<Float>)

  /** An image's metadata and workflow, each optional. */
  datatype ImageMetadata = ImageMetadata(metadata: Option<Document>, workflow: Option<Document>)

  // ---------------------------------------------------------------------
  // Field names

  /** The fields of the core record, in declaration order. */
  datatype Field =
    | AppVersion | GenerationMode | CreatedBy | PositivePrompt | NegativePrompt
    | Width | Height | Seed | RandDevice | CfgScale | Steps | Scheduler | ClipSkip
    | Model | Controlnets | Loras | Vae
    | Strength | InitImage
    | PositiveStylePrompt | NegativeStylePrompt
    | RefinerModel | RefinerCfgScale | RefinerSteps | RefinerScheduler
    | RefinerPositiveAestheticScore | RefinerNegativeAestheticScore | RefinerStart

  const AllFields: set<Field> := {
    AppVersion, GenerationMode, CreatedBy, PositivePrompt, NegativePrompt,
    Width, Height, Seed, RandDevice, CfgScale, Steps, Scheduler, ClipSkip,
    Model, Controlnets, Loras, Vae,
    Strength, InitImage,
    PositiveStylePrompt, NegativeStylePrompt,
    RefinerModel, RefinerCfgScale, RefinerSteps, RefinerScheduler,
    RefinerPositiveAestheticScore, RefinerNegativeAestheticScore, RefinerStart
  }

  /** The key a field is serialized under. */
  function Name(f: Field): string {
    match f
    case AppVersion => "app_version"
    case GenerationMode => "generation_mode"
    case CreatedBy => "created_by"
    case PositivePrompt => "positive_prompt"
    case NegativePrompt => "negative_prompt"
    case Width => "width"
    case Height => "height"
    case Seed => "seed"
    case RandDevice => "rand_device"
    case CfgScale => "cfg_scale"
    case Steps => "steps"
    case Scheduler => "scheduler"
    case ClipSkip => "clip_skip"
    case Model => "model"
    case Controlnets => "controlnets"
    case Loras => "loras"
    case Vae => "vae"
    case Strength => "strength"
    case InitImage => "init_image"
    case PositiveStylePrompt => "positive_style_prompt"
    case NegativeStylePrompt => "negative_style_prompt"
    case RefinerModel => "refiner_model"
    case RefinerCfgScale => "refiner_cfg_scale"
    case RefinerSteps => "refiner_steps"
    case RefinerScheduler => "refiner_scheduler"
    case RefinerPositiveAestheticScore => "refiner_positive_aesthetic_score"
    case RefinerNegativeAestheticScore => "refiner_negative_aesthetic_score"
    case RefinerStart => "refiner_start"
  }

  /** The field a key names, if any. */
  function FieldNamed(key: string): Option<Field> {
    match key
    case "app_version" => Some(AppVersion)
    case "generation_mode" => Some(GenerationMode)
    case "created_by" => Some(CreatedBy)
    case "positive_prompt" => Some(PositivePrompt)
    case "negative_prompt" => Some(NegativePrompt)
    case "width" => Some(Width)
    case "height" => Some(Height)
    case "seed" => Some(Seed)
    case "rand_device" => Some(RandDevice)
    case "cfg_scale" => Some(CfgScale)
    case "steps" => Some(Steps)
    case "scheduler" => Some(Scheduler)
    case "clip_skip" => Some(ClipSkip)
    case "model" => Some(Model)
    case "controlnets" => Some(Controlnets)
    case "loras" => Some(Loras)
    case "vae" => Some(Vae)
    case "strength" => Some(Strength)
    case "init_image" => Some(InitImage)
    case "positive_style_prompt" => Some(PositiveStylePrompt)
    case "negative_style_prompt" => Some(NegativeStylePrompt)
    case "refiner_model" => Some(RefinerModel)
    case "refiner_cfg_scale" => Some(RefinerCfgScale)
    case "refiner_steps" => Some(RefinerSteps)
    case "refiner_scheduler" => Some(RefinerScheduler)
    case "refiner_positive_aesthetic_score" => Some(RefinerPositiveAestheticScore)
    case "refiner_negative_aesthetic_score" => Some(RefinerNegativeAestheticScore)
    case "refiner_start" => Some(RefinerStart)
    case _ => None
  }

  lemma PromptsNamesRoundTrip(f: Field)
    requires f in {AppVersion, GenerationMode, CreatedBy, PositivePrompt, NegativePrompt}
    ensures FieldNamed(Name(f)) == Some(f)
  {
  }

  lemma SamplingNamesRoundTrip(f: Field)
    requires f in {Width, Height, Seed, RandDevice, CfgScale, Steps, Scheduler, ClipSkip}
    ensures FieldNamed(Name(f)) == Some(f)
  {
  }

  lemma ModelsNamesRoundTrip(f: Field)
    requires f in {Model, Controlnets, Loras, Vae}
    ensures FieldNamed(Name(f)) == Some(f)
  {
  }

  lemma LatentsAndSdxlNamesRoundTrip(f: Field)
    requires f in {Strength, InitImage, PositiveStylePrompt, NegativeStylePrompt}
    ensures FieldNamed(Name(f)) == Some(f)
  {
  }

  lemma RefinerNamesRoundTrip(f: Field)
    requires f in {RefinerModel, RefinerCfgScale, RefinerSteps, RefinerScheduler}
    ensures FieldNamed(Name(f)) == Some(f)
  {
  }

  lemma RefinerScoreNamesRoundTrip(f: Field)
    requires f in {RefinerPositiveAestheticScore, RefinerNegativeAestheticScore}
    ensures FieldNamed(Name(f)) == Some(f)
  {
  }

  lemma RefinerStartNameRoundTrip()
    ensures FieldNamed(Name(RefinerStart)) == Some(RefinerStart)
  {
  }

  lemma NameRoundTrip(f: Field)
    ensures FieldNamed(Name(f)) == Some(f)
  {
    if f in {AppVersion, GenerationMode, CreatedBy, PositivePrompt, NegativePrompt} {
      PromptsNamesRoundTrip(f);
    } else if f in {Width, Height, Seed, RandDevice, CfgScale, Steps, Scheduler, ClipSkip} {
      SamplingNamesRoundTrip(f);
    } else if f in {Model, Controlnets, Loras, Vae} {
      ModelsNamesRoundTrip(f);
    } else if f in {Strength, InitImage, PositiveStylePrompt, NegativeStylePrompt} {
      LatentsAndSdxlNamesRoundTrip(f);
    } else if f in {RefinerModel, RefinerCfgScale, RefinerSteps, RefinerScheduler} {
      RefinerNamesRoundTrip(f);
    } else if f in {RefinerPositiveAestheticScore, RefinerNegativeAestheticScore} {
      RefinerScoreNamesRoundTrip(f);
    } else {
      RefinerStartNameRoundTrip();
    }
  }

  /** No two fields share a key. */
  lemma NamesDistinct()
    ensures forall f, g :: Name(f) == Name(g) ==> f == g
  {
    forall f, g | Name(f) == Name(g) ensures f == g {
      NameRoundTrip(f);
      NameRoundTrip(g);
    }
  }

  lemma AllFieldsListed(f: Field)
    ensures f in AllFields
  {
  }

  /** The keys of the core record's schema. */
  function FieldNames(): (names: set<string>)
    ensures forall f :: Name(f) in names
    ensures forall k | k in names :: exists f :: Name(f) == k
  {
    forall f ensures f in AllFields { AllFieldsListed(f); }
    set f | f in AllFields :: Name(f)
  }

  // ---------------------------------------------------------------------
  // Serialization that leaves out every field whose value is None.

  function EncodeLoRA(l: LoRAMetadataField): Value {
    Object(map["lora" := Object(l.lora.doc), "weight" := Number(l.weight)])
  }

  function EncodeLoRAs(ls: seq<LoRAMetadataField>): (vs: seq<Value>)
    ensures |vs| == |ls|
  {
    if |ls| == 0 then [] else [EncodeLoRA(ls[0])] + EncodeLoRAs(ls[1..])
  }

  function EncodeControls(cs: seq<ControlField>): (vs: seq<Value>)
    ensures |vs| == |cs|
  {
    if |cs| == 0 then [] else [Object(cs[0].doc)] + EncodeControls(cs[1..])
  }

  function StrOpt(o: Option<string>): Option<Value> {
    if o.Some? then Some(Str(o.value)) else None
  }

  function IntOpt(o: Option<int>): Option<Value> {
    if o.Some? then Some(Int(o.value)) else None
  }

  function FloatOpt(o: Option<Float>): Option<Value> {
    if o.Some? then Some(Number(o.value)) else None
  }

  function DocOpt(o: Option<Document>): Option<Value> {
    if o.Some? then Some(Object(o.value)) else None
  }

  /** The serialized value of one field of `c`; `None` when the field is an unset optional. */
  function FieldValue(c: CoreMetadata, f: Field): (v: Option<Value>)
    ensures v != Some(Null)
  {
    match f
    case AppVersion => Some(Str(c.appVersion))
    case GenerationMode => Some(Str(c.generationMode))
    case CreatedBy => StrOpt(c.createdBy)
    case PositivePrompt => Some(Str(c.positivePrompt))
    case NegativePrompt => Some(Str(c.negativePrompt))
    case Width => Some(Int(c.width))
    case Height => Some(Int(c.height))
    case Seed => Some(Int(c.seed))
    case RandDevice => Some(Str(c.randDevice))
    case CfgScale => Some(Number(c.cfgScale))
    case Steps => Some(Int(c.steps))
    case Scheduler => Some(Str(c.scheduler))
    case ClipSkip => IntOpt(c.clipSkip)
    case Model => Some(Object(c.model.doc))
    case Controlnets => Some(List(EncodeControls(c.controlnets)))
    case Loras => Some(List(EncodeLoRAs(c.loras)))
    case Vae => if c.vae.Some? then Some(Object(c.vae.value.doc)) else None
    case Strength => FloatOpt(c.strength)
    case InitImage => StrOpt(c.initImage)
    case PositiveStylePrompt => StrOpt(c.positiveStylePrompt)
    case NegativeStylePrompt => StrOpt(c.negativeStylePrompt)
    case RefinerModel => if c.refinerModel.Some? then Some(Object(c.refinerModel.value.doc)) else None
    case RefinerCfgScale => FloatOpt(c.refinerCfgScale)
    case RefinerSteps => IntOpt(c.refinerSteps)
    case RefinerScheduler => StrOpt(c.refinerScheduler)
    case RefinerPositiveAestheticScore => FloatOpt(c.refinerPositiveAestheticScore)
    case RefinerNegativeAestheticScore => FloatOpt(c.refinerNegativeAestheticScore)
    case RefinerStart => FloatOpt(c.refinerStart)
  }

  /** `d.get(key)` for a field's key. */
  function Lookup(d: Document, f: Field): Option<Value>
  {
    if Name(f) in d then Some(d[Name(f)]) else None
  }

  /**
   * `d` carries record `c`: under each field's key, the field's value, and no
   * key at all for an optional field that is None. Keys outside the schema
   * are not constrained.
   */
  predicate Describes(d: Document, c: CoreMetadata) {
    && DescribesPrompts(d, c)
    && DescribesSampling(d, c)
    && DescribesModels(d, c)
    && DescribesLatentsAndSdxl(d, c)
    && DescribesRefiner(d, c)
  }

  predicate DescribesPrompts(d: Document, c: CoreMetadata) {
    && Lookup(d, AppVersion) == Some(Str(c.appVersion))
    && Lookup(d, GenerationMode) == Some(Str(c.generationMode))
    && Lookup(d, CreatedBy) == StrOpt(c.createdBy)
    && Lookup(d, PositivePrompt) == Some(Str(c.positivePrompt))
    && Lookup(d, NegativePrompt) == Some(Str(c.negativePrompt))
  }

  predicate DescribesSampling(d: Document, c: CoreMetadata) {
    && Lookup(d, Width) == Some(Int(c.width))
    && Lookup(d, Height) == Some(Int(c.height))
    && Lookup(d, Seed) == Some(Int(c.seed))
    && Lookup(d, RandDevice) == Some(Str(c.randDevice))
    && Lookup(d, CfgScale) == Some(Number(c.cfgScale))
    && Lookup(d, Steps) == Some(Int(c.steps))
    && Lookup(d, Scheduler) == Some(Str(c.scheduler))
    && Lookup(d, ClipSkip) == IntOpt(c.clipSkip)
  }

  predicate DescribesModels(d: Document, c: CoreMetadata) {
    && Lookup(d, Model) == Some(Object(c.model.doc))
    && Lookup(d, Controlnets) == Some(List(EncodeControls(c.controlnets)))
    && Lookup(d, Loras) == Some(List(EncodeLoRAs(c.loras)))
    && Lookup(d, Vae) == (if c.vae.Some? then Some(Object(c.vae.value.doc)) else None)
  }

  predicate DescribesLatentsAndSdxl(d: Document, c: CoreMetadata) {
    && Lookup(d, Strength) == FloatOpt(c.strength)
    && Lookup(d, InitImage) == StrOpt(c.initImage)
    && Lookup(d, PositiveStylePrompt) == StrOpt(c.positiveStylePrompt)
    && Lookup(d, NegativeStylePrompt) == StrOpt(c.negativeStylePrompt)
  }

  predicate DescribesRefiner(d: Document, c: CoreMetadata) {
    && Lookup(d, RefinerModel) == (if c.refinerModel.Some? then Some(Object(c.refinerModel.value.doc)) else None)
    && Lookup(d, RefinerCfgScale) == FloatOpt(c.refinerCfgScale)
    && Lookup(d, RefinerSteps) == IntOpt(c.refinerSteps)
    && Lookup(d, RefinerScheduler) == StrOpt(c.refinerScheduler)
    && Lookup(d, RefinerPositiveAestheticScore) == FloatOpt(c.refinerPositiveAestheticScore)
    && Lookup(d, RefinerNegativeAestheticScore) == FloatOpt(c.refinerNegativeAestheticScore)
    && Lookup(d, RefinerStart) == FloatOpt(c.refinerStart)
  }

  /**
   * The null-excluding serialized form of a core metadata record: exactly the
   * fields that hold a value, each under its own key, and never a null.
   */
  function SerializeCore(c: CoreMetadata): (d: Document)
    ensures d.Keys <= FieldNames()
    ensures forall f :: Name(f) in d <==> FieldValue(c, f).Some?
    ensures forall f | Name(f) in d :: d[Name(f)] == FieldValue(c, f).value
    ensures forall k | k in d :: d[k] != Null
  {
    NamesDistinct();
    forall f ensures f in AllFields { AllFieldsListed(f); }
    map f | f in AllFields && FieldValue(c, f).Some? :: Name(f) := FieldValue(c, f).value
  }

  /** Serialization writes each field under its key, or leaves the key out. */
  lemma SerializedLookup(c: CoreMetadata, f: Field)
    ensures Lookup(SerializeCore(c), f) == FieldValue(c, f)
  {
  }

  lemma DescribesPromptsByLookup(d: Document, c: CoreMetadata)
    requires Lookup(d, AppVersion) == FieldValue(c, AppVersion)
    requires Lookup(d, GenerationMode) == FieldValue(c, GenerationMode)
    requires Lookup(d, CreatedBy) == FieldValue(c, CreatedBy)
    requires Lookup(d, PositivePrompt) == FieldValue(c, PositivePrompt)
    requires Lookup(d, NegativePrompt) == FieldValue(c, NegativePrompt)
    ensures DescribesPrompts(d, c)
  {
    PromptsValues(c);
  }

  lemma PromptsValues(c: CoreMetadata)
    ensures FieldValue(c, AppVersion) == Some(Str(c.appVersion))
    ensures FieldValue(c, GenerationMode) == Some(Str(c.generationMode))
    ensures FieldValue(c, CreatedBy) == StrOpt(c.createdBy)
    ensures FieldValue(c, PositivePrompt) == Some(Str(c.positivePrompt))
    ensures FieldValue(c, NegativePrompt) == Some(Str(c.negativePrompt))
  {
  }

  lemma SerializePrompts(c: CoreMetadata)
    ensures DescribesPrompts(SerializeCore(c), c)
  {
    SerializedLookup(c, AppVersion);
    SerializedLookup(c, GenerationMode);
    SerializedLookup(c, CreatedBy);
    SerializedLookup(c, PositivePrompt);
    SerializedLookup(c, NegativePrompt);
    DescribesPromptsByLookup(SerializeCore(c), c);
  }

  lemma DescribesSamplingByLookup(d: Document, c: CoreMetadata)
    requires Lookup(d, Width) == FieldValue(c, Width)
    requires Lookup(d, Height) == FieldValue(c, Height)
    requires Lookup(d, Seed) == FieldValue(c, Seed)
    requires Lookup(d, RandDevice) == FieldValue(c, RandDevice)
    requires Lookup(d, CfgScale) == FieldValue(c, CfgScale)
    requires Lookup(d, Steps) == FieldValue(c, Steps)
    requires Lookup(d, Scheduler) == FieldValue(c, Scheduler)
    requires Lookup(d, ClipSkip) == FieldValue(c, ClipSkip)
    ensures DescribesSampling(d, c)
  {
    SamplingValues(c);
  }

  lemma SamplingValues(c: CoreMetadata)
    ensures FieldValue(c, Width) == Some(Int(c.width))
    ensures FieldValue(c, Height) == Some(Int(c.height))
    ensures FieldValue(c, Seed) == Some(Int(c.seed))
    ensures FieldValue(c, RandDevice) == Some(Str(c.randDevice))
    ensures FieldValue(c, CfgScale) == Some(Number(c.cfgScale))
    ensures FieldValue(c, Steps) == Some(Int(c.steps))
    ensures FieldValue(c, Scheduler) == Some(Str(c.scheduler))
    ensures FieldValue(c, ClipSkip) == IntOpt(c.clipSkip)
  {
  }

  lemma SerializeSampling(c: CoreMetadata)
    ensures DescribesSampling(SerializeCore(c), c)
  {
    SerializedLookup(c, Width);
    SerializedLookup(c, Height);
    SerializedLookup(c, Seed);
    SerializedLookup(c, RandDevice);
    SerializedLookup(c, CfgScale);
    SerializedLookup(c, Steps);
    SerializedLookup(c, Scheduler);
    SerializedLookup(c, ClipSkip);
    DescribesSamplingByLookup(SerializeCore(c), c);
  }

  lemma DescribesModelsByLookup(d: Document, c: CoreMetadata)
    requires Lookup(d, Model) == FieldValue(c, Model)
    requires Lookup(d, Controlnets) == FieldValue(c, Controlnets)
    requires Lookup(d, Loras) == FieldValue(c, Loras)
    requires Lookup(d, Vae) == FieldValue(c, Vae)
    ensures DescribesModels(d, c)
  {
    ModelsValues(c);
  }

  lemma ModelsValues(c: CoreMetadata)
    ensures FieldValue(c, Model) == Some(Object(c.model.doc))
    ensures FieldValue(c, Controlnets) == Some(List(EncodeControls(c.controlnets)))
    ensures FieldValue(c, Loras) == Some(List(EncodeLoRAs(c.loras)))
    ensures FieldValue(c, Vae) == (if c.vae.Some? then Some(Object(c.vae.value.doc)) else None)
  {
  }

  lemma SerializeModels(c: CoreMetadata)
    ensures DescribesModels(SerializeCore(c), c)
  {
    SerializedLookup(c, Model);
    SerializedLookup(c, Controlnets);
    SerializedLookup(c, Loras);
    SerializedLookup(c, Vae);
    DescribesModelsByLookup(SerializeCore(c), c);
  }

  lemma DescribesLatentsAndSdxlByLookup(d: Document, c: CoreMetadata)
    requires Lookup(d, Strength) == FieldValue(c, Strength)
    requires Lookup(d, InitImage) == FieldValue(c, InitImage)
    requires Lookup(d, PositiveStylePrompt) == FieldValue(c, PositiveStylePrompt)
    requires Lookup(d, NegativeStylePrompt) == FieldValue(c, NegativeStylePrompt)
    ensures DescribesLatentsAndSdxl(d, c)
  {
    LatentsAndSdxlValues(c);
  }

  lemma LatentsAndSdxlValues(c: CoreMetadata)
    ensures FieldValue(c, Strength) == FloatOpt(c.strength)
    ensures FieldValue(c, InitImage) == StrOpt(c.initImage)
    ensures FieldValue(c, PositiveStylePrompt) == StrOpt(c.positiveStylePrompt)
    ensures FieldValue(c, NegativeStylePrompt) == StrOpt(c.negativeStylePrompt)
  {
  }

  lemma SerializeLatentsAndSdxl(c: CoreMetadata)
    ensures DescribesLatentsAndSdxl(SerializeCore(c), c)
  {
    SerializedLookup(c, Strength);
    SerializedLookup(c, InitImage);
    SerializedLookup(c, PositiveStylePrompt);
    SerializedLookup(c, NegativeStylePrompt);
    DescribesLatentsAndSdxlByLookup(SerializeCore(c), c);
  }

  lemma DescribesRefinerByLookup(d: Document, c: CoreMetadata)
    requires Lookup(d, RefinerModel) == FieldValue(c, RefinerModel)
    requires Lookup(d, RefinerCfgScale) == FieldValue(c, RefinerCfgScale)
    requires Lookup(d, RefinerSteps) == FieldValue(c, RefinerSteps)
    requires Lookup(d, RefinerScheduler) == FieldValue(c, RefinerScheduler)
    requires Lookup(d, RefinerPositiveAestheticScore) == FieldValue(c, RefinerPositiveAestheticScore)
    requires Lookup(d, RefinerNegativeAestheticScore) == FieldValue(c, RefinerNegativeAestheticScore)
    requires Lookup(d, RefinerStart) == FieldValue(c, RefinerStart)
    ensures DescribesRefiner(d, c)
  {
    RefinerValues(c);
    RefinerScoreValues(c);
  }

  lemma RefinerValues(c: CoreMetadata)
    ensures FieldValue(c, RefinerModel) == (if c.refinerModel.Some? then Some(Object(c.refinerModel.value.doc)) else None)
    ensures FieldValue(c, RefinerCfgScale) == FloatOpt(c.refinerCfgScale)
    ensures FieldValue(c, RefinerSteps) == IntOpt(c.refinerSteps)
    ensures FieldValue(c, RefinerScheduler) == StrOpt(c.refinerScheduler)
  {
  }

  lemma RefinerScoreValues(c: CoreMetadata)
    ensures FieldValue(c, RefinerPositiveAestheticScore) == FloatOpt(c.refinerPositiveAestheticScore)
    ensures FieldValue(c, RefinerNegativeAestheticScore) == FloatOpt(c.refinerNegativeAestheticScore)
    ensures FieldValue(c, RefinerStart) == FloatOpt(c.refinerStart)
  {
  }

  lemma SerializeRefiner(c: CoreMetadata)
    ensures DescribesRefiner(SerializeCore(c), c)
  {
    SerializedLookup(c, RefinerModel);
    SerializedLookup(c, RefinerCfgScale);
    SerializedLookup(c, RefinerSteps);
    SerializedLookup(c, RefinerScheduler);
    SerializedLookup(c, RefinerPositiveAestheticScore);
    SerializedLookup(c, RefinerNegativeAestheticScore);
    SerializedLookup(c, RefinerStart);
    DescribesRefinerByLookup(SerializeCore(c), c);
  }

  /** The serialized form carries the record, field by field. */
  lemma SerializeDescribes(c: CoreMetadata)
    ensures Describes(SerializeCore(c), c)
  {
    SerializePrompts(c);
    SerializeSampling(c);
    SerializeModels(c);
    SerializeLatentsAndSdxl(c);
    SerializeRefiner(c);
  }

  // ---------------------------------------------------------------------
  // Reading a document back into a record. Only values of the exact kind a
  // field declares are accepted; for an optional field, an absent key and a
  // null both read as None.

  function AsStr(v: Value): Option<string> {
    if v.Str? then Some(v.s) else None
  }

  function AsInt(v: Value): Option<int> {
    if v.Int? then Some(v.i) else None
  }

  function AsFloat(v: Value): Option<Float> {
    if v.Number? then Some(v.f) else None
  }

  function AsDoc(v: Value): Option<Document> {
    if v.Object? then Some(v.fields) else None
  }

  function AsLoRA(v: Value): Option<LoRAMetadataField> {
    var d :- AsDoc(v);
    if "lora" in d && "weight" in d then
      var lora :- AsDoc(d["lora"]);
      var weight :- AsFloat(d["weight"]);
      Some(LoRAMetadataField(LoRAModelField(lora), weight))
    else None
  }

  function AsLoRAs(vs: seq<Value>): Option<seq<LoRAMetadataField>> {
    if |vs| == 0 then Some([])
    else
      var l :- AsLoRA(vs[0]);
      var ls :- AsLoRAs(vs[1..]);
      Some([l] + ls)
  }

  function AsControls(vs: seq<Value>): Option<seq<ControlField>> {
    if |vs| == 0 then Some([])
    else
      var d :- AsDoc(vs[0]);
      var cs :- AsControls(vs[1..]);
      Some([ControlField(d)] + cs)
  }

  // An optional field reads as `Some(None)` when absent or null, and as
  // `None` (a validation error) when present with a value of another kind.

  function OptionalStr(d: Document, f: Field): Option<Option<string>> {
    match Lookup(d, f)
    case None => Some(None)
    case Some(Null) => Some(None)
    case Some(v) => var s :- AsStr(v); Some(Some(s))
  }

  function OptionalInt(d: Document, f: Field): Option<Option<int>> {
    match Lookup(d, f)
    case None => Some(None)
    case Some(Null) => Some(None)
    case Some(v) => var i :- AsInt(v); Some(Some(i))
  }

  function OptionalFloat(d: Document, f: Field): Option<Option<Float>> {
    match Lookup(d, f)
    case None => Some(None)
    case Some(Null) => Some(None)
    case Some(v) => var x :- AsFloat(v); Some(Some(x))
  }

  function OptionalDoc(d: Document, f: Field): Option<Option<Document>> {
    match Lookup(d, f)
    case None => Some(None)
    case Some(Null) => Some(None)
    case Some(v) => var x :- AsDoc(v); Some(Some(x))
  }

  // A required field is rejected when absent or of another kind.

  function RequiredStr(d: Document, f: Field): Option<string> {
    var v :- Lookup(d, f); AsStr(v)
  }

  function RequiredInt(d: Document, f: Field): Option<int> {
    var v :- Lookup(d, f); AsInt(v)
  }

  function RequiredFloat(d: Document, f: Field): Option<Float> {
    var v :- Lookup(d, f); AsFloat(v)
  }

  function RequiredDoc(d: Document, f: Field): Option<Document> {
    var v :- Lookup(d, f); AsDoc(v)
  }

  // The record is validated field group by field group; a failure in any
  // group rejects the whole document.

  function ParsePrompts(d: Document, runningVersion: string): Option<(string, string, Option<string>, string, string)> {
    var appVersion :- if Name(AppVersion) in d then AsStr(d[Name(AppVersion)]) else Some(runningVersion);
    var generationMode :- RequiredStr(d, GenerationMode);
    var createdBy :- OptionalStr(d, CreatedBy);
    var positivePrompt :- RequiredStr(d, PositivePrompt);
    var negativePrompt :- RequiredStr(d, NegativePrompt);
    Some((appVersion, generationMode, createdBy, positivePrompt, negativePrompt))
  }

  function ParseSampling(d: Document): Option<(int, int, int, string, Float, int, string, Option<int>)> {
    var width :- RequiredInt(d, Width);
    var height :- RequiredInt(d, Height);
    var seed :- RequiredInt(d, Seed);
    var randDevice :- RequiredStr(d, RandDevice);
    var cfgScale :- RequiredFloat(d, CfgScale);
    var steps :- RequiredInt(d, Steps);
    var scheduler :- RequiredStr(d, Scheduler);
    var clipSkip :- OptionalInt(d, ClipSkip);
    Some((width, height, seed, randDevice, cfgScale, steps, scheduler, clipSkip))
  }

  function ParseModels(d: Document): Option<(MainModelField, seq<ControlField>, seq<LoRAMetadataField>, Option<VaeModelField>)> {
    var model :- RequiredDoc(d, Model);
    var controlnets :- Lookup(d, Controlnets);
    var controlnets :- if controlnets.List? then AsControls(controlnets.elems) else None;
    var loras :- Lookup(d, Loras);
    var loras :- if loras.List? then AsLoRAs(loras.elems) else None;
    var vae :- OptionalDoc(d, Vae);
    Some((MainModelField(model), controlnets, loras, if vae.Some? then Some(VaeModelField(vae.value)) else None))
  }

  function ParseLatentsAndSdxl(d: Document): Option<(Option<Float>, Option<string>, Option<string>, Option<string>)> {
    var strength :- OptionalFloat(d, Strength);
    var initImage :- OptionalStr(d, InitImage);
    var positiveStylePrompt :- OptionalStr(d, PositiveStylePrompt);
    var negativeStylePrompt :- OptionalStr(d, NegativeStylePrompt);
    Some((strength, initImage, positiveStylePrompt, negativeStylePrompt))
  }

  function ParseRefiner(d: Document):
    Option<(Option<MainModelField>, Option<Float>, Option<int>, Option<string>, Option<Float>, Option<Float>, Option<Float>)>
  {
    var refinerModel :- OptionalDoc(d, RefinerModel);
    var refinerCfgScale :- OptionalFloat(d, RefinerCfgScale);
    var refinerSteps :- OptionalInt(d, RefinerSteps);
    var refinerScheduler :- OptionalStr(d, RefinerScheduler);
    var refinerPositiveAestheticScore :- OptionalFloat(d, RefinerPositiveAestheticScore);
    var refinerNegativeAestheticScore :- OptionalFloat(d, RefinerNegativeAestheticScore);
    var refinerStart :- OptionalFloat(d, RefinerStart);
    Some((if refinerModel.Some? then Some(MainModelField(refinerModel.value)) else None,
          refinerCfgScale, refinerSteps, refinerScheduler,
          refinerPositiveAestheticScore, refinerNegativeAestheticScore, refinerStart))
  }

  /**
   * Validates a document as a core record. `app_version` falls back to the
   * running version when absent; keys outside the schema are ignored.
   */
  function ParseCore(d: Document, runningVersion: string): Option<CoreMetadata> {
    var p :- ParsePrompts(d, runningVersion);
    var s :- ParseSampling(d);
    var m :- ParseModels(d);
    var l :- ParseLatentsAndSdxl(d);
    var r :- ParseRefiner(d);
    Some(CoreMetadata(
      p.0, p.1, p.2, p.3, p.4,
      s.0, s.1, s.2, s.3, s.4, s.5, s.6, s.7,
      m.0, m.1, m.2, m.3,
      l.0, l.1, l.2, l.3,
      r.0, r.1, r.2, r.3, r.4, r.5, r.6))
  }

  lemma ReadStr(d: Document, f: Field, o: Option<string>)
    requires Lookup(d, f) == StrOpt(o)
    ensures OptionalStr(d, f) == Some(o)
  {
  }

  lemma ReadInt(d: Document, f: Field, o: Option<int>)
    requires Lookup(d, f) == IntOpt(o)
    ensures OptionalInt(d, f) == Some(o)
  {
  }

  lemma ReadFloat(d: Document, f: Field, o: Option<Float>)
    requires Lookup(d, f) == FloatOpt(o)
    ensures OptionalFloat(d, f) == Some(o)
  {
  }

  lemma ReadDoc(d: Document, f: Field, o: Option<Document>)
    requires Lookup(d, f) == DocOpt(o)
    ensures OptionalDoc(d, f) == Some(o)
  {
  }

  lemma {:induction false} LoRAsRoundTrip(ls: seq<LoRAMetadataField>)
    ensures AsLoRAs(EncodeLoRAs(ls)) == Some(ls)
  {
    if |ls| > 0 {
      assert AsLoRA(EncodeLoRA(ls[0])) == Some(ls[0]);
      assert EncodeLoRAs(ls)[1..] == EncodeLoRAs(ls[1..]);
      LoRAsRoundTrip(ls[1..]);
      assert [ls[0]] + ls[1..] == ls;
    }
  }

  lemma {:induction false} ControlsRoundTrip(cs: seq<ControlField>)
    ensures AsControls(EncodeControls(cs)) == Some(cs)
  {
    if |cs| > 0 {
      assert EncodeControls(cs)[1..] == EncodeControls(cs[1..]);
      ControlsRoundTrip(cs[1..]);
      assert [cs[0]] + cs[1..] == cs;
    }
  }

  lemma ParsePromptsDescribed(d: Document, runningVersion: string, c: CoreMetadata)
    requires DescribesPrompts(d, c)
    ensures ParsePrompts(d, runningVersion) ==
      Some((c.appVersion, c.generationMode, c.createdBy, c.positivePrompt, c.negativePrompt))
  {
    ReadStr(d, CreatedBy, c.createdBy);
  }

  lemma ParseSamplingDescribed(d: Document, c: CoreMetadata)
    requires DescribesSampling(d, c)
    ensures ParseSampling(d) ==
      Some((c.width, c.height, c.seed, c.randDevice, c.cfgScale, c.steps, c.scheduler, c.clipSkip))
  {
    ReadInt(d, ClipSkip, c.clipSkip);
  }

  lemma ParseModelsDescribed(d: Document, c: CoreMetadata)
    requires DescribesModels(d, c)
    ensures ParseModels(d) == Some((c.model, c.controlnets, c.loras, c.vae))
  {
    assert RequiredDoc(d, Model) == Some(c.model.doc);
    assert Lookup(d, Controlnets) == Some(List(EncodeControls(c.controlnets)));
    assert Lookup(d, Loras) == Some(List(EncodeLoRAs(c.loras)));
    LoRAsRoundTrip(c.loras);
    ControlsRoundTrip(c.controlnets);
    ReadDoc(d, Vae, if c.vae.Some? then Some(c.vae.value.doc) else None);
  }

  lemma ParseLatentsAndSdxlDescribed(d: Document, c: CoreMetadata)
    requires DescribesLatentsAndSdxl(d, c)
    ensures ParseLatentsAndSdxl(d) ==
      Some((c.strength, c.initImage, c.positiveStylePrompt, c.negativeStylePrompt))
  {
    ReadFloat(d, Strength, c.strength);
    ReadStr(d, InitImage, c.initImage);
    ReadStr(d, PositiveStylePrompt, c.positiveStylePrompt);
    ReadStr(d, NegativeStylePrompt, c.negativeStylePrompt);
  }

  lemma RefinerReads(d: Document, c: CoreMetadata)
    requires DescribesRefiner(d, c)
    ensures OptionalDoc(d, RefinerModel) == Some(if c.refinerModel.Some? then Some(c.refinerModel.value.doc) else None)
    ensures OptionalFloat(d, RefinerCfgScale) == Some(c.refinerCfgScale)
    ensures OptionalInt(d, RefinerSteps) == Some(c.refinerSteps)
    ensures OptionalStr(d, RefinerScheduler) == Some(c.refinerScheduler)
    ensures OptionalFloat(d, RefinerPositiveAestheticScore) == Some(c.refinerPositiveAestheticScore)
    ensures OptionalFloat(d, RefinerNegativeAestheticScore) == Some(c.refinerNegativeAestheticScore)
    ensures OptionalFloat(d, RefinerStart) == Some(c.refinerStart)
  {
    ReadDoc(d, RefinerModel, if c.refinerModel.Some? then Some(c.refinerModel.value.doc) else None);
    ReadFloat(d, RefinerCfgScale, c.refinerCfgScale);
    ReadInt(d, RefinerSteps, c.refinerSteps);
    ReadStr(d, RefinerScheduler, c.refinerScheduler);
    ReadFloat(d, RefinerPositiveAestheticScore, c.refinerPositiveAestheticScore);
    ReadFloat(d, RefinerNegativeAestheticScore, c.refinerNegativeAestheticScore);
    ReadFloat(d, RefinerStart, c.refinerStart);
  }

  lemma ParseRefinerDescribed(d: Document, c: CoreMetadata)
    requires DescribesRefiner(d, c)
    ensures ParseRefiner(d) ==
      Some((c.refinerModel, c.refinerCfgScale, c.refinerSteps, c.refinerScheduler,
            c.refinerPositiveAestheticScore, c.refinerNegativeAestheticScore, c.refinerStart))
  {
    RefinerReads(d, c);
  }

  /**
   * Any document that carries every field of `c` the way serialization
   * writes it validates to `c`, whatever other keys it holds.
   */
  lemma ParseDescribed(d: Document, runningVersion: string, c: CoreMetadata)
    requires Describes(d, c)
    ensures ParseCore(d, runningVersion) == Some(c)
  {
    ParsePromptsDescribed(d, runningVersion, c);
    ParseSamplingDescribed(d, c);
    ParseModelsDescribed(d, c);
    ParseLatentsAndSdxlDescribed(d, c);
    ParseRefinerDescribed(d, c);
  }

  /**
   * Reading back the serialized form of a record gives the record again,
   * whatever version is running: the version stored in the document wins
   * over the default.
   */
  lemma CoreRoundTrip(c: CoreMetadata, runningVersion: string)
    ensures ParseCore(SerializeCore(c), runningVersion) == Some(c)
  {
    SerializeDescribes(c);
    ParseDescribed(SerializeCore(c), runningVersion, c);
  }

  /** A LoRA entry serializes to its two keys and reads back unchanged. */
  lemma LoRARoundTrip(l: LoRAMetadataField)
    ensures EncodeLoRA(l).Object? && EncodeLoRA(l).fields.Keys == {"lora", "weight"}
    ensures AsLoRA(EncodeLoRA(l)) == Some(l)
  {
  }

  // ---------------------------------------------------------------------
  // Image metadata: two optional documents.

  /** The null-excluding serialized form of an image's metadata. */
  function SerializeImage(m: ImageMetadata): (d: Document)
    ensures "metadata" in d <==> m.metadata.Some?
    ensures "workflow" in d <==> m.workflow.Some?
    ensures d.Keys <= {"metadata", "workflow"}
    ensures forall k | k in d :: d[k] != Null
  {
    (if m.metadata.Some? then map["metadata" := Object(m.metadata.value)] else map[])
    + (if m.workflow.Some? then map["workflow" := Object(m.workflow.value)] else map[])
  }

  /** Reads one optional document: absent or null is None, another kind is rejected. */
  function OptionalObject(d: Document, key: string): Option<Option<Document>> {
    if key !in d || d[key] == Null then Some(None)
    else var x :- AsDoc(d[key]); Some(Some(x))
  }

  function ParseImage(d: Document): Option<ImageMetadata> {
    var metadata :- OptionalObject(d, "metadata");
    var workflow :- OptionalObject(d, "workflow");
    Some(ImageMetadata(metadata, workflow))
  }

  /** Reading back an image's serialized metadata gives it again. */
  lemma ImageRoundTrip(m: ImageMetadata)
    ensures ParseImage(SerializeImage(m)) == Some(m)
  {
  }
}
