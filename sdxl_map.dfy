/**
 * The table that renames SDXL UNet parameters from the Stability AI naming to
 * the diffusers naming: `make_sdxl_unet_conversion_map` builds it as a list of
 * prefix pairs, and `SDXL_UNET_STABILITY_TO_DIFFUSERS_MAP` exports it as a
 * dict keyed by the Stability AI prefix written with `_` instead of `.`.
 */
module SdxlUnetMap {
  import opened PyStrings
  import opened PyDicts

  /** (Stability AI prefix, diffusers prefix) */
  type Pair = (string, string)

  function N(n: nat): string {
    NatToString(n)
  }

  // ---------------------------------------------------------------------
  // The entries each loop turn appends, as the f-strings write them

  function DownResnet(i: nat, j: nat): Pair {
    ("input_blocks." + N(3 * i + j + 1) + ".0.", "down_blocks." + N(i) + ".resnets." + N(j) + ".")
  }

  function DownAttention(i: nat, j: nat): Pair {
    ("input_blocks." + N(3 * i + j + 1) + ".1.", "down_blocks." + N(i) + ".attentions." + N(j) + ".")
  }

  function UpResnet(i: nat, j: nat): Pair {
    ("output_blocks." + N(3 * i + j) + ".0.", "up_blocks." + N(i) + ".resnets." + N(j) + ".")
  }

  function UpAttention(i: nat, j: nat): Pair {
    ("output_blocks." + N(3 * i + j) + ".1.", "up_blocks." + N(i) + ".attentions." + N(j) + ".")
  }

  function Downsample(i: nat): Pair {
    ("input_blocks." + N(3 * (i + 1)) + ".0.op.", "down_blocks." + N(i) + ".downsamplers.0.conv.")
  }

  function Upsample(i: nat): Pair {
    ("output_blocks." + N(3 * i + 2) + "." + N(2) + ".", "up_blocks." + N(i) + ".upsamplers.0.")
  }

  function MidAttention(): Pair {
    ("middle_block.1.", "mid_block.attentions.0.")
  }

  function MidResnet(j: nat): Pair {
    ("middle_block." + N(2 * j) + ".", "mid_block.resnets." + N(j) + ".")
  }

  function TimeEmbed(j: nat): Pair {
    ("time_embed." + N(j * 2) + ".", "time_embedding.linear_" + N(j + 1) + ".")
  }

  function LabelEmbed(j: nat): Pair {
    ("label_emb.0." + N(j * 2) + ".", "add_embedding.linear_" + N(j + 1) + ".")
  }

  /** The parameter renamings inside a resnet, appended to each resnet prefix. */
  const ResnetSuffixes: seq<Pair> := [
    ("in_layers.0.", "norm1."),
    ("in_layers.2.", "conv1."),
    ("out_layers.0.", "norm2."),
    ("out_layers.3.", "conv2."),
    ("emb_layers.1.", "time_emb_proj."),
    ("skip_connection.", "conv_shortcut.")
  ]

  // ---------------------------------------------------------------------
  // The list after each loop, given the list `acc` the loop started from

  /** The down-block loop for block `i` after `n` turns: a resnet, then an attention (`i < 3` always holds for SDXL). */
  function DownLoop(acc: seq<Pair>, i: nat, n: nat): seq<Pair> {
    if n == 0 then acc
    else
      var withResnet := DownLoop(acc, i, n - 1) + [DownResnet(i, n - 1)];
      if i < 3 then withResnet + [DownAttention(i, n - 1)] else withResnet
  }

  /** The up-block loop for block `i` after `n` turns: a resnet, then an attention. */
  function UpLoop(acc: seq<Pair>, i: nat, n: nat): seq<Pair> {
    if n == 0 then acc
    else UpLoop(acc, i, n - 1) + [UpResnet(i, n - 1)] + [UpAttention(i, n - 1)]
  }

  /** One turn of the outer block loop. */
  function Block(acc: seq<Pair>, i: nat): seq<Pair> {
    var ups := UpLoop(DownLoop(acc, i, 2), i, 3);
    if i < 3 then ups + [Downsample(i)] + [Upsample(i)] else ups
  }

  function Blocks(n: nat): seq<Pair> {
    if n == 0 then [] else Block(Blocks(n - 1), n - 1)
  }

  function MidLoop(acc: seq<Pair>, n: nat): seq<Pair> {
    if n == 0 then acc else MidLoop(acc, n - 1) + [MidResnet(n - 1)]
  }

  /** `unet_conversion_map_layer` once complete. */
  function LayerMap(): seq<Pair> {
    MidLoop(Blocks(3) + [MidAttention()], 2)
  }

  /** The first `m` resnet renamings of the prefixes `sd` and `hf`, appended to `acc`. */
  function ResnetLoop(acc: seq<Pair>, sd: string, hf: string, m: nat): seq<Pair>
    requires m <= |ResnetSuffixes|
  {
    if m == 0 then acc
    else ResnetLoop(acc, sd, hf, m - 1) + [(sd + ResnetSuffixes[m - 1].0, hf + ResnetSuffixes[m - 1].1)]
  }

  /** One turn of the expansion loop: a resnet layer becomes its six renamings, any other layer is kept. */
  function ExpandInto(acc: seq<Pair>, p: Pair): seq<Pair> {
    if Contains(p.1, "resnets") then ResnetLoop(acc, p.0, p.1, |ResnetSuffixes|) else acc + [p]
  }

  function Expand(layers: seq<Pair>): seq<Pair> {
    if |layers| == 0 then []
    else ExpandInto(Expand(layers[..|layers| - 1]), layers[|layers| - 1])
  }

  function TimeLoop(acc: seq<Pair>, n: nat): seq<Pair> {
    if n == 0 then acc else TimeLoop(acc, n - 1) + [TimeEmbed(n - 1)]
  }

  function LabelLoop(acc: seq<Pair>, n: nat): seq<Pair> {
    if n == 0 then acc else LabelLoop(acc, n - 1) + [LabelEmbed(n - 1)]
  }

  /** The list `make_sdxl_unet_conversion_map` returns. */
  function ConversionMap(): seq<Pair> {
    LabelLoop(TimeLoop(Expand(LayerMap()), 2), 2)
    + [("input_blocks.0.0.", "conv_in.")] + [("out.0.", "conv_norm_out.")] + [("out.2.", "conv_out.")]
  }

  // ---------------------------------------------------------------------
  // The builder

  /** The block loops and the middle block of `make_sdxl_unet_conversion_map`. */
  method BuildLayerMap() returns (layer: seq<Pair>)
    ensures layer == LayerMap()
  {
    layer := [];
    for i := 0 to 3
      invariant layer == Blocks(i)
    {
      ghost var start := layer;
      for j := 0 to 2
        invariant layer == DownLoop(start, i, j)
      {
        layer := layer + [DownResnet(i, j)];
        if i < 3 {
          layer := layer + [DownAttention(i, j)];
        }
      }
      ghost var downs := layer;
      for j := 0 to 3
        invariant layer == UpLoop(downs, i, j)
      {
        layer := layer + [UpResnet(i, j)];
        layer := layer + [UpAttention(i, j)];
      }
      if i < 3 {
        layer := layer + [Downsample(i)];
        layer := layer + [Upsample(i)];
      }
    }
    layer := layer + [MidAttention()];
    ghost var mids := layer;
    for j := 0 to 2
      invariant layer == MidLoop(mids, j)
    {
      layer := layer + [MidResnet(j)];
    }
  }

  /** The loop of `make_sdxl_unet_conversion_map` that expands each resnet layer into its parameters. */
  method ExpandLayers(layer: seq<Pair>) returns (conversion: seq<Pair>)
    ensures conversion == Expand(layer)
  {
    conversion := [];
    for k := 0 to |layer|
      invariant conversion == Expand(layer[..k])
    {
      assert layer[..k + 1][..k] == layer[..k];
      var (sd, hf) := layer[k];
      if Contains(hf, "resnets") {
        ghost var start := conversion;
        for m := 0 to |ResnetSuffixes|
          invariant conversion == ResnetLoop(start, sd, hf, m)
        {
          var (sdRes, hfRes) := ResnetSuffixes[m];
          conversion := conversion + [(sd + sdRes, hf + hfRes)];
        }
      } else {
        conversion := conversion + [(sd, hf)];
      }
    }
    assert layer[..|layer|] == layer;
  }

  /** `make_sdxl_unet_conversion_map` */
  method MakeSdxlUnetConversionMap() returns (conversion: seq<Pair>)
    ensures conversion == ConversionMap()
  {
    var layer := BuildLayerMap();
    conversion := ExpandLayers(layer);
    ghost var expanded := conversion;
    for j := 0 to 2
      invariant conversion == TimeLoop(expanded, j)
    {
      conversion := conversion + [TimeEmbed(j)];
    }
    ghost var timed := conversion;
    for j := 0 to 2
      invariant conversion == LabelLoop(timed, j)
    {
      conversion := conversion + [LabelEmbed(j)];
    }
    conversion := conversion + [("input_blocks.0.0.", "conv_in.")];
    conversion := conversion + [("out.0.", "conv_norm_out.")];
    conversion := conversion + [("out.2.", "conv_out.")];
  }

  // ---------------------------------------------------------------------
  // Properties of the expansion

  /** The renamings of a resnet are appended after `acc`: the prefixes with each suffix appended, in order. */
  lemma {:induction false} ResnetLoopEntries(acc: seq<Pair>, sd: string, hf: string, m: nat)
    requires m <= |ResnetSuffixes|
    ensures |ResnetLoop(acc, sd, hf, m)| == |acc| + m
    ensures ResnetLoop(acc, sd, hf, m)[..|acc|] == acc
    ensures forall k :: 0 <= k < m ==>
      ResnetLoop(acc, sd, hf, m)[|acc| + k] == (sd + ResnetSuffixes[k].0, hf + ResnetSuffixes[k].1)
  {
    if m > 0 {
      ResnetLoopEntries(acc, sd, hf, m - 1);
    }
  }

  /**
   * A layer whose diffusers prefix mentions "resnets" adds six pairs, its
   * prefixes with each resnet suffix appended; any other layer is added once.
   */
  lemma ExpandIntoShape(acc: seq<Pair>, p: Pair)
    ensures Contains(p.1, "resnets") ==>
      var r := ExpandInto(acc, p);
      |r| == |acc| + 6 && r[..|acc|] == acc
      && forall k :: 0 <= k < 6 ==> r[|acc| + k] == (p.0 + ResnetSuffixes[k].0, p.1 + ResnetSuffixes[k].1)
    ensures !Contains(p.1, "resnets") ==> ExpandInto(acc, p) == acc + [p]
  {
    ResnetLoopEntries(acc, p.0, p.1, 6);
  }

  /** The number of layers whose diffusers prefix mentions "resnets". */
  function ResnetCount(layers: seq<Pair>): nat {
    if |layers| == 0 then 0
    else ResnetCount(layers[..|layers| - 1]) + (if Contains(layers[|layers| - 1].1, "resnets") then 1 else 0)
  }

  /** Each resnet layer adds five pairs more than the layer count. */
  lemma {:induction false} ExpandLength(layers: seq<Pair>)
    ensures |Expand(layers)| == |layers| + 5 * ResnetCount(layers)
  {
    if |layers| > 0 {
      ExpandLength(layers[..|layers| - 1]);
      ExpandIntoShape(Expand(layers[..|layers| - 1]), layers[|layers| - 1]);
    }
  }

  /** Expanding keeps the layers in order: the expansion of every prefix of the layers begins the whole expansion. */
  lemma {:induction false} ExpandKeepsOrder(layers: seq<Pair>, j: nat)
    requires j <= |layers|
    ensures |Expand(layers[..j])| <= |Expand(layers)|
    ensures Expand(layers)[..|Expand(layers[..j])|] == Expand(layers[..j])
    decreases |layers| - j
  {
    if j == |layers| {
      assert layers[..j] == layers;
    } else {
      ExpandKeepsOrder(layers, j + 1);
      assert layers[..j + 1][..j] == layers[..j];
      var before := Expand(layers[..j]);
      ExpandIntoShape(before, layers[j]);
      var after := Expand(layers[..j + 1]);
      assert after[..|before|] == before;
    }
  }

  // ---------------------------------------------------------------------
  // The exported dict

  /** `s.rstrip(".").replace(".", "_")` */
  function Export(s: string): string {
    ReplaceAll(RStrip(s, '.'), ".", "_")
  }

  /**
   * An exported name is the name without its trailing dots, with every
   * remaining `.` turned into `_`; it holds no `.`.
   */
  lemma ExportShape(s: string)
    ensures '.' !in Export(s)
    ensures |Export(s)| <= |s| && (|Export(s)| == 0 || Export(s)[|Export(s)| - 1] != '.')
    ensures forall i :: |Export(s)| <= i < |s| ==> s[i] == '.'
    ensures forall i :: 0 <= i < |Export(s)| ==> Export(s)[i] == (if s[i] == '.' then '_' else s[i])
  {
    ReplaceOneChar(RStrip(s, '.'), '.', '_');
  }

  /** Both prefixes of every pair exported. */
  function ExportPairs(pairs: seq<Pair>): (r: seq<Pair>)
    ensures |r| == |pairs|
    ensures forall k :: 0 <= k < |pairs| ==> r[k] == (Export(pairs[k].0), Export(pairs[k].1))
  {
    seq(|pairs|, k requires 0 <= k < |pairs| => (Export(pairs[k].0), Export(pairs[k].1)))
  }

  /** `{export(sd): export(hf) for sd, hf in pairs}` */
  function ExportTable(pairs: seq<Pair>): map<string, string> {
    FromPairs(ExportPairs(pairs))
  }


  /**
   * The exported dict has one key per exported Stability AI prefix; a
   * prefix that no later pair exports to the same name maps to its own
   * exported diffusers prefix.
   */
  lemma ExportTableEntries(pairs: seq<Pair>, i: nat)
    requires i < |pairs|
    requires forall j :: i < j < |pairs| ==> Export(pairs[j].0) != Export(pairs[i].0)
    ensures ExportTable(pairs).Keys == set k | 0 <= k < |pairs| :: Export(pairs[k].0)
    ensures ExportTable(pairs)[Export(pairs[i].0)] == Export(pairs[i].1)
  {
    ExportTableKeys(pairs);
    FromPairsLastWins(ExportPairs(pairs), i);
  }

  /** The exported dict's keys are the exported Stability AI prefixes. */
  lemma ExportTableKeys(pairs: seq<Pair>)
    ensures ExportTable(pairs).Keys == set k | 0 <= k < |pairs| :: Export(pairs[k].0)
  {
    var ps := ExportPairs(pairs);
    var names := set k | 0 <= k < |pairs| :: Export(pairs[k].0);
    forall x | x in KeysOf(ps) ensures x in names {
      var k :| 0 <= k < |ps| && ps[k].0 == x;
      assert Export(pairs[k].0) == x;
    }
    forall x | x in names ensures x in KeysOf(ps) {
      var k :| 0 <= k < |pairs| && Export(pairs[k].0) == x;
      assert ps[k].0 == x;
    }
  }

  // ---------------------------------------------------------------------
  // The Stability AI names the table renames

  /** `s` begins with `stem` and a name part follows it. */
  predicate StemmedBy(s: string, stem: string) {
    |stem| < |s| && s[..|stem|] == stem && s[|stem|] != '.'
  }

  /** A Stability AI prefix: one of the UNet's top-level module names, then a part of the module's path. */
  predicate StabilityPrefix(s: string) {
    StemmedBy(s, "input_blocks.") || StemmedBy(s, "output_blocks.") || StemmedBy(s, "middle_block.")
    || StemmedBy(s, "time_embed.") || StemmedBy(s, "label_emb.") || StemmedBy(s, "out.")
  }

  /** An exported Stability AI name: one of the top-level module names, written with `_`. */
  predicate StabilityName(k: string) {
    StartsWith(k, "input_blocks_") || StartsWith(k, "output_blocks_") || StartsWith(k, "middle_block_")
    || StartsWith(k, "time_embed_") || StartsWith(k, "label_emb_") || StartsWith(k, "out_")
  }

  predicate AllStability(ps: seq<Pair>) {
    forall k :: 0 <= k < |ps| ==> StabilityPrefix(ps[k].0)
  }

  lemma StemmedAppend(s: string, stem: string, t: string)
    requires StemmedBy(s, stem)
    ensures StemmedBy(s + t, stem)
  {
    assert (s + t)[..|stem|] == s[..|stem|];
  }

  lemma StemmedNumber(stem: string, n: nat)
    ensures StemmedBy(stem + N(n), stem)
  {
    assert (stem + N(n))[..|stem|] == stem;
    assert (stem + N(n))[|stem|] == N(n)[0];
  }

  lemma StabilityAppend(s: string, t: string)
    requires StabilityPrefix(s)
    ensures StabilityPrefix(s + t)
  {
    forall stem | StemmedBy(s, stem) ensures StemmedBy(s + t, stem) {
      StemmedAppend(s, stem, t);
    }
  }

  lemma AllStabilityAppend(a: seq<Pair>, b: seq<Pair>)
    requires AllStability(a) && AllStability(b)
    ensures AllStability(a + b)
  {
    forall k | 0 <= k < |a + b| ensures StabilityPrefix((a + b)[k].0) {
      if k >= |a| {
        assert (a + b)[k] == b[k - |a|];
      }
    }
  }

  /** The Stability AI side of every pair the block loops append. */
  lemma BlockPairsStemmed(i: nat, j: nat)
    ensures StabilityPrefix(DownResnet(i, j).0) && StabilityPrefix(DownAttention(i, j).0)
    ensures StabilityPrefix(UpResnet(i, j).0) && StabilityPrefix(UpAttention(i, j).0)
    ensures StabilityPrefix(Downsample(i).0) && StabilityPrefix(Upsample(i).0)
  {
    StemmedNumber("input_blocks.", 3 * i + j + 1);
    StemmedAppend("input_blocks." + N(3 * i + j + 1), "input_blocks.", ".0.");
    StemmedAppend("input_blocks." + N(3 * i + j + 1), "input_blocks.", ".1.");
    StemmedNumber("output_blocks.", 3 * i + j);
    StemmedAppend("output_blocks." + N(3 * i + j), "output_blocks.", ".0.");
    StemmedAppend("output_blocks." + N(3 * i + j), "output_blocks.", ".1.");
    StemmedNumber("input_blocks.", 3 * (i + 1));
    StemmedAppend("input_blocks." + N(3 * (i + 1)), "input_blocks.", ".0.op.");
    StemmedNumber("output_blocks.", 3 * i + 2);
    StabilityAppend("output_blocks." + N(3 * i + 2), ".");
    StabilityAppend("output_blocks." + N(3 * i + 2) + ".", N(2));
    StabilityAppend("output_blocks." + N(3 * i + 2) + "." + N(2), ".");
  }

  /** The Stability AI side of every pair appended outside the block loops. */
  lemma OtherPairsStemmed(j: nat)
    ensures StabilityPrefix(MidAttention().0) && StabilityPrefix(MidResnet(j).0)
    ensures StabilityPrefix(TimeEmbed(j).0) && StabilityPrefix(LabelEmbed(j).0)
    ensures StabilityPrefix("input_blocks.0.0.") && StabilityPrefix("out.0.") && StabilityPrefix("out.2.")
  {
    StemmedNumber("middle_block.", 2 * j);
    StemmedAppend("middle_block." + N(2 * j), "middle_block.", ".");
    StemmedNumber("time_embed.", j * 2);
    StemmedAppend("time_embed." + N(j * 2), "time_embed.", ".");
    assert StemmedBy("label_emb.0.", "label_emb.");
    StemmedAppend("label_emb.0.", "label_emb.", N(j * 2));
    StemmedAppend("label_emb.0." + N(j * 2), "label_emb.", ".");
  }

  lemma {:induction false} DownLoopStemmed(acc: seq<Pair>, i: nat, n: nat)
    requires AllStability(acc)
    ensures AllStability(DownLoop(acc, i, n))
  {
    if n > 0 {
      DownLoopStemmed(acc, i, n - 1);
      BlockPairsStemmed(i, n - 1);
      AllStabilityAppend(DownLoop(acc, i, n - 1), [DownResnet(i, n - 1)]);
      AllStabilityAppend(DownLoop(acc, i, n - 1) + [DownResnet(i, n - 1)], [DownAttention(i, n - 1)]);
    }
  }

  lemma {:induction false} UpLoopStemmed(acc: seq<Pair>, i: nat, n: nat)
    requires AllStability(acc)
    ensures AllStability(UpLoop(acc, i, n))
  {
    if n > 0 {
      UpLoopStemmed(acc, i, n - 1);
      BlockPairsStemmed(i, n - 1);
      AllStabilityAppend(UpLoop(acc, i, n - 1), [UpResnet(i, n - 1)]);
      AllStabilityAppend(UpLoop(acc, i, n - 1) + [UpResnet(i, n - 1)], [UpAttention(i, n - 1)]);
    }
  }

  lemma {:induction false} BlocksStemmed(n: nat)
    ensures AllStability(Blocks(n))
  {
    if n > 0 {
      var i := n - 1;
      BlocksStemmed(i);
      DownLoopStemmed(Blocks(i), i, 2);
      var ups := UpLoop(DownLoop(Blocks(i), i, 2), i, 3);
      UpLoopStemmed(DownLoop(Blocks(i), i, 2), i, 3);
      BlockPairsStemmed(i, 0);
      AllStabilityAppend(ups, [Downsample(i)]);
      AllStabilityAppend(ups + [Downsample(i)], [Upsample(i)]);
    }
  }

  lemma {:induction false} MidLoopStemmed(acc: seq<Pair>, n: nat)
    requires AllStability(acc)
    ensures AllStability(MidLoop(acc, n))
  {
    if n > 0 {
      MidLoopStemmed(acc, n - 1);
      OtherPairsStemmed(n - 1);
      AllStabilityAppend(MidLoop(acc, n - 1), [MidResnet(n - 1)]);
    }
  }

  lemma {:induction false} ResnetLoopStemmed(acc: seq<Pair>, sd: string, hf: string, m: nat)
    requires m <= |ResnetSuffixes|
    requires AllStability(acc) && StabilityPrefix(sd)
    ensures AllStability(ResnetLoop(acc, sd, hf, m))
  {
    if m > 0 {
      ResnetLoopStemmed(acc, sd, hf, m - 1);
      StabilityAppend(sd, ResnetSuffixes[m - 1].0);
      AllStabilityAppend(ResnetLoop(acc, sd, hf, m - 1), [(sd + ResnetSuffixes[m - 1].0, hf + ResnetSuffixes[m - 1].1)]);
    }
  }

  lemma {:induction false} ExpandStemmed(layers: seq<Pair>)
    requires AllStability(layers)
    ensures AllStability(Expand(layers))
  {
    if |layers| > 0 {
      var init := layers[..|layers| - 1];
      var p := layers[|layers| - 1];
      assert AllStability(init) by {
        forall k | 0 <= k < |init| ensures StabilityPrefix(init[k].0) {
          assert init[k] == layers[k];
        }
      }
      ExpandStemmed(init);
      if Contains(p.1, "resnets") {
        ResnetLoopStemmed(Expand(init), p.0, p.1, |ResnetSuffixes|);
      } else {
        AllStabilityAppend(Expand(init), [p]);
      }
    }
  }

  lemma {:induction false} TimeLoopStemmed(acc: seq<Pair>, n: nat)
    requires AllStability(acc)
    ensures AllStability(TimeLoop(acc, n))
  {
    if n > 0 {
      TimeLoopStemmed(acc, n - 1);
      OtherPairsStemmed(n - 1);
      AllStabilityAppend(TimeLoop(acc, n - 1), [TimeEmbed(n - 1)]);
    }
  }

  lemma {:induction false} LabelLoopStemmed(acc: seq<Pair>, n: nat)
    requires AllStability(acc)
    ensures AllStability(LabelLoop(acc, n))
  {
    if n > 0 {
      LabelLoopStemmed(acc, n - 1);
      OtherPairsStemmed(n - 1);
      AllStabilityAppend(LabelLoop(acc, n - 1), [LabelEmbed(n - 1)]);
    }
  }

  /** The conversion list built with any loop counts: every Stability AI prefix starts with a top-level module name. */
  lemma ConversionListStemmed(blocks: nat, mids: nat, times: nat, labels: nat)
    ensures AllStability(
      LabelLoop(TimeLoop(Expand(MidLoop(Blocks(blocks) + [MidAttention()], mids)), times), labels)
      + [("input_blocks.0.0.", "conv_in.")] + [("out.0.", "conv_norm_out.")] + [("out.2.", "conv_out.")])
  {
    BlocksStemmed(blocks);
    OtherPairsStemmed(0);
    AllStabilityAppend(Blocks(blocks), [MidAttention()]);
    var layers := MidLoop(Blocks(blocks) + [MidAttention()], mids);
    MidLoopStemmed(Blocks(blocks) + [MidAttention()], mids);
    ExpandStemmed(layers);
    TimeLoopStemmed(Expand(layers), times);
    LabelLoopStemmed(TimeLoop(Expand(layers), times), labels);
    var labelled := LabelLoop(TimeLoop(Expand(layers), times), labels);
    AllStabilityAppend(labelled, [("input_blocks.0.0.", "conv_in.")]);
    AllStabilityAppend(labelled + [("input_blocks.0.0.", "conv_in.")], [("out.0.", "conv_norm_out.")]);
    AllStabilityAppend(labelled + [("input_blocks.0.0.", "conv_in.")] + [("out.0.", "conv_norm_out.")], [("out.2.", "conv_out.")]);
  }

  /** Every Stability AI prefix of the conversion list starts with a top-level module name. */
  lemma ConversionMapStemmed()
    ensures AllStability(ConversionMap())
  {
    ConversionListStemmed(3, 2, 2, 2);
  }

  /** Exporting keeps the stem, with its `.` written as `_`. */
  lemma ExportKeepsStem(s: string, stem: string, exported: string)
    requires StemmedBy(s, stem)
    requires |exported| == |stem|
    requires forall i :: 0 <= i < |stem| ==> exported[i] == (if stem[i] == '.' then '_' else stem[i])
    ensures StartsWith(Export(s), exported)
  {
    ExportShape(s);
    assert s[|stem|] == s[..|stem| + 1][|stem|];
    assert |stem| < |Export(s)|;
    forall i | 0 <= i < |stem| ensures Export(s)[i] == exported[i] {
      assert s[i] == s[..|stem|][i];
    }
  }

  /** The exported name of a Stability AI prefix. */
  lemma ExportStemmed(s: string)
    requires StabilityPrefix(s)
    ensures StabilityName(Export(s))
  {
    if StemmedBy(s, "input_blocks.") {
      ExportKeepsStem(s, "input_blocks.", "input_blocks_");
    } else if StemmedBy(s, "output_blocks.") {
      ExportKeepsStem(s, "output_blocks.", "output_blocks_");
    } else if StemmedBy(s, "middle_block.") {
      ExportKeepsStem(s, "middle_block.", "middle_block_");
    } else if StemmedBy(s, "time_embed.") {
      ExportKeepsStem(s, "time_embed.", "time_embed_");
    } else if StemmedBy(s, "label_emb.") {
      ExportKeepsStem(s, "label_emb.", "label_emb_");
    } else {
      ExportKeepsStem(s, "out.", "out_");
    }
  }

  /** The keys exported from a list of Stability AI prefixes are Stability AI names. */
  lemma ExportedKeysStemmed(pairs: seq<Pair>)
    requires 0 < |pairs| && AllStability(pairs)
    ensures forall k | k in ExportTable(pairs) :: StabilityName(k)
  {
    ExportTableEntries(pairs, |pairs| - 1);
    forall k | k in ExportTable(pairs) ensures StabilityName(k) {
      var j :| 0 <= j < |pairs| && Export(pairs[j].0) == k;
      ExportStemmed(pairs[j].0);
    }
  }

  /** Every key of the exported table is a Stability AI name. */
  lemma TableKeysStemmed()
    ensures forall k | k in SdxlUnetStabilityToDiffusersMap() :: StabilityName(k)
  {
    ConversionMapStemmed();
    ExportedKeysStemmed(ConversionMap());
  }

  /** `SDXL_UNET_STABILITY_TO_DIFFUSERS_MAP`, which is not empty: its last pair gives it a key. */
  function SdxlUnetStabilityToDiffusersMap(): (table: map<string, string>)
    ensures table != map[]
  {
    var pairs := ConversionMap();
    ExportTableEntries(pairs, |pairs| - 1);
    ExportTable(pairs)
  }
}
