/**
 * The counts in numbers: what every structure of the slice takes, field by field in bytes, for any
 * array lengths, optional parts, extensions and feature bits.
 */
module CountExactly {
  import opened GuestTypes
  import opened Counting
  import opened NestedCount

  // ------------------------------------------------------------------ chains and feature bits

  /** The bytes of a chain's known nodes, and four for its end. */
  lemma ChainTotal(listed: set<u32>, bits: u32, chain: Chain)
    ensures ChainSize(listed, bits, chain) == 4 + Weight(listed, bits, chain)
  {
    ChainClosedForm(listed, bits, chain);
  }

  /** Bit 1 leaves ignored handles out, and bit 2 makes one structure known that is unknown otherwise. */
  lemma FeatureBits(bits: u32, high: nat, b2: nat, b1: nat, b0: nat, listed: set<u32>, sType: u32)
    requires b2 < 2 && b1 < 2 && b0 < 2 && bits == 8 * high + 4 * b2 + 2 * b1 + b0
    ensures IgnoredHandles(bits) <==> b1 == 1
    ensures Known(listed, bits, sType) <==> sType in listed && (sType == 1000082000 ==> b2 == 1)
  {
    assert bits / 2 == 2 * (2 * high + b2) + b1;
    assert bits / 4 == 2 * high + b2;
  }

  // ------------------------------------------------------------------ submissions and writes

  lemma SubmitTotal(listed: set<u32>, bits: u32, s: SubmitInfo)
    ensures SubmitSize(listed, bits, s)
         == 20 + 4 * s.waits + Weight(listed, bits, s.next)
          + 8 * s.waits % 4294967296 + 8 * s.commands % 4294967296 + 8 * s.signals % 4294967296
  {
    hide Weight;
    ChainTotal(listed, bits, s.next);
  }

  /** Each array of a write is counted if it is there and, under bit 1, of a type that refers to it. */
  lemma WriteTotal(listed: set<u32>, bits: u32, w: DescriptorWrite)
    ensures var images := w.hasImages && (IgnoredHandles(bits) ==> w.kind in {0, 1, 2, 3, 10});
            var buffers := w.hasBuffers && (IgnoredHandles(bits) ==> w.kind in {6, 7, 8, 9});
            var views := w.hasViews && (IgnoredHandles(bits) ==> w.kind in {4, 5});
            WriteSize(listed, bits, w) == 56 + Weight(listed, bits, w.next)
              + (if images then 20 * w.count else 0) + (if buffers then 24 * w.count else 0)
              + (if views then 8 * w.count % 4294967296 else 0)
  {
    hide Weight;
    ChainTotal(listed, bits, w.next);
  }

  // ---------------------------------------------------------------------- render passes

  /** The attachment references of a subpass. */
  function References(s: Subpass): nat {
    |s.inputs| + |s.colors| + (match s.resolves case None => 0 case Some(r) => |r|) + if s.depth.Some? then 1 else 0
  }

  function SubpassBytes(s: Subpass): nat { 48 + 20 * References(s) + 4 * s.preserved }

  function SubpassesBytes(subpasses: seq<Subpass>, n: nat): nat
    requires n <= |subpasses|
  {
    if n == 0 then 0 else SubpassesBytes(subpasses, n - 1) + SubpassBytes(subpasses[n - 1])
  }

  lemma {:induction false} EmptiedTotal(listed: set<u32>, bits: u32, chains: seq<Chain>, fields: nat, n: nat)
    requires n <= |chains|
    ensures FixedSizes(listed, bits, Emptied(chains), fields, n) == n * (8 + fields)
  {
    if n > 0 { EmptiedTotal(listed, bits, chains, fields, n - 1); }
  }

  /** A subpass: 48 bytes, 20 for every reference of any kind, and 4 for every preserved index. */
  lemma SubpassTotal(listed: set<u32>, bits: u32, s: Subpass)
    ensures SubpassSize(listed, bits, s)
         == 48 + 20 * References(s) + 4 * s.preserved + Weight(listed, bits, SubpassNodes(s))
  {
    hide Weight, SubpassNodes, FixedSizes, Emptied;
    SubpassWeight(listed, bits, s);
    EmptiedTotal(listed, bits, s.inputs, REFERENCE_FIELDS, |s.inputs|);
    EmptiedTotal(listed, bits, s.colors, REFERENCE_FIELDS, |s.colors|);
    EmptiedLength(s.inputs);
    EmptiedLength(s.colors);
    if s.resolves.Some? {
      EmptiedTotal(listed, bits, s.resolves.value, REFERENCE_FIELDS, |s.resolves.value|);
      EmptiedLength(s.resolves.value);
    }
  }

  lemma EmptiedLength(chains: seq<Chain>)
    ensures |Emptied(chains)| == |chains|
  {
  }

  lemma {:induction false} SubpassesTotal(listed: set<u32>, bits: u32, subpasses: seq<Subpass>, n: nat)
    requires n <= |subpasses|
    ensures SubpassesSize(listed, bits, subpasses, n)
         == SubpassesBytes(subpasses, n) + Weight(listed, bits, SubpassesNodes(subpasses, n))
  {
    hide Weight, SubpassSize, SubpassNodes;
    if n == 0 {
      NoWeight(listed, bits);
    } else {
      SubpassesTotal(listed, bits, subpasses, n - 1);
      SubpassTotal(listed, bits, subpasses[n - 1]);
      WeightSum(listed, bits, SubpassesNodes(subpasses, n - 1), SubpassNodes(subpasses[n - 1]));
    }
  }

  /**
   * A render pass: 28 bytes, 44 for every attachment, 40 for every dependency, 4 for every correlated
   * mask, its subpasses, and the known extensions wherever they hang.
   */
  lemma RenderPassTotal(listed: set<u32>, bits: u32, r: RenderPass)
    ensures RenderPassSize(listed, bits, r)
         == 28 + 44 * |r.attachments| + 40 * |r.dependencies| + 4 * r.masks
          + SubpassesBytes(r.subpasses, |r.subpasses|) + Weight(listed, bits, RenderPassNodes(r))
  {
    hide Weight, FixedSizes, Emptied, AllJoined, SubpassesNodes, SubpassesSize, SubpassesBytes, ChainSize;
    var joined, nodes := AllJoined(r.attachments), SubpassesNodes(r.subpasses, |r.subpasses|);
    ChainTotal(listed, bits, r.next);
    ArrayTotal(listed, bits, r.attachments, ATTACHMENT_FIELDS);
    ArrayTotal(listed, bits, r.dependencies, DEPENDENCY_FIELDS);
    SubpassesTotal(listed, bits, r.subpasses, |r.subpasses|);
    WeightSum4(listed, bits, r.next, joined, nodes, AllJoined(r.dependencies));
  }

  lemma ArrayTotal(listed: set<u32>, bits: u32, chains: seq<Chain>, fields: nat)
    ensures AllFixed(listed, bits, chains, fields)
         == |chains| * (8 + fields) + Weight(listed, bits, AllJoined(chains))
  {
    hide Weight, FixedSizes, Emptied, AllJoined;
    AllFixedWeight(listed, bits, chains, fields);
    EmptiedTotal(listed, bits, chains, fields, |chains|);
    EmptiedLength(chains);
  }

  // ------------------------------------------------------------------------ pipelines

  /** A shader stage: 36 bytes, its name, and its specialization constants. */
  function StageBytes(s: ShaderStage): nat {
    36 + s.nameLength + match s.specialization case None => 0 case Some(x) => 12 + 16 * x.entries + x.dataSize
  }

  function StagesBytes(stages: seq<ShaderStage>, n: nat): nat
    requires n <= |stages|
  {
    if n == 0 then 0 else StagesBytes(stages, n - 1) + StageBytes(stages[n - 1])
  }

  /** The four states that only matter when something is rasterized. */
  function RasterizedBytes(p: Pipeline): nat {
    (match p.viewport case None => 0
                      case Some(v) => 36 + (if v.hasViewports then 24 * v.viewports else 0)
                                         + (if v.hasScissors then 16 * v.scissors else 0))
    + (match p.multisample case None => 0
                           case Some(m) => 40 + if m.hasMask then (m.samples + 31) % 4294967296 / 32 * 4 else 0)
    + (if p.depthStencil.Some? then 96 else 0)
    + (match p.colorBlend case None => 0 case Some(b) => 40 + 32 * b.attachments)
  }

  /** Some stage is a tessellation control or evaluation shader. */
  predicate Tessellates(p: Pipeline) { exists i | 0 <= i < |p.stages| :: p.stages[i].stage == 2 || p.stages[i].stage == 4 }

  /** Rasterizer discard is off, or may be turned off later. */
  predicate Rasterizes(p: Pipeline) {
    || (p.rasterization.Some? && !p.rasterization.value.discard)
    || (p.dynamic.Some? && 1000377001 in p.dynamic.value.states)
  }

  /** What a pipeline takes besides its extensions. */
  function PipelineBytes(bits: u32, p: Pipeline): nat {
    (if IgnoredHandles(bits) then 128 else 120)
    + StagesBytes(p.stages, |p.stages|)
    + (match p.vertexInput case None => 0 case Some(v) => 20 + 12 * v.bindings + 16 * v.attributes)
    + (if p.inputAssembly.Some? then 20 else 0)
    + (if p.tessellation.Some? && (IgnoredHandles(bits) ==> Tessellates(p)) then 16 else 0)
    + (if p.rasterization.Some? then 52 else 0)
    + (if IgnoredHandles(bits) ==> Rasterizes(p) then RasterizedBytes(p) else 0)
    + (match p.dynamic case None => 0 case Some(d) => 16 + 4 * |d.states|)
  }

  lemma FlagsAre(p: Pipeline)
    ensures HasTessellation(p) <==> Tessellates(p)
    ensures HasRasterization(p) <==> Rasterizes(p)
  {
    if Tessellates(p) {
      var i :| 0 <= i < |p.stages| && (p.stages[i].stage == 2 || p.stages[i].stage == 4);
      assert p.stages[i] in p.stages;
    }
  }

  lemma RasterizedTotal(listed: set<u32>, bits: u32, p: Pipeline)
    ensures RasterizedPart(listed, bits, BarePipeline(p)) == RasterizedBytes(p)
  {
    hide ChainSize;
    NoChain(listed, bits);
  }

  lemma NoChain(listed: set<u32>, bits: u32)
    ensures ChainSize(listed, bits, []) == 4
  {
  }

  lemma InputTotal(listed: set<u32>, bits: u32, p: Pipeline)
    ensures var bare := BarePipeline(p);
            && VertexInputPart(listed, bits, bare)
               == (match p.vertexInput case None => 0 case Some(v) => 20 + 12 * v.bindings + 16 * v.attributes)
            && InputAssemblyPart(listed, bits, bare) == (if p.inputAssembly.Some? then 20 else 0)
            && TessellationPart(listed, bits, bare) == (if p.tessellation.Some? then 16 else 0)
            && RasterizationPart(listed, bits, bare) == (if p.rasterization.Some? then 52 else 0)
            && DynamicPart(listed, bits, bare) == (match p.dynamic case None => 0 case Some(d) => 16 + 4 * |d.states|)
  {
    hide ChainSize;
    NoChain(listed, bits);
  }

  lemma {:induction false} BareStagesTotal(listed: set<u32>, bits: u32, stages: seq<ShaderStage>, n: nat)
    requires n <= |stages|
    ensures StagesSize(listed, bits, BareStages(stages), n) == StagesBytes(stages, n)
  {
    hide ChainSize;
    NoChain(listed, bits);
    if n > 0 { BareStagesTotal(listed, bits, stages, n - 1); }
  }

  /** A pipeline: its parts in bytes, and the known extensions of the states that are counted. */
  lemma PipelineTotal(listed: set<u32>, bits: u32, p: Pipeline)
    ensures PipelineSize(listed, bits, p) == PipelineBytes(bits, p) + Weight(listed, bits, PipelineNodes(bits, p))
  {
    hide Weight, ChainSize, PipelineNodes, StagesSize, StagesBytes, BareStages, VertexInputPart, InputAssemblyPart,
         TessellationPart, RasterizationPart, RasterizedPart, DynamicPart, RasterizedBytes, HasTessellation,
         HasRasterization, Tessellates, Rasterizes;
    PipelineWeight(listed, bits, p);
    BareFlags(p);
    FlagsAre(p);
    NoChain(listed, bits);
    InputTotal(listed, bits, p);
    RasterizedTotal(listed, bits, p);
    BareStagesTotal(listed, bits, p.stages, |p.stages|);
    BareStagesLength(p.stages);
  }

  lemma BareStagesLength(stages: seq<ShaderStage>)
    ensures |BareStages(stages)| == |stages|
  {
  }
}
