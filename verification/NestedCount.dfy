/**
 * What the extension chains nested anywhere in a render pass or a pipeline contribute to its count:
 * the known nodes of all of them, wherever they hang and in whatever order.
 */
module NestedCount {
  import opened GuestTypes
  import opened Counting

  // ------------------------------------------------------------------------ chains

  /** What the known nodes of a chain take. */
  function Weight(listed: set<u32>, bits: u32, chain: Chain): nat { KnownBytes(listed, bits, chain, |chain|) }

  lemma ChainWeight(listed: set<u32>, bits: u32, chain: Chain)
    ensures ChainSize(listed, bits, chain) == ChainSize(listed, bits, []) + Weight(listed, bits, chain)
  {
    ChainClosedForm(listed, bits, chain);
    ChainClosedForm(listed, bits, []);
  }

  lemma {:induction false} WeightJoin(listed: set<u32>, bits: u32, a: Chain, b: Chain, n: nat)
    requires n <= |b|
    ensures KnownBytes(listed, bits, a + b, |a| + n) == Weight(listed, bits, a) + KnownBytes(listed, bits, b, n)
  {
    if n == 0 {
      SamePrefix(listed, bits, a, a + b, |a|);
    } else {
      WeightJoin(listed, bits, a, b, n - 1);
    }
  }

  lemma WeightSum(listed: set<u32>, bits: u32, a: Chain, b: Chain)
    ensures Weight(listed, bits, a + b) == Weight(listed, bits, a) + Weight(listed, bits, b)
  {
    WeightJoin(listed, bits, a, b, |b|);
  }

  /** The nodes that are counted. */
  function Sieve(listed: set<u32>, bits: u32, chain: Chain): Chain {
    if chain == [] then []
    else
      var last := |chain| - 1;
      Sieve(listed, bits, chain[..last]) + if Known(listed, bits, chain[last].sType) then [chain[last]] else []
  }

  lemma {:induction false} WeightSieve(listed: set<u32>, bits: u32, chain: Chain)
    ensures Weight(listed, bits, Sieve(listed, bits, chain)) == Weight(listed, bits, chain)
  {
    hide Known;
    if chain != [] {
      var last := |chain| - 1;
      var front := Sieve(listed, bits, chain[..last]);
      WeightSieve(listed, bits, chain[..last]);
      WeightSum(listed, bits, front, [chain[last]]);
      SamePrefix(listed, bits, chain, chain[..last], last);
      assert front + [] == front;
      OneWeight(listed, bits, chain[last]);
    }
  }

  lemma OneWeight(listed: set<u32>, bits: u32, node: Node)
    ensures Weight(listed, bits, [node]) == if Known(listed, bits, node.sType) then 12 + node.own else 0
  {
    assert KnownBytes(listed, bits, [node], 0) == 0;
  }

  /** The same known nodes, in any order and with any others among them. */
  predicate SameKnown(listed: set<u32>, bits: u32, a: Chain, b: Chain) {
    multiset(Sieve(listed, bits, a)) == multiset(Sieve(listed, bits, b))
  }

  lemma SameKnownWeight(listed: set<u32>, bits: u32, a: Chain, b: Chain)
    requires SameKnown(listed, bits, a, b)
    ensures Weight(listed, bits, a) == Weight(listed, bits, b)
  {
    hide Sieve;
    var a', b' := Sieve(listed, bits, a), Sieve(listed, bits, b);
    WeightSieve(listed, bits, a);
    WeightSieve(listed, bits, b);
    PermutedChain(listed, bits, a', b');
    ChainWeight(listed, bits, a');
    ChainWeight(listed, bits, b');
  }

  lemma WeightInserted(listed: set<u32>, bits: u32, a: Chain, node: Node, b: Chain)
    ensures Weight(listed, bits, a + [node] + b)
         == Weight(listed, bits, a + b) + if Known(listed, bits, node.sType) then 12 + node.own else 0
  {
    hide Weight, Known;
    WeightSum(listed, bits, a, b);
    WeightSum(listed, bits, a, [node]);
    WeightSum(listed, bits, a + [node], b);
    OneWeight(listed, bits, node);
  }

  /** The first n chains one after the other. */
  function Joined(chains: seq<Chain>, n: nat): Chain
    requires n <= |chains|
  {
    if n == 0 then [] else Joined(chains, n - 1) + chains[n - 1]
  }

  function AllJoined(chains: seq<Chain>): Chain { Joined(chains, |chains|) }

  function Emptied(chains: seq<Chain>): seq<Chain> { seq(|chains|, i => []) }

  lemma NoWeight(listed: set<u32>, bits: u32)
    ensures Weight(listed, bits, []) == 0
  {
  }

  lemma {:induction false} FixedSizesWeight(listed: set<u32>, bits: u32, chains: seq<Chain>, fields: nat, n: nat)
    requires n <= |chains|
    ensures FixedSizes(listed, bits, chains, fields, n)
         == FixedSizes(listed, bits, Emptied(chains), fields, n) + Weight(listed, bits, Joined(chains, n))
  {
    hide Weight, ChainSize;
    if n == 0 {
      NoWeight(listed, bits);
    } else {
      FixedSizesWeight(listed, bits, chains, fields, n - 1);
      ChainWeight(listed, bits, chains[n - 1]);
      WeightSum(listed, bits, Joined(chains, n - 1), chains[n - 1]);
    }
  }

  lemma AllFixedWeight(listed: set<u32>, bits: u32, chains: seq<Chain>, fields: nat)
    ensures AllFixed(listed, bits, chains, fields)
         == AllFixed(listed, bits, Emptied(chains), fields) + Weight(listed, bits, AllJoined(chains))
  {
    hide FixedSizes, Weight;
    FixedSizesWeight(listed, bits, chains, fields, |chains|);
  }

  lemma FixedWeight(listed: set<u32>, bits: u32, chain: Chain, fields: nat)
    ensures FixedSize(listed, bits, chain, fields) == FixedSize(listed, bits, [], fields) + Weight(listed, bits, chain)
  {
    ChainWeight(listed, bits, chain);
  }

  // ---------------------------------------------------------------------- render passes

  function OptionalChain(c: Option<Chain>): Chain { match c case None => [] case Some(chain) => chain }

  function OptionalChains(c: Option<seq<Chain>>): Chain { match c case None => [] case Some(chains) => AllJoined(chains) }

  function EmptiedChain(c: Option<Chain>): Option<Chain> { match c case None => None case Some(_) => Some([]) }

  function EmptiedChains(c: Option<seq<Chain>>): Option<seq<Chain>> {
    match c case None => None case Some(chains) => Some(Emptied(chains))
  }

  /** Every node of every chain of a subpass, and the subpass without any of them. */
  function SubpassNodes(s: Subpass): Chain {
    s.next + AllJoined(s.inputs) + AllJoined(s.colors) + OptionalChains(s.resolves) + OptionalChain(s.depth)
  }

  function BareSubpass(s: Subpass): Subpass {
    Subpass([], Emptied(s.inputs), Emptied(s.colors), EmptiedChains(s.resolves), EmptiedChain(s.depth), s.preserved)
  }

  lemma WeightSum4(listed: set<u32>, bits: u32, a: Chain, b: Chain, c: Chain, d: Chain)
    ensures Weight(listed, bits, a + b + c + d)
         == Weight(listed, bits, a) + Weight(listed, bits, b) + Weight(listed, bits, c) + Weight(listed, bits, d)
  {
    hide Weight;
    WeightSum(listed, bits, a, b);
    WeightSum(listed, bits, a + b, c);
    WeightSum(listed, bits, a + b + c, d);
  }

  lemma WeightSum5(listed: set<u32>, bits: u32, a: Chain, b: Chain, c: Chain, d: Chain, e: Chain)
    ensures Weight(listed, bits, a + b + c + d + e)
         == Weight(listed, bits, a) + Weight(listed, bits, b) + Weight(listed, bits, c) + Weight(listed, bits, d)
          + Weight(listed, bits, e)
  {
    hide Weight;
    WeightSum4(listed, bits, a, b, c, d);
    WeightSum(listed, bits, a + b + c + d, e);
  }

  lemma SubpassWeight(listed: set<u32>, bits: u32, s: Subpass)
    ensures SubpassSize(listed, bits, s)
         == SubpassSize(listed, bits, BareSubpass(s)) + Weight(listed, bits, SubpassNodes(s))
  {
    hide Weight, AllFixed, FixedSize, ChainSize, AllJoined, Emptied;
    NoWeight(listed, bits);
    ChainWeight(listed, bits, s.next);
    AllFixedWeight(listed, bits, s.inputs, REFERENCE_FIELDS);
    AllFixedWeight(listed, bits, s.colors, REFERENCE_FIELDS);
    if s.resolves.Some? { AllFixedWeight(listed, bits, s.resolves.value, REFERENCE_FIELDS); }
    if s.depth.Some? { FixedWeight(listed, bits, s.depth.value, REFERENCE_FIELDS); }
    WeightSum5(listed, bits, s.next, AllJoined(s.inputs), AllJoined(s.colors), OptionalChains(s.resolves),
               OptionalChain(s.depth));
  }

  function SubpassesNodes(subpasses: seq<Subpass>, n: nat): Chain
    requires n <= |subpasses|
  {
    if n == 0 then [] else SubpassesNodes(subpasses, n - 1) + SubpassNodes(subpasses[n - 1])
  }

  function BareSubpasses(subpasses: seq<Subpass>): seq<Subpass> {
    seq(|subpasses|, i requires 0 <= i < |subpasses| => BareSubpass(subpasses[i]))
  }

  lemma {:induction false} SubpassesWeight(listed: set<u32>, bits: u32, subpasses: seq<Subpass>, n: nat)
    requires n <= |subpasses|
    ensures SubpassesSize(listed, bits, subpasses, n)
         == SubpassesSize(listed, bits, BareSubpasses(subpasses), n) + Weight(listed, bits, SubpassesNodes(subpasses, n))
  {
    hide Weight, SubpassSize, SubpassNodes, BareSubpass;
    if n == 0 {
      NoWeight(listed, bits);
    } else {
      SubpassesWeight(listed, bits, subpasses, n - 1);
      SubpassWeight(listed, bits, subpasses[n - 1]);
      WeightSum(listed, bits, SubpassesNodes(subpasses, n - 1), SubpassNodes(subpasses[n - 1]));
    }
  }

  /** Every node of every chain nested in a render pass, and the render pass without any of them. */
  function RenderPassNodes(r: RenderPass): Chain {
    r.next + AllJoined(r.attachments) + SubpassesNodes(r.subpasses, |r.subpasses|) + AllJoined(r.dependencies)
  }

  function BareRenderPass(r: RenderPass): RenderPass {
    RenderPass([], Emptied(r.attachments), BareSubpasses(r.subpasses), Emptied(r.dependencies), r.masks)
  }

  /** A render pass counts what it would count without extensions, and the known ones wherever they hang. */
  lemma RenderPassWeight(listed: set<u32>, bits: u32, r: RenderPass)
    ensures RenderPassSize(listed, bits, r)
         == RenderPassSize(listed, bits, BareRenderPass(r)) + Weight(listed, bits, RenderPassNodes(r))
  {
    hide Weight, AllFixed, FixedSize, ChainSize, AllJoined, Emptied, SubpassesNodes, BareSubpasses, SubpassesSize;
    ChainWeight(listed, bits, r.next);
    AllFixedWeight(listed, bits, r.attachments, ATTACHMENT_FIELDS);
    SubpassesWeight(listed, bits, r.subpasses, |r.subpasses|);
    AllFixedWeight(listed, bits, r.dependencies, DEPENDENCY_FIELDS);
    WeightSum4(listed, bits, r.next, AllJoined(r.attachments), SubpassesNodes(r.subpasses, |r.subpasses|),
               AllJoined(r.dependencies));
    BareLength(r);
  }

  lemma BareLength(r: RenderPass)
    ensures |BareSubpasses(r.subpasses)| == |r.subpasses|
  {
  }

  /**
   * Two render passes alike but for their extensions count the same if the known extensions are
   * the same, in any order, in any of the nested chains, and with any unknown ones among them.
   */
  lemma RenderPassAlike(listed: set<u32>, bits: u32, r: RenderPass, r': RenderPass)
    requires BareRenderPass(r) == BareRenderPass(r')
    requires SameKnown(listed, bits, RenderPassNodes(r), RenderPassNodes(r'))
    ensures RenderPassSize(listed, bits, r) == RenderPassSize(listed, bits, r')
  {
    hide Weight, RenderPassSize, BareRenderPass, RenderPassNodes, SameKnown;
    RenderPassWeight(listed, bits, r);
    RenderPassWeight(listed, bits, r');
    SameKnownWeight(listed, bits, RenderPassNodes(r), RenderPassNodes(r'));
  }

  /** One extension more, in whichever nested chain, changes the count exactly if it is known. */
  lemma RenderPassInserted(
      listed: set<u32>, bits: u32, r: RenderPass, r': RenderPass, before: Chain, node: Node, after: Chain)
    requires BareRenderPass(r) == BareRenderPass(r')
    requires RenderPassNodes(r) == before + after && RenderPassNodes(r') == before + [node] + after
    ensures RenderPassSize(listed, bits, r) == RenderPassSize(listed, bits, r') <==> !Known(listed, bits, node.sType)
  {
    hide Weight, RenderPassSize, BareRenderPass, RenderPassNodes, Known;
    RenderPassWeight(listed, bits, r);
    RenderPassWeight(listed, bits, r');
    WeightInserted(listed, bits, before, node, after);
  }

  // ------------------------------------------------------------------------ pipelines

  function StagesNodes(stages: seq<ShaderStage>, n: nat): Chain
    requires n <= |stages|
  {
    if n == 0 then [] else StagesNodes(stages, n - 1) + stages[n - 1].next
  }

  function BareStages(stages: seq<ShaderStage>): seq<ShaderStage> {
    seq(|stages|, i requires 0 <= i < |stages| => stages[i].(next := []))
  }

  lemma {:induction false} StagesWeight(listed: set<u32>, bits: u32, stages: seq<ShaderStage>, n: nat)
    requires n <= |stages|
    ensures StagesSize(listed, bits, stages, n)
         == StagesSize(listed, bits, BareStages(stages), n) + Weight(listed, bits, StagesNodes(stages, n))
  {
    hide Weight, ChainSize, SpecializationSize;
    if n == 0 {
      NoWeight(listed, bits);
    } else {
      StagesWeight(listed, bits, stages, n - 1);
      ChainWeight(listed, bits, stages[n - 1].next);
      WeightSum(listed, bits, StagesNodes(stages, n - 1), stages[n - 1].next);
    }
  }

  /** The nodes of the four states that only matter when something is rasterized. */
  function RasterizedNodes(p: Pipeline): Chain {
    (match p.viewport case None => [] case Some(v) => v.next)
    + (match p.multisample case None => [] case Some(m) => m.next)
    + OptionalChain(p.depthStencil)
    + (match p.colorBlend case None => [] case Some(b) => b.next)
  }

  /** The nodes of every state of a pipeline that is counted under these feature bits. */
  function PipelineNodes(bits: u32, p: Pipeline): Chain {
    (p.next + StagesNodes(p.stages, |p.stages|)
     + (match p.vertexInput case None => [] case Some(v) => v.next)
     + OptionalChain(p.inputAssembly)
     + (if !IgnoredHandles(bits) || HasTessellation(p) then OptionalChain(p.tessellation) else []))
    + (match p.rasterization case None => [] case Some(r) => r.next)
    + (if !IgnoredHandles(bits) || HasRasterization(p) then RasterizedNodes(p) else [])
    + (match p.dynamic case None => [] case Some(d) => d.next)
  }

  function BarePipeline(p: Pipeline): Pipeline {
    Pipeline(
      [], BareStages(p.stages),
      (match p.vertexInput case None => None case Some(v) => Some(v.(next := []))),
      EmptiedChain(p.inputAssembly), EmptiedChain(p.tessellation),
      (match p.viewport case None => None case Some(v) => Some(v.(next := []))),
      (match p.rasterization case None => None case Some(r) => Some(r.(next := []))),
      (match p.multisample case None => None case Some(m) => Some(m.(next := []))),
      EmptiedChain(p.depthStencil),
      (match p.colorBlend case None => None case Some(b) => Some(b.(next := []))),
      (match p.dynamic case None => None case Some(d) => Some(d.(next := []))))
  }

  /** Whether something tessellates or rasterizes has nothing to do with extensions. */
  lemma BareFlags(p: Pipeline)
    ensures HasTessellation(BarePipeline(p)) == HasTessellation(p)
    ensures HasRasterization(BarePipeline(p)) == HasRasterization(p)
  {
    var bare := BareStages(p.stages);
    if s :| s in p.stages && (s.stage == 2 || s.stage == 4) {
      var i :| 0 <= i < |p.stages| && p.stages[i] == s;
      assert bare[i] in bare && bare[i].stage == s.stage;
    }
    if s :| s in bare && (s.stage == 2 || s.stage == 4) {
      var i :| 0 <= i < |bare| && bare[i] == s;
      assert p.stages[i] in p.stages && p.stages[i].stage == s.stage;
    }
  }

  lemma RasterizedWeight(listed: set<u32>, bits: u32, p: Pipeline)
    ensures RasterizedPart(listed, bits, p)
         == RasterizedPart(listed, bits, BarePipeline(p)) + Weight(listed, bits, RasterizedNodes(p))
  {
    hide Weight, ChainSize, BareStages, MaskBytes;
    NoWeight(listed, bits);
    var viewport: Chain := match p.viewport case None => [] case Some(v) => v.next;
    var multisample: Chain := match p.multisample case None => [] case Some(m) => m.next;
    var colorBlend: Chain := match p.colorBlend case None => [] case Some(b) => b.next;
    ChainWeight(listed, bits, viewport);
    ChainWeight(listed, bits, multisample);
    ChainWeight(listed, bits, OptionalChain(p.depthStencil));
    ChainWeight(listed, bits, colorBlend);
    WeightSum4(listed, bits, viewport, multisample, OptionalChain(p.depthStencil), colorBlend);
  }

  /** The states before the viewport, the rasterization state and the dynamic one. */
  lemma InputWeight(listed: set<u32>, bits: u32, p: Pipeline)
    ensures VertexInputPart(listed, bits, p) == VertexInputPart(listed, bits, BarePipeline(p))
            + Weight(listed, bits, match p.vertexInput case None => [] case Some(v) => v.next)
    ensures InputAssemblyPart(listed, bits, p) == InputAssemblyPart(listed, bits, BarePipeline(p))
            + Weight(listed, bits, OptionalChain(p.inputAssembly))
    ensures TessellationPart(listed, bits, p) == TessellationPart(listed, bits, BarePipeline(p))
            + Weight(listed, bits, OptionalChain(p.tessellation))
    ensures RasterizationPart(listed, bits, p) == RasterizationPart(listed, bits, BarePipeline(p))
            + Weight(listed, bits, match p.rasterization case None => [] case Some(r) => r.next)
    ensures DynamicPart(listed, bits, p) == DynamicPart(listed, bits, BarePipeline(p))
            + Weight(listed, bits, match p.dynamic case None => [] case Some(d) => d.next)
  {
    hide Weight, ChainSize, BareStages;
    NoWeight(listed, bits);
    if p.vertexInput.Some? { ChainWeight(listed, bits, p.vertexInput.value.next); }
    if p.inputAssembly.Some? { ChainWeight(listed, bits, p.inputAssembly.value); }
    if p.tessellation.Some? { ChainWeight(listed, bits, p.tessellation.value); }
    if p.rasterization.Some? { ChainWeight(listed, bits, p.rasterization.value.next); }
    if p.dynamic.Some? { ChainWeight(listed, bits, p.dynamic.value.next); }
  }

  /** A pipeline counts what it would count without extensions, and the known ones of its counted states. */
  lemma PipelineWeight(listed: set<u32>, bits: u32, p: Pipeline)
    ensures PipelineSize(listed, bits, p)
         == PipelineSize(listed, bits, BarePipeline(p)) + Weight(listed, bits, PipelineNodes(bits, p))
  {
    hide Weight, ChainSize, StagesSize, StagesNodes, VertexInputPart, InputAssemblyPart, TessellationPart,
         RasterizationPart, RasterizedPart, DynamicPart, RasterizedNodes, HasTessellation, HasRasterization;
    NoWeight(listed, bits);
    BareFlags(p);
    ChainWeight(listed, bits, p.next);
    StagesWeight(listed, bits, p.stages, |p.stages|);
    InputWeight(listed, bits, p);
    RasterizedWeight(listed, bits, p);
    var vertexInput: Chain := match p.vertexInput case None => [] case Some(v) => v.next;
    var tessellation := if !IgnoredHandles(bits) || HasTessellation(p) then OptionalChain(p.tessellation) else [];
    var rasterization: Chain := match p.rasterization case None => [] case Some(r) => r.next;
    var rasterized := if !IgnoredHandles(bits) || HasRasterization(p) then RasterizedNodes(p) else [];
    var dynamic: Chain := match p.dynamic case None => [] case Some(d) => d.next;
    var stages := StagesNodes(p.stages, |p.stages|);
    var inputs := p.next + stages + vertexInput + OptionalChain(p.inputAssembly) + tessellation;
    WeightSum5(listed, bits, p.next, stages, vertexInput, OptionalChain(p.inputAssembly), tessellation);
    WeightSum4(listed, bits, inputs, rasterization, rasterized, dynamic);
  }

  /** Pipelines alike but for their extensions count the same if their counted known extensions agree. */
  lemma PipelineAlike(listed: set<u32>, bits: u32, p: Pipeline, p': Pipeline)
    requires BarePipeline(p) == BarePipeline(p')
    requires SameKnown(listed, bits, PipelineNodes(bits, p), PipelineNodes(bits, p'))
    ensures PipelineSize(listed, bits, p) == PipelineSize(listed, bits, p')
  {
    hide Weight, PipelineSize, BarePipeline, PipelineNodes, SameKnown;
    PipelineWeight(listed, bits, p);
    PipelineWeight(listed, bits, p');
    SameKnownWeight(listed, bits, PipelineNodes(bits, p), PipelineNodes(bits, p'));
  }

  /** One extension more in a counted state changes the count exactly if it is known. */
  lemma PipelineInserted(
      listed: set<u32>, bits: u32, p: Pipeline, p': Pipeline, before: Chain, node: Node, after: Chain)
    requires BarePipeline(p) == BarePipeline(p')
    requires PipelineNodes(bits, p) == before + after && PipelineNodes(bits, p') == before + [node] + after
    ensures PipelineSize(listed, bits, p) == PipelineSize(listed, bits, p') <==> !Known(listed, bits, node.sType)
  {
    hide Weight, PipelineSize, BarePipeline, PipelineNodes, Known;
    PipelineWeight(listed, bits, p);
    PipelineWeight(listed, bits, p');
    WeightInserted(listed, bits, before, node, after);
  }
}
