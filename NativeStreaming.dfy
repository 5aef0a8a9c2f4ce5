/**
 * The streaming contributors of the native kernel generator: "no streaming", which
 * reads and writes each population in place, and "standard streaming", which pushes
 * each population to its periodic neighbour in a second buffer `f_next`, optionally
 * leaving the cells of a no-streaming mask in place.
 *
 * Each `generate_*` operation is a method on the generator object whose new state is a
 * function of the old one; the properties are lemmas about those functions.
 */
module NativeStreaming {
  import opened NativeGenerator

  // ---------------------------------------------------------------------------
  // The two variants and their names
  // ---------------------------------------------------------------------------

  datatype NativeStreaming =
    | NativeNoStreaming
    | NativeStandardStreaming(supportNoStreamingMask: bool)

  /** No streaming is built without a mask. */
  function SupportsMask(s: NativeStreaming): bool {
    s.NativeStandardStreaming? && s.supportNoStreamingMask
  }

  /** The class-level `_name`. */
  function BaseName(s: NativeStreaming): string {
    if s.NativeNoStreaming? then "no" else "standard"
  }

  /** `name`: the base name, followed by `M` when the mask is supported. */
  function Name(s: NativeStreaming): (r: string)
    ensures |r| >= |BaseName(s)| && r[..|BaseName(s)|] == BaseName(s)
    ensures SupportsMask(s) <==> |r| > |BaseName(s)|
    ensures SupportsMask(s) ==> r[|BaseName(s)|..] == "M"
  {
    BaseName(s) + (if SupportsMask(s) then "M" else "")
  }

  /** `NativeNoStreaming.create` ignores the flag. */
  function CreateNoStreaming(supportNoStreamingMask: bool): (r: NativeStreaming)
    ensures !SupportsMask(r) && Name(r) == "no"
  {
    NativeNoStreaming
  }

  /** `NativeStandardStreaming.create` keeps the flag. */
  function CreateStandardStreaming(supportNoStreamingMask: bool): (r: NativeStreaming)
    ensures SupportsMask(r) == supportNoStreamingMask
    ensures Name(r) == if supportNoStreamingMask then "standardM" else "standard"
  {
    NativeStandardStreaming(supportNoStreamingMask)
  }

  // ---------------------------------------------------------------------------
  // Hooks and wrapper lines
  // ---------------------------------------------------------------------------

  const MaskName: string := "no_stream_mask"
  const MaskAssert: string := "assert hasattr(simulation.streaming, 'no_stream_mask')"
  const MaskLauncherSlot: LauncherSlot :=
    LauncherSlot("const at::Tensor no_stream_mask", "no_stream_mask", "simulation.streaming.no_stream_mask")
  const MaskKernelSlot: KernelSlot := KernelSlot("const byte_t* no_stream_mask", "no_stream_mask.data<byte_t>()")

  const FNextName: string := "f_next"
  const FNextAssert: string := "assert hasattr(simulation, 'f_next')"
  const SwapLine: string := "simulation.f, simulation.f_next = simulation.f_next, simulation.f"
  const FNextLauncherSlot: LauncherSlot := LauncherSlot("at::Tensor f_next", "f_next", "simulation.f_next")
  const FNextKernelSlot: KernelSlot := KernelSlot("scalar_t *f_next", "f_next.data<scalar_t>()")

  const ReadWriteKey: Key := Fragment("read_write()")
  const FNextKey: Key := Fragment("f_next")

  /** `generate_no_stream_mask`: hook the mask into launcher and kernel, each only if not yet hooked. */
  function NoStreamMaskSpec(s: GenState): GenState {
    var s1 :=
      if MaskName in s.launcher then s
      else LauncherHookStep(AppendBeforeStep(s, MaskAssert), MaskName, MaskLauncherSlot);
    if MaskName in s1.kernel then s1 else KernelHookStep(s1, MaskName, MaskKernelSlot)
  }

  method GenerateNoStreamMask(g: Generator)
    modifies g
    ensures g.State() == NoStreamMaskSpec(old(g.State()))
  {
    if !g.IsLauncherHooked(MaskName) {
      g.AppendPythonWrapperBeforeBuffer(MaskAssert);
      g.LauncherHook(MaskName, "const at::Tensor no_stream_mask", "no_stream_mask", "simulation.streaming.no_stream_mask");
    }
    if !g.IsKernelHooked(MaskName) {
      g.KernelHook(MaskName, "const byte_t* no_stream_mask", "no_stream_mask.data<byte_t>()");
    }
  }

  /** `generate_f_next`: once per generator, swap the buffers after the kernel and hook `f_next`. */
  function FNextSpec(s: GenState): GenState {
    if FNextKey in s.registry then s
    else
      var s1 := AppendAfterStep(RegisterStep(s, FNextKey), SwapLine);
      var s2 :=
        if FNextName in s1.launcher then s1
        else LauncherHookStep(AppendBeforeStep(s1, FNextAssert), FNextName, FNextLauncherSlot);
      if FNextName in s2.kernel then s2 else KernelHookStep(s2, FNextName, FNextKernelSlot)
  }

  method GenerateFNext(g: Generator)
    modifies g
    ensures g.State() == FNextSpec(old(g.State()))
  {
    if !g.IsRegistered(FNextKey) {
      g.Register(FNextKey);
      g.AppendPythonWrapperAfterBuffer(SwapLine);
      if !g.IsLauncherHooked(FNextName) {
        g.AppendPythonWrapperBeforeBuffer(FNextAssert);
        g.LauncherHook(FNextName, "at::Tensor f_next", "f_next", "simulation.f_next");
      }
      if !g.IsKernelHooked(FNextName) {
        g.KernelHook(FNextName, "scalar_t *f_next", "f_next.data<scalar_t>()");
      }
    }
  }

  // ---------------------------------------------------------------------------
  // Emitted lines, one append per source line
  // ---------------------------------------------------------------------------

  function Min(a: nat, b: nat): nat {
    if a < b then a else b
  }

  /** The coordinate over `q_` and the first `d` axis variables. */
  function Coord(d: nat): Coordinate {
    LatticeCoordinate([DirectionVar, AxisVar(0), AxisVar(1), AxisVar(2)][..Min(d + 1, 4)])
  }

  /** The mask coordinate over the first `d` components of the cell index. */
  function MaskCoord(d: nat): Coordinate {
    LatticeCoordinate([CellIndex(0), CellIndex(1), CellIndex(2)][..Min(d, 3)])
  }

  /** Declare the registers of the loop. */
  function AppendRegisters(b: seq<Line>): seq<Line> {
    b + [Blank] + [DeclareRegisters]
  }

  /** Open the loop over the directions `i`, with `q_ = i`. */
  function AppendLoopHeader(b: seq<Line>): seq<Line> {
    b + [Blank] + [PragmaUnroll] + [ForDirections] + [Blank] + [DirectionAsQ]
  }

  /** Take the axis variables of the first `d` axes from the cell index. */
  function AppendAxes(b: seq<Line>, d: nat): seq<Line> {
    b + When(d > 0, AxisFromIndex(0)) + When(d > 1, AxisFromIndex(1)) + When(d > 2, AxisFromIndex(2))
  }

  /** Copy the population at the coordinate into its register and close the loop. */
  function AppendReadTail(b: seq<Line>, d: nat): seq<Line> {
    b + [Blank] + [ReadF(Coord(d))] + [CloseBlock] + [Blank]
  }

  /** Store the register back at the coordinate and close the loop. */
  function AppendInPlaceTail(b: seq<Line>, d: nat): seq<Line> {
    b + [Blank] + [WriteF(Coord(d))] + [CloseBlock] + [Blank]
  }

  /** With the mask: open the branch taken at masked cells. */
  function AppendMaskOpen(b: seq<Line>, d: nat, mask: bool): seq<Line> {
    b + When(mask, Blank) + When(mask, IfMasked(MaskCoord(d))) + When(mask, Blank)
  }

  /** With the mask: the axis variables of a masked cell are its own index. */
  function AppendMaskedAxes(b: seq<Line>, d: nat, mask: bool): seq<Line> {
    b + When(mask && d > 0, AxisFromIndex(0)) + When(mask && d > 1, AxisFromIndex(1)) + When(mask && d > 2, AxisFromIndex(2))
  }

  /** With the mask: store the register at the cell itself, then open the other branch. */
  function AppendMaskedStore(b: seq<Line>, d: nat, mask: bool): seq<Line> {
    b + When(mask, Blank) + When(mask, WriteFNext(Coord(d))) + When(mask, Blank) + When(mask, Else)
  }

  /** For an axis `a < d`: shift by the direction and wrap periodically on that axis's extent. */
  function AppendWrap(b: seq<Line>, d: nat, a: nat): seq<Line> {
    b + When(d > a, ShiftAxis(a)) + When(d > a, WrapBelow(a)) + When(d > a, WrapAbove(a)) + When(d > a, Blank)
  }

  /** Store the register at the shifted coordinate of `f_next`, close the branch and the loop. */
  function AppendStreamingTail(b: seq<Line>, d: nat, mask: bool): seq<Line> {
    b + [WriteFNext(Coord(d))] + [Blank] + When(mask, CloseBlock) + [CloseBlock] + [Blank]
  }

  /** The read loop appended to buffer `b`: copy every population of the cell into registers. */
  function AppendReadLoop(b: seq<Line>, d: nat): seq<Line> {
    AppendReadTail(AppendAxes(AppendLoopHeader(AppendRegisters(b)), d), d)
  }

  /** The no-streaming write loop: store the registers back at the same cell. */
  function AppendInPlaceWriteLoop(b: seq<Line>, d: nat): seq<Line> {
    AppendInPlaceTail(AppendAxes(AppendLoopHeader(b), d), d)
  }

  /** The masked branch of the standard write loop: a masked cell keeps its populations. */
  function AppendMaskedBranch(b: seq<Line>, d: nat, mask: bool): seq<Line> {
    AppendMaskedStore(AppendMaskedAxes(AppendMaskOpen(b, d, mask), d, mask), d, mask)
  }

  /** The opening of the standard write loop, up to the unmasked branch. */
  function AppendStreamingHead(b: seq<Line>, d: nat, mask: bool): seq<Line> {
    AppendMaskedBranch(AppendLoopHeader(b), d, mask) + [Blank]
  }

  /** The periodic shift of every axis below `d`. */
  function AppendWraps(b: seq<Line>, d: nat): seq<Line> {
    AppendWrap(AppendWrap(AppendWrap(b, d, 0), d, 1), d, 2)
  }

  /** The standard write loop: push every population to its periodic neighbour in `f_next`. */
  function AppendStreamingWriteLoop(b: seq<Line>, d: nat, mask: bool): seq<Line> {
    AppendStreamingTail(AppendWraps(AppendStreamingHead(b, d, mask), d), d, mask)
  }

  // ---------------------------------------------------------------------------
  // generate_read_write
  // ---------------------------------------------------------------------------

  /** The dependencies of no streaming, requested after registering `read_write()`. */
  function NoStreamingDependencies(s: GenState): GenState {
    RequestStep(RequestStep(RequestStep(RegisterStep(s, ReadWriteKey), Q), D), Offset)
  }

  /** `NativeNoStreaming.generate_read_write`. */
  function NoStreamingReadWriteSpec(s: GenState): GenState {
    if ReadWriteKey in s.registry then s
    else
      var s1 := NoStreamingDependencies(s);
      s1.(index := s1.index + ReadLoopLines(s.d), write := s1.write + InPlaceWriteLoopLines(s.d))
  }

  method NoStreamingReadWrite(g: Generator)
    modifies g
    ensures g.State() == NoStreamingReadWriteSpec(old(g.State()))
  {
    if !g.IsRegistered(ReadWriteKey) {
      g.Register(ReadWriteKey);
      g.Request(Q);
      g.Request(D);
      g.Request(Offset);
      EmitReadLoop(g);
      EmitInPlaceWriteLoop(g);
    }
  }

  /** The read loop, appended to the index buffer line by line. */
  method EmitReadLoop(g: Generator)
    modifies g`indexBuffer
    ensures g.indexBuffer == old(g.indexBuffer) + ReadLoopLines(g.d)
  {
    var d := g.d;
    g.AppendIndexBuffer(Blank);
    g.AppendIndexBuffer(DeclareRegisters);
    g.AppendIndexBuffer(Blank);
    g.AppendIndexBuffer(PragmaUnroll);
    g.AppendIndexBuffer(ForDirections);
    g.AppendIndexBuffer(Blank);
    g.AppendIndexBuffer(DirectionAsQ);
    g.AppendIndexBuffer(AxisFromIndex(0), d > 0);
    g.AppendIndexBuffer(AxisFromIndex(1), d > 1);
    g.AppendIndexBuffer(AxisFromIndex(2), d > 2);
    g.AppendIndexBuffer(Blank);
    g.AppendIndexBuffer(ReadF(Coord(d)));
    g.AppendIndexBuffer(CloseBlock);
    g.AppendIndexBuffer(Blank);
    assert g.indexBuffer == AppendReadLoop(old(g.indexBuffer), d);
    ReadLoopLink(old(g.indexBuffer), d);
  }

  /** The in-place write loop, appended to the write buffer line by line. */
  method EmitInPlaceWriteLoop(g: Generator)
    modifies g`writeBuffer
    ensures g.writeBuffer == old(g.writeBuffer) + InPlaceWriteLoopLines(g.d)
  {
    var d := g.d;
    g.AppendWriteBuffer(Blank);
    g.AppendWriteBuffer(PragmaUnroll);
    g.AppendWriteBuffer(ForDirections);
    g.AppendWriteBuffer(Blank);
    g.AppendWriteBuffer(DirectionAsQ);
    g.AppendWriteBuffer(AxisFromIndex(0), d > 0);
    g.AppendWriteBuffer(AxisFromIndex(1), d > 1);
    g.AppendWriteBuffer(AxisFromIndex(2), d > 2);
    g.AppendWriteBuffer(Blank);
    g.AppendWriteBuffer(WriteF(Coord(d)));
    g.AppendWriteBuffer(CloseBlock);
    g.AppendWriteBuffer(Blank);
    assert g.writeBuffer == AppendInPlaceWriteLoop(old(g.writeBuffer), d);
    InPlaceWriteLoopLink(old(g.writeBuffer), d);
  }

  /** The dependencies of standard streaming, requested after registering `read_write()`. */
  function StandardDependencies(s: GenState, mask: bool): GenState {
    RequestPrimitives(StandardHooks(s, mask))
  }

  /** Register `read_write()`, then hook the mask when asked for, then `generate_f_next`. */
  function StandardHooks(s: GenState, mask: bool): GenState {
    var s1 := RegisterStep(s, ReadWriteKey);
    FNextSpec(if mask then NoStreamMaskSpec(s1) else s1)
  }

  /** Request `offset`, `index`, `dimension`, `q` and `e`. */
  function RequestPrimitives(s: GenState): GenState {
    RequestStep(RequestStep(RequestStep(RequestStep(RequestStep(s, Offset), Index), Dimension), Q), E)
  }

  /** `NativeStandardStreaming.generate_read_write`. */
  function StandardReadWriteSpec(s: GenState, mask: bool): GenState {
    if ReadWriteKey in s.registry then s
    else
      var s1 := StandardDependencies(s, mask);
      s1.(index := s1.index + ReadLoopLines(s.d), write := s1.write + StreamingWriteLoopLines(s.d, mask))
  }

  /** `generate_read_write` of either variant. */
  function ReadWriteSpec(st: NativeStreaming, s: GenState): GenState {
    match st
    case NativeNoStreaming => NoStreamingReadWriteSpec(s)
    case NativeStandardStreaming(mask) => StandardReadWriteSpec(s, mask)
  }

  method StandardReadWrite(g: Generator, mask: bool)
    modifies g
    ensures g.State() == StandardReadWriteSpec(old(g.State()), mask)
  {
    if !g.IsRegistered(ReadWriteKey) {
      RequestStandardDependencies(g, mask);
      EmitReadLoop(g);
      EmitStreamingWriteLoop(g, mask);
    }
  }

  method RequestStandardDependencies(g: Generator, mask: bool)
    modifies g
    ensures g.State() == StandardDependencies(old(g.State()), mask)
  {
    g.Register(ReadWriteKey);
    if mask {
      GenerateNoStreamMask(g);
    }
    GenerateFNext(g);
    g.Request(Offset);
    g.Request(Index);
    g.Request(Dimension);
    g.Request(Q);
    g.Request(E);
  }

  method GenerateReadWrite(st: NativeStreaming, g: Generator)
    modifies g
    ensures g.State() == ReadWriteSpec(st, old(g.State()))
  {
    match st
    case NativeNoStreaming => NoStreamingReadWrite(g);
    case NativeStandardStreaming(mask) => StandardReadWrite(g, mask);
  }

  /** The streaming write loop, appended to the write buffer line by line. */
  method EmitStreamingWriteLoop(g: Generator, mask: bool)
    modifies g`writeBuffer
    ensures g.writeBuffer == old(g.writeBuffer) + StreamingWriteLoopLines(g.d, mask)
  {
    var d := g.d;
    g.AppendWriteBuffer(Blank);
    g.AppendWriteBuffer(PragmaUnroll);
    g.AppendWriteBuffer(ForDirections);
    g.AppendWriteBuffer(Blank);
    g.AppendWriteBuffer(DirectionAsQ);
    EmitMaskedBranch(g, mask);
    g.AppendWriteBuffer(Blank);
    EmitWrap(g, 0);
    EmitWrap(g, 1);
    EmitWrap(g, 2);
    g.AppendWriteBuffer(WriteFNext(Coord(d)));
    g.AppendWriteBuffer(Blank);
    g.AppendWriteBuffer(CloseBlock, mask);
    g.AppendWriteBuffer(CloseBlock);
    g.AppendWriteBuffer(Blank);
    assert g.writeBuffer == AppendStreamingWriteLoop(old(g.writeBuffer), d, mask);
    StreamingWriteLoopLink(old(g.writeBuffer), d, mask);
  }

  /** With the mask: a masked cell stores each register at the cell itself. */
  method EmitMaskedBranch(g: Generator, mask: bool)
    modifies g`writeBuffer
    ensures g.writeBuffer == AppendMaskedBranch(old(g.writeBuffer), g.d, mask)
  {
    var d := g.d;
    g.AppendWriteBuffer(Blank, mask);
    g.AppendWriteBuffer(IfMasked(MaskCoord(d)), mask);
    g.AppendWriteBuffer(Blank, mask);
    g.AppendWriteBuffer(AxisFromIndex(0), mask && d > 0);
    g.AppendWriteBuffer(AxisFromIndex(1), mask && d > 1);
    g.AppendWriteBuffer(AxisFromIndex(2), mask && d > 2);
    g.AppendWriteBuffer(Blank, mask);
    g.AppendWriteBuffer(WriteFNext(Coord(d)), mask);
    g.AppendWriteBuffer(Blank, mask);
    g.AppendWriteBuffer(Else, mask);
  }

  /** For an axis `a` below the dimension: shift by the direction and wrap around the extent. */
  method EmitWrap(g: Generator, a: nat)
    modifies g`writeBuffer
    ensures g.writeBuffer == AppendWrap(old(g.writeBuffer), g.d, a)
  {
    var d := g.d;
    g.AppendWriteBuffer(ShiftAxis(a), d > a);
    g.AppendWriteBuffer(WrapBelow(a), d > a);
    g.AppendWriteBuffer(WrapAbove(a), d > a);
    g.AppendWriteBuffer(Blank, d > a);
  }

  // ---------------------------------------------------------------------------
  // The emitted loops, block by block
  // ---------------------------------------------------------------------------

  /** The axis variables of the first `d` axes (at most three), taken from the cell index. */
  function AxisLines(d: nat): seq<Line> {
    [AxisFromIndex(0), AxisFromIndex(1), AxisFromIndex(2)][..Min(d, 3)]
  }

  /** The opening of a loop over the directions `i`, with `q_ = i`. */
  const LoopHeaderLines: seq<Line> := [Blank, PragmaUnroll, ForDirections, Blank, DirectionAsQ]

  /** The read loop: copy every population of the cell into a register. */
  function ReadLoopLines(d: nat): seq<Line> {
    [Blank, DeclareRegisters] + LoopHeaderLines + AxisLines(d) + [Blank, ReadF(Coord(d)), CloseBlock, Blank]
  }

  /** The no-streaming write loop: store every register back where it was read. */
  function InPlaceWriteLoopLines(d: nat): seq<Line> {
    LoopHeaderLines + AxisLines(d) + [Blank, WriteF(Coord(d)), CloseBlock, Blank]
  }

  /** The masked branch: at a masked cell the population stays at the cell itself. */
  function MaskedBranchLines(d: nat): seq<Line> {
    [Blank, IfMasked(MaskCoord(d)), Blank] + AxisLines(d) + [Blank, WriteFNext(Coord(d)), Blank, Else]
  }

  /** The periodic shift of axis `a`. */
  function WrapLines(a: nat): seq<Line> {
    [ShiftAxis(a), WrapBelow(a), WrapAbove(a), Blank]
  }

  /** The periodic shifts of the first `n` axes, in axis order. */
  function WrapsLines(n: nat): seq<Line> {
    if n == 0 then [] else WrapsLines(n - 1) + WrapLines(n - 1)
  }

  /** The opening of the standard write loop, up to the shifts of the unmasked branch. */
  function StreamingHeadLines(d: nat, mask: bool): seq<Line> {
    LoopHeaderLines + (if mask then MaskedBranchLines(d) else []) + [Blank]
  }

  /** The store into `f_next` at the shifted coordinate, and the closing braces. */
  function StreamingTailLines(d: nat, mask: bool): seq<Line> {
    [WriteFNext(Coord(d)), Blank] + (if mask then [CloseBlock] else []) + [CloseBlock, Blank]
  }

  /** The standard write loop: push every population to its periodic neighbour in `f_next`. */
  function StreamingWriteLoopLines(d: nat, mask: bool): seq<Line> {
    StreamingHeadLines(d, mask) + WrapsLines(Min(d, 3)) + StreamingTailLines(d, mask)
  }

  // ---------------------------------------------------------------------------
  // The line-by-line appends produce these blocks
  // ---------------------------------------------------------------------------

  lemma AxesLink(b: seq<Line>, d: nat)
    ensures AppendAxes(b, d) == b + AxisLines(d)
  {
    if d == 0 {
      assert AxisLines(d) == [];
    } else if d == 1 {
      assert AxisLines(d) == [AxisFromIndex(0)];
    } else if d == 2 {
      assert AxisLines(d) == [AxisFromIndex(0), AxisFromIndex(1)];
    } else {
      assert AxisLines(d) == [AxisFromIndex(0), AxisFromIndex(1), AxisFromIndex(2)];
    }
  }

  lemma MaskedAxesLink(b: seq<Line>, d: nat, mask: bool)
    ensures AppendMaskedAxes(b, d, mask) == b + (if mask then AxisLines(d) else [])
  {
    if mask {
      AxesLink(b, d);
      assert AppendMaskedAxes(b, d, mask) == AppendAxes(b, d);
    } else {
      assert AppendMaskedAxes(b, d, mask) == b + [] + [] + [];
    }
  }

  lemma ReadLoopLink(b: seq<Line>, d: nat)
    ensures AppendReadLoop(b, d) == b + ReadLoopLines(d)
  {
    var h := AppendLoopHeader(AppendRegisters(b));
    assert h == b + ([Blank, DeclareRegisters] + LoopHeaderLines);
    AxesLink(h, d);
  }

  lemma InPlaceWriteLoopLink(b: seq<Line>, d: nat)
    ensures AppendInPlaceWriteLoop(b, d) == b + InPlaceWriteLoopLines(d)
  {
    assert AppendLoopHeader(b) == b + LoopHeaderLines;
    AxesLink(AppendLoopHeader(b), d);
  }

  lemma MaskOpenLink(b: seq<Line>, d: nat, mask: bool)
    ensures AppendMaskOpen(b, d, mask) == b + (if mask then [Blank, IfMasked(MaskCoord(d)), Blank] else [])
  {
    if mask {
      assert AppendMaskOpen(b, d, mask) == b + [Blank] + [IfMasked(MaskCoord(d))] + [Blank];
    } else {
      assert AppendMaskOpen(b, d, mask) == b + [] + [] + [];
    }
  }

  lemma MaskedStoreLink(b: seq<Line>, d: nat, mask: bool)
    ensures AppendMaskedStore(b, d, mask) == b + (if mask then [Blank, WriteFNext(Coord(d)), Blank, Else] else [])
  {
    if mask {
      assert AppendMaskedStore(b, d, mask) == b + [Blank] + [WriteFNext(Coord(d))] + [Blank] + [Else];
    } else {
      assert AppendMaskedStore(b, d, mask) == b + [] + [] + [] + [];
    }
  }

  lemma MaskedBranchLink(b: seq<Line>, d: nat, mask: bool)
    ensures AppendMaskedBranch(b, d, mask) == b + (if mask then MaskedBranchLines(d) else [])
  {
    var o := AppendMaskOpen(b, d, mask);
    MaskOpenLink(b, d, mask);
    MaskedAxesLink(o, d, mask);
    MaskedStoreLink(AppendMaskedAxes(o, d, mask), d, mask);
    if mask {
      Associate3(b, [Blank, IfMasked(MaskCoord(d)), Blank], AxisLines(d), [Blank, WriteFNext(Coord(d)), Blank, Else]);
    }
  }

  lemma WrapLink(b: seq<Line>, d: nat, a: nat)
    ensures AppendWrap(b, d, a) == b + (if d > a then WrapLines(a) else [])
  {
    if d > a {
      assert AppendWrap(b, d, a) == b + [ShiftAxis(a)] + [WrapBelow(a)] + [WrapAbove(a)] + [Blank];
    } else {
      assert AppendWrap(b, d, a) == b + [] + [] + [] + [];
    }
  }

  /** One more axis: the shifts of the axes below `a`, then that of `a` when the dimension exceeds it. */
  lemma WrapsStep(b: seq<Line>, d: nat, a: nat)
    ensures b + WrapsLines(Min(d, a)) + (if d > a then WrapLines(a) else []) == b + WrapsLines(Min(d, a + 1))
  {
    if d > a {
      assert Min(d, a + 1) == a + 1;
      Associate(b, WrapsLines(a), WrapLines(a));
    }
  }

  lemma WrapsLink(b: seq<Line>, d: nat)
    ensures AppendWraps(b, d) == b + WrapsLines(Min(d, 3))
  {
    var w0 := AppendWrap(b, d, 0);
    var w1 := AppendWrap(w0, d, 1);
    assert w0 == b + WrapsLines(Min(d, 1)) by {
      WrapLink(b, d, 0);
      WrapsStep(b, d, 0);
    }
    assert w1 == b + WrapsLines(Min(d, 2)) by {
      WrapLink(w0, d, 1);
      WrapsStep(b, d, 1);
    }
    WrapLink(w1, d, 2);
    WrapsStep(b, d, 2);
  }

  lemma StreamingHeadLink(b: seq<Line>, d: nat, mask: bool)
    ensures AppendStreamingHead(b, d, mask) == b + StreamingHeadLines(d, mask)
  {
    var h0 := AppendLoopHeader(b);
    assert h0 == b + LoopHeaderLines;
    MaskedBranchLink(h0, d, mask);
  }

  lemma StreamingTailLink(b: seq<Line>, d: nat, mask: bool)
    ensures AppendStreamingTail(b, d, mask) == b + StreamingTailLines(d, mask)
  {
    if mask {
      assert AppendStreamingTail(b, d, mask) == b + [WriteFNext(Coord(d))] + [Blank] + [CloseBlock] + [CloseBlock] + [Blank];
    } else {
      assert AppendStreamingTail(b, d, mask) == b + [WriteFNext(Coord(d))] + [Blank] + [] + [CloseBlock] + [Blank];
    }
  }

  lemma StreamingWriteLoopLink(b: seq<Line>, d: nat, mask: bool)
    ensures AppendStreamingWriteLoop(b, d, mask) == b + StreamingWriteLoopLines(d, mask)
  {
    var h := AppendStreamingHead(b, d, mask);
    StreamingHeadLink(b, d, mask);
    WrapsLink(h, d);
    StreamingTailLink(AppendWraps(h, d), d, mask);
    Associate3(b, StreamingHeadLines(d, mask), WrapsLines(Min(d, 3)), StreamingTailLines(d, mask));
  }

  lemma Associate(b: seq<Line>, x: seq<Line>, y: seq<Line>)
    ensures b + x + y == b + (x + y)
  {
  }

  lemma Associate3(b: seq<Line>, x: seq<Line>, y: seq<Line>, z: seq<Line>)
    ensures b + x + y + z == b + (x + y + z)
  {
  }

  // ---------------------------------------------------------------------------
  // Shape of the emitted loops
  // ---------------------------------------------------------------------------

  /** Axis variables for the first `d` axes (at most three), in axis order. */
  lemma AxisLinesShape(d: nat)
    ensures |AxisLines(d)| == Min(d, 3)
    ensures forall k :: 0 <= k < |AxisLines(d)| ==> AxisLines(d)[k] == AxisFromIndex(k)
  {
  }

  /** The shift-and-wrap blocks come in axis order: line `4a + j` is line `j` of the block of axis `a`. */
  lemma {:induction false} WrapsLinesAt(n: nat)
    ensures |WrapsLines(n)| == 4 * n
    ensures forall a, j :: 0 <= a < n && 0 <= j < 4 ==> WrapsLines(n)[4 * a + j] == WrapLines(a)[j]
  {
    if n > 0 {
      WrapsLinesAt(n - 1);
      var w, b := WrapsLines(n - 1), WrapLines(n - 1);
      assert WrapsLines(n) == w + b;
      forall a, j | 0 <= a < n && 0 <= j < 4
        ensures WrapsLines(n)[4 * a + j] == WrapLines(a)[j]
      {
        if a < n - 1 {
          assert (w + b)[4 * a + j] == w[4 * a + j];
        } else {
          assert (w + b)[4 * a + j] == b[j];
        }
      }
    }
  }

  /** Each axis below `n` is shifted, wrapped below and wrapped above at exactly one line, and no
   *  line of the blocks takes an axis variable from the cell index. */
  lemma WrapsLinesShape(n: nat, k: nat, a: nat)
    requires k < |WrapsLines(n)|
    ensures WrapsLines(n)[k] == ShiftAxis(a) <==> a < n && k == 4 * a
    ensures WrapsLines(n)[k] == WrapBelow(a) <==> a < n && k == 4 * a + 1
    ensures WrapsLines(n)[k] == WrapAbove(a) <==> a < n && k == 4 * a + 2
    ensures !WrapsLines(n)[k].AxisFromIndex?
  {
    WrapsLinesAt(n);
    var a0, j := k / 4, k % 4;
    assert k == 4 * a0 + j;
    assert WrapsLines(n)[k] == WrapLines(a0)[j];
  }

  /** The blocks shift exactly the axes below `n`, and take no axis variable from the cell index. */
  lemma WrapsLinesMembers(n: nat, a: nat)
    ensures ShiftAxis(a) in WrapsLines(n) <==> a < n
    ensures AxisFromIndex(a) !in WrapsLines(n)
  {
    var w := WrapsLines(n);
    WrapsLinesAt(n);
    if a < n {
      assert w[4 * a] == WrapLines(a)[0];
    }
    if ShiftAxis(a) in w {
      var k :| 0 <= k < |w| && w[k] == ShiftAxis(a);
      WrapsLinesShape(n, k, a);
    }
    if AxisFromIndex(a) in w {
      var k :| 0 <= k < |w| && w[k] == AxisFromIndex(a);
      WrapsLinesShape(n, k, a);
    }
  }

  /** The opening of the standard write loop shifts nothing, and takes the axis variables from the
   *  cell index only in the masked branch. */
  lemma StreamingHeadMembers(d: nat, mask: bool, a: nat)
    ensures ShiftAxis(a) !in StreamingHeadLines(d, mask)
    ensures AxisFromIndex(a) in StreamingHeadLines(d, mask) <==> mask && a < Min(d, 3)
  {
    AxisLinesShape(d);
    if mask && a < Min(d, 3) {
      assert AxisLines(d)[a] == AxisFromIndex(a);
      assert AxisFromIndex(a) in MaskedBranchLines(d);
    }
    if AxisFromIndex(a) in AxisLines(d) {
      var k :| 0 <= k < |AxisLines(d)| && AxisLines(d)[k] == AxisFromIndex(a);
    }
  }

  /** The standard write loop shifts and wraps exactly the axes below the dimension (at most
   *  three); it takes axis variables from the cell index only in its masked branch. */
  lemma StreamingWriteLoopAxes(d: nat, mask: bool, a: nat)
    ensures ShiftAxis(a) in StreamingWriteLoopLines(d, mask) <==> a < Min(d, 3)
    ensures AxisFromIndex(a) in StreamingWriteLoopLines(d, mask) <==> mask && a < Min(d, 3)
  {
    var h, w, t := StreamingHeadLines(d, mask), WrapsLines(Min(d, 3)), StreamingTailLines(d, mask);
    assert StreamingWriteLoopLines(d, mask) == h + w + t;
    WrapsLinesMembers(Min(d, 3), a);
    StreamingHeadMembers(d, mask, a);
    assert ShiftAxis(a) !in t && AxisFromIndex(a) !in t;
  }

  // ---------------------------------------------------------------------------
  // What the generate_* operations promise
  // ---------------------------------------------------------------------------

  /** `r` continues `s`: same buffers, the old calls kept, and every new call made while the
   *  buffers still had their old lengths, that is before any of the new lines. */
  predicate Extends(s: GenState, r: GenState) {
    && r.d == s.d && r.index == s.index && r.write == s.write
    && CallsBefore(s, r)
  }

  /** The calls of `s` are kept, and every new call was made before any new line was emitted. */
  predicate CallsBefore(s: GenState, r: GenState) {
    && |s.trace| <= |r.trace| && r.trace[..|s.trace|] == s.trace
    && forall k :: |s.trace| <= k < |r.trace| ==>
         r.trace[k].indexLength == |s.index| && r.trace[k].writeLength == |s.write|
  }

  lemma ExtendsTrans(s: GenState, t: GenState, r: GenState)
    requires Extends(s, t) && Extends(t, r)
    ensures Extends(s, r)
  {
    assert r.trace[..|s.trace|] == r.trace[..|t.trace|][..|s.trace|];
  }

  lemma RegisterExtends(s: GenState, k: Key)
    ensures Extends(s, RegisterStep(s, k))
  {
    assert RegisterStep(s, k).trace[..|s.trace|] == s.trace;
  }

  lemma RequestExtends(s: GenState, p: Primitive)
    ensures Extends(s, RequestStep(s, p))
  {
    assert RequestStep(s, p).trace[..|s.trace|] == s.trace;
  }

  /** The buffer swap is in the wrapper exactly when `f_next` is registered, and then once. */
  predicate SwapsOnce(s: GenState) {
    multiset(s.after)[SwapLine] == if FNextKey in s.registry then 1 else 0
  }

  lemma InitialSwapsOnce(d: nat)
    ensures SwapsOnce(Initial(d))
  {
  }

  /** `generate_no_stream_mask` leaves the mask hooked into launcher and kernel, keeps any
   *  hook already there, and adds the wrapper's assertion exactly when it adds the launcher hook. */
  lemma NoStreamMaskEffect(s: GenState)
    ensures var r := NoStreamMaskSpec(s);
      && MaskName in r.launcher && MaskName in r.kernel
      && r.launcher == s.launcher[MaskName := if MaskName in s.launcher then s.launcher[MaskName] else MaskLauncherSlot]
      && r.kernel == s.kernel[MaskName := if MaskName in s.kernel then s.kernel[MaskName] else MaskKernelSlot]
      && r.before == s.before + (if MaskName in s.launcher then [] else [MaskAssert])
      && r.registry == s.registry && r.after == s.after
      && Extends(s, r)
  {
    var s1 :=
      if MaskName in s.launcher then s
      else LauncherHookStep(AppendBeforeStep(s, MaskAssert), MaskName, MaskLauncherSlot);
    assert s1.trace[..|s.trace|] == s.trace;
    assert NoStreamMaskSpec(s).trace[..|s1.trace|] == s1.trace;
    if MaskName in s.launcher {
      assert s.launcher[MaskName := s.launcher[MaskName]] == s.launcher;
    }
    if MaskName in s.kernel {
      assert s.kernel[MaskName := s.kernel[MaskName]] == s.kernel;
    }
  }

  lemma NoStreamMaskIdempotent(s: GenState)
    ensures NoStreamMaskSpec(NoStreamMaskSpec(s)) == NoStreamMaskSpec(s)
  {
    NoStreamMaskEffect(s);
  }

  /** `generate_f_next` registers `f_next`; on its first call it leaves `f_next` hooked into
   *  launcher and kernel and appends the buffer swap to the wrapper, later calls change nothing. */
  lemma FNextEffect(s: GenState)
    ensures var r := FNextSpec(s);
      && (FNextKey !in s.registry ==> FNextName in r.launcher && FNextName in r.kernel)
      && r.registry == s.registry + {FNextKey}
      && r.after == s.after + (if FNextKey in s.registry then [] else [SwapLine])
      && (FNextKey in s.registry ==> r == s)
      && (FNextName in s.launcher ==> r.launcher == s.launcher)
      && (FNextName in s.kernel ==> r.kernel == s.kernel)
      && Extends(s, r)
  {
    if FNextKey !in s.registry {
      var s1 := AppendAfterStep(RegisterStep(s, FNextKey), SwapLine);
      var s2 :=
        if FNextName in s1.launcher then s1
        else LauncherHookStep(AppendBeforeStep(s1, FNextAssert), FNextName, FNextLauncherSlot);
      assert s1.trace[..|s.trace|] == s.trace;
      assert s2.trace[..|s1.trace|] == s1.trace;
      assert FNextSpec(s).trace[..|s2.trace|] == s2.trace;
      assert Extends(s, s1) && Extends(s1, s2);
      ExtendsTrans(s, s1, s2);
      ExtendsTrans(s, s2, FNextSpec(s));
    } else {
      assert s.registry + {FNextKey} == s.registry;
    }
  }

  lemma FNextIdempotent(s: GenState)
    ensures FNextSpec(FNextSpec(s)) == FNextSpec(s)
  {
    FNextEffect(s);
  }

  /** However often `generate_f_next` runs, the buffers are swapped once per step. */
  lemma FNextSwapsOnce(s: GenState)
    requires SwapsOnce(s)
    ensures SwapsOnce(FNextSpec(s))
  {
    FNextEffect(s);
  }

  lemma NoStreamMaskSwapsOnce(s: GenState)
    requires SwapsOnce(s)
    ensures SwapsOnce(NoStreamMaskSpec(s))
  {
    NoStreamMaskEffect(s);
  }

  /** The dependencies of no streaming: `read_write()` registered, then `q`, `d` and `offset`
   *  requested, all before any line is emitted. */
  lemma NoStreamingDependenciesEffect(s: GenState)
    ensures var r := NoStreamingDependencies(s);
      && r.registry == s.registry + {ReadWriteKey, PrimitiveKey(Q), PrimitiveKey(D), PrimitiveKey(Offset)}
      && r.launcher == s.launcher && r.kernel == s.kernel && r.before == s.before && r.after == s.after
      && Extends(s, r) && |r.trace| == |s.trace| + 4
      && r.trace[|s.trace|].call == Registered(ReadWriteKey)
      && r.trace[|s.trace| + 1].call == Requested(Q)
      && r.trace[|s.trace| + 2].call == Requested(D)
      && r.trace[|s.trace| + 3].call == Requested(Offset)
  {
    var s1 := RegisterStep(s, ReadWriteKey);
    var s2 := RequestStep(s1, Q);
    var s3 := RequestStep(s2, D);
    RegisterExtends(s, ReadWriteKey);
    RequestExtends(s1, Q);
    RequestExtends(s2, D);
    RequestExtends(s3, Offset);
    ExtendsTrans(s, s1, s2);
    ExtendsTrans(s, s2, s3);
    ExtendsTrans(s, s3, RequestStep(s3, Offset));
  }

  /** `NativeNoStreaming.generate_read_write`: on the first call, the dependencies are requested
   *  and then the read loop and the in-place write loop are appended; later calls, of either
   *  variant, change nothing. */
  lemma NoStreamingReadWriteEffect(s: GenState)
    ensures var r := NoStreamingReadWriteSpec(s);
      && ReadWriteKey in r.registry
      && (ReadWriteKey in s.registry ==> r == s)
      && (ReadWriteKey !in s.registry ==>
            && r.registry == s.registry + {ReadWriteKey, PrimitiveKey(Q), PrimitiveKey(D), PrimitiveKey(Offset)}
            && r.launcher == s.launcher && r.kernel == s.kernel && r.before == s.before && r.after == s.after
            && r.index == s.index + ReadLoopLines(s.d) && r.write == s.write + InPlaceWriteLoopLines(s.d)
            && CallsBefore(s, r))
  {
    NoStreamingDependenciesEffect(s);
  }

  /** `read_write()` registered, then the mask hooked when asked for. */
  lemma RegisterAndMaskEffect(s: GenState, mask: bool)
    ensures var s1 := RegisterStep(s, ReadWriteKey);
      var r := if mask then NoStreamMaskSpec(s1) else s1;
      && r.registry == s.registry + {ReadWriteKey} && r.after == s.after
      && (mask ==> MaskName in r.launcher && MaskName in r.kernel)
      && (!mask ==> r.launcher == s.launcher && r.kernel == s.kernel)
      && Extends(s, r) && |r.trace| >= |s.trace| + 1
      && r.trace[|s.trace|].call == Registered(ReadWriteKey)
  {
    var s1 := RegisterStep(s, ReadWriteKey);
    var r := if mask then NoStreamMaskSpec(s1) else s1;
    RegisterExtends(s, ReadWriteKey);
    NoStreamMaskEffect(s1);
    ExtendsTrans(s, s1, r);
    assert r.trace[|s.trace|] == r.trace[..|s1.trace|][|s.trace|];
  }

  /** `generate_f_next` after the registration of `read_write()`. */
  lemma FNextAfterRegister(s: GenState, s2: GenState)
    requires s2.registry == s.registry + {ReadWriteKey} && s2.after == s.after
    requires Extends(s, s2) && |s2.trace| >= |s.trace| + 1
    ensures var r := FNextSpec(s2);
      && r.registry == s.registry + {ReadWriteKey, FNextKey}
      && (FNextKey !in s.registry ==> FNextName in r.launcher && FNextName in r.kernel)
      && r.after == s.after + (if FNextKey in s.registry then [] else [SwapLine])
      && (MaskName in r.launcher <==> MaskName in s2.launcher) && (MaskName in r.kernel <==> MaskName in s2.kernel)
      && Extends(s, r) && |r.trace| >= |s.trace| + 1
      && r.trace[|s.trace|] == s2.trace[|s.trace|]
  {
    var r := FNextSpec(s2);
    FNextEffect(s2);
    ExtendsTrans(s, s2, r);
    assert r.trace[|s.trace|] == r.trace[..|s2.trace|][|s.trace|];
    if FNextKey !in s2.registry {
      assert FNextName != MaskName;
    }
  }

  lemma StandardHooksEffect(s: GenState, mask: bool)
    ensures var r := StandardHooks(s, mask);
      && r.registry == s.registry + {ReadWriteKey, FNextKey}
      && (FNextKey !in s.registry ==> FNextName in r.launcher && FNextName in r.kernel)
      && r.after == s.after + (if FNextKey in s.registry then [] else [SwapLine])
      && (mask ==> MaskName in r.launcher && MaskName in r.kernel)
      && (!mask ==> (MaskName in r.launcher <==> MaskName in s.launcher) && (MaskName in r.kernel <==> MaskName in s.kernel))
      && Extends(s, r) && |r.trace| >= |s.trace| + 1
      && r.trace[|s.trace|].call == Registered(ReadWriteKey)
  {
    var s1 := RegisterStep(s, ReadWriteKey);
    var s2 := if mask then NoStreamMaskSpec(s1) else s1;
    RegisterAndMaskEffect(s, mask);
    FNextAfterRegister(s, s2);
  }

  lemma RequestPrimitivesEffect(s: GenState)
    ensures var r := RequestPrimitives(s);
      && r.registry == s.registry + {PrimitiveKey(Offset), PrimitiveKey(Index), PrimitiveKey(Dimension), PrimitiveKey(Q), PrimitiveKey(E)}
      && r.launcher == s.launcher && r.kernel == s.kernel && r.before == s.before && r.after == s.after
      && Extends(s, r) && |r.trace| == |s.trace| + 5
      && r.trace[..|s.trace|] == s.trace
      && r.trace[|s.trace|].call == Requested(Offset)
      && r.trace[|s.trace| + 1].call == Requested(Index)
      && r.trace[|s.trace| + 2].call == Requested(Dimension)
      && r.trace[|s.trace| + 3].call == Requested(Q)
      && r.trace[|s.trace| + 4].call == Requested(E)
  {
    var t1 := RequestStep(s, Offset);
    var t2 := RequestStep(t1, Index);
    var t3 := RequestStep(t2, Dimension);
    var t4 := RequestStep(t3, Q);
    RequestExtends(s, Offset);
    RequestExtends(t1, Index);
    RequestExtends(t2, Dimension);
    RequestExtends(t3, Q);
    RequestExtends(t4, E);
    ExtendsTrans(s, t1, t2);
    ExtendsTrans(s, t2, t3);
    ExtendsTrans(s, t3, t4);
    ExtendsTrans(s, t4, RequestStep(t4, E));
  }

  /** The dependencies of standard streaming: `read_write()` registered first, then the mask
   *  hooks when asked for, `f_next`, and the five primitives, all before any line is emitted. */
  lemma StandardDependenciesEffect(s: GenState, mask: bool)
    ensures var r := StandardDependencies(s, mask);
      && r.registry == s.registry + {ReadWriteKey, FNextKey}
           + {PrimitiveKey(Offset), PrimitiveKey(Index), PrimitiveKey(Dimension), PrimitiveKey(Q), PrimitiveKey(E)}
      && (FNextKey !in s.registry ==> FNextName in r.launcher && FNextName in r.kernel)
      && r.after == s.after + (if FNextKey in s.registry then [] else [SwapLine])
      && (mask ==> MaskName in r.launcher && MaskName in r.kernel)
      && (!mask ==> (MaskName in r.launcher <==> MaskName in s.launcher) && (MaskName in r.kernel <==> MaskName in s.kernel))
      && Extends(s, r) && |r.trace| >= |s.trace| + 6
      && r.trace[|s.trace|].call == Registered(ReadWriteKey)
      && r.trace[|r.trace| - 5].call == Requested(Offset)
      && r.trace[|r.trace| - 4].call == Requested(Index)
      && r.trace[|r.trace| - 3].call == Requested(Dimension)
      && r.trace[|r.trace| - 2].call == Requested(Q)
      && r.trace[|r.trace| - 1].call == Requested(E)
  {
    var h := StandardHooks(s, mask);
    StandardHooksEffect(s, mask);
    RequestPrimitivesEffect(h);
    ExtendsTrans(s, h, RequestPrimitives(h));
    assert RequestPrimitives(h).trace[|s.trace|] == RequestPrimitives(h).trace[..|h.trace|][|s.trace|];
  }

  /** `NativeStandardStreaming.generate_read_write`: on the first call, the dependencies are
   *  requested and then the read loop and the streaming write loop are appended; later calls,
   *  of either variant, change nothing. */
  lemma StandardReadWriteEffect(s: GenState, mask: bool)
    ensures var r := StandardReadWriteSpec(s, mask);
      && ReadWriteKey in r.registry
      && (ReadWriteKey in s.registry ==> r == s)
      && (ReadWriteKey !in s.registry ==>
            && r.registry == s.registry + {ReadWriteKey, FNextKey}
                 + {PrimitiveKey(Offset), PrimitiveKey(Index), PrimitiveKey(Dimension), PrimitiveKey(Q), PrimitiveKey(E)}
            && (FNextKey !in s.registry ==> FNextName in r.launcher && FNextName in r.kernel)
            && r.after == s.after + (if FNextKey in s.registry then [] else [SwapLine])
            && (mask ==> MaskName in r.launcher && MaskName in r.kernel)
            && (!mask ==> (MaskName in r.launcher <==> MaskName in s.launcher) && (MaskName in r.kernel <==> MaskName in s.kernel))
            && r.index == s.index + ReadLoopLines(s.d) && r.write == s.write + StreamingWriteLoopLines(s.d, mask)
            && CallsBefore(s, r))
  {
    StandardDependenciesEffect(s, mask);
  }

  /** `read_write()` is one registry key for both variants: after either has generated its
   *  loops, a further `generate_read_write` of either variant changes nothing. */
  lemma ReadWriteOnce(first: NativeStreaming, second: NativeStreaming, s: GenState)
    ensures ReadWriteSpec(second, ReadWriteSpec(first, s)) == ReadWriteSpec(first, s)
  {
    var r := ReadWriteSpec(first, s);
    match first
    case NativeNoStreaming => NoStreamingReadWriteEffect(s);
    case NativeStandardStreaming(mask) => StandardReadWriteEffect(s, mask);
    match second
    case NativeNoStreaming => NoStreamingReadWriteEffect(r);
    case NativeStandardStreaming(mask) => StandardReadWriteEffect(r, mask);
  }

  /** Whatever the variant, the buffers stay swapped once per step. */
  lemma ReadWriteSwapsOnce(st: NativeStreaming, s: GenState)
    requires SwapsOnce(s)
    ensures SwapsOnce(ReadWriteSpec(st, s))
  {
    match st
    case NativeNoStreaming =>
      NoStreamingReadWriteEffect(s);
      assert FNextKey != ReadWriteKey;
    case NativeStandardStreaming(mask) =>
      StandardReadWriteEffect(s, mask);
      assert FNextKey != ReadWriteKey;
  }
}
