/**
 * The code generator that native components contribute to. It keeps a registry of
 * generated fragments, two tables of parameters hooked into the kernel launcher and
 * into the kernel itself, and four line buffers: the per-cell index section of the
 * kernel, its write section, and the Python wrapper code run before and after the
 * kernel. Contributors follow a check-then-act discipline against this state.
 *
 * Emitted kernel lines are tagged items rather than text; their meaning is given in
 * module StreamingKernel.
 */
module NativeGenerator {

  /** Fragments produced by collaborators outside this model (stencil, CUDA launch geometry). */
  datatype Primitive = Q | D | E | Offset | Index | Dimension

  /** Registry keys: a named fragment such as `read_write()` or `f_next`, or a collaborator's primitive. */
  datatype Key = Fragment(name: string) | PrimitiveKey(p: Primitive)

  /** A launcher parameter: its C++ declaration, the argument passed on, and the Python expression supplying it. */
  datatype LauncherSlot = LauncherSlot(declaration: string, argument: string, expression: string)

  /** A kernel parameter: its C++ declaration and the launcher expression supplying it. */
  datatype KernelSlot = KernelSlot(declaration: string, expression: string)

  /** An index term of a lattice coordinate: `q_`, one of the axis variables `x_`, `y_`, `z_`,
   *  or one component `index[k]` of the cell index. */
  datatype Term = DirectionVar | AxisVar(axis: nat) | CellIndex(axis: nat)

  /** A lattice coordinate over index terms; its text is produced outside this model. */
  datatype Coordinate = LatticeCoordinate(terms: seq<Term>)

  /** One emitted kernel line. */
  datatype Line =
    | Blank                       // whitespace only
    | DeclareRegisters            // scalar_t f_reg[q];
    | PragmaUnroll                // #pragma unroll
    | ForDirections               // for (index_t i = 0; i < q; ++i) {
    | DirectionAsQ                // const index_t q_ = i;
    | AxisFromIndex(axis: nat)    // const index_t x_ = index[0];
    | ReadF(at: Coordinate)       // f_reg[i] = f[coord];
    | WriteF(at: Coordinate)      // f[coord] = f_reg[i];
    | WriteFNext(at: Coordinate)  // f_next[coord] = f_reg[i];
    | IfMasked(at: Coordinate)    // if (no_stream_mask[mask_coord]) {
    | Else                        // } else {
    | ShiftAxis(axis: nat)        // index_t x_ = index[0] + e[i][0];
    | WrapBelow(axis: nat)        // if (x_ < 0) x_ += dimension[0];
    | WrapAbove(axis: nat)        // else if (x_ >= dimension[0]) x_ -= dimension[0];
    | CloseBlock                  // }

  /** A registry or hook operation on the generator. */
  datatype Call =
    | Registered(key: Key)
    | Requested(p: Primitive)
    | LauncherHooked(name: string)
    | KernelHooked(name: string)

  /** A call, with the lengths the index and write buffers had when it was made. */
  datatype Event = Event(call: Call, indexLength: nat, writeLength: nat)

  /** A conditionally appended line: `append_*_buffer(line, cond)` keeps it only when `cond` holds. */
  function When(cond: bool, line: Line): (r: seq<Line>)
    ensures cond ==> r == [line]
    ensures !cond ==> r == []
  {
    if cond then [line] else []
  }

  /** The abstract state of a generator, with the history of the calls made on it. */
  datatype GenState = GenState(
    d: nat,
    registry: set<Key>,
    launcher: map<string, LauncherSlot>,
    kernel: map<string, KernelSlot>,
    index: seq<Line>,
    write: seq<Line>,
    before: seq<string>,
    after: seq<string>,
    trace: seq<Event>)

  /** A fresh generator for a stencil of dimension `d`. */
  function Initial(d: nat): (s: GenState)
    ensures s.registry == {} && s.launcher == map[] && s.kernel == map[]
    ensures s.index == [] && s.write == [] && s.before == [] && s.after == [] && s.trace == []
  {
    GenState(d, {}, map[], map[], [], [], [], [], [])
  }

  // ---------------------------------------------------------------------------
  // One step per generator operation
  // ---------------------------------------------------------------------------

  /** The trace entry for `call` made in state `s`. */
  function Logged(s: GenState, call: Call): Event {
    Event(call, |s.index|, |s.write|)
  }

  function RegisterStep(s: GenState, k: Key): (r: GenState)
    ensures r.registry == s.registry + {k} && r.trace == s.trace + [Logged(s, Registered(k))]
    ensures r == s.(registry := r.registry, trace := r.trace)
  {
    s.(registry := s.registry + {k}, trace := s.trace + [Logged(s, Registered(k))])
  }

  function LauncherHookStep(s: GenState, name: string, slot: LauncherSlot): (r: GenState)
    ensures r.launcher == s.launcher[name := slot] && r.trace == s.trace + [Logged(s, LauncherHooked(name))]
    ensures r == s.(launcher := r.launcher, trace := r.trace)
  {
    s.(launcher := s.launcher[name := slot], trace := s.trace + [Logged(s, LauncherHooked(name))])
  }

  function KernelHookStep(s: GenState, name: string, slot: KernelSlot): (r: GenState)
    ensures r.kernel == s.kernel[name := slot] && r.trace == s.trace + [Logged(s, KernelHooked(name))]
    ensures r == s.(kernel := r.kernel, trace := r.trace)
  {
    s.(kernel := s.kernel[name := slot], trace := s.trace + [Logged(s, KernelHooked(name))])
  }

  function AppendBeforeStep(s: GenState, text: string): (r: GenState)
    ensures r == s.(before := s.before + [text])
  {
    s.(before := s.before + [text])
  }

  function AppendAfterStep(s: GenState, text: string): (r: GenState)
    ensures r == s.(after := s.after + [text])
  {
    s.(after := s.after + [text])
  }

  /** A collaborator's `generate_*`: registers its primitive (a repeated request changes nothing else). */
  function RequestStep(s: GenState, p: Primitive): (r: GenState)
    ensures r.registry == s.registry + {PrimitiveKey(p)} && r.trace == s.trace + [Logged(s, Requested(p))]
    ensures r == s.(registry := r.registry, trace := r.trace)
  {
    s.(registry := s.registry + {PrimitiveKey(p)}, trace := s.trace + [Logged(s, Requested(p))])
  }

  // ---------------------------------------------------------------------------
  // The generator object
  // ---------------------------------------------------------------------------

  class Generator {
    /** Dimension of the stencil the generator is built for. */
    const d: nat
    var registry: set<Key>
    var launcher: map<string, LauncherSlot>
    var kernel: map<string, KernelSlot>
    var indexBuffer: seq<Line>
    var writeBuffer: seq<Line>
    var pythonBefore: seq<string>
    var pythonAfter: seq<string>
    ghost var trace: seq<Event>

    ghost function State(): GenState
      reads this
    {
      GenState(d, registry, launcher, kernel, indexBuffer, writeBuffer, pythonBefore, pythonAfter, trace)
    }

    constructor (d: nat)
      ensures State() == Initial(d)
    {
      this.d := d;
      registry, launcher, kernel := {}, map[], map[];
      indexBuffer, writeBuffer, pythonBefore, pythonAfter := [], [], [], [];
      trace := [];
    }

    predicate IsRegistered(k: Key)
      reads this
    {
      k in registry
    }

    predicate IsLauncherHooked(name: string)
      reads this
    {
      name in launcher
    }

    predicate IsKernelHooked(name: string)
      reads this
    {
      name in kernel
    }

    method Register(k: Key)
      modifies this`registry, this`trace
      ensures registry == old(registry) + {k}
      ensures trace == old(trace) + [Event(Registered(k), |indexBuffer|, |writeBuffer|)]
    {
      registry := registry + {k};
      trace := trace + [Event(Registered(k), |indexBuffer|, |writeBuffer|)];
    }

    method LauncherHook(name: string, declaration: string, argument: string, expression: string)
      modifies this`launcher, this`trace
      ensures launcher == old(launcher)[name := LauncherSlot(declaration, argument, expression)]
      ensures trace == old(trace) + [Event(LauncherHooked(name), |indexBuffer|, |writeBuffer|)]
    {
      launcher := launcher[name := LauncherSlot(declaration, argument, expression)];
      trace := trace + [Event(LauncherHooked(name), |indexBuffer|, |writeBuffer|)];
    }

    method KernelHook(name: string, declaration: string, expression: string)
      modifies this`kernel, this`trace
      ensures kernel == old(kernel)[name := KernelSlot(declaration, expression)]
      ensures trace == old(trace) + [Event(KernelHooked(name), |indexBuffer|, |writeBuffer|)]
    {
      kernel := kernel[name := KernelSlot(declaration, expression)];
      trace := trace + [Event(KernelHooked(name), |indexBuffer|, |writeBuffer|)];
    }

    method AppendIndexBuffer(line: Line, cond: bool := true)
      modifies this`indexBuffer
      ensures indexBuffer == old(indexBuffer) + When(cond, line)
    {
      if cond {
        indexBuffer := indexBuffer + [line];
      }
    }

    method AppendWriteBuffer(line: Line, cond: bool := true)
      modifies this`writeBuffer
      ensures writeBuffer == old(writeBuffer) + When(cond, line)
    {
      if cond {
        writeBuffer := writeBuffer + [line];
      }
    }

    method AppendPythonWrapperBeforeBuffer(text: string)
      modifies this`pythonBefore
      ensures pythonBefore == old(pythonBefore) + [text]
    {
      pythonBefore := pythonBefore + [text];
    }

    method AppendPythonWrapperAfterBuffer(text: string)
      modifies this`pythonAfter
      ensures pythonAfter == old(pythonAfter) + [text]
    {
      pythonAfter := pythonAfter + [text];
    }

    /** Stands for a collaborator's `generate_q`, `generate_e`, `generate_offset`, ... */
    method Request(p: Primitive)
      modifies this`registry, this`trace
      ensures registry == old(registry) + {PrimitiveKey(p)}
      ensures trace == old(trace) + [Event(Requested(p), |indexBuffer|, |writeBuffer|)]
    {
      registry := registry + {PrimitiveKey(p)};
      trace := trace + [Event(Requested(p), |indexBuffer|, |writeBuffer|)];
    }
  }
}
