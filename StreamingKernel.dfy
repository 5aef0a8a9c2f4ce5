/**
 * What the emitted loops do. Each kernel line is given its meaning as a step on the state of
 * one iteration of the direction loop at one cell: the variable `q_`, the axis variables in
 * scope, the blocks that are open and whether each is taken, and the entries of `f` and
 * `f_next` accessed so far. The theorems say which entries one iteration of each loop the
 * streaming contributors emit reads and writes.
 */
module StreamingKernel {
  import opened Results
  import opened NativeGenerator
  import opened NativeStreaming

  /** What an iteration sees: its direction `i`, the velocity `e[i]` of that direction, the
   *  cell's `index`, the lattice extent `dimension`, and the no-streaming mask as a predicate
   *  on cell indices. */
  datatype Env = Env(i: int, e: seq<int>, index: seq<int>, dimension: seq<int>, masked: seq<int> -> bool)

  /** The state of one iteration. `blocks` says for each open block whether it is taken;
   *  `wrappedBelow` remembers whether the last `if (x_ < 0)` fired, for its `else if`. */
  datatype Exec = Exec(
    q: Option<int>,
    axes: map<nat, int>,
    blocks: seq<bool>,
    wrappedBelow: bool,
    failed: bool,
    fromF: seq<seq<int>>,
    toF: seq<seq<int>>,
    toFNext: seq<seq<int>>)

  function Start(): Exec {
    Exec(None, map[], [], false, false, [], [], [])
  }

  /** Statements run only when every enclosing block is taken. */
  predicate Active(x: Exec) {
    false !in x.blocks
  }

  predicate Defined(env: Env, x: Exec, t: Term) {
    match t
    case DirectionVar => x.q.Some?
    case AxisVar(a) => a in x.axes
    case CellIndex(a) => a < |env.index|
  }

  function Value(env: Env, x: Exec, t: Term): int
    requires Defined(env, x, t)
  {
    match t
    case DirectionVar => x.q.value
    case AxisVar(a) => x.axes[a]
    case CellIndex(a) => env.index[a]
  }

  /** The entry a coordinate denotes, or `None` when it uses a variable that is not in scope. */
  function Eval(env: Env, x: Exec, c: Coordinate): Option<seq<int>> {
    if forall k :: 0 <= k < |c.terms| ==> Defined(env, x, c.terms[k]) then
      Some(seq(|c.terms|, k requires 0 <= k < |c.terms| => Value(env, x, c.terms[k])))
    else
      None
  }

  /** The meaning of one line. A line that uses an undefined variable, or closes a block that
   *  is not open, makes the iteration fail. */
  function Step(env: Env, x: Exec, l: Line): Exec {
    if x.failed then x
    else
      match l
      case Blank => x
      case DeclareRegisters => x
      case PragmaUnroll => x
      case ForDirections => x.(blocks := x.blocks + [true])
      case DirectionAsQ => if Active(x) then x.(q := Some(env.i)) else x
      case AxisFromIndex(a) =>
        if !Active(x) then x
        else if a < |env.index| then x.(axes := x.axes[a := env.index[a]])
        else x.(failed := true)
      case ReadF(c) =>
        if !Active(x) then x
        else if Eval(env, x, c).None? then x.(failed := true)
        else x.(fromF := x.fromF + [Eval(env, x, c).value])
      case WriteF(c) =>
        if !Active(x) then x
        else if Eval(env, x, c).None? then x.(failed := true)
        else x.(toF := x.toF + [Eval(env, x, c).value])
      case WriteFNext(c) =>
        if !Active(x) then x
        else if Eval(env, x, c).None? then x.(failed := true)
        else x.(toFNext := x.toFNext + [Eval(env, x, c).value])
      case IfMasked(c) =>
        if !Active(x) then x.(blocks := x.blocks + [false])
        else if Eval(env, x, c).None? then x.(failed := true)
        else x.(blocks := x.blocks + [env.masked(Eval(env, x, c).value)])
      case Else =>
        if |x.blocks| == 0 then x.(failed := true)
        else x.(blocks := x.blocks[..|x.blocks| - 1] + [!x.blocks[|x.blocks| - 1]])
      case ShiftAxis(a) =>
        if !Active(x) then x
        else if a < |env.index| && a < |env.e| then x.(axes := x.axes[a := env.index[a] + env.e[a]])
        else x.(failed := true)
      case WrapBelow(a) =>
        if !Active(x) then x
        else if a !in x.axes || a >= |env.dimension| then x.(failed := true)
        else if x.axes[a] < 0 then x.(axes := x.axes[a := x.axes[a] + env.dimension[a]], wrappedBelow := true)
        else x.(wrappedBelow := false)
      case WrapAbove(a) =>
        if !Active(x) then x
        else if a !in x.axes || a >= |env.dimension| then x.(failed := true)
        else if !x.wrappedBelow && x.axes[a] >= env.dimension[a] then x.(axes := x.axes[a := x.axes[a] - env.dimension[a]])
        else x
      case CloseBlock =>
        if |x.blocks| == 0 then x.(failed := true)
        else x.(blocks := x.blocks[..|x.blocks| - 1])
  }

  /** The lines run one after the other. */
  function Run(env: Env, ls: seq<Line>, x: Exec): Exec
    decreases |ls|
  {
    if ls == [] then x else Run(env, ls[1..], Step(env, x, ls[0]))
  }

  lemma {:induction false} RunAppend(env: Env, a: seq<Line>, b: seq<Line>, x: Exec)
    ensures Run(env, a + b, x) == Run(env, b, Run(env, a, x))
    decreases |a|
  {
    if a == [] {
      assert a + b == b;
    } else {
      assert (a + b)[0] == a[0];
      assert (a + b)[1..] == a[1..] + b;
      RunAppend(env, a[1..], b, Step(env, x, a[0]));
    }
  }

  lemma RunOne(env: Env, l0: Line, x: Exec)
    ensures Run(env, [l0], x) == Step(env, x, l0)
  {
    assert [l0][1..] == [];
    assert Run(env, [l0], x) == Run(env, [], Step(env, x, l0));
  }

  lemma RunTwo(env: Env, l0: Line, l1: Line, x: Exec)
    ensures Run(env, [l0, l1], x) == Step(env, Step(env, x, l0), l1)
  {
    assert [l0, l1][1..] == [l1];
    assert Run(env, [l0, l1], x) == Run(env, [l1], Step(env, x, l0));
    RunOne(env, l1, Step(env, x, l0));
  }

  lemma RunThree(env: Env, l0: Line, l1: Line, l2: Line, x: Exec)
    ensures Run(env, [l0, l1, l2], x) == Step(env, Step(env, Step(env, x, l0), l1), l2)
  {
    assert [l0, l1, l2][1..] == [l1, l2];
    assert Run(env, [l0, l1, l2], x) == Run(env, [l1, l2], Step(env, x, l0));
    RunTwo(env, l1, l2, Step(env, x, l0));
  }

  lemma RunFour(env: Env, l0: Line, l1: Line, l2: Line, l3: Line, x: Exec)
    ensures Run(env, [l0, l1, l2, l3], x) == Step(env, Step(env, Step(env, Step(env, x, l0), l1), l2), l3)
  {
    assert [l0, l1, l2, l3][1..] == [l1, l2, l3];
    assert Run(env, [l0, l1, l2, l3], x) == Run(env, [l1, l2, l3], Step(env, x, l0));
    RunThree(env, l1, l2, l3, Step(env, x, l0));
  }

  lemma RunFive(env: Env, l0: Line, l1: Line, l2: Line, l3: Line, l4: Line, x: Exec)
    ensures Run(env, [l0, l1, l2, l3, l4], x)
         == Step(env, Step(env, Step(env, Step(env, Step(env, x, l0), l1), l2), l3), l4)
  {
    assert [l0, l1, l2, l3, l4][1..] == [l1, l2, l3, l4];
    assert Run(env, [l0, l1, l2, l3, l4], x) == Run(env, [l1, l2, l3, l4], Step(env, x, l0));
    RunFour(env, l1, l2, l3, l4, Step(env, x, l0));
  }

  // ---------------------------------------------------------------------------
  // Reference values
  // ---------------------------------------------------------------------------

  /** One periodic wrap, as the emitted `if (x_ < 0) x_ += n; else if (x_ >= n) x_ -= n;`. */
  function Wrapped(v: int, n: int): int {
    if v < 0 then v + n else if v >= n then v - n else v
  }

  /** A single wrap is the remainder modulo the extent once the shifted index is at most one
   *  extent out of range on either side. */
  lemma WrapIsModulo(v: int, n: int)
    requires n > 0 && -n <= v < 2 * n
    ensures 0 <= Wrapped(v, n) < n
    ensures Wrapped(v, n) == v % n
  {
    var q := v / n;
    assert v == q * n + v % n;
    ScaledBounds(q, n);
  }

  /** Multiples of a positive `n` by a quotient of at least one in magnitude. */
  lemma ScaledBounds(q: int, n: int)
    requires n > 0
    ensures q >= 0 ==> q * n >= 0
    ensures q >= 2 ==> q * n >= 2 * n
    ensures q <= -1 ==> q * n <= -n
    ensures q <= -2 ==> q * n <= -2 * n
    ensures q >= 1 ==> q * n >= n
  {
  }

  /** The wrapped axis variables of the first `n` axes after the shift by the direction. */
  function Shifted(env: Env, n: nat): seq<int>
    requires n <= |env.index| && n <= |env.e| && n <= |env.dimension|
  {
    seq(n, a requires 0 <= a < n => Wrapped(env.index[a] + env.e[a], env.dimension[a]))
  }

  /** The periodic neighbour along direction `i`: `(index + e[i]) mod dimension` per axis. */
  function Neighbour(env: Env, n: nat): seq<int>
    requires n <= |env.index| && n <= |env.e| && n <= |env.dimension|
    requires forall a :: 0 <= a < n ==> env.dimension[a] > 0
  {
    seq(n, a requires 0 <= a < n => (env.index[a] + env.e[a]) % env.dimension[a])
  }

  /** Cell indices inside the lattice and velocities of at most one extent. */
  predicate InLattice(env: Env, n: nat) {
    && n <= |env.index| && n <= |env.e| && n <= |env.dimension|
    && forall a :: 0 <= a < n ==>
         && 0 <= env.index[a] < env.dimension[a]
         && -env.dimension[a] <= env.e[a] <= env.dimension[a]
  }

  lemma ShiftedIsNeighbour(env: Env, n: nat)
    requires InLattice(env, n)
    ensures Shifted(env, n) == Neighbour(env, n)
    ensures forall a :: 0 <= a < n ==> 0 <= Neighbour(env, n)[a] < env.dimension[a]
  {
    forall a | 0 <= a < n
      ensures Shifted(env, n)[a] == Neighbour(env, n)[a]
      ensures 0 <= Neighbour(env, n)[a] < env.dimension[a]
    {
      WrapIsModulo(env.index[a] + env.e[a], env.dimension[a]);
    }
  }

  /** `m` holds exactly the axes below `|vals|`, with those values. */
  ghost predicate AxesAre(m: map<nat, int>, vals: seq<int>) {
    && (forall a: nat :: a in m <==> a < |vals|)
    && forall a: nat :: a < |vals| ==> m[a] == vals[a]
  }

  // ---------------------------------------------------------------------------
  // Blocks
  // ---------------------------------------------------------------------------

  /** A line that opens or closes no block. */
  predicate Plain(l: Line) {
    !(l.ForDirections? || l.IfMasked? || l.Else? || l.CloseBlock?)
  }

  /** In a block that is not taken, plain lines do nothing. */
  lemma {:induction false} RunInactive(env: Env, ls: seq<Line>, x: Exec)
    requires !Active(x)
    requires forall k :: 0 <= k < |ls| ==> Plain(ls[k])
    ensures Run(env, ls, x) == x
    decreases |ls|
  {
    if ls != [] {
      assert Step(env, x, ls[0]) == x;
      RunInactive(env, ls[1..], x);
    }
  }

  lemma {:induction false} WrapsLinesPlain(n: nat)
    ensures forall k :: 0 <= k < |WrapsLines(n)| ==> Plain(WrapsLines(n)[k])
  {
    if n > 0 {
      WrapsLinesPlain(n - 1);
      assert WrapsLines(n) == WrapsLines(n - 1) + WrapLines(n - 1);
    }
  }

  lemma RunLoopHeader(env: Env, x: Exec)
    requires !x.failed && Active(x)
    ensures Run(env, LoopHeaderLines, x) == x.(q := Some(env.i), blocks := x.blocks + [true])
  {
    RunFive(env, Blank, PragmaUnroll, ForDirections, Blank, DirectionAsQ, x);
  }

  lemma RunAxes(env: Env, x: Exec, d: nat)
    requires !x.failed && Active(x) && x.axes == map[]
    requires Min(d, 3) <= |env.index|
    ensures var y := Run(env, AxisLines(d), x);
      y == x.(axes := y.axes) && AxesAre(y.axes, env.index[..Min(d, 3)])
  {
    var a0, a1, a2 := AxisFromIndex(0), AxisFromIndex(1), AxisFromIndex(2);
    if d == 0 {
      assert AxisLines(d) == [];
    } else if d == 1 {
      assert AxisLines(d) == [a0];
      RunOne(env, a0, x);
    } else if d == 2 {
      assert AxisLines(d) == [a0, a1];
      RunTwo(env, a0, a1, x);
    } else {
      assert AxisLines(d) == [a0, a1, a2];
      RunThree(env, a0, a1, a2, x);
    }
  }

  /** The coordinate `[q_, x_, ...]` of `Coord` once the axis variables hold `vals`. */
  lemma EvalCoord(env: Env, x: Exec, d: nat, vals: seq<int>)
    requires x.q == Some(env.i) && AxesAre(x.axes, vals) && |vals| == Min(d, 3)
    ensures Eval(env, x, Coord(d)) == Some([env.i] + vals)
  {
    var ts := Coord(d).terms;
    assert |ts| == |vals| + 1;
    assert forall k :: 1 <= k < |ts| ==> ts[k] == AxisVar(k - 1);
    assert forall k :: 0 <= k < |ts| ==> Defined(env, x, ts[k]);
    var r := Eval(env, x, Coord(d)).value;
    assert r == [env.i] + vals by {
      assert forall k :: 0 <= k < |ts| ==> r[k] == ([env.i] + vals)[k];
    }
  }

  /** The mask coordinate denotes the cell itself. */
  lemma EvalMaskCoord(env: Env, x: Exec, d: nat)
    requires Min(d, 3) <= |env.index|
    ensures Eval(env, x, MaskCoord(d)) == Some(env.index[..Min(d, 3)])
  {
    var ts := MaskCoord(d).terms;
    assert forall k :: 0 <= k < |ts| ==> ts[k] == CellIndex(k);
    var r := Eval(env, x, MaskCoord(d)).value;
    assert r == env.index[..Min(d, 3)] by {
      assert forall k :: 0 <= k < |ts| ==> r[k] == env.index[k];
    }
  }

  /** The shift of axis `a` leaves it wrapped into the lattice. */
  lemma RunWrap(env: Env, x: Exec, a: nat)
    requires !x.failed && Active(x)
    requires a < |env.index| && a < |env.e| && a < |env.dimension|
    ensures Run(env, WrapLines(a), x)
         == x.(axes := x.axes[a := Wrapped(env.index[a] + env.e[a], env.dimension[a])],
               wrappedBelow := env.index[a] + env.e[a] < 0)
  {
    var v, n := env.index[a] + env.e[a], env.dimension[a];
    RunFour(env, ShiftAxis(a), WrapBelow(a), WrapAbove(a), Blank, x);
    var x1 := Step(env, x, ShiftAxis(a));
    assert x1 == x.(axes := x.axes[a := v]);
    var x2 := Step(env, x1, WrapBelow(a));
    if v < 0 {
      assert x2 == x.(axes := x.axes[a := v + n], wrappedBelow := true) by {
        assert x.axes[a := v][a := v + n] == x.axes[a := v + n];
      }
    } else if v >= n {
      assert x2 == x1.(wrappedBelow := false);
      assert Step(env, x2, WrapAbove(a)) == x.(axes := x.axes[a := v - n], wrappedBelow := false) by {
        assert x.axes[a := v][a := v - n] == x.axes[a := v - n];
      }
    } else {
      assert x2 == x1.(wrappedBelow := false);
    }
  }

  /** The shifts of the first `n` axes leave the axis variables at the wrapped neighbour. */
  lemma {:induction false} RunWraps(env: Env, x: Exec, n: nat)
    requires !x.failed && Active(x) && x.axes == map[]
    requires n <= |env.index| && n <= |env.e| && n <= |env.dimension|
    ensures var y := Run(env, WrapsLines(n), x);
      y == x.(axes := y.axes, wrappedBelow := y.wrappedBelow) && AxesAre(y.axes, Shifted(env, n))
  {
    if n == 0 {
      assert WrapsLines(n) == [];
    } else {
      RunWraps(env, x, n - 1);
      RunWrapsStep(env, x, n, Run(env, WrapsLines(n - 1), x));
    }
  }

  /** The shift of one more axis extends the wrapped axis variables by one. */
  lemma RunWrapsStep(env: Env, x: Exec, n: nat, y0: Exec)
    requires !x.failed && Active(x) && 0 < n
    requires n <= |env.index| && n <= |env.e| && n <= |env.dimension|
    requires y0 == Run(env, WrapsLines(n - 1), x)
    requires y0 == x.(axes := y0.axes, wrappedBelow := y0.wrappedBelow) && AxesAre(y0.axes, Shifted(env, n - 1))
    ensures var y := Run(env, WrapsLines(n), x);
      y == x.(axes := y.axes, wrappedBelow := y.wrappedBelow) && AxesAre(y.axes, Shifted(env, n))
  {
    var w := Wrapped(env.index[n - 1] + env.e[n - 1], env.dimension[n - 1]);
    var y := Run(env, WrapsLines(n), x);
    assert y == y0.(axes := y0.axes[n - 1 := w], wrappedBelow := y.wrappedBelow) by {
      RunAppend(env, WrapsLines(n - 1), WrapLines(n - 1), x);
      RunWrap(env, y0, n - 1);
    }
    assert Shifted(env, n) == Shifted(env, n - 1) + [w];
    AxesExtend(y0.axes, Shifted(env, n - 1), w);
  }

  lemma AxesExtend(m: map<nat, int>, vals: seq<int>, v: int)
    requires AxesAre(m, vals)
    ensures AxesAre(m[|vals| := v], vals + [v])
  {
  }

  // ---------------------------------------------------------------------------
  // The loops
  // ---------------------------------------------------------------------------

  /** One iteration of the read loop copies entry `[i, index...]` of `f` into the register and
   *  touches nothing else. */
  lemma ReadLoopReadsOwnCell(env: Env, d: nat)
    requires Min(d, 3) <= |env.index|
    ensures var x := Run(env, ReadLoopLines(d), Start());
      && !x.failed && x.blocks == []
      && x.fromF == [[env.i] + env.index[..Min(d, 3)]] && x.toF == [] && x.toFNext == []
  {
    var regs, tail := [Blank, DeclareRegisters], [Blank, ReadF(Coord(d)), CloseBlock, Blank];
    var x1 := Start().(q := Some(env.i), blocks := [true]);
    assert Run(env, regs + LoopHeaderLines, Start()) == x1 by {
      RunAppend(env, regs, LoopHeaderLines, Start());
      RunTwo(env, Blank, DeclareRegisters, Start());
      RunLoopHeader(env, Start());
    }
    var x2 := Run(env, AxisLines(d), x1);
    assert Run(env, regs + LoopHeaderLines + AxisLines(d), Start()) == x2 by {
      RunAppend(env, regs + LoopHeaderLines, AxisLines(d), Start());
    }
    RunAxes(env, x1, d);
    EvalCoord(env, x2, d, env.index[..Min(d, 3)]);
    RunFour(env, Blank, ReadF(Coord(d)), CloseBlock, Blank, x2);
    assert ReadLoopLines(d) == regs + LoopHeaderLines + AxisLines(d) + tail;
    RunAppend(env, regs + LoopHeaderLines + AxisLines(d), tail, Start());
  }

  /** One iteration of the no-streaming write loop stores the register back at entry
   *  `[i, index...]` of `f` and touches nothing else. */
  lemma InPlaceWriteLoopWritesOwnCell(env: Env, d: nat)
    requires Min(d, 3) <= |env.index|
    ensures var x := Run(env, InPlaceWriteLoopLines(d), Start());
      && !x.failed && x.blocks == []
      && x.fromF == [] && x.toF == [[env.i] + env.index[..Min(d, 3)]] && x.toFNext == []
  {
    var tail := [Blank, WriteF(Coord(d)), CloseBlock, Blank];
    RunAppend(env, LoopHeaderLines + AxisLines(d), tail, Start());
    RunAppend(env, LoopHeaderLines, AxisLines(d), Start());
    RunLoopHeader(env, Start());
    var x1 := Run(env, LoopHeaderLines, Start());
    RunAxes(env, x1, d);
    var x2 := Run(env, AxisLines(d), x1);
    EvalCoord(env, x2, d, env.index[..Min(d, 3)]);
    RunFour(env, Blank, WriteF(Coord(d)), CloseBlock, Blank, x2);
  }

  /** No streaming: every population goes back to the entry it was read from. */
  lemma NoStreamingKeepsPopulations(env: Env, d: nat)
    requires Min(d, 3) <= |env.index|
    ensures Run(env, InPlaceWriteLoopLines(d), Start()).toF == Run(env, ReadLoopLines(d), Start()).fromF
  {
    ReadLoopReadsOwnCell(env, d);
    InPlaceWriteLoopWritesOwnCell(env, d);
  }

  /** The lines of the masked branch, from the test of the mask on. */
  lemma MaskedBranchSteps(env: Env, x: Exec, d: nat)
    requires !x.failed && Active(x)
    requires Min(d, 3) <= |env.index|
    ensures var x1 := x.(blocks := x.blocks + [env.masked(env.index[..Min(d, 3)])]);
      Run(env, MaskedBranchLines(d), x)
      == Step(env, Run(env, [Blank, WriteFNext(Coord(d)), Blank], Run(env, AxisLines(d), x1)), Else)
  {
    var open := [Blank, IfMasked(MaskCoord(d)), Blank];
    var store := [Blank, WriteFNext(Coord(d)), Blank];
    assert MaskedBranchLines(d) == open + AxisLines(d) + store + [Else];
    RunAppend(env, open + AxisLines(d) + store, [Else], x);
    RunAppend(env, open + AxisLines(d), store, x);
    RunAppend(env, open, AxisLines(d), x);
    EvalMaskCoord(env, x, d);
    RunThree(env, Blank, IfMasked(MaskCoord(d)), Blank, x);
    RunOne(env, Else, Run(env, store, Run(env, open + AxisLines(d), x)));
  }

  lemma MaskedCell(env: Env, x: Exec, d: nat)
    requires !x.failed && Active(x) && x.q == Some(env.i) && x.axes == map[]
    requires Min(d, 3) <= |env.index| && env.masked(env.index[..Min(d, 3)])
    ensures var y, p := Run(env, MaskedBranchLines(d), x), env.index[..Min(d, 3)];
      y == x.(axes := y.axes, blocks := x.blocks + [false], toFNext := x.toFNext + [[env.i] + p])
      && AxesAre(y.axes, p)
  {
    var p := env.index[..Min(d, 3)];
    var x1 := x.(blocks := x.blocks + [true]);
    MaskedBranchSteps(env, x, d);
    RunAxes(env, x1, d);
    var x2 := Run(env, AxisLines(d), x1);
    EvalCoord(env, x2, d, p);
    RunThree(env, Blank, WriteFNext(Coord(d)), Blank, x2);
  }

  lemma UnmaskedCell(env: Env, x: Exec, d: nat)
    requires !x.failed && Active(x)
    requires Min(d, 3) <= |env.index| && !env.masked(env.index[..Min(d, 3)])
    ensures Run(env, MaskedBranchLines(d), x) == x.(blocks := x.blocks + [true])
  {
    var x1 := x.(blocks := x.blocks + [false]);
    MaskedBranchSteps(env, x, d);
    forall k | 0 <= k < |AxisLines(d)|
      ensures Plain(AxisLines(d)[k])
    {
    }
    RunInactive(env, AxisLines(d), x1);
    RunThree(env, Blank, WriteFNext(Coord(d)), Blank, x1);
  }

  /** The standard write loop from a fresh iteration, block by block. */
  lemma StreamingWriteLoopSteps(env: Env, d: nat, mask: bool)
    ensures var x1 := Start().(q := Some(env.i), blocks := [true]);
      var m := if mask then MaskedBranchLines(d) else [];
      Run(env, StreamingWriteLoopLines(d, mask), Start())
      == Run(env, StreamingTailLines(d, mask), Run(env, WrapsLines(Min(d, 3)), Run(env, m, x1)))
  {
    var x1 := Start().(q := Some(env.i), blocks := [true]);
    var m := if mask then MaskedBranchLines(d) else [];
    var head := StreamingHeadLines(d, mask);
    assert Run(env, head, Start()) == Run(env, m, x1) by {
      RunAppend(env, LoopHeaderLines + m, [Blank], Start());
      RunAppend(env, LoopHeaderLines, m, Start());
      RunLoopHeader(env, Start());
      assert Start().blocks + [true] == [true];
      assert Run(env, LoopHeaderLines, Start()) == x1;
      RunOne(env, Blank, Run(env, m, x1));
    }
    RunAppend(env, head + WrapsLines(Min(d, 3)), StreamingTailLines(d, mask), Start());
    RunAppend(env, head, WrapsLines(Min(d, 3)), Start());
  }

  /** The store at the shifted coordinate and the closing braces, in a taken branch. */
  lemma StreamingTailTaken(env: Env, x: Exec, d: nat, mask: bool, vals: seq<int>)
    requires !x.failed && x.q == Some(env.i) && AxesAre(x.axes, vals) && |vals| == Min(d, 3)
    requires x.blocks == if mask then [true, true] else [true]
    ensures var y := Run(env, StreamingTailLines(d, mask), x);
      y == x.(blocks := [], toFNext := x.toFNext + [[env.i] + vals])
  {
    EvalCoord(env, x, d, vals);
    if mask {
      assert StreamingTailLines(d, mask) == [WriteFNext(Coord(d)), Blank, CloseBlock, CloseBlock, Blank];
      RunFive(env, WriteFNext(Coord(d)), Blank, CloseBlock, CloseBlock, Blank, x);
    } else {
      assert StreamingTailLines(d, mask) == [WriteFNext(Coord(d)), Blank, CloseBlock, Blank];
      RunFour(env, WriteFNext(Coord(d)), Blank, CloseBlock, Blank, x);
    }
  }

  /** Without the mask, or at a cell outside it: the register goes to the wrapped neighbour. */
  lemma StreamedCell(env: Env, d: nat, mask: bool)
    requires InLattice(env, Min(d, 3))
    requires mask ==> !env.masked(env.index[..Min(d, 3)])
    ensures var x := Run(env, StreamingWriteLoopLines(d, mask), Start());
      && !x.failed && x.blocks == [] && x.fromF == [] && x.toF == []
      && x.toFNext == [[env.i] + Shifted(env, Min(d, 3))]
  {
    var n := Min(d, 3);
    var x1 := Start().(q := Some(env.i), blocks := [true]);
    var m := if mask then MaskedBranchLines(d) else [];
    StreamingWriteLoopSteps(env, d, mask);
    var x2 := Run(env, m, x1);
    assert x2 == x1.(blocks := if mask then [true, true] else [true]) by {
      if mask {
        UnmaskedCell(env, x1, d);
      }
    }
    RunWraps(env, x2, n);
    StreamingTailTaken(env, Run(env, WrapsLines(n), x2), d, mask, Shifted(env, n));
  }

  /** The closing braces after a branch that is not taken. */
  lemma StreamingTailSkipped(env: Env, x: Exec, d: nat)
    requires !x.failed && x.blocks == [true, false]
    ensures Run(env, StreamingTailLines(d, true), x) == x.(blocks := [])
  {
    assert StreamingTailLines(d, true) == [WriteFNext(Coord(d)), Blank, CloseBlock, CloseBlock, Blank];
    RunFive(env, WriteFNext(Coord(d)), Blank, CloseBlock, CloseBlock, Blank, x);
  }

  /** At a cell of the no-streaming mask: the register stays at the cell itself. */
  lemma KeptCell(env: Env, d: nat)
    requires Min(d, 3) <= |env.index| && env.masked(env.index[..Min(d, 3)])
    ensures var x := Run(env, StreamingWriteLoopLines(d, true), Start());
      && !x.failed && x.blocks == [] && x.fromF == [] && x.toF == []
      && x.toFNext == [[env.i] + env.index[..Min(d, 3)]]
  {
    var n := Min(d, 3);
    var x1 := Start().(q := Some(env.i), blocks := [true]);
    StreamingWriteLoopSteps(env, d, true);
    MaskedCell(env, x1, d);
    var x2 := Run(env, MaskedBranchLines(d), x1);
    assert Run(env, WrapsLines(n), x2) == x2 by {
      WrapsLinesPlain(n);
      RunInactive(env, WrapsLines(n), x2);
    }
    StreamingTailSkipped(env, x2, d);
  }

  /** One iteration of the standard write loop stores the register at exactly one entry of
   *  `f_next`: the cell itself at a masked cell, the periodic neighbour `(index + e[i]) mod
   *  dimension` elsewhere; it reads and writes nothing of `f`. */
  lemma StreamingWriteLoopPushes(env: Env, d: nat, mask: bool)
    requires InLattice(env, Min(d, 3))
    ensures var x, n := Run(env, StreamingWriteLoopLines(d, mask), Start()), Min(d, 3);
      && !x.failed && x.blocks == [] && x.fromF == [] && x.toF == []
      && x.toFNext == [[env.i] + if mask && env.masked(env.index[..n]) then env.index[..n] else Neighbour(env, n)]
  {
    var n := Min(d, 3);
    if mask && env.masked(env.index[..n]) {
      KeptCell(env, d);
    } else {
      StreamedCell(env, d, mask);
      ShiftedIsNeighbour(env, n);
    }
  }

  /** The target of the push lies inside the lattice. */
  lemma NeighbourInLattice(env: Env, n: nat)
    requires InLattice(env, n)
    ensures forall a :: 0 <= a < n ==> 0 <= Neighbour(env, n)[a] < env.dimension[a]
  {
    ShiftedIsNeighbour(env, n);
  }

  /** A wrap undone by the opposite shift. */
  lemma WrapBack(x: int, e: int, n: int)
    requires 0 <= x < n && -n <= e <= n
    ensures Wrapped(Wrapped(x + e, n) - e, n) == x
  {
  }

  /** The iteration for the opposite direction `-e[i]`, at the neighbour along `e[i]`. */
  function Opposite(env: Env, n: nat): Env
    requires InLattice(env, n)
  {
    env.(e := seq(n, a requires 0 <= a < n => -env.e[a]), index := Neighbour(env, n))
  }

  /** Streaming back along the opposite direction returns every population to its cell. */
  lemma StreamBack(env: Env, n: nat)
    requires InLattice(env, n)
    ensures InLattice(Opposite(env, n), n)
    ensures Neighbour(Opposite(env, n), n) == env.index[..n]
  {
    var o := Opposite(env, n);
    ShiftedIsNeighbour(env, n);
    assert InLattice(o, n);
    ShiftedIsNeighbour(o, n);
    forall a | 0 <= a < n
      ensures Shifted(o, n)[a] == env.index[a]
    {
      WrapBack(env.index[a], env.e[a], env.dimension[a]);
    }
  }

  /** No two cells push the same direction to the same entry of `f_next`. */
  lemma NoCollision(env1: Env, env2: Env, n: nat)
    requires InLattice(env1, n) && InLattice(env2, n)
    requires env1.e[..n] == env2.e[..n] && env1.dimension[..n] == env2.dimension[..n]
    requires Neighbour(env1, n) == Neighbour(env2, n)
    ensures env1.index[..n] == env2.index[..n]
  {
    ShiftedIsNeighbour(env1, n);
    ShiftedIsNeighbour(env2, n);
    forall a | 0 <= a < n
      ensures env1.index[a] == env2.index[a]
    {
      assert env1.e[a] == env2.e[a] && env1.dimension[a] == env2.dimension[a];
      assert Shifted(env1, n)[a] == Shifted(env2, n)[a];
      WrapBack(env1.index[a], env1.e[a], env1.dimension[a]);
      WrapBack(env2.index[a], env2.e[a], env2.dimension[a]);
    }
  }

  /** On a two-dimensional lattice, the population moving along `(-1, -1)` from the corner
   *  `(0, 0)` arrives at the opposite corner. */
  lemma CornerWrapsAround(d: nat, i: int, nx: int, ny: int, masked: seq<int> -> bool)
    requires d == 2 && nx > 0 && ny > 0
    ensures Run(Env(i, [-1, -1], [0, 0], [nx, ny], masked), StreamingWriteLoopLines(d, false), Start()).toFNext
         == [[i, nx - 1, ny - 1]]
  {
    var env := Env(i, [-1, -1], [0, 0], [nx, ny], masked);
    assert Neighbour(env, 2) == [nx - 1, ny - 1] by {
      ShiftedIsNeighbour(env, 2);
      assert Shifted(env, 2) == [nx - 1, ny - 1];
    }
    PushedTo(env, d, [nx - 1, ny - 1]);
    assert [i] + [nx - 1, ny - 1] == [i, nx - 1, ny - 1];
  }

  /** The population moving along `(1, 0)` from the last column re-enters at the first. */
  lemma RightEdgeWrapsAround(d: nat, i: int, nx: int, ny: int, y: int, masked: seq<int> -> bool)
    requires d == 2 && nx > 0 && 0 <= y < ny
    ensures Run(Env(i, [1, 0], [nx - 1, y], [nx, ny], masked), StreamingWriteLoopLines(d, false), Start()).toFNext
         == [[i, 0, y]]
  {
    var env := Env(i, [1, 0], [nx - 1, y], [nx, ny], masked);
    assert Neighbour(env, 2) == [0, y] by {
      ShiftedIsNeighbour(env, 2);
      assert Shifted(env, 2) == [0, y];
    }
    PushedTo(env, d, [0, y]);
    assert [i] + [0, y] == [i, 0, y];
  }

  /** Without a mask, an iteration whose neighbour is `target` pushes to `[i] + target`. */
  lemma PushedTo(env: Env, d: nat, target: seq<int>)
    requires InLattice(env, Min(d, 3))
    requires Neighbour(env, Min(d, 3)) == target
    ensures Run(env, StreamingWriteLoopLines(d, false), Start()).toFNext == [[env.i] + target]
  {
    StreamingWriteLoopPushes(env, d, false);
  }
}
