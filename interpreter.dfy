/**
  The interpreter's global state and `read_desc`, the loop that runs the
  turtle over a description string.

  `EstadoActual`, `PilaEstados` and `lines` are process-wide globals in the
  source; here they are the fields of one `Interpreter` object, and the loop
  is proved to leave them exactly as the function `Turtle.Run` says.
  The two copies of the interpreter differ only in their defaults and in what
  becomes of a drawn segment: the windowed program reads `lstep`/`langle`
  from its input and appends each segment to `lines`; the stand-alone one
  uses the constants 1 and 45 and prints each segment, which here is the same
  append to `lines` (the printed output, in order).
*/
module TurtleInterpreter {
  import opened Kernel
  import opened Scanner
  import opened Turtle

  /** The stand-alone program's parameters: step 1 and angle 45 whenever a symbol has no argument. */
  function StandAlone(trig: Trig, atof: string -> real): Config
  {
    Config(trig, atof, 1.0, 45.0)
  }

  /**
    The `F` case of `read_desc`: load the step into the local vector, turn it
    into world coordinates with the frame, and add the result to the position.
    `P` is left holding the world-space step.
  */
  method Advance(T: array2<real>, L: array<real>, P0: array<real>, P: array<real>, len: real)
    requires T.Length0 == 3 && T.Length1 == 3
    requires L.Length == 3 && P0.Length == 3 && P.Length == 3
    requires L != P0 && L != P && P0 != P
    requires L[1] == 0.0 && L[2] == 0.0
    modifies L, P0, P
    ensures L[1] == 0.0 && L[2] == 0.0
    ensures P[..] == MatVec(MatOf(T), [len, 0.0, 0.0])
    ensures P0[..] == VecAdd(P[..], old(P0[..]))
  {
    L[0] := len;
    assert L[..] == [len, 0.0, 0.0];
    MatByVec(P, T, L);
    SumVec(P0, P, P0);
  }

  /**
    One rotation case of `read_desc`: build the rotation matrix the symbol
    names (negating the angle for `-`, `^` and `/`), then post-multiply the
    frame by it through the scratch matrix `M`.
  */
  method Turn(T: array2<real>, R: array2<real>, M: array2<real>, trig: Trig, c: char, angle: real)
    requires T.Length0 == 3 && T.Length1 == 3 && R.Length0 == 3 && R.Length1 == 3
    requires M.Length0 == 3 && M.Length1 == 3
    requires T != R && T != M && R != M
    requires IsRotation(c)
    modifies T, R, M
    ensures MatOf(T) == MatMul(old(MatOf(T)), Rotation(trig, c, angle))
  {
    match c {
      case '+' => RuMatrix(R, trig, angle);
      case '-' => RuMatrix(R, trig, angle * -1.0);
      case '&' => RlMatrix(R, trig, angle);
      case '^' => RlMatrix(R, trig, angle * -1.0);
      case '\\' => RhMatrix(R, trig, angle);
      case '/' => RhMatrix(R, trig, angle * -1.0);
    }
    MatByMat(M, T, R);
    AssignMat(T, MatOf(M));
  }

  class Interpreter {
    /** `EstadoActual`: the turtle state between symbols. */
    var current: State
    /** `PilaEstados`: the branch stack, top at the end. */
    var stack: seq<State>
    /** `lines`: every segment drawn so far, never cleared. */
    var lines: seq<Segment>

    /** cos/sin and atof, which the model leaves abstract. */
    const trig: Trig
    const atof: string -> real
    /** `lstep` and `langle`: the default step and the default angle in degrees. */
    const lstep: real
    const langle: real

    /** The parameters of a run of this interpreter. */
    function Cfg(): Config
    {
      Config(trig, atof, lstep, langle)
    }

    /** The windowed program's interpreter, with the defaults read from its input. */
    constructor (trig: Trig, atof: string -> real, step: real, angle: real)
      ensures Cfg() == Config(trig, atof, step, angle)
      ensures current == State([Zero, Zero, Zero], Zero) && stack == [] && lines == []
    {
      this.trig, this.atof := trig, atof;
      lstep, langle := step, angle;
      current := State([Zero, Zero, Zero], Zero);
      stack, lines := [], [];
    }

    /** The stand-alone program's interpreter, with the parameters `StandAlone`. */
    constructor Fixed(trig: Trig, atof: string -> real)
      ensures Cfg() == StandAlone(trig, atof)
      ensures current == State([Zero, Zero, Zero], Zero) && stack == [] && lines == []
    {
      this.trig, this.atof := trig, atof;
      var cfg := StandAlone(trig, atof);
      lstep, langle := cfg.step, cfg.angle;
      current := State([Zero, Zero, Zero], Zero);
      stack, lines := [], [];
    }


    /**
      The `F` case of the `switch`, on the working frame `T` and point `P0`:
      the step is the argument, or `lstep` when there is none; `P0` moves by
      the step turned into world coordinates, `P` keeps that world-space step,
      and the segment from the old to the new point is appended to `lines`.
    */
    method ForwardSymbol(a: Argument, arg0: real, T: array2<real>,
                         L: array<real>, P0: array<real>, P: array<real>, ghost m: Machine)
      returns (arg: real)
      requires T.Length0 == 3 && T.Length1 == 3
      requires L.Length == 3 && P0.Length == 3 && P.Length == 3
      requires L != P0 && L != P && P0 != P
      requires L[1] == 0.0 && L[2] == 0.0
      requires a.Arg? ==> 2 <= a.jump && arg0 == atof(a.text)
      requires m.current == State(MatOf(T), P0[..]) && m.lines == lines
      modifies this`lines, L, P0, P
      ensures L[1] == 0.0 && L[2] == 0.0
      ensures m.(current := State(MatOf(T), P0[..]), lines := lines, caller := P[..])
           == Symbol(Cfg(), 'F', a, m)
    {
      arg := arg0;
      if a.Jump() == 0 { arg := lstep; }
      var first := P0[..];
      Advance(T, L, P0, P, arg);
      lines := lines + [Segment(first, P0[..])];
    }

    /**
      A rotation case of the `switch`, on the working frame `T`: the angle is
      the argument, or `langle` when there is none, and `T` is post-multiplied
      by the rotation the symbol names.
    */
    method TurnSymbol(action: char, a: Argument, arg0: real,
                      T: array2<real>, R: array2<real>, M: array2<real>, P0: array<real>, ghost m: Machine)
      returns (arg: real)
      requires T.Length0 == 3 && T.Length1 == 3 && R.Length0 == 3 && R.Length1 == 3
      requires M.Length0 == 3 && M.Length1 == 3
      requires T != R && T != M && R != M
      requires IsRotation(action)
      requires a.Arg? ==> 2 <= a.jump && arg0 == atof(a.text)
      requires P0.Length == 3 && m.current == State(MatOf(T), P0[..])
      modifies T, R, M
      ensures m.(current := State(MatOf(T), P0[..])) == Symbol(Cfg(), action, a, m)
    {
      arg := arg0;
      if a.Jump() == 0 { arg := langle; }
      Turn(T, R, M, trig, action, arg);
    }

    /**
      The `switch` of `read_desc` for one symbol: load the current state into
      the working frame `T` and point `P0`, apply the symbol, and store them
      back. `F` writes its step into the caller's `P` and appends the segment
      it draws; a rotation post-multiplies `T`; `[` and `]` only raise the
      push and pop flags. The result is the machine `Turtle.Symbol` describes.
    */
    method Perform(action: char, a: Argument, arg0: real,
                   T: array2<real>, R: array2<real>, M: array2<real>,
                   L: array<real>, P0: array<real>, P: array<real>,
                   push0: bool, pop0: bool)
      returns (arg: real, push: bool, pop: bool)
      requires T.Length0 == 3 && T.Length1 == 3 && R.Length0 == 3 && R.Length1 == 3
      requires M.Length0 == 3 && M.Length1 == 3
      requires T != R && T != M && R != M
      requires L.Length == 3 && P0.Length == 3 && P.Length == 3
      requires L != P0 && L != P && P0 != P
      requires L[1] == 0.0 && L[2] == 0.0
      requires a.Arg? ==> 2 <= a.jump && arg0 == atof(a.text)
      modifies this`current, this`lines, T, R, M, L, P0, P
      ensures L[1] == 0.0 && L[2] == 0.0
      ensures Machine(current, stack, push, pop, lines, P[..])
           == Symbol(Cfg(), action, a, old(Machine(current, stack, push0, pop0, lines, P[..])))
    {
      arg, push, pop := arg0, push0, pop0;
      ghost var m := Machine(current, stack, push0, pop0, lines, P[..]);
      AssignMat(T, current.T);
      AssignVec(P0, current.P);

      ghost var r := Symbol(Cfg(), action, a, m);
      match action {
        case 'F' =>
          arg := ForwardSymbol(a, arg0, T, L, P0, P, m);
          current := State(MatOf(T), P0[..]);
        case '+' | '-' | '&' | '^' | '\\' | '/' =>
          arg := TurnSymbol(action, a, arg0, T, R, M, P0, m);
          current := State(MatOf(T), P0[..]);
        case '[' =>
          push := true;
          current := State(MatOf(T), P0[..]);
          assert r == m.(push := true);
        case ']' =>
          pop := true;
          current := State(MatOf(T), P0[..]);
          assert r == m.(pop := true);
        case _ =>
          current := State(MatOf(T), P0[..]);
          assert r == m;
      }
    }

    /**
      The flags resolved after the `switch`: a pending pop replaces the current
      state with the top of a non-empty stack; otherwise a pending push saves
      the current state. The result is the machine `Turtle.Settle` describes.
    */
    method SettleFlags(push0: bool, pop0: bool, ghost m: Machine) returns (push: bool, pop: bool)
      requires m.current == current && m.stack == stack && m.push == push0 && m.pop == pop0
      modifies this`current, this`stack
      ensures Machine(current, stack, push, pop, m.lines, m.caller) == Settle(m)
    {
      push, pop := push0, pop0;
      if pop && |stack| > 0 {
        current := stack[|stack| - 1];
        stack := stack[..|stack| - 1];
        pop := false;
      } else if push {
        stack := stack + [current];
        push := false;
      }
    }

    /**
      One iteration of the loop in `read_desc`: read the symbol at i and its
      argument, perform it, resolve the flags and move past the argument. The
      new machine is the scanned symbol applied and settled, or, when the
      argument's `(` is never closed (`ok` false), the old one unchanged.
    */
    method Iterate(desc: string, i: nat, arg0: real,
                   T: array2<real>, R: array2<real>, M: array2<real>,
                   L: array<real>, P0: array<real>, P: array<real>,
                   push0: bool, pop0: bool)
      returns (next: nat, arg: real, push: bool, pop: bool, ok: bool)
      requires i < |desc|
      requires T.Length0 == 3 && T.Length1 == 3 && R.Length0 == 3 && R.Length1 == 3
      requires M.Length0 == 3 && M.Length1 == 3
      requires T != R && T != M && R != M
      requires L.Length == 3 && P0.Length == 3 && P.Length == 3
      requires L != P0 && L != P && P0 != P
      requires L[1] == 0.0 && L[2] == 0.0
      modifies this`current, this`stack, this`lines, T, R, M, L, P0, P
      ensures L[1] == 0.0 && L[2] == 0.0
      ensures i < next
      ensures var m := Machine(current, stack, push, pop, lines, P[..]);
        match Scan(desc, i)
        case Unterminated =>
          !ok && m == old(Machine(current, stack, push0, pop0, lines, P[..]))
        case Scanned(a) =>
          && ok && next == i + a.Jump() + 1
          && m == Settle(Symbol(Cfg(), desc[i], a, old(Machine(current, stack, push0, pop0, lines, P[..]))))
    {
      var action := desc[i];
      var s;
      s, arg := GetArgument(desc, i, atof, arg0);
      if s.Unterminated? {
        next, push, pop, ok := i + 1, push0, pop0, false;
        return;
      }
      var jump := s.arg.Jump();
      arg, push, pop := Perform(action, s.arg, arg, T, R, M, L, P0, P, push0, pop0);
      next := i + jump;
      ghost var mid := Machine(current, stack, push, pop, lines, P[..]);
      push, pop := SettleFlags(push, pop, mid);
      next, ok := next + 1, true;
    }

    /**
      The loop of `read_desc`: iterate from index 0 while the index is inside
      `desc`, stopping early at an argument whose `(` is never closed. The
      machine it leaves, and whether it reached the end, are those of `Run`
      from the machine it starts on with both flags down.
    */
    method Walk(desc: string, T: array2<real>, R: array2<real>, M: array2<real>,
                L: array<real>, P0: array<real>, P: array<real>)
      returns (ok: bool, push: bool, pop: bool)
      requires T.Length0 == 3 && T.Length1 == 3 && R.Length0 == 3 && R.Length1 == 3
      requires M.Length0 == 3 && M.Length1 == 3
      requires T != R && T != M && R != M
      requires L.Length == 3 && P0.Length == 3 && P.Length == 3
      requires L != P0 && L != P && P0 != P
      requires L[1] == 0.0 && L[2] == 0.0
      modifies this`current, this`stack, this`lines, T, R, M, L, P0, P
      ensures Run(Cfg(), desc, 0, old(Machine(current, stack, false, false, lines, P[..])))
           == RunResult(Machine(current, stack, push, pop, lines, P[..]), ok)
    {
      var arg: real := 0.0;
      push, pop, ok := false, false, true;
      ghost var start := Machine(current, stack, false, false, lines, P[..]);
      var i: nat := 0;
      while i < |desc|
        invariant ok && L[1] == 0.0 && L[2] == 0.0
        invariant Run(Cfg(), desc, 0, start) == Run(Cfg(), desc, i, Machine(current, stack, push, pop, lines, P[..]))
        decreases |desc| - i
      {
        ghost var i0, m0 := i, Machine(current, stack, push, pop, lines, P[..]);
        i, arg, push, pop, ok := Iterate(desc, i, arg, T, R, M, L, P0, P, push, pop);
        RunStep(Cfg(), desc, i0, m0, i, Machine(current, stack, push, pop, lines, P[..]), ok);
        if !ok {
          break;
        }
      }
    }

    /** The last loop of `read_desc`: pop the branch stack until it is empty. */
    method ClearStack()
      modifies this`stack
      ensures stack == []
    {
      while stack != []
        decreases |stack|
      {
        stack := stack[..|stack| - 1];
      }
    }

    /**
      `read_desc`: run the turtle over `desc` from the point in `P`.
      The new state, the segments appended to `lines` and the final contents of
      the caller's array `P` (the step of the last `F`) are those of `Run`; the
      branch stack is empty on return. `ok` is false when an argument's `(` is
      never closed, where the pass stops.
    */
    method ReadDesc(desc: string, P: array<real>) returns (ok: bool)
      requires P.Length == 3
      modifies this, P
      ensures var r := Run(Cfg(), desc, 0, Start(old(P[..]), old(stack), old(lines)));
        && ok == r.ok
        && current == r.m.current
        && lines == r.m.lines
        && P[..] == r.m.caller
      ensures stack == []
    {
      var T := new real[3, 3];
      AssignMat(T, InitialFrame);
      var R := new real[3, 3];
      var M := new real[3, 3];
      var L := new real[3];
      AssignVec(L, Zero);
      var P0 := new real[3];
      AssignVec(P0, P[..]);
      current := State(MatOf(T), P0[..]);

      var push, pop;
      ok, push, pop := Walk(desc, T, R, M, L, P0, P);
      ClearStack();
    }
  }
}
