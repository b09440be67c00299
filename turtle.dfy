/**
  The turtle interpretation of an L-system string (section 1.5 of Prusinkiewicz
  and Lindenmayer, "The Algorithmic Beauty of Plants"), as a function.

  `Run` is the left-to-right pass of `read_desc`, one symbol per step: scan the
  symbol's argument, apply the symbol (`Symbol`: draw, turn or raise a flag),
  then resolve the deferred push/pop flags against the branch stack (`Settle`).
  The imperative interpreter in interpreter.dfy is proved to compute exactly
  this function. `Tokenize`/`RunTokens` give the same pass as a fold over the
  symbols examined, which is the form the branch-stack lemmas are stated in.
*/
module Turtle {
  import opened Kernel
  import opened Scanner

  /** The turtle state: the frame T = [H L U] (columns Heading, Left, Up) and the position P. */
  datatype State = State(T: Mat, P: Vec)

  /** One drawn edge, from `start` to `end`. */
  datatype Segment = Segment(start: Vec, end: Vec)

  /** What a run depends on besides the string: cos/sin, atof, the default step and the default angle. */
  datatype Config = Config(trig: Trig, atof: string -> real, step: real, angle: real)

  /**
    Everything the interpretation loop changes: the current state, the branch
    stack (top at the end), the two deferred flags, the segments drawn so far,
    and the caller's point array, which every `F` overwrites with its step.
  */
  datatype Machine = Machine(
    current: State,
    stack: seq<State>,
    push: bool,
    pop: bool,
    lines: seq<Segment>,
    caller: Vec)

  /** Heading +Y, Left +X, Up +Z. */
  const InitialFrame: Mat := [[0.0, 1.0, 0.0], [1.0, 0.0, 0.0], [0.0, 0.0, 1.0]]

  /** The machine at the start of a run from point p. */
  function Start(p: Vec, stack: seq<State>, lines: seq<Segment>): Machine
  {
    Machine(State(InitialFrame, p), stack, false, false, lines, p)
  }

  predicate IsRotation(c: char)
  {
    c == '+' || c == '-' || c == '&' || c == '^' || c == '\\' || c == '/'
  }

  /** The numeric value a symbol uses: its argument, or the default when it has none. */
  function ArgOr(cfg: Config, a: Argument, default: real): real
  {
    match a
    case NoArg => default
    case Arg(text, _) => cfg.atof(text)
  }

  /** The matrix a rotation symbol post-multiplies the frame by. */
  function Rotation(trig: Trig, c: char, angle: real): Mat
    requires IsRotation(c)
  {
    match c
    case '+' => Ru(trig, angle)
    case '-' => Ru(trig, angle * -1.0)
    case '&' => Rl(trig, angle)
    case '^' => Rl(trig, angle * -1.0)
    case '\\' => Rh(trig, angle)
    case _ => Rh(trig, angle * -1.0)
  }

  /** The effect of one symbol before the flags are resolved (the `switch` of `read_desc`). */
  function Symbol(cfg: Config, c: char, a: Argument, m: Machine): (r: Machine)
    ensures r.stack == m.stack
    ensures r.push == (m.push || c == '[') && r.pop == (m.pop || c == ']')
    ensures c != 'F' ==> r.current.P == m.current.P && r.lines == m.lines && r.caller == m.caller
    ensures !IsRotation(c) ==> r.current.T == m.current.T
    ensures !(c == 'F' || IsRotation(c) || c == '[' || c == ']') ==> r == m
  {
    if c == 'F' then
      var step := MatVec(m.current.T, [ArgOr(cfg, a, cfg.step), 0.0, 0.0]);
      var next := VecAdd(step, m.current.P);
      m.(current := m.current.(P := next),
         lines := m.lines + [Segment(m.current.P, next)],
         caller := step)
    else if IsRotation(c) then
      var R := Rotation(cfg.trig, c, ArgOr(cfg, a, cfg.angle));
      m.(current := m.current.(T := MatMul(m.current.T, R)))
    else if c == '[' then
      m.(push := true)
    else if c == ']' then
      m.(pop := true)
    else
      m
  }

  /** The deferred flags, resolved after each symbol: a pending pop wins when the
      stack is non-empty; otherwise a pending push is performed. */
  function Settle(m: Machine): (r: Machine)
    ensures r.lines == m.lines && r.caller == m.caller
    ensures m.pop && |m.stack| > 0 ==> r.stack + [r.current] == m.stack && !r.pop && r.push == m.push
    ensures !(m.pop && |m.stack| > 0) && m.push ==>
              r.stack == m.stack + [m.current] && r.current == m.current && !r.push && r.pop == m.pop
    ensures !(m.pop && |m.stack| > 0) && !m.push ==> r == m
  {
    if m.pop && |m.stack| > 0 then
      m.(current := m.stack[|m.stack| - 1], stack := m.stack[..|m.stack| - 1], pop := false)
    else if m.push then
      m.(stack := m.stack + [m.current], push := false)
    else
      m
  }

  /** The machine when the pass stops, and whether it reached the end of the string
      (false: an argument's `(` was never closed). */
  datatype RunResult = RunResult(m: Machine, ok: bool)

  /** The pass of `read_desc` from index i on. Segments are only ever appended,
      and only by an `F`. */
  function Run(cfg: Config, desc: string, i: nat, m: Machine): (r: RunResult)
    ensures |m.lines| <= |r.m.lines|
    decreases |desc| - i
  {
    if i >= |desc| then RunResult(m, true)
    else
      match Scan(desc, i)
      case Unterminated => RunResult(m, false)
      case Scanned(a) => Run(cfg, desc, i + a.Jump() + 1, Settle(Symbol(cfg, desc[i], a, m)))
  }

  /** One iteration of the pass: a scanned symbol is applied, its flags resolved,
      and the pass resumes after its argument. */
  lemma RunOnce(cfg: Config, desc: string, i: nat, m: Machine, a: Argument)
    requires i < |desc| && Scan(desc, i) == Scanned(a)
    ensures Run(cfg, desc, i, m) == Run(cfg, desc, i + a.Jump() + 1, Settle(Symbol(cfg, desc[i], a, m)))
  {
    var s := Scan(desc, i);
    assert Run(cfg, desc, i, m) == Run(cfg, desc, i + s.arg.Jump() + 1, Settle(Symbol(cfg, desc[i], s.arg, m)));
  }

  /** One iteration of the pass, in the form the loop of `read_desc` takes it:
      either the pass resumes at next on m1, or (ok false) it ends on m1. */
  lemma RunStep(cfg: Config, desc: string, i: nat, m: Machine, next: nat, m1: Machine, ok: bool)
    requires i < |desc|
    requires match Scan(desc, i)
      case Unterminated => !ok && m1 == m
      case Scanned(a) => ok && next == i + a.Jump() + 1 && m1 == Settle(Symbol(cfg, desc[i], a, m))
    ensures Run(cfg, desc, i, m) == if ok then Run(cfg, desc, next, m1) else RunResult(m1, false)
  {
    match Scan(desc, i)
    case Unterminated => RunHalts(cfg, desc, i, m);
    case Scanned(a) => RunOnce(cfg, desc, i, m, a);
  }

  /** The pass stops, unchanged and unsuccessful, at an argument whose `(` is never closed. */
  lemma RunHalts(cfg: Config, desc: string, i: nat, m: Machine)
    requires i < |desc| && Scan(desc, i) == Unterminated
    ensures Run(cfg, desc, i, m) == RunResult(m, false)
  {
  }

  // ---------------------------------------------------------------------
  // The same pass as a fold over the symbols it examines

  /** A symbol examined by the pass: its index, its character and its argument. */
  datatype Token = Token(pos: nat, symbol: char, arg: Argument)

  /** The symbols examined from some index on, and whether the pass reaches the end. */
  datatype Tokens = Tokens(list: seq<Token>, complete: bool)

  function Tokenize(desc: string, i: nat): Tokens
    decreases |desc| - i
  {
    if i >= |desc| then Tokens([], true)
    else
      match Scan(desc, i)
      case Unterminated => Tokens([], false)
      case Scanned(a) =>
        var rest := Tokenize(desc, i + a.Jump() + 1);
        Tokens([Token(i, desc[i], a)] + rest.list, rest.complete)
  }

  function Step(cfg: Config, t: Token, m: Machine): Machine
  {
    Settle(Symbol(cfg, t.symbol, t.arg, m))
  }

  function RunTokens(cfg: Config, ts: seq<Token>, m: Machine): Machine
    decreases |ts|
  {
    if ts == [] then m else RunTokens(cfg, ts[1..], Step(cfg, ts[0], m))
  }

  /** The number of `F` symbols in ts. */
  function CountF(ts: seq<Token>): nat
  {
    if ts == [] then 0 else (if ts[0].symbol == 'F' then 1 else 0) + CountF(ts[1..])
  }

  /** The pass over the string is the fold over the symbols it examines. */
  lemma {:induction false} RunIsFold(cfg: Config, desc: string, i: nat, m: Machine)
    ensures Run(cfg, desc, i, m) ==
            RunResult(RunTokens(cfg, Tokenize(desc, i).list, m), Tokenize(desc, i).complete)
    decreases |desc| - i
  {
    if i < |desc| {
      match Scan(desc, i)
      case Unterminated =>
      case Scanned(a) =>
        var j := i + a.Jump() + 1;
        RunIsFold(cfg, desc, j, Settle(Symbol(cfg, desc[i], a, m)));
        assert Tokenize(desc, i).list == [Token(i, desc[i], a)] + Tokenize(desc, j).list;
        assert ([Token(i, desc[i], a)] + Tokenize(desc, j).list)[1..] == Tokenize(desc, j).list;
    }
  }

  /**
    Which symbols the pass examines: the first is at i, each one is followed by
    its argument and the next symbol comes right after that argument's `)`, so
    no character inside an argument's parentheses is ever dispatched; there are
    at most |desc| - i of them.
  */
  lemma {:induction false} TokenizeShape(desc: string, i: nat)
    requires i <= |desc|
    ensures var ts := Tokenize(desc, i).list;
      && |ts| <= |desc| - i
      && (ts != [] ==> ts[0].pos == i)
      && (forall k :: 0 <= k < |ts| ==>
            && i <= ts[k].pos < |desc|
            && ts[k].symbol == desc[ts[k].pos]
            && Scan(desc, ts[k].pos) == Scanned(ts[k].arg))
      && (forall k :: 0 < k < |ts| ==> ts[k].pos == ts[k - 1].pos + ts[k - 1].arg.Jump() + 1)
    decreases |desc| - i
  {
    if i < |desc| {
      match Scan(desc, i)
      case Unterminated =>
      case Scanned(a) =>
        var j := i + a.Jump() + 1;
        assert j <= |desc|;
        TokenizeShape(desc, j);
        var rest := Tokenize(desc, j).list;
        var ts := Tokenize(desc, i).list;
        assert ts == [Token(i, desc[i], a)] + rest;
        forall k | 0 < k < |ts|
          ensures ts[k].pos == ts[k - 1].pos + ts[k - 1].arg.Jump() + 1
        {
          if k == 1 {
            assert ts[1] == rest[0];
          } else {
            assert ts[k] == rest[k - 1] && ts[k - 1] == rest[k - 2];
          }
        }
    }
  }

  /** Folding over a concatenation folds over each part in turn. */
  lemma {:induction false} RunTokensAppend(cfg: Config, a: seq<Token>, b: seq<Token>, m: Machine)
    ensures RunTokens(cfg, a + b, m) == RunTokens(cfg, b, RunTokens(cfg, a, m))
    decreases |a|
  {
    if a == [] {
      assert a + b == b;
    } else {
      assert (a + b)[1..] == a[1..] + b;
      RunTokensAppend(cfg, a[1..], b, Step(cfg, a[0], m));
    }
  }

  // ---------------------------------------------------------------------
  // Segments

  /**
    Every examined `F` appends exactly one segment and nothing else removes or
    changes one: the segments already present stay a prefix.
  */
  lemma {:induction false} LinesGrowByForwards(cfg: Config, ts: seq<Token>, m: Machine)
    ensures var r := RunTokens(cfg, ts, m);
      |r.lines| == |m.lines| + CountF(ts) && r.lines[..|m.lines|] == m.lines
    decreases |ts|
  {
    if ts != [] {
      var m1 := Step(cfg, ts[0], m);
      assert |m1.lines| == |m.lines| + (if ts[0].symbol == 'F' then 1 else 0);
      assert m1.lines[..|m.lines|] == m.lines;
      LinesGrowByForwards(cfg, ts[1..], m1);
      var r := RunTokens(cfg, ts, m);
      assert r.lines[..|m1.lines|] == m1.lines;
      assert r.lines[..|m.lines|] == r.lines[..|m1.lines|][..|m.lines|];
    }
  }

  /** Over a whole string: the segment list grows by the number of `F` symbols examined. */
  lemma SegmentCount(cfg: Config, desc: string, m: Machine)
    ensures var r := Run(cfg, desc, 0, m);
      |r.m.lines| == |m.lines| + CountF(Tokenize(desc, 0).list)
      && r.m.lines[..|m.lines|] == m.lines
  {
    RunIsFold(cfg, desc, 0, m);
    LinesGrowByForwards(cfg, Tokenize(desc, 0).list, m);
  }

  /**
    `F` with argument a (the default step when it has none) moves the position
    by a times the Heading column, draws the segment from the old to the new
    position, leaves the frame alone and writes the step into the caller's array.
  */
  lemma ForwardStep(cfg: Config, a: Argument, m: Machine)
    ensures var len := if a.NoArg? then cfg.step else cfg.atof(a.text);
      var p := m.current.P;
      var step := Scale(len, Col(m.current.T, 0));
      var r := Symbol(cfg, 'F', a, m);
      && r.current == State(m.current.T, VecAdd(step, p))
      && r.lines == m.lines + [Segment(p, VecAdd(step, p))]
      && r.caller == step
      && r.stack == m.stack && r.push == m.push && r.pop == m.pop
  {
    ForwardIsScaledHeading(m.current.T, ArgOr(cfg, a, cfg.step));
  }

  /**
    A rotation symbol changes the frame only (T := T * R, with the default angle
    when it has no argument), and keeps the column of its own axis: Up for
    `+`/`-`, Left for `&`/`^`, Heading for `\`/`/`.
  */
  lemma RotationStep(cfg: Config, c: char, a: Argument, m: Machine)
    requires IsRotation(c)
    ensures var angle := if a.NoArg? then cfg.angle else cfg.atof(a.text);
      var r := Symbol(cfg, c, a, m);
      && r == m.(current := State(MatMul(m.current.T, Rotation(cfg.trig, c, angle)), m.current.P))
      && ((c == '+' || c == '-') ==> Col(r.current.T, 2) == Col(m.current.T, 2))
      && ((c == '&' || c == '^') ==> Col(r.current.T, 1) == Col(m.current.T, 1))
      && ((c == '\\' || c == '/') ==> Col(r.current.T, 0) == Col(m.current.T, 0))
  {
    var angle := ArgOr(cfg, a, cfg.angle);
    var T := m.current.T;
    if c == '+' || c == '-' {
      YawKeepsUp(T, cfg.trig, if c == '+' then angle else angle * -1.0);
    } else if c == '&' || c == '^' {
      PitchKeepsLeft(T, cfg.trig, if c == '&' then angle else angle * -1.0);
    } else {
      RollKeepsHeading(T, cfg.trig, if c == '\\' then angle else angle * -1.0);
    }
  }

  /** From the initial frame, a leading `F(a)` draws the segment from p to p + (0, a, 0). */
  lemma FirstForward(cfg: Config, desc: string, p: Vec, stack: seq<State>, lines: seq<Segment>)
    requires |desc| > 0 && desc[0] == 'F' && Scan(desc, 0).Scanned?
    ensures var len := ArgOr(cfg, Scan(desc, 0).arg, cfg.step);
      var r := Run(cfg, desc, 0, Start(p, stack, lines));
      |r.m.lines| > |lines| && r.m.lines[|lines|] == Segment(p, [p[0], p[1] + len, p[2]])
  {
    var m := Start(p, stack, lines);
    var a := Scan(desc, 0).arg;
    var len := ArgOr(cfg, a, cfg.step);
    RunIsFold(cfg, desc, 0, m);
    var ts := Tokenize(desc, 0).list;
    assert ts[0] == Token(0, 'F', a);
    var m1 := Step(cfg, ts[0], m);
    ForwardStep(cfg, a, m);
    VecExt(VecAdd(Scale(len, Col(InitialFrame, 0)), p), [p[0], p[1] + len, p[2]]);
    assert m1.lines == lines + [Segment(p, [p[0], p[1] + len, p[2]])];
    LinesGrowByForwards(cfg, ts[1..], m1);
    var r := RunTokens(cfg, ts[1..], m1);
    assert r.lines[..|m1.lines|] == m1.lines;
    assert r.lines[|lines|] == r.lines[..|m1.lines|][|lines|];
  }

  // ---------------------------------------------------------------------
  // The branch stack

  /** The change in bracket depth a symbol makes. */
  function Delta(t: Token): int
  {
    if t.symbol == '[' then 1 else if t.symbol == ']' then -1 else 0
  }

  function Depth(ts: seq<Token>): int
  {
    if ts == [] then 0 else Delta(ts[0]) + Depth(ts[1..])
  }

  /** Starting at depth d, no prefix of ts closes more brackets than are open. */
  predicate NeverBelow(ts: seq<Token>, d: int)
    decreases |ts|
  {
    ts == [] || (d + Delta(ts[0]) >= 0 && NeverBelow(ts[1..], d + Delta(ts[0])))
  }

  /** ts closes every bracket it opens and never closes one it did not open. */
  predicate Balanced(ts: seq<Token>)
  {
    NeverBelow(ts, 0) && Depth(ts) == 0
  }

  /**
    With no pending flags and the stack d entries above `base`, a sequence of
    symbols that never closes more than d brackets keeps `base` at the bottom of
    the stack, ends with no pending flags, and leaves the stack Depth(ts) entries
    higher.
  */
  lemma {:induction false} StackDiscipline(cfg: Config, ts: seq<Token>, m: Machine, base: seq<State>, d: nat)
    requires !m.push && !m.pop
    requires |m.stack| == |base| + d && m.stack[..|base|] == base
    requires NeverBelow(ts, d)
    ensures var r := RunTokens(cfg, ts, m);
      && !r.push && !r.pop
      && |r.stack| == |base| + d + Depth(ts)
      && |base| <= |r.stack| && r.stack[..|base|] == base
    decreases |ts|
  {
    if ts != [] {
      var t := ts[0];
      var m1 := Step(cfg, t, m);
      var d1 := d + Delta(t);
      if t.symbol == '[' {
        assert m1.stack == m.stack + [m.current];
        assert m1.stack[..|base|] == m.stack[..|base|];
      } else if t.symbol == ']' {
        assert d >= 1;
        assert m1.stack == m.stack[..|m.stack| - 1];
        assert m1.stack[..|base|] == m.stack[..|base|];
      } else {
        assert m1.stack == m.stack;
      }
      StackDiscipline(cfg, ts[1..], m1, base, d1);
    }
  }

  /**
    `[w]` with w balanced and no pending flags restores the exact state held
    before `[` and leaves the stack as it was; only segments and the caller's
    array keep what w did.
  */
  lemma BracketRestores(cfg: Config, open: Token, w: seq<Token>, close: Token, m: Machine)
    requires open.symbol == '[' && close.symbol == ']'
    requires Balanced(w) && !m.push && !m.pop
    ensures var r := RunTokens(cfg, [open] + w + [close], m);
      r.current == m.current && r.stack == m.stack && !r.push && !r.pop
  {
    var m1 := Step(cfg, open, m);
    assert m1 == m.(stack := m.stack + [m.current]);
    StackDiscipline(cfg, w, m1, m.stack + [m.current], 0);
    var m2 := RunTokens(cfg, w, m1);
    assert m2.stack == m.stack + [m.current];
    RunTokensAppend(cfg, [open] + w, [close], m);
    RunTokensAppend(cfg, [open], w, m);
    assert RunTokens(cfg, [open], m) == m1;
    assert RunTokens(cfg, [close], m2) == Step(cfg, close, m2);
  }

  /**
    A `]` on an empty stack changes nothing but leaves the pop flag set; the
    flag then fires after a later symbol once a `[` has filled the stack, so in
    `] [ t` the pop after t discards t's move and turn.
  */
  lemma StickyPop(cfg: Config, close: Token, open: Token, t: Token, m: Machine)
    requires close.symbol == ']' && open.symbol == '[' && t.symbol != '[' && t.symbol != ']'
    requires m.stack == [] && !m.push && !m.pop
    ensures Step(cfg, close, m) == m.(pop := true)
    ensures var r := RunTokens(cfg, [close, open, t], m);
      r.current == m.current && r.stack == [] && !r.push && !r.pop
  {
    var m1 := Step(cfg, close, m);
    var m2 := Step(cfg, open, m1);
    assert m2 == m.(stack := [m.current], pop := true);
    var m3 := Step(cfg, t, m2);
    ThreeSteps(cfg, close, open, t, m);
  }

  /** When a pending pop fires, a push pending in the same step is postponed to the next one. */
  lemma PopPostponesPush(cfg: Config, close: Token, open1: Token, open2: Token, m: Machine)
    requires close.symbol == ']' && open1.symbol == '[' && open2.symbol == '['
    requires m.stack == [] && !m.push && !m.pop
    ensures var r := RunTokens(cfg, [close, open1, open2], m);
      r.current == m.current && r.stack == [] && r.push && !r.pop
  {
    var m2 := Step(cfg, open1, Step(cfg, close, m));
    assert m2 == m.(stack := [m.current], pop := true);
    ThreeSteps(cfg, close, open1, open2, m);
  }

  /** `+` then `-` with the same angle turn the frame back, given the laws of cos and sin. */
  lemma YawThereAndBack(cfg: Config, plus: Token, minus: Token, m: Machine)
    requires plus.symbol == '+' && minus.symbol == '-' && plus.arg == minus.arg
    requires !m.push && !m.pop
    requires TrigLawsAt(cfg.trig, Radians(ArgOr(cfg, plus.arg, cfg.angle)))
    ensures RunTokens(cfg, [plus, minus], m) == m
  {
    var angle := ArgOr(cfg, plus.arg, cfg.angle);
    YawInverse(cfg.trig, angle);
    UndoTurn(m.current.T, Ru(cfg.trig, angle), Ru(cfg.trig, angle * -1.0));
    TwoSteps(cfg, plus, minus, m);
  }

  lemma TwoSteps(cfg: Config, t1: Token, t2: Token, m: Machine)
    ensures RunTokens(cfg, [t1, t2], m) == Step(cfg, t2, Step(cfg, t1, m))
  {
    var m1 := Step(cfg, t1, m);
    assert [t2][1..] == [];
    assert RunTokens(cfg, [t2], m1) == Step(cfg, t2, m1);
    assert [t1, t2][1..] == [t2];
  }

  lemma ThreeSteps(cfg: Config, t1: Token, t2: Token, t3: Token, m: Machine)
    ensures RunTokens(cfg, [t1, t2, t3], m) == Step(cfg, t3, Step(cfg, t2, Step(cfg, t1, m)))
  {
    assert [t1, t2, t3][1..] == [t2, t3];
    TwoSteps(cfg, t2, t3, Step(cfg, t1, m));
  }
}
