/**
  The stand-alone program's `main`: it interprets one fixed description from
  the origin with step 1 and angle 45 and prints each segment it draws.

  Only the segments along the initial heading have coordinates independent of
  cosine and sine; they are the first, the fifth and the seventh, and they are
  pinned down here, together with the number of segments and the last step the
  caller's array receives.
*/
module Demo {
  import opened Kernel
  import opened Scanner
  import opened Turtle
  import opened TurtleInterpreter

  /** The description `main` interprets. */
  const Desc: string := "F(2)[-F[-F]F]/(137.5)F(1.5)[-F]F"

  /** The symbols the pass examines in `Desc`, with their indices and arguments. */
  const Symbols: seq<Token> := [
    Token(0, 'F', Arg("2", 3)),
    Token(4, '[', NoArg),
    Token(5, '-', NoArg), Token(6, 'F', NoArg), Token(7, '[', NoArg), Token(8, '-', NoArg),
    Token(9, 'F', NoArg), Token(10, ']', NoArg), Token(11, 'F', NoArg),
    Token(12, ']', NoArg),
    Token(13, '/', Arg("137.5", 7)), Token(21, 'F', Arg("1.5", 5)),
    Token(27, '[', NoArg),
    Token(28, '-', NoArg), Token(29, 'F', NoArg),
    Token(30, ']', NoArg),
    Token(31, 'F', NoArg)
  ]

  /** Tokenize unfolded once at a symbol the scanner accepts. */
  lemma TokenizeAt(desc: string, i: nat, a: Argument)
    requires i < |desc| && Scan(desc, i) == Scanned(a)
    ensures var rest := Tokenize(desc, i + a.Jump() + 1);
      Tokenize(desc, i) == Tokens([Token(i, desc[i], a)] + rest.list, rest.complete)
  {
  }

  /** A symbol with no `(` after it has no argument. */
  lemma Bare(desc: string, i: nat)
    requires i + 1 < |desc| && desc[i + 1] != '('
    ensures Scan(desc, i) == Scanned(NoArg)
  {
  }

  /** A symbol followed by `(text)`, with no `)` inside, has text as its argument. */
  lemma Parenthesised(desc: string, i: nat, k: nat)
    requires i + 2 <= k < |desc| && desc[i + 1] == '(' && desc[k] == ')'
    requires ')' !in desc[i + 2 .. k]
    ensures Scan(desc, i) == Scanned(Arg(desc[i + 2 .. k], k - i))
  {
    var close := FindClose(desc, i + 2);
  }

  /** The characters of `Desc` at 0 to 7. */
  lemma DescChars0()
    ensures |Desc| == 32
    ensures Desc[0] == 'F' && Desc[1] == '(' && Desc[2] == '2' && Desc[3] == ')'
    ensures Desc[4] == '[' && Desc[5] == '-' && Desc[6] == 'F' && Desc[7] == '['
  {
  }

  /** The characters of `Desc` at 8 to 15. */
  lemma DescChars8()
    ensures |Desc| == 32
    ensures Desc[8] == '-' && Desc[9] == 'F' && Desc[10] == ']' && Desc[11] == 'F'
    ensures Desc[12] == ']' && Desc[13] == '/' && Desc[14] == '(' && Desc[15] == '1'
  {
  }

  /** The characters of `Desc` at 16 to 23. */
  lemma DescChars16()
    ensures |Desc| == 32
    ensures Desc[16] == '3' && Desc[17] == '7' && Desc[18] == '.' && Desc[19] == '5'
    ensures Desc[20] == ')' && Desc[21] == 'F' && Desc[22] == '(' && Desc[23] == '1'
  {
  }

  /** The characters of `Desc` at 24 to 31. */
  lemma DescChars24()
    ensures |Desc| == 32
    ensures Desc[24] == '.' && Desc[25] == '5' && Desc[26] == ')' && Desc[27] == '['
    ensures Desc[28] == '-' && Desc[29] == 'F' && Desc[30] == ']' && Desc[31] == 'F'
  {
  }

  /** desc is spelled as `Desc`, character by character. */
  ghost predicate SpelledAsDesc(desc: string)
  {
    && |desc| == 32
    && desc[0] == 'F' && desc[1] == '(' && desc[2] == '2' && desc[3] == ')'
    && desc[4] == '[' && desc[5] == '-' && desc[6] == 'F' && desc[7] == '['
    && desc[8] == '-' && desc[9] == 'F' && desc[10] == ']' && desc[11] == 'F'
    && desc[12] == ']' && desc[13] == '/' && desc[14] == '(' && desc[15] == '1'
    && desc[16] == '3' && desc[17] == '7' && desc[18] == '.' && desc[19] == '5'
    && desc[20] == ')' && desc[21] == 'F' && desc[22] == '(' && desc[23] == '1'
    && desc[24] == '.' && desc[25] == '5' && desc[26] == ')' && desc[27] == '['
    && desc[28] == '-' && desc[29] == 'F' && desc[30] == ']' && desc[31] == 'F'
  }

  lemma DescSpelled()
    ensures SpelledAsDesc(Desc)
  {
    DescChars0(); DescChars8(); DescChars16(); DescChars24();
  }

  /** The argument `(2)` of the first `F`. */
  lemma ScanAt0(desc: string)
    requires SpelledAsDesc(desc)
    ensures Scan(desc, 0) == Scanned(Arg("2", 3))
  {
    assert desc[2 .. 3] == "2";
    Parenthesised(desc, 0, 3);
  }

  /** The argument `(137.5)` of the roll. */
  lemma ScanAt13(desc: string)
    requires SpelledAsDesc(desc)
    ensures Scan(desc, 13) == Scanned(Arg("137.5", 7))
  {
    assert desc[15 .. 20] == "137.5";
    Parenthesised(desc, 13, 20);
  }

  /** The argument `(1.5)` of the `F` after the roll. */
  lemma ScanAt21(desc: string)
    requires SpelledAsDesc(desc)
    ensures Scan(desc, 21) == Scanned(Arg("1.5", 5))
  {
    assert desc[23 .. 26] == "1.5";
    Parenthesised(desc, 21, 26);
  }

  /** One symbol of `Symbols` read at its index, ahead of the ones already read. */
  lemma SymbolStep(desc: string, i: nat, j: nat, a: Argument)
    requires i < |desc| && Scan(desc, i) == Scanned(a)
    requires j < |Symbols| && Symbols[j] == Token(i, desc[i], a)
    requires Tokenize(desc, i + a.Jump() + 1) == Tokens(Symbols[j + 1..], true)
    ensures Tokenize(desc, i) == Tokens(Symbols[j..], true)
  {
    TokenizeAt(desc, i, a);
    assert Symbols[j..] == [Symbols[j]] + Symbols[j + 1..];
  }

  /** Reading from index 31 (`F`, then the rest) yields `Symbols` from its seventeenth entry on. */
  lemma SymbolsFrom31(desc: string)
    requires SpelledAsDesc(desc)
    ensures Tokenize(desc, 31) == Tokens(Symbols[16..], true)
  {
    assert Symbols[17..] == [];
    SymbolStep(desc, 31, 16, NoArg);
  }

  /** Reading from index 30 (`]`, then the rest) yields `Symbols` from its sixteenth entry on. */
  lemma SymbolsFrom30(desc: string)
    requires SpelledAsDesc(desc)
    ensures Tokenize(desc, 30) == Tokens(Symbols[15..], true)
  {
    SymbolsFrom31(desc);
    Bare(desc, 30);
    SymbolStep(desc, 30, 15, NoArg);
  }

  /** Reading from index 29 (`F`, then the rest) yields `Symbols` from its fifteenth entry on. */
  lemma SymbolsFrom29(desc: string)
    requires SpelledAsDesc(desc)
    ensures Tokenize(desc, 29) == Tokens(Symbols[14..], true)
  {
    SymbolsFrom30(desc);
    Bare(desc, 29);
    SymbolStep(desc, 29, 14, NoArg);
  }

  /** Reading from index 28 (`-`, then the rest) yields `Symbols` from its fourteenth entry on. */
  lemma SymbolsFrom28(desc: string)
    requires SpelledAsDesc(desc)
    ensures Tokenize(desc, 28) == Tokens(Symbols[13..], true)
  {
    SymbolsFrom29(desc);
    Bare(desc, 28);
    SymbolStep(desc, 28, 13, NoArg);
  }

  /** Reading from index 27 (`[`, then the rest) yields `Symbols` from its thirteenth entry on. */
  lemma SymbolsFrom27(desc: string)
    requires SpelledAsDesc(desc)
    ensures Tokenize(desc, 27) == Tokens(Symbols[12..], true)
  {
    SymbolsFrom28(desc);
    Bare(desc, 27);
    SymbolStep(desc, 27, 12, NoArg);
  }

  /** Reading from index 21 (`F(1.5)`, then the rest) yields `Symbols` from its twelfth entry on. */
  lemma SymbolsFrom21(desc: string)
    requires SpelledAsDesc(desc)
    ensures Tokenize(desc, 21) == Tokens(Symbols[11..], true)
  {
    SymbolsFrom27(desc);
    ScanAt21(desc);
    SymbolStep(desc, 21, 11, Arg("1.5", 5));
  }

  /** Reading from index 13 (`/(137.5)`, then the rest) yields `Symbols` from its eleventh entry on. */
  lemma SymbolsFrom13(desc: string)
    requires SpelledAsDesc(desc)
    ensures Tokenize(desc, 13) == Tokens(Symbols[10..], true)
  {
    SymbolsFrom21(desc);
    ScanAt13(desc);
    SymbolStep(desc, 13, 10, Arg("137.5", 7));
  }

  /** Reading from index 12 (`]`, then the rest) yields `Symbols` from its tenth entry on. */
  lemma SymbolsFrom12(desc: string)
    requires SpelledAsDesc(desc)
    ensures Tokenize(desc, 12) == Tokens(Symbols[9..], true)
  {
    SymbolsFrom13(desc);
    Bare(desc, 12);
    SymbolStep(desc, 12, 9, NoArg);
  }

  /** Reading from index 11 (`F`, then the rest) yields `Symbols` from its ninth entry on. */
  lemma SymbolsFrom11(desc: string)
    requires SpelledAsDesc(desc)
    ensures Tokenize(desc, 11) == Tokens(Symbols[8..], true)
  {
    SymbolsFrom12(desc);
    Bare(desc, 11);
    SymbolStep(desc, 11, 8, NoArg);
  }

  /** Reading from index 10 (`]`, then the rest) yields `Symbols` from its eighth entry on. */
  lemma SymbolsFrom10(desc: string)
    requires SpelledAsDesc(desc)
    ensures Tokenize(desc, 10) == Tokens(Symbols[7..], true)
  {
    SymbolsFrom11(desc);
    Bare(desc, 10);
    SymbolStep(desc, 10, 7, NoArg);
  }

  /** Reading from index 9 (`F`, then the rest) yields `Symbols` from its seventh entry on. */
  lemma SymbolsFrom9(desc: string)
    requires SpelledAsDesc(desc)
    ensures Tokenize(desc, 9) == Tokens(Symbols[6..], true)
  {
    SymbolsFrom10(desc);
    Bare(desc, 9);
    SymbolStep(desc, 9, 6, NoArg);
  }

  /** Reading from index 8 (`-`, then the rest) yields `Symbols` from its sixth entry on. */
  lemma SymbolsFrom8(desc: string)
    requires SpelledAsDesc(desc)
    ensures Tokenize(desc, 8) == Tokens(Symbols[5..], true)
  {
    SymbolsFrom9(desc);
    Bare(desc, 8);
    SymbolStep(desc, 8, 5, NoArg);
  }

  /** Reading from index 7 (`[`, then the rest) yields `Symbols` from its fifth entry on. */
  lemma SymbolsFrom7(desc: string)
    requires SpelledAsDesc(desc)
    ensures Tokenize(desc, 7) == Tokens(Symbols[4..], true)
  {
    SymbolsFrom8(desc);
    Bare(desc, 7);
    SymbolStep(desc, 7, 4, NoArg);
  }

  /** Reading from index 6 (`F`, then the rest) yields `Symbols` from its fourth entry on. */
  lemma SymbolsFrom6(desc: string)
    requires SpelledAsDesc(desc)
    ensures Tokenize(desc, 6) == Tokens(Symbols[3..], true)
  {
    SymbolsFrom7(desc);
    Bare(desc, 6);
    SymbolStep(desc, 6, 3, NoArg);
  }

  /** Reading from index 5 (`-`, then the rest) yields `Symbols` from its third entry on. */
  lemma SymbolsFrom5(desc: string)
    requires SpelledAsDesc(desc)
    ensures Tokenize(desc, 5) == Tokens(Symbols[2..], true)
  {
    SymbolsFrom6(desc);
    Bare(desc, 5);
    SymbolStep(desc, 5, 2, NoArg);
  }

  /** Reading from index 4 (`[`, then the rest) yields `Symbols` from its second entry on. */
  lemma SymbolsFrom4(desc: string)
    requires SpelledAsDesc(desc)
    ensures Tokenize(desc, 4) == Tokens(Symbols[1..], true)
  {
    SymbolsFrom5(desc);
    Bare(desc, 4);
    SymbolStep(desc, 4, 1, NoArg);
  }

  /** Reading from index 0 (`F(2)`, then the rest) yields all of `Symbols`. */
  lemma SymbolsFrom0(desc: string)
    requires SpelledAsDesc(desc)
    ensures Tokenize(desc, 0) == Tokens(Symbols[0..], true)
  {
    SymbolsFrom4(desc);
    ScanAt0(desc);
    SymbolStep(desc, 0, 0, Arg("2", 3));
  }

  /** The pass examines exactly `Symbols` and reaches the end of `Desc`. */
  lemma DescSymbols()
    ensures Tokenize(Desc, 0) == Tokens(Symbols, true)
  {
    DescSpelled();
    SymbolsFrom0(Desc);
  }

  // ---------------------------------------------------------------------
  // The segments of the demo

  /** The tops of the demo's trunk, of its second branch and of its crown, all on the
      Y axis, and the unit step along Y that the last `F` leaves behind. */
  const TrunkTop: Vec := [0.0, 2.0, 0.0]
  const BranchTop: Vec := [0.0, 3.5, 0.0]
  const CrownTop: Vec := [0.0, 4.5, 0.0]
  const UnitY: Vec := [0.0, 1.0, 0.0]

  /** The point len further along Y than p. */
  function AlongY(p: Vec, len: real): Vec
  {
    [p[0], p[1] + len, p[2]]
  }

  /** An `F` of length len while the heading is +Y moves the point len along Y. */
  lemma ForwardAlongY(cfg: Config, t: Token, m: Machine, len: real)
    requires t.symbol == 'F' && ArgOr(cfg, t.arg, cfg.step) == len
    requires Col(m.current.T, 0) == UnitY && !m.push && !m.pop
    ensures var p := m.current.P;
      var q := AlongY(p, len);
      Step(cfg, t, m) == m.(current := m.current.(P := q),
                            lines := m.lines + [Segment(p, q)],
                            caller := [0.0, len, 0.0])
  {
    ForwardStep(cfg, t.arg, m);
    var p := m.current.P;
    VecExt(Scale(len, Col(m.current.T, 0)), [0.0, len, 0.0]);
    VecExt(VecAdd([0.0, len, 0.0], p), AlongY(p, len));
  }

  /** `F(2)` from the origin. */
  lemma Trunk(cfg: Config)
    requires cfg.atof("2") == 2.0
    ensures RunTokens(cfg, Symbols[..1], Start(Zero, [], []))
         == Machine(State(InitialFrame, TrunkTop), [], false, false,
                    [Segment(Zero, TrunkTop)], TrunkTop)
  {
    var m := Start(Zero, [], []);
    ForwardAlongY(cfg, Symbols[0], m, 2.0);
    assert Symbols[..1][1..] == [];
  }

  /** NeverBelow and Depth unfolded at index k. */
  lemma DepthFrom(ts: seq<Token>, k: nat, d: int)
    requires k < |ts|
    ensures NeverBelow(ts[k..], d) == (d + Delta(ts[k]) >= 0 && NeverBelow(ts[k + 1..], d + Delta(ts[k])))
    ensures Depth(ts[k..]) == Delta(ts[k]) + Depth(ts[k + 1..])
  {
    assert ts[k..][1..] == ts[k + 1..];
  }

  /** Seven symbols that open one bracket third and close it sixth are balanced. */
  lemma NestedOnce(w: seq<Token>)
    requires |w| == 7
    requires Delta(w[0]) == 0 && Delta(w[1]) == 0 && Delta(w[2]) == 1 && Delta(w[3]) == 0
    requires Delta(w[4]) == 0 && Delta(w[5]) == -1 && Delta(w[6]) == 0
    ensures Balanced(w)
  {
    assert w[7..] == [];
    DepthFrom(w, 6, 0);
    DepthFrom(w, 5, 1);
    DepthFrom(w, 4, 1);
    DepthFrom(w, 3, 1);
    DepthFrom(w, 2, 0);
    DepthFrom(w, 1, 0);
    DepthFrom(w, 0, 0);
    assert w[0..] == w;
  }

  /** `-F[-F]F`, the inside of the first branch, closes what it opens. */
  lemma OuterBranchBalanced()
    ensures Balanced(Symbols[2..9])
  {
    var w := Symbols[2..9];
    assert w[6] == Symbols[8] && w[5] == Symbols[7] && w[4] == Symbols[6] && w[3] == Symbols[5];
    assert w[2] == Symbols[4] && w[1] == Symbols[3] && w[0] == Symbols[2];
    NestedOnce(w);
  }

  /** `-F`, the inside of the second branch, opens and closes nothing. */
  lemma InnerBranchBalanced()
    ensures Balanced(Symbols[13..15])
  {
    var w := Symbols[13..15];
    assert w[2..] == [];
    assert w[1] == Symbols[14] && w[0] == Symbols[13];
    DepthFrom(w, 1, 0);
    DepthFrom(w, 0, 0);
    assert w[0..] == w;
  }

  /** A run of symbols split at j and joined again. */
  lemma Rejoin(ts: seq<Token>, i: nat, j: nat)
    requires i <= j <= |ts|
    ensures ts[i..j] + ts[j..] == ts[i..]
  {
  }

  /** CountF unfolded at index k. */
  lemma CountFrom(ts: seq<Token>, k: nat)
    requires k < |ts|
    ensures CountF(ts[k..]) == (if ts[k].symbol == 'F' then 1 else 0) + CountF(ts[k + 1..])
  {
    assert ts[k..][1..] == ts[k + 1..];
  }

  /** `[-F[-F]F]`: three segments drawn, then the state restored. */
  lemma FirstBranch(cfg: Config, m: Machine)
    requires !m.push && !m.pop
    ensures var r := RunTokens(cfg, Symbols[1..10], m);
      && r.current == m.current && r.stack == m.stack && !r.push && !r.pop
      && |r.lines| == |m.lines| + 3 && r.lines[..|m.lines|] == m.lines
  {
    assert Symbols[1..10] == [Symbols[1]] + Symbols[2..9] + [Symbols[9]];
    OuterBranchBalanced();
    BracketRestores(cfg, Symbols[1], Symbols[2..9], Symbols[9], m);
    LinesGrowByForwards(cfg, Symbols[1..10], m);
    var w := Symbols[1..10];
    assert w[9..] == [];
    CountFrom(w, 8); CountFrom(w, 7); CountFrom(w, 6); CountFrom(w, 5); CountFrom(w, 4);
    CountFrom(w, 3); CountFrom(w, 2); CountFrom(w, 1); CountFrom(w, 0);
    assert w[0..] == w;
  }

  /** `[-F]`: one segment drawn, then the state restored. */
  lemma SecondBranch(cfg: Config, m: Machine)
    requires !m.push && !m.pop
    ensures var r := RunTokens(cfg, Symbols[12..16], m);
      && r.current == m.current && r.stack == m.stack && !r.push && !r.pop
      && |r.lines| == |m.lines| + 1 && r.lines[..|m.lines|] == m.lines
  {
    assert Symbols[12..16] == [Symbols[12]] + Symbols[13..15] + [Symbols[15]];
    InnerBranchBalanced();
    BracketRestores(cfg, Symbols[12], Symbols[13..15], Symbols[15], m);
    LinesGrowByForwards(cfg, Symbols[12..16], m);
    var w := Symbols[12..16];
    assert w[4..] == [];
    CountFrom(w, 3); CountFrom(w, 2); CountFrom(w, 1); CountFrom(w, 0);
    assert w[0..] == w;
  }

  /** `/(137.5)F(1.5)`: the roll keeps the heading, so the segment runs 1.5 along it. */
  lemma RollThenForward(cfg: Config, m: Machine)
    requires cfg.atof("1.5") == 1.5
    requires Col(m.current.T, 0) == UnitY && !m.push && !m.pop
    ensures var p := m.current.P;
      var q := AlongY(p, 1.5);
      var r := RunTokens(cfg, Symbols[10..12], m);
      && Col(r.current.T, 0) == UnitY && r.current.P == q
      && r.lines == m.lines + [Segment(p, q)]
      && r.stack == m.stack && !r.push && !r.pop
  {
    var roll, forward := Symbols[10], Symbols[11];
    assert Symbols[10..12] == [roll, forward];
    RotationStep(cfg, '/', roll.arg, m);
    var m1 := Step(cfg, roll, m);
    ForwardAlongY(cfg, forward, m1, 1.5);
    TwoSteps(cfg, roll, forward, m);
  }

  /** `[-F]F`: one segment in the branch, then one more along +Y from where it started. */
  lemma BranchThenForward(cfg: Config, m: Machine)
    requires cfg.step == 1.0
    requires Col(m.current.T, 0) == UnitY && !m.push && !m.pop
    ensures var p := m.current.P;
      var q := AlongY(p, 1.0);
      var r := RunTokens(cfg, Symbols[12..], m);
      && |r.lines| == |m.lines| + 2 && r.lines[..|m.lines| + 1] == RunTokens(cfg, Symbols[12..16], m).lines
      && r.lines[|m.lines| + 1] == Segment(p, q)
      && r.caller == UnitY && r.stack == m.stack
  {
    SecondBranch(cfg, m);
    var m1 := RunTokens(cfg, Symbols[12..16], m);
    ForwardAlongY(cfg, Symbols[16], m1, 1.0);
    assert Symbols[16..][1..] == [];
    RunTokensAppend(cfg, Symbols[12..16], Symbols[16..], m);
    Rejoin(Symbols, 12, 16);
  }

  /**
    From a point on the trunk with the initial heading: `/(137.5)F(1.5)[-F]F`
    draws three segments, the first and the last along +Y.
  */
  lemma Crown(cfg: Config, m: Machine)
    requires cfg.atof("1.5") == 1.5 && cfg.step == 1.0
    requires Col(m.current.T, 0) == UnitY && !m.push && !m.pop
    ensures var p := m.current.P;
      var q1 := AlongY(p, 1.5);
      var q2 := AlongY(p, 2.5);
      var r := RunTokens(cfg, Symbols[10..], m);
      && |r.lines| == |m.lines| + 3 && r.lines[..|m.lines|] == m.lines
      && r.lines[|m.lines|] == Segment(p, q1)
      && r.lines[|m.lines| + 2] == Segment(q1, q2)
      && r.caller == UnitY && r.stack == m.stack
  {
    RollThenForward(cfg, m);
    var m1 := RunTokens(cfg, Symbols[10..12], m);
    BranchThenForward(cfg, m1);
    SecondBranch(cfg, m1);
    RunTokensAppend(cfg, Symbols[10..12], Symbols[12..], m);
    Rejoin(Symbols, 10, 12);
    var r := RunTokens(cfg, Symbols[12..], m1);
    assert r.lines[..|m.lines| + 1] == m1.lines by {
      assert r.lines[..|m.lines| + 1] == r.lines[..|m1.lines|];
    }
    assert r.lines[|m.lines|] == m1.lines[|m.lines|];
    assert r.lines[..|m.lines|] == r.lines[..|m.lines| + 1][..|m.lines|];
  }

  /** Everything after the trunk: `[-F[-F]F]` and then the crown. */
  lemma AfterTrunk(cfg: Config, m: Machine)
    requires cfg.atof("1.5") == 1.5 && cfg.step == 1.0
    requires Col(m.current.T, 0) == UnitY && !m.push && !m.pop
    ensures var p := m.current.P;
      var q1 := AlongY(p, 1.5);
      var q2 := AlongY(p, 2.5);
      var r := RunTokens(cfg, Symbols[1..], m);
      && |r.lines| == |m.lines| + 6 && r.lines[..|m.lines|] == m.lines
      && r.lines[|m.lines| + 3] == Segment(p, q1)
      && r.lines[|m.lines| + 5] == Segment(q1, q2)
      && r.caller == UnitY && r.stack == m.stack
  {
    FirstBranch(cfg, m);
    var m1 := RunTokens(cfg, Symbols[1..10], m);
    Crown(cfg, m1);
    RunTokensAppend(cfg, Symbols[1..10], Symbols[10..], m);
    Rejoin(Symbols, 1, 10);
    var r := RunTokens(cfg, Symbols[10..], m1);
    assert r.lines[..|m.lines|] == r.lines[..|m1.lines|][..|m.lines|];
  }

  /** The run over `Symbols` from the origin with the stand-alone program's defaults. */
  lemma SymbolsSegments(cfg: Config)
    requires cfg.atof("2") == 2.0 && cfg.atof("1.5") == 1.5 && cfg.step == 1.0
    ensures var r := RunTokens(cfg, Symbols, Start(Zero, [], []));
      && r.stack == []
      && |r.lines| == 7
      && r.lines[0] == Segment(Zero, TrunkTop)
      && r.lines[4] == Segment(TrunkTop, BranchTop)
      && r.lines[6] == Segment(BranchTop, CrownTop)
      && r.caller == UnitY
  {
    var m0 := Start(Zero, [], []);
    Trunk(cfg);
    var m1 := RunTokens(cfg, Symbols[..1], m0);
    AfterTrunk(cfg, m1);
    RunTokensAppend(cfg, Symbols[..1], Symbols[1..], m0);
    Rejoin(Symbols, 0, 1);
    assert Symbols[0..] == Symbols && Symbols[0..1] == Symbols[..1];
    var r := RunTokens(cfg, Symbols[1..], m1);
    assert r.lines[0] == r.lines[..1][0];
  }

  /**
    The demo from the origin with step 1 and angle 45, reading "2" as 2 and
    "1.5" as 1.5: the pass reaches the end, draws seven segments, of which the
    first runs from the origin to (0, 2, 0), the fifth from (0, 2, 0) to
    (0, 3.5, 0) and the seventh from (0, 3.5, 0) to (0, 4.5, 0); the caller's
    array is left holding the last step, (0, 1, 0), and the stack is empty.
  */
  lemma DemoSegments(trig: Trig, atof: string -> real)
    requires atof("2") == 2.0 && atof("1.5") == 1.5
    ensures var r := Run(StandAlone(trig, atof), Desc, 0, Start(Zero, [], []));
      && r.ok && r.m.stack == []
      && |r.m.lines| == 7
      && r.m.lines[0] == Segment(Zero, TrunkTop)
      && r.m.lines[4] == Segment(TrunkTop, BranchTop)
      && r.m.lines[6] == Segment(BranchTop, CrownTop)
      && r.m.caller == UnitY
  {
    var cfg := StandAlone(trig, atof);
    DescSymbols();
    RunIsFold(cfg, Desc, 0, Start(Zero, [], []));
    SymbolsSegments(cfg);
  }

  /**
    `main`: a fresh stand-alone interpreter runs `Desc` from the origin. It
    returns the segments printed, in order, and what is left in the point array
    passed to `read_desc`.
  */
  method RunDemo(trig: Trig, atof: string -> real) returns (printed: seq<Segment>, point: Vec)
    requires atof("2") == 2.0 && atof("1.5") == 1.5
    ensures |printed| == 7
    ensures printed[0] == Segment(Zero, TrunkTop)
    ensures printed[4] == Segment(TrunkTop, BranchTop)
    ensures printed[6] == Segment(BranchTop, CrownTop)
    ensures point == UnitY
  {
    var interpreter := new Interpreter.Fixed(trig, atof);
    var P := new real[3];
    AssignVec(P, Zero);
    var ok := interpreter.ReadDesc(Desc, P);
    DemoSegments(trig, atof);
    printed, point := interpreter.lines, P[..];
  }
}
