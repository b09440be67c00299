/**
  The argument scanner: after a command character at index `start`, an
  optional parenthesised argument `(text)` may follow. The scanner reports how
  many characters the argument occupies (the "jump", 0 when there is none) and
  the text between the parentheses.

  The source scans for `)` without a bound and reads past the end of the string
  when the group is never closed; here that case is the explicit outcome
  `Unterminated`.
*/
module Scanner {

  /** The argument found after a command character. */
  datatype Argument =
    | NoArg                              // no `(` right after the command: jump 0
    | Arg(text: string, jump: nat)       // `(text)`, ending `jump` characters after the command
  {
    /** How many characters after the command the argument occupies. */
    function Jump(): nat
    {
      if NoArg? then 0 else jump
    }
  }

  /** What the scanner reports: an argument (possibly none), or an open `(` never closed. */
  datatype ScanResult = Scanned(arg: Argument) | Unterminated

  /** The index of the first `)` at or after j, or |desc| when there is none. */
  function FindClose(desc: string, j: nat): (k: nat)
    requires j <= |desc|
    ensures j <= k <= |desc|
    ensures k < |desc| ==> desc[k] == ')'
    ensures forall x :: j <= x < k ==> desc[x] != ')'
    decreases |desc| - j
  {
    if j == |desc| || desc[j] == ')' then j else FindClose(desc, j + 1)
  }

  /** The argument after the command at index `start`. */
  function Scan(desc: string, start: nat): (s: ScanResult)
    requires start < |desc|
    ensures s == Scanned(NoArg) <==> !(start + 1 < |desc| && desc[start + 1] == '(')
    ensures s.Unterminated? <==>
              start + 1 < |desc| && desc[start + 1] == '(' && ')' !in desc[start + 2..]
    ensures s.Scanned? && s.arg.Arg? ==>
              && desc[start + 1] == '('
              && 2 <= s.arg.jump && start + s.arg.jump < |desc|
              && desc[start + s.arg.jump] == ')'
              && s.arg.text == desc[start + 2 .. start + s.arg.jump]
              && ')' !in s.arg.text
  {
    if start + 1 < |desc| && desc[start + 1] == '(' then
      var k := FindClose(desc, start + 2);
      if k == |desc| then Unterminated else Scanned(Arg(desc[start + 2 .. k], k - start))
    else
      Scanned(NoArg)
  }

  /**
    `get_argument`: scan the argument after the command at `start` and convert
    its text with `atof`. The caller's `arg` is returned unchanged when there is
    no argument, as the source leaves `*arg` unwritten then.
  */
  method GetArgument(desc: string, start: nat, atof: string -> real, arg0: real)
    returns (s: ScanResult, arg: real)
    requires start < |desc|
    ensures s == Scan(desc, start)
    ensures s.Scanned? && s.arg.Arg? ==> arg == atof(s.arg.text)
    ensures !(s.Scanned? && s.arg.Arg?) ==> arg == arg0
  {
    arg := arg0;
    var i := start;
    if i + 1 < |desc| && desc[i + 1] == '(' {
      i := i + 2;
      var text := "";
      while i < |desc| && desc[i] != ')'
        invariant start + 2 <= i <= |desc|
        invariant text == desc[start + 2 .. i]
        invariant FindClose(desc, start + 2) == FindClose(desc, i)
      {
        text := text + [desc[i]];
        i := i + 1;
      }
      if i == |desc| {
        s := Unterminated;
      } else {
        arg := atof(text);
        s := Scanned(Arg(text, i - start));
      }
    } else {
      s := Scanned(NoArg);
    }
  }

  // ---------------------------------------------------------------------
  // The scratch buffer handed to atof

  /** The size of the scratch buffer `str_arg`: MAX_DESC + 1 characters. */
  const BufferSize: nat := 257

  /** The buffer after the argument text is copied over its first characters. */
  function Overlay(buf: seq<char>, text: string): (r: seq<char>)
    requires |text| <= |buf|
    ensures |r| == |buf| && r[..|text|] == text && r[|text|..] == buf[|text|..]
  {
    text + buf[|text|..]
  }

  /** The C string a buffer holds: its characters up to the first NUL. */
  function UpToNul(s: seq<char>): (r: string)
    ensures |r| <= |s| && r == s[..|r|]
    ensures '\0' !in r
    ensures |r| < |s| ==> s[|r|] == '\0'
  {
    if s == [] || s[0] == '\0' then [] else [s[0]] + UpToNul(s[1..])
  }

  /** What atof reads when the text is copied without a terminating NUL, as `get_argument` does. */
  function StaleText(buf: seq<char>, text: string): string
    requires |text| <= |buf|
  {
    UpToNul(Overlay(buf, text))
  }

  /** What atof reads when the copy is followed by a NUL. */
  function TerminatedText(buf: seq<char>, text: string): string
    requires |text| < |buf|
  {
    UpToNul(Overlay(buf, text + ['\0']))
  }

  /** A NUL right after a NUL-free text ends the C string there. */
  lemma {:induction false} UpToNulStopsAtTerminator(text: string, rest: seq<char>)
    requires '\0' !in text
    ensures UpToNul(text + ['\0'] + rest) == text
    decreases |text|
  {
    var s := text + ['\0'] + rest;
    if text != [] {
      assert s[1..] == text[1..] + ['\0'] + rest;
      UpToNulStopsAtTerminator(text[1..], rest);
    }
  }

  /** With the terminating NUL, atof reads exactly the argument text, whatever the buffer held. */
  lemma TerminatedTextIsText(buf: seq<char>, text: string)
    requires |text| < |buf| && '\0' !in text
    ensures TerminatedText(buf, text) == text
  {
    assert Overlay(buf, text + ['\0']) == text + ['\0'] + buf[|text| + 1..];
    UpToNulStopsAtTerminator(text, buf[|text| + 1..]);
  }

  /** A buffer assumed to hold only NULs; the source's buffer is uninitialised, so even
      its first argument is read over whatever the stack frame held. */
  const Blank: seq<char> := seq(BufferSize, _ => '\0')

  /**
    Without the terminating NUL, a shorter argument read into a buffer that still
    holds a longer one is extended by the stale characters: in `F(12)F(3)` the
    second argument reaches atof as "32".
  */
  lemma StaleTextReadsOldDigits()
    ensures StaleText(Blank, "12") == "12"
    ensures StaleText(Overlay(Blank, "12"), "3") == "32"
  {
    var b1 := Overlay(Blank, "12");
    assert b1[..3] == "12\0";
    assert UpToNul(b1) == [b1[0]] + UpToNul(b1[1..]);
    assert UpToNul(b1[1..]) == [b1[1]] + UpToNul(b1[2..]);
    assert b1[2..][0] == '\0';
    var b2 := Overlay(b1, "3");
    assert b2[..3] == "32\0";
    assert UpToNul(b2) == [b2[0]] + UpToNul(b2[1..]);
    assert UpToNul(b2[1..]) == [b2[1]] + UpToNul(b2[2..]);
    assert b2[2..][0] == '\0';
  }
}
