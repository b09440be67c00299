# A 3D turtle interpreter for L-system strings, in Dafny

This project models the turtle interpreter of an L-system renderer. The
interpreter makes one pass over a description such as
`F(2)[-F[-F]F]/(137.5)F(1.5)[-F]F`:

- `F` moves the turtle along its heading and draws a segment.
- `+ - & ^ \ /` turn the frame about its Up, Left or Heading axis.
- `[` and `]` save and restore the turtle state on a branch stack.
- Every other character is ignored.

A symbol may carry a numeric argument in parentheses. Without one, the
default step (`lstep`) or default angle (`langle`) applies. The turtle state
(`EstadoActual`) is a 3x3 frame `T` with columns Heading, Left and Up, plus a
position `P`.

The repository has two copies of this interpreter:

- `proyecto/proyecto.cpp` reads `lstep` and `langle` from its input and
  collects segments in `lines` for drawing.
- `proyecto/lsystems3d.cpp` uses the constants 1 and 45, prints each segment,
  and interprets one fixed string from the origin.

The model has five modules:

- `Kernel` (kernel.dfy): the 3x3 helpers `mat_by_mat`, `mat_by_vec`,
  `sum_vec`, `assign_mat`, `assign_vec`, `Ru_matrix`, `Rl_matrix` and
  `Rh_matrix`.
  - Each is a method over `array2<real>`/`array<real>` with the source's
    nested loops.
  - Each is proved against a value-level function on 3-vectors and 3x3
    matrices.
  - Lemmas state the geometric facts that hold whatever cosine and sine are.
    When the usual trigonometric laws are assumed at the angle, they also
    state that each rotation is undone by the opposite rotation.
- `Scanner` (scanner.dfy): `get_argument`.
  - The `while` loop that copies the argument is proved to compute the
    function `Scan`.
  - `Scan` returns no argument, an argument with its text and jump, or an
    unterminated `(`.
  - The module also models the scratch buffer that atof reads (see Findings).
- `Turtle` (turtle.dfy): the semantics of `read_desc` as functions.
  - `Symbol` is the `switch` on the current character.
  - `Settle` resolves the deferred push and pop flags after each symbol.
  - `Run` is the pass itself.
  - The pass is also shown to be a fold of `Step` over the symbols it
    examines (`Tokenize`). Lemmas about segments, rotations and the branch
    stack are stated on that fold.
- `TurtleInterpreter` (interpreter.dfy): the class `Interpreter`.
  - Its fields are the globals `EstadoActual` (`current`), `PilaEstados`
    (`stack`, top at the end) and `lines`.
  - Its constants are `lstep` and `langle`, with `cos`/`sin` and `atof` as
    parameters.
  - `ReadDesc` is `read_desc`. Its loop (`Walk`, one `Iterate` per symbol)
    moves an index that jumps over arguments. It is
    proved to leave the state, the segments and the caller's `P` array
    exactly as `Turtle.Run` describes, and the stack empty.
- `Demo` (demo.dfy): `main` of `lsystems3d.cpp`. It proves which symbols its
  fixed string yields and the coordinates of the segments that do not depend
  on cosine and sine.

Two behaviours of the code are modelled as written:

- A `]` met with an empty stack leaves the pop flag set. The pop then happens
  after a later symbol, once a `[` has filled the stack.
- A push and a pop can be pending in the same step. The pop wins and the push
  waits for the next step.

An idealised description would say a `]` on an empty stack is simply
skipped, and that a push and a pop are never pending together. The model
follows the code on both points.

## Model

| member | source | states |
|---|---|---|
| Kernel.AssignMat | proyecto/proyecto.cpp:259-264 | the destination array holds exactly the given matrix afterwards |
| Kernel.AssignVec | proyecto/proyecto.cpp:267-271 | the destination array holds exactly the given vector afterwards |
| Kernel.MatByMat | proyecto/proyecto.cpp:244-256 | the triple loop leaves in `result` the row-by-column product of the two input matrices (the result array must differ from both inputs) |
| Kernel.MatByVec | proyecto/proyecto.cpp:295-302 | the loop leaves in `result` the product of the matrix by the vector |
| Kernel.SumVec | proyecto/proyecto.cpp:305-309 | `result` holds the entrywise sum of the two inputs' original values, also when `result` is one of them, as in `sum_vec(P0, P, P0)` |
| Kernel.RuMatrix | proyecto/proyecto.cpp:316-324 | R is the rotation about Up by `angle` degrees, with the source's entries: converted with PI = 3.14159265 and written with `sin(alfa * -1.0)` |
| Kernel.RlMatrix | proyecto/proyecto.cpp:327-335 | R is the rotation about Left, entry by entry as in the source |
| Kernel.RhMatrix | proyecto/proyecto.cpp:338-346 | R is the rotation about Heading, entry by entry as in the source |
| Kernel.ForwardIsScaledHeading | proyecto/proyecto.cpp:418-420 | multiplying T by (a, 0, 0) yields a times T's first column, the Heading |
| Kernel.YawKeepsUp | proyecto/proyecto.cpp:316-324 | T * Ru(angle) has the same Up column as T, for any cosine and sine |
| Kernel.PitchKeepsLeft | proyecto/proyecto.cpp:327-335 | T * Rl(angle) has the same Left column as T, for any cosine and sine |
| Kernel.RollKeepsHeading | proyecto/proyecto.cpp:338-346 | T * Rh(angle) has the same Heading column as T, for any cosine and sine |
| Kernel.MatMulAssoc | proyecto/proyecto.cpp:244-256 | the product the kernel computes is associative, so successive turns compose |
| Kernel.MatMulIdentity | proyecto/proyecto.cpp:244-256 | multiplying by the identity on the right changes nothing |
| Kernel.YawPair | proyecto/proyecto.cpp:316-324 | the yaw matrix built from cosine c and sine s, times the one built from c and -s, is the identity whenever c^2 + s^2 = 1 |
| Kernel.YawInverse | proyecto/proyecto.cpp:316-324 | where cos^2 + sin^2 = 1, cos is even and sin is odd at the angle, Ru(angle) * Ru(-angle) is the identity |
| Kernel.PitchPair | proyecto/proyecto.cpp:327-335 | the pitch matrix built from cosine c and sine s, times the one built from c and -s, is the identity whenever c^2 + s^2 = 1 |
| Kernel.PitchInverse | proyecto/proyecto.cpp:327-335 | under the same laws, Rl(angle) * Rl(-angle) is the identity |
| Kernel.RollPair | proyecto/proyecto.cpp:338-346 | the roll matrix built from cosine c and sine s, times the one built from c and -s, is the identity whenever c^2 + s^2 = 1 |
| Kernel.RollInverse | proyecto/proyecto.cpp:338-346 | under the same laws, Rh(angle) * Rh(-angle) is the identity |
| Kernel.UndoTurn | proyecto/proyecto.cpp:433-434 | when R * R' is the identity, turning T by R and then by R' gives T back |
| Scanner.FindClose | proyecto/proyecto.cpp:362-365 | the index of the first `)` at or after j (the string's length when there is none): no `)` lies before it |
| Scanner.Scan | proyecto/proyecto.cpp:356-374 | no argument exactly when no `(` follows the command; unterminated exactly when a `(` follows and no `)` comes after it; otherwise jump >= 2, the character at start + jump is `)`, and the text is exactly the characters strictly between, none of them `)` |
| Scanner.GetArgument | proyecto/proyecto.cpp:356-374 | the scanning loop yields `Scan`'s result; when there is an argument, `arg` is atof of its text; otherwise `arg` is left as it was; the copy in `lsystems3d.cpp` (lines 167-188) is the same loop |
| Scanner.UpToNul | proyecto/proyecto.cpp:368 | the C string atof reads from a buffer is a NUL-free prefix of it, ending at the first NUL or at the buffer's end |
| Scanner.UpToNulStopsAtTerminator | proyecto/proyecto.cpp:368 | a NUL right after NUL-free text ends the C string exactly there |
| Scanner.StaleTextReadsOldDigits | proyecto/proyecto.cpp:362-368 | as written, reading `F(12)` and then `F(3)` through the same unterminated buffer makes atof read "32" for the second argument |
| Scanner.TerminatedTextIsText | proyecto/proyecto.cpp:362-368 | with a terminating NUL, atof reads exactly the argument text, whatever the buffer held before |
| Turtle.Symbol | proyecto/proyecto.cpp:413-501 | one symbol's effect: the stack never changes; `[` and only `[` raises push, `]` and only `]` raises pop; only `F` moves, draws or writes the caller's array; only rotations change T; every other character changes nothing |
| Turtle.RunIsFold | proyecto/proyecto.cpp:402-505 | the pass over the string equals folding the per-symbol step over the symbols the scanner yields, and it is complete exactly when no argument is left unterminated |
| Turtle.TokenizeShape | proyecto/proyecto.cpp:402-505 | the pass examines at most strlen(desc) symbols. The first is at the starting index. Each one after that sits right after the previous symbol's argument, so no character inside parentheses is dispatched |
| Turtle.Settle | proyecto/proyecto.cpp:511-521 | resolving the flags never touches the segments or the caller's array. A pending pop on a non-empty stack makes the top the current state, and removes it, clearing pop. Otherwise a pending push appends the current state to the stack, clearing push. With neither, nothing changes |
| Turtle.Run | proyecto/proyecto.cpp:402-522 | the pass from index i: each iteration applies `Symbol`, then `Settle`, and resumes just after the symbol's argument. It stops with ok false at an unterminated argument. The contract: the pass never shortens the list of segments |
| Turtle.RunStep | proyecto/proyecto.cpp:402-522 | one iteration of the loop and the rest of the pass make up the pass: it resumes past the symbol's argument on the settled machine, or ends there unsuccessfully at an unterminated argument |
| Turtle.RunTokensAppend | proyecto/proyecto.cpp:402-517 | running two consecutive stretches of symbols is running the first and then the second |
| Turtle.LinesGrowByForwards | proyecto/proyecto.cpp:414-427 | the segment list grows by exactly the number of `F` symbols examined, and the segments already there stay unchanged |
| Turtle.SegmentCount | proyecto/proyecto.cpp:414-427 | the same for a whole string: `lines` gains one segment per examined `F` and is never cleared |
| Turtle.ForwardStep | proyecto/proyecto.cpp:414-427 | `F` uses its argument, or `lstep` without one. The segment runs from the current position to that position plus arg times the Heading column. T, the stack and the flags are unchanged, and the caller's array receives the step |
| Turtle.RotationStep | proyecto/proyecto.cpp:428-487 | a rotation symbol uses its argument, or `langle` without one. It replaces T by T * R and changes nothing else. `+`/`-` keep Up, `&`/`^` keep Left and `\`/`/` keep Heading |
| Turtle.FirstForward | proyecto/proyecto.cpp:380-426 | from the initial frame (Heading +Y, Left +X, Up +Z), a leading `F(a)` from p draws the segment from p to p + (0, a, 0), placed right after the segments already in `lines` |
| Turtle.StackDiscipline | proyecto/proyecto.cpp:488-517 | symbols that never close more brackets than are open keep the stack's lower part intact, leave no flag pending, and change the stack's height by their bracket depth |
| Turtle.BracketRestores | proyecto/proyecto.cpp:488-517 | with no flags pending, `[w]` with w balanced restores the exact state held before `[` and the stack as it was |
| Turtle.StickyPop | proyecto/proyecto.cpp:511-516 | a `]` on an empty stack changes nothing but leaves pop pending. In `] [ t` the pop fires after t and discards t's move or turn |
| Turtle.PopPostponesPush | proyecto/proyecto.cpp:511-522 | when a pending pop fires, a push raised by the same symbol stays pending for the next one |
| Turtle.YawThereAndBack | proyecto/proyecto.cpp:428-447 | under the trigonometric laws, `+` followed by `-` with the same argument leaves the machine exactly as it was |
| TurtleInterpreter.Turn | proyecto/proyecto.cpp:428-487 | one rotation case builds the named rotation, negating the angle for `-`, `^` and `/`, and replaces T by T * R |
| TurtleInterpreter.Interpreter.constructor | proyecto/proyecto.cpp:39-50 | a fresh interpreter has the given `lstep`/`langle`, an empty stack, no segments and a zero state |
| TurtleInterpreter.Interpreter.Fixed | proyecto/lsystems3d.cpp:19-37 | the stand-alone interpreter uses step 1 and angle 45, with an empty stack and no segments |
| TurtleInterpreter.Interpreter.Perform | proyecto/proyecto.cpp:407-509 | loading the current state into `T` and `P0`, the `switch` and storing them back yield exactly the machine `Turtle.Symbol` describes, including the caller's array and the flags |
| TurtleInterpreter.Advance | proyecto/proyecto.cpp:419-423 | after `L[0] = arg`, `mat_by_vec` and `sum_vec`, `P` holds T times (arg, 0, 0) and `P0` has moved by exactly that step; `L` keeps zeros in its other entries |
| TurtleInterpreter.Interpreter.ForwardSymbol | proyecto/proyecto.cpp:414-427 | the `F` case: the step length is the argument or `lstep`, and the new point, the appended segment and the caller's array are the ones `Turtle.Symbol` gives for `F` |
| TurtleInterpreter.Interpreter.TurnSymbol | proyecto/proyecto.cpp:428-487 | a rotation case: the angle is the argument or `langle`, and the new frame is the one `Turtle.Symbol` gives for that rotation, with the point untouched |
| TurtleInterpreter.Interpreter.SettleFlags | proyecto/proyecto.cpp:511-521 | resolving the flags yields exactly `Turtle.Settle`: a pending pop on a non-empty stack restores its top, otherwise a pending push saves the state |
| TurtleInterpreter.Interpreter.Iterate | proyecto/proyecto.cpp:403-521 | one loop iteration: at an unterminated argument nothing changes and `ok` is false; otherwise the new machine is the scanned symbol applied and settled, and the index moves past its argument |
| TurtleInterpreter.Interpreter.Walk | proyecto/proyecto.cpp:402-522 | the loop as a whole ends on the machine `Turtle.Run` gives from its starting machine, and reports whether the pass reached the end of the string |
| TurtleInterpreter.Interpreter.ClearStack | proyecto/proyecto.cpp:524-527 | the final loop leaves the branch stack empty |
| TurtleInterpreter.Interpreter.ReadDesc | proyecto/proyecto.cpp:376-528 | the new `current`, the appended segments and the caller's `P` are those of `Turtle.Run` from the initial frame at the old `P`. `ok` is false exactly when an argument's `(` is never closed. The stack is empty on return. The copy in `lsystems3d.cpp` (lines 190-343) is the same, its printed segments being `lines` |
| Demo.DescSymbols | proyecto/lsystems3d.cpp:349 | the demo string yields exactly 17 symbols, at the listed indices and with arguments "2", "137.5" and "1.5", and has no unterminated argument |
| Demo.RollThenForward | proyecto/lsystems3d.cpp:229-296 | `/(137.5)F(1.5)` from a frame heading +Y draws a segment 1.5 along +Y, and the heading stays +Y |
| Demo.DemoSegments | proyecto/lsystems3d.cpp:345-356 | reading "2" as 2 and "1.5" as 1.5, the demo from the origin gives 7 segments: the first from (0,0,0) to (0,2,0), the fifth from (0,2,0) to (0,3.5,0), the seventh from (0,3.5,0) to (0,4.5,0). The caller's array ends as (0,1,0) and the stack is empty |
| Demo.RunDemo | proyecto/lsystems3d.cpp:345-356 | running a fresh stand-alone interpreter on the demo string prints those 7 segments and leaves (0,1,0) in the point array |

## Left out

- Rendering is not modelled: the OpenGL/GLUT calls, camera, lighting and
  callbacks in `proyecto.cpp` (`drawScene`, `resize`, `keyInput`,
  `specialKeyInput`, `setup`, and the window setup in `main`). These are
  foreign library calls.
- Reading `lstep`, `langle` and the description from standard input is not
  modelled. They become parameters: the constructor's arguments and
  `ReadDesc`'s `desc`.
- The debug helpers `print_mat`, `print_vec` and the `DEBUG` messages are left
  out. In `lsystems3d.cpp`, the printed start and end points of each segment
  are modelled as the same `lines` sequence.
- Floating point is not modelled: coordinates are `real`, so IEEE rounding is
  not captured.
- `cos` and `sin` are the fields of a `Trig` value. Only the inverse-rotation
  lemmas assume anything about them, and only at the angle concerned.
- atof is an arbitrary function from the argument text to a number. C number
  parsing is not modelled.
- Fixed buffer sizes are not modelled. `MAX_DESC` bounds the description in
  `lsystems3d.cpp`. The `str_arg` buffer holds `MAX_DESC + 1` characters, so a
  longer argument would overflow it. Nor is the range of the `int` index and
  jump.
- `desc` is the sequence of the C string's characters before its terminating
  NUL. The source stops at `strlen(desc)`, so the model's `desc` holds no NUL;
  the sequence type does not enforce this.
- TurtleInterpreter.Interpreter.ReadDesc: when an argument's `(` is never
  closed, the source scans past the end of the string, which is undefined
  behaviour. The model stops the pass there and returns `ok == false`.
- Kernel.MatByMat: requires the result array to differ from both inputs. The
  source never aliases them.
- Kernel.MatByVec: requires the result array to differ from the vector. The
  source never aliases them.
- Kernel.YawInverse, Kernel.PitchInverse, Kernel.RollInverse and
  Turtle.YawThereAndBack: these hold only under the trigonometric laws at the
  angle, and exactly only over the reals.
- `transformaciones3d/transformaciones3d.cpp` is not part of this model. It is
  a separate single-precision transformation demo with no control structure.

## Findings

| source | as written | input that shows it | evidently intended | confidence | as-written member | corrected member |
|---|---|---|---|---|---|---|
| proyecto/proyecto.cpp:362-368 (also proyecto/lsystems3d.cpp:173-182) | `get_argument` copies the argument's characters into the uninitialised buffer `str_arg` without a terminating NUL, then passes the buffer to atof | `F(12)F(3)`, when the second call's `str_arg` still holds the first call's characters: atof reads "32" instead of "3" | atof reads exactly the characters between the parentheses | not executed; the buffer is never initialised, so even the first call reads whatever the stack frame held, and later calls depend on how the frame is reused | Scanner.StaleTextReadsOldDigits | Scanner.TerminatedTextIsText |

`Scanner.GetArgument` applies atof to exactly the argument text, which is the
corrected behaviour.
