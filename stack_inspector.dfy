/** Caller identity and bounded stack capture (`getCurrentFunc`, `getStack`).
    What `runtime.Caller(i)` (with `runtime.FuncForPC(pc).Name()`) reports inside one of them is
    a frame oracle: the frame `i` levels up, or None when the runtime cannot resolve that level.
    Level 0 is the function itself and level 1 is `NewSunError` at the line of the call, so the
    two functions see different frames there; from level 2 up both see the callers of
    `NewSunError` (`AgreeAboveConstructor`). */
module StackInspector {
  import opened Wrappers
  import opened Strings
  import opened Strconv
  import opened Filepath

  /** What the runtime reports about one level of the call stack. */
  datatype Frame = Frame(pc: nat, file: string, line: int, funcName: string)

  type FrameOracle = int -> Option<Frame>

  /** What holds of the oracles of two direct callees of `NewSunError`: they differ at most in
      the levels of the callee itself and of `NewSunError`. */
  ghost predicate AgreeAboveConstructor(callerAt: FrameOracle, stackAt: FrameOracle) {
    forall i :: i >= 2 ==> callerAt(i) == stackAt(i)
  }

  /** The caller name used when the runtime cannot resolve the frame. */
  const UNKNOWN_CALLER: string := "??:0:??()"

  /** "<base of file>:<line>:<short function name>()". */
  function CallerName(f: Frame): (r: string)
    ensures |r| >= 2 && r[|r| - 2..] == "()"
  {
    Base(f.file) + ":" + Itoa(f.line) + ":" + ShortFuncName(f.funcName) + "()"
  }

  /** `getCurrentFunc(skip)`. */
  function CurrentFunc(frameAt: FrameOracle, skip: int): (r: string)
    ensures frameAt(skip).None? ==> r == UNKNOWN_CALLER
    ensures frameAt(skip).Some? ==> r == CallerName(frameAt(skip).value)
  {
    match frameAt(skip)
    case None => UNKNOWN_CALLER
    case Some(f) => CallerName(f)
  }

  /** For a frame in `dir/name` running `pkg.fn`, the caller name is "name:line:fn()". */
  lemma CallerNameOf(pc: nat, dir: string, name: string, line: int, pkg: string, fn: string)
    requires name != [] && '/' !in name
    requires '.' !in fn && '/' !in fn
    ensures CallerName(Frame(pc, dir + "/" + name, line, pkg + "." + fn)) == name + ":" + Itoa(line) + ":" + fn + "()"
  {
    BaseOfJoin(dir, name);
    ShortFuncNameOf(pkg, fn);
  }

  /** A function name whose last element has no '.' (the empty name of an unknown counter
      among them) prints as "()" after the file's base and the line. */
  lemma CallerNameUnqualified(f: Frame, dir: string, name: string)
    requires f.funcName == dir + name
    requires dir == [] || dir[|dir| - 1] == '/'
    requires '.' !in name && '/' !in name
    ensures CallerName(f) == Base(f.file) + ":" + Itoa(f.line) + ":()"
  {
    ExtOfPlain(dir, name);
    var b, l := Base(f.file), Itoa(f.line);
    assert ShortFuncName(f.funcName) == [];
    assert b + ":" + l + ":" + [] + "()" == b + ":" + l + ":()";
  }

  /** The frames `getStack(skip, rows)` visits: levels skip, skip+1, ... until `rows` frames
      have been taken or a level cannot be resolved. There are at most `rows` of them, and
      each is the one the runtime reports at its level, in order. */
  function Walk(frameAt: FrameOracle, skip: int, rows: int): (fs: seq<Frame>)
    ensures |fs| <= if rows < 0 then 0 else rows
    ensures forall k :: 0 <= k < |fs| ==> frameAt(skip + k) == Some(fs[k])
    decreases rows
  {
    if rows <= 0 then []
    else
      match frameAt(skip)
      case None => []
      case Some(f) =>
        var rest := Walk(frameAt, skip + 1, rows - 1);
        assert forall k :: 0 < k < |rest| + 1 ==> ([f] + rest)[k] == rest[k - 1] && skip + k == skip + 1 + (k - 1);
        [f] + rest
  }

  /** A walk shorter than `rows` ended at a level the runtime cannot resolve. */
  lemma {:induction false} WalkStops(frameAt: FrameOracle, skip: int, rows: int)
    requires |Walk(frameAt, skip, rows)| < rows
    ensures frameAt(skip + |Walk(frameAt, skip, rows)|).None?
    decreases rows
  {
    if frameAt(skip).Some? {
      WalkStops(frameAt, skip + 1, rows - 1);
    }
  }

  /** When the first `rows` levels all resolve, exactly `rows` frames are taken. */
  lemma {:induction false} WalkFull(frameAt: FrameOracle, skip: int, rows: nat)
    requires forall i :: skip <= i < skip + rows ==> frameAt(i).Some?
    ensures |Walk(frameAt, skip, rows)| == rows
    decreases rows
  {
    if rows > 0 {
      WalkFull(frameAt, skip + 1, rows - 1);
    }
  }

  /** Walk is the only frame list that follows the runtime from `skip`, stays within `rows`,
      and ends early only at an unresolvable level. */
  lemma {:induction false} WalkUnique(frameAt: FrameOracle, skip: int, rows: int, fs: seq<Frame>)
    requires |fs| <= if rows < 0 then 0 else rows
    requires forall k :: 0 <= k < |fs| ==> frameAt(skip + k) == Some(fs[k])
    requires |fs| < rows ==> frameAt(skip + |fs|).None?
    ensures fs == Walk(frameAt, skip, rows)
    decreases rows
  {
    if rows > 0 && frameAt(skip).Some? && fs != [] {
      var tail := fs[1..];
      forall k | 0 <= k < |tail| ensures frameAt(skip + 1 + k) == Some(tail[k]) {
        assert frameAt(skip + (k + 1)) == Some(fs[k + 1]);
      }
      WalkUnique(frameAt, skip + 1, rows - 1, tail);
      assert fs == [fs[0]] + tail;
    }
  }

  /** One stack line, as `fmt.Fprintf(buf, "%s:%d (0x%x)\n", file, line, pc)` writes it: the
      file and a ':' first, the ")\n" of the counter last. */
  function FormatFrame(f: Frame): (line: string)
    ensures |line| >= |f.file| + 3 && line[..|f.file| + 1] == f.file + ":"
    ensures line[|line| - 2..] == ")\n"
  {
    var body := f.file + ":" + Itoa(f.line) + " (0x" + Hex(f.pc);
    assert (body + ")\n")[..|f.file| + 1] == f.file + ":";
    body + ")\n"
  }

  /** The file, line and counter read back from a stack line, whatever the file name holds. */
  lemma FormatFrameRoundTrip(f: Frame)
    ensures ParseFrameLine(FormatFrame(f)) == Some(StackLine(f.file, f.line, f.pc))
  {
    var dec, hex := Itoa(f.line), Hex(f.pc);
    var r3 := f.file + ":";
    var r2 := r3 + dec;
    var r1 := r2 + " (0x";
    var body := r1 + hex;
    BeforeOf(body, ")\n");
    SplitLastRunOf(r1, hex, IsHexDigit);
    BeforeOf(r2, " (0x");
    SplitLastRunOf(r3, dec, IsDecimalChar);
    BeforeOf(f.file, ":");
    ItoaRoundTrip(f.line);
  }

  /** The text of a captured stack: one line per frame. It is empty exactly when there are
      no frames, and otherwise ends with a frame line's ")\n". */
  function RenderStack(fs: seq<Frame>): (s: string)
    ensures s == [] <==> fs == []
    ensures fs != [] ==> |s| >= 2 && s[|s| - 2..] == ")\n"
  {
    if fs == [] then []
    else FormatFrame(fs[0]) + RenderStack(fs[1..])
  }

  lemma {:induction false} RenderStackAppend(fs: seq<Frame>, f: Frame)
    ensures RenderStack(fs + [f]) == RenderStack(fs) + FormatFrame(f)
  {
    if fs == [] {
      assert [] + [f] == [f];
      assert RenderStack([f][1..]) == [];
    } else {
      assert (fs + [f])[0] == fs[0];
      assert (fs + [f])[1..] == fs[1..] + [f];
      RenderStackAppend(fs[1..], f);
    }
  }

  /** One step of the walk: a frame found at level i is the next one printed. */
  lemma WalkStep(frameAt: FrameOracle, i: int, r: int, walked: seq<Frame>, f: Frame)
    requires r > 0 && frameAt(i) == Some(f)
    ensures walked + Walk(frameAt, i, r) == (walked + [f]) + Walk(frameAt, i + 1, r - 1)
  {
    assert Walk(frameAt, i, r) == [f] + Walk(frameAt, i + 1, r - 1);
  }

  /** `getStack(skip, rows)`: appends one formatted line per frame of the walk. */
  method GetStack(frameAt: FrameOracle, skip: int, rows: int) returns (out: string)
    ensures out == RenderStack(Walk(frameAt, skip, rows))
  {
    out := "";
    ghost var walked: seq<Frame> := [];
    var i := skip;
    while i - skip < rows
      invariant skip <= i
      invariant walked + Walk(frameAt, i, rows - (i - skip)) == Walk(frameAt, skip, rows)
      invariant out == RenderStack(walked)
      decreases rows - (i - skip)
    {
      var f := frameAt(i);
      if f.None? {
        assert Walk(frameAt, i, rows - (i - skip)) == [];
        break;
      }
      WalkStep(frameAt, i, rows - (i - skip), walked, f.value);
      RenderStackAppend(walked, f.value);
      walked := walked + [f.value];
      out := out + FormatFrame(f.value);
      i := i + 1;
    }
    assert walked + [] == walked;
  }

  /** The file, line and program counter read back from one stack line. */
  datatype StackLine = StackLine(file: string, line: int, pc: nat)

  /** Reads a stack line from the right: the hexadecimal counter, then the decimal line,
      then everything before the last ':' in front of it is the file. */
  function ParseFrameLine(s: string): (read: Option<StackLine>) {
    var body :- Before(")\n", s);
    var (r1, hex) := SplitLastRun(body, IsHexDigit);
    var r2 :- Before(" (0x", r1);
    var (r3, dec) := SplitLastRun(r2, IsDecimalChar);
    var file :- Before(":", r3);
    Some(StackLine(file, ParseInt(dec), ParseDigits(hex, 16)))
  }
}
