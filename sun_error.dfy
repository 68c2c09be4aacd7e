/** The error value itself: its rendering (`Error`), accessors, the choice of logging
    function, the record under construction, and `NewSunError`. */
module SunErrors {
  import opened Wrappers
  import opened Strings
  import opened Host
  import opened StackInspector
  import opened Options

  /** `Error()`: the caller, code, message, channel pair and detail on one line, followed by a
      newline and the captured stack when the stack is stored. */
  function Error(e: ErrorRecord): (s: string)
    ensures var head := "[" + e.fnName + "] code=" + e.code + ", msg=" + e.msg;
      |s| >= |head| && s[..|head|] == head
    ensures var tail := ", detail=" + e.detail + (if e.storeStack then "\n" + e.stack else "");
      |s| >= |tail| && s[|s| - |tail|..] == tail
  {
    var head := "[" + e.fnName + "] code=" + e.code + ", msg=" + e.msg;
    var tail := ", detail=" + e.detail + (if e.storeStack then "\n" + e.stack else "");
    var mid := ", channelCode=" + e.channelCode + ", channelMsg=" + e.channelMsg;
    head + (mid + tail)
  }

  function GetCode(e: ErrorRecord): (code: string) { e.code }
  function GetStatus(e: ErrorRecord): (status: string) { e.status }
  function GetMsg(e: ErrorRecord): (msg: string) { e.msg }
  function GetDetail(e: ErrorRecord): (detail: string) { e.detail }
  function GetChannelCode(e: ErrorRecord): (channelCode: string) { e.channelCode }
  function GetChannelMsg(e: ErrorRecord): (channelMsg: string) { e.channelMsg }

  /** `getLogFunc`: every level, known or not, is logged through the configured sink. */
  function GetLogFunc(e: ErrorRecord): (log: LogSink?)
    ensures log == e.logEngine
  {
    if e.level == INFO_LEVEL then e.logEngine
    else if e.level == WARN_LEVEL then e.logEngine
    else if e.level == ERROR_LEVEL then e.logEngine
    else e.logEngine
  }

  /** What a reader can take back out of a rendered error. */
  datatype Diagnostic = Diagnostic(
    fnName: string, code: string, msg: string, channelCode: string, channelMsg: string,
    detail: string, stack: Option<string>)

  /** Expects `tag` and reads the field after it up to the delimiter `c`; returns the field
      and the rest, which starts with `c` or is empty. */
  function ParseField(tag: string, c: char, s: string): (split: Option<(string, string)>) {
    var r :- After(tag, s);
    Some(SplitAt(r, c))
  }

  lemma ParseFieldOf(tag: string, field: string, rest: string, c: char)
    requires c !in field
    requires rest == [] || rest[0] == c
    ensures ParseField(tag, c, tag + field + rest) == Some((field, rest))
  {
    assert tag + field + rest == tag + (field + rest);
    AfterOf(tag, field + rest);
    SplitAtOf(field, rest, c);
  }

  /** Reads a rendered error from the left: each field runs up to the delimiter that follows
      it; a newline after the detail starts the stack block. */
  function ParseError(s: string): (d: Option<Diagnostic>) {
    var fnName :- ParseField("[", ']', s);
    var code :- ParseField("] code=", ',', fnName.1);
    var msg :- ParseField(", msg=", ',', code.1);
    var channelCode :- ParseField(", channelCode=", ',', msg.1);
    var channelMsg :- ParseField(", channelMsg=", ',', channelCode.1);
    var detail :- ParseField(", detail=", '\n', channelMsg.1);
    var rest := detail.1;
    Some(Diagnostic(fnName.0, code.0, msg.0, channelCode.0, channelMsg.0, detail.0,
      if rest == [] then None else Some(rest[1..])))
  }

  /** Fields free of their delimiters come back verbatim, and the stack block is there
      exactly when the stack is stored. */
  lemma ErrorRoundTrip(e: ErrorRecord)
    requires ']' !in e.fnName
    requires ',' !in e.code && ',' !in e.msg && ',' !in e.channelCode && ',' !in e.channelMsg
    requires '\n' !in e.detail
    ensures ParseError(Error(e)) == Some(Diagnostic(e.fnName, e.code, e.msg, e.channelCode, e.channelMsg,
      e.detail, if e.storeStack then Some(e.stack) else None))
  {
    var tail := if e.storeStack then "\n" + e.stack else "";
    var t5 := ", detail=" + e.detail + tail;
    var t4 := ", channelMsg=" + e.channelMsg + t5;
    var t3 := ", channelCode=" + e.channelCode + t4;
    var t2 := ", msg=" + e.msg + t3;
    var t1 := "] code=" + e.code + t2;
    assert Error(e) == "[" + e.fnName + t1;
    ParseFieldOf("[", e.fnName, t1, ']');
    ParseFieldOf("] code=", e.code, t2, ',');
    ParseFieldOf(", msg=", e.msg, t3, ',');
    ParseFieldOf(", channelCode=", e.channelCode, t4, ',');
    ParseFieldOf(", channelMsg=", e.channelMsg, t5, ',');
    ParseFieldOf(", detail=", e.detail, tail, '\n');
    assert e.storeStack ==> tail[1..] == e.stack;
  }

  /** What `NewSunError` builds: the options applied to the initial record, the caller name
      resolved at the final depth when no option named it, and the stack captured with the
      final depth and row count when it is stored. `callerAt` is what the runtime reports inside
      `getCurrentFunc`, `stackAt` what it reports inside `getStack`. */
  function Construct(code: string, status: string, msg: string, opts: seq<SunErrOption>,
                     callerAt: FrameOracle, stackAt: FrameOracle): (e: ErrorRecord)
    ensures e.code == code && e.status == status && e.msg == msg
    ensures var c := Configure(Initial(code, status, msg), opts);
      e.fnName == if c.fnName == "" then CurrentFunc(callerAt, c.depth) else c.fnName
    ensures e.storeStack ==> e.stack == RenderStack(Walk(stackAt, e.depth, e.stackRows))
    ensures !e.storeStack ==> e.stack == ""
    ensures e.(fnName := "", stack := "") == Configure(Initial(code, status, msg), opts).(fnName := "", stack := "")
  {
    var c := Configure(Initial(code, status, msg), opts);
    var named := if |c.fnName| == 0 then c.(fnName := CurrentFunc(callerAt, c.depth)) else c;
    if named.storeStack then named.(stack := RenderStack(Walk(stackAt, named.depth, named.stackRows))) else named
  }

  /** When the two callees agree above `NewSunError` and the final depth is at least 2, a
      resolved caller name is the name of the first frame of the stored stack. */
  lemma ConstructCallerIsFirstFrame(code: string, status: string, msg: string, opts: seq<SunErrOption>,
                                    callerAt: FrameOracle, stackAt: FrameOracle)
    requires AgreeAboveConstructor(callerAt, stackAt)
    ensures var c := Configure(Initial(code, status, msg), opts);
      var e := Construct(code, status, msg, opts, callerAt, stackAt);
      c.fnName == "" && e.storeStack && e.depth >= 2 && stackAt(e.depth).Some? ==>
        |Walk(stackAt, e.depth, e.stackRows)| > 0 &&
        e.fnName == CallerName(Walk(stackAt, e.depth, e.stackRows)[0])
  {
    var c := Configure(Initial(code, status, msg), opts);
    var e := Construct(code, status, msg, opts, callerAt, stackAt);
    if c.fnName == "" && e.storeStack && e.depth >= 2 && stackAt(e.depth).Some? {
      ConfigurePositiveRows(Initial(code, status, msg), opts);
      assert callerAt(e.depth) == stackAt(e.depth);
      assert Walk(stackAt, e.depth, e.stackRows)[0] == stackAt(e.depth).value;
    }
  }

  /** The accessors give back exactly the code, status and message of the constructor call,
      whatever the options. */
  lemma ConstructAccessors(code: string, status: string, msg: string, opts: seq<SunErrOption>,
                           callerAt: FrameOracle, stackAt: FrameOracle)
    ensures GetCode(Construct(code, status, msg, opts, callerAt, stackAt)) == code
    ensures GetStatus(Construct(code, status, msg, opts, callerAt, stackAt)) == status
    ensures GetMsg(Construct(code, status, msg, opts, callerAt, stackAt)) == msg
  {
  }

  /** The detail and the channel pair are what the options left, and empty unless an option
      sets them. */
  lemma ConstructOptionalFields(code: string, status: string, msg: string, opts: seq<SunErrOption>,
                                callerAt: FrameOracle, stackAt: FrameOracle)
    ensures var c := Configure(Initial(code, status, msg), opts);
      var e := Construct(code, status, msg, opts, callerAt, stackAt);
      GetDetail(e) == c.detail && GetChannelCode(e) == c.channelCode && GetChannelMsg(e) == c.channelMsg
    ensures (forall j :: 0 <= j < |opts| ==> !opts[j].WithDetail?) ==>
      GetDetail(Construct(code, status, msg, opts, callerAt, stackAt)) == ""
    ensures (forall j :: 0 <= j < |opts| ==> !opts[j].WithChannelResp?) ==>
      GetChannelCode(Construct(code, status, msg, opts, callerAt, stackAt)) == "" &&
      GetChannelMsg(Construct(code, status, msg, opts, callerAt, stackAt)) == ""
  {
    var r := Initial(code, status, msg);
    var e := Construct(code, status, msg, opts, callerAt, stackAt);
    assert e.(fnName := "", stack := "") == Configure(r, opts).(fnName := "", stack := "");
    if forall j :: 0 <= j < |opts| ==> !opts[j].WithDetail? {
      ConfigureNoDetail(r, opts);
    }
    if forall j :: 0 <= j < |opts| ==> !opts[j].WithChannelResp? {
      ConfigureNoChannel(r, opts);
    }
  }

  /** The depth used for the caller and the stack is 2 plus every skip-depth delta. */
  lemma ConstructDepth(code: string, status: string, msg: string, opts: seq<SunErrOption>,
                       callerAt: FrameOracle, stackAt: FrameOracle)
    ensures Construct(code, status, msg, opts, callerAt, stackAt).depth == 2 + SkipSum(opts)
  {
    ConfigureDepth(Initial(code, status, msg), opts);
  }

  /** A stored stack has at most `stackRows` lines, and exactly that many when the runtime
      resolves every level of the cap. */
  lemma ConstructStackRows(code: string, status: string, msg: string, opts: seq<SunErrOption>,
                           callerAt: FrameOracle, stackAt: FrameOracle)
    ensures var e := Construct(code, status, msg, opts, callerAt, stackAt);
      e.storeStack ==> |Walk(stackAt, e.depth, e.stackRows)| <= e.stackRows
    ensures var e := Construct(code, status, msg, opts, callerAt, stackAt);
      e.storeStack && (forall i :: e.depth <= i < e.depth + e.stackRows ==> stackAt(i).Some?) ==>
        |Walk(stackAt, e.depth, e.stackRows)| == e.stackRows
  {
    var e := Construct(code, status, msg, opts, callerAt, stackAt);
    ConfigurePositiveRows(Initial(code, status, msg), opts);
    if forall i :: e.depth <= i < e.depth + e.stackRows ==> stackAt(i).Some? {
      WalkFull(stackAt, e.depth, e.stackRows);
    }
  }

  /** A request to run an async callback on its own goroutine. */
  datatype Task = Task(fn: AsyncFn, ctx: Context, err: SunError)

  /** The `go` statement: it records the goroutines it was asked to start. */
  class Scheduler {
    var spawned: seq<Task>

    constructor ()
      ensures spawned == []
    {
      spawned := [];
    }

    method Go(t: Task)
      modifies this
      ensures spawned == old(spawned) + [t]
    {
      spawned := spawned + [t];
    }
  }

  /** The `*SunError` that `NewSunError` and the options update in place. */
  class SunError {
    var code: string
    var msg: string
    var status: string
    var level: Level
    var detail: string
    var fnName: string
    var storeStack: bool
    var stack: string
    var stackRows: int
    var depth: int
    var channelCode: string
    var channelMsg: string
    var asyncFn: Option<AsyncFn>
    var logEngine: LogSink?

    /** The fields as a value, which is what Go's value-receiver methods see. */
    function View(): (r: ErrorRecord)
      reads this
    {
      ErrorRecord(code, msg, status, level, detail, fnName, storeStack, stack, stackRows, depth,
        channelCode, channelMsg, asyncFn, logEngine)
    }

    /** The composite literal `&SunError{...}` at the start of `NewSunError`. */
    constructor (code: string, status: string, msg: string)
      ensures this.code == code && this.status == status && this.msg == msg
      ensures level == ERROR_LEVEL && storeStack && depth == 2 && stackRows == 10
      ensures detail == "" && fnName == "" && stack == "" && channelCode == "" && channelMsg == ""
      ensures asyncFn == None && logEngine == null
      ensures View() == Initial(code, status, msg)
    {
      this.code, this.msg, this.status := code, msg, status;
      level, detail, fnName, storeStack, stack := ERROR_LEVEL, "", "", true, "";
      stackRows, depth, channelCode, channelMsg := 10, 2, "", "";
      asyncFn, logEngine := None, null;
    }

    /** Runs one option closure on this record. */
    method Apply(o: SunErrOption)
      modifies this
      ensures View() == ApplyOption(old(View()), o)
    {
      match o
      case WithLogEngine(log) => logEngine := log;
      case WithLogLevel(l) => level := l;
      case WithDetail(d) => detail := d;
      case WithFuncName(name) => fnName := name;
      case WithStack(b) => storeStack := b;
      case WithSkipDepth(d) => depth := depth + d;
      case WithChannelResp(c, m) => channelCode, channelMsg := c, m;
      case WithAsyncExecutor(fn) => asyncFn := fn;
      case WithStackRows(n) =>
        if n > 0 {
          stackRows := n;
        }
    }

    /** The loop over `opts`: runs each option on this record, in order. */
    method ApplyAll(opts: seq<SunErrOption>)
      modifies this
      ensures View() == Configure(old(View()), opts)
    {
      ghost var start := View();
      for i := 0 to |opts|
        invariant View() == Configure(start, opts[..i])
      {
        assert opts[..i + 1][..i] == opts[..i];
        Apply(opts[i]);
      }
      assert opts[..|opts|] == opts;
    }

    /** `ctxLog`: one call of the chosen logging function, with "%s" and the rendered error. */
    method CtxLog(ctx: Context)
      requires logEngine != null
      modifies logEngine
      ensures logEngine.calls == old(logEngine.calls) + [LogCall(ctx, "%s", Error(View()))]
    {
      var log := GetLogFunc(View());
      log.Log(ctx, "%s", Error(View()));
    }
  }

  /** `NewSunError`: builds the record, logs it once through the configured sink and, when a
      callback is configured, asks for one goroutine running it. `sink` names the logging
      function the options configure; `sunerror.go` has no default for it. `callerAt` and
      `stackAt` are what the runtime reports inside `getCurrentFunc` and `getStack`. */
  method NewSunError(ctx: Context, code: string, status: string, msg: string, opts: seq<SunErrOption>,
                     callerAt: FrameOracle, stackAt: FrameOracle, scheduler: Scheduler, ghost sink: LogSink)
    returns (e: SunError)
    requires Configure(Initial(code, status, msg), opts).logEngine == sink
    modifies sink, scheduler
    ensures fresh(e)
    ensures e.View() == Construct(code, status, msg, opts, callerAt, stackAt)
    ensures e.logEngine == sink
    ensures sink.calls == old(sink.calls) + [LogCall(ctx, "%s", Error(e.View()))]
    ensures scheduler.spawned == old(scheduler.spawned) + (if e.asyncFn.Some? then [Task(e.asyncFn.value, ctx, e)] else [])
  {
    e := new SunError(code, status, msg);
    e.ApplyAll(opts);
    ghost var configured := Configure(Initial(code, status, msg), opts);
    assert e.View() == configured;
    assert scheduler.spawned == old(scheduler.spawned) && sink.calls == old(sink.calls);
    if |e.fnName| == 0 {
      e.fnName := CurrentFunc(callerAt, e.depth);
    }
    if e.storeStack {
      e.stack := GetStack(stackAt, e.depth, e.stackRows);
    }
    ghost var built := e.View();
    assert built == Construct(code, status, msg, opts, callerAt, stackAt);
    e.CtxLog(ctx);
    assert e.View() == built;
    assert scheduler.spawned == old(scheduler.spawned);
    if e.asyncFn.Some? {
      scheduler.Go(Task(e.asyncFn.value, ctx, e));
    }
  }
}
