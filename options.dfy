/** The `SunError` record as a value, the `With*` options, and applying them in order
    (sunerror.go:19-34, 83-95, 129-193). */
module Options {
  import opened Wrappers
  import opened Host

  /** `SunErrLevel`, an int8; any value can be passed to `WithLogLevelOption`. */
  newtype Level = x: int | -128 <= x < 128

  const INFO_LEVEL: Level := 0
  const WARN_LEVEL: Level := 1
  const ERROR_LEVEL: Level := 2

  /** The fields of a `SunError`. `stack` holds the captured bytes as text; `asyncFn` and
      `logEngine` are None/null when unset, as a nil func is in Go. */
  datatype ErrorRecord = ErrorRecord(
    code: string,
    msg: string,
    status: string,
    level: Level,
    detail: string,
    fnName: string,
    storeStack: bool,
    stack: string,
    stackRows: int,
    depth: int,
    channelCode: string,
    channelMsg: string,
    asyncFn: Option<AsyncFn>,
    logEngine: LogSink?)

  /** The record `NewSunError` starts from, before any option runs. */
  function Initial(code: string, status: string, msg: string): (r: ErrorRecord)
    ensures r.code == code && r.status == status && r.msg == msg
    ensures r.level == ERROR_LEVEL && r.storeStack && r.depth == 2 && r.stackRows == 10
    ensures r.detail == "" && r.fnName == "" && r.stack == "" && r.channelCode == "" && r.channelMsg == ""
    ensures r.asyncFn == None && r.logEngine == null
  {
    ErrorRecord(code, msg, status, ERROR_LEVEL, "", "", true, "", 10, 2, "", "", None, null)
  }

  /** A `SunErrOption`, one constructor per `With*` function. `WithDetail` holds the text
      `fmt.Sprintf(format, v...)` produced. */
  datatype SunErrOption =
    | WithLogEngine(log: LogSink?)
    | WithLogLevel(level: Level)
    | WithDetail(detail: string)
    | WithFuncName(funcName: string)
    | WithStack(storeStack: bool)
    | WithSkipDepth(skipDepth: int)
    | WithChannelResp(channelCode: string, channelMsg: string)
    | WithAsyncExecutor(fn: Option<AsyncFn>)
    | WithStackRows(stackRows: int)

  /** The concerns of a record; the channel code and message are one concern. */
  datatype Field =
    | CodeField | MsgField | StatusField | LevelField | DetailField | FnNameField
    | StoreStackField | StackField | StackRowsField | DepthField | ChannelField
    | AsyncFnField | LogEngineField

  datatype Value =
    | Text(s: string)
    | TextPair(first: string, second: string)
    | Flag(b: bool)
    | Number(n: int)
    | Severity(level: Level)
    | Callback(fn: Option<AsyncFn>)
    | Sink(log: LogSink?)

  function Get(r: ErrorRecord, k: Field): (v: Value) {
    match k
    case CodeField => Text(r.code)
    case MsgField => Text(r.msg)
    case StatusField => Text(r.status)
    case LevelField => Severity(r.level)
    case DetailField => Text(r.detail)
    case FnNameField => Text(r.fnName)
    case StoreStackField => Flag(r.storeStack)
    case StackField => Text(r.stack)
    case StackRowsField => Number(r.stackRows)
    case DepthField => Number(r.depth)
    case ChannelField => TextPair(r.channelCode, r.channelMsg)
    case AsyncFnField => Callback(r.asyncFn)
    case LogEngineField => Sink(r.logEngine)
  }

  /** The concern an option is about. */
  function Target(o: SunErrOption): (k: Field) {
    match o
    case WithLogEngine(_) => LogEngineField
    case WithLogLevel(_) => LevelField
    case WithDetail(_) => DetailField
    case WithFuncName(_) => FnNameField
    case WithStack(_) => StoreStackField
    case WithSkipDepth(_) => DepthField
    case WithChannelResp(_, _) => ChannelField
    case WithAsyncExecutor(_) => AsyncFnField
    case WithStackRows(_) => StackRowsField
  }

  /** The value an option carries. */
  function Setting(o: SunErrOption): (v: Value) {
    match o
    case WithLogEngine(log) => Sink(log)
    case WithLogLevel(level) => Severity(level)
    case WithDetail(detail) => Text(detail)
    case WithFuncName(name) => Text(name)
    case WithStack(b) => Flag(b)
    case WithSkipDepth(d) => Number(d)
    case WithChannelResp(c, m) => TextPair(c, m)
    case WithAsyncExecutor(fn) => Callback(fn)
    case WithStackRows(n) => Number(n)
  }

  /** Whether the option replaces its concern with its setting: every option except the
      additive skip depth and a non-positive row count. */
  predicate Overwrites(o: SunErrOption) {
    match o
    case WithSkipDepth(_) => false
    case WithStackRows(n) => n > 0
    case _ => true
  }

  predicate Writes(o: SunErrOption, k: Field) {
    Target(o) == k && Overwrites(o)
  }

  /** Running one option on the record. */
  function ApplyOption(r: ErrorRecord, o: SunErrOption): (r': ErrorRecord)
    ensures forall k :: k != Target(o) ==> Get(r', k) == Get(r, k)
    ensures Overwrites(o) ==> Get(r', Target(o)) == Setting(o)
    ensures o.WithSkipDepth? ==> r'.depth == r.depth + o.skipDepth
    ensures !Overwrites(o) && !o.WithSkipDepth? ==> r' == r
  {
    match o
    case WithLogEngine(log) => r.(logEngine := log)
    case WithLogLevel(level) => r.(level := level)
    case WithDetail(detail) => r.(detail := detail)
    case WithFuncName(name) => r.(fnName := name)
    case WithStack(b) => r.(storeStack := b)
    case WithSkipDepth(d) => r.(depth := r.depth + d)
    case WithChannelResp(c, m) => r.(channelCode := c, channelMsg := m)
    case WithAsyncExecutor(fn) => r.(asyncFn := fn)
    case WithStackRows(n) => if n > 0 then r.(stackRows := n) else r
  }

  /** The options run on `r` in the order given. No option touches the code, status, message
      or stack. */
  function Configure(r: ErrorRecord, opts: seq<SunErrOption>): (c: ErrorRecord)
    ensures c.code == r.code && c.status == r.status && c.msg == r.msg && c.stack == r.stack
  {
    if opts == [] then r
    else
      var prev := Configure(r, opts[..|opts| - 1]);
      var next := ApplyOption(prev, opts[|opts| - 1]);
      assert Get(next, CodeField) == Get(prev, CodeField) && Get(next, StatusField) == Get(prev, StatusField);
      assert Get(next, MsgField) == Get(prev, MsgField) && Get(next, StackField) == Get(prev, StackField);
      next
  }

  /** Last write wins: the setting of the last option that writes a concern is its value. */
  lemma {:induction false} ConfigureLastWins(r: ErrorRecord, opts: seq<SunErrOption>, k: Field, i: nat)
    requires i < |opts| && Writes(opts[i], k)
    requires forall j :: i < j < |opts| ==> !Writes(opts[j], k)
    ensures Get(Configure(r, opts), k) == Setting(opts[i])
  {
    var n := |opts| - 1;
    if i < n {
      ConfigureLastWins(r, opts[..n], k, i);
      assert !Writes(opts[n], k);
    }
  }

  /** A concern no option writes keeps the value it had, except the skip depth. */
  lemma {:induction false} ConfigureUntouched(r: ErrorRecord, opts: seq<SunErrOption>, k: Field)
    requires k != DepthField
    requires forall j :: 0 <= j < |opts| ==> !Writes(opts[j], k)
    ensures Get(Configure(r, opts), k) == Get(r, k)
  {
    if opts != [] {
      var n := |opts| - 1;
      ConfigureUntouched(r, opts[..n], k);
      assert !Writes(opts[n], k);
    }
  }

  /** Without a detail option the detail is kept. */
  lemma ConfigureNoDetail(r: ErrorRecord, opts: seq<SunErrOption>)
    requires forall j :: 0 <= j < |opts| ==> !opts[j].WithDetail?
    ensures Configure(r, opts).detail == r.detail
  {
    forall j | 0 <= j < |opts| ensures !Writes(opts[j], DetailField) {
      match opts[j]
      case WithDetail(_) =>
      case _ =>
    }
    ConfigureUntouched(r, opts, DetailField);
  }

  /** Without a channel option the channel code and message are kept. */
  lemma ConfigureNoChannel(r: ErrorRecord, opts: seq<SunErrOption>)
    requires forall j :: 0 <= j < |opts| ==> !opts[j].WithChannelResp?
    ensures Configure(r, opts).channelCode == r.channelCode
    ensures Configure(r, opts).channelMsg == r.channelMsg
  {
    forall j | 0 <= j < |opts| ensures !Writes(opts[j], ChannelField) {
      match opts[j]
      case WithChannelResp(_, _) =>
      case _ =>
    }
    ConfigureUntouched(r, opts, ChannelField);
  }

  /** The sum of the skip-depth deltas among the options. */
  function SkipSum(opts: seq<SunErrOption>): (sum: int) {
    if opts == [] then 0
    else (if opts[0].WithSkipDepth? then opts[0].skipDepth else 0) + SkipSum(opts[1..])
  }

  lemma {:induction false} SkipSumAppend(opts: seq<SunErrOption>, o: SunErrOption)
    ensures SkipSum(opts + [o]) == SkipSum(opts) + (if o.WithSkipDepth? then o.skipDepth else 0)
  {
    if opts == [] {
      assert [] + [o] == [o];
      assert SkipSum([o][1..]) == 0;
    } else {
      assert (opts + [o])[0] == opts[0];
      assert (opts + [o])[1..] == opts[1..] + [o];
      SkipSumAppend(opts[1..], o);
    }
  }

  /** The skip depth is additive: the starting depth plus every delta. */
  lemma {:induction false} ConfigureDepth(r: ErrorRecord, opts: seq<SunErrOption>)
    ensures Configure(r, opts).depth == r.depth + SkipSum(opts)
  {
    if opts != [] {
      var n := |opts| - 1;
      ConfigureDepth(r, opts[..n]);
      assert opts == opts[..n] + [opts[n]];
      SkipSumAppend(opts[..n], opts[n]);
      assert Get(Configure(r, opts), DepthField) == Number(Configure(r, opts).depth);
    }
  }

  /** Row counts that are not positive are ignored, so without a positive one the cap stays
      at 10. */
  lemma {:induction false} StackRowsDefault(code: string, status: string, msg: string, opts: seq<SunErrOption>)
    requires forall j :: 0 <= j < |opts| ==> !(opts[j].WithStackRows? && opts[j].stackRows > 0)
    ensures Configure(Initial(code, status, msg), opts).stackRows == 10
  {
    ConfigureUntouched(Initial(code, status, msg), opts, StackRowsField);
  }

  /** The row count stays positive through the options. */
  lemma {:induction false} ConfigurePositiveRows(r: ErrorRecord, opts: seq<SunErrOption>)
    requires r.stackRows > 0
    ensures Configure(r, opts).stackRows > 0
  {
    if opts != [] {
      ConfigurePositiveRows(r, opts[..|opts| - 1]);
    }
  }

  /** Two detail options "a" then "b" leave the detail "b". */
  lemma DetailLastWins(r: ErrorRecord)
    ensures Configure(r, [WithDetail("a"), WithDetail("b")]).detail == "b"
  {
    ConfigureLastWins(r, [WithDetail("a"), WithDetail("b")], DetailField, 1);
  }
}
