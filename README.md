# sunerror in Dafny

A model of `sunerror`, a Go package whose one type, `SunError`, is a structured error: it carries a
code, a business status and a message, plus an optional detail, a downstream channel code and message,
and a severity level. The error logs itself when it is created.
`NewSunError` starts from fixed defaults. It applies the caller's options in order and resolves the
caller's name when no option gave one. When stack storage is on, it captures a bounded stack. It then
logs the rendered error once through the caller's logging function and, when a callback is configured,
starts one goroutine for it.

Modules, from the leaves up:

- `Wrappers`: `Option`.
- `Strings`: splitting helpers, and the facts that make the parsers below inverses of the formatters.
- `Strconv`: `strconv.Itoa` / `%d` and `%x`, as functions with round-trip lemmas.
- `Filepath`: `filepath.Base`, `filepath.Ext` and `strings.TrimLeft(_, ".")`, as `getCurrentFunc`
  uses them.
- `StackInspector`: `getCurrentFunc` and `getStack`. The runtime is a frame oracle
  `int -> Option<Frame>`. `GetStack` is Go's counted loop with its early exit, proved
  against the specification function `Walk`. `Walk` in turn is characterised by lemmas as the
  longest run of resolvable frames from `skip`, capped at `rows`.
- `Host`: what the package only calls. A `context.Context` is an opaque token. A logging function
  is a `LogSink` object that records each call made to it. An async callback is an opaque token.
- `Options`: a `SunError` as a value (`ErrorRecord`), one datatype constructor per `With*` option,
  `ApplyOption`, and `Configure`, which applies the options in order; lemmas prove last-write-wins and
  the additive skip depth.
- `SunErrors`: `Error()` with a parser that reads it back, the accessors, `getLogFunc`, the
  `SunError` class that `NewSunError` updates in place, its options and `ctxLog`, and
  `NewSunError` itself. `NewSunError` is proved against the specification function `Construct`.

The Go methods with value receivers (`Error`, `Get*`, `getLogFunc`) only see a copy of the record.
They are therefore functions of the value `ErrorRecord`, which `SunError.View()` returns.
The pointer that `NewSunError` fills in is the class `SunError`, whose fields the options and the
constructor assign.

Points of the code that the model keeps as written:

- A non-positive `WithStackRows` changes nothing. The row count stays whatever it was, which is
  the default of 10 or the value of an earlier positive `WithStackRows`.
- `WithSkipDepthOption` accepts negative deltas, so the depth can drop below 2.
- The goroutine receives the same `*SunError` object that `NewSunError` returns (`Task.err` is
  that object).
- Nothing checks that a logging function was configured. The model makes it a precondition of
  `NewSunError`: the `sink` parameter names the function, and it must be non-null.
- `getCurrentFunc` and `getStack` each ask the runtime from their own frame. Level 0 is the callee
  itself, and level 1 is `NewSunError` at two different call lines. Only from level 2 up do both
  see the same frames. The model therefore gives `NewSunError` two frame oracles, `callerAt` and
  `stackAt`; `AgreeAboveConstructor` states that they agree from level 2 up.

## Model

| member | source | states |
|---|---|---|
| `SunErrors.SunError.constructor` | sunerror.go:84-92 | the new record has the given code, status and message, level ErrorLevel, stack storage on, depth 2, 10 rows, and every other field empty or nil |
| `Options.ApplyOption` | sunerror.go:129-193 | each option changes only its own concern. Overwriting options set that concern to their argument; the skip depth adds its delta; a row count of 0 or less changes nothing |
| `SunErrors.SunError.Apply` | sunerror.go:94 | running one option on the object leaves exactly the record `ApplyOption` describes |
| `SunErrors.SunError.ApplyAll` | sunerror.go:93-95 | running the options on the object in order leaves exactly the record `Configure` describes |
| `Options.ConfigureLastWins` | sunerror.go:93-95 | after the options run in order, a concern holds the setting of the last option that writes it |
| `Options.ConfigureUntouched` | sunerror.go:93-95 | a concern that no option writes (other than the depth) keeps its original value |
| `Options.ConfigureDepth` | sunerror.go:164-169 | the final depth is the starting depth plus the sum of all skip-depth deltas |
| `Options.Initial` | sunerror.go:84-92 | the starting record has the given code, status and message, level ErrorLevel, stack storage on, depth 2, a cap of 10 rows, and every other field empty or nil |
| `Options.Configure` | sunerror.go:93-95 | running the `With*` options in order never changes the code, status, message or stack |
| `Options.ConfigureNoDetail` | sunerror.go:143-148 | without a detail option the detail keeps its starting value |
| `Options.ConfigureNoChannel` | sunerror.go:171-177 | without a channel option the channel code and message keep their starting values |
| `Options.StackRowsDefault` | sunerror.go:186-193 | without a positive `WithStackRows`, the row cap stays at 10 |
| `Options.ConfigurePositiveRows` | sunerror.go:186-193 | once positive, the row count stays positive through any options |
| `Options.DetailLastWins` | sunerror.go:143-148 | detail "a" then detail "b" leaves the detail "b" |
| `SunErrors.Construct` | sunerror.go:83-103 | the built record has the constructor's code, status and message. Its caller name is resolved from `getCurrentFunc`'s view of the runtime at the final depth if and only if the options left the name empty; otherwise it is the option's name. The stack is the walk of `getStack`'s view at the final depth and row count when storage is on, and empty when it is off. Every other field is as the options left it |
| `SunErrors.ConstructCallerIsFirstFrame` | sunerror.go:97-103 | when both views of the runtime agree from level 2 up, and the final depth is at least 2, a resolved caller name is the name of the first frame of the stored stack |
| `SunErrors.ConstructAccessors` | sunerror.go:60-70 | `GetCode`, `GetStatus` and `GetMsg` return exactly the code, status and message given to the constructor, whatever `With*` options run |
| `SunErrors.ConstructOptionalFields` | sunerror.go:71-81 | `GetDetail`, `GetChannelCode` and `GetChannelMsg` return what the options left, and the empty text when no option sets them |
| `SunErrors.ConstructDepth` | sunerror.go:90-95 | the depth used for the caller name and the stack is 2 plus every skip delta |
| `SunErrors.ConstructStackRows` | sunerror.go:101-103 | a stored stack has at most `stackRows` frames, and exactly that many when the runtime resolves every level within the cap |
| `SunErrors.Error` | sunerror.go:51-58 | the rendering starts with "[caller] code=..., msg=..." and ends with ", detail=" and the detail, followed by a newline and the stack exactly when stack storage is on |
| `SunErrors.ErrorRoundTrip` | sunerror.go:51-58 | when no field contains its delimiter, the caller name, code, message, channel pair and detail read back verbatim from `Error()`, and a stack block follows if and only if stack storage is on |
| `SunErrors.GetLogFunc` | sunerror.go:201-211 | every level, including values outside the three constants, selects the configured logging function |
| `SunErrors.SunError.CtxLog` | sunerror.go:197-199 | the logging function gets exactly one more call, with the format "%s" and the rendered error |
| `SunErrors.Scheduler.Go` | sunerror.go:107-111 | a request to start a goroutine is appended to the list of requests |
| `SunErrors.NewSunError` | sunerror.go:83-113 | returns a fresh object equal to `Construct` of its inputs. The configured sink gets exactly one call, with "%s" and `Error()`. One goroutine is requested, with the callback, the context and the object, if and only if a callback is set |
| `StackInspector.CallerName` | sunerror.go:218-220 | a resolved caller name always ends with "()" |
| `StackInspector.CurrentFunc` | sunerror.go:213-221 | an unresolvable level gives "??:0:??()", and a resolved one gives the frame's caller name |
| `StackInspector.CallerNameOf` | sunerror.go:213-221 | for a frame in `dir/name`, at a line, running `pkg.fn`, the caller name is "name:line:fn()" |
| `StackInspector.CallerNameUnqualified` | sunerror.go:218-220 | a function name whose last element has no '.', the empty name of an unknown counter among them, prints as "base:line:()" |
| `StackInspector.GetStack` | sunerror.go:223-233 | the loop's output is one formatted line for each frame of `Walk(skip, rows)`, in order |
| `StackInspector.Walk` | sunerror.go:225-229 | the walk has at most `rows` frames (none when `rows` is 0 or less), and frame k is the one the runtime reports at level `skip + k` |
| `StackInspector.WalkStops` | sunerror.go:226-229 | a walk shorter than `rows` ended at a level the runtime cannot resolve |
| `StackInspector.WalkFull` | sunerror.go:225 | when the runtime resolves `rows` levels from `skip`, the walk has exactly `rows` frames |
| `StackInspector.WalkUnique` | sunerror.go:223-233 | the walk is the only frame list that follows the runtime from `skip`, stays within `rows`, and ends early only at an unresolvable level |
| `StackInspector.FormatFrame` | sunerror.go:230 | a stack line starts with the file and ':' and ends with ")\n" |
| `StackInspector.RenderStack` | sunerror.go:224-232 | the stack text is empty exactly when there are no frames, and otherwise ends with ")\n" |
| `StackInspector.RenderStackAppend` | sunerror.go:230 | one more frame appends exactly its formatted line to the stack text |
| `StackInspector.FormatFrameRoundTrip` | sunerror.go:230 | the file, line and program counter read back from their stack line, whatever the file name contains |
| `Strconv.Itoa` | sunerror.go:220 | decimal text: digits only, with a leading '-' exactly for negative numbers |
| `Strconv.ItoaRoundTrip` | sunerror.go:220 | parsing the decimal text gives back the number |
| `Strconv.Digits` | sunerror.go:230 | digits of the given base with no leading zero |
| `Strconv.DigitsRoundTrip` | sunerror.go:230 | parsing the digits gives back the number in any base from 2 to 16 |
| `Strconv.Hex` | sunerror.go:230 | the `%x` text is nonempty hexadecimal digits, and parsing it gives back the program counter |
| `Filepath.Base` | sunerror.go:220 | the base is never empty, and contains '/' only when it is "/" |
| `Filepath.BaseOfJoin` | sunerror.go:220 | the base of `dir/name` is `name` |
| `Filepath.BaseOfName` | sunerror.go:220 | a nonempty name without '/' is its own base |
| `Filepath.Ext` | sunerror.go:219 | the extension is a suffix of the path, and is either empty or one '.' followed by text without '.' or '/' |
| `Filepath.ExtOf` | sunerror.go:219 | the extension of `stem.ext` is `.ext` |
| `Filepath.ExtOfPlain` | sunerror.go:219 | a path whose last element has no '.', a bare name included, has no extension |
| `Filepath.TrimLeftDots` | sunerror.go:219 | only leading dots are removed, and the rest of the text is kept |
| `Filepath.ShortFuncName` | sunerror.go:219 | the printed name is the extension without its dot, and contains neither '.' nor '/' |
| `Filepath.ShortFuncNameOf` | sunerror.go:218-219 | the printed name of `pkg.name` is `name`, whatever dots and receivers come before the last dot |
| `Host.LogSink.Log` | sunerror.go:195 | a call of the logging function is appended to the list of its calls |

## Left out

- `safeGo` and the goroutine it starts are not modelled beyond the request to start it
  (`Scheduler.Go`). This covers the deferred `recover`, the 3000-byte stack buffer and the
  "SafeGo has panic" log line. They are concurrency and runtime fault handling.
- `runtime.Caller` and `runtime.FuncForPC` are not modelled as code. They are
  the frame oracle `FrameOracle`, which `NewSunError` takes as a parameter; `Frame.funcName` is what
  `FuncForPC(pc).Name()` returns (empty for an unknown counter).
- `SunErrOption`: only the nine `With*` options of the package are modelled. A nil option (Go
  panics when `NewSunError` calls it) and options written by callers, which can change any field,
  are not. The claims that the options never change the code, status, message or stack
  (`Configure`, `ConstructAccessors`) hold for the package's own options only.
- `fmt.Sprintf(format, v...)` in `WithDetailOption` is not modelled: `WithDetail` carries the text
  it produced.
- The logging backend, `context.Context` and the async callback are not modelled; only their
  identities and the calls made to them are recorded. The variadic `logFunc` takes the one
  string argument that every call in the package passes.
- A nil logging function would make the Go code panic in `ctxLog`. Here it is a precondition of
  `NewSunError` and of `SunError.CtxLog`, not a modelled fault.
- `ApplyOption`: `depth` and `stackRows` are Go `int`, whose width depends on the platform; the model
  uses unbounded integers, so it does not model the wrap-around of `depth += skipDepth` past that range.
- `Filepath.Base`: only the '/' separator is modelled, as on Unix. Windows volume names and '\\' are
  left out. Path and name operations work on characters, where Go works on the bytes of the string.
- `SunErrors.ErrorRoundTrip`: the read-back is proved only for fields that do not contain the
  delimiter that follows them (']' for the caller name, ',' for the code, message and channel
  fields, a newline for the detail). A field that contains the separator text that follows it
  (for instance a message containing ", channelCode=") makes the rendering ambiguous. The
  one-character condition is simpler and also excludes some renderings that could still be read
  back, such as a code "a,b" when no other field holds a separator.
- The stack buffer (`[]byte`) is text (`string`).
- `GetCode`, `GetStatus`, `GetMsg`, `GetDetail`, `GetChannelCode` and `GetChannelMsg` have no
  contract of their own, since each only returns one field. What they return after `NewSunError`
  is stated by `ConstructAccessors` and `ConstructOptionalFields`.
- `SunError.View` has no contract. It only gathers the fields into an `ErrorRecord`, and the
  contracts of the class's members are stated through it.
- `Construct`: the two views of the runtime are independent parameters. That they agree from
  level 2 up is a hypothesis of `ConstructCallerIsFirstFrame`, not something `Construct` assumes;
  below level 2 the model does not relate them.
