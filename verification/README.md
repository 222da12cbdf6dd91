# Logging facade core of `pkg/log` (kratos), modelled in Dafny

This project models the decision logic of the kratos logging facade,
`pkg/log/log.go`. It covers four parts:

- **Sensitive-field list parser** (`logFilter.Set`). It splits its argument on
  commas, trims every piece and appends each piece to the list, empty ones
  included. See `Filter.Set`, built on `GoStrings.Split` and
  `GoStrings.TrimSpace`.
- **Key/value pairing** (`logw`). It reads `Infow`/`Warnw`/`Errorw` arguments
  two at a time and turns each string-keyed pair into a field `D` (built with
  `KV`, modelled as `Fields.KV`). It drops pairs whose key is not a string and
  drops an odd trailing argument. Each drop emits a warning, and the model
  counts those warnings. See `KeyValues.Logw`.
- **Field encoder** (`D.AddTo`). It is a closed, ordered type switch over the
  field's dynamic value, which is modelled as the tagged datatype
  `Values.Value`. The encoder is external, so the model records the calls made
  on it as a list of `Fields.EncoderCall`. `Fields.Select` is the arm the
  switch runs. It is proved to be the first matching arm under Go's
  type-switch rule, which `Fields.Satisfies` and `Fields.Position` restate
  independently. `Fields.AddTo` is the resulting list of calls.
- **Process-wide handler and configuration** (`h`, `c`). `Facade.Init` and
  `Facade.Close` are pure transitions over `Facade.State`. Sinks are tags.
  The following inputs are parameters:
  - the package variables set from the environment and flags (`Facade.Flags`);
  - `env.AppID`, `env.Hostname` and `os.Hostname()` (`Facade.Env`);
  - the error reported by the old handler's `Close`.

Go's fixed-width integers are subset types of `int` (`Values.int32`, …), and
the narrowing `int32(_v)` in `Init` is written out as `Values.ToInt32`. Strings
are sequences of Unicode scalar values. White space is exactly what
`unicode.IsSpace` accepts.

`Host` is not a default. Line 101 overwrites a caller-supplied value
unconditionally with `env.Hostname`, and line 103 falls back to
`os.Hostname()` when that is empty (`Facade.HostAlwaysReplaced`).

The project also depends on two files that are not part of this model:

- `pkg/time` (`xtime`). The model assumes that `xtime.Time.Time()` is
  `time.Unix(sec, 0)` and that `xtime.Duration` is a renamed `time.Duration`,
  as the conversion on line 173 shows.
- The encoder package (`core.ObjectEncoder`).

## Model

| member | source | states |
|---|---|---|
| `GoStrings.Split` | pkg/log/log.go:204 | pieces of `strings.Split(value, ",")`: one more than the number of commas, none containing a comma |
| `GoStrings.JoinSplit` | pkg/log/log.go:204 | joining the pieces with commas gives back the input, so no character is lost or moved |
| `GoStrings.SplitJoin` | pkg/log/log.go:204 | splitting a comma-join of comma-free pieces gives back exactly those pieces (Split is the inverse of Join) |
| `GoStrings.TrimSpace` | pkg/log/log.go:205 | the trimmed token is no longer than the input and neither of its ends is white space |
| `GoStrings.TrimSpaceCut` | pkg/log/log.go:205 | the trimmed token is a slice of the input with only white space before and after it |
| `GoStrings.TrimSpaceUnique` | pkg/log/log.go:205 | any cut into white space, a trimmed middle and white space has that middle equal to TrimSpace's result |
| `GoStrings.TrimSpaceIdempotent` | pkg/log/log.go:205 | trimming a trimmed token changes nothing |
| `GoStrings.TrimSpaceEmptyIff` | pkg/log/log.go:205 | a token trims to `""` if and only if it is empty or all white space |
| `Filter.Set` | pkg/log/log.go:203-208 | the old entries are an unchanged prefix; exactly commas+1 entries are appended, entry k being the trimmed k-th piece, in input order; each is trimmed; the error is always nil |
| `Filter.BlankTokenKeptAsEmpty` | pkg/log/log.go:204-205 | a blank piece is appended as `""` (it is not dropped), and only blank pieces become `""` |
| `Filter.SplitExample` | pkg/log/log.go:204 | `"a, b ,c"` splits into `a`, ` b `, `c`; `""` gives one empty piece |
| `Filter.TrimExample` | pkg/log/log.go:205 | those pieces trim to `a`, `b`, `c`, and `""` stays `""` |
| `KeyValues.Logw` | pkg/log/log.go:288-301 | at most len/2 fields; field k is `KV(args[i], args[i+1])` for the k-th kept key position i; warnings = (1 if the count is odd) + number of pairs dropped |
| `KeyValues.KeptKeysExact` | pkg/log/log.go:293-299 | the kept positions are exactly the even positions i with i+1 < len whose argument is a string, strictly increasing (input order); kept + dropped pairs = len/2 |
| `KeyValues.OddTrailingDropped` | pkg/log/log.go:289-293 | with an odd count the last argument is never the key or the value of any field |
| `KeyValues.AllStringKeysKept` | pkg/log/log.go:292-299 | with an even count and every key a string, all len/2 pairs are kept, in order |
| `KeyValues.KeyValueExamples` | pkg/log/log.go:288-301 | `("a", 1, "b")` keeps only the pair at 0; `(7, "x")` keeps nothing |
| `Fields.KV` | pkg/log/log.go:188-193 | the field carries exactly the given key and value, which `KeyValues.Logw` relies on to name each field's origin |
| `Fields.Select` | pkg/log/log.go:129-178 | the error arm is chosen exactly for values implementing `error`; `Fields.SelectIsFirstMatch` completes this to "first matching arm" |
| `Fields.SelectIsFirstMatch` | pkg/log/log.go:129-178 | the arm the switch runs matches the value, and no arm earlier in the listed order matches it |
| `Fields.FirstMatchUnique` | pkg/log/log.go:129-178 | a value has only one first-matching arm |
| `Fields.AddTo` | pkg/log/log.go:127-185 | one or two calls; the first has the field's key and the first-matching arm's method, and it carries the value unchanged for the arms that do not convert it; an `xtime.Time` is passed as `time.Unix(sec, 0)`, an `xtime.Duration` as its nanoseconds, an `error` as `Error()`, any other Stringer (never a native time type) as `String()`; a second call appears iff the fallback arm ran and `AddReflected` failed, and it is `AddString(key+"Error", err)`; nothing is returned to the caller |
| `Fields.ErrorBeforeStringer` | pkg/log/log.go:174-177 | any value implementing `error`, Stringer or not, is written as `AddString(key, Error())` alone |
| `Fields.NativeTimeBeforeStringer` | pkg/log/log.go:166-177 | `time.Time` and `time.Duration` are Stringers but still go to `AddTime`/`AddDuration` |
| `Fields.ProjectTimeTypesNormalised` | pkg/log/log.go:168-173 | `xtime.Time` is converted to `time.Unix(sec, 0)` before `AddTime`; `xtime.Duration` keeps its nanoseconds for `AddDuration` |
| `Fields.StringerAsText` | pkg/log/log.go:176-177 | a Stringer that is not an error is written as `AddString(key, String())` |
| `Fields.FallbackTrace` | pkg/log/log.go:178-184 | nil and values of other types go to `AddReflected(key, value)`, followed by exactly one `AddString(key+"Error", msg)` if and only if that fails |
| `Fields.TypedArmSingleCall` | pkg/log/log.go:129-177 | every value with a typed arm gives exactly one non-reflective call, whatever the reflective encoder would do |
| `Values.ToInt32` | pkg/log/log.go:93 | `int32(_v)` agrees with `_v` modulo 2^32 and is the identity on values that fit |
| `Facade.FromFlags` | pkg/log/log.go:88-97 | `Init(nil)` takes `Stdout`, `Dir`, `Module` and `Filter` from the package variables, `V` is `_v` narrowed to 32 bits (congruent mod 2^32, unchanged when it fits), and every other field is at its zero value |
| `Facade.Sinks` | pkg/log/log.go:106-113 | the console is present iff the config was nil or `Stdout` is set; the file sink carrying `(Dir, FileBufferSize, RotateSize, MaxLogFile)` is present iff `Dir != ""`; nothing else; the console comes first |
| `Facade.Init` | pkg/log/log.go:86-116 | `Family` becomes `env.AppID` only when that is non-empty; `Host` becomes `env.Hostname`, or the OS hostname when that is empty; every other field is the caller's (or, for nil, the flags'); the handler gets the config's filter and sinks; `c` is that config |
| `Facade.Close` | pkg/log/log.go:304-308 | returns exactly the old handler's close error and installs the default console handler either way, keeping `c` |
| `Facade.HandlerStaysInstalled` | pkg/log/log.go:304-308 | once a handler is installed, no sequence of `Init`/`Close` calls panics or leaves the handler unset |
| `Facade.InitFirstIsSafe` | pkg/log/log.go:86-116 | a run from process start that begins with `Init` never panics; it ends on the default console handler iff the last call was `Close` |
| `Facade.RunLast` | pkg/log/log.go:304-308 | after a safe run, the last call decides whether the default console handler or an `Init`-built handler is active |
| `Facade.CloseBeforeInitPanics` | pkg/log/log.go:305 | `Close` before any `Init` calls a method on the nil handler |
| `Facade.NilConfigUsesConsole` | pkg/log/log.go:88-109 | `Init(nil)` always puts the console first, and only the console when no directory is configured |
| `Facade.ZeroConfigIsSilent` | pkg/log/log.go:106-114 | `Init(&Config{})` installs a handler with no sinks and no filter |
| `Facade.HostAlwaysReplaced` | pkg/log/log.go:101-105 | a caller-supplied `Host` is overwritten |
| `Facade.VerbosityWrapsAround` | pkg/log/log.go:93 | `_v = 2^31` becomes `V = -2^31` |
| `Facade.InitForgetsPrevious` | pkg/log/log.go:114-115 | `Init` replaces `h` and `c` whatever they were; the old handler is not closed |
| `Facade.CloseIdempotent` | pkg/log/log.go:304-308 | closing again leaves the same state |

## Left out

- `init` and `addFlag` (lines 52-83) parse `LOG_*` environment variables and
  command-line flags through `os.Getenv` and `flag`. This is process I/O. Their
  results are the `Facade.Flags` parameter of `Init`.
- `verboseModule` (its `Set` parser and glob patterns) and `newHandlers` (the
  composite handler, with sensitive-field masking, fan-out and close-error
  aggregation) are not defined in `log.go`. They are not part of this model.
  Their results appear only as the handler's filter list and as the close
  error passed to `Facade.Close`.
- The concrete sinks `NewStdout`, `NewFile` and `_defaultStdout` are external
  collaborators. They are the tags `Console`, `File` and `DefaultStdout`.
- `Info`/`Warn`/`Error` and their `c`/`v`/`w` variants, and `SetFormat`, only
  format a message with `fmt.Sprintf` and forward it to `h`. Formatting and
  forwarding are outside the model.
- The warnings that `logw` emits through `Warn` are counted, not rendered,
  because their text is only `fmt.Sprintf` output.
- Floats and complex numbers are kept as their IEEE bit patterns, and
  `time.Time` as an abstract instant. The reflective encoder is represented
  only by the error it reports, given to `Fields.AddTo` as an input.
- Concurrent access to `h` and `c` is outside the model. Each call is one
  atomic transition.
- Go's `int`, `uint` and `uintptr` are taken to be 64 bits wide.
- Go strings are byte strings, and invalid UTF-8 is not modelled.
- `Facade.Init`: Go writes `Family` and `Host` into the caller's own
  `*Config` and installs that same pointer as `c`, so the caller sees the
  update and any later write through its pointer changes `c`; for a nil
  config, `Module` and `Filter` share storage with `_module` and `_filter`.
  The model passes configurations by value: the caller's struct after `Init`
  is `st'.c.value`, but later writes through an alias are not modelled,
  because the model has no heap.
- `Facade.Close`: the model requires that a handler has been installed. In Go,
  calling `Close` before `Init` is a nil-interface panic. `Facade.Run`
  models that panic as `None`, and `Facade.CloseBeforeInitPanics` states it.
