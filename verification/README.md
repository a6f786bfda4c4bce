# Go error chains: a Dafny model of the error-handling demo

The program (`main.go`) shows Go's layered error handling. Low-level operations
fail with inspectable errors. Mid-level code wraps them with context and keeps the
original cause. A top-level handler inspects the chain with `errors.Is` and
`errors.As`.

This project models that discipline as an inductive datatype of error values with
pure functions over it. It proves what can be reached by `Unwrap`, which
sentinels `errors.Is` finds, which `ConfigError` `errors.As` returns, how
messages render, and which pipeline stage produced a failure.

- `wrappers.dfy`, module `Wrappers`: `Option`. A Go `error` that may be `nil` is
  written `Option<Error>`.
- `error_chain.dfy`, module `ErrorChain`: the error values and the chain walks.
  - Error values:
    - the sentinels `ErrResourceNotFound`, `os.ErrNotExist` and `sql.ErrNoRows`;
    - leaf errors made by `errors.New`, or by `fmt.Errorf` without `%w`;
    - `%w` wraps;
    - `ConfigError{FileName, Op, Err}`.
  - Functions: `Unwrap`, the chain `Chain`, rendering (`Message`, which is Go's
    `Error()`), and the walks `Is` and `As`.
  - Lemmas relating each walk to the chain.
- `request_pipeline.dfy`, module `RequestPipeline`:
  - `loadAppConfig`, `fetchData` and `processRequest`, as total functions that
    return the error (or none) that the Go code returns;
  - `Diagnose`, which gives the diagnostic branch `processRequest` takes;
  - the five fixed scenarios of `main`, as lemmas.

Identity: in Go every `errors.New` and `fmt.Errorf` call allocates a new value.
So the only error identical to a sentinel is the sentinel itself. The model
represents a sentinel only by the `SentinelError` constructor. A `Leaf`, `Wrap` or
`Config` value is therefore never equal to a sentinel, even if its text is the same.

## Model

| member | source | states |
|---|---|---|
| `ErrorChain.Unwrap` | main.go:25-28 | Every unwrap step, whether through a `ConfigError` or a `%w` wrap, reaches a strictly shorter chain. Chains are linear, single-cause and acyclic. |
| `ErrorChain.UnwrapReturnsCause` | main.go:26-28 | A `ConfigError` unwraps to exactly the `Err` it was built with, `nil` included. A `%w` wrap unwraps to exactly its inner error. |
| `ErrorChain.Chain` | main.go:25-28 | The chain starts at the given error. Each link is the `Unwrap` of the one before it. The last link has no cause. A nil error gives the empty chain. |
| `ErrorChain.IsIffOnChain` | main.go:83 | `errors.Is(err, s)` holds if and only if sentinel `s` is a link of `err`'s chain, at any depth. It is false for nil. |
| `ErrorChain.AsFindsFirstConfig` | main.go:79-80 | `errors.As` finds nothing exactly when no link is a `ConfigError`. Otherwise it returns the outermost `ConfigError` on the chain. |
| `ErrorChain.MessageIsChainFragments` | main.go:21-23 | A rendered message is the concatenation, outermost first, of the text each link contributes. A `ConfigError` contributes `config error during '<Op>' for file '<FileName>': ` (followed by `<nil>` when it has no cause). A wrap contributes its prefix. A sentinel or leaf contributes its text. |
| `ErrorChain.CauseMessageIsSuffix` | main.go:22 | The message of a `ConfigError` or a `%w` wrap ends with the message of its direct cause. |
| `ErrorChain.CauseMessagesVisible` | main.go:21-23 | The message of any error ends with the message of every error below it on its chain, so the root cause always shows in the rendered text. |
| `ErrorChain.WrapLayersChain` | main.go:91 | Wrapping with n `%w` layers puts n wrap links on top of the wrapped error's chain and leaves that chain intact, so unwrapping n times gives back the original error. |
| `ErrorChain.WrapLayersTransparent` | main.go:105 | `%w` layers do not change the inspection results. `errors.Is` gives the same answer for every sentinel, `errors.As` finds the same `ConfigError`, and the message is the prefixes followed by the inner message. |
| `ErrorChain.SentinelFoundAtAnyDepth` | main.go:67 | A sentinel under any number of `%w` layers is found by `errors.Is`. No other sentinel is found there. |
| `RequestPipeline.LoadAppConfig` | main.go:33-55 | Only "missing.json" and "invalid.json" fail, and both fail with a `ConfigError` that `errors.As` finds, carrying the path. "missing.json" has `Op` "open file", and `errors.Is(ce.Unwrap(), os.ErrNotExist)` holds only for it. "invalid.json" has `Op` "parse content" and a plain leaf cause. Neither chain holds `sql.ErrNoRows` or `ErrResourceNotFound`. |
| `RequestPipeline.FetchData` | main.go:58-70 | Only "123" succeeds, with "Sample Data". Every other query returns "" and an error. The chain holds `sql.ErrNoRows` only for "notfound_db" and `ErrResourceNotFound` only for "custom_resource_err". It never holds `os.ErrNotExist` or a `ConfigError`. |
| `RequestPipeline.ProcessRequest` | main.go:73-110 | There is no error if and only if both stages succeed. A config failure returns a wrap with the config-stage prefix. It unwraps to exactly the config error, and `errors.As` still finds that `ConfigError`. Otherwise a fetch failure returns a wrap with the data-stage prefix. It unwraps to exactly the fetch error and finds the same sentinels. |
| `RequestPipeline.Diagnose` | main.go:76-108 | The "unexpected error while loading config" branch is unreachable. The detailed branch reports the failing path. The file-missing fallback condition holds exactly for "missing.json". Each data branch is taken for exactly one query class. The success branch has exactly the no-error outcome. |
| `RequestPipeline.ConfigFailureIgnoresQuery` | main.go:76-92 | When the config stage fails, the result does not depend on the data query. |
| `RequestPipeline.KnownQuerySucceeds` | main.go:94-109 | Every config path other than "missing.json" and "invalid.json", with query "123", gives no error. |
| `RequestPipeline.Scenario1MissingConfig` | main.go:113-117 | `errors.As` yields `ConfigError{"missing.json", "open file", …}`. The chain holds `os.ErrNotExist` only. It gives the exact rendered message and the fallback branch. |
| `RequestPipeline.Scenario2InvalidConfig` | main.go:119-123 | `errors.As` yields `ConfigError{"invalid.json", "parse content", invalid JSON structure}`. There is no sentinel on the chain. It gives the exact rendered message and the detailed branch without fallback. |
| `RequestPipeline.Scenario3NoRows` | main.go:125-129 | The data stage fails with `sql.ErrNoRows` and with neither other sentinel. There is no `ConfigError`. It gives the exact rendered message and the no-rows branch. |
| `RequestPipeline.Scenario4ResourceNotFound` | main.go:131-135 | The data stage fails with `ErrResourceNotFound` and not `sql.ErrNoRows`. It gives the exact rendered message and the resource-not-found branch. |
| `RequestPipeline.Scenario5Success` | main.go:137-141 | No error, and the success branch sees "Sample Data". |

## Left out

- Console output is not modelled. This covers every `fmt.Printf`/`fmt.Println` in `loadAppConfig`, `processRequest` and `main`. Only which diagnostic branch `processRequest` takes is modelled (`Diagnose`), not the text it prints.
- The `main` driver is left out. Its five scenarios appear as lemmas.
- The internals of Go's `errors` and `fmt` packages are left out:
  - multi-error `Unwrap() []error`;
  - custom `Is`/`As` methods;
  - general `%v`/`%s` formatting.

  Only single-cause chains and the literal concatenations this program builds are modelled.
- `errors.Is` is modelled only for sentinel targets, which are the only targets the program passes. `errors.As` is modelled only for the `*ConfigError` target.
- `os.ErrNotExist` and `sql.ErrNoRows` are standard-library constants that are not part of this model. Their texts ("file does not exist", "sql: no rows in result set") are assumed to be the standard library's.
- Pointer identity of `*ConfigError` and of wrap values is not modelled. The program never compares them, so they are plain values here.
- The scenario lemmas state each expected message as a concatenation of the literal pieces the program formats. They do not state it as one merged literal.
