# react-lab fetch helpers, modelled in Dafny

The react-lab exercises load their data through two helpers in `src/utils.ts`.

- `useFetch(promise)` is a hook. It awaits the promise, turning a rejection into a value with `.catch(err => err)`. It stores what it gets in a state cell that starts out `undefined`. On every render it classifies that cell as loading, as an error or as data.
- `suspenseFetch(promise)` uses a module-wide table, `resultMap`, keyed by promise identity. The first time it sees a promise it inserts a pending entry. It chains a new `pending` promise onto its argument whose callbacks overwrite the entry with `resolved` (the value) or `rejected` (the reason). It then returns an accessor. A call of the accessor throws `pending` while the entry is pending, throws the error once rejected, and returns the value once resolved.

The model has three modules.

- `Js` (`js.dfy`) holds JavaScript values, as far as the helpers tell them apart. `undefined`, the `null` placeholder and `Error` instances are kept apart from ordinary data. It also holds how a promise settles: `Ok(value)` or `Err(reason)`.
- `UseFetch` (`use_fetch.dfy`) holds the classification as a pure function, `Classify`. Beside it are `Recover`, its inverse, and `Awaited`, the `.catch(err => err)` step.
- `SuspenseFetch` (`suspense_fetch.dfy`) holds the cache.
  - Its steps are functions on maps: `Registered` for the insert-if-absent and `Settled` for a completion callback. `Replay` folds a history of such events over the table.
  - Lemmas prove what any history does: keys are never deleted, terminal entries never change, and the table always agrees with how each promise settled.
  - The class `ResultCache` is `resultMap` itself. `Register` is `suspenseFetch`, `Settle` is a promise settling with its callbacks running, and `Read` is a call of the accessor. Its ghost state records the history and how the promises settled, and `Valid()` ties the table to `Replay` of that history.
  - "Throwing" is a tagged result: `Suspend(handle)`, `Fail(error)` or `Ready(value)`.
  - Three client methods (`FulfilledScenario`, `RejectedScenario`, `DistinctPromisesScenario`) walk the cache through a fulfilled fetch, a timed-out fetch and two distinct promises carrying equal data.

Promises are opaque identities (`PromiseId`). Each `suspenseFetch` call's `pending` promise is a `Handle`: the promise it chains onto plus the serial number of the call. Two calls therefore never share a handle.

Two details of the code shape the model:
- Each call of `suspenseFetch`, even on a promise already in the table, attaches new completion callbacks and creates a new `pending` handle. Nothing is reused except the entry.
- An entry has a single `result` field. It holds `null` while pending, the value when resolved and the reason when rejected. There are no separate value and error fields.

## Model

| member | source | states |
|---|---|---|
| UseFetch.Awaited | src/utils.ts:77 | a fulfilment yields its value, a rejection yields its reason |
| UseFetch.Classify | src/utils.ts:81-89 | loading exactly when the result is `undefined`; an error exactly when it is an `Error` instance, and then `error` is the result; otherwise `data` is the result; never both data and error |
| UseFetch.ClassifyLossless | src/utils.ts:81-89 | the result can be read back from the returned record, so distinct results never render alike |
| UseFetch.ClassifyOutcome | src/utils.ts:77-89 | after `.catch(err => err)`: a rejection with a non-`Error` reason is data, a fulfilment with an `Error` is an error, and settling with `undefined` stays loading |
| SuspenseFetch.Terminal | src/utils.ts:102-108 | a completion callback's entry is terminal, `resolved` exactly for a fulfilment, and carries the value or the reason |
| SuspenseFetch.Observe | src/utils.ts:110-119 | the accessor suspends with its own handle exactly when the entry is pending, fails exactly when rejected, is ready exactly when resolved, and fails or returns exactly the stored result |
| SuspenseFetch.Registered | src/utils.ts:98-100 | the table gains the key and nothing else; a new key gets `{pending, null}`; every existing entry is unchanged |
| SuspenseFetch.Settled | src/utils.ts:102-108 | a registered promise's entry becomes the terminal entry of the outcome; the key set and every other entry are unchanged |
| SuspenseFetch.ApplyAdvances | src/utils.ts:98-108 | one honest step keeps the table consistent with the promises' outcomes and deletes nothing and changes no terminal entry |
| SuspenseFetch.ReplayKeepsKeys | src/utils.ts:92-108 | no history of fetches and settlements deletes a key |
| SuspenseFetch.ReplayAdvances | src/utils.ts:92-108 | over any history in which each promise settles once, the table stays consistent and no terminal entry returns to pending or flips |
| SuspenseFetch.HistoryMonotone | src/utils.ts:98-108 | status is monotone: the table after any prefix of a history is succeeded by the table after every longer prefix |
| SuspenseFetch.FetchedStaysPresent | src/utils.ts:98-111 | once a promise is fetched its key is present after every later step, so the accessor's lookup (the `!`) always succeeds |
| SuspenseFetch.RefetchKeepsEntry | src/utils.ts:98-108 | registering a present promise leaves the table unchanged, and the callbacks it re-attaches to a settled promise write back the same entry |
| SuspenseFetch.TerminalReadStable | src/utils.ts:102-119 | after an entry turns terminal, every accessor for it observes the same outcome at every later point, and that outcome is how the promise settled |
| SuspenseFetch.ResultCache.constructor | src/utils.ts:92-95 | the table starts empty, with no history and no accessors handed out |
| SuspenseFetch.ResultCache.Register | src/utils.ts:97-110 | inserts `{pending, null}` only when the promise is absent and otherwise keeps its entry; returns a fresh accessor bound to the promise and a new handle; the table only moves forward |
| SuspenseFetch.ResultCache.Settle | src/utils.ts:102-108 | a settled registered promise's entry becomes terminal with its outcome; every other entry and the key set are unchanged; the table only moves forward |
| SuspenseFetch.ResultCache.Read | src/utils.ts:110-119 | the lookup of an issued accessor always succeeds; suspends with that accessor's handle on a pending entry; a value or error it reports is exactly the promise's outcome |

## Left out

- The React parts of `useFetch` (`useState`, the `useEffect` that awaits the promise, src/utils.ts:73-79) are framework lifecycle and event-loop scheduling. Only `Awaited`, the `.catch(err => err)` step, and the classification are modelled.
- Function-valued results are not modelled: `Js.Value` has no function case. When the awaited value is a function, `setResult` (src/utils.ts:77) calls it as a state updater and stores what it returns rather than the function itself.
- `sleep` and `mockFetch` (src/utils.ts:53-66) depend on timers and `Math.random()`. Their outcomes are the outcome argument of `Settle`. The timeout message "Request timed out" is the constant `Js.RequestTimedOut`.
- `fetchAllProjects`, `fetchProject`, `fetchComments`, `useParams` and the fixture maps (src/utils.ts:9-51, 68-70) are fixture data and glue.
- Microtask timing is not modelled. In the program the callbacks run some time after the promise settles, once per `suspenseFetch` call. In the model `Settle` applies them in one step, and may be applied any number of times. Each application writes the same outcome, so extra applications change nothing.
- The `pending` promise's own settlement is not modelled. It always fulfils with `undefined` once the callbacks have run. So is the renderer retrying after it; the handle is only an identity.
- Values are compared by structure, not by object identity. "Exactly the stored error" means the same value, and two `Error` objects with the same message are equal here. Only promises are keyed by identity. Numbers are integers, because no helper inspects them.
- The React components, routing, forms and the react-query loaders of lab1 to lab5 are not part of this model. They contain no logic of the helpers' own.
