# Traffy widget container and callbacks, modelled in Dafny

This project models how a React single-page application embeds the Traffy
task-reward widget. The widget is an external script loaded by a script tag.
The model has two parts.

- `TraffyContainer` (traffy_container.dfy) models the container component.
  - A page-wide latch `isTraffyInitialized` is shared by every container
    instance. The model keeps it on a `Process` object.
  - Each `Container` instance has its own latch `hasInitializedRef`, a status
    (`loading`, `error` or `success`), an error message and an attempt
    counter.
  - `initializeTraffy` runs a chain of guards and then calls the widget's
    `renderTasks` entry point, which may throw.
  - The mount effect checks once for the widget. If the widget is not there,
    it arms a polling interval. The interval clears itself after the first
    successful check, and unmounting clears it too.
  - A retry button re-runs `initializeTraffy`.

  The pure function `Initialize` specifies one run of `initializeTraffy` on a
  `Snapshot`. A snapshot holds one container's state plus the page-wide latch
  and a ghost log of every `renderTasks` call. The class methods are proved
  against `Initialize`. The lemmas state the guard, counter and latch
  properties. The main one is that `renderTasks` returns normally at most
  once per page, across any number of containers.

- `Traffy` (traffy.dfy) models the callbacks handed to the widget.
  - `formatReward` renders an amount as `"<n> TON"`. The model proves it is
    inverted by a parser and that 12345 gives `"12345 TON"`.
  - `onTaskRender` calls only the `changeReward` setter, exactly once.
  - `onTaskReward` builds the verification request. It is a POST whose
    query is the endpoint's own query with `auth` set, as
    `URLSearchParams.set` does it. The body is `{task_id, hash}`, and its
    JSON text round-trips through a decoder. The credit step is reached
    exactly on status 200.
  - `onTaskLoad` and `onTaskReject` change nothing.

The browser becomes inputs to the methods. An `Env` says whether the
container element is attached, whether `window.Traffy` is present, and what
`renderTasks` does: it returns, throws an `Error` with a message, or throws
some other value. For the reward hook, the inputs are the HTTP response
status or a transport failure, and what the `URL` constructor makes of the
endpoint string (a URL with its query pairs, or a rejection).

The model follows the code in four places where its behaviour is easy to
misread:
- The attempt counter goes up on every run that gets past the guards. That
  includes the automatic first attempt made by polling. Runs stopped by a
  guard do not count.
- The status never goes back to `loading`. A retry goes from `error`
  straight to `error` or `success`.
- A retry that finds the container or the widget missing reports `error`
  with the guard's message. It does not count an attempt.
- The `URL` constructor runs before `fetch` and outside the promise chain.
  The placeholder endpoint `'Your Endpoint'` is not an absolute URL, so as
  written the constructor throws. That exception escapes `onTaskReward`. The
  model keeps the parsed endpoint as an input and reports the escape.

## Model

| member | source | states |
|---|---|---|
| `TraffyContainer.Process.constructor` | src/components/TraffyScript/TraffyContainer.tsx:9-10 | the page-wide latch starts false, and no renderTasks call has been made |
| `TraffyContainer.Container.constructor` | src/components/TraffyScript/TraffyContainer.tsx:13-17 | a new container has status loading, 0 attempts, an empty message and a false local latch; no interval is armed and it is not yet mounted |
| `TraffyContainer.FreshConsistent` | src/components/TraffyScript/TraffyContainer.tsx:13-17 | the initial state satisfies the container invariant whenever the page-wide log agrees with the latch |
| `TraffyContainer.Container.InitializeTraffy` | src/components/TraffyScript/TraffyContainer.tsx:20-88 | the new state of the container and the page is exactly `Initialize` of the old; the invariant is kept and the latch never falls back |
| `TraffyContainer.InitializeWhenLatched` | src/components/TraffyScript/TraffyContainer.tsx:21-26 | with either latch set, a run sets status success and changes nothing else: no call, same attempts, same message |
| `TraffyContainer.InitializeGuardFailure` | src/components/TraffyScript/TraffyContainer.tsx:28-39 | with no latch set, a missing container gives error "Container reference is not available", otherwise a missing widget gives error "Traffy script is not loaded. Check console for details."; no call is made, the counter and the latches are unchanged |
| `TraffyContainer.InitializeAttempt` | src/components/TraffyScript/TraffyContainer.tsx:41-80 | past the guards, the counter goes up by exactly 1 and exactly one renderTasks call with max_tasks 1 is logged, whatever its outcome; both latches and success hold iff the call returned normally |
| `TraffyContainer.InitializeThrew` | src/components/TraffyScript/TraffyContainer.tsx:82-87 | when renderTasks throws, status is error, the latches are unchanged and the message is "Error initializing Traffy: " followed by the Error's message, or by "Unknown error" for a non-Error value |
| `TraffyContainer.InitializeCountsAttempts` | src/components/TraffyScript/TraffyContainer.tsx:41-53 | the counter and the call log grow by the same amount, 1 exactly when the guards are passed and 0 otherwise; earlier calls stay in the log |
| `TraffyContainer.InitializeLatchesMonotone` | src/components/TraffyScript/TraffyContainer.tsx:76-78 | the latches only go from false to true, and the page-wide latch is set only by a run that called renderTasks and saw it return |
| `TraffyContainer.InitializePreservesConsistency` | src/components/TraffyScript/TraffyContainer.tsx:20-88 | a run keeps the invariant: the log holds one normal return iff the page is initialised, the local latch and success imply the page-wide latch, an error always shows a recognisable message, and loading means untouched |
| `TraffyContainer.InitializeAtMostOnce` | src/components/TraffyScript/TraffyContainer.tsx:10-26 | after any run, at most one renderTasks call in the page-wide log has returned normally; once initialised, no further normal return is added |
| `TraffyContainer.InitializeStatus` | src/components/TraffyScript/TraffyContainer.tsx:20-88 | after any run the status is never loading, and it is success iff the page-wide latch is set |
| `TraffyContainer.InitializeIdempotent` | src/components/TraffyScript/TraffyContainer.tsx:21-26 | a run on a container already at success changes nothing, so success is never left |
| `TraffyContainer.InitializeErrorExplains` | src/components/TraffyScript/TraffyContainer.tsx:28-86 | the error message identifies its cause: the missing container, the missing widget, or what renderTasks threw |
| `TraffyContainer.LatchAdvanceKeepsConsistent` | src/components/TraffyScript/TraffyContainer.tsx:10 | another container moving the shared latch forward, together with its one normal return, keeps this container's invariant |
| `TraffyContainer.Container.CheckTraffy` | src/components/TraffyScript/TraffyContainer.tsx:92-105 | returns true iff the widget and the container are both present, and only then runs initializeTraffy; otherwise the state is unchanged |
| `TraffyContainer.Container.Mount` | src/components/TraffyScript/TraffyContainer.tsx:107-118 | one immediate check on mount; the interval is armed iff that check failed |
| `TraffyContainer.Container.Tick` | src/components/TraffyScript/TraffyContainer.tsx:113-117 | a firing of an armed interval runs the check and disarms on the first success, even when initialisation then threw; an unarmed interval never fires |
| `TraffyContainer.Container.Retry` | src/components/TraffyScript/TraffyContainer.tsx:139-147 | the retry button, shown only in the error state, runs initializeTraffy once; no interval is armed afterwards |
| `TraffyContainer.Container.Unmount` | src/components/TraffyScript/TraffyContainer.tsx:120-123 | the cleanup disarms the interval and leaves the rest of the state as it is |
| `TraffyContainer.MountInTurn` | src/components/TraffyScript/TraffyContainer.tsx:10-26 | any number of containers mounted one after another, each seeing its own environments at mount, at every interval firing and at every retry click, then unmounted: renderTasks returns normally at most once, and the latch never falls back |
| `TraffyContainer.TwoContainers` | src/components/TraffyScript/TraffyContainer.tsx:10-26 | two containers alive at once under any interleaving of interval firings and retries: renderTasks returns normally at most once |
| `Traffy.NatToString` | src/scripts/traffy.ts:51-53 | the decimal rendering of a natural number is a non-empty digit string with no leading zero |
| `Traffy.ParseIntToString` | src/scripts/traffy.ts:51-53 | reading back the decimal rendering of any integer gives that integer |
| `Traffy.IntToStringOfParse` | src/scripts/traffy.ts:51-53 | every string the integer reader accepts is the rendering of the integer it yields |
| `Traffy.FormatReward` | src/scripts/traffy.ts:51-53 | the reward label of any amount reads back, after removing " TON", as that amount |
| `Traffy.FormatRewardOfParse` | src/scripts/traffy.ts:51-53 | every label the reader accepts is the reward label of the amount it yields, so formatting and reading are inverse |
| `Traffy.FormatRewardExample` | src/scripts/traffy.ts:47 | the amount used by onTaskRender, 12345, renders as "12345 TON" |
| `Traffy.OnTaskRender` | src/scripts/traffy.ts:37-49 | onTaskRender calls changeReward exactly once with "12345 TON" and calls none of the other three setters |
| `Traffy.DecodeEncodeBody` | src/scripts/traffy.ts:25-28 | the JSON text of a body decodes back to the same two fields |
| `Traffy.EncodeDecodeBody` | src/scripts/traffy.ts:25-28 | any text the decoder accepts is exactly the JSON text of the body it yields |
| `Traffy.VerificationBodyText` | src/scripts/traffy.ts:25-28 | the body text sent decodes to exactly two fields: task_id, the task's company_id, and hash, the signed token unaltered |
| `Traffy.EncodeBodyExample` | src/scripts/traffy.ts:25-28 | company_id 42 with token "abc123" gives the body text {"task_id":42,"hash":"abc123"} |
| `Traffy.SetParam` | src/scripts/traffy.ts:22 | setting a query parameter leaves exactly one pair with that name, carrying the new value, and keeps every other pair in its order |
| `Traffy.VerificationRequestFor` | src/scripts/traffy.ts:21-28 | the request is a POST to the parsed endpoint; its query has exactly one auth pair, with the configured value, and every other pair of the endpoint's own query is kept in order |
| `Traffy.Bridge.OnTaskReward` | src/scripts/traffy.ts:16-35 | when the URL constructor accepts the endpoint, one request is sent, nothing escapes and the credit step is reached iff the status is 200; a transport failure credits nothing; when it rejects the endpoint, the exception escapes and nothing is sent |
| `Traffy.Bridge.OnTaskLoad` | src/scripts/traffy.ts:8-10 | no request is sent and nothing is credited |
| `Traffy.Bridge.OnTaskReject` | src/scripts/traffy.ts:12-14 | no request is sent and nothing is credited |

## Left out

- Rendering (JSX, CSS, the loading and error panels, the button markup, src/components/TraffyScript/TraffyContainer.tsx:126-154): the button appears only as `Container.Retry`, which may be called only in the error state while mounted.
- Timer periods and scheduling: the 1000 ms `setInterval` is a `pollingArmed` flag, and `Container.Tick` is one firing of it. Wall-clock time and the event loop are not modelled.
- Console output and the `traffyConfig` presence check (src/components/TraffyScript/TraffyContainer.tsx:45-50): these are diagnostics with no effect on state.
- The `window` object, the widget script and the `declare global` block: they become the `Env` inputs, and `renderTasks` is the `RenderOutcome` oracle. The widget's use of the callbacks is not modelled.
- React state updates are modelled as immediate assignments. `initializeTraffy` reads only the module variable and refs, never React state, and the counter uses a functional update.
- React's double-invoked effects in development mode: the mount effect runs once per instance (`Container.Mount` requires the created phase).
- `fetch`, `URL`, promises and `JSON.stringify` in `onTaskReward`: the request is a value, and the response or transport failure is an input to the same call. The asynchronous gap between sending and receiving is not modelled. URL parsing is not modelled: its result, the URL without its query plus the query pairs, or a rejection, is an input. Percent-encoding of query names and values is not modelled.
- `Traffy.Bridge.OnTaskReward`: the credit step is commented out in the source, so the model counts in a ghost field how many times that branch is reached. It does not model a balance.
- `Traffy.VerificationBodyText` and `Traffy.EncodeBody`: they cover only tokens that `JSON.stringify` writes without escapes (no quote, no backslash, no control character). Escaping is not modelled.
- `Traffy.FormatReward`: amounts are integers rendered in plain decimal. JavaScript numbers can also be fractional, and they use exponent notation from 1e21; neither is modelled. The same holds for `company_id` in the body.
- src/pages/TraffyPage.tsx and src/pages/IndexPage/IndexPage.tsx only mount the container; they are not part of this model.
