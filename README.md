# react-simple-gate session gate, in Dafny

A model of the client-side access gate of react-simple-gate:

- `AccessCodeProvider` holds two flags, `isAuthorized` and `isLoading`. It keeps a session
  record `{granted, timestamp}` in localStorage under `storageKey` (default `app_access_data`).
  On mount it checks that record against a window of `expirationHours` hours (default 8).
  Its `login(code)` compares `code` with the secret and, on a match, writes a fresh record.
- `useAccessCode` returns the provider's value, or throws outside a provider.
- `AccessCodeLoginForm` keeps `inputCode` and `error`, calls `login` on submit and shows a fixed
  message when the code is wrong.
- `Gate` renders its children exactly when `isAllowed` holds.

Modules, one per source file, plus two helpers and a wiring module:

- `Wrappers`: `Option` and `Result`.
- `WebStorage`: localStorage as a class over a `map<string, Entry>`. A stored text is
  abstracted to what `JSON.parse` makes of it: `Record(granted, timestamp)`; `Untimed`, which
  parses but has no numeric timestamp; or `Text(text)`, which does not parse. `Text("")` is the
  empty string.
- `AccessCodeContext`: the default props and the window. `Decide` is the session check's
  decision. `LoadStep` and `LoginStep` are the two transitions on a `State` value. The
  `Provider` class carries them out in place, and its methods are proved to follow those
  functions. `Run` replays a provider's lifetime as any sequence of session checks and
  logins, with lemmas that hold over every run. `UseAccessCode` is the hook.
- `AccessCodeLoginForm`: the `LoginForm` class with its two handlers, and `ErrorParagraph`.
- `GateComponent`: `Gate`, a pure function that also returns the console after its log line.
- `Composition`: the components wired together. A login reveals the gated children, a wrong
  code does not, and a session survives a reload within the window.

Inputs from outside are parameters. The clock reading `new Date().getTime()` is `now`, an
integer number of milliseconds. localStorage is a `LocalStorage` object passed to the
provider, so that a second provider (a page reload) can share it.

Two consequences of the session check as written:

- An expired record is removed explicitly (`removeItem`, AccessCodeContext.tsx:59), not just
  ignored.
- A parse failure removes the entry (AccessCodeContext.tsx:63) but never sets `isAuthorized`
  to false, so an authorized provider stays authorized.

## Model

| member | source | states |
|---|---|---|
| `WebStorage.LocalStorage.GetItem` | src/components/AccessCodeContext.tsx:52 | `getItem` returns the stored entry when the key is present and null (None) otherwise; storage is not changed |
| `WebStorage.LocalStorage.SetItem` | src/components/AccessCodeContext.tsx:73 | `setItem` maps the key to the new value and leaves every other key as it was |
| `WebStorage.LocalStorage.RemoveItem` | src/components/AccessCodeContext.tsx:59-63 | `removeItem` drops exactly that key |
| `AccessCodeContext.DefaultConfig` | src/components/AccessCodeContext.tsx:33-47 | with both optional props left out, the key is `app_access_data` and the window is 8 hours = 28,800,000 ms |
| `AccessCodeContext.GivenPropsKept` | src/components/AccessCodeContext.tsx:38-47 | storage key and hours that are given replace the defaults; the window is hours × 3,600,000 ms |
| `AccessCodeContext.MixedPropsDefaulted` | src/components/AccessCodeContext.tsx:41-42 | each optional prop is defaulted on its own: a given key with no hours gets 8 hours, given hours with no key get `app_access_data` |
| `AccessCodeContext.Decide` | src/components/AccessCodeContext.tsx:51-64 | the check authorizes iff the entry is a record with `now - timestamp < window`, so `granted` is never consulted; it does nothing iff the entry is missing or empty; in every other case it removes the entry |
| `AccessCodeContext.LoadEndsLoading` | src/components/AccessCodeContext.tsx:50-65 | every path of the check ends with `isLoading` false; it authorizes only when a non-empty entry is stored or the provider was authorized already |
| `AccessCodeContext.LoadFreshRecord` | src/components/AccessCodeContext.tsx:54-57 | a record within the window, with either value of `granted`, authorizes and leaves storage unchanged |
| `AccessCodeContext.LoadExpiredRecord` | src/components/AccessCodeContext.tsx:56-60 | a record at or past the window removes `storageKey` only and leaves `isAuthorized` as it was |
| `AccessCodeContext.LoadUnparsable` | src/components/AccessCodeContext.tsx:54-64 | unparsable text, or parsed text without a numeric timestamp, removes `storageKey` only, with no other change than `isLoading` |
| `AccessCodeContext.LoadNothingStored` | src/components/AccessCodeContext.tsx:52-53 | with no entry or an empty string, only `isLoading` changes |
| `AccessCodeContext.MountedLoadAuthorizesIff` | src/components/AccessCodeContext.tsx:44-57 | a freshly mounted provider is authorized after its check iff storage holds a record under its key with `now - timestamp < window` |
| `AccessCodeContext.LoginSucceedsIff` | src/components/AccessCodeContext.tsx:71-77 | `login(code)` returns true iff `code` equals the secret; on false, flags and storage are untouched |
| `AccessCodeContext.LoginWritesRecord` | src/components/AccessCodeContext.tsx:72-75 | a successful login authorizes, writes `{granted: true, timestamp: now}` under `storageKey`, leaves all other keys and `isLoading` unchanged |
| `AccessCodeContext.LoginThenLoadAuthorizes` | src/components/AccessCodeContext.tsx:54-75 | after a login at `now`, a check at `later` with `later - now < window` leaves storage alone and authorizes, in the same provider and in a new one over the same storage |
| `AccessCodeContext.StepAuthorization` | src/components/AccessCodeContext.tsx:57-74 | no event clears `isAuthorized`; an event sets it iff it is a check over a fresh record or a login with the right code |
| `AccessCodeContext.RunMonotone` | src/components/AccessCodeContext.tsx:44-80 | over any sequence of checks and logins, once `isAuthorized` is true it stays true to the end |
| `AccessCodeContext.RunAuthorizedHasCause` | src/components/AccessCodeContext.tsx:50-80 | a provider that starts unauthorized and ends authorized had some event that granted access in the state it met |
| `AccessCodeContext.RunKeepsOtherKeys` | src/components/AccessCodeContext.tsx:52-73 | no key other than `storageKey` changes over any run |
| `AccessCodeContext.RunRecordHasLogin` | src/components/AccessCodeContext.tsx:59-75 | a record under `storageKey` that differs from the entry there at the start (none, another record, or any other value) has `granted` true and the timestamp of some successful login in the run |
| `AccessCodeContext.RunLoadClearsLoading` | src/components/AccessCodeContext.tsx:45-65 | once a session check has run, `isLoading` is false at the end of the run |
| `AccessCodeContext.Provider.constructor` | src/components/AccessCodeContext.tsx:38-47 | a mounted provider has the resolved props, `isAuthorized` false, `isLoading` true, and has made no login call |
| `AccessCodeContext.Provider.Load` | src/components/AccessCodeContext.tsx:50-66 | the session check changes the flags and storage exactly as `LoadStep` says |
| `AccessCodeContext.Provider.Login` | src/components/AccessCodeContext.tsx:69-80 | returns true iff the code is the secret; flags and storage change exactly as `LoginStep` says; the call is recorded once in the ghost `loginCalls` |
| `AccessCodeContext.UseAccessCode` | src/components/AccessCodeContext.tsx:98-106 | returns the provider's value when there is one, and otherwise the error "useAccessCode must be used within an AccessCodeProvider" |
| `AccessCodeLoginForm.ErrorParagraph` | src/components/AccessCodeLoginForm.tsx:66 | the error paragraph is shown iff `error` is non-empty, and it shows `error` itself |
| `AccessCodeLoginForm.LoginForm.constructor` | src/components/AccessCodeLoginForm.tsx:22-24 | a new form starts with `inputCode` and `error` both empty |
| `AccessCodeLoginForm.LoginForm.OnChange` | src/components/AccessCodeLoginForm.tsx:60 | the change event replaces `inputCode` with the typed value and leaves `error` alone |
| `AccessCodeLoginForm.LoginForm.HandleCodeSubmit` | src/components/AccessCodeLoginForm.tsx:26-33 | calls `login` exactly once with the current `inputCode`; on failure clears the input and sets "Invalid access code. Please try again."; on success leaves both fields, even a stale error |
| `GateComponent.Gate` | src/components/Gate.tsx:17-28 | renders something iff `isAllowed`, and then exactly the given children; the console gains one line on both paths |
| `GateComponent.GateIgnoresConsole` | src/components/Gate.tsx:17-28 | what `Gate` renders does not depend on what the console held |
| `Composition.LoginRevealsChildren` | src/components/Gate.tsx:20-28 | a provider state after a successful login makes `Gate` render exactly the children |
| `Composition.WrongThenRightCode` | src/components/AccessCodeLoginForm.tsx:26-33 | over storage whose entry under the key does not authorize at the check (none, an expired record, or any other value), a wrong code hides the children, and then the right code reveals them while the error message stays set |
| `Composition.SessionSurvivesReload` | src/components/AccessCodeContext.tsx:50-80 | a login followed by a new provider mounted within the window over the same storage makes `Gate` render the children |

## Left out

- The decorative background (src/components/MatrixRain.tsx) is not modelled. It draws on a canvas with random numbers and animation frames.
- The class-name helper (src/lib/utils.ts) is not modelled. It only wraps two styling libraries.
- The build configuration files are not modelled.
- JSX output, styling, icons and text are not modelled; only whether the error paragraph and the gated children appear is.
- React's scheduling is not modelled. A setter takes effect at once. The effect re-running when its dependencies change is a further call of `Load`. The memoisation of `login` is not modelled.
- A provider's props are fixed for its lifetime. A re-render with a new `storageKey` or `expirationHours` is not modelled.
- `JSON.parse` and `JSON.stringify` are not modelled. A stored value is the `Entry` it parses to. Any non-number `timestamp` that JavaScript coerces to a number (null, a boolean, a numeric or blank string, a one-element array) is not modelled; every non-number `timestamp` is `Untimed` and removed.
- Numbers are unbounded integers. Fractional hours and floating-point rounding of `now - timestamp` are not modelled.
- localStorage throwing on any call (`getItem`, `setItem`, `removeItem`), for example when storage is disabled or full, is not modelled. So `Provider.Login` always returns and authorizes on a match, and `LoadEndsLoading` holds for storage that does not throw.
- `e.preventDefault()` in the submit handler (AccessCodeLoginForm.tsx:27) is not modelled; it only stops the browser's own form submission.
- Calls that log to the console are modelled only in `Gate`, as a returned console.
- The custom-text and class-name props that the form's test file supplies are not modelled. The form's props declare only `background`, which is rendered as given.
- The hook's lookup of the enclosing provider is `UseAccessCode` over an optional context value. `LoginForm` is built with the provider it found.
