# react-authbox, modelled in Dafny

This project models the authentication core of `react-authbox`, a small React
package. The core has three parts.

- **The session store.** `Provider` owns the snapshot `{ user, isloading }`, which
  starts as `(undefined, true)`. Its `fetchUser` closure settles one identity
  request at a time:
  - a 200 response stores its payload as the user;
  - every settled request ends loading;
  - a rejection is reported to `onError`;
  - a network error asks for another attempt when `refetchOnServerError` is set.

  The unmount cleanup puts the snapshot back to `(undefined, true)`. A consumer
  with no `Provider` above it sees the context default forever.
- **The authentication operations.** `useAuthentication` gives each attachment its
  own submission flag and error slot. `signin`, `signout` and `log` each raise
  the flag and make one request. They lower the flag on a 200 response or a
  thrown error. A thrown error goes into the error slot. On a 200, `signin`
  calls `fetchUser`, `signout` clears the user and `log` hands back the response.
- **The render gates.** `Online`, `Offline`, `Protected`, `UnProtected` and
  `Test` each pick one of three things to render. The choice depends on
  `isloading` and on the JavaScript truthiness of `user`.

All of these build their request URL with the rule
`baseUrl ? baseUrl.trim() + url.trim() : url`. `fetchUser` writes the result
back into its closure's `baseUrl` variable, so successive calls of one closure
keep appending `fetchUserFrom`. The retries of one `fetchUser` call are such
calls. So is any call on a closure that no render has replaced yet. The model
keeps this: after `k` calls from a base `b` that is not blank after trimming,
the closure holds `trim(b)` followed by `k` trimmed copies of `fetchUserFrom`
(a blank base is covered under "Left out"). A render of the `Provider`
makes a fresh closure whose `baseUrl` is the prop again; `Rerender` models that
reset. The mount fetch ends loading, which re-renders the `Provider`, so in a
sequential run `signin`'s later `fetchUser` starts again from the prop.

Modules:

- `Wrappers` holds `Option`.
- `Js` holds JavaScript values, truthiness and `String.prototype.trim`. `trim`
  uses an explicit whitespace predicate: the ECMAScript WhiteSpace and
  LineTerminator characters.
- `Url` holds the join rule and how it accumulates.
- `Transport` holds the outcome of one request: a response with a status and
  data, or a rejection with an optional `code`.
- `Session` holds the snapshot, the context default and the `Provider` class.
- `Auth` holds the flag/error protocol as events with a fold, and the
  `Attachment` class.
- `Gates` holds the five gates and a table that states their intended selection.

Points where the code behaves in ways a caller might not expect:

- No operation clears the error slot on success. `ErrorNeverCleared` proves it,
  and `ErrorIsLastRejection` shows the slot holds the last thrown error.
- A failed `signout` keeps the user.
- A response that is neither thrown nor 200 leaves the submission flag raised
  (`StuckOnOtherStatus`).
- The `baseUrl` in the context value is the `Provider`'s prop as of the render,
  a plain optional string, not the closure variable that `fetchUser` reassigns.

## Model

| member | source | states |
|---|---|---|
| Js.Trim | src/components/userprovider.tsx:67 | `trim` leaves no whitespace at either end and never lengthens the string |
| Js.TrimStrips | src/components/userprovider.tsx:139 | `trim` removes only whitespace: the input is some leading whitespace, then the result, then some trailing whitespace |
| Js.TrimUnique | src/components/userprovider.tsx:174 | any string with no whitespace at either end that the input wraps in whitespace alone is exactly `trim` of the input: `trim` is "strip the surrounding whitespace" |
| Js.TrimIdempotent | src/components/userprovider.tsx:203 | trimming twice is trimming once |
| Url.JoinUrl | src/components/userprovider.tsx:139 | an unset (empty) base gives `url` exactly as written; a set base gives a URL with no surrounding whitespace, no longer than base and path together |
| Url.JoinStripsBoth | src/components/userprovider.tsx:174 | with a set base, the URL is exactly the stripped base followed by the stripped path |
| Url.BlankBaseDropsOut | src/components/userprovider.tsx:203 | a base of only whitespace is truthy yet contributes nothing: the URL is the trimmed path |
| Url.BaseAccumulates | src/components/userprovider.tsx:67 | from a base that is set after trimming, `k` calls of one closure leave `trim(base)` followed by `k` trimmed copies of `fetchUserFrom` in its `baseUrl` |
| Url.BaseAfterShift | src/components/userprovider.tsx:67 | `k + 1` calls from `b` leave what `k` calls leave when started from the first call's result |
| Url.BlankBaseAccumulates | src/components/userprovider.tsx:67 | a base of only whitespace is set yet trims away: with a path that is not blank, `k` calls leave `k` trimmed copies of `fetchUserFrom` |
| Url.UnsetBaseAccumulates | src/components/userprovider.tsx:67 | without a base, the first call requests `fetchUserFrom` untrimmed and the `k`-th requests `k` trimmed copies of it |
| Session.NoProviderSeesDefault | src/components/userprovider.tsx:47-52 | with no Provider, after any sequence of `setUser`/`fetchUser` calls the snapshot is still `(undefined, true)`: loading, with a falsy user |
| Session.UserAfter | src/components/userprovider.tsx:71-73 | a settled attempt changes the user only on a 200 response, and then to its payload |
| Session.Attempts | src/components/userprovider.tsx:79 | one `fetchUser` call makes at least one request, and one more after each answer that is a network error while `refetchOnServerError` is set, until an answer does not ask or no answers remain |
| Session.AttemptsStopAt | src/components/userprovider.tsx:79 | a run that retried after each of its first `i` answers and then stopped made exactly `i + 1` requests |
| Session.NoRetryByDefault | src/components/userprovider.tsx:60 | with the default `refetchOnServerError = false` no answer asks for a retry and a call makes one request |
| Session.Provider.constructor | src/components/userprovider.tsx:62-63 | a fresh Provider has no user and is loading; its props are kept as given |
| Session.Provider.StartFetch | src/components/userprovider.tsx:67 | a `fetchUser` call reassigns the closure's `baseUrl` to the join of its old value with `fetchUserFrom` and requests that URL; the snapshot is untouched |
| Session.Provider.Mount | src/components/userprovider.tsx:83-84 | the mount effect calls `fetchUser` once: it issues exactly one initial request, to the joined URL, and leaves the snapshot as it is until it settles |
| Session.Provider.FetchSettled | src/components/userprovider.tsx:71-79 | after a settled attempt loading is over and the user is `UserAfter` of the answer; a rejection is reported to `onError` exactly when one is given; a retry is asked exactly for a network error with `refetchOnServerError` set; the snapshot is never loading with a user |
| Session.Provider.Attempt | src/components/userprovider.tsx:66-79 | one request of `fetchUser`, from the URL join to the handling of its answer, with both effects above |
| Session.Provider.FetchUser | src/components/userprovider.tsx:65-81 | a `fetchUser` call and the retries it starts, answered by `first` and then `later`: it makes `Attempts` requests, request `j` going to the base after `j + 1` joins; loading ends; the user is `UserAfter` of the last answer; `onError` receives the rejections among the answers used, in order, when it is given |
| Session.Provider.Retries | src/components/userprovider.tsx:79 | the retry loop stops only when an answer does not ask for a retry or no answers remain, keeping the progress of URLs, user and reports |
| Session.Provider.Rerender | src/components/userprovider.tsx:55-67 | a render makes a new `fetchUser` closure whose `baseUrl` starts again from the prop; the snapshot is untouched |
| Session.Provider.Unmount | src/components/userprovider.tsx:85-88 | the cleanup restores `(undefined, true)` |
| Session.Provider.SetUser | src/components/userprovider.tsx:93 | the context's `setUser` replaces the user and nothing else, and keeps the snapshot steady when it is not loading or clears the user |
| Auth.Step | src/components/userprovider.tsx:137-153 | the start raises the flag; a 200 lowers it and keeps the error slot; a throw lowers it and records its error; any other status changes nothing; only a throw ever writes the error slot |
| Auth.LastRejection | src/components/userprovider.tsx:150-153 | the last thrown error in a run of events; a set slot stays set, and a new value came from one of the events |
| Auth.ErrorIsLastRejection | src/components/userprovider.tsx:183-186 | after any sequence of starts, settlements and `setSubmissionState` calls, the error slot holds the last thrown error, or its old value if none was thrown |
| Auth.ErrorNeverCleared | src/components/userprovider.tsx:146-149 | once the error slot is set, no sequence of operations empties it: a success does not clear it |
| Auth.NoThrowKeepsError | src/components/userprovider.tsx:179-182 | a run in which nothing is thrown leaves the error slot exactly as it was |
| Auth.StuckOnOtherStatus | src/components/userprovider.tsx:209-212 | an operation answered with a status other than 200, without a throw, leaves the flag raised and the error slot as it was |
| Auth.SettledOperationEnds | src/components/userprovider.tsx:213-216 | an operation answered with a 200 or a throw ends with the flag lowered |
| Auth.Attachment.constructor | src/components/userprovider.tsx:100-103 | each `useAuthentication` attachment starts with the flag down and an empty error slot, and uses the Provider's `baseUrl` prop ("" without a Provider) |
| Auth.Attachment.SetSubmissionState | src/components/userprovider.tsx:117 | the exposed setter sets the flag and leaves the error slot |
| Auth.Attachment.Start | src/components/userprovider.tsx:138-139 | an operation's start raises the flag and requests the join of the attachment's base with `url` |
| Auth.Attachment.Settled | src/components/userprovider.tsx:150-153 | the shared settle is one `Step` on the flag and error slot |
| Auth.Attachment.SigninSettled | src/components/userprovider.tsx:146-153 | `signin` calls `fetchUser` exactly when the answer is a 200 and a Provider exists; it awaits only the first attempt, and the retries run on unawaited. Once they settle, its requests, the closure's new `baseUrl`, the user after its last answer, the end of loading and its `onError` reports are those of `Session.Provider.FetchUser`; otherwise the session is unchanged |
| Auth.Attachment.SignoutSettled | src/components/userprovider.tsx:209-216 | `signout` clears the session's user exactly on a 200; a throw leaves the user signed in; loading and the closure base are untouched |
| Auth.Attachment.LogSettled | src/components/userprovider.tsx:179-186 | `log` returns the response exactly when its status is 200, and nothing otherwise |
| Auth.Attachment.Signin | src/components/userprovider.tsx:129-154 | a whole `signin` is a start then a settle in the protocol and requests the joined URL; on a 200 with a Provider it calls `fetchUser`, awaiting only its first attempt, and once the retries settle the session is as `SigninSettled` states, and otherwise leaves the session unchanged |
| Auth.Attachment.Signout | src/components/userprovider.tsx:195-217 | a whole `signout` is a start then a settle, requests the joined URL and clears the user exactly on a 200; loading and the closure base are untouched |
| Auth.Attachment.Log | src/components/userprovider.tsx:166-187 | a whole `log` is a start then a settle, requests the joined URL and returns the response, unchanged, exactly on a 200 |
| Gates.PhaseOf | src/components/online.tsx:17-21 | every snapshot is in exactly one of four phases, by `isloading` and the truthiness of `user` |
| Gates.Online | src/components/online.tsx:10-25 | `Online` renders what the selection table gives it: the fallback ("loading..." by default), the offline content invoked without arguments, or the children applied to the user |
| Gates.Offline | src/components/offline.tsx:9-19 | `Offline` renders the fallback ("loading..." by default), the online content applied to the user, or the children, as the table gives |
| Gates.Protected | src/components/protected.tsx:9-22 | `Protected` renders the fallback (nothing by default), the redirect invoked without arguments, or the children, as the table gives |
| Gates.UnProtected | src/components/unprotected.tsx:9-22 | `UnProtected` renders the fallback, the redirect when signed in, or the children, as the table gives |
| Gates.Test | src/components/test.tsx:9-22 | `Test` renders as the table gives for `Protected` |
| Gates.OneBranchPerSnapshot | src/components/protected.tsx:17-22 | every gate chooses its fallback exactly while loading with a falsy user |
| Gates.OnlineOfflineComplement | src/components/offline.tsx:16-19 | once loading is over `Offline` shows its children exactly when `Online` shows its offline content, and the reverse; in the mixed state both show their children |
| Gates.ProtectedMirrorsUnProtected | src/components/unprotected.tsx:19-22 | once loading is over `Protected` redirects exactly when `UnProtected` shows its children, and shows its children exactly when `UnProtected` redirects |
| Gates.TestIsProtected | src/components/test.tsx:17-22 | `Test` renders what `Protected` renders, for every snapshot and props |
| Gates.OnlineFeedsTruthyUser | src/components/online.tsx:20-22 | when `Online` shows its children, the `&& user` guard holds, so a children function receives a truthy user |
| Gates.SteadyIsNeverMixed | src/components/userprovider.tsx:71-76 | a snapshot that is never loading with a user never puts a gate in the mixed phase |
| Gates.NoProviderShowsFallback | src/components/userprovider.tsx:47-52 | with no Provider, whatever the consumer calls, every gate, `Test` included, keeps showing its fallback |

## Left out

- The axios transport, cookies and `withCredentials` are not modelled. Each request is one `Outcome` value passed in by the caller.
- The network and time are not modelled. No request runs; the answers are parameters.
- React mechanics are not modelled: `createContext`, `useContext`, `useState` batching, effect timing and JSX. State updates are atomic steps, and rendered output is an abstract `Node`.
- The model does not track which render's `fetchUser` closure a caller holds. `Rerender` only restarts the closure's `baseUrl` from the prop.
- Interleavings of concurrent operations that share one flag and error slot are not modelled, and neither are responses that arrive after unmount. Only sequential start and settle steps are.
- Session.Provider.FetchUser: the unbounded retry recursion is bounded by the answers supplied, here and in the `fetchUser` call that `Auth.Attachment.Signin` makes. When they run out while a retry is still asked for, the model stops there.
- Auth.Attachment.Signin, Auth.Attachment.SigninSettled: `signin` awaits only the first attempt of its `fetchUser` call; the retries that attempt starts are not awaited and may settle after `signin` resolves. The model runs those retries before returning, so the contract gives the session once they have settled, not at the moment `signin` resolves.
- `onError` and the callers' setters are assumed not to throw. A throwing `onError` inside `signin`'s awaited `fetchUser` is not modelled.
- `log`'s pass-through of arbitrary request configuration and its `data` to `body` key renaming are not modelled, because they are type-level plumbing over a library outside this model.
- A `setUser` given an updater function is not modelled; `SetUser` takes the new value.
- A missing `baseUrl` prop is modelled as the empty string. Every use tests it for truthiness, and there the two agree.
- Numbers are unbounded integers. No NaN, no -0.
- Strings are sequences of Unicode scalar values, not UTF-16 code units.
- Url.UnsetBaseAccumulates: stated only for a `fetchUserFrom` that is not blank after trimming. A blank path makes the closure's base empty again on the second call, so the URLs alternate.
- Url.BaseAccumulates: stated only for a base that is not blank after trimming. A non-empty blank base is covered by `Url.BlankBaseAccumulates`, for a path that is not blank. A blank base with a blank path is left out: the base becomes empty after the first call, so the URLs alternate.
- The lib/src/components/*.d.ts declarations are not part of this model. They are generated, hold no logic and describe an older API.
- src/main.tsx, src/App.tsx, rollup.config.mjs and index.ts are not part of this model. They are bootstrap, a demo form, build configuration and re-exports.
