# Session-token bridge of a WebView mobile shell

The app is a React Native shell around an embedded web page. Its one piece of
stateful behaviour is the session token. The page posts JSON messages
(`LOG_IN` carrying a token, `LOG_OUT`) over the WebView bridge. The shell's
`onMessage` handler turns each message into at most one action on the Redux
slice `appStore`. That slice holds the session token and the push-notification
(FCM) device token. On every load, a script injected into the page re-sends the
page's stored token as a synthetic `LOG_IN`. When nothing is stored, or the
stored token is `''`, that message changes nothing, so a session token the
store already holds is not cleared.

Files:

- `js.dfy` (module `Js`) holds the JavaScript values the bridge compares:
  `undefined`, `null`, strings, and any other JSON value kept as its text.
  `''` (the initial token) and `undefined` (the cleared token) are different
  values, as they are in the program.
- `app_slice.dfy` (module `AppSlice`) models `src/context/redux/slice/app.ts`.
  It has the state record, the initial state, the three actions and the
  reducer as a function (`Reduce`). It also has the class `AppStore`, whose
  three methods assign one field in place, as the slice's reducers do.
- `app.dfy` (module `App`) models `onMessage` and the startup script in
  `App.tsx`. The decoded message is a datatype. `JSON.parse` failing is an
  input of its own (`Malformed`). `ActionFor` says which action a message
  dispatches. `Step` gives the resulting state. The method `OnMessage` calls
  the store's methods and is proved to reach `Step`'s state. `Replay` is the
  state after the handler runs on a stream of messages. The lemmas about it
  prove these facts:
  - only the last dispatched action matters;
  - replaying a stream twice changes nothing;
  - a token the stream stores comes from some `LOG_IN`.

Two behaviours to note:

- An empty `LOG_IN` token is ignored, not treated as a logout.
- A message that `JSON.parse` rejects is not caught or logged. The handler has
  no `try`/`catch`, so the exception leaves the handler before the store is
  touched. `OnMessage` reports this as `threw`.

## Model

| member | source | states |
|---|---|---|
| `AppSlice.AppStore.constructor` | src/context/redux/slice/app.ts:5-8 | a new store holds `token == ''` and `fcmToken == ''` (`InitialState`) |
| `AppSlice.AppStore.SaveToken` | src/context/redux/slice/app.ts:15-18 | sets `token` to exactly the payload, leaves `fcmToken` unchanged; agrees with `Reduce` |
| `AppSlice.AppStore.RemoveToken` | src/context/redux/slice/app.ts:19-22 | sets `token` to `undefined` whatever it held, leaves `fcmToken` unchanged; agrees with `Reduce` |
| `AppSlice.AppStore.SaveFcmToken` | src/context/redux/slice/app.ts:23-26 | sets `fcmToken` to the payload, leaves `token` unchanged; agrees with `Reduce` |
| `AppSlice.Reduce` | src/context/redux/slice/app.ts:11-27 | each action sets its own field to its payload (or `undefined` for `removeToken`); token actions never touch `fcmToken` and `saveFCMToken` never touches `token` |
| `AppSlice.ReduceIdempotent` | src/context/redux/slice/app.ts:15-26 | applying any action twice equals applying it once |
| `AppSlice.TokenActionOverwrites` | src/context/redux/slice/app.ts:15-22 | a later `saveToken`/`removeToken` hides whatever an earlier one did |
| `AppSlice.RemovedIsNotInitial` | src/context/redux/slice/app.ts:6-20 | after `removeToken` the token (`undefined`) differs from the initial `''`, so the state is never the initial state |
| `App.MessageType` | App.tsx:31 | `data?.type`: the message's `type` property, `undefined` for a message that is not an object |
| `App.PayloadToken` | App.tsx:27-29 | `data?.payload?.token`: the payload's `token` property when the message and its payload are objects, `undefined` otherwise (null, primitive or array message or payload) |
| `App.IsTokenAvailable` | App.tsx:26-29 | holds exactly for a non-empty string or a non-string JSON value, i.e. for anything but `''`, `null` and `undefined` |
| `App.ActionFor` | App.tsx:31-39 | dispatches `removeToken` exactly for `LOG_OUT`; dispatches `saveToken(token)` exactly for a `LOG_IN` whose token is available; only token actions are ever dispatched |
| `App.Step` | App.tsx:24-40 | `fcmToken` never changes; `LOG_OUT` clears the token; a `LOG_IN` with an available token stores it; when nothing is dispatched the state is unchanged |
| `App.OnMessage` | App.tsx:24-40 | throws exactly when `JSON.parse` fails; the store ends in `Step`'s state and its `fcmToken` is untouched |
| `App.LogInWithoutTokenIsIgnored` | App.tsx:32-35 | a `LOG_IN` whose payload is missing or whose token is `''`, `null` or missing leaves the state unchanged |
| `App.LogOutAlwaysClears` | App.tsx:37-38 | a `LOG_OUT` sets the token to `undefined` whatever its payload and the prior state |
| `App.OtherMessagesAreIgnored` | App.tsx:31-39 | any other or missing `type`, a non-object message and an unparsable one change nothing |
| `App.StartupMessage` | App.tsx:42-45 | the injected script posts a `LOG_IN` whose token is the stored string, or `null` when nothing is stored |
| `App.StartupResync` | App.tsx:42-45 | the startup message stores a non-empty stored token and otherwise (nothing stored, or `''`) leaves the state unchanged |
| `App.StepIdempotent` | App.tsx:31-39 | handling the same message twice equals handling it once |
| `App.Replay` | App.tsx:24-40 | no stream of messages ever changes `fcmToken` |
| `App.LastAction` | App.tsx:31-39 | the last dispatched action of a stream, characterised as the action of some message with no later message dispatching; none exactly when no message dispatches |
| `App.ReplayIsLastAction` | App.tsx:31-39 | after a stream the state is the prior state with only the last dispatched action applied, or unchanged if none was |
| `App.ReplayTwice` | App.tsx:24-45 | handling a whole stream of messages a second time changes nothing |
| `App.ReplayTokenOrigin` | App.tsx:32-38 | after any stream the token is its prior value, `undefined`, or the available token of some `LOG_IN` in the stream |

## Left out

- `JSON.parse` itself is not modelled. Its result is an input: a decoded message or `Malformed`.
- The `console.log` of the decoded message is a side effect only.
- The store wiring (`configureStore`, `setupListeners`, the `Provider`, the `useAppDispatch` hook) is framework plumbing. A `dispatch` is modelled as a direct call of the reducer.
- Immer's draft semantics behind `createSlice` are not modelled. Each reducer is a direct field update.
- The WebView configuration (URL, navigation gestures, origin whitelist, caching) is UI and network setup.
- The components `SafeAreaProvider`, `StatusBar` and `Loader` are presentational. Their only logic is a colour picked by whether the token is truthy.
- `window.localStorage` is an input of `StartupMessage`: the string stored under `token`, or nothing.
- App.Replay: a message `JSON.parse` rejects is taken to leave the store unchanged, and later messages are still handled. What the WebView host does with the exception that escapes `onMessage` is not modelled.
- Non-string JSON values are kept only as their text. Nothing in the handler looks inside them.
