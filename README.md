# auth-demo authentication core, modelled in Dafny

The application keeps one authentication state, `{user, loading, error}`,
changed only by a reducer with four actions (`SET_LOADING`, `SET_USER`,
`SET_ERROR`, `CLEAR_ERROR`). Its provider offers `login`, `signup` and
`logout`, each a fixed sequence of dispatches around one awaited call to a
demo authentication service. The service validates credentials with ordered
guard chains, each failure carrying its own message. It keeps the signed-in
user under the single storage key `auth-demo-user`.

Files:

- `wrappers.dfy`: `Option` (TypeScript's `T | null`) and `Result` (a value or a thrown message).
- `email_pattern.dfy`: the signup e-mail check `^[^\s@]+@[^\s@]+\.[^\s@]+$`. It is given twice: as the meaning of the regular expression (`MatchesPattern`) and in plain terms (`IsValidEmail`: one `@`, no white space, a non-empty local part, a domain with an interior `.`). A lemma proves the two equal. `\s` is ECMAScript's white-space class, code point by code point.
- `auth_service.dfy`: `Login` and `Signup` as validators, and the storage as the class `SessionStore` over a `map<string, User>`.
- `auth_context.dfy`: `AuthState`, `AuthAction`, `Reduce`, `InitialState`, the dispatch sequences as traces, and the class `AuthProvider` whose methods perform them.

Modelling choices:

- A password's `length` is counted in UTF-16 code units (`Utf16Length`), as JavaScript counts it. A character outside the Basic Multilingual Plane counts twice.
- The regular expression runs on UTF-16 code units. Such a character becomes two surrogates, and neither is white space or `@`. Matching code point by code point therefore gives the same answers on well-formed strings. A Dafny `char` is a Unicode scalar value, so a string holding a lone surrogate cannot be represented.
- The service call that `login`, `signup` and `logout` await is a parameter of type `Completion`. It either returns a value, or throws an `Error` object with a message, or throws some other value. `LoginCall` and `SignupCall` give the demo service's own completions; they only ever throw `Error` objects.
- The creation timestamp of the placeholder user is set once, when the module loads. It is the opaque parameter `loadedAt`.
- JSON serialisation is the identity, so the store maps keys to users.

On success, `login`, `signup` and `logout` dispatch `SET_USER` directly (src/contexts/AuthContext.tsx:61, 74, 84). The code has no change-notification subscription, and signup makes no domain-validation call.

## Model

| member | source | states |
|---|---|---|
| `EmailPattern.IsWhitespace` | src/utils/auth.ts:48 | defines the `\s` class of the regular expression: ECMAScript's white-space and line-terminator code points (U+0009-U+000D, U+0020, U+00A0, U+1680, U+2000-U+200A, U+2028, U+2029, U+202F, U+205F, U+3000, U+FEFF) |
| `EmailPattern.MatchesPattern` | src/utils/auth.ts:48 | defines the meaning of `^[^\s@]+@[^\s@]+\.[^\s@]+$`: the string splits at an `@` and a later `.` into three non-empty runs of characters that are neither white space nor `@` |
| `EmailPattern.IsValidEmail` | src/utils/auth.ts:49 | defines the test signup applies: one `@`, no white space, a non-empty local part and a domain with an interior `.` |
| `EmailPattern.PatternIffValidEmail` | src/utils/auth.ts:48-51 | the regular expression accepts exactly the strings with one `@`, no white space, a non-empty local part and a domain holding a `.` that is neither its first nor its last character |
| `EmailPattern.ValidEmailParts` | src/utils/auth.ts:48 | an accepted address is local part + `@` + domain, with a non-empty local part, no `@` in the domain, an interior `.` in the domain and no white space |
| `AuthService.Utf16Length` | src/utils/auth.ts:25 | a string's JavaScript length lies between its character count and twice that, and equals the character count exactly when every character is in the Basic Multilingual Plane |
| `AuthService.Login` | src/utils/auth.ts:16-30 | fails with 'Email and password are required' exactly when a field is empty; otherwise fails with 'Invalid credentials' exactly when the password is under 6 code units; succeeds exactly when neither applies, returning id `demo-user-123` with the given email |
| `AuthService.Signup` | src/utils/auth.ts:32-54 | reports the first failing check in the order: empty field, password mismatch, password under 6 code units, email not matching; succeeds exactly when the passwords agree, the password is long enough and the email is valid, returning the given email |
| `AuthService.SignupSuccessMeansValid` | src/utils/auth.ts:40-53 | a successful signup has matching passwords of at least 6 code units, an email the regular expression accepts, and the returned email equal to the input |
| `AuthService.SignedUpUserCanLogIn` | src/utils/auth.ts:16-54 | credentials that sign up successfully also log in, and yield the same user |
| `AuthService.LoginIgnoresEmailFormat` | src/utils/auth.ts:16-30 | login accepts an address the e-mail pattern rejects |
| `AuthService.SessionStore.constructor` | src/utils/auth.ts:61-68 | the store starts with whatever entries the browser storage held when the page loaded |
| `AuthService.SessionStore.CurrentUser` | src/utils/auth.ts:61-64 | returns a user exactly when the key `auth-demo-user` is present, and then the user stored there |
| `AuthService.SessionStore.SetCurrentUser` | src/utils/auth.ts:66-68 | afterwards the current user is the given one; only the key `auth-demo-user` changes |
| `AuthService.SessionStore.Logout` | src/utils/auth.ts:56-59 | afterwards there is no current user; only the key `auth-demo-user` is removed |
| `AuthContext.InitialState` | src/contexts/AuthContext.tsx:35-39 | defines `initialState`: no user, loading, no error |
| `AuthContext.Run` | src/contexts/AuthContext.tsx:46 | defines the state after a sequence of dispatches, each applying the reducer to the state the previous one left |
| `AuthContext.ErrorMessage` | src/contexts/AuthContext.tsx:63 | defines `error instanceof Error ? error.message : fallback`: the message of a thrown `Error` object, the fallback for any other thrown value (also lines 76 and 86) |
| `AuthContext.AttemptTrace` | src/contexts/AuthContext.tsx:56-63 | defines the dispatches of `login` (and of `signup`, lines 69-76): SET_LOADING true, CLEAR_ERROR, then SET_USER with the returned user or SET_ERROR with the error message |
| `AuthContext.LogoutTrace` | src/contexts/AuthContext.tsx:82-86 | defines the dispatches of `logout`: SET_LOADING true, then SET_USER null or SET_ERROR with the error message |
| `AuthContext.Reduce` | src/contexts/AuthContext.tsx:20-33 | SET_LOADING changes only `loading`; SET_USER sets the user, clears loading and error; SET_ERROR sets the error, clears loading, keeps the user; CLEAR_ERROR clears only the error |
| `AuthContext.ReduceFrame` | src/contexts/AuthContext.tsx:20-33 | every action leaves the fields it does not assign unchanged |
| `AuthContext.ReduceOverwrites` | src/contexts/AuthContext.tsx:20-33 | the fields an action assigns do not depend on the prior state |
| `AuthContext.ReduceIdempotent` | src/contexts/AuthContext.tsx:20-33 | every action, CLEAR_ERROR included, is idempotent |
| `AuthContext.InitialStateShape` | src/contexts/AuthContext.tsx:35-39 | the initial state has no user, is loading, and has no error |
| `AuthContext.AttemptOutcome` | src/contexts/AuthContext.tsx:54-78 | login or signup ends, from any prior state, with the returned user, not loading, no error; on a throw, with the thrown message (the fallback for a non-Error throw), not loading, and the prior user |
| `AuthContext.AttemptPending` | src/contexts/AuthContext.tsx:56-57 | while login or signup awaits the service, the state is loading with no error and the prior user |
| `AuthContext.LogoutOutcome` | src/contexts/AuthContext.tsx:80-88 | logout ends with no user, not loading and no error on success; on a throw, with the thrown message or 'Logout failed', not loading, and the prior user |
| `AuthContext.LogoutPendingKeepsError` | src/contexts/AuthContext.tsx:82 | logout raises `loading` without clearing an earlier error, so both are set while it awaits the service |
| `AuthContext.LoginCall` | src/contexts/AuthContext.tsx:59 | the demo service's login throws only `Error` objects |
| `AuthContext.SignupCall` | src/contexts/AuthContext.tsx:72 | the demo service's signup throws only `Error` objects |
| `AuthContext.DemoLoginError` | src/contexts/AuthContext.tsx:59-63 | against the demo service, a failed login leaves exactly the validator's message as the error and keeps the user |
| `AuthContext.DemoSignupError` | src/contexts/AuthContext.tsx:72-76 | against the demo service, a failed signup leaves exactly the validator's message as the error and keeps the user |
| `AuthContext.ShortPasswordScenario` | src/contexts/AuthContext.tsx:54-64 | logging in as `a@demo.com` with password `short` while signed out leaves no user and the error 'Invalid credentials' |
| `AuthContext.AuthProvider.constructor` | src/contexts/AuthContext.tsx:46 | the provider starts in the initial state |
| `AuthContext.AuthProvider.Dispatch` | src/contexts/AuthContext.tsx:46 | a dispatch replaces the state with the reducer's result |
| `AuthContext.AuthProvider.Mount` | src/contexts/AuthContext.tsx:48-52 | on mount the state takes the stored user, if any, and is no longer loading |
| `AuthContext.AuthProvider.Attempt` | src/contexts/AuthContext.tsx:54-78 | performs the shared dispatch sequence of login and signup and stores the returned user |
| `AuthContext.AuthProvider.Login` | src/contexts/AuthContext.tsx:54-65 | runs the login dispatch sequence; on success the state holds the returned user with no error and the store holds that user; on a throw the error is the message or 'Login failed', the user and the store are unchanged |
| `AuthContext.AuthProvider.Signup` | src/contexts/AuthContext.tsx:67-78 | the same as login, with the fallback 'Signup failed' |
| `AuthContext.AuthProvider.Logout` | src/contexts/AuthContext.tsx:80-88 | on success the state has no user and no error, and the key is removed; on a throw the error is the message or 'Logout failed', the user and the store are unchanged |

## Left out

- Simulated latency (`delay`, `setTimeout`) and async scheduling: each call is atomic. Overlapping calls, which nothing prevents, are not modelled.
- `JSON.stringify`/`JSON.parse` and the browser storage API: the store is an in-memory map with identity serialisation. A corrupt stored value that would make `JSON.parse` throw is not modelled, and neither is a `setItem` that throws (a full quota).
- `new Date().toISOString()`: the timestamp is the opaque parameter `loadedAt`.
- The reducer's `default` branch: the action datatype is closed, so it cannot be reached.
- React plumbing: `createContext`, the provider value object, re-rendering, and `useAuth`'s check for a missing provider.
- AuthContext.AuthProvider.Logout: the demo service removes the stored user inside its own `logout`. On a throw, the model assumes the removal did not happen.
- The UI components (the landing page forms, the dashboard with its mock data and diagnostic queries): they hold no authentication logic.
- A hosted identity provider, a change-notification subscription and a domain-validation endpoint: src/contexts/AuthContext.tsx and src/utils/auth.ts use none of them.
- Strings holding a lone UTF-16 surrogate: a Dafny `char` is a Unicode scalar value, so such strings cannot be passed to `Utf16Length`, `Login`, `Signup` or `IsValidEmail`.
