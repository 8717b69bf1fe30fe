# FinancIA authentication and session lifecycle, in Dafny

This project models the authentication and session core of the FinancIA mobile app and
proves properties of that model:

- **Session manager** (`src/contexts/AuthContext.tsx`, module `Auth`).
  - `AuthProvider` is a class holding `user` and `loading`. It shares one `KeyValueStore` (module `Storage`) with the rest of the app; that store stands for AsyncStorage.
  - `loadUser`, `signIn` and `signOut` are methods over that store.
  - The stored user text is written by a `JSON.stringify` model and read back by a `JSON.parse` model (module `Json`).
  - The round trip is proved: a restart after a sign-in restores the signed-in user exactly when the token is non-empty.
- **Request building and error classification** (`src/services/api.ts` and `src/services/export.ts`, modules `Api` and `Export`).
  - `apiRequest` is split around the opaque `fetch`. `BuildRequest` is what is sent; `Classify` is what the caller gets back from the response.
  - The export calls are functions of the store's contents and of what `fetch` produced.
- **Login screen** (`src/screens/LoginScreen.tsx`, module `Login`).
  - A class with the screen's state fields.
  - One method per handler: sign-in, the "two-factor pending" sub-state keyed on a held challenge id, and the password-reset sub-flow with its guards.
- **Security screen** (`src/screens/SecurityScreen.tsx`, modules `Security` and `Sessions`).
  - Two-factor enable, confirm and disable.
  - The biometric gate, and the preference it persists in the shared store.
  - The password-change guards.
  - The active-session list, narrowed by the filters of module `Sessions`.

**How replies are modelled.** Every answer from code outside the core is a parameter of the handler that receives it. That covers the backend, `fetch`, the security and auth services, and the device's biometric API. Each handler returns the call it made, if any, and the alert it raised, if any. Each screen class has a `State()` snapshot. Every handler states its complete new state as `old(State())` with the fields it changes replaced, so "nothing else changes" is part of each contract.

**Where the code is followed.** `apiRequest` parses the body before it looks at the status, and nothing guards that parse. A failed response whose body is not JSON therefore rejects with the parse error (`MalformedJson`), not with the generic "Erro inesperado". `Api.Classify` and `Export.UnparsableErrorBody` state this.

## Model

| member | source | states |
|---|---|---|
| Json.LastValue | src/services/api.ts:21 | the member read is the last one with that key, and none exists exactly when no member has the key |
| Json.Property | src/services/api.ts:21 | only an object has the property; an object lacks it iff no member has the key, and otherwise the last member with the key supplies the value |
| Json.ReadEscaped | src/contexts/AuthContext.tsx:36 | reading back the escaped text of any string, up to its closing quote, gives the string and leaves the rest of the text |
| Json.ReadEscapedChar | src/contexts/AuthContext.tsx:36 | each escape `JSON.stringify` writes for one character reads back as that character |
| Json.ReadQuotedOf | src/contexts/AuthContext.tsx:36 | `JSON.parse(JSON.stringify(s)) == s` for every string, whatever follows the literal |
| Api.BuildRequest | src/services/api.ts:3-16 | URL is the base URL followed by the path; GET when no method is given; `Content-Type: application/json` always; `Authorization: Bearer <token>` present iff the token is truthy; no other header; a body iff `body` is truthy, and then its JSON text |
| Api.Classify | src/services/api.ts:18-24 | resolves with the parsed data iff the response is ok and parses; a body that is not JSON rejects as malformed whatever the status; a `fetch` rejection propagates; a failed `null` body throws reading `error`; any other failed body raises its error message |
| Api.ServerMessageSurfaces | src/services/api.ts:20-22 | a failed response whose object body's last `error` member, wherever it sits, is a non-empty string rejects with that string |
| Api.NumericErrorSurfaces | src/services/api.ts:21 | a non-zero numeric `error` member rejects with its decimal text, as `String(data.error)` writes it |
| Api.MissingErrorFallsBack | src/services/api.ts:21 | a failed response whose object body has no `error` member rejects with "Erro inesperado" |
| Api.FalsyErrorFallsBack | src/services/api.ts:21 | a failed response whose `error` member is falsy (`""`, `0`, `false`, `null`) rejects with "Erro inesperado" |
| Export.GetToken | src/services/export.ts:4-8 | succeeds iff `@token` is stored and non-empty, with that token; otherwise rejects with "Token nao encontrado" |
| Export.GetExportSummary | src/services/export.ts:10-13 | sends nothing iff there is no token; otherwise a body-less GET of `/export/summary` bearing the stored token, classified as `apiRequest` does |
| Export.DownloadErrorMessage | src/services/export.ts:23-26 | an unparsable or `null` body gives "Erro ao exportar" |
| Export.DownloadExport | src/services/export.ts:15-31 | sends nothing iff there is no token; otherwise a GET of `/export?format=<format>` with only the bearer header; a failed response raises its `error` or "Erro ao exportar"; success gives the text and the content type, `""` when missing |
| Export.UnparsableErrorBody | src/services/export.ts:23-26 | on a failed response whose body is not JSON, the summary rejects as malformed while the download falls back to "Erro ao exportar" |
| Export.DownloadServerMessage | src/services/export.ts:23-26 | a failed download whose object body's last `error` member, wherever it sits, is a non-empty string raises that string |
| Export.DownloadMissingErrorFallsBack | src/services/export.ts:24-25 | a failed download whose body has no `error` member, or a falsy one, raises "Erro ao exportar" |
| Export.DownloadMessageMatchesApi | src/services/export.ts:24-25 | for a parsed non-null body, a truthy `error` gives the same message as `apiRequest`; otherwise each falls back to its own text |
| Storage.KeyValueStore.SetItem | src/contexts/AuthContext.tsx:49-50 | writing a key changes that key and no other |
| Storage.KeyValueStore.Clear | src/contexts/AuthContext.tsx:56 | clearing leaves no key, whoever wrote it |
| Auth.EncodeUser | src/contexts/AuthContext.tsx:50 | the stored text of a user is never empty |
| Auth.DecodeEncodeUser | src/contexts/AuthContext.tsx:36-50 | parsing the text stored for a user gives back that user |
| Auth.ReadMemberOf | src/contexts/AuthContext.tsx:36 | a `"key":"value"` member as written reads back as that key and value, leaving the rest |
| Auth.EncodeUserText | src/contexts/AuthContext.tsx:50 | the stored text is the `id`, `nome`, `email` members in order, comma separated, in braces |
| Auth.DecodeMembers | src/contexts/AuthContext.tsx:36 | a text of the three members in that order parses to the user they name |
| Auth.RestoredUser | src/contexts/AuthContext.tsx:32-36 | a user is restored only when `@user` and `@token` are both stored and non-empty, and it is what `@user` parses to |
| Auth.RestoreAfterSignIn | src/contexts/AuthContext.tsx:30-52 | after the two writes of a successful sign-in, a restore yields the signed-in user iff the token is non-empty |
| Auth.RestoreAfterClear | src/contexts/AuthContext.tsx:55-58 | a cleared store restores no one |
| Auth.LoginRequest | src/contexts/AuthContext.tsx:44-47 | the login is a POST of the JSON credentials to `/auth/login` with no Authorization header |
| Auth.AuthProvider.constructor | src/contexts/AuthContext.tsx:22-24 | nobody is signed in and the restore is pending |
| Auth.AuthProvider.LoadUser | src/contexts/AuthContext.tsx:30-41 | `loading` ends false whatever happens; `user` becomes the restored user when both entries are present and parse, and is otherwise unchanged |
| Auth.AuthProvider.SignIn | src/contexts/AuthContext.tsx:43-53 | sends the login request; a rejection writes nothing and leaves `user`; success stores the token, then the user's text, and sets `user` |
| Auth.AuthProvider.SignOut | src/contexts/AuthContext.tsx:55-58 | the whole store is wiped and `user` is null |
| Auth.SignInThenRestart | src/contexts/AuthContext.tsx:26-52 | a new provider over the same store restores the user a sign-in set, iff its token is non-empty |
| Auth.SignOutThenRestart | src/contexts/AuthContext.tsx:26-58 | after a sign-out, a restart restores no one and the biometric preference is gone |
| Login.LoginScreen.constructor | src/screens/LoginScreen.tsx:26-39 | every field empty, no challenge pending |
| Login.LoginScreen.HandleLogin | src/screens/LoginScreen.tsx:44-57 | signs in with the typed credentials; a two-factor result holds its challenge id (absent if missing or empty) and e-mail (`""` if missing); other results and failures leave the challenge state; a failure alerts; `loading` ends false |
| Login.LoginScreen.HandleVerifyTwoFactor | src/screens/LoginScreen.tsx:59-72 | no call and no change without a held challenge; success clears code, challenge and e-mail; failure keeps them and alerts; `loading` ends false |
| Login.LoginScreen.PressPrimary | src/screens/LoginScreen.tsx:183 | verifies exactly when a challenge is held, signs in otherwise |
| Login.LoginScreen.OpenReset | src/screens/LoginScreen.tsx:210-214 | offered only while no challenge is held; only opens the reset dialog |
| Login.LoginScreen.HandleRequestReset | src/screens/LoginScreen.tsx:74-99 | an empty e-mail is refused before any call; a reply without a truthy `tokenId` gives the generic answer and holds nothing; one with it holds it and names the e-mail or "seu email" |
| Login.LoginScreen.HandleResetPassword | src/screens/LoginScreen.tsx:101-128 | a call is made iff a challenge is held, code and password are non-empty and the confirmation matches; each guard's alert; success closes the dialog and clears challenge, code, password and confirmation |
| Login.LoginScreen.CancelReset | src/screens/LoginScreen.tsx:277-284 | closes the dialog and clears challenge, code, password and confirmation, keeping the e-mail |
| Login.TwoFactorLogin | src/screens/LoginScreen.tsx:44-72 | pressing the primary button twice signs in, then verifies the returned challenge with the typed code, and leaves nothing pending |
| Login.MismatchedReset | src/screens/LoginScreen.tsx:74-110 | with a mismatched confirmation only the reset request is sent and the challenge stays held |
| Security.SecurityScreen.constructor | src/screens/SecurityScreen.tsx:38-62 | every flag off, every field empty, no sessions |
| Security.SecurityScreen.LoadSecurity | src/screens/SecurityScreen.tsx:68-79 | on success the two-factor flag is the status flag's truthiness and the biometric switch is on iff the store holds "true"; on failure nothing changes and an alert is raised |
| Security.SecurityScreen.HandleToggleTwoFactor | src/screens/SecurityScreen.tsx:81-97 | while enabled only the disable dialog opens and nothing is called; otherwise a challenge is requested and, on success, held as returned |
| Security.SecurityScreen.HandleConfirmTwoFactor | src/screens/SecurityScreen.tsx:99-113 | no call without a held challenge; success enables two-factor and clears code and challenge; failure changes neither the challenge nor the flag |
| Security.SecurityScreen.HandleDisableTwoFactor | src/screens/SecurityScreen.tsx:115-127 | success disables two-factor and clears the password; failure changes neither |
| Security.SecurityScreen.HandleToggleBiometria | src/screens/SecurityScreen.tsx:129-151 | enabling asks hardware, enrolment, prompt in order and stops at the first failure; the switch moves and "true" is stored only if all pass; disabling asks nothing and stores "false"; a refused enable changes neither screen nor store |
| Security.SecurityScreen.HandleChangePassword | src/screens/SecurityScreen.tsx:153-175 | a call is made iff current and new password are non-empty and the confirmation matches; success clears the three fields |
| Security.SecurityScreen.HandleOpenSessions | src/screens/SecurityScreen.tsx:177-189 | a missing or empty current id becomes null, a missing list `[]`; the list is shown |
| Security.SecurityScreen.HandleRevokeSession | src/screens/SecurityScreen.tsx:191-198 | success drops the sessions with that id; failure changes nothing |
| Security.SecurityScreen.HandleRevokeOthers | src/screens/SecurityScreen.tsx:200-209 | success keeps only the current session; failure changes nothing |
| Security.EnableTwoFactor | src/screens/SecurityScreen.tsx:81-113 | from a screen loaded with two-factor off: status, challenge request, confirmation, and the flag ends on |
| Security.RefusedBiometrics | src/screens/SecurityScreen.tsx:68-151 | a refused enable leaves the stored preference, so the next load shows the switch as before |
| Security.RevokeListedSession | src/screens/SecurityScreen.tsx:177-198 | revoking a session offered with a revoke button removes its id and never the current session |
| Sessions.Filter | src/screens/SecurityScreen.tsx:194 | the filtered list is no longer than the original |
| Sessions.FilterMembers | src/screens/SecurityScreen.tsx:194 | an element is kept iff it was listed and passes the test |
| Sessions.FilterAppend | src/screens/SecurityScreen.tsx:194 | filtering keeps the original order |
| Sessions.FilterSplit | src/screens/SecurityScreen.tsx:203-205 | what passes and what fails make up the whole list |
| Sessions.RevokeOne | src/screens/SecurityScreen.tsx:194 | revoking an id removes exactly its session and keeps the others in order |
| Sessions.RevokeTwice | src/screens/SecurityScreen.tsx:194 | revoking the same id again changes nothing |
| Sessions.RevokeOthersTwice | src/screens/SecurityScreen.tsx:203-205 | revoking the others twice is revoking them once |
| Sessions.RevokeOthersWithoutCurrent | src/screens/SecurityScreen.tsx:203-205 | with no current id, revoking the others empties the list |
| Sessions.CurrentOrRevocable | src/screens/SecurityScreen.tsx:409-433 | every listed session is either current or offers a revoke button, never both |
| Sessions.RevokeSparesCurrent | src/screens/SecurityScreen.tsx:426-433 | revoking a session that offers the button keeps every current session |

## Left out

- Rendering, styles and navigation in every file. The mock screens, forms, charts, profile, export-sharing screen and navigation wiring are not part of this model.
- Floating point: JSON numbers are integers here.
- `fetch`, AsyncStorage and `expo-local-authentication` are not modelled; their results are parameters.
- `services/auth`, `services/security` and `utils/errors` are not part of this model; their results are parameters too.
- `ErrorAlert(error, fallback)` stands for both `getErrorMessage(err, fallback)` and `err.message || fallback`: an alert showing the error's message, or the fallback.
- Security replies are records with the fields the screen reads. A `null` reply, whose property read would throw, is not modelled.
- Concurrency, late completions and double taps: each handler is one atomic step, so the time while `loading` is true is not observable.
- Auth.DecodeUser: a stored `@user` that is valid JSON in another shape is treated as unparsable. Other shapes include other member orders, white space and non-objects. `JSON.parse` would accept such text and the provider would set it as the user. Only the text the app itself writes is decoded.
- Auth.EncodeUser: the app stores `JSON.stringify` of the user object the server sent, keeping the server's member order and any extra members. EncodeUser writes exactly `id`, `nome` and `email`, in that order, for the typed user.
- Auth.AuthProvider.SignIn: the login reply is a typed token and user. A reply without those fields, which would store `undefined`, is not modelled.
- Auth.AuthProvider.LoadUser: a rejected read is the `readFails` flag. It is not modelled which of the two reads failed.
- Storage write failures are not modelled.
- Export.GetToken: a rejected `AsyncStorage.getItem` inside `getToken` (src/services/export.ts:5) is not modelled; the read always yields the stored value or nothing.
- The getItem rejection inside `loadSecurity` is not modelled.
- Rejections from the biometric device calls are not modelled; the source does not handle them.
- Rejections of `res.text()` in the download are not modelled.
- AuthContext defines no `verifyTwoFactor`, and its `signIn` resolves with no value. As written, the login screen's two-factor branch is therefore never reached, and its verify call would throw. The login handlers take what those calls resolve with as parameters and model the screen's own logic only.
- Login.LoginScreen.PressPrimary: its contract gives the call made and the challenge fields, not the complete new state. The complete new state is stated by the handler it dispatches to.
- Json.Property: inherited properties such as `length` of a string or array are not modelled.
- Json.AsString: objects with their own `toString` are not modelled; every object prints as `[object Object]`.
