# Chat assistant with accounts: a verified model

This project models the core of a chat assistant with user accounts. It has a FastAPI back end, an
agent graph and two React front ends. The model covers seven parts:

- **The chat dashboard's session reconciler.** A session starts with a provisional client-side id.
  The first reply that carries a server id confirms it. Messages are appended optimistically, and
  the last session's history is loaded once, on mount.
- **The client's authentication state.** This covers the auth context and its two browser-storage
  keys, the API client with its 401 interceptor, the older `authService`, the route guard and the two
  OAuth callback pages.
- **The sign-up, OTP, forgot-password and reset-password forms.** Their validators and sanitisers
  are modelled together with their submit handlers.
- **The back end's account service.** It covers users, OTPs, password resets, Google users and the
  last-session file, each with its error paths.
- **The HTTP mapping of the account service** (`routes/auth.py`) **and the agent routes**
  (`routes/agent.py`).
- **The marketing agent's nodes.** These cover research, the proposal, the satisfaction check, the
  pivot and the HTML mail.
- **The orchestrator's router and small-talk nodes.**

Outside collaborators are parameters of the model: the language model, the web search, the clock,
random draws, password hashing, token minting and the database. Stateful parts are classes whose
methods update their fields: the auth provider, the browser storage, the dashboard, the forms and
the account service. Pure parts are functions with lemmas about them.

Some behaviour of the code that the model keeps as written:

- Selecting a confirmed session in the sidebar does not refetch its history. The dashboard only
  changes its current-session id and shows the messages it already holds.
- On mount the dashboard loads only the last session's history. When there is none, or it cannot
  be fetched, it starts a provisional session.
- A reply is filed under the session that was current when its message was sent. A reply that
  confirms a provisional session also makes that session current, even when the user has moved
  to another one meanwhile. `Dashboard.ChatDashboard.CompleteSend` models that behaviour.
- A provisional session id is told apart from a server id by its prefix.

## Model

| member | source | states |
|---|---|---|
| ProtectedRoute.Guard | unified_api_frontend_v2/src/components/ProtectedRoute.tsx:9-27 | The spinner is rendered exactly while loading and the page exactly when loaded and authenticated; a redirect to /auth/login happens exactly when loaded and not authenticated, and then nothing is rendered |
| AuthContext.Restore | unified_api_frontend_v2/src/contexts/AuthContext.tsx:22-37 | Without non-empty values under both keys nothing is adopted and the storage is untouched; with them the token is adopted, and a user text that parses gives that user with the storage untouched, while one that does not parse leaves the user null and removes exactly the two keys; authenticated iff the text parses to a non-null user |
| AuthContext.LoginSurvivesReload | unified_api_frontend_v2/src/contexts/AuthContext.tsx:39-44 | After login(user, token) with a non-empty token, a reload restores the same user and token and leaves the storage as it is |
| AuthContext.ClearedStorageRestoresNothing | unified_api_frontend_v2/src/contexts/AuthContext.tsx:46-51 | Once both keys are removed, a reload adopts no user and no token, so the context is not authenticated |
| AuthContext.AuthProvider.constructor | unified_api_frontend_v2/src/contexts/AuthContext.tsx:17-19 | A fresh context has no user and no token and is loading |
| AuthContext.AuthProvider.Initialize | unified_api_frontend_v2/src/contexts/AuthContext.tsx:22-37 | The init effect ends loading and leaves exactly the state Restore describes for the old storage |
| AuthContext.AuthProvider.Login | unified_api_frontend_v2/src/contexts/AuthContext.tsx:39-44 | Sets user and token and stores both; isAuthenticated afterwards iff the token is non-empty and the user is not null |
| AuthContext.AuthProvider.Logout | unified_api_frontend_v2/src/contexts/AuthContext.tsx:46-51 | Clears user and token and removes exactly the two keys; not authenticated afterwards |
| AuthContext.AuthProvider.SetUser | unified_api_frontend_v2/src/contexts/AuthContext.tsx:60 | Replaces only the user |
| AuthContext.AuthProvider.IsAuthenticated | unified_api_frontend_v2/src/contexts/AuthContext.tsx:57 | `!!token && !!user`: true iff a non-empty token and a user are held |
| ApiClient.BearerValue | unified_api_frontend_v2/src/lib/api.ts:114 | The header value is "Bearer " followed by exactly the token |
| ApiClient.Route | unified_api_frontend_v2/src/lib/api.ts:130-186 | Each endpoint's verb and path; exactly sessions, history and health are GET |
| ApiClient.DefaultHeaders | unified_api_frontend_v2/src/lib/api.ts:85-96 | The JSON content type is always present; the Authorization header is present iff a non-empty token is installed, and then carries its bearer value |
| ApiClient.Client.constructor | unified_api_frontend_v2/src/lib/api.ts:84-96 | Reads the stored token, installs the bearer header iff it is non-empty, and leaves the storage unchanged |
| ApiClient.Client.SetAuthToken | unified_api_frontend_v2/src/lib/api.ts:112-116 | Afterwards GetToken returns the token, the header carries it, and it is stored; the header/token invariant is kept |
| ApiClient.Client.ClearAuth | unified_api_frontend_v2/src/lib/api.ts:118-123 | No token, no Authorization header, and neither the token key nor the user key stored |
| ApiClient.Client.GetToken | unified_api_frontend_v2/src/lib/api.ts:125-127 | Returns the token held, which is the one the bearer header carries whenever that header is set |
| ApiClient.Client.Intercept | unified_api_frontend_v2/src/lib/api.ts:99-109 | Every reply passes through unchanged; a 401 clears the authentication and sends the browser to /auth/login; any other reply changes nothing |
| ApiClient.Client.Call | unified_api_frontend_v2/src/lib/api.ts:166-169 | A call sends the endpoint's verb and path with the current default headers and then applies the interceptor |
| ApiClient.Client.Login | unified_api_frontend_v2/src/lib/api.ts:135-144 | Through the 401 interceptor of lines 97-110: the token is installed, and stored, only when the reply has a non-empty access_token, and the user is stored only then and only when the reply has one; a reply without a token changes nothing; a 401 failure clears token, header and both stored keys and goes to the login page; any other failure changes nothing |
| ApiClient.Client.GoogleLogin | unified_api_frontend_v2/src/lib/api.ts:161-163 | Navigates to the base URL plus /api/auth/google/login |
| OAuthCallback.UserText | unified_api_frontend_v2/src/pages/auth/OAuthCallback.tsx:25 | Decoding once hands the parameter to the parser as it is; text without '%' is the same under either decoding |
| OAuthCallback.CallbackCredentials | unified_api_frontend_v2/src/pages/auth/OAuthCallback.tsx:12-27 | Credentials exist iff token and user are non-empty and the user text decodes and parses; they carry that token and the parsed user |
| OAuthCallback.HandleCallback | unified_api_frontend_v2/src/pages/auth/OAuthCallback.tsx:11-38 | A non-empty error always goes to the login page without login; otherwise login happens iff credentials are extracted, and exactly then the page goes to the dashboard |
| GoogleCallback.HandleCallback | front-end/src/components/auth/GoogleCallback.jsx:10-40 | Without usable credentials it goes to the failure page and leaves the storage untouched; with them it stores token and re-serialised user and schedules a reload of /chat after 100 ms |
| LegacyAuthService.CurrentUser | front-end/src/services/authService.js:122-132 | An absent or empty entry gives null; otherwise the entry parsed, or null when it is not valid JSON |
| LegacyAuthService.AfterLogin | front-end/src/services/authService.js:55-63 | The token key is set to the reply's token iff it is non-empty, and the user key to the serialised user iff the reply has one, independently; each key not written, and every other key, keeps its value |
| LegacyAuthService.Login | front-end/src/services/authService.js:48-69 | The reply or the transport error reaches the caller unchanged; only a reply updates the storage, as AfterLogin says |
| LegacyAuthService.Logout | front-end/src/services/authService.js:112-116 | Removes exactly access_token, user and chat_session_id |
| LegacyAuthService.GetCurrentUser | front-end/src/services/authService.js:122-132 | Returns CurrentUser of the stored items |
| LegacyAuthService.IsAuthenticated | front-end/src/services/authService.js:138-140 | True iff a non-empty access_token is stored |
| LegacyAuthService.LoginThenRead | front-end/src/services/authService.js:55-63 | After a login whose reply has a user, getCurrentUser gives that user back; the token check holds iff the reply had a token or one was already stored |
| LegacyAuthService.LogoutForgets | front-end/src/services/authService.js:112-140 | After logout neither a user nor a token is found, whatever was stored |
| OtpVerification.OtpFilter | front-end/src/components/auth/OTPVerification.jsx:56 | The field is the first min(n, 6) of the value's n ASCII digits, in order |
| OtpVerification.OtpFilterIdempotent | front-end/src/components/auth/OTPVerification.jsx:56 | Filtering a filtered value changes nothing |
| OtpVerification.OtpFilterKeepsCodes | front-end/src/components/auth/OTPVerification.jsx:56 | The filter leaves a value unchanged iff it is all digits and at most six long |
| OtpVerification.OtpFilterFull | front-end/src/components/auth/OTPVerification.jsx:56 | Once a value holds six digits, whatever is typed after it leaves the field unchanged |
| OtpVerification.Component.constructor | front-end/src/components/auth/OTPVerification.jsx:7-9 | Empty code, a 60-second countdown, resend disabled |
| OtpVerification.Component.Tick | front-end/src/components/auth/OTPVerification.jsx:11-21 | The countdown drops by one while positive; resend becomes enabled exactly when it reaches 0 |
| OtpVerification.Component.Input | front-end/src/components/auth/OTPVerification.jsx:56 | The code becomes the filtered input |
| OtpVerification.Component.Submit | front-end/src/components/auth/OTPVerification.jsx:29-32 | The code is handed to onVerify iff it has six characters (the button's disabled rule at line 63), and it is all digits |
| OtpVerification.Component.ClickResend | front-end/src/components/auth/OTPVerification.jsx:23-27 | Only an enabled button resends; it restarts the countdown at 60 and disables itself; a disabled click changes nothing |
| SignupForm.EmailPatternShape | front-end/src/components/auth/Signup.jsx:38 | The e-mail pattern accepts every local@domain.tld whose three parts are non-empty and free of white space |
| SignupForm.EmailPatternNeedsAtThenDot | front-end/src/components/auth/Signup.jsx:38 | Anything the pattern accepts has an '@' after its first character and a later '.' before its last |
| SignupForm.Validate | front-end/src/components/auth/Signup.jsx:34-52 | For each field, an error iff it is empty or fails its rule, with the emptiness message first; the full name is never checked |
| SignupForm.PasswordStrength | front-end/src/components/auth/Signup.jsx:102-115 | The score is at most 5; it is 0 iff no test passes and 5 iff all pass; a positive score carries labels[score-1] and a zero score on a non-empty password has no label |
| SignupForm.MeterAlwaysLabelled | front-end/src/components/auth/Signup.jsx:113-114 | Wherever the meter is drawn, its label is one of the five labels |
| SignupForm.Form.constructor | front-end/src/components/auth/Signup.jsx:13-22 | Empty fields, no errors, not loading, no OTP step |
| SignupForm.Form.HandleChange | front-end/src/components/auth/Signup.jsx:24-32 | The edited field takes the value; its error, if non-empty, is cleared; the server error is cleared; nothing else changes |
| SignupForm.Form.HandleSubmit | front-end/src/components/auth/Signup.jsx:54-73 | The sign-up call is made iff validation finds nothing; success moves to the OTP step, failure shows the error's message or the default |
| SignupForm.Form.HandleVerifyOtp | front-end/src/components/auth/Signup.jsx:75-89 | The code is sent for the form's e-mail; success goes to /login, failure shows the message or the default; loading ends either way |
| SignupForm.Form.HandleResendOtp | front-end/src/components/auth/Signup.jsx:91-100 | Repeats the sign-up request with the form's fields; only a failure changes what is shown |
| ResetPasswordForm.Validate | front-end/src/components/auth/ResetPassword.jsx:40-61 | Each field has an error iff it is empty or breaks its rule (code of exactly six characters, password of at least eight, matching confirmation), with the message the code gives for each case |
| ResetPasswordForm.FilteredCodeCheck | front-end/src/components/auth/ResetPassword.jsx:27-29 | A code typed through the digit filter passes the code check iff at least six digits were typed |
| ResetPasswordForm.Form.constructor | front-end/src/components/auth/ResetPassword.jsx:11-22 | The address from the navigation state fills the e-mail field and locks it; every other field is empty and nothing is pending |
| ResetPasswordForm.Form.HandleChange | front-end/src/components/auth/ResetPassword.jsx:24-38 | The code field keeps only its first six digits, other fields take the value; the field's error and the server error are cleared; nothing else changes |
| ResetPasswordForm.Form.HandleSubmit | front-end/src/components/auth/ResetPassword.jsx:63-91 | A request is sent iff validation finds nothing, with the four fields; success shows the success state and schedules /login after 2000 ms, failure shows the message or the default |
| ForgotPasswordForm.EmailCheck | front-end/src/components/auth/ForgotPassword.jsx:18-26 | No error iff the address is non-empty and matches the e-mail pattern; otherwise "Email is required" for an empty one and "Email is invalid" for the rest |
| ForgotPasswordForm.Form.constructor | front-end/src/components/auth/ForgotPassword.jsx:10-13 | Empty address, no error, not loading, not yet successful |
| ForgotPasswordForm.Form.Edit | front-end/src/components/auth/ForgotPassword.jsx:96-99 | The address takes the typed value and the error is cleared; nothing else changes |
| ForgotPasswordForm.Form.HandleSubmitAsWritten | front-end/src/components/auth/ForgotPassword.jsx:15-42 | As written: a failed check shows its message and sends nothing; success schedules /reset-password with the address after 2000 ms; a failed request leaves a form that showed nothing still showing nothing |
| ForgotPasswordForm.Form.HandleSubmit | front-end/src/components/auth/ForgotPassword.jsx:15-42 | As intended: the same, except that a failed request shows the error's message or the default, so every submission ends with visible feedback |
| ForgotPasswordPage.ResetCheck | unified_api_frontend_v2/src/pages/auth/ForgotPassword.tsx:42-50 | No error iff the passwords match and have at least 6 characters; a mismatch is reported before the length |
| ForgotPasswordPage.FailureText | unified_api_frontend_v2/src/pages/auth/ForgotPassword.tsx:32 | The toast text is the server's or transport's detail when it is non-empty, and the fallback otherwise; never empty when the fallback is not |
| ForgotPasswordPage.Page.constructor | unified_api_frontend_v2/src/pages/auth/ForgotPassword.tsx:11-16 | Request step, empty fields, not loading |
| ForgotPasswordPage.Page.Edit | unified_api_frontend_v2/src/pages/auth/ForgotPassword.tsx:101-157 | The four inputs take the typed values; step, loading flag and location are unchanged |
| ForgotPasswordPage.Page.RequestReset | unified_api_frontend_v2/src/pages/auth/ForgotPassword.tsx:18-37 | Sends the address; moves to the reset step iff the reply says success; the toast is "Reset code sent to your email!" then, the reply's message or "Failed to send reset code" on a refusal, and the failure's detail or that fallback on an error; loading is off afterwards; the fields are unchanged |
| ForgotPasswordPage.Page.ResetPassword | unified_api_frontend_v2/src/pages/auth/ForgotPassword.tsx:39-74 | A failed check raises its toast and sends nothing; otherwise the four fields are sent, the router goes to the login page iff the reply says success, and the toast is "Password reset successfully!" then, the reply's message or "Password reset failed" on a refusal, and the failure's detail or that fallback on an error |
| Dashboard.ProvisionalId | unified_api_frontend_v2/src/pages/Dashboard.tsx:58 | A locally made session id carries the `session-` prefix that marks it as not yet known to the server |
| Dashboard.FreshSession | unified_api_frontend_v2/src/pages/Dashboard.tsx:58-64 | A new chat is an empty, provisional session titled "New Chat" |
| Dashboard.Prefix | unified_api_frontend_v2/src/pages/Dashboard.tsx:148 | `substring(0, n)`: the first min(length, n) characters |
| Dashboard.RestoreMessages | unified_api_frontend_v2/src/pages/Dashboard.tsx:46-51 | The restored messages keep the history's order and contents, one for one, and a message is the user's iff `isUser` |
| Dashboard.MountSession | unified_api_frontend_v2/src/pages/Dashboard.tsx:37-84 | A history with a session id and at least one message is restored under that id, titled as restored, with its messages converted in order; anything else, a failed fetch included, gives a fresh provisional session |
| Dashboard.RequestFor | unified_api_frontend_v2/src/pages/Dashboard.tsx:122-127 | The request carries the input, and a session id iff the captured one is not provisional |
| Dashboard.AssistantContent | unified_api_frontend_v2/src/pages/Dashboard.tsx:132 | The answer shown is the reply's text when non-empty, and never empty |
| Dashboard.Reconcile | unified_api_frontend_v2/src/pages/Dashboard.tsx:138-168 | Only sessions whose id is the one captured at send time change: each gets exactly the user message and the answer appended and, on a confirmed provisional session, the server's id and (for "New Chat") a 50-character title |
| Dashboard.FindSession | unified_api_frontend_v2/src/pages/Dashboard.tsx:94 | `find`: the position of the first session with the id, or none exactly when no session has it |
| Dashboard.SessionView | unified_api_frontend_v2/src/pages/Dashboard.tsx:92-99 | The sync effect shows messages iff the current id is set and names a session, and then they are the first such session's messages |
| Dashboard.ReplyStaysInCapturedSession | unified_api_frontend_v2/src/pages/Dashboard.tsx:142-167 | A reply that arrives after the user switched sessions leaves the view of every other session unchanged |
| Dashboard.ReconcileAddsTwoPerCapturedSession | unified_api_frontend_v2/src/pages/Dashboard.tsx:142-167 | A reply adds exactly two messages per session with the captured id, and none elsewhere |
| Dashboard.ChatDashboard.constructor | unified_api_frontend_v2/src/pages/Dashboard.tsx:29-33 | No sessions, no current session, no messages, empty input, not loading |
| Dashboard.ChatDashboard.CanSubmit | unified_api_frontend_v2/src/pages/Dashboard.tsx:335 | The send button is enabled iff nothing is loading and the input has non-space text; BeginSend shows that an enabled button with a current session sends, and that it is disabled afterwards |
| Dashboard.ChatDashboard.SyncMessages | unified_api_frontend_v2/src/pages/Dashboard.tsx:92-99 | The display becomes the current session's messages, and is left alone when there is none |
| Dashboard.ChatDashboard.LoadHistory | unified_api_frontend_v2/src/pages/Dashboard.tsx:37-84 | The session list becomes the one mounted session, which is current and displayed |
| Dashboard.ChatDashboard.SetInput | unified_api_frontend_v2/src/pages/Dashboard.tsx:329 | The input takes the typed text |
| Dashboard.ChatDashboard.SelectSession | unified_api_frontend_v2/src/pages/Dashboard.tsx:215 | The clicked session becomes current; its messages are displayed when the id changed |
| Dashboard.ChatDashboard.NewChat | unified_api_frontend_v2/src/pages/Dashboard.tsx:181-191 | A fresh provisional session is put first and made current, with an empty display |
| Dashboard.ChatDashboard.BeginSend | unified_api_frontend_v2/src/pages/Dashboard.tsx:101-117 | Nothing happens iff the input is blank or no session is current; otherwise the user message is displayed, the input cleared, loading set, the session id and input captured, and the send button disabled |
| Dashboard.ChatDashboard.CompleteSend | unified_api_frontend_v2/src/pages/Dashboard.tsx:119-178 | A failure only ends loading; a reply is reconciled into the captured session, the current id follows a confirmed provisional session, and the display shows the current session |
| AccountService.Digits | unified_api/services/auth_service.py:24-25 | A value below 10^width written as exactly width decimal digits whose value it is |
| AccountService.GenerateOtp | unified_api/services/auth_service.py:24-25 | A code is six decimal digits, the draw's value modulo 10^6 |
| AccountService.EveryCodeDrawable | unified_api/services/auth_service.py:24-25 | Every six-digit code is the code of some draw |
| AccountService.DigitsBelow | unified_api/services/auth_service.py:24-25 | A string of n digits is worth less than 10^n |
| AccountService.DigitsInjective | unified_api/services/auth_service.py:24-25 | Two digit strings of one length with the same value are equal |
| AccountService.FindByEmail | unified_api/services/auth_service.py:40-41 | The first row with the address, or none exactly when no row has it |
| AccountService.FindById | unified_api/services/auth_service.py:354-355 | The first row with the id (no earlier row has it), or none exactly when no row has it |
| AccountService.ApplyPatch | unified_api/services/auth_service.py:52-58 | A column update keeps the id, address and creation time, and stamps `updated_at` |
| AccountService.UpdateById | unified_api/services/auth_service.py:341-350 | `update(...).eq("id", id)` patches exactly the rows with that id and keeps the rest |
| AccountService.AppendUnique | unified_api/services/auth_service.py:73-96 | Inserting a row whose address is new keeps addresses unique, and the address then finds the new row |
| AccountService.FindAppended | unified_api/services/auth_service.py:73-96 | A new address, once its row is appended, finds that row |
| AccountService.ResendKeepsRow | unified_api/services/auth_service.py:54-58 | Updating an unverified user's code keeps addresses unique and the address on the same row, which now holds the new code and expiry and is still unverified |
| AccountService.SignupRefusal | unified_api/services/auth_service.py:28-36 | Sign-up is refused before any read exactly when a field is empty, the address is malformed or the password fails its rules |
| AccountService.SignupStore | unified_api/services/auth_service.py:38-111 | Past the guards, a failure writes nothing and returns no user or code; a success returns the drawn code |
| AccountService.SignupOn | unified_api/services/auth_service.py:27-111 | Any failure leaves the table alone and returns no user or code; a success returns the drawn code |
| AccountService.SignupGuards | unified_api/services/auth_service.py:28-36 | The three guards answer in order with their own messages |
| AccountService.SignupSucceedsIff | unified_api/services/auth_service.py:27-111 | Sign-up succeeds iff the guards pass and either the address is unverified and the read and update work, or it is new and the read and insert work |
| AccountService.SignupAlreadyExists | unified_api/services/auth_service.py:41-44 | "already exists" is answered iff the address belongs to a verified user, or the password rules themselves answer it |
| AccountService.SignupResends | unified_api/services/auth_service.py:41-67 | A success on a known address: the user was unverified, the reply is the resent message with that user and the code, and the table is that row updated with the code and expiry |
| AccountService.SignupRegisters | unified_api/services/auth_service.py:73-107 | A success on a new address: the reply is the registered message with the new user and the code, and the table gains exactly that row |
| AccountService.SignupKeepsUnique | unified_api/services/auth_service.py:27-111 | Sign-up keeps the table's addresses unique |
| AccountService.ResendHoldsCode | unified_api/services/auth_service.py:54-58 | After the resend update, the address finds an unverified row holding the new code and expiry |
| AccountService.AppendHoldsCode | unified_api/services/auth_service.py:78-93 | After inserting the new row, the address finds an unverified row holding its code and expiry |
| AccountService.SignupStoresCode | unified_api/services/auth_service.py:27-111 | Every successful sign-up leaves the code it returns, with its expiry, on the row its address finds |
| AccountService.UpdateKeepsEmails | unified_api/services/auth_service.py:52-58 | Updating rows by id keeps addresses unique and every address lookup unchanged |
| AccountService.FindByEmailSameColumn | unified_api/services/auth_service.py:40-41 | Two tables with the same address column answer every address lookup alike |
| AccountService.UpdateFindsSameRow | unified_api/services/auth_service.py:341-350 | Updating by id keeps the first row with that id first |
| AccountService.VerifyDecision | unified_api/services/auth_service.py:124-135 | An already verified account succeeds first; a wrong code is "Invalid OTP"; the code is accepted iff it matches and an expiry is present, parses and has not passed |
| AccountService.VerifiedOnce | unified_api/services/auth_service.py:137-146 | After an accepted code the account is active, has no code, and verifying again reports "already verified" |
| AccountService.FreshCodeAccepted | unified_api/services/auth_service.py:73-89 | A code issued at sign-up is accepted up to and including its expiry, and "OTP expired" after |
| AccountService.Login | unified_api/services/auth_service.py:152-185 | Login succeeds iff the fields are present, the format is valid, the read works, and an active row's hash verifies the password; then it returns that user and a token for their id; every failure carries no user and no token |
| AccountService.LoginHidesAccounts | unified_api/services/auth_service.py:160-175 | An unknown address and a wrong password give the same answer |
| AccountService.NewestUnused | unified_api/services/auth_service.py:247-258 | The chosen reset row is unused, for the user and the code, and no matching row is newer; there is none iff no row matches |
| AccountService.ResetExpiry | unified_api/services/auth_service.py:263-271 | A reset row passes iff its expiry parses and has not passed |
| AccountService.MarkUsed | unified_api/services/auth_service.py:282-284 | Marking a row used changes that row's `used` flag and nothing else (the row is addressed by position, which agrees with the source's update by id while reset ids are unique) |
| AccountService.ResetCodeSingleUse | unified_api/services/auth_service.py:282-284 | A consumed reset row is never chosen again; when it was the only match, the code stops working |
| AccountService.LocalSession | unified_api/services/auth_service.py:388-400 | The local file gives a session iff it was readable and has the user's entry, and then it is that entry |
| AccountService.LastSession | unified_api/services/auth_service.py:352-360 | When the read works and the user's row has a non-empty `last_session_id`, that value; when the read fails, no row has the id, or the value is empty, the local file's entry |
| AccountService.AuthService.constructor | unified_api/services/auth_service.py:18-22 | The service starts over the given tables and session file |
| AccountService.AuthService.Signup | unified_api/services/auth_service.py:27-111 | The step-by-step sign-up gives the reply and the users table SignupOn gives, and touches no other table; the guards, the refusal of a verified address, the resent or registered row holding the returned code, and uniqueness of addresses are the SignupOn lemmas beside it |
| AccountService.AuthService.StoreSignup | unified_api/services/auth_service.py:38-111 | Past the input checks, the step-by-step lookup and write give the reply and the users table SignupStore gives, keep addresses unique and touch no other table |
| AccountService.AuthService.VerifyEmail | unified_api/services/auth_service.py:113-150 | Missing fields, a failed read and an unknown address fail without a write; otherwise the outcome is VerifyDecision's, and only an accepted code verifies and activates the row |
| AccountService.AuthService.RequestPasswordReset | unified_api/services/auth_service.py:187-225 | An empty address is refused; a malformed or unknown one gets the same acknowledgement and no code; a code is returned iff a reset row with its expiry was inserted |
| AccountService.AuthService.ResetPassword | unified_api/services/auth_service.py:227-289 | Success iff the fields are present and agree, the password is valid, the user and an unused unexpired code are found and both writes work; then the hash changes and exactly that reset row is marked used, so it is not chosen again; a failure changes nothing, except that a failing second write leaves the new hash with the code unused |
| AccountService.AuthService.GetOrCreateGoogleUser | unified_api/services/auth_service.py:291-339 | Without an address there is no user; an existing row is returned, and verified and activated first if it was not; a new address gets a verified, active row; any user returned is verified |
| AccountService.AuthService.GetLastSession | unified_api/services/auth_service.py:352-360 | A session returned is the local file's entry or the user's row's value |
| AccountService.AuthService.UpdateLastSession | unified_api/services/auth_service.py:341-386 | A working write records the session on the user's row (readable back), while a failing one merges it into the local file, all other entries lost if the file was unreadable; the result says whether either worked |
| AuthRoutes.SignupStatus | unified_api/routes/auth.py:28-32 | A refused sign-up is a 400 exactly for "already exists", and a 500 otherwise |
| AuthRoutes.LoginStatus | unified_api/routes/auth.py:60-66 | A refused login is a 403 exactly for an inactive account, a 401 exactly for bad credentials, and a 500 otherwise |
| AuthRoutes.SignupReply | unified_api/routes/auth.py:28-43 | The reply is a success iff the service succeeded, with its message and user; a verification mail is queued iff it succeeded with a code, to the request's address and name |
| AuthRoutes.Signup | unified_api/routes/auth.py:21-43 | Through the service: a failure queues no mail and writes nothing; a verified existing address gives 400 "already exists"; a success mails the code stored on the user's row with its expiry |
| AuthRoutes.MessageReply | unified_api/routes/auth.py:49-51 | A success iff the service succeeded, with its message; otherwise a 400 carrying the message |
| AuthRoutes.VerifyEmail | unified_api/routes/auth.py:46-51 | Refusals are 400 and write nothing; for a found user the reply is a success iff the account was verified already or the code is accepted |
| AuthRoutes.LoginRoute | unified_api/routes/auth.py:54-68 | A success iff the service's login succeeds, then with token and user; refusals are 401, 403 (iff inactive) or 500 |
| AuthRoutes.LoginRouteHidesAccounts | unified_api/routes/auth.py:63-64 | An unknown address and a wrong password both give the same 401 |
| AuthRoutes.ForgotReply | unified_api/routes/auth.py:73-85 | A service failure is a 500; a success always answers with the same notice, and mails the code iff there is one |
| AuthRoutes.ForgotPassword | unified_api/routes/auth.py:71-85 | Every present address not stopped by a failed read gets the same notice; a reset mail goes out iff the address is well-formed, known and its reset row was stored |
| AuthRoutes.ResetPassword | unified_api/routes/auth.py:88-98 | Refusals are 400 and consume no code; a success changes exactly the user's password hash |
| AuthRoutes.GoogleLogin | unified_api/routes/auth.py:115-119 | A redirect to the consent page iff the Google client is configured, a 501 otherwise |
| AuthRoutes.LowerHexDigit | unified_api/routes/auth.py:148-154 | A hex digit written by `json.dumps` is ASCII |
| AuthRoutes.UnicodeEscape | unified_api/routes/auth.py:148-154 | A `\uXXXX` escape is six ASCII characters |
| AuthRoutes.JsonChar | unified_api/routes/auth.py:148-154 | With `ensure_ascii`, a character is written as itself iff it is printable ASCII other than quote and backslash, and as ASCII always |
| AuthRoutes.JsonChars | unified_api/routes/auth.py:148-154 | The body of a JSON string literal is ASCII |
| AuthRoutes.JsonString | unified_api/routes/auth.py:148-154 | A JSON string literal is ASCII and quoted |
| AuthRoutes.JsonCharsPlain | unified_api/routes/auth.py:148-154 | Text of plain characters is written unchanged |
| AuthRoutes.AsciiJoin | unified_api/routes/auth.py:148-154 | Joining ASCII text keeps it ASCII |
| AuthRoutes.Field | unified_api/routes/auth.py:148-154 | A key followed by its value, ASCII when both are |
| AuthRoutes.UserJson | unified_api/routes/auth.py:148-154 | The user JSON the callback serialises is ASCII |
| AuthRoutes.CallbackQuery | unified_api/routes/auth.py:155-157 | For a URL-safe token and ASCII user JSON, the query parses back into exactly the pairs ("token", token) and ("user", the JSON) |
| AuthRoutes.CallbackUrl | unified_api/routes/auth.py:157 | The redirect starts with the front-end URL and `/auth/callback`, and the rest is the callback query |
| AuthRoutes.CallbackReplyAsWritten | unified_api/routes/auth.py:135-163 | As written: a missing user raises a 400 that the generic handler turns into a 500 whose detail embeds it; a found user is redirected with a token for their id and their JSON |
| AuthRoutes.CallbackReply | unified_api/routes/auth.py:135-158 | As intended: the reply fails iff no user was found, and then with the 400; a found user is redirected as before |
| AuthRoutes.MissingUserStatus | unified_api/routes/auth.py:136-137 | A missing Google user gets status 500 as written and 400 as intended |
| AuthRoutes.GoogleCallback | unified_api/routes/auth.py:121-163 | 501 when unconfigured; a verification error is a 500 and writes nothing; a profile without an address, or a service that yields no user, is the 500 "Google Login Error: 400: Failed to login with Google"; a redirect happens only for a profile with an address, and carries a token and JSON of a verified user with that address |
| AgentRoutes.EntryOf | unified_api/routes/agent.py:39-42 | A user message always becomes one user entry with its text; any other message becomes one assistant entry iff its content is non-empty |
| AgentRoutes.Formatted | unified_api/routes/agent.py:37-42 | The formatted history has at most one entry per message, and every assistant entry has text |
| AgentRoutes.FormatHistory | unified_api/routes/agent.py:37-42 | The loop builds exactly the formatted history |
| AgentRoutes.FormattedAppend | unified_api/routes/agent.py:38-42 | Formatting a conversation is formatting its parts and concatenating |
| AgentRoutes.UserTextsAppend | unified_api/routes/agent.py:38-42 | The user texts of joined entries are those of each part, in order |
| AgentRoutes.HistoryKeepsUserTurns | unified_api/routes/agent.py:38-42 | The history keeps every user turn, in order, with its text |
| AgentRoutes.GetChatHistory | unified_api/routes/agent.py:16-47 | Without a last session the reply is empty with no session; with one it always names it, with the formatted messages only when the thread's state could be read and had values |
| AgentRoutes.NodeText | unified_api/routes/agent.py:77-80 | A node output adds text iff its last message has content, and then that content and a blank line |
| AgentRoutes.ChunkTexts | unified_api/routes/agent.py:75-80 | One text per streamed chunk, in order |
| AgentRoutes.AssembleResponse | unified_api/routes/agent.py:74-80 | The streaming loop builds exactly the concatenated texts of the chunks |
| AgentRoutes.AppendChunk | unified_api/routes/agent.py:76-80 | One chunk appends its nodes' texts to what was gathered |
| AgentRoutes.StreamTextAppend | unified_api/routes/agent.py:75-80 | The text of a stream is the text of its parts, concatenated |
| AgentRoutes.ConcatAppend | unified_api/routes/agent.py:75-80 | Concatenation distributes over joined lists |
| AgentRoutes.SingleAnswer | unified_api/routes/agent.py:75-97 | A stream of one answer whose text has no surrounding white space is answered with exactly that text |
| AgentRoutes.SessionFor | unified_api/routes/agent.py:59 | The request's non-empty session id is kept, otherwise a fresh one is used |
| AgentRoutes.Chat | unified_api/routes/agent.py:49-105 | The session is recorded as the user's last before the graph runs, even when the graph then fails; the graph gets the user's message and address; a failure is a 500 with the error; otherwise the stripped stream text, the session id, whether the run is complete, and the strategies |
| MarketingNodes.Say | unified_api/agent_src/marketing_agent/marketing_nodes.py:68 | A reply update holds exactly one AI message with the text |
| MarketingNodes.ParseDetails | unified_api/agent_src/marketing_agent/marketing_nodes.py:47-51 | The loop builds the map of the lines holding a colon, stripped key to stripped lower-cased value, later keys winning |
| MarketingNodes.KnownBelowFields | unified_api/agent_src/marketing_agent/marketing_nodes.py:57 | The known-field count never exceeds the number of fields |
| MarketingNodes.FieldsBelowColonLines | unified_api/agent_src/marketing_agent/marketing_nodes.py:47-51 | There are at most as many fields as lines holding a colon |
| MarketingNodes.GatherProductDetails | unified_api/agent_src/marketing_agent/marketing_nodes.py:33-68 | The stripped extraction is stored and confirmed iff the last message is the user's, it starts with `Name:`, holds a line break and has at least three known fields; otherwise the follow-up questions; stored details always had at least three colon lines |
| MarketingNodes.SkipSpace | unified_api/agent_src/marketing_agent/marketing_nodes.py:103 | `\s*`: the end of the longest run of white space |
| MarketingNodes.SkipDigits | unified_api/agent_src/marketing_agent/marketing_nodes.py:103 | `\d+`: the end of the longest run of digits |
| MarketingNodes.CitationAt | unified_api/agent_src/marketing_agent/marketing_nodes.py:103 | A citation matched at a position starts with "(Source:", carries a non-empty run of digits and ends with ")" |
| MarketingNodes.FirstCitation | unified_api/agent_src/marketing_agent/marketing_nodes.py:111-113 | A citation found carries a non-empty run of digits |
| MarketingNodes.RemoveCitations | unified_api/agent_src/marketing_agent/marketing_nodes.py:117 | Removing the citations never lengthens the text |
| MarketingNodes.StripNumbering | unified_api/agent_src/marketing_agent/marketing_nodes.py:119 | Removing a leading number leaves a suffix of the text, and only when the text starts with a digit |
| MarketingNodes.SourceUrl | unified_api/agent_src/marketing_agent/marketing_nodes.py:114 | Source n is the n-th search link when there is one, and "Source not found" otherwise |
| MarketingNodes.Affixes | unified_api/agent_src/marketing_agent/marketing_nodes.py:122 | A joined text starts with its first part and ends with its second |
| MarketingNodes.LineEntry | unified_api/agent_src/marketing_agent/marketing_nodes.py:105-127 | A kept line is presented as "**Strategy k:**" and its strategy; a cited line is always kept and ends with the cited source or "Source not found"; an uncited line is kept iff it is longer than 10 characters and starts with a digit |
| MarketingNodes.ParseStrategies | unified_api/agent_src/marketing_agent/marketing_nodes.py:101-127 | The loop keeps exactly the strategies and lines the line rule gives, in order |
| MarketingNodes.ParseAllLabelled | unified_api/agent_src/marketing_agent/marketing_nodes.py:121-127 | Each kept line is numbered by its position among the kept strategies and shows that strategy, and no more strategies than lines are kept |
| MarketingNodes.LabelledStep | unified_api/agent_src/marketing_agent/marketing_nodes.py:121-127 | Keeping one more strategy, with a line labelled by its position, keeps every line labelled |
| MarketingNodes.GenerateStrategies | unified_api/agent_src/marketing_agent/marketing_nodes.py:70-137 | Nothing kept gives the retry message and leaves the strategies alone; otherwise the kept strategies are stored and presented numbered between the fixed introduction and question |
| MarketingNodes.DropUnderscores | unified_api/agent_src/marketing_agent/marketing_nodes.py:174 | Over a digit group, dropping the underscores is the same as keeping the digits |
| MarketingNodes.DropUnderscoresOfDigits | unified_api/agent_src/marketing_agent/marketing_nodes.py:174 | Plain digits are read unchanged |
| MarketingNodes.PyInt | unified_api/agent_src/marketing_agent/marketing_nodes.py:174 | A non-empty run of digits is read as its decimal value |
| MarketingNodes.SelectStrategy | unified_api/agent_src/marketing_agent/marketing_nodes.py:139-185 | No strategies gives the "none yet" message; no user message gives the question; a strategy is selected iff the model's stripped reply is an integer from 1 to the count, and then exactly that one; anything else asks again |
| MarketingNodes.SelectByNumber | unified_api/agent_src/marketing_agent/marketing_nodes.py:174-177 | The model answering k, padded with white space, selects the k-th strategy |
| MarketingNodes.GuideStrategy | unified_api/agent_src/marketing_agent/marketing_nodes.py:222-223 | The guide shown is stored, ends with the offer to mail it, and marks the strategy as guided |
| MarketingNodes.CheckSatisfactionAsWritten | unified_api/agent_src/marketing_agent/marketing_nodes.py:225-283 | As written: no user message asks again; any reply containing SATISFIED, in upper case after stripping, sends the guide; every other reply is passed on stripped, the DISSATISFIED branch being dead |
| MarketingNodes.DissatisfiedContainsSatisfied | unified_api/agent_src/marketing_agent/marketing_nodes.py:267-272 | Every text containing DISSATISFIED contains SATISFIED |
| MarketingNodes.AsWrittenNeverPivots | unified_api/agent_src/marketing_agent/marketing_nodes.py:267-278 | As written, the pivot branch is never taken |
| MarketingNodes.AsWrittenSatisfiesDissatisfied | unified_api/agent_src/marketing_agent/marketing_nodes.py:264-271 | As written, the model answering DISSATISFIED sends the guide instead of pivoting: the reply is unchanged by stripping and upper-casing, and contains SATISFIED |
| MarketingNodes.CheckSatisfaction | unified_api/agent_src/marketing_agent/marketing_nodes.py:225-283 | As intended: a reply naming DISSATISFIED pivots (clearing the selection and the guided flag), one naming only SATISFIED sends the guide, any other is passed on stripped |
| MarketingNodes.EscapeHtml | unified_api/agent_src/marketing_agent/marketing_nodes.py:329 | Escaped text holds no `<` and no `>` |
| MarketingNodes.ReplaceCharAppend | unified_api/agent_src/marketing_agent/marketing_nodes.py:329 | Replacing a character distributes over concatenation |
| MarketingNodes.ReplaceCharAbsent | unified_api/agent_src/marketing_agent/marketing_nodes.py:356 | Replacing an absent character changes nothing |
| MarketingNodes.EscapeAppend | unified_api/agent_src/marketing_agent/marketing_nodes.py:329 | Escaping distributes over concatenation |
| MarketingNodes.ReplaceOne | unified_api/agent_src/marketing_agent/marketing_nodes.py:329 | Replacing in a one-character text |
| MarketingNodes.EscapeSingle | unified_api/agent_src/marketing_agent/marketing_nodes.py:329 | The three replacements in order escape each character on its own |
| MarketingNodes.EscapeCons | unified_api/agent_src/marketing_agent/marketing_nodes.py:329 | Escaping a text is escaping its first character, then the rest |
| MarketingNodes.UnescapeEscape | unified_api/agent_src/marketing_agent/marketing_nodes.py:329 | Escaping loses nothing: unescaping gives the text back |
| MarketingNodes.UnescapeChar | unified_api/agent_src/marketing_agent/marketing_nodes.py:329 | Unescaping the escape of one character gives that character back, whatever follows |
| MarketingNodes.MarkdownToHtml | unified_api/agent_src/marketing_agent/marketing_nodes.py:327-358 | The mail body is the escaped text after the markdown rewrites, with every line break turned into `<br>` and none left |
| MarketingNodes.NewestGuide | unified_api/agent_src/marketing_agent/marketing_nodes.py:316-319 | A guide found is the content of an AI message; none is found iff no AI message mentions "Great choice!" |
| MarketingNodes.FindGuide | unified_api/agent_src/marketing_agent/marketing_nodes.py:316-319 | The backward loop finds exactly the newest guide message |
| MarketingNodes.FoundGuideChosen | unified_api/agent_src/marketing_agent/marketing_nodes.py:312-322 | Without a stored guide, the guide the backward search finds, or else the default text, is the chosen guide |
| MarketingNodes.NewestGuideStep | unified_api/agent_src/marketing_agent/marketing_nodes.py:316-319 | The newest guide among the first i messages is message i-1 if it is one, otherwise the newest among the first i-1 |
| MarketingNodes.ChosenGuide | unified_api/agent_src/marketing_agent/marketing_nodes.py:312-322 | The stored guide when there is one; the guide mailed is never empty |
| MarketingNodes.SendEmailNode | unified_api/agent_src/marketing_agent/marketing_nodes.py:285-396 | Without an address nothing is mailed; with one, the chosen guide is mailed to it as HTML under the strategy's subject and echoed back in the confirmation |
| MarketingNodes.GuideShownIsMailed | unified_api/agent_src/marketing_agent/marketing_nodes.py:222-223 | After the guide node, the guide mailed is the one last shown to the user |
| OrchestratorNodes.Recent | unified_api/agent_src/orchestrator/orchestrator_nodes.py:42 | `messages[-3:]`: the last three messages, or all of them when there are fewer |
| OrchestratorNodes.RouterNode | unified_api/agent_src/orchestrator/orchestrator_nodes.py:27-63 | A conversation not ending with the user's message goes to small talk; the marketing agent is chosen iff it does and the model's answer, stripped and lower-cased, contains "marketing"; the router never ends the run |
| OrchestratorNodes.OnlyRecentRoute | unified_api/agent_src/orchestrator/orchestrator_nodes.py:42-43 | History before the last three messages never changes the context or the route |
| OrchestratorNodes.CapitalisedIntent | unified_api/agent_src/orchestrator/orchestrator_nodes.py:58-61 | The answer "Marketing" routes to the marketing agent |
| OrchestratorNodes.MarketingLowered | unified_api/agent_src/orchestrator/orchestrator_nodes.py:58-59 | The answer "Marketing", stripped and lower-cased, contains "marketing" |
| OrchestratorNodes.GeneralChatNode | unified_api/agent_src/orchestrator/orchestrator_nodes.py:65-78 | An empty conversation raises IndexError; otherwise exactly one AI message answering the last message's content, and the run ends |
| OrchestratorNodes.ChatAnswerRoutesToChat | unified_api/agent_src/orchestrator/orchestrator_nodes.py:36-38 | After the small-talk answer the conversation ends with an AI message, so routing it again picks small talk |
| Uri.FormDecodeSafe | unified_api_frontend_v2/src/pages/auth/OAuthCallback.tsx:12-15 | Text of characters `quote` leaves alone passes form decoding unchanged |
| Uri.SafeTokenDecodes | unified_api_frontend_v2/src/pages/auth/OAuthCallback.tsx:12-15 | A URL-safe token holds no `&` and decodes to itself |
| Uri.QueryPairs | unified_api_frontend_v2/src/pages/auth/OAuthCallback.tsx:12-15 | The redirect query reads as its two decoded pairs, the parameter names `token` and `user` decoding to themselves |
| EndToEnd.CallbackParams | unified_api_frontend_v2/src/pages/auth/OAuthCallback.tsx:12-15 | Those pairs carry no error and give the token and the user |
| EndToEnd.CallbackLogsIn | unified_api_frontend_v2/src/pages/auth/OAuthCallback.tsx:23-33 | Decoding the user once, every redirect whose JSON parses logs that user in with the token and opens the dashboard |
| EndToEnd.DoubleDecodingRejects | unified_api_frontend_v2/src/pages/auth/OAuthCallback.tsx:25 | Decoding twice, a user JSON with a `%` not followed by two hex digits sends the user back to the login page |
| EndToEnd.JsonFields | unified_api/routes/auth.py:148-154 | The user JSON is its five key-value fields, then the closing brace |
| EndToEnd.JsonShape | unified_api/routes/auth.py:148-154 | The user JSON is its head, the name's string literal, then its tail |
| EndToEnd.PlainString | unified_api/routes/auth.py:148-154 | Plain text is written as itself between quotes, with no `%` |
| EndToEnd.HeadPlain | unified_api/routes/auth.py:148-154 | With a plain id and address, the JSON before the name has no `%` |
| EndToEnd.BareEscapeRejected | unified_api_frontend_v2/src/pages/auth/OAuthCallback.tsx:25 | A `%` not followed by two hex digits, with no `%` before it, makes the second decoding fail |
| EndToEnd.UndecodableUserRejected | unified_api_frontend_v2/src/pages/auth/OAuthCallback.tsx:30-33 | Whenever decoding the user fails, the page logs nobody in and goes to the login page |
| EndToEnd.QuotedPlain | unified_api/routes/auth.py:148-154 | A name of characters `json.dumps` writes as themselves is written between quotes |
| EndToEnd.PercentNameEscapes | unified_api/routes/auth.py:148-154 | The name "50% off" is such a name, and its `%` is followed by a space, not a hex digit |
| EndToEnd.NameEscapeInJson | unified_api/routes/auth.py:148-155 | Such a name's bare `%` stays the first `%`, and bare, in a JSON text whose part before the name holds no `%` |
| EndToEnd.NameEscapeRejected | unified_api_frontend_v2/src/pages/auth/OAuthCallback.tsx:25 | A callback whose user JSON holds such a name after a `%`-free head is sent back to the login page when decoded twice |
| EndToEnd.EscapedNameRejected | unified_api/routes/auth.py:148-157 | A Google user with such a name and a plain id and address is sent back to the login page when decoded twice |
| EndToEnd.EscapedNameCannotSignIn | unified_api_frontend_v2/src/pages/auth/OAuthCallback.tsx:23-33 | That user is sent back to the login page by the page as written, and reaches the dashboard when the user is decoded once |
| Uri.HexValue | unified_api_frontend_v2/src/pages/auth/OAuthCallback.tsx:25 | A hex digit's value is below 16 |
| Uri.HexDigitChar | unified_api/routes/auth.py:155 | The hex digit `quote` writes for a value below 16 has that value |
| Uri.Utf8 | unified_api/routes/auth.py:155 | A character's UTF-8 encoding is one to four bytes, a single byte iff the character is ASCII, and then the character itself |
| Uri.PercentByte | unified_api/routes/auth.py:155 | A byte is written as `%` and two hex digits whose value is the byte |
| Uri.PercentBytes | unified_api/routes/auth.py:155 | Three characters per byte, each `%` or a hex digit |
| Uri.Quote | unified_api/routes/auth.py:155 | `quote` leaves only its safe characters and percent escapes |
| Uri.ByteChar | unified_api_frontend_v2/src/pages/auth/OAuthCallback.tsx:25 | A decoded byte below 0x80 stands for the character with that code |
| Uri.FormDecode | unified_api_frontend_v2/src/pages/auth/OAuthCallback.tsx:12-14 | Form decoding never lengthens a value |
| Uri.DecodeUriComponent | unified_api_frontend_v2/src/pages/auth/OAuthCallback.tsx:25 | A successful `decodeURIComponent` never lengthens its input |
| Uri.DecodeSafeStep | unified_api_frontend_v2/src/pages/auth/OAuthCallback.tsx:12-14 | A character `quote` leaves alone is read back as itself, whatever follows |
| Uri.DecodeEscapeStep | unified_api_frontend_v2/src/pages/auth/OAuthCallback.tsx:12-14 | The percent-escape of an ASCII character is read back as that character, whatever follows |
| Uri.FormDecodeQuote | unified_api/routes/auth.py:155 | What `quote` wrote for ASCII text, form decoding reads back unchanged |
| Uri.DecodeWithoutPercent | unified_api_frontend_v2/src/pages/auth/OAuthCallback.tsx:25 | Text without `%` passes through `decodeURIComponent` unchanged |
| Uri.DecodeRejectsBareEscape | unified_api_frontend_v2/src/pages/auth/OAuthCallback.tsx:25 | A `%` not followed by two hex digits makes `decodeURIComponent` throw |
| Uri.ParsePairs | unified_api_frontend_v2/src/pages/auth/OAuthCallback.tsx:12 | The parameter list has at most one pair per `&`-separated piece |
| Uri.GetParam | unified_api_frontend_v2/src/pages/auth/OAuthCallback.tsx:13-15 | A parameter has a value iff some pair has that name, and the value is that of such a pair |
| Uri.SplitAtFirst | unified_api_frontend_v2/src/pages/auth/OAuthCallback.tsx:12 | Splitting at the first separator |
| Uri.PairOf | unified_api_frontend_v2/src/pages/auth/OAuthCallback.tsx:12 | A piece `name=value` decodes to its name and value |
| Uri.TwoPairQuery | unified_api_frontend_v2/src/pages/auth/OAuthCallback.tsx:12 | A query of two pairs reads as those two pairs, decoded |
| Uri.SplitTwo | unified_api_frontend_v2/src/pages/auth/OAuthCallback.tsx:12 | Two parts without `&`, joined by `&`, split back into those two parts |
| Uri.ParseTwo | unified_api_frontend_v2/src/pages/auth/OAuthCallback.tsx:12 | Two non-empty parts read as their two pairs |
| Storage.StringifiedNonEmpty | unified_api_frontend_v2/src/contexts/AuthContext.tsx:43 | A user stringified by a codec that reads its own output back is never the empty string |
| Storage.BrowserStorage.constructor | unified_api_frontend_v2/src/contexts/AuthContext.tsx:23-24 | The storage starts with the given entries |
| Storage.BrowserStorage.GetItem | unified_api_frontend_v2/src/contexts/AuthContext.tsx:23-24 | `getItem` gives a value iff the key is present, and then its value |
| Storage.BrowserStorage.SetItem | unified_api_frontend_v2/src/contexts/AuthContext.tsx:42-43 | `setItem` sets exactly that key |
| Storage.BrowserStorage.RemoveItem | unified_api_frontend_v2/src/contexts/AuthContext.tsx:49-50 | `removeItem` removes exactly that key |
| Common.Strip | unified_api/agent_src/marketing_agent/marketing_nodes.py:106 | `strip()`: a slice of the text with no white space at either end, empty iff the text is all white space |
| Common.LeadingSpace | unified_api/agent_src/marketing_agent/marketing_nodes.py:106 | The white space run at the front: all white space, followed by a non-space if anything follows |
| Common.TrailingSpace | unified_api/agent_src/marketing_agent/marketing_nodes.py:106 | The white space run at the back: all white space, preceded by a non-space if anything precedes |
| Common.TrailingOfRest | unified_api/agent_src/marketing_agent/marketing_nodes.py:106 | Past a non-space, the back run of the rest is the back run of the text, and ends after a non-space |
| Common.StripTrailing | unified_api/agent_src/marketing_agent/marketing_nodes.py:106 | Stripping text that has non-space ends and is followed by white space gives the text back |
| Common.UpperFixed | unified_api/agent_src/marketing_agent/marketing_nodes.py:265 | Text with no lower-case ASCII letter is unchanged by upper-casing |
| Common.Split | unified_api/agent_src/marketing_agent/marketing_nodes.py:105 | `split(sep)`: at least one piece, none holding the separator |
| Common.JoinSplit | unified_api/agent_src/marketing_agent/marketing_nodes.py:105 | Joining the pieces with the separator gives the text back |
| Common.NatToString | unified_api/agent_src/marketing_agent/marketing_nodes.py:122 | A number's decimal text is non-empty digits whose value is the number |
| Common.ToLowerAscii | unified_api/agent_src/orchestrator/orchestrator_nodes.py:58 | Each upper-case ASCII letter becomes its lower-case letter and every other character is kept, position by position |
| Common.ToUpperAscii | unified_api/agent_src/marketing_agent/marketing_nodes.py:265 | Each lower-case ASCII letter becomes its upper-case letter and every other character is kept, position by position |
| Common.ReplaceChar | unified_api/agent_src/marketing_agent/marketing_nodes.py:356 | `replace(c, rep)` leaves no `c` when `rep` has none and changes no other character's presence |
| Common.KeepDigits | front-end/src/components/auth/ResetPassword.jsx:28 | `replace(/\D/g, '')` leaves only digits, never lengthens, and keeps every digit as often as it occurs |
| Common.KeepDigitsOfDigits | front-end/src/components/auth/ResetPassword.jsx:28 | Digits pass the filter unchanged |
| Common.KeepDigitsAppend | front-end/src/components/auth/ResetPassword.jsx:28 | The filter keeps order: the digits of a + b are those of a, then those of b |

## Left out

- The language model and the web search are function parameters. Prompt wording is not modelled, only the variable text each prompt receives.
- The Supabase tables are in-memory sequences of rows. A database or network failure is the `Fault` parameter, which makes a chosen call raise or return nothing.
- Password hashing, the e-mail and password validators, JWT creation and decoding, the clock, `uuid4` and `random` are parameters. The clock is in whole seconds.
- The JSON last-session file is modelled only by its effect on a map from user id to session id: a missing file, a corrupt file or its entries.
- `services/email_service.py` (SMTP) is not modelled. The mails the account service would send are returned as values.
- `dependencies.py`, `debug_jwt.py`, `debug_auth.py` and the graph wiring in `orchestrator_graph.py` are not modelled. They hold only framework glue or diagnostics.
- `App.tsx`, `Home.tsx`, `NotFound.tsx` and `VerifyEmail.tsx` hold only routing tables and markup, so they are not modelled. JSX markup, styling, toasts, scrolling and ReactMarkdown are not modelled either.
- The markdown-to-HTML regular-expression rewrites of the marketing mail are a `rewrite` parameter. Only the HTML-escaping order and the line-break property are modelled, not the fixed HTML template around the body.
- Asynchronous scheduling and effect order are not modelled. A `setTimeout` is a `Scheduled` record, the resend countdown interval is a `Tick` method, and a chat send is split into `BeginSend` and `CompleteSend`.
- Unicode is simplified. `\d`, `\s`, `str.lower`, `str.upper` and `isdigit` are modelled on ASCII and Python's white space only. JavaScript's `substring` and `.length` count UTF-16 code units, while the model counts Unicode scalar values. So the length checks of Signup.jsx:43 and :107-108, ResetPassword.jsx:47 and :52 and ForgotPassword.tsx:47 can differ from the model's: three emoji outside the Basic Multilingual Plane have length 6 in JavaScript and 3 here.
- AccountService.MarkUsed: marks the chosen reset row by its position, while the source updates every row with that row's id; the two agree only while reset ids are unique, which the model assumes.
- Percent escapes of bytes 0x80 and above, which form multi-byte UTF-8 sequences, are not decoded as the browser does. `Uri.FormDecode` reads each such escape as U+FFFD, while `URLSearchParams` decodes a valid UTF-8 sequence to its character. `Uri.DecodeUriComponent` treats every such escape as a `URIError`, while ECMAScript throws only on invalid UTF-8: "%C3%A9" decodes to "é" in the browser and fails in the model; a lone "%E9" fails in both.
- The legacy `authService.js` request wrappers that only pass a request through to axios (lines 11-22, 30-40, 76-85 and 95-107) are not modelled. `getToken` is the stored `token` field itself.
- The dashboard's `handleLogout` is `AuthContext.AuthProvider.Logout` followed by navigation. Navigation is not modelled.
- `create_session`, `get_user_sessions` and `update_session_title` (`services/auth_service.py:401-436`) are not modelled, because no modelled route or page calls them.
- `utils/token.py` is not part of this model. Token creation and decoding are parameters.
- MarketingNodes.FirstCitation: states only that the citation it finds is a bracketed number at or after the given position, not that it is the leftmost one.
- MarketingNodes.RemoveCitations: states only a bound on the length of the result, not which characters remain.
- MarketingNodes.StripNumbering: states only that the result is a suffix of its input.
- AccountService.AuthService.GetLastSession: states only which sources the answer can come from; the function `LastSession` it returns states the full choice.
- AuthRoutes.GoogleCallback: states the success redirect only through the existence of the user it was built for.
- Uri.DecodeUriComponent: states only a length bound and, in a lemma, the rejection of a `%` that is not followed by two hex digits.
- Uri.FormDecode: states only a length bound directly. `Uri.FormDecodeQuote` states the round trip with `Quote`.

## Findings

| source | as written | input that shows it | evidently intended | confidence | as-written member | corrected member |
|---|---|---|---|---|---|---|
| front-end/src/components/auth/ForgotPassword.jsx:37-38 | The failure branch calls `setServerError`, which the component never declares. The handler throws inside its own `catch`, and a failed request shows no message. | Any forgot-password request that fails | Show the error's message, or "Failed to send reset link. Please try again." | not executed | ForgotPasswordForm.Form.HandleSubmitAsWritten | ForgotPasswordForm.Form.HandleSubmit |
| unified_api_frontend_v2/src/pages/auth/OAuthCallback.tsx:25 | `decodeURIComponent` is applied to a value that `URLSearchParams` has already decoded. The same happens in `front-end/src/components/auth/GoogleCallback.jsx:16`. | A Google user whose full name is "50% off": the decoded JSON holds a `%` followed by a space, the second decoding throws, and the user is sent back to the login page | Decode the `user` parameter once | not executed | EndToEnd.EscapedNameCannotSignIn | EndToEnd.CallbackLogsIn |
| unified_api/agent_src/marketing_agent/marketing_nodes.py:267-278 | The reply is tested for "SATISFIED" before "DISSATISFIED". "DISSATISFIED" contains "SATISFIED", so the pivot branch is unreachable. | The model's reply "DISSATISFIED" | A dissatisfied reply leads to a pivot | not executed | MarketingNodes.AsWrittenSatisfiesDissatisfied | MarketingNodes.CheckSatisfaction |
| unified_api/routes/auth.py:136-163 | The `HTTPException(400)` raised when no user can be created is caught by the enclosing `except Exception` and re-raised as a 500. | `get_or_create_google_user` returns `None` | Answer 400 "Failed to login with Google" | not executed | AuthRoutes.CallbackReplyAsWritten (see AuthRoutes.MissingUserStatus) | AuthRoutes.CallbackReply |
