# shotweavep — a Dafny model of the session, dashboard and server core

ShotWeave is a film-production console. A React client handles login, signup and a
persisted session, and dispatches the signed-in user to one of four role dashboards:
Producer/CEO, Line Producer, 1st AD/Unit Manager and VFX Supervisor/Director. A Flask server stores users and vendors
in MongoDB, runs a script breakdown and predicts a production risk score. The repository
holds two builds of each half: the current one under `src/client` and `src/server`, and
an older one under `client` and `server`. This project models both builds of both halves.

The model is pure and functional. Each browser effect becomes a value:

- `localStorage` is an optional string slot.
- Navigation is a route.
- A `fetch` is an outgoing request plus the reply the component is handed.

A server handler takes the JSON body as a map and the answer its collaborator
(`register_user`, `find_user`, the script analysis, `get_lvr_data` or the risk
predictor) gave. It returns the HTTP status and the JSON body, and says whether it
called the collaborator at all. The data-layer functions take the database as a value
and return their answer with the database as they leave it. Collaborators the code
cannot see are parameters: the NLP entity extractor, the regression model, `random`,
`float()` and database driver faults.

Modules:

- `Common`: tones and the `Result`/`Option` wrappers.
- `Text`, `Numerals`, `StringOrder`: string facts, JavaScript `parseInt` and integer
  rendering, and Python's `sorted`/`set` on strings.
- `Users`, `Codec`: the user record, and the JSON text the session slot holds.
- `Session`, `LegacySession`: the current and older `App.tsx` (session lifecycle, role
  dispatch, route guards).
- `Forms`, `LoginPage`, `SignupPage`, `Profile`: the shared form update and the pages.
- `LineProducer`, `Vendors`, `Creative`, `Executor`, `Producer`: the four dashboards.
- `Registry`, `LegacyRegistry`: the two `db.py` files.
- `ScriptBreakdown`, `Risk`: the two `ai_service.py` files.
- `ServerApi`, `LegacyServer`: the two `app.py` files.
- `Flows`: end-to-end scenarios that compose client and server (signup, then login, then
  dashboard; the first vendor load). They pair the current server and the current
  `src/client/src/App.tsx` with the older login page, `client/src/pages/Login.tsx`.
  The current client's login page, `src/client/src/pages/Login.tsx`, is not modelled;
  the older one stands in for it.

Two behaviours of the session code are worth stating up front:

- The current `App.tsx` keeps a restored user whose role is none of the four, and its
  dispatcher then redirects that user to `/login` (`Session.RestoreKeepsUnknownRole`,
  `Flows.UnknownRoleIsStranded`).
- The current client removes a session slot that does not parse. The older
  `client/src/App.tsx` calls `JSON.parse` unguarded, so its start-up fails
  (`LegacySession.CorruptSlotCrashes`).

## Model

| member | source | states |
|---|---|---|
| Users.RoleNameRoundTrip | src/client/src/App.tsx:56-70 | each of the four role names the dispatcher matches names exactly one role, and reading back a role's name gives that role |
| Users.PublicView | src/server/src/app.py:33-37 | the user object login returns carries the stored account's name, email, username and role, and no password |
| Users.AppendKeepsUnique | src/server/src/db.py:48-56 | inserting an account whose username and email are both unused keeps every username and every email in the collection unique |
| Codec.Serialize | src/client/src/App.tsx:51 | the slot text is an object that opens with the email key, the first of the keys in the sorted order the login reply carries, and ends with a closing brace |
| Codec.Parse | src/client/src/App.tsx:40 | a text is read as a user only if it opens with the email key |
| Codec.ParseSerialize | src/client/src/App.tsx:36-51 | the user written to the session slot at login is read back unchanged on the next start-up |
| Codec.MalformedIsRejected | src/client/src/App.tsx:38-45 | an empty text and a lone brace do not parse as a user; a lone brace in the slot therefore takes restore's clean-up branch, while an empty slot never reaches the parse, because the `if (savedUser)` test skips it |
| Session.Mount | src/client/src/App.tsx:24 | the app mounts with nobody signed in and the slot as an earlier visit left it |
| Session.Logout | src/client/src/App.tsx:27-32 | logout forgets the user and removes the slot |
| Session.HandleLogin | src/client/src/App.tsx:49-52 | login makes the user current and writes exactly that user into the session slot |
| Session.Restore | src/client/src/App.tsx:35-47 | an absent or empty slot changes nothing; a non-empty slot that parses makes that user current and keeps the slot; a non-empty slot that does not parse is removed and nobody is signed in |
| Session.Boot | src/client/src/App.tsx:24-47 | a fresh start signs in the user a non-empty slot parses to, and nobody otherwise; the slot is kept unless it is non-empty and fails to parse |
| Session.Route | src/client/src/App.tsx:74-101 | dashboard and profile redirect to /login when nobody is signed in; a signed-in user gets the dashboard for the stored role and the profile page; an unknown path redirects to /dashboard or to the landing page; redirects only ever go to /, /login or /dashboard |
| Session.Reload | src/client/src/App.tsx:35-88 | a reload at /dashboard or /profile ends on the login page whatever the slot holds, because the first render has no user and its redirect to /login happens before the restore effect; / and /logout and unknown paths end on the landing page |
| Session.ReloadRestoringFirst | src/client/src/App.tsx:24-47 | with the slot read before the first render, a reload at /dashboard shows the stored user's dashboard, at /profile the profile, and with no stored user redirects to /login |
| Session.ReloadAtDashboardShowsLogin | src/client/src/App.tsx:35-88 | a signed-in user who reloads /dashboard is restored but left on the login page |
| Session.ReloadRestoringFirstKeepsDashboard | src/client/src/App.tsx:24-65 | with the slot read before the first render, a user with a known role who reloads /dashboard sees that role's dashboard |
| Session.RoleDashboard | src/client/src/App.tsx:57-65 | each of the four roles the switch names is sent to one of the four dashboards, never redirected |
| Session.Dashboard | src/client/src/App.tsx:56-70 | a known role's name selects that role's dashboard, and any other string redirects to /login |
| Session.ReloadAfterLogin | src/client/src/App.tsx:35-52 | reloading the page after a login restores the same user |
| Session.LogoutIdempotent | src/client/src/App.tsx:27-32 | logout clears the user and the slot, a second logout changes nothing, and a reload after logout starts with nobody signed in |
| Session.RestoreWithoutRecord | src/client/src/App.tsx:36-46 | with no slot nobody is signed in; an empty slot is ignored and kept; a non-empty slot that does not parse signs nobody in and is removed |
| Session.RestoreKeepsUnknownRole | src/client/src/App.tsx:40-68 | a stored user whose role is none of the four is restored rather than erased; its dashboard route redirects to /login, while its profile page still renders |
| Session.MirrorKept | src/client/src/App.tsx:27-52 | after login, logout or start-up, whenever a user is signed in the slot holds text that parses back to that user |
| Session.DispatchIsTotal | src/client/src/App.tsx:56-70 | a role's name dispatches to that role's dashboard, different roles get different dashboards, and a role string is redirected exactly when it names none of the four |
| Session.GuardedRoutes | src/client/src/App.tsx:81-98 | dashboard and profile redirect to /login when nobody is signed in; a signed-in user sees the profile, and one with a known role is not redirected away from the dashboard |
| Session.CatchAll | src/client/src/App.tsx:101 | a path the router does not name redirects to /dashboard for a signed-in user and to the landing page otherwise |
| LegacySession.Boot | client/src/App.tsx:28-33 | the older start-up crashes exactly when the slot is non-empty and does not parse; otherwise it signs in the user a non-empty slot parses to and leaves the slot as it was |
| LegacySession.Route | client/src/App.tsx:40-61 | the older dashboard and profile redirect to /login when nobody is signed in, a signed-in user gets the dashboard for the stored role and the profile page; /, /signup and /login render their pages, /logout redirects to /, and an unknown path renders nothing |
| LegacySession.Restore | client/src/App.tsx:28-33 | the older start-up crashes exactly when the slot is non-empty and does not parse, because its JSON.parse is unguarded; when it starts, the slot is left as it was |
| LegacySession.Dashboard | client/src/App.tsx:53 | the older dashboard route shows the producer dashboard exactly for "Producer/CEO" and the line-producer dashboard for every other role |
| LegacySession.ReloadAfterLogin | client/src/App.tsx:28-38 | reloading after a login restores the same user |
| LegacySession.ReloadAfterLogout | client/src/App.tsx:22-33 | a reload after logout starts with nobody signed in, and the dashboard and profile then redirect to /login |
| LegacySession.CorruptSlotCrashes | client/src/App.tsx:28-33 | a non-empty slot that does not parse crashes the older start-up, while the current start-up recovers with nobody signed in |
| LegacySession.BinaryDispatch | client/src/App.tsx:49-56 | every role other than Producer/CEO, unknown strings included, reaches the line-producer dashboard, where the current client sends an unknown role back to /login |
| LegacySession.NoCatchAll | client/src/App.tsx:40-61 | a path the older router does not name renders nothing and redirects nowhere |
| Forms.Update | src/client/src/pages/Signup.tsx:36-38 | a change event sets the named field to the typed value and leaves every other field as it was |
| Forms.MessageTone | src/client/src/pages/Signup.tsx:136 | the status line is drawn red or green and in no other colour |
| Forms.RedAround | client/src/pages/Login.tsx:109 | a message containing "Failed" or "error" is drawn red, whatever surrounds the word |
| Forms.GreenWithout | client/src/pages/Login.tsx:109 | a message with no capital F and no doubled r contains neither failure word and is drawn green |
| LoginPage.HandleChange | client/src/pages/Login.tsx:23-25 | a change event sets the named input to the typed value and leaves the other inputs as they were |
| LoginPage.Submit | client/src/pages/Login.tsx:27-51 | the form is posted as typed; the user is signed in exactly when the server accepts, and only then does the page move on to /dashboard; the status line reads "Login successful. Redirecting to dashboard..." on success, "Login Failed: " followed by the server's message on a refusal, and "Network error. Check if the Flask server is running on port 5000." when the request fails |
| LoginPage.SuccessMessageIsGreen | client/src/pages/Login.tsx:43 | the success message is drawn green |
| LoginPage.OutcomeTone | client/src/pages/Login.tsx:40-50 | the status line after a submission is green exactly when the login succeeded |
| LoginPage.ChangeTouchesOneField | client/src/pages/Login.tsx:19-25 | typing into the username or password input changes only that field |
| SignupPage.InitialFormShape | src/client/src/pages/Signup.tsx:25-32 | the form starts with empty name, email, username and password, and with the role "Producer/CEO", the first option offered |
| SignupPage.HandleChange | src/client/src/pages/Signup.tsx:36-38 | a change event sets the named field to the typed value and leaves every other field as it was |
| SignupPage.Submit | src/client/src/pages/Signup.tsx:40-65 | the form is posted as typed; the page moves on to /login exactly when the account was created; the status line is the server's message followed by " Redirecting to login..." on creation, "Signup Failed: " followed by the server's message on a refusal, and "Network error. Check server status." when the request fails |
| SignupPage.RoleOptionsAreDispatched | src/client/src/pages/Signup.tsx:111-118 | a role string is one the form offers exactly when the dispatcher has a dashboard for it |
| SignupPage.OutcomeTone | src/client/src/pages/Signup.tsx:136 | refusals and network errors are drawn red; a success is green when the server's message has no capital F and no doubled r |
| Profile.RoleTone | src/client/src/pages/Profile.tsx:35-48 | each of the four role names has its own badge colour, and every other name gets the gray fallback |
| Profile.KnownTonesDistinct | src/client/src/pages/Profile.tsx:36-47 | the four roles get four different badge colours, none of them the fallback |
| Profile.ColouredIffDispatched | src/client/src/pages/Profile.tsx:35-48 | a role name gets a non-fallback badge exactly when the dispatcher has a dashboard for it |
| Profile.ToneOfRoleName | src/client/src/pages/Profile.tsx:37-44 | each role's own name gets that role's badge colour |
| LineProducer.EditScript | src/client/src/pages/LineProducerDashboard.tsx:80 | editing the script changes only the script text |
| LineProducer.HandleScriptUpload | src/client/src/pages/LineProducerDashboard.tsx:20-41 | a request is sent exactly when the script is non-empty; a breakdown reply replaces the shown breakdown; a failure or network error keeps the old breakdown and shows its own message |
| LineProducer.LoadLvr | src/client/src/pages/LineProducerDashboard.tsx:44-59 | a successful load replaces the list with the vendors ranked by descending score, the same vendors as sent; a failure keeps the old list and shows its message |
| LineProducer.ScoreTone | src/client/src/pages/LineProducerDashboard.tsx:122 | a score above 90 is green and any other score yellow |
| LineProducer.KeyLocations | src/client/src/pages/LineProducerDashboard.tsx:94 | the panel lists a prefix of the locations: the first three, or all of them when there are fewer |
| LineProducer.MoreLocations | src/client/src/pages/LineProducerDashboard.tsx:94 | the "more" counter is the number of locations minus three, so with the listed locations it makes up the total, and fewer than three locations give a negative counter |
| LineProducer.PanelCountsAllLocations | src/client/src/pages/LineProducerDashboard.tsx:94 | with at least three locations, the listed ones and the counted rest make up the whole list |
| LineProducer.FewLocationsShowNegativeCount | src/client/src/pages/LineProducerDashboard.tsx:94 | with fewer than three locations all are listed and the "more" counter is the number of locations minus three, which is negative |
| LineProducer.MockBreakdownCountIsPositive | server/src/ai_service.py:53-58 | the mock breakdown always leaves a "more" counter of at least two |
| LineProducer.EmptyScriptSendsNothing | src/client/src/pages/LineProducerDashboard.tsx:21 | an empty script sends no request and only sets the prompt message |
| LineProducer.PanelAfterUpload | src/client/src/pages/LineProducerDashboard.tsx:32-40 | the breakdown panel is shown after an upload exactly when it was shown before or the upload just succeeded |
| LineProducer.SeedTable | src/server/src/db.py:34-39 | the four seed vendors are listed as 95, 92, 85, 78, coloured green, green, yellow, yellow |
| LineProducer.ReloadIsStable | src/client/src/pages/LineProducerDashboard.tsx:44-59 | loading the same vendor list twice gives the same page as loading it once |
| LineProducer.EmptyListHidesTable | src/client/src/pages/LineProducerDashboard.tsx:106 | a successful load of no vendors shows no table |
| Vendors.Place | src/client/src/pages/LineProducerDashboard.tsx:51 | inserting a vendor into a list ranked by descending score keeps it ranked and adds exactly that vendor |
| Vendors.RankByScore | src/client/src/pages/LineProducerDashboard.tsx:51 | sorting by descending score gives a list whose scores never increase |
| Vendors.RankingIsPermutation | src/client/src/pages/LineProducerDashboard.tsx:51 | ranking keeps every vendor the server sent, each as often as it was sent |
| Vendors.RankingIsStable | src/client/src/pages/LineProducerDashboard.tsx:51 | vendors with equal scores keep the order the server sent them in, as the stable Array.prototype.sort does |
| Vendors.SeedRanking | src/server/src/db.py:34-39 | the seed vendors, ranked, come out in the order 95, 92, 85, 78 |
| Creative.ShotsByStatus | src/client/src/pages/CreativeDashboard.tsx:70 | a column holds only shots of its own stage and never more shots than the list |
| Creative.ColumnHoldsStage | src/client/src/pages/CreativeDashboard.tsx:70 | a shot is in a stage's column exactly when it is in the shot list with that stage |
| Creative.ColumnIsOrdered | src/client/src/pages/CreativeDashboard.tsx:70 | a column keeps the shots in shot-list order |
| Creative.Board | src/client/src/pages/CreativeDashboard.tsx:102-125 | the board has four columns, the i-th holding only shots of the i-th stage in workflow order |
| Creative.BoardPartitions | src/client/src/pages/CreativeDashboard.tsx:102-125 | the four columns together hold exactly the shots of the list, each once |
| Creative.BoardTotalIsShotCount | src/client/src/pages/CreativeDashboard.tsx:102-125 | the counts in the four headers add up to the number of shots |
| Creative.Header | src/client/src/pages/CreativeDashboard.tsx:40 | a column header begins with the column title |
| Creative.HeaderShowsCount | src/client/src/pages/CreativeDashboard.tsx:40 | the number between the header's parentheses reads back as the column's shot count |
| Creative.ShowsPlaceholder | src/client/src/pages/CreativeDashboard.tsx:40-46 | a column shows "No assets in this stage." exactly when the count in its header reads zero |
| Creative.BadgeTone | src/client/src/pages/CreativeDashboard.tsx:51 | low complexity is drawn green, medium yellow and high red |
| Creative.InitialBoard | src/client/src/pages/CreativeDashboard.tsx:14-19 | each initial shot sits alone in its own stage's column, so no column shows the placeholder |
| Creative.InitialIdsDistinct | src/client/src/pages/CreativeDashboard.tsx:14-19 | the initial shots have distinct ids, so each list key is unique |
| Executor.Change | src/client/src/pages/ExecutorDashboard.tsx:80-99 | an input changes only its own report field: scenes and delay store parseInt's reading or 0, spend stores parseFloat's reading or 0, notes store the text |
| Executor.TypedCountIsReported | src/client/src/pages/ExecutorDashboard.tsx:80 | typing the decimal digits of a count stores that count |
| Executor.GarbageCountWarns | src/client/src/pages/ExecutorDashboard.tsx:80 | a scene count typed with no digits is stored as 0 and the confirmation is drawn orange |
| Executor.StatusWord | src/client/src/pages/ExecutorDashboard.tsx:32 | the confirmation says SUCCESS for a positive scene count and WARNING otherwise |
| Executor.Confirmation | src/client/src/pages/ExecutorDashboard.tsx:33 | the confirmation is the bracketed status word and the fixed text, then the submitted scene count, which reads back as itself, then the fixed tail |
| Executor.Submit | src/client/src/pages/ExecutorDashboard.tsx:25-36 | submitting shows the confirmation for the reported scene count and resets the report |
| Executor.SubmittingIsGray | src/client/src/pages/ExecutorDashboard.tsx:27 | the "submitting" message is drawn gray |
| Executor.SubmitResets | src/client/src/pages/ExecutorDashboard.tsx:34 | a submission made after the confirmation appears starts from the cleared report and reports zero scenes |
| Executor.ConfirmationDeterminesCount | src/client/src/pages/ExecutorDashboard.tsx:33 | two confirmations are equal only if they report the same scene count |
| Executor.ConfirmationTone | src/client/src/pages/ExecutorDashboard.tsx:32-33 | a SUCCESS confirmation is drawn green and a WARNING confirmation orange |
| Executor.DprTone | src/client/src/pages/ExecutorDashboard.tsx:106 | the status line is drawn green, orange or gray |
| Executor.GreenAround | src/client/src/pages/ExecutorDashboard.tsx:106 | a message containing "SUCCESS" is drawn green |
| Executor.OrangeAround | src/client/src/pages/ExecutorDashboard.tsx:106 | a message containing "WARNING" and no C is drawn orange |
| Executor.GrayWithout | src/client/src/pages/ExecutorDashboard.tsx:106 | a message with no C and no W is drawn gray |
| Producer.HandleChange | src/client/src/pages/ProducerDashboard.tsx:20-22 | a change event stores parseFloat's reading, possibly NaN, into the named input, and leaves the result and message alone |
| Producer.ChangeTouchesOneInput | src/client/src/pages/ProducerDashboard.tsx:12-22 | editing one of the three inputs never alters the other two |
| Producer.GetColor | src/client/src/pages/ProducerDashboard.tsx:24-28 | "RED" is drawn red, "YELLOW" yellow, and every other status green |
| Producer.StatusColours | src/client/src/pages/ProducerDashboard.tsx:24-28 | the statuses the server sends map to red, yellow and green, and "Error" also to green |
| Producer.ErrorDrawnGreen | src/client/src/pages/ProducerDashboard.tsx:93-108 | an input that float() rejects with a ValueError (a non-numeric string, which this page never sends) or a failed prediction comes back as an "Error" result, which the panel draws green |
| Producer.CastOfBody | src/server/src/ai_service.py:47-51 | the numbers this page sends always cast; a NaN input, sent as null, makes float() raise a TypeError, which the predictor does not catch; the page never produces the ValueError case |
| Producer.AsRiskReply | src/client/src/pages/ProducerDashboard.tsx:38-47 | the page sees an assessment exactly when the body carries one, and a failure with the server's message |
| Producer.EmptiedInputFails | src/server/src/app.py:61-77 | a cleared input reaches the route as null; the uncaught TypeError is answered 500 with its text, and the page shows "Risk analysis failed: " with that text and keeps the panel it had |
| Producer.RunRiskMeter | src/client/src/pages/ProducerDashboard.tsx:30-49 | the form is posted as typed; an assessment replaces the shown one; a refusal, including the 500 an emptied input causes, or a network error keeps the old assessment and shows its message |
| Producer.PanelAfterRun | src/client/src/pages/ProducerDashboard.tsx:86-111 | the risk panel is shown after a run exactly when it was shown before or the run just succeeded |
| Producer.RedMeansAbove80 | src/server/src/ai_service.py:61-69 | the panel is red exactly when the prediction was above 80 |
| Registry.Hash | src/server/src/db.py:52-53 | the stored password is never the plaintext one, and it has bcrypt's digest form |
| Registry.CheckPw | src/server/src/db.py:69 | a stored value not of bcrypt's digest form raises "Invalid salt", and only such a value raises; the digest made from a password accepts it, and a stored plaintext password is never accepted |
| Registry.CheckPwAcceptsOnlyItsPassword | src/server/src/db.py:69 | a hash accepts the password it was made from and rejects, without raising, every other |
| Registry.Register | src/server/src/db.py:43-62 | registration succeeds exactly when the store is online, no fault strikes, and neither the username nor the email is taken; success appends one account with the hashed password; every refusal leaves the store unchanged and names its cause |
| Registry.FirstByUsername | src/server/src/db.py:68 | the lookup finds a stored account with that username, and finds none exactly when no account has it |
| Registry.FindUser | src/server/src/db.py:64-81 | login succeeds exactly when online, fault-free, and the account found by username accepts the password; it returns that account's public fields; a stored password not of bcrypt's form makes `checkpw` raise, answered "Login failed: Invalid salt"; "Invalid username or password." comes exactly for an unknown username or a password the digest rejects |
| Registry.GetLvrData | src/server/src/db.py:85-101 | the vendor list is never empty: an empty collection is seeded and then served without `_id`; an offline or faulted read serves `MOCK_VENDORS` without touching the store; seeding stamps `MOCK_VENDORS` with an `_id` for the rest of the process, and the fallback list is stamped exactly when it is served after such a seed |
| Registry.GetLvrDataCopying | src/server/src/db.py:85-101 | seeding from a copy serves the same lists and leaves the same store, but never stamps `MOCK_VENDORS` |
| Registry.RegisterKeepsUnique | src/server/src/db.py:48-57 | registration keeps usernames and emails unique across the collection |
| Registry.RegisterThenFind | src/server/src/db.py:43-81 | after a successful registration, logging in with the same username and password returns the new account |
| Registry.WrongPasswordRefused | src/server/src/db.py:69-76 | a password other than the registered one is refused with the invalid-credentials message |
| Registry.UnknownUsernameRefused | src/server/src/db.py:68-76 | a username nobody registered is refused with the invalid-credentials message |
| Registry.SecondRegistrationRefused | src/server/src/db.py:48-49 | registering the same username twice is refused the second time and leaves the store as the first registration left it |
| Registry.SeedingIsIdempotent | src/server/src/db.py:90-95 | a read after the first read neither seeds again nor changes the store or the served list |
| Registry.EmptyDatabaseServesSeed | src/server/src/db.py:90-95 | on an empty vendor collection the first read seeds the four mock vendors, serves them, and leaves `MOCK_VENDORS` stamped |
| LegacyRegistry.Answer | server/src/app.py:21-58 | a route gets the data layer's answer when the call returned, and the escaping exception's message when it raised |
| LegacyRegistry.Register | server/src/db.py:24-35 | the older registry refuses when offline or when the username or email is taken, and otherwise appends the account with its password in plaintext; a driver error online escapes as an exception |
| LegacyRegistry.FirstMatch | server/src/db.py:42 | the lookup finds an account whose username and password both match, and none exactly when no account matches both |
| LegacyRegistry.FindUser | server/src/db.py:37-47 | older login succeeds exactly when a stored account has that username and password, and returns that whole account; a driver error online escapes as an exception |
| LegacyRegistry.GetLvrData | server/src/db.py:51-69 | online, an empty collection is seeded and the stored list, never empty, is served; offline, nothing is served; a driver error online escapes as an exception |
| LegacyRegistry.RegisterKeepsUnique | server/src/db.py:28-34 | registration that returns keeps usernames and emails unique |
| LegacyRegistry.RegisterThenFind | server/src/db.py:24-46 | a registered account is found again with the same username and password |
| LegacyRegistry.OfflineVendorsDiffer | server/src/db.py:66-69 | offline, the older registry serves no vendors while the current one serves the four mock vendors |
| LegacyRegistry.PlainTextAccountRaises | src/server/src/db.py:64-80 | an account the older server stored, password in plain text, is refused by the current server with "Login failed: Invalid salt", since both use the `shotweave` database |
| LegacyRegistry.OnlineVendorsAgree | server/src/db.py:54-68 | online and without a driver error, both registries serve the same vendor list; with one, the older registry raises while the current one falls back to `MOCK_VENDORS`, stamped if the process has seeded |
| ScriptBreakdown.PlaceTexts | server/src/ai_service.py:45-47 | the location list is built from exactly the place entities the extractor found |
| ScriptBreakdown.PersonTexts | server/src/ai_service.py:48-49 | the character list is built from exactly the person entities the extractor found |
| ScriptBreakdown.Numbered | server/src/ai_service.py:57-58 | the mock makes exactly as many names as it drew |
| ScriptBreakdown.NumberedDistinct | server/src/ai_service.py:57-58 | the numbered mock names are pairwise distinct |
| ScriptBreakdown.Complexity | server/src/ai_service.py:62 | the complexity score is 5 per location plus 3 per character, capped at 100 |
| ScriptBreakdown.Analyse | server/src/ai_service.py:39-71 | locations and characters come back sorted without duplicates; with the NER model they are exactly the place and person entities found, and each count exceeds its list by the random draw; without it they are the numbered names "Location 1"... and "Character 1"..., as many as drawn (5 to 15 and 10 to 30), sorted; the complexity score is min(100, 5 × location count + 3 × character count), so it never exceeds 100; the shoot-day estimate is passed through unchanged |
| StringOrder.Dedup | server/src/ai_service.py:43-49 | set() keeps each found name once and loses none |
| StringOrder.Sort | server/src/ai_service.py:69-70 | sorted() returns the same names, each as often, in ascending order |
| StringOrder.SortedSet | server/src/ai_service.py:69-70 | sorted(set(...)) is strictly ascending and holds exactly the names found |
| Risk.Classify | src/server/src/ai_service.py:61-69 | a score above 80 is RED, above 50 YELLOW, and anything else GREEN |
| Risk.Advice | src/server/src/ai_service.py:61-69 | red advice calls for executive intervention, yellow advice begins with a caution, green advice says the project is on track |
| Risk.Clamp | src/server/src/ai_service.py:58 | the score is the prediction clamped into 0..100 |
| Risk.Assess | src/server/src/ai_service.py:57-75 | the score lies in 0..100; the status is RED exactly above 80, YELLOW exactly from 51 to 80, GREEN otherwise, with the advice for that status |
| Risk.Predict | src/server/src/ai_service.py:44-77 | a ValueError in the casts, or a failing prediction, gives an "Error" result with score 0; another exception in the casts propagates; otherwise the prediction is assessed |
| Risk.LegacyPredict | server/src/ai_service.py:75-104 | the older predictor catches only the ValueError in the casts, so a failing prediction propagates |
| Risk.AssessMonotone | src/server/src/ai_service.py:58-69 | a higher prediction never gets a lower score or a milder status |
| Risk.Thresholds | server/src/ai_service.py:88-98 | scores 80 and 50 fall in the milder band, 81 and 51 in the harsher one, and out-of-range predictions clamp to 0 and 100 |
| Risk.AdviceDistinct | src/server/src/ai_service.py:61-69 | the three statuses carry three different names and three different advice texts |
| Risk.VersionsAgreeOnSuccess | server/src/ai_service.py:84-104 | when the prediction succeeds, both predictors return the same assessment |
| ServerApi.Get | src/server/src/app.py:30 | reading a missing key gives None, and a present key its value, as dict.get does |
| ServerApi.Signup | src/server/src/app.py:12-24 | the registry is consulted exactly when all five fields are present; a missing field gives 400, a registration 201, and a refusal 409 with the registry's message; the reply reports success exactly with 201 |
| ServerApi.Login | src/server/src/app.py:26-39 | the registry is consulted exactly when username and password are both truthy; otherwise 400; a found user gives 200 with that user, and a failed lookup 401 with its message |
| ServerApi.Breakdown | src/server/src/app.py:43-51 | the analysis runs exactly when the script text is truthy; an empty script gives 400; a result gives 200; an exception becomes a 500 |
| ServerApi.Lvr | src/server/src/app.py:53-57 | the vendor route answers 200 with the vendors the registry served, unless they carry an ObjectId `_id`, which `jsonify` cannot encode, and then Flask answers 500 |
| ServerApi.RiskMeter | src/server/src/app.py:61-77 | the predictor runs exactly when all three inputs are present; otherwise 400; a result gives 200 and an exception 500 with its text |
| ServerApi.SubmitDpr | src/server/src/app.py:82-93 | a report is accepted with 200 exactly when scenes, spend and delay are all present, and refused with 400 otherwise |
| ServerApi.UpdateAsset | src/server/src/app.py:99-110 | an update is accepted with 200 exactly when the asset id and new status are present, and its reply names both; otherwise 400 |
| ServerApi.AssetMessageNamesBoth | src/server/src/app.py:110 | the success message contains both the shot id and the new status |
| ServerApi.EmptyPasswordPassesSignupOnly | src/server/src/app.py:16-31 | an empty password satisfies signup, which asks only that the key be present, but login, which asks for a truthy value, refuses it with 400 |
| ServerApi.LoginReturnsFoundUser | src/server/src/app.py:33-37 | a successful login returns the username, email and role of the account the registry found |
| ServerApi.DprNotesOptional | src/server/src/app.py:87-89 | a report is accepted with or without notes |
| ServerApi.RiskMeterAnswers | src/server/src/app.py:69-75 | a complete risk request answers 200 whenever the casts raise nothing but a ValueError, whatever the model does |
| LegacyServer.Signup | server/src/app.py:13-25 | the older signup handler answers as the current one, except that an exception from the registry is answered by Flask with a 500 |
| LegacyServer.Login | server/src/app.py:27-40 | the older login runs the registry exactly when username and password are truthy, and on success returns only the public fields of the matched account, never its password; an exception from the registry is a 500 |
| LegacyServer.Lvr | server/src/app.py:54-58 | the older vendor route answers 200 with what the registry served, and 500 when the registry raised |
| LegacyServer.SignupOverLegacyRegistry | server/src/app.py:13-25 | a complete signup over the older registry answers 201 exactly when online, without a driver error, with the username and email free; 409 with the registry's message when offline or taken; 500 on a driver error |
| LegacyServer.DriverFaultUncaught | server/src/db.py:24-35 | a driver error during signup is a 500 from the older server, while the current server answers 409 with "Registration failed: " and the error |
| LegacyServer.SignupThenLoginOverLegacyRegistry | server/src/app.py:31-38 | after signing up, logging in with the same credentials answers 200 with that user's public fields |
| LegacyServer.LvrAnswers | server/src/app.py:54-58 | the older vendor route answers 200 unless the driver fails online, even when offline, with an empty list; a driver error is a 500 |
| LegacyServer.BreakdownOverLegacyAnalysis | server/src/app.py:44-52 | a non-empty script is answered 200 with the older analysis, whose complexity never exceeds 100 |
| LegacyServer.RiskMeterOverLegacyPredictor | server/src/app.py:62-78 | over the older predictor, a failing prediction becomes a 500, an invalid input a 200 "Error" result, and a prediction its assessment with 200 |
| Numerals.ParseInt | src/client/src/pages/ExecutorDashboard.tsx:80 | parseInt yields a number exactly when a digit follows the leading white space and an optional sign, and a negative number only after a minus sign |
| Numerals.ParseIntOrZero | src/client/src/pages/ExecutorDashboard.tsx:80 | parseInt's reading with NaN replaced by 0 is 0 exactly when parseInt gives NaN or 0, and parseInt's number otherwise |
| Numerals.ParseIntOfIntString | src/client/src/pages/ExecutorDashboard.tsx:80 | parseInt reads back the decimal rendering of any integer |
| Numerals.IntStringInjective | src/client/src/pages/ExecutorDashboard.tsx:33 | different integers render as different decimal strings |
| Numerals.NoDigitsReadsAsZero | src/client/src/pages/ExecutorDashboard.tsx:92 | text without a digit makes parseInt return NaN, which the page's fallback turns into 0 |
| Flows.RequestOf | src/client/src/pages/Signup.tsx:48 | the posted body holds exactly the form's fields, each with its typed text |
| Flows.AsSignupReply | src/client/src/pages/Signup.tsx:51-64 | the page sees a creation exactly when the server's body reports success, and a refusal with the server's message otherwise |
| Flows.AsLoginReply | client/src/pages/Login.tsx:38-50 | the page sees an acceptance exactly when the body carries a user, with that user, and a refusal with the server's message otherwise |
| Flows.AsVendorReply | src/client/src/pages/LineProducerDashboard.tsx:48-58 | the dashboard sees a successful load exactly when the body carries a vendor list, with those vendors |
| Flows.CompleteFormHasSignupFields | src/server/src/app.py:16-17 | a form the signup page sends always carries the five fields the server requires |
| Flows.SignupAccepted | src/client/src/pages/Signup.tsx:44-56 | signing up with a fresh username and email against an online store leads the page on to /login |
| Flows.LoginAfterSignup | client/src/pages/Login.tsx:31-44 | logging in with the credentials just signed up with signs in that account's public user |
| Flows.SignedInLandsOnDashboard | src/client/src/App.tsx:35-88 | a user signed in with a known role lands on that role's dashboard; a reload of /dashboard restores the user but ends on the login page; once the restore has run, a visit to /dashboard shows that role's dashboard |
| Flows.SignupLoginDashboard | src/client/src/App.tsx:35-88 | signing up with one of the four roles, then logging in on the older login page, shows that role's dashboard; a reload of /dashboard then ends on the login page with the user restored, and a later visit to /dashboard shows the dashboard |
| Flows.UnknownRoleIsStranded | src/client/src/App.tsx:66-68 | an account registered with an unknown role logs in, but its dashboard route redirects to /login and its profile badge is gray |
| Flows.DuplicateSignupIsRed | src/client/src/pages/Signup.tsx:57-59 | signing up again with the same form is refused as already existing, and the refusal is drawn red |
| Flows.FirstVendorLoad | src/client/src/pages/LineProducerDashboard.tsx:44-52 | the first load against an empty vendor collection succeeds and shows the seed vendors as 95, 92, 85, 78 |
| Flows.VendorRouteFails | src/server/src/app.py:53-57 | the current vendor route answers 500 exactly when `get_lvr_data` falls back to `MOCK_VENDORS` after the process has seeded, and otherwise 200 with the vendors served |
| Flows.SeededFallbackFails | src/server/src/db.py:85-101 | after the start-up call seeds an empty collection, a later driver error makes the vendor route answer 500, though the fallback list holds the four mock vendors |
| Flows.CopyingFallbackServes | src/server/src/db.py:85-101 | seeding from a copy, the same start-up and driver error give 200 with the four mock vendors |
| Flows.CopyingAlwaysAnswers | src/server/src/db.py:85-101 | seeding from a copy, a process that starts unstamped stays so, and every vendor request answers 200 with the list read |

## Left out

- Rendering and effects are not modelled: React rendering, styling, animations, `fetch`
  and its asynchrony, and timers. A component step takes the reply it is handed; the
  login page's delayed navigation is its next route. The order of the first render and
  the restore effect is modelled only for a reload (`Session.Reload`).
- `Session.Dashboard`: routes are compared as exact strings. React Router's
  case-insensitive, trailing-slash-tolerant matching is not modelled.
- `Codec.ParseSerialize`: the session slot is modelled with a fixed JSON layout: the keys
  email, name, role, username in that order, with quote and backslash escapes. This is
  the order `JSON.stringify` writes them in for a user taken from the login reply,
  because Flask's `jsonify` sorts keys. A user object whose keys arrive in another order
  is not modelled.
  `JSON.parse` also accepts other layouts, whitespace, `\u` escapes and non-object values
  (`42`, `null`). The model rejects those, so a hand-edited slot holding such text
  counts as corrupt here, though the browser would accept it.
- `Numerals.ParseIntOfIntString`: the integer reading does not model `parseInt`'s
  hexadecimal `0x` prefix, Unicode whitespace beyond ASCII, or the loss of precision
  beyond 2^53.
- `Executor.Change`: the daily spend comes from `parseFloat`. The number it reads, or its
  failure, is an input. The report's rendering of large numbers in exponent form is not
  modelled.
- `Producer.HandleChange`: `parseFloat` is an input in the same way. The inputs are
  reals, so floating-point rounding is not modelled.
- `Risk.Predict`: the regression model, the `float()` casts and Python's `int()`
  truncation of the prediction are inputs. The model starts from the integer prediction,
  or from the exception either step raised.
- `ScriptBreakdown.Analyse`: the NER entities and the shoot-day estimate come from the
  extractor and are inputs. The estimate's floating-point formula is not modelled.
- `Registry.Hash`: bcrypt is a stand-in: an injective function, verified by comparing
  hashes. Salting, the 72-byte input limit and one-wayness are not modelled.
- `Registry.Register`: a MongoDB driver fault is assumed to strike before any write. A
  failure halfway through `insert_one`, `insert_many` or a `find` is not modelled. The
  `user_id` field and any extra request keys that registration would store are not
  modelled.
- `Registry.GetLvrData`: the connection retry loop in `connect_to_mongo` is not modelled.
  The store is either offline or online. A driver error is taken to strike at the first
  driver call, before `insert_many` runs. An `insert_many` that fails after stamping the
  mock dicts would make the fallback fail on that very call; that case is not modelled.
- `Registry.CheckPw`: bcrypt's digest format is a stand-in: a digest is well formed when
  it opens with `$2b$`. Other errors `checkpw` can raise are not modelled.
- `ServerApi.Signup`: request bodies are maps from keys to text, integers, booleans or
  null. Non-object bodies, missing bodies, list or dict values, and floating-point
  numbers are not modelled.
- `Forms.MessageTone`: its contract states only that the colour is red or green.
  `Forms.RedAround` and `Forms.GreenWithout` state the rule for each colour.
- `Executor.DprTone`: its contract states only the three colours.
  `Executor.GreenAround`, `Executor.OrangeAround` and `Executor.GrayWithout` state the
  rule for each colour.
- `Creative.Header`: its contract states only that the header starts with the title.
  `Creative.HeaderShowsCount` states the count.
- `ScriptBreakdown.Numbered`: its contract states only how many names are made.
  `ScriptBreakdown.NumberedDistinct` states that they differ. The exact "Location i"
  spelling is not stated.
- Console logging (`print`, `console.log`) is not modelled.
- `src/client/src/pages/LandingPage.tsx` and `client/src/pages/Profile.tsx` are not part
  of this model. They are static pages with no state.
- The current client's login page and the older client's signup and dashboard pages are
  not part of this model.
- The code has no quote-request workflow, no coalescing of concurrent vendor loads and
  no re-authentication sentinel for unknown roles, so none is modelled.
- The older server's start-up call to `get_lvr_data` (server/src/app.py:82) is not
  modelled; a driver error there stops the server before it serves anything.
- `ServerApi.Breakdown`: `src/server/src/app.py` imports `get_script_breakdown` from
  `src/server/src/ai_service.py`, but that file defines no such function, so the current
  server cannot start as written. The handler is modelled with the analysis as a
  parameter. `LegacyServer.BreakdownOverLegacyAnalysis` supplies the older file's
  analysis.

## Findings

| source | as written | input that shows it | evidently intended | confidence | as-written member | corrected member |
|---|---|---|---|---|---|---|
| src/server/src/db.py:85-101 | seeding passes the module-level `MOCK_VENDORS` dicts to `insert_many`, which writes an ObjectId `_id` into each of them; the fallback at line 98 later returns those same dicts, and `jsonify` at src/server/src/app.py:57 cannot encode them | the start-up `get_lvr_data()` (src/server/src/app.py:115) seeds an empty collection, then a vendor request meets a driver error | the fallback serves the four mock vendors with 200 | medium, not executed | Flows.SeededFallbackFails | Flows.CopyingFallbackServes |
| src/client/src/App.tsx:24-47 | the user state starts as null and the slot is read in a mount effect, which runs after the first render's `<Navigate to="/login">` on the guarded route | a signed-in user, whose JSON is in the slot, reloads /dashboard | the reload shows that user's dashboard again | medium, not executed | Session.ReloadAtDashboardShowsLogin | Session.ReloadRestoringFirstKeepsDashboard |
