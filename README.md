# Client portal core, modelled in Dafny

This project models the decision logic of a Next.js client portal. The portal shows an agency's clients, projects and tasks. It can read them from demo fixtures or from Notion databases that the user connects through OAuth. Each module mirrors one source file:

- `Common`: the string and sequence helpers the portal uses, written once. These cover `filter`, `find`, `slice`, `trim`, ASCII `toLowerCase`, `includes`, `split` and the e-mail pattern.
- `Entities`: the records and status enumerations the portal shares.
- `DummyData`: the demo fixture tables and their lookups and joins.
- `Onboarding`: the onboarding wizard.
- `AccountSetup`: the account form.
- `TeamInvitations`: the team form.
- `DatabaseConnection`: the database picker.
- `SignIn`: the demo sign-in page.
- `AuthContext`: mapping a session user to a portal user.
- `Middleware`: the route guard.
- `Http`: the responses and cookie operations that the route handlers produce.
- `NotionCallback`: the OAuth callback route.
- `ConfigureRoute`: the database-configuration route.
- `NotionOAuth`: building the authorization URL and checking a database's structure.
- `NotionData`: the property extractors.
- `Settings`: the settings page.
- `SearchRoute`: the search API, with its relevance sort.
- `SearchBox`: the keyboard navigation of the search box.
- `TableView`: the sortable task table.
- `KanbanView`: the status columns.
- `Virtualization`: the virtual-scroll window.
- `DatabaseBreadcrumb`: the breadcrumb's database badges.
- `Analytics`: the metric log.
- `LazyLoading`: the LRU cache.

The shape of each model follows its source:

- Components and classes whose state the source updates in place are `class`es. Their methods have `modifies` clauses. Examples: `Onboarding.OnboardingWizard`, `Analytics.PerformanceAnalytics`, `LazyLoading.LRUCache`, `SearchBox.SearchBoxState` and `Settings.SettingsPage`.
- Loops that push into arrays are `while` loops with invariants. Examples: the three search loops and the structure check in `NotionOAuth`.
- Pure filters, switches and joins are functions. Each such function has lemmas that relate it to an independent description of its result.

Everything outside the program is a parameter of the model:

- request parameters, cookies and the current time;
- the decoded OAuth state;
- the outcome of token exchange and connection tests;
- the replies the settings page receives from its fetches.

Numbers are mathematical integers. Metric averages are reals.

## Model

| member | source | states |
|---|---|---|
| Common.Filter | src/lib/dummy-data.ts:270-272 | `filter` keeps exactly the elements satisfying the test, in their order (a subsequence of the input) |
| Common.FilterConcat | src/app/api/search/route.ts:129-143 | filtering distributes over concatenation, so the filter keeps the order of its input |
| Common.SubsequencePrefix | src/app/api/search/route.ts:45-52 | a prefix of a subsequence is itself a subsequence (`slice(0, limit)` after `filter`) |
| Common.FilterCounts | src/lib/performance/analytics.ts:60-64 | filtering keeps each element satisfying the test exactly as often as the input holds it, and no other |
| Common.FilterMultiset | src/components/tasks/KanbanView.tsx:33-35 | filtering keeps every kept element as often as the input holds it and drops the rest |
| Common.Find | src/lib/dummy-data.ts:262-264 | `find` gives nothing exactly when no element passes the test, and otherwise the first element that passes |
| Common.FlatMapMembers | src/lib/notion-oauth.ts:199-217 | an element of the concatenated images belongs to the image of some input element, and conversely |
| Common.Take | src/app/api/search/route.ts:149 | `slice(0, n)` is the prefix of length min(n, length) |
| Common.TakeLast | src/lib/performance/analytics.ts:51 | `slice(-n)` is the last min(n, length) elements, in order |
| Common.Slice | src/lib/performance/virtualization.tsx:47 | `slice(start, end)` is the elements from start up to end clipped to the length, or nothing when that range is empty |
| Common.DropIndex | src/components/onboarding/TeamInvitations.tsx:61-64 | dropping index k removes exactly that element when k is in range and changes nothing otherwise |
| Common.ConcatAppend | src/lib/notion-data.ts:38 | `join('')` of two lists laid end to end is the join of the first followed by the join of the second |
| Common.Trim | src/components/onboarding/AccountSetup.tsx:37 | `trim` is empty exactly for a blank string; otherwise it starts and ends with no white space; it is the part of the input after its leading white space, and everything after it is white space |
| Common.ToLower | src/app/api/search/route.ts:31 | `toLowerCase` keeps the length and lowers each letter A-Z, leaving every other character |
| Common.ContainsIff | src/app/api/search/route.ts:48 | `includes` holds exactly when the text occurs at some position |
| Common.PrefixIsContained | src/app/api/search/route.ts:136 | a string that `startsWith` a prefix also `includes` it |
| Common.Split | src/app/onboarding/page.tsx:93-94 | `split` gives at least one part, no part holds the separator, and a string without the separator is its only part |
| Common.JoinSplit | src/app/onboarding/page.tsx:93-94 | joining the parts of a `split` with the same separator gives back the string |
| Common.SplitHead | src/app/onboarding/page.tsx:93 | the first part of a `split` is the prefix before the first separator |
| Common.EmailFromParts | src/components/onboarding/AccountSetup.tsx:47 | `local@domain` with a non-empty plain local part and a dotted plain domain matches the e-mail pattern |
| Common.EmailShape | src/components/onboarding/AccountSetup.tsx:47 | a matching e-mail is `local@domain` with exactly one '@', no white space and a dotted domain |
| Onboarding.IndexOf | src/app/onboarding/page.tsx:132-133 | every step occurs in the step order, so `indexOf` always finds it at its own position |
| Onboarding.MergeOverwritesOnlySupplied | src/app/onboarding/page.tsx:124-129 | `{ ...prev, ...updates }` takes each supplied field from the update and keeps every other field; merging the same update twice equals merging it once; an empty update changes nothing |
| Onboarding.Next | src/app/onboarding/page.tsx:131-138 | moving on goes to the following step's index, and the last step stays put |
| Onboarding.Previous | src/app/onboarding/page.tsx:140-147 | going back goes to the preceding step's index, and the first step stays put |
| Onboarding.PreviousAfterNext | src/app/onboarding/page.tsx:131-147 | next then previous returns to any step but the last; previous then next returns to any step but the first |
| Onboarding.NextReaches | src/app/onboarding/page.tsx:131-138 | n moves forward from the account step reach step min(n, 3) |
| Onboarding.IsStepCompleted | src/app/onboarding/page.tsx:166-177 | the account step is complete iff first name, last name, e-mail and company are non-empty (the role is not checked); the team step always is; the databases step iff all three tables are connected; any other id never |
| Onboarding.CompleteNeverCompleted | src/app/onboarding/page.tsx:170-175 | the `complete` step is never reported complete and the `team` step always is, whatever was entered |
| Onboarding.Prefill | src/app/onboarding/page.tsx:89-98 | pre-filling from the signed-in user sets the e-mail and leaves company, role, team and databases unchanged |
| Onboarding.PrefillSplitsName | src/app/onboarding/page.tsx:93-94 | a name containing a space splits into a first name without spaces and a last name that rejoin (with one space) to the name; a name without a space is all first name; no name gives two empty fields |
| Onboarding.OnboardingWizard.constructor | src/app/onboarding/page.tsx:75-84 | the wizard starts on the account step with empty data |
| Onboarding.OnboardingWizard.UpdateOnboardingData | src/app/onboarding/page.tsx:124-129 | the data becomes the merge of the old data and the update; the step is unchanged |
| Onboarding.OnboardingWizard.PrefillFromUser | src/app/onboarding/page.tsx:89-98 | the data becomes the pre-filled data; the step is unchanged |
| Onboarding.OnboardingWizard.NextStep | src/app/onboarding/page.tsx:131-138 | the step becomes `Next` of the old step; the data is unchanged |
| Onboarding.OnboardingWizard.PreviousStep | src/app/onboarding/page.tsx:140-147 | the step becomes `Previous` of the old step; the data is unchanged |
| Onboarding.OnboardingWizard.SkipToStep | src/app/onboarding/page.tsx:149-151 | any step can be chosen directly; the data is unchanged |
| Onboarding.OnboardingWizard.GetCurrentStepIndex | src/app/onboarding/page.tsx:179-181 | the index found is in range and names the current step |
| AccountSetup.EmailError | src/components/onboarding/AccountSetup.tsx:45-49 | a blank e-mail gets "Email is required"; otherwise there is an error iff the address does not match the e-mail pattern; no other message is possible |
| AccountSetup.AccountErrors | src/components/onboarding/AccountSetup.tsx:34-57 | exactly the failing fields are keys (first name, last name, company blank after trimming; e-mail failing; role empty), each with its own message, and no other key |
| AccountSetup.ValidIffFilledIn | src/components/onboarding/AccountSetup.tsx:34-60 | the form has no errors iff names and company are non-blank, the e-mail matches the pattern and a role is chosen |
| AccountSetup.EmailNotBlank | src/components/onboarding/AccountSetup.tsx:45-48 | an address matching the pattern is never blank, so the second e-mail branch is reached only for non-blank text |
| AccountSetup.PassingFormCompletesStep | src/components/onboarding/AccountSetup.tsx:63-67 | a form that passes validation also completes the wizard's account step |
| AccountSetup.StepCompleteDoesNotImplyValid | src/components/onboarding/AccountSetup.tsx:37-39 | a first name of one space completes the wizard's account step (`isStepCompleted` does not trim) but fails the form |
| AccountSetup.ClearError | src/components/onboarding/AccountSetup.tsx:29-31 | typing in a field blanks that field's truthy error and leaves the other errors and the set of keys unchanged |
| AccountSetup.AccountSetupForm.constructor | src/components/onboarding/AccountSetup.tsx:23 | the form starts with no errors |
| AccountSetup.AccountSetupForm.HandleInputChange | src/components/onboarding/AccountSetup.tsx:25-32 | the wizard's field takes the typed value, the step is unchanged, and the errors become `ClearError` of the old ones |
| AccountSetup.AccountSetupForm.ValidateForm | src/components/onboarding/AccountSetup.tsx:34-61 | the errors become `AccountErrors(data)` and the result is true iff there are none |
| AccountSetup.AccountSetupForm.HandleNext | src/components/onboarding/AccountSetup.tsx:63-67 | the errors are recomputed; the wizard advances one step iff the form passes, and its data is unchanged |
| TeamInvitations.InviteError | src/components/onboarding/TeamInvitations.tsx:28-39 | each of the four messages is chosen exactly under its own condition, checked in order (blank, not an address, already invited, the user's own address), and there is no error iff the address is well formed, new and not the user's own |
| TeamInvitations.NewMember | src/components/onboarding/TeamInvitations.tsx:46-50 | the new member keeps the typed e-mail and role; the name is the trimmed name, absent iff it is blank |
| TeamInvitations.Attempt | src/components/onboarding/TeamInvitations.tsx:28-59 | a refused invitation leaves the list unchanged; an accepted one appends exactly one member |
| TeamInvitations.AttemptKeepsDistinct | src/components/onboarding/TeamInvitations.tsx:35-36 | an accepted invitation keeps the members' e-mails distinct |
| TeamInvitations.AttemptAllDistinct | src/components/onboarding/TeamInvitations.tsx:28-59 | any series of invitations from an empty list leaves distinct, well-formed e-mails, none of them the user's own |
| TeamInvitations.RemoveKeepsDistinct | src/components/onboarding/TeamInvitations.tsx:61-64 | removing an entry keeps the e-mails distinct |
| TeamInvitations.TeamInvitationForm.constructor | src/components/onboarding/TeamInvitations.tsx:23-26 | the form starts empty, with the `member` role and no errors |
| TeamInvitations.TeamInvitationForm.AddTeamMember | src/components/onboarding/TeamInvitations.tsx:28-59 | on an error only the e-mail error is set and nothing else changes; otherwise the member is appended to the wizard's list, the rest of its data is unchanged and the form is reset |
| TeamInvitations.TeamInvitationForm.RemoveMember | src/components/onboarding/TeamInvitations.tsx:61-64 | exactly the entry at `index` is dropped (none when out of range), the rest keep their order |
| DatabaseConnection.ConfigOf | src/components/onboarding/DatabaseConnection.tsx:134 | the `find` by key always succeeds: each table has its entry in the table list |
| DatabaseConnection.FilteredDatabases | src/components/onboarding/DatabaseConnection.tsx:138-142 | exactly the offered databases whose lower-cased name contains the lower-cased query and that are untyped or of the current table, in offered order |
| DatabaseConnection.FieldStem | src/components/onboarding/DatabaseConnection.tsx:163 | the stem is the whole lower-cased field up to its first '/', or all of it when there is none |
| DatabaseConnection.SomeProperty | src/components/onboarding/DatabaseConnection.tsx:162-164 | the inner `some` holds iff the stem occurs in at least one lower-cased property name |
| DatabaseConnection.SomeField | src/components/onboarding/DatabaseConnection.tsx:161-165 | the outer `some` holds iff at least one field's stem occurs in at least one lower-cased property name |
| DatabaseConnection.ValidateDatabaseProperties | src/components/onboarding/DatabaseConnection.tsx:159-167 | the nested `some` over the current table's fields and the property names holds iff a pair of a required field and a property matches |
| DatabaseConnection.PropertyNamedLikeFieldIsValid | src/components/onboarding/DatabaseConnection.tsx:159-167 | a property whose name equals a required field's name, ignoring case, is enough for the database to suit the table |
| DatabaseConnection.NoPropertiesIsInvalid | src/components/onboarding/DatabaseConnection.tsx:159-167 | a database with no properties suits no table |
| DatabaseConnection.MockDatabasesSuitTheirTable | src/components/onboarding/DatabaseConnection.tsx:31-80 | every typed demo database passes the property check for the table it is offered for |
| DatabaseConnection.SetSelected | src/components/onboarding/DatabaseConnection.tsx:146-157 | choosing a database sets the current table's entry and no other |
| DatabaseConnection.MissingDatabases | src/components/onboarding/DatabaseConnection.tsx:170 | a table is listed iff it has no database, in table order |
| DatabaseConnection.GetCompletedSteps | src/components/onboarding/DatabaseConnection.tsx:204-206 | the count of connected tables is at most 3 and is 3 minus the number missing |
| DatabaseConnection.FilterPartition | src/components/onboarding/DatabaseConnection.tsx:170-205 | the connected and the missing tables together are all the tables |
| DatabaseConnection.AllConnectedIsStepComplete | src/components/onboarding/DatabaseConnection.tsx:204-206 | three connected tables iff the wizard reports the databases step complete |
| DatabaseConnection.DatabaseConnectionStep.constructor | src/components/onboarding/DatabaseConnection.tsx:125-132 | the step starts on the clients table, with empty queries and no errors |
| DatabaseConnection.DatabaseConnectionStep.SelectDatabase | src/components/onboarding/DatabaseConnection.tsx:146-157 | the wizard's selection gets the database for the current table only; the rest of its data and its step are unchanged |
| DatabaseConnection.DatabaseConnectionStep.HandleNext | src/components/onboarding/DatabaseConnection.tsx:169-181 | with a table missing, the error names the missing tables and the wizard stays; otherwise the errors clear and the wizard moves one step on; the data never changes |
| DatabaseConnection.DatabaseConnectionStep.IsCurrentStepCompleted | src/components/onboarding/DatabaseConnection.tsx:208-210 | the current table counts as done iff it is not among the missing tables, and always once the whole step is complete |
| DatabaseConnection.DatabaseConnectionStep.ChooseDatabaseType | src/components/onboarding/DatabaseConnection.tsx:251 | choosing a tab changes only the current table |
| DatabaseConnection.DatabaseConnectionStep.SetSearchQuery | src/components/onboarding/DatabaseConnection.tsx:319 | typing sets the current table's query and nothing else |
| SignIn.CallbackUrl | src/app/auth/signin/page.tsx:27 | the page to return to is the `callbackUrl` parameter when non-empty, else `/`; never empty |
| SignIn.SignInErrors | src/app/auth/signin/page.tsx:40-55 | only `email` and `password` can be keys; the e-mail key is present iff the e-mail fails (blank or not an address), with that message; the password key iff the password is empty |
| SignIn.ValidIffWellFormed | src/app/auth/signin/page.tsx:40-55 | the form passes iff the e-mail is a non-blank address and the password is non-empty |
| SignIn.ValidCredentials | src/app/auth/signin/page.tsx:68-77 | a pair is found iff it is one of the four demo pairs, and the pair found is the input |
| SignIn.CredentialsAreExact | src/app/auth/signin/page.tsx:75-77 | the comparison is exact: a demo pair is accepted, but a changed letter case, a leading space or another demo password is refused |
| SignIn.DemoCredentialsWellFormed | src/app/auth/signin/page.tsx:68-73 | every demo e-mail is a non-blank address and every demo password is non-empty, so each demo pair passes the form |
| SignIn.GetErrorMessage | src/app/auth/signin/page.tsx:114-133 | the five OAuth/callback codes share one message, three codes have their own, and every other code gets the generic message |
| SignIn.SignInForm.constructor | src/app/auth/signin/page.tsx:16-22 | the form starts empty, not loading, with no errors and no navigation |
| SignIn.SignInForm.HandleInputChange | src/app/auth/signin/page.tsx:31-38 | the field takes the value, the other keeps its own, and that field's truthy error is blanked (not removed) |
| SignIn.SignInForm.ValidateForm | src/app/auth/signin/page.tsx:40-55 | the errors become `SignInErrors` of the form, and the result is true iff there are none |
| SignIn.SignInForm.HandleSubmit | src/app/auth/signin/page.tsx:57-91 | an invalid form only shows its errors; a valid demo pair navigates to the callback page; any other valid pair shows only the general error; the loading flag is untouched on an invalid form and ends false after a credential check |
| AuthContext.GetMockClientIdForEmail | src/contexts/AuthContext.tsx:95-102 | the client id is one of `1`, `2`, `3`: `2` and `3` exactly for the two demo e-mails that map to them, `1` for every other e-mail |
| AuthContext.MappedUser | src/contexts/AuthContext.tsx:58-79 | no user without a session; otherwise the e-mail is kept, the id is the session id, else the e-mail, else `unknown` (never empty), the user is the administrator without a client iff the e-mail is the admin address, a client user's client is the e-mail's demo client, and the name is the session name or else the e-mail's part before its first '@' (the whole e-mail when it has none) |
| AuthContext.MapSessionUser | src/contexts/AuthContext.tsx:58-79 | building the client record and then turning it into the administrator for the admin e-mail yields `MappedUser` |
| AuthContext.MockUsersMapToThemselves | src/contexts/AuthContext.tsx:18-50 | a session carrying a demo account's id, e-mail and name maps to exactly that account (its role and client included) |
| AuthContext.ClientIdPresentForClients | src/contexts/AuthContext.tsx:61-73 | a mapped user is a client iff it has a client id, and that id is a demo client's |
| ConfigureRoute.Settle | src/app/api/notion/databases/configure/route.ts:41-45 | a rejected test becomes a failure with "Connection failed"; a fulfilled one keeps its own success flag |
| ConfigureRoute.PostResponse | src/app/api/notion/databases/configure/route.ts:11-78 | no session token gives 401; a missing id gives 400 before any test; the configuration cookie (the three ids and the time stamp, kept a year) is set iff the token and all ids are present and all three settled tests succeeded, and exactly then the status is 200; a results body carries the three settled results and its success flag is the 200 outcome |
| ConfigureRoute.NoTestsBeforeValidation | src/app/api/notion/databases/configure/route.ts:14-32 | without a session or with a missing id, the answer does not depend on the connection tests or the time stamp |
| ConfigureRoute.Post | src/app/api/notion/databases/configure/route.ts:11-78 | the response built step by step has the status, body and cookie operations of `PostResponse` |
| ConfigureRoute.GetResponse | src/app/api/notion/databases/configure/route.ts:89-116 | configured iff a non-empty configuration cookie is present, and then the stored configuration is returned; the workspace is passed back when its cookie is non-empty |
| ConfigureRoute.Delete | src/app/api/notion/databases/configure/route.ts:127-139 | the response is a 200 success that deletes the token, workspace and configuration cookies, in that order |
| ConfigureRoute.DeleteForgetsConfiguration | src/app/api/notion/databases/configure/route.ts:135-137 | after a disconnect the browser keeps every other cookie, holds none of the three, and a later GET reports nothing configured |
| ConfigureRoute.PostThenGet | src/app/api/notion/databases/configure/route.ts:50-71 | after a successful POST a later GET reports a configuration |
| Settings.ErrorMessage | src/app/settings/page.tsx:82-91 | each of the six OAuth error codes maps to its own message, and any other code (an unknown one included) to "Authorization failed" |
| Settings.SaveRequest | src/app/settings/page.tsx:145-163 | nothing is posted exactly when one of the three selections is empty; otherwise the body carries the three selected ids |
| Settings.SaveRequestPassesRouteCheck | src/app/settings/page.tsx:145-163 | a body the page posts always passes the configure route's check for missing ids, so with a session the route's answer is decided by the three connection tests alone |
| Settings.SettingsPage.constructor | src/app/settings/page.tsx:50-62 | the page starts disconnected, with no workspace, databases, configuration or selection, loading, and with no message |
| Settings.SettingsPage.HandleUrlParams | src/app/settings/page.tsx:70-95 | `connected=true` sets the connected message, a non-empty `error` parameter sets its mapped message, and no other state changes |
| Settings.SettingsPage.CheckConnectionStatus | src/app/settings/page.tsx:97-120 | a successful reply sets the connected flag to configured-or-workspace-known, copies workspace and configuration and, when a configuration exists, the three selections; any other outcome changes nothing but clearing the loading flag |
| Settings.SettingsPage.LoadDatabases | src/app/settings/page.tsx:126-142 | a successful reply replaces the database list; an unsuccessful one and a failed request each set their own error and keep the list; loading ends cleared |
| Settings.SettingsPage.SaveDatabaseConfiguration | src/app/settings/page.tsx:144-179 | with a selection missing only the "select all three" error is set and nothing is posted; otherwise the selections are posted, and success, the server's message (or the fallback) and a failed request each give their own message; the configuring flag ends cleared |
| Settings.SettingsPage.DisconnectNotion | src/app/settings/page.tsx:181-200 | an accepted disconnect clears connection, workspace, configuration, databases and selections and reports success; otherwise only the failure message is set |
| Settings.SettingsPage.GetDatabaseRecommendation | src/app/settings/page.tsx:209-211 | no recommendation exactly when no listed database is valid for the table; otherwise the first database in list order that is valid |
| Settings.CompleteDatabaseIsRecommended | src/app/settings/page.tsx:209-211 | when the list was checked by the structure validation and some database carries every required property by name, a database is recommended and it misses no required property |
| NotionCallback.CallbackOutcome | src/app/api/auth/notion/callback/route.ts:11-80 | a provider error redirects with `oauth_error`, then a missing code with `missing_code`, an undecodable state with `invalid_state`, a state older than ten minutes with `expired_state`; a failed exchange redirects with `token_exchange_failed`; cookies are set exactly when all checks pass and the exchange succeeds, and then both the token and the workspace cookie are set and the redirect goes to the state's return URL (or `/settings`) with `connected=true` |
| NotionCallback.ExpiryBoundary | src/app/api/auth/notion/callback/route.ts:28-32 | a state exactly ten minutes old is accepted and one a millisecond older is refused |
| NotionCallback.MissingTimestampNeverExpires | src/app/api/auth/notion/callback/route.ts:23-32 | a decodable state without a timestamp never expires, so the callback succeeds however late it comes |
| NotionCallback.CallbackCookies | src/app/api/auth/notion/callback/route.ts:48-79 | after a successful callback the browser holds the access token and workspace cookies; after any other outcome its cookies are unchanged |
| NotionCallback.Get | src/app/api/auth/notion/callback/route.ts:4-86 | the handler answers with a redirect whose location and cookie operations are those of the callback outcome |
| NotionOAuth.GetNotionAuthUrl | src/lib/notion-oauth.ts:80-97 | fails exactly when no client id is configured; otherwise the authorize endpoint with the client id, `response_type=code`, the configured redirect URI (or the localhost default), `owner=user`, and a `state` parameter exactly when a non-empty state is given |
| NotionOAuth.AuthParams | src/lib/notion-oauth.ts:85-94 | each of the five query parameters is found under its own key in the built list, and `state` only when it was added |
| NotionOAuth.GetDatabaseTitle | src/lib/notion-oauth.ts:167-172 | the joined title trimmed, or "Untitled Database" when that is blank; never empty and never starting or ending with white space |
| NotionOAuth.GetDatabaseDescription | src/lib/notion-oauth.ts:177-182 | the joined description trimmed: empty exactly when the joined text is blank, otherwise without surrounding white space, found in the joined text after its leading spaces and followed there only by white space |
| NotionOAuth.RequiredProperties | src/lib/notion-oauth.ts:191-197 | four required properties for clients and projects, five for tasks |
| NotionOAuth.Classify | src/lib/notion-oauth.ts:202-217 | a property is present exactly when its exact name exists; a suggestion names the first similar existing property, which is non-empty; a property is missing exactly when it has no exact match and the first similar property, if any, is the empty name |
| NotionOAuth.SuggestionIsSimilar | src/lib/notion-oauth.ts:205-213 | a suggested name exists and equals, contains or is contained in the required name, ignoring case |
| NotionOAuth.SimilarNameIsSuggested | src/lib/notion-oauth.ts:205-213 | an absent property whose first similar existing name is non-empty is suggested with that name, never missing |
| NotionOAuth.ValidateDatabaseStructure | src/lib/notion-oauth.ts:187-225 | the missing list and the suggestions are those of the required properties in order; valid exactly when nothing is missing; no suggestions field when there are none |
| NotionOAuth.MissingExactly | src/lib/notion-oauth.ts:199-225 | the missing list keeps the order of the required list and holds exactly the required properties classified as missing |
| NotionOAuth.SuggestionsExactly | src/lib/notion-oauth.ts:199-213 | the suggestions are exactly the suggestion texts of the required properties classified as suggested |
| NotionOAuth.OutcomesPartition | src/lib/notion-oauth.ts:202-218 | every required property is present, suggested or missing, so the three counts add up to the number required |
| NotionOAuth.AllPresentIsValid | src/lib/notion-oauth.ts:204-221 | a database carrying every required name exactly has nothing missing and gets no suggestions |
| NotionData.FragmentText | src/lib/notion-data.ts:38 | a fragment's text is its non-empty plain text, else its non-empty text content, else the empty string |
| NotionData.ExtractText | src/lib/notion-data.ts:36-39 | an absent or non-array input, and an empty array, give the empty string |
| NotionData.ExtractTextAppend | src/lib/notion-data.ts:38 | the extracted text of two runs of fragments is the text of the first followed by that of the second |
| NotionData.ExtractTextSingle | src/lib/notion-data.ts:38 | a single fragment contributes exactly its own text |
| NotionData.ExtractSelect | src/lib/notion-data.ts:52-54 | the empty string exactly when the property, its select or a non-empty name is missing; otherwise the option's name |
| NotionData.ExtractMultiSelect | src/lib/notion-data.ts:59-62 | nothing when the property or its list is absent; otherwise the option names, same length and order |
| NotionData.ExtractNumber | src/lib/notion-data.ts:67-69 | nothing exactly when the property or number is absent or the number is zero; any other number unchanged |
| NotionData.ExtractEmail | src/lib/notion-data.ts:74-76 | the empty string exactly when the property or a non-empty email is missing; otherwise the email |
| NotionData.ExtractRelation | src/lib/notion-data.ts:81-84 | nothing when the property or its list is absent; otherwise the related ids, same length and order |
| Entities.TaskStatusNameInjective | src/types/index.ts:38 | distinct task statuses have distinct string names |
| DummyData.GetClientById | src/lib/dummy-data.ts:262-264 | a found client is in the table and has the id; nothing is found exactly when no client has the id |
| DummyData.GetProjectById | src/lib/dummy-data.ts:266-268 | a found project is in the table and has the id; nothing is found exactly when no project has the id |
| DummyData.GetProjectsByClientId | src/lib/dummy-data.ts:270-272 | exactly the projects of the client, as a subsequence of the table (fixture order kept) |
| DummyData.GetTasksByProjectId | src/lib/dummy-data.ts:274-276 | exactly the tasks of the project, as a subsequence of the table |
| DummyData.ProjectIdsOfIff | src/lib/dummy-data.ts:279-281 | a task's project id is among the client's project ids exactly when one of the client's projects has that id |
| DummyData.GetTasksByClientId | src/lib/dummy-data.ts:278-282 | exactly the tasks that belong to one of the client's projects, as a subsequence of the task table |
| DummyData.GetTasksWithProject | src/lib/dummy-data.ts:284-289 | one entry per task in order, each carrying the project with the task's project id, and no project exactly when none has that id |
| DummyData.GetProjectsWithClient | src/lib/dummy-data.ts:291-296 | one entry per project in order, each carrying the client with the project's client id, and no client exactly when none has that id |
| DummyData.DemoIntegrity | src/lib/dummy-data.ts:3-259 | in the shipped fixtures every task's project and every project's client exists, so both joins attach an entity everywhere |
| DummyData.DemoIdsUnique | src/lib/dummy-data.ts:3-259 | ids are unique within each shipped fixture table |
| Analytics.CategoryName | src/lib/performance/analytics.ts:8 | every category has a non-empty name |
| Analytics.Retain | src/lib/performance/analytics.ts:46-52 | after one push the buffer holds at most 1000 metrics: the old buffer plus the new metric while there is room, otherwise the old buffer without its oldest entry plus the new metric |
| Analytics.ReplayKeepsLatest | src/lib/performance/analytics.ts:46-52 | recording any sequence of metrics into an empty log leaves exactly the last min(n, 1000) of them, in recording order |
| Analytics.TakeLastPush | src/lib/performance/analytics.ts:47-51 | trimming to the window before a push and trimming after it keep the same window |
| Analytics.SumBounds | src/lib/performance/analytics.ts:70-71 | a sum of values within bounds lies between the count times the lower and the count times the upper bound |
| Analytics.MeanOfIntsBetween | src/lib/performance/analytics.ts:70-71 | the mean of integers whose sum lies between the count times each bound lies between the bounds |
| Analytics.NamedWithinBounds | src/lib/performance/analytics.ts:67-71 | when every value of a name lies within bounds, the sum of those values divided by their count lies within them too |
| Analytics.CategoriesPartition | src/lib/performance/analytics.ts:60-64 | the four category filters split the buffer: their lengths add up to its length |
| Analytics.SlowestIsEarliestMaximum | src/lib/performance/analytics.ts:90-93 | the slowest-render fold gives nothing exactly for no metrics, and otherwise the earliest metric of maximal value |
| Analytics.PerformanceAnalytics.constructor | src/lib/performance/analytics.ts:13-20 | the log starts empty |
| Analytics.PerformanceAnalytics.RecordMetric | src/lib/performance/analytics.ts:46-52 | the new buffer is the retained window of the old buffer plus the metric, at most 1000 long |
| Analytics.PerformanceAnalytics.GetMetrics | src/lib/performance/analytics.ts:60-64 | with an absent or empty category the whole buffer; otherwise exactly the stored metrics of that category, in stored order (a subsequence of the buffer) and each as often as the buffer holds it |
| Analytics.PerformanceAnalytics.GetAverageMetric | src/lib/performance/analytics.ts:66-72 | zero when no stored metric has the name; otherwise the average, i.e. the result times the count equals the sum of the matching values |
| Analytics.PerformanceAnalytics.GenerateReport | src/lib/performance/analytics.ts:78-96 | the total is the buffer length, the recent list its last up-to-10 entries, the render time the average of `component-render`, and the slowest render is absent exactly when there are no render metrics and otherwise the earliest maximal one |
| Analytics.PerformanceAnalytics.AverageWithinBounds | src/lib/performance/analytics.ts:66-72 | when every stored value of a name lies within bounds, the average of that name lies within them too |
| Analytics.PerformanceAnalytics.ClearMetrics | src/lib/performance/analytics.ts:74-76 | the buffer is empty |
| Analytics.PerformanceAnalytics.Dispose | src/lib/performance/analytics.ts:98-102 | the buffer is empty |
| Analytics.RecordExtendsReplay | src/lib/performance/analytics.ts:46-52 | one more recorded metric extends the replayed log, which stays the last 1000 recorded |
| LazyLoading.Remove | src/lib/performance/lazy-loading.tsx:27-40 | deleting a key from the map's key order leaves it absent and keeps only keys that were there |
| LazyLoading.Capacity | src/lib/performance/lazy-loading.tsx:17-42 | a cache holds at most `maxSize` entries when that is at least 1, and at most one entry otherwise (`set` always inserts) |
| LazyLoading.LRUCache.constructor | src/lib/performance/lazy-loading.tsx:15-21 | a new cache is empty, well formed, and keeps the given capacity (100 by default) |
| LazyLoading.LRUCache.Get | src/lib/performance/lazy-loading.tsx:23-32 | returns the stored value or nothing; the new map is the old one with a present key moved to the most-recently-used end; stays well formed and within capacity |
| LazyLoading.LRUCache.Set | src/lib/performance/lazy-loading.tsx:34-43 | the new map is the old one with the key refreshed and moved last, or the new key appended after evicting the oldest key when full; stays well formed and within capacity |
| LazyLoading.LRUCache.Clear | src/lib/performance/lazy-loading.tsx:45-47 | the cache is empty |
| LazyLoading.LRUCache.Size | src/lib/performance/lazy-loading.tsx:49-51 | the number of stored keys, never more than the capacity |
| LazyLoading.GetPreserves | src/lib/performance/lazy-loading.tsx:23-29 | a `get` keeps the key order free of duplicates and in step with the stored keys, and keeps the size; delete-then-set is the move to the end |
| LazyLoading.SetPreserves | src/lib/performance/lazy-loading.tsx:34-43 | a `set` keeps the map well formed and within capacity, and the delete/evict-then-set steps give the stated map |
| LazyLoading.GetHit | src/lib/performance/lazy-loading.tsx:23-29 | `get` of a present key returns its value, moves it last and keeps every other key in its relative order, values unchanged |
| LazyLoading.GetMiss | src/lib/performance/lazy-loading.tsx:30-31 | `get` of an absent key returns nothing and changes neither contents nor order |
| LazyLoading.SetExisting | src/lib/performance/lazy-loading.tsx:35-42 | `set` of an existing key replaces its value, moves it last, keeps the others in order and keeps the size |
| LazyLoading.SetEvictsOldest | src/lib/performance/lazy-loading.tsx:37-42 | `set` of a new key into a full cache evicts exactly the first (least recently used) key and appends the new one, size unchanged |
| LazyLoading.SetWithRoom | src/lib/performance/lazy-loading.tsx:37-42 | `set` of a new key into a cache with room appends it and evicts nothing |
| LazyLoading.GetAfterSet | src/lib/performance/lazy-loading.tsx:23-43 | `get(k)` right after `set(k, v)` returns `v` and leaves the cache as the `set` left it |
| LazyLoading.RunBounded | src/lib/performance/lazy-loading.tsx:17-42 | after any sequence of `get`, `set` and `clear` calls the cache stays well formed and holds at most its capacity |
| LazyLoading.ThreeSetsIntoTwo | src/lib/performance/lazy-loading.tsx:37-42 | with capacity 2, setting three distinct keys leaves the last two, the first having been evicted |
| TableView.StrLessIrreflexive | src/components/tasks/TableView.tsx:51-52 | no string is less than itself under JavaScript's string `<` |
| TableView.StrLessTotal | src/components/tasks/TableView.tsx:51-52 | of two strings one is less, or they are equal, and never both less |
| TableView.StrLessTransitive | src/components/tasks/TableView.tsx:51-52 | string `<` is transitive |
| TableView.LessIsStrictTotalOrder | src/components/tasks/TableView.tsx:51-52 | `<` on the values of one column is a strict total order |
| TableView.Compare | src/components/tasks/TableView.tsx:43-55 | a task without a value reports "after"; against a task without a value one with a value reports "before"; two present values compare ascending and are negated for descending; the result is -1, 0 or 1 |
| TableView.DescendingNegatesAscending | src/components/tasks/TableView.tsx:50-54 | for present values the descending comparator is the negated ascending one, and the ascending one is antisymmetric |
| TableView.OrderedTotalPreorder | src/components/tasks/TableView.tsx:43-55 | the order the comparator induces is total and transitive, so sorting by it is well defined up to ties |
| TableView.InsertPermutes | src/components/tasks/TableView.tsx:43 | inserting one task into a sorted run adds exactly that task |
| TableView.InsertElements | src/components/tasks/TableView.tsx:43 | inserting adds no task other than the one inserted |
| TableView.InsertSorted | src/components/tasks/TableView.tsx:43-55 | inserting into a sorted run keeps it sorted by the comparator |
| TableView.SortedTasksCorrect | src/components/tasks/TableView.tsx:42-56 | the sorted copy is sorted by the comparator and is a permutation of the input tasks |
| TableView.MissingValuesLast | src/components/tasks/TableView.tsx:47-48 | tasks without a value in the sorted column come after every task with one, in either direction |
| TableView.ToggleSort | src/components/tasks/TableView.tsx:34-39 | the clicked column becomes the sort field; it turns descending exactly when it was already the ascending sort field |
| TableView.ToggleTwice | src/components/tasks/TableView.tsx:34-39 | clicking the current column twice restores its direction |
| TableView.TableViewState.constructor | src/components/tasks/TableView.tsx:32 | the table starts sorted by due date, ascending |
| TableView.TableViewState.HandleSort | src/components/tasks/TableView.tsx:34-39 | the new sort is the toggle of the old one for the clicked column |
| TableView.TableViewState.Rows | src/components/tasks/TableView.tsx:42-56 | the rows shown are sorted by the current sort and are a permutation of the tasks |
| KanbanView.ColumnsCoverStatuses | src/components/tasks/KanbanView.tsx:16-22 | every task status has a column, and no two columns share a status |
| KanbanView.GetTasksByStatus | src/components/tasks/KanbanView.tsx:33-35 | exactly the tasks with the status, as a subsequence of the input (order kept) |
| KanbanView.ColumnsWithTasks | src/components/tasks/KanbanView.tsx:154-159 | the five columns in their fixed order, each holding the tasks of its status |
| KanbanView.BoardPartitionsTasks | src/components/tasks/KanbanView.tsx:154-159 | every task is on exactly one column: the columns together hold each task as often as the input does |
| KanbanView.ColumnSizesSum | src/components/tasks/KanbanView.tsx:154-159 | the column sizes add up to the number of tasks |
| KanbanView.DropMovesCard | src/components/tasks/KanbanView.tsx:45-49 | applying the update a drop emits changes only the status of the dragged task, which then shows in the target column; every other task is unchanged |
| Virtualization.FloorDiv | src/lib/performance/virtualization.tsx:38 | `Math.floor` of a quotient by a positive row height: the largest whole number of rows not past the offset |
| Virtualization.CeilDiv | src/lib/performance/virtualization.tsx:41 | `Math.ceil` of a quotient by a positive row height: the smallest whole number of rows reaching the offset |
| Virtualization.ScrollerVisibleRange | src/lib/performance/virtualization.tsx:37-49 | the rendered range lies within the list; it starts `overscan` rows before the first row at the scroll offset (not before 0) and ends `overscan` rows after the last row reaching the viewport's bottom (not past the end); the rendered rows are exactly that slice, and none when the range is empty |
| Virtualization.ViewportCovered | src/lib/performance/virtualization.tsx:37-49 | every row that overlaps the viewport lies inside the rendered range |
| Virtualization.RowBefore | src/lib/performance/virtualization.tsx:38-41 | for a positive row height, a row whose top is above another's lies before it |
| Virtualization.UseVirtualList | src/lib/performance/virtualization.tsx:98-114 | the hook's range lies within the list, its total height is the row count times the row height, and its offset is the first rendered row's top |
| Virtualization.HookMatchesComponent | src/lib/performance/virtualization.tsx:37-114 | the hook and the component agree on the range, the rendered rows, the total height and the offset, with the same default overscan of 5 |
| DatabaseBreadcrumb.GetStatusColor | src/components/navigation/DatabaseBreadcrumb.tsx:35-46 | green for connected, yellow for syncing, red for disconnected, gray for any other status |
| DatabaseBreadcrumb.GetSourceIcon | src/components/navigation/DatabaseBreadcrumb.tsx:48-57 | the Notion and demo sources have their own icons, any other source the page icon |
| DatabaseBreadcrumb.LabelType | src/components/navigation/DatabaseBreadcrumb.tsx:153-159 | a label naming "client" (ignoring case) selects the clients table before "project" and "task" are looked at, then "project" before "task"; no table exactly when none of the three words occurs |
| DatabaseBreadcrumb.WithDatabase | src/components/navigation/DatabaseBreadcrumb.tsx:149-164 | a crumb keeps its label, link and current flag; its database is the first source of the label's table, and is absent exactly when the label names no table or no source is of that table |
| DatabaseBreadcrumb.CreateBreadcrumbWithDatabase | src/components/navigation/DatabaseBreadcrumb.tsx:145-166 | one crumb per navigation item, in order, each with its database attached |
| DatabaseBreadcrumb.DefaultSourcesAttachEverywhere | src/components/navigation/DatabaseBreadcrumb.tsx:145-190 | with the demo sources every crumb whose label names a table gets a database, and only those |
| SearchBox.ArrowStep | src/components/search/SearchBox.tsx:112-119 | down moves to the next result but stops at the last; up moves to the previous one and falls off the top to no selection (-1); a selection in range stays in range |
| SearchBox.ArrowsStayInRange | src/components/search/SearchBox.tsx:108-119 | for a fixed result list, a selection in [-1, len-1] stays there under any run of arrow keys |
| SearchBox.Repeat | src/components/search/SearchBox.tsx:112-119 | a run of n presses of one key |
| SearchBox.DownPresses | src/components/search/SearchBox.tsx:112-115 | pressing down n times from no selection selects entry min(n, len) - 1 |
| SearchBox.UpPresses | src/components/search/SearchBox.tsx:116-119 | pressing up n times moves n entries up, stopping at no selection |
| SearchBox.GetStatusColor | src/components/search/SearchBox.tsx:156-171 | an urgent priority gives red and a high one orange, whatever the status; otherwise green for done or completed, blue for in progress, red for blocked, gray for anything else |
| SearchBox.GetTypeIcon | src/components/search/SearchBox.tsx:143-154 | a client gets the person icon, a project the folder, a task the check mark, and every other kind the page icon |
| SearchBox.SearchBoxState.constructor | src/components/search/SearchBox.tsx:51-56 | the box starts with no query, no results or databases, the dropdown hidden and nothing selected |
| SearchBox.SearchBoxState.SetQuery | src/components/search/SearchBox.tsx:63-69 | a blank query clears results and databases and hides the dropdown; any other query leaves them |
| SearchBox.SearchBoxState.ShowResponse | src/components/search/SearchBox.tsx:77-81 | a successful response replaces results and databases and opens the dropdown, keeping the query and selection |
| SearchBox.SearchBoxState.NavigateToResult | src/components/search/SearchBox.tsx:134-141 | the result's URL is pushed, and query, results, dropdown and selection are reset |
| SearchBox.SearchBoxState.HandleKeyDown | src/components/search/SearchBox.tsx:108-132 | with the dropdown hidden or empty nothing changes; the arrows step the selection and leave query and results alone; Enter on a selection in range navigates to that result and otherwise changes nothing; Escape hides the dropdown and clears the selection, keeping query and results; any other key changes nothing |
| Middleware.PrefixMatching | src/middleware.ts:18 | matching is by prefix: any path under a public route is public too |
| Middleware.Middleware | src/middleware.ts:5-33 | a signed-in visitor on a public page is redirected to `/`; a visitor without a session on any other page but `/` is redirected to sign-in with the page as callback; exactly every other request passes |
| Middleware.Authorized | src/middleware.ts:36-58 | a request is let through exactly when its path is public, is `/`, or a session exists |
| Middleware.AuthorizedNeverRedirectsToSignIn | src/middleware.ts:21-58 | a request the wrapper lets through is never sent to the sign-in page by the middleware |
| Middleware.AccessSummary | src/middleware.ts:17-32 | a public page or `/` is reachable without a session, and every non-public page with one |
| Middleware.SignInIsPublic | src/middleware.ts:10-18 | the sign-in page and a page below it are public; `/` is not |
| Http.ApplyCookiesEffect | src/app/api/notion/databases/configure/route.ts:135-137 | after the browser applies a response's cookie operations, a name no operation touches keeps its value, a name last deleted is gone, and a name last set holds the set value |
| Http.Response.Redirect | src/app/api/auth/notion/callback/route.ts:14 | a redirect answers 307 with the location, no body and no cookie operations |
| Http.Response.Json | src/app/api/notion/databases/configure/route.ts:17-20 | a JSON response carries the body and status, no location and no cookie operations |
| Http.Response.Set | src/app/api/notion/databases/configure/route.ts:58 | setting a cookie appends one set operation and changes nothing else |
| Http.Response.Delete | src/app/api/notion/databases/configure/route.ts:135-137 | deleting a cookie appends one delete operation and changes nothing else |
| SearchRoute.NormalizeQuery | src/app/api/search/route.ts:31 | the query is absent exactly when the parameter is, and otherwise is the parameter lower-cased and trimmed |
| SearchRoute.ClientResult | src/app/api/search/route.ts:54-65 | a client result carries the client's id and name as title, `company - email` as description, and the URL `/clients/{id}` |
| SearchRoute.ProjectResult | src/app/api/search/route.ts:78-92 | a project result carries the project's id and name, and the URL `/clients/{client_id}?project={id}` |
| SearchRoute.TaskResult | src/app/api/search/route.ts:107-124 | a task result carries the task's id and title, and its URL is `/clients/{client}?task={id}` where the client is the task's project's client when that project and client exist, and `undefined` otherwise |
| SearchRoute.ClientHits | src/app/api/search/route.ts:45-52 | none when the type excludes clients; otherwise the first min(`limit`, matches) clients matching the query in name, email or company, in table order (a prefix of the matches and a subsequence of the table); below the cap every matching client is there |
| SearchRoute.ProjectHits | src/app/api/search/route.ts:70-76 | none when the type excludes projects; otherwise the first min(`limit`, matches) projects matching in name or description, in table order (a prefix of the matches and a subsequence of the table); below the cap every matching project is there |
| SearchRoute.TaskHits | src/app/api/search/route.ts:97-105 | none when the type excludes tasks; otherwise the first min(`limit`, matches) tasks matching in title, description, assignee or a tag, in table order (a prefix of the matches and a subsequence of the table); below the cap every matching task is there |
| SearchRoute.ClientResults | src/app/api/search/route.ts:53-66 | one client result per hit, in order |
| SearchRoute.ProjectResults | src/app/api/search/route.ts:77-93 | one project result per hit, in order |
| SearchRoute.TaskResults | src/app/api/search/route.ts:106-125 | one task result per hit, in order |
| SearchRoute.ClientResultsSnoc | src/app/api/search/route.ts:53-54 | one more iteration of the client loop appends the next hit's result |
| SearchRoute.ProjectResultsSnoc | src/app/api/search/route.ts:77-79 | one more iteration of the project loop appends the next hit's result |
| SearchRoute.TaskResultsSnoc | src/app/api/search/route.ts:106-110 | one more iteration of the task loop appends the next hit's result |
| SearchRoute.Tier | src/app/api/search/route.ts:130-137 | tier 0 exactly for an exact title, at most 1 exactly for a title starting with the query |
| SearchRoute.CompareIsTierOrder | src/app/api/search/route.ts:129-143 | the comparator orders results by tier and nothing else: negative, zero or positive exactly as the first tier is lower, equal or higher |
| SearchRoute.ByRelevanceSorted | src/app/api/search/route.ts:129-143 | after sorting, exact title matches come before prefix matches, which come before the rest |
| SearchRoute.TierAt | src/app/api/search/route.ts:129-143 | the tier of a sorted result is that of the bucket its position falls in |
| SearchRoute.ByRelevancePermutation | src/app/api/search/route.ts:129 | sorting neither adds nor drops results |
| SearchRoute.ByRelevanceStable | src/app/api/search/route.ts:129-143 | results of equal relevance keep their collection order (clients, projects, tasks), as the stable sort promises |
| SearchRoute.Bucket | src/app/api/search/route.ts:129-143 | filtering one tier's results by a tier keeps all of them or none of them |
| SearchRoute.CollectResults | src/app/api/search/route.ts:42-126 | the three loops build client results, then project results, then task results, one per hit, in hit order |
| SearchRoute.Search | src/app/api/search/route.ts:28-150 | a missing or blank query is rejected with "Search query is required", and only then; otherwise the response carries the query, the first `limit` of the sorted collected results, the count of all collected results, and the three demo databases |
| SearchRoute.BlankQueryRejected | src/app/api/search/route.ts:31-40 | a missing or whitespace-only query normalises to nothing or the empty string, so it is rejected |
| SearchRoute.CollectedShape | src/app/api/search/route.ts:42-126 | each kind contributes at most `limit` results, in its own block: clients, then projects, then tasks |
| SearchRoute.ThreeBlocks | src/app/api/search/route.ts:42-126 | three blocks laid end to end can be cut apart again at their lengths |
| SearchRoute.KindAt | src/app/api/search/route.ts:42-126 | the kind of a collected result is that of the block its position falls in |
| SearchRoute.BlockKind | src/app/api/search/route.ts:55-111 | in clients-then-projects-then-tasks results, the position decides the kind |
| SearchRoute.TypeRestrictsKind | src/app/api/search/route.ts:45-97 | a type of `client`, `project` or `task` yields results of that kind only |
| SearchRoute.ResponseBounds | src/app/api/search/route.ts:149-150 | the response holds at most `limit` results, sorting keeps the count, and the total is at most three times the limit |

## Left out

- Strings are sequences of characters. `toLowerCase`, `trim` and the `\s` class of the e-mail pattern are modelled for ASCII only: Unicode case mapping and Unicode whitespace are not modelled.
- String comparison in the table sort is by character code, lexicographically. JavaScript's UTF-16 code-unit order agrees with it only for characters of the basic plane.
- TableView.SortedTasks: the engine's `Array.prototype.sort` algorithm is not modelled. The model sorts with a stable insertion sort. Any correct sort gives the same sorted order up to ties, and for tied rows the order the engine produces is not pinned down.
- Numbers are unbounded integers, and metric averages are reals. IEEE double rounding, `NaN` and `Infinity` are not modelled.
- SearchRoute.Search: the `limit` is a natural number. A negative or `NaN` result of `parseInt` is outside the model, because it would change what `slice` returns.
- Virtualization.ScrollerVisibleRange and Virtualization.UseVirtualList require a non-negative scroll offset, container height and overscan. The division is integer floor and ceiling with a positive item height. Negative offsets, which a browser does not produce, are not modelled.
- JSON encoding and decoding are not modelled. This covers request bodies, `JSON.parse` of the configuration cookie and of the OAuth state, and escaping of the values written into the configuration cookie. The decoded values are inputs.
- The `catch` branches are not modelled, because they react to exceptions thrown by foreign code. This covers the 500 responses of the search and configure routes and the callback's generic `callback_error`. The callback's `token_exchange_failed` outcome is modelled.
- Network calls are not modelled: `exchangeCodeForTokens`, `fetchUserDatabases`, `testDatabaseConnection` and token refresh and revocation. The Notion SDK is also left out, as are the `fetchNotion*`, `updateNotionTask` and `createNotionTask` stubs, which only call the network. The outcomes of these calls are inputs to the routes that use them.
- `getNotionConfig` is not modelled. The environment is a parameter of `NotionOAuth.GetNotionAuthUrl`.
- `URLSearchParams` percent-encoding is not modelled. The authorization URL is modelled as its endpoint and its ordered parameter list.
- `extractDate` in the Notion data helpers is not modelled, because it builds a JavaScript `Date`, and dates and time zones are outside the model.
- A `null` element inside a rich-text array is not modelled. The model assumes every element is an object.
- React rendering, effects and timers are not modelled. This covers `useCachedData`, `LazyWrapper`, `LazyImage`, `useDebounced` and `useThrottled`. It also covers the search box's debounced fetch, its clearing of results after a failed fetch, its click-outside handler and its focus handler.
- Analytics.PerformanceAnalytics.Dispose: disconnecting the browser performance observers is not modelled. Also left out are metric metadata, the slow-render console warning and the `PerformanceObserver` setup.
- `FPSMonitor`, bundle-size, memory and performance-budget helpers are not modelled. They are platform calls with floating-point results.
- The sign-in page's one-second simulated delay, Google sign-in and the `signIn` call itself are not modelled. Only the credential check and the resulting state are modelled.
- `logout`, `AuthGuard` and the session provider are not modelled. The session e-mail asserted non-null with `email!` is a required field of `AuthContext.SessionUser`.
- Lookups in plain objects, such as the settings error messages and the e-mail-to-client map, are modelled as finite maps. Inherited keys such as `constructor` are therefore not found.
- The settings page's `handleConnectToNotion` simulated delay is not modelled. Neither is the chaining of effects, such as re-fetching status after a save or a connect. Each handler takes the reply it receives as a parameter.
- The team form's `handleSubmit` is not modelled separately, because it only calls `onNext`.
- In the fixture joins, the non-null assertion `find(...)!` becomes an `Option`. `DummyData.DemoIntegrity` proves that the assertion holds for the demo tables.
- Console logging is not modelled.
- CalendarView, the Supabase data wrappers, the pass-through databases route and the authorize route are not part of this model. They are date arithmetic, remote queries and encoding plumbing.
