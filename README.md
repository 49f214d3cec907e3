# TechWiser AI Website — a verified model of its core logic

TechWiser turns a prompt into a small React project. The page sends the prompt
and the project's chat history to Gemini. It reads back the generated files
and a description, saves the project through the projects API, and shows the
files in a Sandpack preview. This project models that core in Dafny:

- **openrouter.dfy**: the OpenRouter model catalogue. It covers the
  featured-model filter, the raw-record-to-model conversion, the
  featured-first, then name, sort, the 10-minute cache, the fallback list, and the
  provider and context-length formatting.
- **gemini.dfy**: how `generateCode` builds the request contents from the
  history, and how it turns a reply into a result or an error.
- **home.dfy**: the page state of `app/page.tsx`. It covers the project list,
  the current project, the toasts, sending a message (PATCH or POST), and the
  new, delete, clear, home, select and load handlers.
- **projects_route.dfy**: the file-backed projects API (`GET` with 24-hour
  expiry, `POST` with stamping). `ensureDb` is modelled over a store that can
  be missing, hold projects, or be unreadable.
- **workspace.dfy**: the Convex workspace table, as a map from id to row.
  Rows are listed by owner token.
- **preview_panel.dfy**: the Sandpack file map (with its placeholder app), the
  "Fix with AI" request, and which panes collapse in each view mode.
- **chat_interface.dfy**: the chat box. It covers submit (trim check,
  language instruction), the speech-recognition callbacks, the mic toggle and
  the recogniser language.
- **settings.dfy**, **auth.dfy**, **language.dfy**: the three React contexts.
  They are the settings mirrored to localStorage, the mock login, signup and
  logout session, and the translation table.
- **sidebar.dfy**, **onboarding.dfy**, **auth_modal.dfy**: the state of the
  sidebar, the onboarding tour and the sign-in dialog.
- **github_callback.dfy**: the GitHub OAuth callback's decision, and the
  redirect URL it builds.
- **wrappers.dfy**, **text.dfy**, **json.dfy**: shared helpers. They provide
  Option, Result and Outcome, JavaScript truthiness and `x || d`, decimal
  text of naturals, and a JSON value type.

Components that change state in place are classes with `modifies` clauses:
`HomeState`, `ModelCache`, `ProjectFile`, `WorkspaceTable`, `ChatBox`,
`SettingsStore`, `AuthSession`, `LanguageState`, `SidebarState`,
`OnboardingState` and `AuthForm`. Their methods state the whole new state. The
rules they follow are functions with lemmas about them.

The model does not perform network I/O, read clocks or generate random ids.
Those values are parameters instead:

- the Gemini SDK's reply (`SdkReply`) and the JSON parse of its text (`parse`);
- the OpenRouter fetch reply (`FetchReply`);
- the save, delete and list replies of the projects API;
- the GitHub token exchange;
- `Date.now()` (`now`);
- `new Date(s).getTime()` (`parseDate`) and `toISOString()` (`iso`);
- the fresh id Convex assigns (`freshId`);
- whether a file-system call throws (`ensureFails`, `writeFails`).

The localStorage entries a component reads and writes are a field of that
component:

- `SettingsStore.storage`;
- `AuthSession.storedUser`;
- `OnboardingState.seenFlag`.

## Model

| member | source | states |
|---|---|---|
| Text.TextBefore | context/AuthContext.tsx:44 | `s.split(c)[0]`: the longest prefix without `c`, followed in `s` by `c` when shorter than `s` |
| Text.Capitalize | lib/openrouter.ts:114 | the first character upper-cased, the rest unchanged, the length kept |
| Text.NatTextRoundTrip | app/api/projects/route.ts:54 | the decimal text of `Date.now()` used as an id reads back as the same number |
| OpenRouter.FormatProvider | lib/openrouter.ts:103-115 | the table name for the eight known slugs; otherwise the slug with its first letter capitalised; empty exactly when the slug is empty |
| OpenRouter.ProviderTableShape | lib/openrouter.ts:104-113 | every table key starts with a lower-case letter and no table name does, so a formatted name is never looked up again |
| OpenRouter.FormatProviderIdempotent | lib/openrouter.ts:103-115 | formatting a formatted provider name again changes nothing |
| OpenRouter.ProviderSlug | lib/openrouter.ts:72 | the text before the first '/' when that is non-empty, and "Unknown" exactly when the id is empty or starts with '/'; never empty |
| OpenRouter.KeepFeatured | lib/openrouter.ts:69-70 | keeps exactly the records whose id is one of the three featured ids, each with its multiplicity |
| OpenRouter.ToModel | lib/openrouter.ts:72-83 | the id is copied; the name is the truthy name or else the id; the description is the truthy description or else "No description available."; the context length is the given one or else 0; each price is the truthy price or else "0"; the provider is the formatted slug and never empty; `isGemini` is false |
| OpenRouter.MapModels | lib/openrouter.ts:71-84 | one converted model per raw record, in the same order |
| OpenRouter.NameLeqTotal | lib/openrouter.ts:90 | the name order is total |
| OpenRouter.NameLeqTransitive | lib/openrouter.ts:90 | the name order is transitive |
| OpenRouter.PrecedesTotal | lib/openrouter.ts:85-91 | the featured-first, then name, order is total |
| OpenRouter.PrecedesTransitive | lib/openrouter.ts:85-91 | the featured-first, then name, order is transitive |
| OpenRouter.Insert | lib/openrouter.ts:85-91 | inserting adds exactly the new model (multiset) |
| OpenRouter.SortModels | lib/openrouter.ts:85-91 | the sort is a permutation of its input |
| OpenRouter.InsertSorted | lib/openrouter.ts:85-91 | inserting into a sorted list keeps it sorted |
| OpenRouter.SortModelsSorted | lib/openrouter.ts:85-91 | the sort's result has featured models first, each group in name order |
| OpenRouter.CatalogueOnlyFeatured | lib/openrouter.ts:69-70 | a successful fetch returns only featured models |
| OpenRouter.CatalogueComplete | lib/openrouter.ts:69-91 | every featured record appears converted; the catalogue is a permutation of the converted featured records |
| OpenRouter.CatalogueOrdered | lib/openrouter.ts:85-91 | the catalogue is sorted featured-first, then by name; as all its models are featured, it is in name order |
| OpenRouter.Catalogue | lib/openrouter.ts:69-91 | the list a successful fetch returns: filter, convert, then sort (properties in the three lemmas above) |
| OpenRouter.FallbackModels | lib/openrouter.ts:117-123 | three models whose ids are exactly the featured ids |
| OpenRouter.FormatContextLength | lib/openrouter.ts:134-138 | non-empty; 'M' suffix from one million, 'K' suffix from one thousand, the plain number below |
| OpenRouter.ThousandsLabel | lib/openrouter.ts:136 | the 'K' label is the rounded thousands count followed by 'K' |
| OpenRouter.SmallLengthRoundTrip | lib/openrouter.ts:137 | below one thousand the label reads back as the length itself |
| OpenRouter.ModelCache.constructor | lib/openrouter.ts:49-51 | an empty cache with timestamp 0 |
| OpenRouter.ModelCache.FetchModels | lib/openrouter.ts:53-101 | a fresh cache answers without fetching and unchanged; a payload gives the catalogue and refreshes the cache and timestamp; any failure gives the fallback list and leaves the cache alone |
| OpenRouter.CachedTwice | lib/openrouter.ts:54-57 | a second call within ten minutes of a successful fetch returns the same list |
| Gemini.FormatHistory | lib/gemini.ts:50-53 | one content per message; role 'user' for user messages and 'model' otherwise; one text part carrying the message |
| Gemini.RequestContents | lib/gemini.ts:56-59 | the formatted history followed by one user turn with one part |
| Gemini.RequestContentsRoundTrip | lib/gemini.ts:50-59 | the history (roles normalised) and the prompt can be read back from the request contents |
| Gemini.ReadResponse | lib/gemini.ts:87-94 | success exactly when the text is present, non-empty and parses; every failure carries the invalid-format message |
| Gemini.GenerateCode | lib/gemini.ts:61-94 | an SDK error propagates its message; once the SDK answers, the result is a success exactly when the text is present, non-empty and parses, and then it is the parsed value; the only error after an answer is the invalid-format message, never "No response from AI" |
| Home.FirstIndex | app/page.tsx:51 | the index of the first project with the id, or the length when there is none |
| Home.FindProject | app/page.tsx:51 | `projects.find`: None exactly when the id is unset or absent; otherwise the first project with that id |
| Home.NewTitle | app/page.tsx:109 | the title of a new project: the prompt truncated to 30 characters plus '...' (see `NewTitleIsDisplayTitle`) |
| Home.NewTitleIsDisplayTitle | app/page.tsx:109 | a new project's title is the sidebar's truncated title of the prompt, and is stable under truncation |
| Home.NextRequestCarriesExchange | app/page.tsx:102-106 | the next request built from the saved history carries the old turns, then the user prompt and the model's description, then the new prompt |
| Home.ReplaceById | app/page.tsx:136 | the saved project replaces each project with the current id; the length is kept |
| Home.ReplaceThenFind | app/page.tsx:136 | every position holding the id now holds the saved project and every other position is untouched; the current project is then the saved one; an absent id changes nothing |
| Home.RemoveById | app/page.tsx:163 | keeps exactly the projects whose id differs |
| Home.RemoveByIdAppend | app/page.tsx:163 | the filter distributes over concatenation |
| Home.RemoveByIdAbsent | app/page.tsx:163 | removing an absent id changes nothing |
| Home.WithoutToast | app/page.tsx:84-86 | keeps exactly the toasts whose id differs |
| Home.WithoutToastCount | app/page.tsx:84-86 | every toast with another id keeps its multiplicity; none with the id remains |
| Home.WithoutToastAppend | app/page.tsx:84-86 | toast removal distributes over concatenation, so the order of the kept toasts is kept |
| Home.AddThenRemoveToast | app/page.tsx:78-86 | adding a toast with a new id and then removing it restores the list |
| Home.AfterSave | app/page.tsx:133-147 | after the save reply: a stored project replaces the projects with a truthy current id, or is prepended and then found as the current project, with a success toast; a rejection or exception changes nothing but one error toast (the save-failed text, or the exception's message or the default) |
| Home.HomeState.constructor | app/page.tsx:38-49 | the initial page state: no projects, no current project, projects loading, nothing open, no toasts |
| Home.HomeState.Files | app/page.tsx:52 | the current project's files, or none |
| Home.HomeState.History | app/page.tsx:94 | the current project's chat history, or empty |
| Home.HomeState.RegeneratePrompt | app/page.tsx:180-183 | a prompt to resend exactly when the current project has a non-empty last prompt |
| Home.HomeState.AddToast | app/page.tsx:78-82 | the toast is appended |
| Home.HomeState.RemoveToast | app/page.tsx:84-86 | the toasts with that id are removed |
| Home.HomeState.RecordSave | app/page.tsx:133-147 | the projects, current id and toasts become `AfterSave` of the old ones |
| Home.HomeState.SendMessage | app/page.tsx:88-151 | the request is built from the current history; PATCH for a truthy current id, else POST; the saved project is recorded; each failure leaves the projects and adds one error toast; loading ends |
| Home.HomeState.NewProject | app/page.tsx:153-157 | no current project, no files, the workspace shown, a success toast |
| Home.HomeState.DeleteProject | app/page.tsx:159-178 | on success the project is removed; a deleted current project is replaced by the first one left, or cleared with the workspace hidden; a rejection changes nothing; an exception adds an error toast |
| Home.HomeState.ClearHistory | app/page.tsx:194-199 | no projects, no current project, the workspace hidden, a success toast |
| Home.HomeState.GoHome | app/page.tsx:226-230 | no current project, the workspace and sidebar closed |
| Home.HomeState.SelectProject | app/page.tsx:247-250 | the chosen id becomes current and the workspace is shown |
| Home.HomeState.LoadProjects | app/page.tsx:55-76 | a listing replaces the projects; a non-empty listing makes its first project current and shows the workspace; an empty listing leaves the current project and the workspace as they were; a rejected reply changes nothing but loading; an exception adds an error toast; loading ends |
| ProjectsRoute.KeepFresh | app/api/projects/route.ts:27-32 | keeps exactly the projects created less than 24 hours ago |
| ProjectsRoute.CreatedTime | app/api/projects/route.ts:29-30 | `new Date(p.createdAt).getTime()`: None (NaN) for a missing field and for objects; None for arrays as a simplification (the source reads an array as its text, so it can be a valid date); 0 for null; 1 or 0 for booleans; a number within the valid date range, else None; the parsed date for a string |
| ProjectsRoute.Fresh | app/api/projects/route.ts:28-31 | created less than 24 hours before now; an invalid date is never fresh |
| ProjectsRoute.KeepFreshAppend | app/api/projects/route.ts:27-32 | the expiry filter distributes over concatenation |
| ProjectsRoute.KeepFreshSameLength | app/api/projects/route.ts:35-37 | the filter keeps the length exactly when every project is fresh, and then it changes nothing |
| ProjectsRoute.KeepFreshLater | app/api/projects/route.ts:27-32 | filtering at a time and again later is filtering at the later time |
| ProjectsRoute.Stamp | app/api/projects/route.ts:52-57 | the body's fields plus an id of the current time, createdAt now and expiresAt 24 hours later |
| ProjectsRoute.StampedLifetime | app/api/projects/route.ts:28-31 | a stamped project is fresh exactly until 24 hours after its creation |
| ProjectsRoute.Ensured | app/api/projects/route.ts:7-18 | a missing file becomes an empty list unless the write fails; otherwise the store is unchanged |
| ProjectsRoute.ProjectFile.constructor | app/api/projects/route.ts:5 | the store as given |
| ProjectsRoute.ProjectFile.EnsureDb | app/api/projects/route.ts:7-18 | the store becomes `Ensured` of the old store |
| ProjectsRoute.ProjectFile.Get | app/api/projects/route.ts:20-43 | the fresh projects; the file is rewritten only when some expired; any failure gives the fetch error |
| ProjectsRoute.ProjectFile.Post | app/api/projects/route.ts:45-66 | the stamped project is returned and put first; a bad body, store or write gives the create error and adds nothing |
| ProjectsRoute.PostThenGet | app/api/projects/route.ts:52-62 | a project posted to an empty store comes back from a GET within 24 hours, alone, with its fields intact |
| Workspace.OwnedBy | convex/workspace.ts:22-27 | nothing for a falsy token; otherwise exactly the rows whose token equals it |
| Workspace.OwnedByInsert | convex/workspace.ts:22-27 | a new row is listed for its own token only |
| Workspace.OwnedByDisjoint | convex/workspace.ts:22-27 | two different tokens list disjoint rows |
| Workspace.WorkspaceTable.constructor | convex/schema.ts:11-15 | an empty table |
| Workspace.WorkspaceTable.CreateWorkspace | convex/workspace.ts:9-15 | a new row with the messages, no files and the token; then readable by id and listed for its token |
| Workspace.WorkspaceTable.GetWorkspace | convex/workspace.ts:35-37 | the row with that id, or nothing |
| Workspace.WorkspaceTable.GetAllWorkspaces | convex/workspace.ts:22-27 | the rows `OwnedBy` the token |
| Workspace.WorkspaceTable.UpdateWorkspace | convex/workspace.ts:46-53 | only that row's messages change; a missing id changes nothing |
| Workspace.WorkspaceTable.UpdateFiles | convex/workspace.ts:62-69 | only that row's files change; a missing id changes nothing |
| Workspace.WorkspaceTable.DeleteWorkspace | convex/workspace.ts:77-84 | the row is gone and success is reported; on an engine error nothing changes and the error is reported |
| PreviewPanel.FileMapLastWins | components/PreviewPanel.tsx:96-100 | the keys are exactly the file paths; a path written more than once holds its last content |
| PreviewPanel.BuildSandpackFiles | components/PreviewPanel.tsx:43-100 | the placeholder app when there are no files, else the map of the files |
| PreviewPanel.SandpackKeys | components/PreviewPanel.tsx:96-100 | the loop's map has exactly the file paths as keys, and the last content wins |
| PreviewPanel.FixRequest | components/PreviewPanel.tsx:17-32 | a request exactly when there is a handler and an error; the error message when it is non-empty, otherwise "Please check the code for errors and fix them." |
| PreviewPanel.SomePaneOpen | components/PreviewPanel.tsx:147-177 | the editor and the preview are never both collapsed; both are open exactly in split mode |
| PreviewPanel.ExplorerCollapsed | components/PreviewPanel.tsx:147 | the file explorer collapses in preview mode |
| PreviewPanel.EditorCollapsed | components/PreviewPanel.tsx:155 | the editor collapses in preview mode |
| PreviewPanel.PreviewCollapsed | components/PreviewPanel.tsx:177 | the preview collapses in code mode |
| ChatInterface.TrimStart | components/ChatInterface.tsx:65 | a suffix of the input; only white space is dropped; the result starts with non-white-space |
| ChatInterface.TrimEnd | components/ChatInterface.tsx:65 | a prefix of the input; only white space is dropped; the result ends with non-white-space |
| ChatInterface.TrimNonEmpty | components/ChatInterface.tsx:65 | the trimmed input is non-empty exactly when it has a non-white-space character |
| ChatInterface.LanguageTextsDistinct | components/ChatInterface.tsx:43-52 | different languages get different instructions and different recogniser tags |
| ChatInterface.AppendTranscript | components/ChatInterface.tsx:29 | the transcript alone for an empty input, otherwise the input, a space and the transcript |
| ChatInterface.ToggleAsWrittenSticks | components/ChatInterface.tsx:54-61 | without a recogniser a click sets recording on and nothing stops it |
| ChatInterface.ToggleGuarded | components/ChatInterface.tsx:54-61 | recording only with a recogniser; with one, start from idle and stop while recording |
| ChatInterface.ToggleGuardedAgrees | components/ChatInterface.tsx:54-61 | the guarded toggle agrees with the code whenever a recogniser exists, and differs only without one |
| ChatInterface.ChatBox.constructor | components/ChatInterface.tsx:16-17 | an empty input, not recording |
| ChatInterface.ChatBox.Edit | components/ChatInterface.tsx:108 | the input becomes the typed text |
| ChatInterface.ChatBox.Submit | components/ChatInterface.tsx:63-70 | sends exactly when the trimmed input is non-empty and nothing is loading; the message is the language instruction plus the input; the input is then cleared |
| ChatInterface.ChatBox.OnResult | components/ChatInterface.tsx:27-31 | the transcript is appended and recording stops |
| ChatInterface.ChatBox.OnEnd | components/ChatInterface.tsx:33-39 | recording stops and the input is kept |
| ChatInterface.ChatBox.ToggleRecording | components/ChatInterface.tsx:54-61 | the guarded toggle; recording is never on without a recogniser |
| ChatInterface.ChatBox.ApplyLanguage | components/ChatInterface.tsx:43-52 | the recogniser's language becomes the tag of the current language |
| Settings.StorageKeysDistinct | context/SettingsContext.tsx:25-28 | the four storage keys are pairwise distinct |
| Settings.Loaded | context/SettingsContext.tsx:24-36 | a stored entry replaces its field only when present and non-empty; the flag is true exactly for the text "true" |
| Settings.UseCustomGeminiRoundTrip | context/SettingsContext.tsx:34 | a stored flag reads back as the same boolean |
| Settings.KeysRoundTrip | context/SettingsContext.tsx:31-32 | a stored API key reads back unchanged |
| Settings.ModelRoundTrip | context/SettingsContext.tsx:33 | a stored model reads back, except that an empty one leaves the default |
| Settings.SettingsStore.constructor | context/SettingsContext.tsx:19-22 | the default settings |
| Settings.SettingsStore.Load | context/SettingsContext.tsx:24-36 | the state becomes the loaded state; from the defaults it agrees with the storage |
| Settings.SettingsStore.UpdateOpenRouterKey | context/SettingsContext.tsx:38-41 | that field and its storage entry change, and agreement with the storage is kept |
| Settings.SettingsStore.UpdateGeminiKey | context/SettingsContext.tsx:43-46 | that field and its storage entry change, and agreement with the storage is kept |
| Settings.SettingsStore.UpdateSelectedModel | context/SettingsContext.tsx:48-51 | that field and its storage entry change; agreement is kept for a non-empty model |
| Settings.SettingsStore.UpdateUseCustomGemini | context/SettingsContext.tsx:53-56 | that field and its storage entry (as 'true' or 'false') change, and agreement is kept |
| Auth.LoginUser | context/AuthContext.tsx:41-46 | the email is kept; the name is the part of the email before the first '@' |
| Auth.SignupUser | context/AuthContext.tsx:62-67 | the user signup builds: id from the clock, email and name as given, avatar from the email |
| Auth.UserIdsDistinct | context/AuthContext.tsx:42 | users created at different instants get different ids |
| Auth.AuthSession.constructor | context/AuthContext.tsx:24-25 | no user, loading |
| Auth.AuthSession.Restore | context/AuthContext.tsx:27-34 | a stored user is restored; loading ends |
| Auth.AuthSession.Login | context/AuthContext.tsx:36-55 | succeeds exactly for a non-empty email and password, then stores the built user; otherwise "Invalid credentials" and nothing changes |
| Auth.AuthSession.Signup | context/AuthContext.tsx:57-76 | succeeds exactly for a non-empty email, password and name, then stores the built user; otherwise "Invalid data" and nothing changes |
| Auth.AuthSession.Logout | context/AuthContext.tsx:78-81 | no user, nothing stored, not authenticated |
| Auth.SessionSurvivesReload | context/AuthContext.tsx:27-55 | after a login a fresh session restores the same user, which exists exactly when the credentials were accepted |
| Language.T | context/LanguageContext.tsx:89-91 | the entry for the language, or the English entry when it is empty |
| Language.TableComplete | context/LanguageContext.tsx:15-76 | every key has text in all three languages |
| Language.NeverFallsBack | context/LanguageContext.tsx:89-91 | for a key of the table `t` gives the current language's non-empty entry |
| Language.LanguageState.constructor | context/LanguageContext.tsx:87 | English first |
| Language.LanguageState.SetLanguage | context/LanguageContext.tsx:94 | the language becomes the chosen one |
| Language.LanguageState.Translate | context/LanguageContext.tsx:89-91 | the current language's entry |
| Sidebar.DisplayTitle | components/Sidebar.tsx:237 | titles up to 30 characters unchanged; longer ones become their first 30 characters plus '...' |
| Sidebar.DisplayTitleStable | components/Sidebar.tsx:237 | a shown title is at most 33 characters, and truncating it again changes nothing |
| Sidebar.ClearVisible | components/Sidebar.tsx:175-178 | the "Clear" button shows only when the sidebar is expanded, the history is non-empty and nothing is loading |
| Sidebar.SidebarState.constructor | components/Sidebar.tsx:85-88 | the drafts start as the saved keys; nothing is flagged as saved; the panel is closed |
| Sidebar.SidebarState.GeminiSaveDisabled | components/Sidebar.tsx:401 | the Gemini "Save" button is disabled when the custom key is off or the draft equals the saved key |
| Sidebar.SidebarState.OpenRouterSaveDisabled | components/Sidebar.tsx:448 | the OpenRouter "Save" button is disabled when the draft equals the saved key |
| Sidebar.SidebarState.EditGeminiDraft | components/Sidebar.tsx:386 | only the Gemini draft changes |
| Sidebar.SidebarState.EditOpenRouterDraft | components/Sidebar.tsx:435 | only the OpenRouter draft changes |
| Sidebar.SidebarState.SaveGeminiKey | components/Sidebar.tsx:99-103 | the draft becomes the saved key and its storage entry; only the Gemini flag is raised; the button is then disabled |
| Sidebar.SidebarState.SaveOpenRouterKey | components/Sidebar.tsx:105-109 | the draft becomes the saved key and its storage entry; only the OpenRouter flag is raised; the button is then disabled |
| Sidebar.SidebarState.GeminiSavedExpired | components/Sidebar.tsx:102 | the Gemini saved flag is lowered; nothing else changes |
| Sidebar.SidebarState.OpenRouterSavedExpired | components/Sidebar.tsx:108 | the OpenRouter saved flag is lowered; nothing else changes |
| Sidebar.SidebarState.SyncGeminiDraft | components/Sidebar.tsx:91-93 | the Gemini draft resets to the saved key |
| Sidebar.SidebarState.SyncOpenRouterDraft | components/Sidebar.tsx:95-97 | the OpenRouter draft resets to the saved key |
| Sidebar.SidebarState.ToggleSettings | components/Sidebar.tsx:281-284 | the sidebar is expanded and the panel flag flips |
| Sidebar.SidebarState.SignOut | components/Sidebar.tsx:477-479 | the session is logged out with nothing stored, and the panel closes; the drafts, the saved flags, the collapse state and the session's loading flag are unchanged |
| Onboarding.PrimaryLabel | components/OnboardingOverlay.tsx:129 | "Get Started" exactly on the last step, "Next" otherwise |
| Onboarding.OnboardingState.constructor | components/OnboardingOverlay.tsx:36-37 | first step, hidden |
| Onboarding.OnboardingState.Mount | components/OnboardingOverlay.tsx:39-49 | shown exactly when the seen flag is not set |
| Onboarding.OnboardingState.Complete | components/OnboardingOverlay.tsx:65-69 | the seen flag is stored as "true" and the tour hides |
| Onboarding.OnboardingState.Next | components/OnboardingOverlay.tsx:51-57 | advances one step, or completes the tour on the last step |
| Onboarding.OnboardingState.Prev | components/OnboardingOverlay.tsx:59-63 | goes back one step, never below the first |
| Onboarding.TourThenReload | components/OnboardingOverlay.tsx:39-69 | a first visit shows the tour with labels Next, Next, Next, Get Started; after completing it a reload does not show it |
| AuthModal.Toggled | components/AuthModal.tsx:151 | the toggle always switches the mode |
| AuthModal.ToggledTwice | components/AuthModal.tsx:151 | toggling twice restores the mode |
| AuthModal.AuthForm.constructor | components/AuthModal.tsx:16-24 | login mode, not loading, no error, empty fields |
| AuthModal.AuthForm.EditName | components/AuthModal.tsx:89 | only the name field changes |
| AuthModal.AuthForm.EditEmail | components/AuthModal.tsx:105 | only the email field changes |
| AuthModal.AuthForm.EditPassword | components/AuthModal.tsx:120 | only the password field changes |
| AuthModal.AuthForm.ToggleMode | components/AuthModal.tsx:151 | only the mode changes |
| AuthModal.AuthForm.Submit | components/AuthModal.tsx:26-43 | closes exactly when the mode's login or signup succeeds, with the built user signed in and stored for the next reload; otherwise shows the error and leaves the session alone; the session's loading flag is unchanged; the form's loading ends |
| GithubCallback.Callback | app/api/github/callback/route.ts:10-56 | a token redirect exactly when every check passes and the exchange returns a truthy token; a truthy error parameter gives itself; then no code gives no_code; a missing client id or secret gives missing_env; a thrown exchange gives server_error; a reply error gives itself; a reply without a token gives no_token |
| GithubCallback.ExchangeIrrelevantBeforeEnv | app/api/github/callback/route.ts:10-23 | when a check fails before the exchange, its reply makes no difference and the redirect is an error |
| GithubCallback.CheckOrder | app/api/github/callback/route.ts:10-23 | when several checks fail, the error parameter beats a missing code and a missing client id or secret, and a missing code beats missing configuration |
| GithubCallback.ErrorRedirectInjectsToken | app/api/github/callback/route.ts:11 | the URL as written turns an error value into a second, github_token parameter |
| GithubCallback.EncodeValue | app/api/github/callback/route.ts:11 | an encoded value contains no '&', '=', '#' or '+' |
| GithubCallback.DecodeEncode | app/api/github/callback/route.ts:11 | decoding an encoded value gives it back |
| GithubCallback.EncodedAfter | app/api/github/callback/route.ts:11 | after any prefix, an encoded value contributes no query delimiter and decodes back to the value |
| GithubCallback.RedirectUrl | app/api/github/callback/route.ts:11 | the corrected URL: the base, then one parameter name and '=', then text with no '&', '=' or '#' that decodes to exactly the reason or token |
| GithubCallback.RedirectUrlKeepsPlainRedirects | app/api/github/callback/route.ts:48 | for a reason or token without delimiters, the corrected URL equals the URL as written |
| GithubCallback.EncodeKeepsPlainValues | app/api/github/callback/route.ts:48 | values without delimiters, such as the fixed reasons, are unchanged by encoding |

## Left out

- Network, SDK and database calls are not performed. Their replies are parameters.
- Timers, `async` ordering and stale React closures are not modelled. Each handler runs as one step.
- `console` logging is left out.
- The system instruction and the placeholder app are abbreviated to their opening text. Only their presence in the request and the map matters here.
- `localeCompare` is not modelled. The name order is the code-unit order, and the sort is a stable insertion sort.
- `toFixed(1)` and `Math.round` are exact decimal arithmetic on naturals. The model does not capture double-precision rounding, or context lengths that are fractional, negative or NaN.
- `formatPricing` and the static `GEMINI_MODELS` list are not modelled.
- `toUpperCase` acts on ASCII letters only.
- Sidebar.DisplayTitle: counts Unicode characters, where `.length` and `.slice(0, 30)` count UTF-16 code units; a title with characters outside the Basic Multilingual Plane (emoji) is cut at a different place, and the source can split a surrogate pair.
- Home.NewTitle: the same UTF-16 difference as `DisplayTitle`, for the 30-character cut of a new project's title.
- Text.Capitalize: `charAt(0)` and `slice(1)` work on UTF-16 code units, the model on Unicode characters; they differ only for a slug starting outside the Basic Multilingual Plane.
- Object-prototype keys are treated as ordinary keys: `__proto__` in the provider table and the Sandpack map.
- JSON is a value type. `JSON.stringify`, `JSON.parse` and file formats are not modelled.
- `new Date(...).getTime()` on arrays, objects and fractional numbers is left out. So are non-object array elements and request bodies, and non-string `error` or `access_token` values.
- Convex: the table is a map, so index and insertion order are not modelled.
- Workspace.WorkspaceTable.UpdateWorkspace: the value returned by the update is not modelled.
- Workspace.WorkspaceTable.UpdateFiles: the value returned by the update is not modelled.
- Sidebar.SidebarState.SignOut: the `onClose` callback it also calls is not modelled.
- The split-mode breakpoint of the preview panes is not modelled.
- Page handlers that only copy, zip, publish or call the GitHub connect flow are not modelled. The same goes for `app/api/github/login` and the per-project PATCH/DELETE route. Their replies reach the model only as parameters.
- Home.HomeState.SendMessage: the provider and key options passed along are ignored, as `generateCode` ignores them. The `toLocaleTimeString` date is a parameter.
- GithubCallback.EncodeValue: escapes only the URL delimiters, not all of `encodeURIComponent` (UTF-8 percent-encoding of every non-unreserved character).
- localStorage is not one shared store. Each component's entries are its own field.

## Findings

| source | as written | input that shows it | evidently intended | confidence | as-written member | corrected member |
|---|---|---|---|---|---|---|
| components/ChatInterface.tsx:54-61 | a click while idle sets `isRecording` even when no recogniser exists; `start()` is then skipped and no `onend` ever clears the flag | a browser without SpeechRecognition, one click on the microphone button | record only when a recogniser exists | medium, not executed | ChatInterface.ToggleAsWrittenSticks | ChatInterface.ToggleGuarded |
| app/api/github/callback/route.ts:11 | the provider's `error` value is put into the redirect URL without encoding | a callback with `error=x%26github_token%3Devil` redirects to `/?github_error=x&github_token=evil` | encode the value so the redirect carries exactly one parameter | medium, not executed | GithubCallback.ErrorRedirectInjectsToken | GithubCallback.RedirectUrl |
