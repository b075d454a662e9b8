# rhythme-mobile core, modelled in Dafny

Rhythme is a productivity app (React Native / Expo). Its core keeps tasks and one long-term goal
in on-device storage and signs users in through an identity provider. It also decides where the
root navigator sends the user. This project models that core and proves properties about it:

- **Task store** (`task_store.dfy`, module `TaskStore`): an ordered collection of task records
  kept under the storage key `@rhythme_tasks`.
  - The class `TaskStorage` holds the collection as a `seq<Task>` field.
  - Operations: prepend on `create`; shallow-merge `update` with a one-time `completedAt` stamp;
    `delete` by filter; a completion toggle; aggregate statistics; the demo seed loop.
- **Goal store** (`goal_store.dfy`, module `GoalStore`): at most one goal, kept under the key
  `rhythme_goal`.
  - The class `GoalStorage` holds it as an `Option<Goal>` field.
  - Operations: replace on `create`; merge `update` with `id` and `createdAt` kept; clamped
    progress updates; delete; whole days remaining, rounded up.
- **URL parameters** (`url_params.dfy`, module `UrlParams`):
  - JavaScript's `split` with a one-character separator;
  - a simplified `application/x-www-form-urlencoded` reader, as `URLSearchParams` applies it
    (section 5.1 of the WHATWG URL Standard).
- **Auth provider** (`auth_provider.dfy`, module `AuthProvider`):
  - tokens are extracted from an OAuth callback URL, fragment first with the query as fallback;
  - the outcome of `signInWithOAuth`;
  - the `user` / `session` / `isLoading` state (class `AuthState`);
  - the e-mail pass-throughs.
- **OAuth callback screen** (`auth_callback.dfy`, module `AuthCallback`): the error or redirect
  that `handleCallback` produces, and the screen's `error` / `processing` state (class
  `AuthCallbackScreen`).
- **Root layout** (`root_layout.dfy`, module `RootLayout`):
  - the redirect decision of the navigation guard, as a total function;
  - `checkGoal` and the guard's `hasGoal` / `checkingGoal` state (class `RootLayoutNav`).

Conventions:

- **Time.** Timestamps are integers (milliseconds). The current time is a parameter. "Same
  calendar day" goes through a parameter `dayOf` (what `toDateString` compares).
- **Ids.** Ids are parameters.
- **Foreign calls** (Supabase, the system browser, `Linking`) are oracles: each reply is a
  parameter of type `Reply<T>`, either a returned value or a thrown error.
- **JavaScript truthiness** of a `string | null` is `Present`: present and non-empty.
- **Patches.** A `Partial<…>` patch has one `Option` per field. An optional field's patch is
  `Option<Option<T>>`, so that an explicit `undefined` in the patch can clear the field, as the
  object spread does.

### Behaviour worth knowing

- **Stamping rule.** `update` stamps `completedAt` when the *patch* says `status: "completed"`
  and the old task has no `completedAt` (lib/storage/tasks.ts:106). The old status does not
  matter, so a task that is already completed but has no `completedAt` is stamped too.
- **Explicit `completedAt` in a patch.** A patch that carries `completedAt` overwrites the
  field whenever the stamping rule does not apply (lib/storage/tasks.ts:101, `TaskStore.Merge`).
  Callers can therefore set or clear it directly.
- **Reverting keeps the stamp.** A task moved back from completed keeps its old `completedAt`
  (`TaskStore.RevertKeepsStamp`). While that time is today, the task still counts in
  `completedToday` (`TaskStore.CompletedTodayIgnoresStatus`).

## Model

| member | source | states |
|---|---|---|
| Common.Pick | lib/storage/tasks.ts:99-103 | a field carried by a patch replaces the current value; an absent one keeps it (object spread) |
| TaskStore.NewTask | lib/storage/tasks.ts:76-82 | the created task has the given id, `createdAt == updatedAt == now`, and every input field unchanged |
| TaskStore.FindIndex | lib/storage/tasks.ts:96 | `findIndex`: the first position holding the id; -1 exactly when no task has it |
| TaskStore.Find | lib/storage/tasks.ts:65 | `find`: none exactly when no task has the id; otherwise the task at the first position holding it |
| TaskStore.StampsCompletion | lib/storage/tasks.ts:106 | a patch stamps `completedAt` exactly when it sets status completed and the old task has no `completedAt` |
| TaskStore.Merge | lib/storage/tasks.ts:99-108 | each patched field overwrites and each absent one is kept; `updatedAt` is `now` even when the patch carries one; `completedAt` becomes `now` exactly when the patch completes a task without `completedAt` |
| TaskStore.UpdateTasks | lib/storage/tasks.ts:95-110 | absent id: null and the collection unchanged; otherwise only the first matching position is replaced by the merged task, the length is kept and every other position is unchanged |
| TaskStore.SecondCompletionKeepsStamp | lib/storage/tasks.ts:105-108 | a second completing update keeps the `completedAt` the first one set |
| TaskStore.RevertKeepsStamp | lib/storage/tasks.ts:105-108 | a patch moving status away from completed does not clear `completedAt` |
| TaskStore.FindIndexAfterUpdate | lib/storage/tasks.ts:96-110 | an update that keeps the id leaves the task findable at the same position |
| TaskStore.ToggledStatus | lib/storage/tasks.ts:137 | completed becomes pending, pending and in progress become completed; never in progress |
| TaskStore.ToggleTasks | lib/storage/tasks.ts:133-139 | absent id: null and nothing changes; otherwise the first match is replaced by the old task merged with a patch carrying only the toggled status, every other position and the length are kept, a never-completed task toggled to completed is stamped with `now`, and a completed one toggled back keeps its stamp |
| TaskStore.ToggleTwiceFromPending | lib/storage/tasks.ts:133-139 | from pending, one toggle gives completed, a second gives pending again, and the position is kept |
| TaskStore.Filter | lib/storage/tasks.ts:123 | `filter` keeps exactly the elements that pass, drawn from the input, never more than the input |
| TaskStore.FilterAppend | lib/storage/tasks.ts:123 | filtering keeps the original relative order (it distributes over concatenation) |
| TaskStore.Remove | lib/storage/tasks.ts:122-125 | `delete` keeps exactly the tasks whose id differs; an absent id leaves the collection unchanged; the collection shrinks exactly when some task had the id |
| TaskStore.RemoveKeepsOrder | lib/storage/tasks.ts:123 | `delete` keeps the original order: it works piecewise over a concatenation and keeps a single task exactly when its id differs |
| TaskStore.StatusPartition | lib/storage/tasks.ts:148-150 | completed, pending and in-progress counts add up to the number of tasks |
| TaskStore.IsOverdue | lib/storage/tasks.ts:151-154 | overdue: has a due date earlier than now and is not completed |
| TaskStore.CompletedOnDay | lib/storage/tasks.ts:155-158 | completed today: has a `completedAt` on the same calendar day as now, whatever the status |
| TaskStore.IsOpenHighPriority | lib/storage/tasks.ts:159-161 | open high priority: priority high and not completed |
| TaskStore.Stats | lib/storage/tasks.ts:142-163 | `total` is the collection size; each other count is the number of tasks passing its test (the status tests, `IsOverdue`, `CompletedOnDay`, `IsOpenHighPriority`); completed + pending + inProgress is `total`, and overdue or high-priority plus completed is at most `total` |
| TaskStore.CompletedTodayIgnoresStatus | lib/storage/tasks.ts:155-158 | `completedToday` depends only on `completedAt`, whatever the task's current status |
| TaskStore.AllCompletedStats | lib/storage/tasks.ts:148-161 | in an all-completed collection, nothing is pending, in progress, overdue or open high priority |
| TaskStore.StatsScenario | lib/storage/tasks.ts:146-162 | completed today + pending due yesterday + pending high-priority due tomorrow gives total 3, completed 1, pending 2, inProgress 0, overdue 1, completedToday 1, highPriority 1 |
| TaskStore.SampleTasks | lib/storage/tasks.ts:170-231 | the seven demo tasks |
| TaskStore.TaskStorage.constructor | lib/storage/tasks.ts:50-54 | an absent storage key reads as the empty collection |
| TaskStore.TaskStorage.GetAll | lib/storage/tasks.ts:48-59 | `getAll` returns the stored collection in order |
| TaskStore.TaskStorage.GetById | lib/storage/tasks.ts:62-70 | none exactly when no task has the id; otherwise the task at the first index holding it |
| TaskStore.TaskStorage.Create | lib/storage/tasks.ts:73-90 | the new task is prepended and the tail is exactly the old collection; it has the input fields with `createdAt == updatedAt == now` |
| TaskStore.TaskStorage.Update | lib/storage/tasks.ts:93-117 | the result and the new collection are those of `UpdateTasks` on the old collection |
| TaskStore.TaskStorage.Delete | lib/storage/tasks.ts:120-130 | returns true, also when nothing matched; the new collection is `Remove` of the old |
| TaskStore.TaskStorage.ToggleComplete | lib/storage/tasks.ts:133-139 | the result and the new collection are those of `ToggleTasks` on the old collection |
| TaskStore.TaskStorage.GetStats | lib/storage/tasks.ts:142-163 | the statistics of the stored collection, with the total and status partition |
| TaskStore.TaskStorage.SeedSampleData | lib/storage/tasks.ts:166-236 | a non-empty store is left alone; an empty one ends up with the seven samples created one by one, in reverse order |
| GoalStore.NewGoal | lib/storage/goals.ts:53-62 | the created goal has the given id, the input's title, description and target date, status active, progress 0 and `createdAt == updatedAt == now` |
| GoalStore.MergeGoal | lib/storage/goals.ts:75-79 | `id` and `createdAt` are kept, `updatedAt` is `now`; patched fields overwrite and the rest are kept |
| GoalStore.Clamp | lib/storage/goals.ts:90 | `max(0, min(100, x))`: within [0,100], `x` itself inside the range, 0 below, 100 above |
| GoalStore.ProgressPatch | lib/storage/goals.ts:89-92 | the patch `updateProgress` sends carries only progress and status: progress in [0,100], status never paused, achieved exactly with progress 100 |
| GoalStore.ProgressRule | lib/storage/goals.ts:88-93 | progress ends in [0,100]; status is achieved iff `x >= 100` (iff progress is 100), otherwise active, never paused; other fields are kept |
| GoalStore.CeilDiv | lib/storage/goals.ts:109 | `Math.ceil(a / b)` for positive `b`: the least `q` with `a <= q * b` |
| GoalStore.DaysRemaining | lib/storage/goals.ts:105-110 | the whole number of days, rounded up, from now to the target date |
| GoalStore.DaysRemainingSign | lib/storage/goals.ts:105-110 | 0 on the target time, -1 exactly one day late, positive before the target, at most 0 from the target on |
| GoalStore.GoalStorage.constructor | lib/storage/goals.ts:32-33 | an absent key reads as no goal |
| GoalStore.GoalStorage.Get | lib/storage/goals.ts:30-38 | the stored goal, or none |
| GoalStore.GoalStorage.HasGoal | lib/storage/goals.ts:43-46 | true iff `get` gives a goal |
| GoalStore.GoalStorage.Create | lib/storage/goals.ts:51-66 | the stored goal is exactly the new one, replacing any previous one: input fields, status active, progress 0, `createdAt == updatedAt == now` |
| GoalStore.GoalStorage.Update | lib/storage/goals.ts:71-83 | with no goal: null and nothing stored; otherwise the merged goal is stored and returned |
| GoalStore.GoalStorage.UpdateProgress | lib/storage/goals.ts:88-93 | with no goal: null; otherwise progress is the clamped value and status is achieved iff `x >= 100`, else active |
| GoalStore.GoalStorage.Delete | lib/storage/goals.ts:98-100 | afterwards no goal is stored, so a second delete changes nothing |
| UrlParams.Split | context/AuthProvider.tsx:127 | `split(c)`: at least one piece, several exactly when `c` occurs, no piece contains `c`, and joining with `c` gives the input back |
| UrlParams.ParseParam | context/AuthProvider.tsx:128 | a name-value piece is cut at its first `=`; without `=` the value is empty |
| UrlParams.Parse | context/AuthProvider.tsx:128 | `new URLSearchParams(q)`: an empty query (or a lone `?`) has no pairs; a single non-empty piece without `&` is its one pair, with an empty value when it has no `=` |
| UrlParams.ParsePieces | context/AuthProvider.tsx:128 | at most one pair per piece; every pair comes from a non-empty piece, and every non-empty piece gives a pair |
| UrlParams.ParsePiecesAppend | context/AuthProvider.tsx:128 | parsing distributes over concatenation of pieces, so pairs keep the pieces' order |
| UrlParams.ParsePiecesSingle | context/AuthProvider.tsx:128 | an empty piece gives no pair, any other piece exactly its own pair |
| UrlParams.SplitJoin | context/AuthProvider.tsx:127 | splitting the join of at least one `c`-free piece gives those pieces back |
| UrlParams.ParseJoin | context/AuthProvider.tsx:128 | a query spelt from `&`-free pieces with a leading `?`, or without one when the first piece does not start with `?`, parses to exactly the pieces' pairs, so with `SplitJoin`, `ParsePiecesAppend` and `ParsePiecesSingle` every query's result is determined |
| UrlParams.Get | context/AuthProvider.tsx:129-130 | `params.get(name)`: none exactly when no pair has the name; otherwise the value of the first such pair |
| UrlParams.ParseTwoPairs | context/AuthProvider.tsx:128 | `n1=v1&n2=v2` with `&`-free values parses to exactly those two pairs, in order |
| AuthProvider.ExtractTokens | context/AuthProvider.tsx:122-141 | fragment tokens when the fragment has an access token; otherwise both tokens come from the query when it is consulted and non-empty; otherwise the fragment's (or none without `#`) |
| AuthProvider.TokensIn | context/AuthProvider.tsx:128-130 | each token is absent exactly when no pair of the query has its name, and otherwise is the value of the first pair with that name; an empty query has no tokens |
| AuthProvider.FragmentOf | context/AuthProvider.tsx:127 | `split("#")[1]` is the text right after the first `#`, free of `#`, ending at the next `#` or the end of the URL |
| AuthProvider.QueryOf | context/AuthProvider.tsx:135 | `split("?")[1].split("#")[0]` is the text right after the first `?`, free of `?` and `#`, ending at the next `?` or `#` or the end of the URL |
| AuthProvider.FragmentIsBetweenHashes | context/AuthProvider.tsx:126-127 | the fragment read is the text between the first `#` and the next one (or the end) |
| AuthProvider.QueryIsAfterQuestionMark | context/AuthProvider.tsx:134-135 | the query read is the text after the first `?`, up to the next `?` or `#` |
| AuthProvider.TokensInTwoParams | context/AuthProvider.tsx:128-130 | `access_token=A&refresh_token=B` yields exactly `A` and `B` |
| AuthProvider.TokensFromFragment | context/AuthProvider.tsx:122-131 | a URL `base#access_token=A&refresh_token=B` yields `A` and `B` |
| AuthProvider.TokensFromQuery | context/AuthProvider.tsx:133-141 | the same parameters after `?`, with no fragment, yield the same tokens through the fallback |
| AuthProvider.NoTokensWithoutFragmentOrQuery | context/AuthProvider.tsx:122-141 | a URL with neither `#` nor `?` yields no tokens |
| AuthProvider.AfterCallback | context/AuthProvider.tsx:143-156 | `setSession` is called exactly when both tokens are present, with exactly those tokens, and its error is returned unchanged |
| AuthProvider.SignInWithOAuth | context/AuthProvider.tsx:87-167 | a provider error is returned first; `setSession` only with both tokens of the callback URL, and then its error is the result, unchanged; a cancelled browser gives "Authentication was cancelled" |
| AuthProvider.OAuthSucceedsIff | context/AuthProvider.tsx:109-162 | no error exactly when: no provider error, and either no authorisation URL, or the browser returned and then one of: the session was set without error, no tokens but an existing session, or a non-success result other than cancel |
| AuthProvider.ProviderErrorComesFirst | context/AuthProvider.tsx:101-111 | with a provider error or no authorisation URL, later replies do not matter and no session is set |
| AuthProvider.MissingTokensNeedExistingSession | context/AuthProvider.tsx:149-156 | without both tokens: success iff a session exists, else "Failed to get authentication tokens" |
| AuthProvider.OAuthFragmentCallback | context/AuthProvider.tsx:117-148 | a fragment callback with both tokens sets the session with them and returns `setSession`'s error unchanged |
| AuthProvider.UserOf | context/AuthProvider.tsx:55 | `session?.user ?? null`: a user exactly when there is a session, and it is the session's user |
| AuthProvider.AuthState.constructor | context/AuthProvider.tsx:47-49 | initially loading, with no user and no session |
| AuthProvider.AuthState.OnInitialSession | context/AuthProvider.tsx:53-57 | after the initial fetch, not loading, with the session and its user |
| AuthProvider.AuthState.OnAuthStateChange | context/AuthProvider.tsx:62-66 | after any auth event, not loading, with the session and its user |
| AuthProvider.AuthState.SignInWithEmail | context/AuthProvider.tsx:71-77 | the provider's error is returned unchanged; the state is not touched and stays consistent |
| AuthProvider.AuthState.SignUpWithEmail | context/AuthProvider.tsx:79-85 | the provider's error is returned unchanged; the state is not touched and stays consistent |
| AuthCallback.ExistingSession | app/auth/callback.tsx:59-80 | with a session: redirect when the navigation key is there; without one: the given message; a thrown error: the generic message |
| AuthCallback.CallbackResult | app/auth/callback.tsx:13-88 | redirects only with the navigation key and no error; a throwing URL read, `setSession` or `getSession` gives the generic error and no redirect; the session is set only with both tokens of the URL |
| AuthCallback.RedirectsIffNoError | app/auth/callback.tsx:41-84 | with the navigation key, the handler redirects exactly when it shows no error |
| AuthCallback.SessionErrorShown | app/auth/callback.tsx:41-51 | a session error is shown with its own message and there is no redirect |
| AuthCallback.MissingTokensNeedSession | app/auth/callback.tsx:58-80 | without both tokens: an existing session redirects; otherwise "Authentication failed. Please try again." (with a URL) or "No authentication data found." (without) |
| AuthCallback.SameTokensAsOAuthFlow | app/auth/callback.tsx:20-46 | for the same URL, the callback screen sets the session with the same tokens as `signInWithOAuth`, whatever the replies |
| AuthCallback.AuthCallbackScreen.constructor | app/auth/callback.tsx:8-9 | initially no error and processing |
| AuthCallback.AuthCallbackScreen.CheckExistingSession | app/auth/callback.tsx:60-69 | sets the state as `ExistingSession` says |
| AuthCallback.AuthCallbackScreen.HandleCallback | app/auth/callback.tsx:13-88 | processing is false on every path; the error and redirect are those of `CallbackResult` |
| AuthCallback.AuthCallbackScreen.OnNavigationKey | app/auth/callback.tsx:90-93 | without the navigation key nothing happens; with it, the handler runs |
| RootLayout.RedirectFor | app/_layout.tsx:35-62 | no redirect while loading or on the `auth` callback route; login iff no user outside `(auth)`; tabs iff a user with a goal in `(auth)` or `onboarding`; onboarding iff a user in `(auth)` without a known goal, or with no goal elsewhere outside `onboarding`; one outcome per evaluation |
| RootLayout.SettledUserStays | app/_layout.tsx:45-61 | a user with a goal, outside `(auth)` and `onboarding`, is not redirected |
| RootLayout.UnknownGoalGoesToOnboarding | app/_layout.tsx:48-54 | in `(auth)`, a goal state of null or false sends the user to onboarding, true to tabs |
| RootLayout.RootLayoutNav.constructor | app/_layout.tsx:12-13 | initially `hasGoal` is null and `checkingGoal` true |
| RootLayout.RootLayoutNav.CheckGoal | app/_layout.tsx:16-26 | no user: `hasGoal` null; otherwise the goal store's `hasGoal()`; in both cases `checkingGoal` ends false |
| RootLayout.RootLayoutNav.OnDependenciesChanged | app/_layout.tsx:29-33 | the goal is checked only once auth has finished loading |
| RootLayout.RootLayoutNav.ChooseRedirect | app/_layout.tsx:35-62 | the redirect chosen for the current state is `RedirectFor` of it |

## Left out

- Storage and JSON: `AsyncStorage` and `JSON.stringify`/`parse`. Each store is a field. A failed
  or absent read is the empty collection or no goal.
- Write failures. The model's writes always succeed, so the error paths after a failed
  `setItem` (lib/storage/tasks.ts:86-89, 113-116, 126-129) are not modelled. The same holds for
  `delete` returning false for that reason.
- Id generation (`Date.now()`, `Math.random()`): ids are parameters. The code does not make ids
  unique, and the model does not assume it.
- JavaScript `Date`: parsing, `toISOString`, `toDateString` and local time zones. Times are
  integers, and the calendar day is the parameter `dayOf`.
- Each operation reads the clock once here: one `now` per call. The code reads it twice in two
  places: `update` reads it for `updatedAt` (lib/storage/tasks.ts:102) and again for the stamp
  (lib/storage/tasks.ts:107), and `getStats` reads it for `today` (lib/storage/tasks.ts:144) and
  again in each overdue test (lib/storage/tasks.ts:153). So `completedAt == updatedAt` after a
  stamping update, and one instant for all of `getStats`, hold in the model but are not
  guaranteed by the code.
- `formatTargetDate`: locale-dependent formatting.
- Concurrency. Lost updates between racing read-modify-write sequences are outside a
  sequential model.
- `estimatedMinutes` and `progress` are integers here. The code allows any JavaScript number,
  including fractions.
- An empty-string `completedAt` or `dueDate` (falsy in JavaScript) is not distinguished from a
  present one. Timestamps are integers here.
- `URLSearchParams` percent-decoding and `+` as space are not modelled.
- `makeRedirectUri`, `WebBrowser.maybeCompleteAuthSession` and `useAuth`'s context lookup:
  framework plumbing.
- `signOut`: it only calls the provider. Its effect on the state arrives through
  `OnAuthStateChange`.
- The subscription's `unsubscribe` on unmount.
- `AuthProvider.AuthState.SignInWithEmail` and `AuthProvider.AuthState.SignUpWithEmail`: an
  exception thrown by the provider call simply propagates and is not modelled.
- Which event `onAuthStateChange` reports is not modelled. It is an input that the handler
  ignores, as the code does.
- `console` logging, and all rendering: loading indicators, error text, screens and UI
  components.
