# Tapwrk client logic, modelled in Dafny

Tapwrk is a single-page "micro-earnings" web app: users browse small paid
tasks, track earnings and invite friends, with authentication and a `users`
document collection held by a managed backend. The app is almost entirely
presentational; this project models the few decision rules it does contain
and proves what they promise:

- **Theme provider** (`theme.dfy`): the `system` → `light` → `dark` → `system`
  toggle, the rule deciding when the root element gets the `dark` class and
  which `theme-color` the meta tag shows, persistence of the choice in local
  storage, and the OS-preference listener. A class whose invariant says the
  document, the meta tag and local storage always agree with the theme.
- **Tasks page** (`tasks.dfy`): the category-plus-search filter over the task
  list and the single selected task of the detail modal.
- **Help centre** (`support.dfy`): the FAQ filter, the quick-query category
  buttons, the one-open accordion and the contact form with its simulated
  send.
- **Onboarding modal** (`profile_completion.dfy`): the two-step machine with
  its phone check, the trimmed name and country check, the payload written to
  the profile with `onboardingCompleted` set, the loading flag and the
  progress bar.
- **User documents** (`firestore.dfy`): the initial profile record (caller
  fields overridden by zeroed earnings and stats, `onboardingCompleted:
  false`, `role: 'user'`, server timestamps), the update payload, and lookups,
  over a store that is a map from user id to record.
- **Referrals** (`referrals.dfy`): the referral code and link, and the
  share-or-copy choice.
- **Route guard** (`protected_route.dfy`): loader, redirect to `/login` with
  the requested location, or the protected page.

Shared pieces: `wrappers.dfy` (an `Option` for JavaScript's `null` /
`undefined`, and toast notifications), `jstext.dfy` (the string built-ins:
`toLowerCase` and `toUpperCase` over ASCII letters, `includes`, with
`includes("")` true, and `trim` with the full ECMAScript whitespace set) and
`lists.dfy` (`Array.prototype.filter`, with a proof that its result is a
subsequence of its input in the original order).

Browser I/O becomes state or parameters: local storage, the root class list,
the meta tag and `matchMedia(...).matches` are fields of the theme provider;
the outcome of each backend write (`writeSucceeds` of `CreateUserDocument` and
`UpdateUserDocument`), of each read (`readSucceeds` of `CheckUserExists` and
`GetUserProfile`) and of the profile refresh, the clock, and the
availability of `navigator.share` are method parameters. The mock data
arrays of the pages are arbitrary sequences.

## Model

| member | source | states |
|---|---|---|
| JsText.ToLower | src/pages/Tasks.jsx:37 | `toLowerCase` keeps the length and maps each character through the ASCII lower-case map |
| JsText.ToUpper | src/pages/Referrals.jsx:30 | `toUpperCase` keeps the length and maps each character through the ASCII upper-case map |
| JsText.LowerOfUpper | src/pages/Tasks.jsx:37 | lower-casing an upper-cased string gives the lower-cased original, so the case a query is typed in is forgotten |
| JsText.LowerIdempotent | src/pages/Tasks.jsx:37 | lower-casing twice is lower-casing once |
| JsText.UpperHasNoSmallLetters | src/pages/Referrals.jsx:30 | an upper-cased string contains no ASCII small letter |
| JsText.Includes | src/pages/Tasks.jsx:37 | `includes`: the empty needle is in every string, and a found needle is no longer than the text |
| JsText.IncludesIffOccurs | src/pages/Tasks.jsx:37 | `includes` holds exactly when the needle occurs at some position of the text |
| JsText.TrimStart | src/pages/Support.jsx:65 | leading trim yields a suffix, drops only whitespace, and starts with a non-whitespace character |
| JsText.TrimEnd | src/pages/Support.jsx:65 | trailing trim yields a prefix, drops only whitespace, and ends with a non-whitespace character |
| JsText.Trim | src/components/modals/ProfileCompletionModal.jsx:48 | `trim` is no longer than its input, has no whitespace at either end, and is empty exactly when the input is all whitespace |
| JsText.IsBlank | src/pages/Support.jsx:65 | `!s.trim()` holds exactly when every character of `s` is whitespace |
| JsText.TrimKeepsCore | src/components/modals/ProfileCompletionModal.jsx:48 | `trim` keeps one contiguous piece of the string, with only whitespace before and after it |
| Lists.Filter | src/pages/Tasks.jsx:35-39 | `filter` keeps exactly the elements satisfying the predicate, each as many times as in the input |
| Lists.FilterEmbeds | src/pages/Tasks.jsx:35-39 | the filter's result sits in its input at increasing positions, the positions of the kept elements |
| Lists.FilterIsSubsequence | src/pages/Support.jsx:58-61 | the filter's result is a subsequence of its input, in the original order |
| Lists.FilterKeepsAll | src/pages/Tasks.jsx:35-38 | a predicate that holds of every element keeps the whole list |
| Lists.FilterAgrees | src/pages/Tasks.jsx:37 | predicates that agree on the list filter it the same way |
| Theme.NextTheme | src/context/ThemeContext.jsx:34-38 | the toggle goes `system`→`light`, `light`→`dark`, and every other value, unrecognised stored strings included, to `system`; the result is always one of the three themes and differs from the input |
| Theme.ToggleCycle | src/context/ThemeContext.jsx:34-38 | three toggles bring each of the three themes back to itself |
| Theme.AppliesDark | src/context/ThemeContext.jsx:14 | the dark class applies always under `dark`, under `system` exactly when the OS prefers dark, and never under `light` or an unrecognised value |
| Theme.ThemeColor | src/context/ThemeContext.jsx:16-19 | the meta colour is `#000000` exactly when dark mode is applied, and `#F2F2F7` otherwise |
| Theme.PreferenceMattersOnlyForSystem | src/context/ThemeContext.jsx:26-28 | under any theme but `system` the OS preference does not affect whether dark mode is applied |
| Theme.InitialTheme | src/context/ThemeContext.jsx:7 | the initial theme is the stored value, or `system` when nothing or the empty string is stored |
| Theme.ThemeProvider.constructor | src/context/ThemeContext.jsx:7-24 | mounting reads the initial theme from storage and runs the effect, so the invariant holds: dark class iff `dark`, or `system` with a dark OS preference; meta colour to match; storage equal to the theme |
| Theme.ThemeProvider.ApplyTheme | src/context/ThemeContext.jsx:13-21 | the dark class is set exactly when the dark rule holds, and the meta tag, when the document has one, gets the matching colour |
| Theme.ThemeProvider.RunEffect | src/context/ThemeContext.jsx:23-24 | after the effect the invariant holds, storage included |
| Theme.ThemeProvider.ToggleTheme | src/context/ThemeContext.jsx:34-38 | the theme becomes the next in the cycle, and the document and storage follow it |
| Theme.ThemeProvider.SetTheme | src/context/ThemeContext.jsx:41 | any value can be set and the invariant is kept; setting the current value changes nothing on the page |
| Theme.ThemeProvider.PreferenceChanged | src/context/ThemeContext.jsx:26-30 | an OS preference change keeps the invariant and leaves theme and storage alone; away from `system` it leaves the page alone too |
| Tasks.MatchesCategory | src/pages/Tasks.jsx:36 | the `All` pill passes every task; any other pill passes exactly the tasks of its category |
| Tasks.MatchesSearch | src/pages/Tasks.jsx:37 | the empty query matches every task, and a matching query is no longer than the title |
| Tasks.IsShown | src/pages/Tasks.jsx:35-38 | a shown task is in the active category (or `All` is active) and its title is at least as long as the query; with `All` and an empty query every task is shown |
| Tasks.FilteredTasks | src/pages/Tasks.jsx:35-39 | a task is shown iff (the category is `All` or equals the task's) and its lower-cased title contains the lower-cased query, with the input's multiplicities |
| Tasks.FilteredTasksKeepOrder | src/pages/Tasks.jsx:35-39 | the shown tasks are a subsequence of the task list in its order |
| Tasks.UnfilteredShowsAll | src/pages/Tasks.jsx:31-38 | with category `All` and an empty query every task is shown, unchanged |
| Tasks.SearchIgnoresCase | src/pages/Tasks.jsx:37 | two queries equal up to letter case show the same tasks |
| Tasks.CapitalisedSearchSameResult | src/pages/Tasks.jsx:37 | typing the query in capitals shows the same tasks |
| Tasks.TasksPage.constructor | src/pages/Tasks.jsx:31-33 | the page opens on `All`, an empty query and no selected task |
| Tasks.TasksPage.SelectCategory | src/pages/Tasks.jsx:72-76 | one of the four pills of `CATEGORIES` (`All`, `Social`, `Survey`, `AI Task`) sets the category, and the list shown is the filter for it |
| Tasks.TasksPage.SetSearchQuery | src/pages/Tasks.jsx:65 | typing sets the query, and the list shown is the filter for it |
| Tasks.TasksPage.StartTask | src/pages/Tasks.jsx:41-43 | starting a shown task selects it and leaves the shown list alone |
| Tasks.TasksPage.ConfirmStart | src/pages/Tasks.jsx:45-48 | confirming announces the selected task's title and clears the selection |
| Tasks.TasksPage.DismissTask | src/pages/Tasks.jsx:119 | the backdrop, the close button and Cancel clear the selection, leaving the shown list alone |
| Support.FaqMatches | src/pages/Support.jsx:58-61 | the empty query matches every FAQ, and a matching query is no longer than the question or the answer |
| Support.FilteredFaqs | src/pages/Support.jsx:58-61 | an FAQ is shown iff its lower-cased question or lower-cased answer contains the lower-cased query, with the input's multiplicities |
| Support.FilteredFaqsKeepOrder | src/pages/Support.jsx:58-61 | the shown FAQs keep their original order |
| Support.EmptyQueryShowsAllFaqs | src/pages/Support.jsx:58-61 | an empty query shows every FAQ |
| Support.FaqSearchIgnoresCase | src/pages/Support.jsx:58-61 | two queries equal up to letter case show the same FAQs |
| Support.QuickQuery | src/pages/Support.jsx:105-108 | only the `General` button gives the empty query; every button's query is already lower case |
| Support.GeneralShowsAllFaqs | src/pages/Support.jsx:108 | the `General` button brings back every FAQ |
| Support.ToggledFaq | src/pages/Support.jsx:123 | clicking the open FAQ closes the accordion; clicking any other opens exactly that one |
| Support.ToggleTwice | src/pages/Support.jsx:123 | two clicks on one FAQ leave it open iff it was open before, and close any other |
| Support.OnlyClickedIsOpen | src/pages/Support.jsx:122-123 | after a click only FAQs with the clicked id are shown open, so at most one id is open, and they are open exactly when they were closed before the click |
| Support.MessageAccepted | src/pages/Support.jsx:65 | a message is sent exactly when it is not all whitespace |
| Support.MessageAcceptedIffVisible | src/pages/Support.jsx:65 | a message is accepted exactly when it holds a non-whitespace character |
| Support.SupportPage.constructor | src/pages/Support.jsx:53-56 | the page opens with an empty query, nothing open, an empty form and no send in progress |
| Support.SupportPage.SetSearchQuery | src/pages/Support.jsx:97 | typing sets the query |
| Support.SupportPage.PickCategory | src/pages/Support.jsx:105-108 | a category button sets its quick query; `General` shows every FAQ |
| Support.SupportPage.ToggleFaq | src/pages/Support.jsx:123 | the open FAQ becomes the toggled one: nothing or the clicked id |
| Support.SupportPage.EditSubject | src/pages/Support.jsx:152 | the subject field takes the typed value |
| Support.SupportPage.EditMessage | src/pages/Support.jsx:162 | the message field takes the typed value |
| Support.SupportPage.SubmitContact | src/pages/Support.jsx:63-67 | a blank message is refused with an error toast and changes nothing; any other starts sending |
| Support.SupportPage.SendTimerFired | src/pages/Support.jsx:69-73 | the send completes with a success toast, an emptied subject and message, and sending off |
| Firestore.ZeroEarnings | src/services/firestore.js:40-45 | the earnings summary has total, pending, withdrawn and available, all 0 |
| Firestore.ZeroStats | src/services/firestore.js:46-50 | the stats summary has tasksCompleted, tasksPending and referrals, all 0 |
| Firestore.Defaults | src/services/firestore.js:37-51 | the defaults set exactly the six default keys |
| Firestore.InitialRecord | src/services/firestore.js:35-52 | the initial record has the caller's keys plus the defaults; `onboardingCompleted` is false, `role` is `user`, timestamps are server timestamps, earnings and stats are zero, whatever the caller passed; every other caller key keeps its value |
| Firestore.UpdatePayload | src/services/firestore.js:81-84 | the update payload is the caller's data with `updatedAt` added or overridden by the server timestamp; no other key changes |
| Firestore.MergedInto | src/services/firestore.js:54 | a write sets every written field and keeps the stored top-level fields it does not write |
| Firestore.Lookup | src/services/firestore.js:62-71 | the stored record when the id is present, otherwise nothing |
| Firestore.UserStore.constructor | src/services/firestore.js:13 | the store starts as the given `users` collection |
| Firestore.UserStore.CheckUserExists | src/services/firestore.js:20-24 | a read that resolves answers true exactly when the id is in the store, in agreement with the lookup; a rejected read answers nothing |
| Firestore.UserStore.GetUserProfile | src/services/firestore.js:62-71 | a read that resolves gives the stored record when the id is present, otherwise `null`; a rejected read answers nothing |
| Firestore.UserStore.CreateUserDocument | src/services/firestore.js:32-55 | the write succeeds exactly when the backend accepts it; then the document becomes the stored one merged with the initial record, so it is not onboarded and has role `user`; a rejected write leaves the store alone |
| Firestore.UserStore.UpdateUserDocument | src/services/firestore.js:79-85 | the write succeeds exactly when the document exists and the backend accepts it; then the document is patched with the update payload; a failed write leaves the store alone |
| ProfileCompletion.PhoneAccepted | src/components/modals/ProfileCompletionModal.jsx:33 | a phone passes exactly when it is present and at least 10 characters long (the emptiness test is subsumed) |
| ProfileCompletion.DetailsAccepted | src/components/modals/ProfileCompletionModal.jsx:48 | name and country pass exactly when neither is all whitespace |
| ProfileCompletion.DetailsAcceptedIffVisible | src/components/modals/ProfileCompletionModal.jsx:48-51 | name and country are accepted exactly when each has a non-whitespace character |
| ProfileCompletion.OnboardingPayload | src/components/modals/ProfileCompletionModal.jsx:57-63 | the payload holds the phone, full name and country as entered, `onboardingCompleted` true and the client date, and no other key |
| ProfileCompletion.ProgressPercent | src/components/modals/ProfileCompletionModal.jsx:103 | the bar is half full at step 1 and full at step 2 |
| ProfileCompletion.StepTitle | src/components/modals/ProfileCompletionModal.jsx:95 | step 1 is titled `Contact Info`, step 2 not |
| ProfileCompletion.ProfileModal.constructor | src/components/modals/ProfileCompletionModal.jsx:21-27 | the modal starts at step 1, not loading, with an empty phone and country and the account's display name or the empty string |
| ProfileCompletion.ProfileModal.SetPhone | src/components/modals/ProfileCompletionModal.jsx:136 | the phone widget, on step 1, sets the phone |
| ProfileCompletion.ProfileModal.SetFullName | src/components/modals/ProfileCompletionModal.jsx:167 | the name field takes the typed value |
| ProfileCompletion.ProfileModal.SetCountry | src/components/modals/ProfileCompletionModal.jsx:175 | the country field takes the typed value |
| ProfileCompletion.ProfileModal.HandleNext | src/components/modals/ProfileCompletionModal.jsx:31-39 | at step 1 it moves to step 2 iff the phone is present, non-empty and at least 10 long, else it stays with an error toast; at step 2 it does nothing; the step stays in {1,2} |
| ProfileCompletion.ProfileModal.HandleBack | src/components/modals/ProfileCompletionModal.jsx:41-43 | it steps back from step 2 and does nothing at step 1 |
| ProfileCompletion.ProfileModal.HandleSubmit | src/components/modals/ProfileCompletionModal.jsx:45-63 | blank name or country: an error toast, nothing to write, loading stays false; otherwise loading starts and the payload is the one built from the entered fields |
| ProfileCompletion.ProfileModal.SubmitFinished | src/components/modals/ProfileCompletionModal.jsx:66-76 | loading is false afterwards whether the write succeeded or failed, with the matching toast |
| ProfileCompletion.CompleteProfile | src/components/modals/ProfileCompletionModal.jsx:45-77 | the whole submit: a refused one shows the missing-fields toast and leaves the store alone; an accepted one patches the user's document with the onboarding payload when the document exists and the backend accepts the write; it completes, with the success toast, iff the details pass, the write succeeds and the refresh succeeds; an accepted submit that does not complete shows the failure toast; loading ends false |
| ProfileCompletion.SignupThenOnboarding | src/services/firestore.js:35-52 | a record created at signup and then patched by the modal is onboarded, holds the entered fields, has the server timestamp in `updatedAt` over the client date, and keeps role `user` and zero earnings and stats |
| Referrals.Clipped | src/pages/Referrals.jsx:30 | `slice(0, 8)` keeps the whole id when it is shorter than 8, otherwise exactly 8 characters |
| Referrals.ReferralCode | src/pages/Referrals.jsx:30 | a missing or empty id gives `TAP-USER`; any other id gives its first 8 characters upper-cased |
| Referrals.ReferralCodeShape | src/pages/Referrals.jsx:30 | every code is 1 to 8 characters long and holds no small letter |
| Referrals.CodeDependsOnPrefixOnly | src/pages/Referrals.jsx:30 | ids whose sliced parts have the same length and agree up to case get the same code, short and empty ids included |
| Referrals.ReferralLink | src/pages/Referrals.jsx:31 | the link is `https://tapwrk.app/join?ref=` followed by the code, and nothing else |
| Referrals.LinkDeterminesCode | src/pages/Referrals.jsx:31 | two codes give the same link exactly when they are the same code |
| Referrals.ShareChoice | src/pages/Referrals.jsx:38-52 | native share when the browser has it, otherwise copy-to-clipboard with its toast; both carry the referral link |
| Referrals.ProfileUid | src/pages/Referrals.jsx:30 | the id is the profile's string `uid` field, and absent when the profile or the field is |
| Referrals.ReferralCodeOfProfile | src/pages/Referrals.jsx:29-30 | without a profile, or with a profile lacking `uid`, the page shows `TAP-USER` |
| Referrals.SignupProfileGetsFallbackCode | src/pages/Signup.jsx:32-36 | a profile created at signup has no `uid` field, so the page shows `TAP-USER` for it |
| Referrals.ReferralCodeOfAccount | src/pages/Referrals.jsx:30 | from a signed-in account's id the code is that id's first 8 characters upper-cased |
| Referrals.AccountCodesSeparateUsers | src/pages/Referrals.jsx:30 | ids that differ, up to case, within their first 8 characters get different codes |
| ProtectedRoute.Guard | src/components/auth/ProtectedRoute.jsx:11-22 | loading renders the loader whatever the user; not loading and no user redirects to `/login` with the requested location as `from`, replacing the history entry; not loading with a user renders the children unchanged |
| ProtectedRoute.GuardIgnoresUserIdentity | src/components/auth/ProtectedRoute.jsx:15 | the decision depends on whether there is a user, not on which |

## Left out

- JSX markup, Tailwind classes and framer-motion animation: presentation only; `if (!isOpen) return null` in the onboarding modal is rendering and is not modelled.
- Firebase SDK semantics: `setDoc(..., { merge: true })` and `updateDoc` are modelled as top-level field merges into a map; merge's field-by-field merging of nested maps (`earnings`, `stats`) is not modelled, and `serverTimestamp()` is a sentinel value, not a time.
- The authentication service, the auth-state subscription and `refreshProfile` (`src/services/auth.js`, `src/context/AuthContext.jsx`): their outcome is a parameter.
- Money: withdrawals, `toFixed` formatting, Dashboard's fallback amounts and the earnings chart are floating point; the record only starts money fields at zero, held here as integers.
- Timers: the contact form's 1.5 s delay is two discrete steps (`SubmitContact`, `SendTimerFired`); the Dashboard's fake load is not modelled.
- Clipboard, `navigator.share` itself, console logging and errors from the share sheet: only the share-or-copy decision is modelled.
- ProfileCompletion.ProfileModal.SubmitFinished: the `onComplete()` callback after a successful submit (which closes the modal on the dashboard) and the `console.error` of the failure path are not modelled; the modal's visibility belongs to its parent.
- JsText.ToLower, JsText.ToUpper: map ASCII letters only; JavaScript's full Unicode case mapping (which can change a string's length) is not modelled. Lengths are counted in code points, not UTF-16 units.
- Referrals.ProfileUid: a non-string `uid` field (on which `.slice` would throw) is treated as absent.
- Tasks and FAQs keep only the fields the model uses (id, title, category; id, question, answer); descriptions, rewards and time estimates are display only.
- Login, Signup, ForgotPassword, Profile, Settings and Earnings handlers, layouts and common widgets: presence checks around SDK calls or no logic.

## Findings

| source | as written | input that shows it | evidently intended | confidence | as-written member | corrected member |
|---|---|---|---|---|---|---|
| src/pages/Referrals.jsx:30 | the code is taken from `userProfile?.uid`, the profile document's fields | any user created by signup: src/pages/Signup.jsx:32-36 and 58-63 write no `uid` field, and src/services/firestore.js:35-52 adds none, so every such user gets `TAP-USER` | a code per user, from the signed-in account's id | medium, not executed | Referrals.SignupProfileGetsFallbackCode | Referrals.ReferralCodeOfAccount |

## Notes on the source

- `src/context/AuthContext.jsx:56` renders the app only once `loading` is false, and nothing sets it back to true, so inside the running app the loader branch of `ProtectedRoute` (`src/components/auth/ProtectedRoute.jsx:11-13`) is never reached. `ProtectedRoute.Guard` still models the branch as written.
