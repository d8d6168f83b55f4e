# Session store and sign-in wizard of the Agrio India web client

This project models, in Dafny, the two pieces of client logic in the Agrio
India loyalty web application that are more than rendering:

- **The session stores** (`src/store/useStore.ts`). The end-user store holds
  the signed-in user, the authentication flag, stats, rewards, the UI
  language, cached product and distributor lists and two UI flags. It offers
  one setter per key, `addReward`, and `logout`, which clears the user's
  tokens and resets four keys in one update. Only `{user, isAuthenticated,
  language}` is persisted (`partialize`). A separate admin store holds the
  administrator identity and its own flag, and is persisted whole.
  - Model: `Store.AppStore` and `Store.AdminStore` are classes with one field
    per key.
  - `State()` gives a store's value as a datatype, so each setter's contract
    `State() == old(State()).(key := v)` says that only that key changes.
  - `Partialize`, `Rehydrate` and `AfterLogout` are the pure projections
    that the lemmas talk about.
  - Durable token storage is `Store.TokenStorage`. It has two "pair present"
    flags, and both stores share it.
- **The sign-in / sign-up wizard** (`src/app/auth/page.tsx`). It has four
  steps: `mobile`, `otp`, `profile` and `crops`. It uses the form schemas,
  the OTP error classification, the crop toggle, the resend countdown and
  the progress bar.
  - Module `AuthWizard` gives each handler as a transition function on a
    `World`: the page's state together with the session store's value.
  - The class `AuthWizard.AuthPage` performs the same handlers step by step
    on its fields and on the shared `AppStore`. Each of its methods is
    proved equal to its transition function.
  - The backend is a parameter. Every call returns a `Response`: the
    `{success, data?, error?}` envelope, or `Thrown` for the `catch` path.
  - Each call the page makes is appended to `calls`. This lets the model
    state "no call is made" and the order of the calls.
  - The dashboard redirect is the terminal flag `redirected`. The last toast
    shown is `toast`. The current time used as a `lastLogin` fallback is the
    parameter `now`.
  - A handler can be called only on the step whose markup renders its
    control. Resend can be called only while the countdown is over
    (`page.tsx` lines 434, 504, 555-568, 574, 679). Each form handler runs
    only when its schema accepts the input. Once the page has redirected it
    is no longer shown, and later events have no effect on it.
  - The resend countdown is started as the code starts it. Each start adds
    one interval timer and clears none (see "## Findings").

Modules: `Types` (data shapes of `src/types/index.ts`), `Store`, `Schemas`,
`OtpErrors`, `CropSelection`, `ResendTimer`, `AuthWizard`.

Notes on what the code does:

- The OTP schema's message says "OTP must be 4 digits" (`page.tsx` line 33),
  but the schema checks only that the code is 4 characters long
  (`OtpExamples` accepts `"abcd"`).
- Going back (`otp` to `mobile`, `crops` to `profile`) changes only the step.
  The crop selection, the profile draft and a running countdown are all
  kept.
- A crop-sync call that returns a failure envelope does not stop the
  redirect. A crop-sync call that throws does stop it: the `catch` branch
  skips the `setUser` call and the redirect.
- Registration completion does not set the authentication flag. The flag
  was already set by the OTP verification.

## Model

| member | source | states |
|---|---|---|
| `Store.TokenStorage.ClearTokens` | src/store/useStore.ts:77 | the user's token pair is gone and the admin pair is untouched |
| `Store.TokenStorage.ClearAdminTokens` | src/store/useStore.ts:115 | the admin token pair is gone and the user pair is untouched |
| `Store.Initial` | src/store/useStore.ts:47-58 | the initial state (no contract; see `ReloadKeepsExactlyPersistedKeys`) |
| `Store.AfterLogout` | src/store/useStore.ts:78-83 | the four-key reset of `logout` (no contract; see `LogoutClearsSession`) |
| `Store.Partialize` | src/store/useStore.ts:88-92 | the persisted projection (no contract; see `PartializeRehydrate`) |
| `Store.Rehydrate` | src/store/useStore.ts:86-93 | the saved keys merged over the initial state (no contract; see `PartializeRehydrate`) |
| `Store.AppStore.constructor` | src/store/useStore.ts:47-58 | a store with nothing saved starts with no user, not authenticated, no rewards, language "en", not loading, sidebar open; a saved record is rehydrated |
| `Store.AppStore.SetUser` | src/store/useStore.ts:61 | only `user` changes |
| `Store.AppStore.SetAuthenticated` | src/store/useStore.ts:62 | only `isAuthenticated` changes |
| `Store.AppStore.SetUserStats` | src/store/useStore.ts:63 | only `userStats` changes |
| `Store.AppStore.SetRewards` | src/store/useStore.ts:64 | only `rewards` changes |
| `Store.AppStore.AddReward` | src/store/useStore.ts:65-66 | the reward is prepended: the list grows by one, its head is the new reward, its tail is the old list in order, and nothing else changes |
| `Store.AppStore.SetLanguage` | src/store/useStore.ts:67 | only `language` changes |
| `Store.AppStore.SetProducts` | src/store/useStore.ts:68 | only `products` changes |
| `Store.AppStore.SetBestSellingProducts` | src/store/useStore.ts:69-70 | only `bestSellingProducts` changes |
| `Store.AppStore.SetDistributors` | src/store/useStore.ts:71 | only `distributors` changes |
| `Store.AppStore.SetNearbyDistributors` | src/store/useStore.ts:72-73 | only `nearbyDistributors` changes |
| `Store.AppStore.SetLoading` | src/store/useStore.ts:74 | only `isLoading` changes |
| `Store.AppStore.SetSidebarOpen` | src/store/useStore.ts:75 | only `sidebarOpen` changes |
| `Store.AppStore.Logout` | src/store/useStore.ts:76-84 | user tokens cleared, admin tokens kept; the state becomes `AfterLogout` of the old one, which is coherent |
| `Store.LogoutClearsSession` | src/store/useStore.ts:78-83 | after logout: no user, not authenticated, no stats, no rewards; language, product and distributor lists, loading and sidebar flags as before |
| `Store.LogoutIdempotent` | src/store/useStore.ts:76-84 | logging out twice gives the same state as once |
| `Store.LogoutTwice` | src/store/useStore.ts:76-84 | two logouts in a row leave the state and both token flags as one logout does |
| `Store.PartializeRehydrate` | src/store/useStore.ts:88-92 | persisting a rehydrated store writes back exactly the record that was read |
| `Store.ReloadKeepsExactlyPersistedKeys` | src/store/useStore.ts:86-93 | a reload keeps user, authentication flag and language, and puts every other key back to its initial value |
| `Store.ReloadIdempotent` | src/store/useStore.ts:86-93 | reloading twice equals reloading once |
| `Store.HindiSurvivesReload` | src/store/useStore.ts:88-92 | language "hi" survives a reload while the loading and sidebar flags return to their defaults |
| `Store.ReloadAfterLogout` | src/store/useStore.ts:76-93 | a reload after logout is the initial state in the language that was chosen |
| `Store.RehydratePreservesCoherence` | src/store/useStore.ts:86-93 | "authenticated implies a user" survives a reload |
| `Store.AdminStore.constructor` | src/store/useStore.ts:106-121 | without `partialize` the whole saved admin record is restored; with nothing saved there is no admin and the admin is not authenticated |
| `Store.AdminStore.SetAdmin` | src/store/useStore.ts:111 | only `admin` changes |
| `Store.AdminStore.SetAdminAuthenticated` | src/store/useStore.ts:112-113 | only `isAdminAuthenticated` changes |
| `Store.AdminStore.AdminLogout` | src/store/useStore.ts:114-117 | no admin, not authenticated, admin tokens cleared, user tokens kept |
| `Store.AdminLogoutKeepsUserSession` | src/store/useStore.ts:106-117 | an admin logout leaves the end-user store and the user tokens unchanged |
| `Store.LogoutKeepsAdminSession` | src/store/useStore.ts:76-84 | a user logout leaves the admin store and the admin tokens unchanged |
| `Schemas.AllDigits` | src/app/auth/page.tsx:29 | the scan succeeds exactly when every character is a digit 0-9 |
| `Schemas.ValidMobile` | src/app/auth/page.tsx:29 | a mobile number is valid iff it has exactly 10 characters, all digits, the first between 6 and 9 |
| `Schemas.ValidPincode` | src/app/auth/page.tsx:38 | a pincode is valid iff it has exactly 6 characters, all digits, the first between 1 and 9 |
| `Schemas.ValidOtp` | src/app/auth/page.tsx:33 | the OTP schema, length 4 only (no contract; see `OtpExamples`) |
| `Schemas.ValidName` | src/app/auth/page.tsx:37 | the name schema, at least 2 characters (no contract; see `ProfileExamples`) |
| `Schemas.ValidEmail` | src/app/auth/page.tsx:39 | the optional e-mail: empty, or accepted by the e-mail check (no contract; see `ProfileStepTransition`) |
| `Schemas.ValidProfile` | src/app/auth/page.tsx:36-40 | the whole profile schema: name, pincode and e-mail (no contract; see `ProfileStepTransition`, `ProfileExamples`) |
| `Schemas.MobileExamples` | src/app/auth/page.tsx:29 | "9876543210" is accepted; "5123456789", a 9-digit number and one with a letter are rejected |
| `Schemas.OtpExamples` | src/app/auth/page.tsx:33 | "123" and "12345" are rejected and "1234" is accepted; "abcd" is also accepted, because only the length is checked |
| `Schemas.ProfileExamples` | src/app/auth/page.tsx:37-38 | "203205" is a valid pincode, "023205" and "20320" are not; "Ravi Kumar" is a valid name, "R" is not |
| `OtpErrors.Lower` | src/app/auth/page.tsx:166 | lower-casing keeps the length and maps each character through the ASCII letter mapping |
| `OtpErrors.ContainsIffMentions` | src/app/auth/page.tsx:168 | the position-by-position search finds a word exactly when it occurs somewhere in the text |
| `OtpErrors.LowerIdempotent` | src/app/auth/page.tsx:166 | lower-casing twice gives the same text as once |
| `OtpErrors.ClassifyOtpErrorRules` | src/app/auth/page.tsx:166-198 | the verify-error category is decided by the first matching rule: "expired"/"timeout" gives expired; else "invalid"/"incorrect" gives invalid; else "too many"/"limit" gives too many; else unrecognised; each rule is stated both ways |
| `OtpErrors.ClassifyIgnoresCase` | src/app/auth/page.tsx:166 | messages that differ only in letter case get the same category, the same as their lower-case form |
| `OtpErrors.NoMessageIsUnrecognised` | src/app/auth/page.tsx:166 | a missing or empty message falls through to the generic branch |
| `OtpErrors.ExpiredExample` | src/app/auth/page.tsx:168 | "OTP EXPIRED" is classified as expired |
| `OtpErrors.EarlierRuleWins` | src/app/auth/page.tsx:168-184 | a message containing "timeout", "invalid" and "limit" is classified as expired |
| `OtpErrors.Contains` | src/app/auth/page.tsx:168-184 | `includes`, by trying each start position (no contract; see `ContainsIffMentions`) |
| `OtpErrors.MessageText` | src/app/auth/page.tsx:166 | the lower-cased error message, or "" when there is none (no contract; see `NoMessageIsUnrecognised`, `ClassifyIgnoresCase`) |
| `OtpErrors.ClassifyOtpError` | src/app/auth/page.tsx:166-198 | the category of a failed verification (no contract; see `ClassifyOtpErrorRules`) |
| `OtpErrors.ClassifyResendError` | src/app/auth/page.tsx:341-356 | the category of a failed resend (no contract; see `ClassifyResendErrorRule`) |
| `OtpErrors.ClassifyResendErrorRule` | src/app/auth/page.tsx:341-356 | a failed resend counts as rate-limited iff "rate", "limit" or "too many" occurs in the lower-cased message |
| `OtpErrors.GenerateLooksRateLimited` | src/app/auth/page.tsx:342 | "Cannot generate" is reported as rate limiting, because "generate" contains "rate" |
| `CropSelection.Without` | src/app/auth/page.tsx:232 | filtering keeps exactly the other ids, never lengthens the list, and leaves a list without the id unchanged |
| `CropSelection.ToggleCrop` | src/app/auth/page.tsx:230-234 | the updater of `handleCropToggle` (no contract; see `ToggleFlipsMembership` and the lemmas below) |
| `CropSelection.ToggleFlipsMembership` | src/app/auth/page.tsx:230-234 | a toggle flips membership of the id and keeps every other id's membership |
| `CropSelection.WithoutAppended` | src/app/auth/page.tsx:232 | filtering out an id that was appended to a list without it gives back that list |
| `CropSelection.ToggleTwiceRestores` | src/app/auth/page.tsx:230-234 | toggling an absent id twice restores the exact list |
| `CropSelection.ToggleTwiceMovesToEnd` | src/app/auth/page.tsx:230-234 | toggling a present id twice keeps the same crops but moves that id to the end |
| `CropSelection.WithoutKeepsNoDuplicates` | src/app/auth/page.tsx:232 | filtering keeps a list free of duplicates |
| `CropSelection.ToggleKeepsNoDuplicates` | src/app/auth/page.tsx:230-234 | a toggle keeps a selection free of duplicates |
| `CropSelection.WithoutRemovesOne` | src/app/auth/page.tsx:232 | in a duplicate-free list, filtering out a present id removes exactly one element |
| `CropSelection.ToggleChangesSizeByOne` | src/app/auth/page.tsx:230-234 | on a duplicate-free selection a toggle changes the size by exactly one |
| `ResendTimer.Fire` | src/app/auth/page.tsx:312-318 | one interval firing removes at most that one interval |
| `ResendTimer.StartIsHealthy` | src/app/auth/page.tsx:309-310 | a started countdown shows 60, keeps its invariant and does not offer a resend |
| `ResendTimer.SecondKeepsHealthy` | src/app/auth/page.tsx:311-319 | each second lowers a positive timer by one and leaves 0 at 0; one interval is live exactly while the timer is positive |
| `ResendTimer.HealthyAfterSeconds` | src/app/auth/page.tsx:311-319 | after n seconds the timer shows its start value minus n, floored at 0 |
| `ResendTimer.StartWaitsSixtySeconds` | src/app/auth/page.tsx:309-320 | after a start, n seconds later the timer shows 60 - n (never negative), and a resend is offered iff n >= 60 |
| `ResendTimer.TwoIntervalsRunTwiceAsFast` | src/app/auth/page.tsx:311-319 | two live intervals on a timer of 2m reach 0 after m seconds |
| `ResendTimer.RestartAsWrittenHalvesWait` | src/app/auth/page.tsx:309-320 | as written, a restart while a countdown is live offers resend after 30 seconds; the corrected start still shows 30 seconds left at that point |
| `ResendTimer.RestartAfterTenSeconds` | src/app/auth/page.tsx:99-100 | a start, ten seconds, then a second start as written: resend is offered 30 seconds later |
| `ResendTimer.StartAsWritten` | src/app/auth/page.tsx:309-320 | `startResendTimer` as the code does it: 60 on the timer and one more live interval, with none cleared (no contract; see `StartAsWrittenIsBounded`) |
| `ResendTimer.Start` | src/app/auth/page.tsx:309-320 | the corrected start, which leaves exactly one live interval (no contract; see `StartWaitsSixtySeconds`) |
| `ResendTimer.Second` | src/app/auth/page.tsx:311-319 | one second in which every live interval fires once (no contract; see `SecondKeepsBounded`) |
| `ResendTimer.ResendOffered` | src/app/auth/page.tsx:555-568 | the resend button is shown instead of the countdown text exactly when the timer is not positive (no contract; see `StartWaitsSixtySeconds`, `BackAndResubmitHalvesWait`) |
| `ResendTimer.FireAllKeepsBounded` | src/app/auth/page.tsx:312-318 | any number of firings keep the timer within 0..60, with a live interval while it is positive, and never raise the timer |
| `ResendTimer.SecondKeepsBounded` | src/app/auth/page.tsx:311-319 | with any number of live intervals, a second keeps the countdown bounded, lowers a positive timer and leaves 0 at 0 |
| `ResendTimer.StartAsWrittenIsBounded` | src/app/auth/page.tsx:309-320 | a start as written shows 60, adds exactly one live interval and hides the resend button |
| `ResendTimer.TwoIntervalsBeforeZero` | src/app/auth/page.tsx:311-319 | until they reach 0, two live intervals take two off the timer every second |
| `AuthWizard.Progress` | src/app/auth/page.tsx:373-382 | the progress value is one of 25, 50, 75, 100; for a new user it is 25 per step; for a returning user it is 50 on the mobile step and 100 on every other step |
| `AuthWizard.ProgressMonotone` | src/app/auth/page.tsx:373-382 | progress never decreases along the forward step order, and strictly increases for a new user |
| `AuthWizard.Toggled` | src/app/auth/page.tsx:369-371 | the language toggle always switches to the other language |
| `AuthWizard.InitialInv` | src/app/auth/page.tsx:49-56 | a fresh page with a coherent session satisfies the wizard invariant |
| `AuthWizard.ApplyKeepsInv` | src/app/auth/page.tsx:90-367 | every event keeps the invariant: the countdown is bounded (0..60, with a live interval while positive) even with several intervals live, the session is coherent, the profile/crops steps are only for new authenticated users, a redirect happens only when authenticated, the mobile is valid past the first step, and the crop selection holds no id twice; backend calls are only appended |
| `AuthWizard.RunKeepsInv` | src/app/auth/page.tsx:90-367 | the invariant and the append-only call log hold after any run of events, with the countdown started as written |
| `AuthWizard.RedirectIsFinal` | src/app/auth/page.tsx:162 | once the page has redirected to the dashboard, no later event changes the page or the session |
| `AuthWizard.ReachableSessionsAreCoherent` | src/app/auth/page.tsx:138-151 | from a fresh page, whatever happens, an authenticated session has a user, the countdown stays within 0..60, and the crop selection holds no id twice |
| `AuthWizard.MobileStepTransition` | src/app/auth/page.tsx:90-125 | the mobile step moves to the OTP step iff the number is valid and sending succeeds; the timer then shows 60 with one more live interval than before; an invalid number causes no call and no change; otherwise the step stays |
| `AuthWizard.OtpStepTransition` | src/app/auth/page.tsx:128-211 | a successful verify stores exactly the user built from the backend record (with the page language and the current time as fallbacks) and authenticates; the step becomes profile iff the user is new or has no name, otherwise the page redirects with the step unchanged; any failure changes neither the step nor the session |
| `AuthWizard.FailedVerifyResetsInput` | src/app/auth/page.tsx:164-201 | a rejected verify empties the OTP field and reports the category of the message |
| `AuthWizard.RegistrationOutcomes` | src/app/auth/page.tsx:237-306 | with no crop selected only the toast changes; if profile creation fails there is no sync call, no redirect and no session change; a failed sync still redirects; calls go out profile first, then sync; on success with a record the stored user is exactly the one built from it, the draft and the selection; on success without one the session is unchanged |
| `AuthWizard.ResendTransition` | src/app/auth/page.tsx:322-367 | a resend never changes the step and always calls send-OTP again with the same number; on success the timer shows 60 with one more live interval and the OTP field is empty; otherwise the countdown is unchanged |
| `AuthWizard.ProfileStepTransition` | src/app/auth/page.tsx:214-227 | the profile step moves to crops iff the form passes its schema; no call is made and the session is untouched; the draft holds the form's values with an empty state and district; a rejected form changes nothing |
| `AuthWizard.StoredUserFromVerify` | src/app/auth/page.tsx:138-150 | the stored user has the backend's id and phone number; its name is empty exactly when no usable full name came back; language, last login and crops fall back to the page language, the current time and the empty list |
| `AuthWizard.ReturningUserStoredWithName` | src/app/auth/page.tsx:134-163 | a redirect after verification happens only with a stored user whose name is the non-empty full name the backend sent |
| `AuthWizard.StoredUserFromProfile` | src/app/auth/page.tsx:276-288 | the user stored at registration has the selected crops, and the draft's name and pincode wherever the backend's record lacks them |
| `AuthWizard.RunSeconds` | src/app/auth/page.tsx:311-319 | while the page is shown, elapsed seconds change nothing but the countdown |
| `AuthWizard.BackAndResubmitHalvesWait` | src/app/auth/page.tsx:90-125 | sending, one second, Back (line 512) and sending again leaves two live intervals: no resend after 29 seconds, a resend offered after 30 |
| `AuthWizard.SubmitMobile` | src/app/auth/page.tsx:90-125 | `onMobileSubmit` as a transition (no contract; see `MobileStepTransition`) |
| `AuthWizard.SubmitOtp` | src/app/auth/page.tsx:128-211 | `onOTPSubmit` as a transition (no contract; see `OtpStepTransition`, `FailedVerifyResetsInput`) |
| `AuthWizard.SubmitProfile` | src/app/auth/page.tsx:214-227 | `onProfileSubmit` as a transition (no contract; see `ProfileStepTransition`) |
| `AuthWizard.Complete` | src/app/auth/page.tsx:237-306 | `completeRegistration` as a transition (no contract; see `RegistrationOutcomes`) |
| `AuthWizard.Resend` | src/app/auth/page.tsx:322-367 | `resendOTP` as a transition (no contract; see `ResendTransition`) |
| `AuthWizard.ToggleCropIn` | src/app/auth/page.tsx:230-234 | `handleCropToggle` on the page state (no contract; see `AuthPage.HandleCropToggle`, `ApplyKeepsInv`) |
| `AuthWizard.DraftEmail` | src/app/auth/page.tsx:253 | `profileData.email \|\| undefined`: an empty e-mail is not sent (no contract; see `RegistrationOutcomes`) |
| `AuthWizard.OnScreen` | src/app/auth/page.tsx:434-687 | which handlers each step's markup wires up: mobile form (434), OTP form, back and resend (504-568), profile form (574), crops, back and completion (679-687) (no contract; see `ApplyKeepsInv`) |
| `AuthWizard.Enabled` | src/app/auth/page.tsx:162 | an event reaches the page only while it is shown, before the redirect (no contract; see `RedirectIsFinal`) |
| `AuthWizard.Apply` | src/app/auth/page.tsx:90-382 | dispatches each event to its handler (no contract; see `ApplyKeepsInv`) |
| `AuthWizard.Run` | src/app/auth/page.tsx:90-382 | a sequence of events, skipping those not enabled (no contract; see `RunKeepsInv`, `RedirectIsFinal`) |
| `AuthWizard.UserFromVerify` | src/app/auth/page.tsx:138-150 | the user record built after verification (no contract; see `StoredUserFromVerify`) |
| `AuthWizard.UserFromProfile` | src/app/auth/page.tsx:276-288 | the user record built at registration (no contract; see `StoredUserFromProfile`) |
| `AuthWizard.RegistrationScenario` | src/app/auth/page.tsx:90-306 | a new user's full registration (mobile, OTP, profile, one crop) ends authenticated and redirected, with that crop stored and the four calls made in order, even if the crop sync fails |
| `AuthWizard.AuthPage.constructor` | src/app/auth/page.tsx:49-56 | the page starts on the mobile step with empty inputs, no countdown and no calls |
| `AuthWizard.AuthPage.StartResendTimer` | src/app/auth/page.tsx:309-320 | the timer is set to 60 and one interval is added to those still live; nothing else changes |
| `AuthWizard.AuthPage.Tick` | src/app/auth/page.tsx:311-319 | one second: each live interval fires once, which gives the `Second` of the old countdown |
| `AuthWizard.AuthPage.OnMobileSubmit` | src/app/auth/page.tsx:90-125 | the page and the store end up as `SubmitMobile` of their old values, which starts the countdown as written |
| `AuthWizard.AuthPage.OnOtpSubmit` | src/app/auth/page.tsx:128-211 | the page and the store end up as `SubmitOtp` of their old values |
| `AuthWizard.AuthPage.OnProfileSubmit` | src/app/auth/page.tsx:214-227 | the page and the store end up as `SubmitProfile` of their old values |
| `AuthWizard.AuthPage.HandleCropToggle` | src/app/auth/page.tsx:230-234 | the selection becomes its toggle; nothing else changes |
| `AuthWizard.AuthPage.CompleteRegistration` | src/app/auth/page.tsx:237-306 | the page and the store end up as `Complete` of their old values |
| `AuthWizard.AuthPage.ResendOtp` | src/app/auth/page.tsx:322-367 | the page and the store end up as `Resend` of their old values |
| `AuthWizard.AuthPage.BackToMobile` | src/app/auth/page.tsx:512 | only the step changes, back to mobile |
| `AuthWizard.AuthPage.BackToProfile` | src/app/auth/page.tsx:687 | only the step changes, back to profile |
| `AuthWizard.AuthPage.ToggleLanguage` | src/app/auth/page.tsx:369-371 | only the store's language changes, to the other language |
| `AuthWizard.AuthPage.GetProgress` | src/app/auth/page.tsx:373-382 | the page's progress is one of 25, 50, 75, 100: 25 per step for a new user; for a returning user 50 on the mobile step and 100 elsewhere |

## Left out

- `src/lib/api.ts` is not part of this model. Each backend call is an outcome parameter. The token functions are modelled only by whether each token pair is present. `clearTokens` is assumed to touch only the user pair, and `clearAdminTokens` only the admin pair, as their names say.
- Persistence mechanics (JSON serialisation, the storage keys, asynchronous hydration) are out. Only the `partialize` projection and the merge of the saved keys over the initial state are modelled.
- The page's `isLoading` flag is out. Each handler is modelled as one atomic step, so the flag is false before and after every step. The disabled buttons it drives, and overlapping submissions, are not modelled.
- Fetching the crop list on mount (`src/app/auth/page.tsx:75-87`) is out. It only feeds the checkboxes; the toggle accepts any id.
- Toast wording and language, icons, the layout and `router.push` are out. The redirect is the flag `redirected`, and a toast is its kind plus the backend message.
- `setInterval` and real time are out. Time passes in whole seconds, and in each second every live interval fires once.
- The e-mail check of the schema library is out. It arrives as the boolean `emailWellFormed`.
- `Lower`: lower-cases ASCII letters only, where `toLowerCase` maps all of Unicode. The key words are ASCII, so the rules are unaffected for ASCII messages.
- `Schemas.ValidName`: counts characters, where the schema library counts UTF-16 code units.
- `Schemas.ValidOtp`: counts characters, where the schema library's `length(4)` counts UTF-16 code units.
- The route guard of `src/app/(dashboard)/layout.tsx`, the admin login page and the header are out. Besides the store actions modelled here, they read the access token, fetch the profile, clear the tokens and log the admin in through the API client, which is not part of this model.

## Findings

| source | as written | input that shows it | evidently intended | confidence | as-written member | corrected member |
|---|---|---|---|---|---|---|
| src/app/auth/page.tsx:309-320 | `startResendTimer` starts a new interval without clearing one that is still running | submit a mobile number, press Back within 60 s, submit it again: two intervals each subtract 1 per second, so "Resend OTP" appears after 30 s | one countdown of 60 s per start | medium, not executed | `AuthWizard.BackAndResubmitHalvesWait` | `ResendTimer.StartWaitsSixtySeconds` |

The page model (`AuthWizard.AuthPage.StartResendTimer`, `AuthWizard.SubmitMobile`,
`AuthWizard.Resend`) starts the countdown as the code does, so
`AuthWizard.BackAndResubmitHalvesWait` shows the 30-second wait on the page
itself, and the wizard invariant asks only that the countdown stay bounded.
`ResendTimer.Start` is the corrected start, and
`ResendTimer.StartWaitsSixtySeconds` proves that it waits the full 60 seconds.
