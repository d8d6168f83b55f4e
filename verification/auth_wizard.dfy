/**
 * The sign-in / sign-up wizard of src/app/auth/page.tsx: mobile number,
 * one-time password, and for new users a profile and a crop selection.
 *
 * Each backend call is an outcome given as a parameter (a `Response`), and
 * every call made is recorded in `calls`, so that "no call is made" and
 * the order of calls can be stated. The redirect to the dashboard is the
 * terminal flag `redirected`; the toast shown last is `toast`.
 *
 * The transitions are first given as functions on a `World` (the page's
 * state together with the session store's value); the class `AuthPage`
 * then performs them step by step on its fields and on the shared
 * `AppStore`, and each of its methods is proved to agree with its function.
 */
module AuthWizard {
  import opened Types
  import opened Store
  import opened Schemas
  import opened OtpErrors
  import opened CropSelection
  import opened ResendTimer

  datatype Step = Mobile | Otp | Profile | Crops

  /** Position of a step in the forward order. */
  function Ordinal(s: Step): nat
  {
    match s
    case Mobile => 0
    case Otp => 1
    case Profile => 2
    case Crops => 3
  }

  /**
   * `getProgress`: a returning user sees half a bar until the OTP step and
   * a full bar after; a new user sees a quarter per step.
   */
  function Progress(isNewUser: bool, step: Step): (p: int)
    ensures p in {25, 50, 75, 100}
    ensures isNewUser ==> p == 25 * (Ordinal(step) + 1)
    ensures !isNewUser ==> (p == 50 <==> step == Mobile)
    ensures !isNewUser && step != Mobile ==> p == 100
  {
    if !isNewUser then (if step == Mobile then 50 else 100)
    else match step
      case Mobile => 25
      case Otp => 50
      case Profile => 75
      case Crops => 100
  }

  /** Progress never decreases along the forward order, and for new users strictly grows. */
  lemma ProgressMonotone(isNewUser: bool, s: Step, t: Step)
    requires Ordinal(s) < Ordinal(t)
    ensures Progress(isNewUser, s) <= Progress(isNewUser, t)
    ensures isNewUser ==> Progress(isNewUser, s) < Progress(isNewUser, t)
  {
  }

  /** The language toggle of the page header. */
  function Toggled(l: Language): (r: Language)
    ensures r != l
  {
    if l == En then Hi else En
  }

  /** The API envelope `{ success, data?, error?: { message } }`, or an exception. */
  datatype Response<T> = Response(success: bool, data: Option<T>, errorMessage: Option<string>) | Thrown

  predicate Succeeded<T>(r: Response<T>)
  {
    r.Response? && r.success
  }

  /** A user record as the backend returns it; absent fields are `None`. */
  datatype ProfileRecord = ProfileRecord(
    id: string,
    fullName: Option<string>,
    phoneNumber: string,
    pinCode: Option<string>,
    state: Option<string>,
    district: Option<string>,
    cropPreferences: Option<seq<string>>,
    language: Option<Language>,
    isActive: bool,
    createdAt: string,
    lastLogin: Option<string>)

  /** The payload of a successful verification. */
  datatype VerifyData = VerifyData(user: ProfileRecord, isNewUser: bool)

  /** JavaScript truthiness of an optional string: present and non-empty. */
  predicate Truthy(v: Option<string>)
  {
    v.Some? && v.value != ""
  }

  /** `v || fallback` on an optional string. */
  function Or(v: Option<string>, fallback: string): string
  {
    if Truthy(v) then v.value else fallback
  }

  /** The profile draft kept between the profile step and the crops step. */
  datatype ProfileDraft = ProfileDraft(name: string, pincode: string, email: string, state: string, district: string)

  const EmptyDraft: ProfileDraft := ProfileDraft("", "", "", "", "")

  /** The backend calls the wizard makes. */
  datatype ApiCall =
    | SendOtp(mobile: string)
    | VerifyOtp(mobile: string, otp: string)
    | CreateProfile(fullName: string, pinCode: string, email: Option<string>)
    | SyncCropPreferences(cropIds: seq<string>)

  /** The toasts the wizard shows (their wording and language are rendering). */
  datatype Toast =
    | OtpSent(to: string)
    | SendFailed(message: Option<string>)
    | SomethingWrong
    | WelcomeBack
    | OtpRejected(kind: OtpFailure, message: Option<string>)
    | SelectAtLeastOneCrop
    | ProfileFailed(message: Option<string>)
    | Welcome
    | OtpResent(to: string)
    | ResendRejected(reason: ResendFailure, message: Option<string>)

  /** The page's own state. */
  datatype Flow = Flow(
    step: Step,
    isNewUser: bool,
    mobile: string,
    timer: Countdown,
    selectedCrops: seq<string>,
    profile: ProfileDraft,
    otpInput: string,
    redirected: bool,
    toast: Option<Toast>,
    calls: seq<ApiCall>)

  /** The page's state when it is first shown. */
  const InitialFlow: Flow := Flow(Mobile, false, "", Idle, [], EmptyDraft, "", false, None, [])

  /** The page's state together with the session store's value. */
  datatype World = World(flow: Flow, app: AppState)

  /** The user stored after a successful verification. */
  function UserFromVerify(u: ProfileRecord, lang: Language, now: string): User
  {
    User(u.id, Or(u.fullName, ""), u.phoneNumber, Or(u.pinCode, ""), Or(u.state, ""), Or(u.district, ""),
         if u.cropPreferences.Some? then u.cropPreferences.value else [],
         if u.language.Some? then u.language.value else lang,
         u.isActive, u.createdAt, Or(u.lastLogin, now))
  }

  /** The user stored when registration completes; the crops are the page's selection. */
  function UserFromProfile(u: ProfileRecord, draft: ProfileDraft, crops: seq<string>, lang: Language, now: string): User
  {
    User(u.id, Or(u.fullName, draft.name), u.phoneNumber, Or(u.pinCode, draft.pincode),
         Or(u.state, ""), Or(u.district, ""), crops,
         if u.language.Some? then u.language.value else lang,
         u.isActive, u.createdAt, Or(u.lastLogin, now))
  }

  /** `onMobileSubmit`, behind the mobile schema. */
  function SubmitMobile(w: World, input: string, resp: Response<()>): World
    requires w.flow.step == Mobile
  {
    if !ValidMobile(input) then w
    else
      var f := w.flow.(mobile := input, calls := w.flow.calls + [SendOtp(input)]);
      if Succeeded(resp) then
        World(f.(step := Otp, timer := StartAsWritten(f.timer), toast := Some(OtpSent(input))), w.app)
      else
        World(f.(toast := Some(if resp.Thrown? then SomethingWrong else SendFailed(resp.errorMessage))), w.app)
  }

  /** `onOTPSubmit`, behind the OTP schema; `now` stands for the current time. */
  function SubmitOtp(w: World, code: string, resp: Response<VerifyData>, now: string): World
    requires w.flow.step == Otp
  {
    if !ValidOtp(code) then w
    else
      var f := w.flow.(otpInput := code, calls := w.flow.calls + [VerifyOtp(w.flow.mobile, code)]);
      match resp
      case Thrown => World(f.(toast := Some(SomethingWrong)), w.app)
      case Response(success, data, msg) =>
        if success && data.Some? then
          var d := data.value;
          var app := w.app.(user := Some(UserFromVerify(d.user, w.app.language, now)), isAuthenticated := true);
          if d.isNewUser || !Truthy(d.user.fullName) then
            World(f.(isNewUser := true, step := Profile), app)
          else
            World(f.(toast := Some(WelcomeBack), redirected := true), app)
        else
          World(f.(toast := Some(OtpRejected(ClassifyOtpError(msg), msg)), otpInput := ""), w.app)
  }

  /** `onProfileSubmit`, behind the profile schema: stores the draft, no call. */
  function SubmitProfile(w: World, name: string, pincode: string, email: string, emailWellFormed: bool): World
    requires w.flow.step == Profile
  {
    if !ValidProfile(name, pincode, email, emailWellFormed) then w
    else World(w.flow.(profile := ProfileDraft(name, pincode, email, "", ""), step := Crops), w.app)
  }

  /** `handleCropToggle`. */
  function ToggleCropIn(w: World, id: string): World
    requires w.flow.step == Crops
  {
    World(w.flow.(selectedCrops := ToggleCrop(w.flow.selectedCrops, id)), w.app)
  }

  /** The e-mail sent with the profile: an empty one is left out. */
  function DraftEmail(d: ProfileDraft): Option<string>
  {
    if d.email == "" then None else Some(d.email)
  }

  /** `completeRegistration`: create the profile, then sync the crops, then redirect. */
  function Complete(w: World, profileResp: Response<ProfileRecord>, cropsResp: Response<()>, now: string): World
    requires w.flow.step == Crops
  {
    var f := w.flow;
    if |f.selectedCrops| == 0 then World(f.(toast := Some(SelectAtLeastOneCrop)), w.app)
    else
      var f1 := f.(calls := f.calls + [CreateProfile(f.profile.name, f.profile.pincode, DraftEmail(f.profile))]);
      match profileResp
      case Thrown => World(f1.(toast := Some(SomethingWrong)), w.app)
      case Response(ok, data, msg) =>
        if !ok then World(f1.(toast := Some(ProfileFailed(msg))), w.app)
        else
          var f2 := f1.(calls := f1.calls + [SyncCropPreferences(f.selectedCrops)]);
          if cropsResp.Thrown? then World(f2.(toast := Some(SomethingWrong)), w.app)
          else
            var app := if data.Some? then
                w.app.(user := Some(UserFromProfile(data.value, f.profile, f.selectedCrops, w.app.language, now)))
              else w.app;
            World(f2.(toast := Some(Welcome), redirected := true), app)
  }

  /** `resendOTP`, offered on the OTP step once the countdown is over. */
  function Resend(w: World, resp: Response<()>): World
    requires w.flow.step == Otp && ResendOffered(w.flow.timer)
  {
    var f := w.flow.(calls := w.flow.calls + [SendOtp(w.flow.mobile)]);
    if Succeeded(resp) then
      World(f.(timer := StartAsWritten(f.timer), otpInput := "", toast := Some(OtpResent(f.mobile))), w.app)
    else if resp.Thrown? then
      World(f.(toast := Some(SomethingWrong)), w.app)
    else
      World(f.(toast := Some(ResendRejected(ClassifyResendError(resp.errorMessage), resp.errorMessage))), w.app)
  }

  /** Every event the page reacts to. */
  datatype Action =
    | MobileSubmitted(input: string, sendResp: Response<()>)
    | OtpSubmitted(code: string, verifyResp: Response<VerifyData>, now: string)
    | ProfileSubmitted(name: string, pincode: string, email: string, emailWellFormed: bool)
    | CropToggled(id: string)
    | RegistrationCompleted(profileResp: Response<ProfileRecord>, cropsResp: Response<()>, at: string)
    | ResendRequested(resendResp: Response<()>)
    | BackFromOtp
    | BackFromCrops
    | SecondElapsed
    | LanguageToggled

  /** The control that raises the action is on the current step's screen. */
  predicate OnScreen(w: World, a: Action)
  {
    match a
    case MobileSubmitted(_, _) => w.flow.step == Mobile
    case OtpSubmitted(_, _, _) => w.flow.step == Otp
    case ProfileSubmitted(_, _, _, _) => w.flow.step == Profile
    case CropToggled(_) => w.flow.step == Crops
    case RegistrationCompleted(_, _, _) => w.flow.step == Crops
    case ResendRequested(_) => w.flow.step == Otp && ResendOffered(w.flow.timer)
    case BackFromOtp => w.flow.step == Otp
    case BackFromCrops => w.flow.step == Crops
    case SecondElapsed => true
    case LanguageToggled => true
  }

  /** The page is still shown (no redirect yet) and the control is on screen. */
  predicate Enabled(w: World, a: Action)
  {
    !w.flow.redirected && OnScreen(w, a)
  }

  function Apply(w: World, a: Action): World
    requires OnScreen(w, a)
  {
    match a
    case MobileSubmitted(input, resp) => SubmitMobile(w, input, resp)
    case OtpSubmitted(code, resp, now) => SubmitOtp(w, code, resp, now)
    case ProfileSubmitted(name, pincode, email, ok) => SubmitProfile(w, name, pincode, email, ok)
    case CropToggled(id) => ToggleCropIn(w, id)
    case RegistrationCompleted(p, c, now) => Complete(w, p, c, now)
    case ResendRequested(resp) => Resend(w, resp)
    case BackFromOtp => World(w.flow.(step := Mobile), w.app)
    case BackFromCrops => World(w.flow.(step := Profile), w.app)
    case SecondElapsed => World(w.flow.(timer := Second(w.flow.timer)), w.app)
    case LanguageToggled => World(w.flow, w.app.(language := Toggled(w.app.language)))
  }

  /**
   * A run of events; one whose control is not on screen, or that arrives
   * after the page has navigated away, has no effect.
   */
  function Run(w: World, actions: seq<Action>): World
    decreases |actions|
  {
    if actions == [] then w
    else Run(if Enabled(w, actions[0]) then Apply(w, actions[0]) else w, actions[1..])
  }

  /**
   * What holds on every screen of the wizard: the countdown is bounded,
   * the session is coherent, the profile and crops steps are reached only
   * by new, authenticated users, a redirect happens only once signed in,
   * past the first step the mobile number is a valid one, and the crop
   * selection holds no id twice.
   */
  ghost predicate Inv(w: World)
  {
    StepInv(w) && NoDuplicates(w.flow.selectedCrops)
  }

  /** The part of the invariant about the countdown, the session and the steps. */
  ghost predicate StepInv(w: World)
  {
    && Bounded(w.flow.timer)
    && Coherent(w.app)
    && (w.flow.step in {Profile, Crops} ==> w.flow.isNewUser && w.app.isAuthenticated)
    && (w.flow.redirected ==> w.app.isAuthenticated)
    && (w.flow.step != Mobile ==> ValidMobile(w.flow.mobile))
  }

  lemma InitialInv(app: AppState)
    requires Coherent(app)
    ensures Inv(World(InitialFlow, app))
  {
  }

  /** Every event keeps the invariant, and only ever appends backend calls. */
  lemma ApplyKeepsInv(w: World, a: Action)
    requires Inv(w) && OnScreen(w, a)
    ensures Inv(Apply(w, a))
    ensures w.flow.calls <= Apply(w, a).flow.calls
  {
    ApplyKeepsStepInv(w, a);
    if a.CropToggled? {
      ToggleKeepsNoDuplicates(w.flow.selectedCrops, a.id);
    } else {
      SelectionUntouched(w, a);
    }
  }

  lemma ApplyKeepsStepInv(w: World, a: Action)
    requires StepInv(w) && OnScreen(w, a)
    ensures StepInv(Apply(w, a))
    ensures w.flow.calls <= Apply(w, a).flow.calls
  {
    match a
    case SecondElapsed => SecondKeepsBounded(w.flow.timer);
    case MobileSubmitted(_, _) => StartAsWrittenIsBounded(w.flow.timer);
    case ResendRequested(_) => StartAsWrittenIsBounded(w.flow.timer);
    case _ =>
  }

  /** Only the crop toggle touches the selection. */
  lemma SelectionUntouched(w: World, a: Action)
    requires OnScreen(w, a) && !a.CropToggled?
    ensures Apply(w, a).flow.selectedCrops == w.flow.selectedCrops
  {
  }

  /** The invariant holds after any run of events. */
  lemma {:induction false} RunKeepsInv(w: World, actions: seq<Action>)
    requires Inv(w)
    ensures Inv(Run(w, actions))
    ensures w.flow.calls <= Run(w, actions).flow.calls
    decreases |actions|
  {
    if actions != [] {
      var next := if Enabled(w, actions[0]) then Apply(w, actions[0]) else w;
      if Enabled(w, actions[0]) {
        ApplyKeepsInv(w, actions[0]);
      }
      RunKeepsInv(next, actions[1..]);
    }
  }

  /** The redirect is final: once the page has navigated away, no event changes anything. */
  lemma {:induction false} RedirectIsFinal(w: World, actions: seq<Action>)
    requires w.flow.redirected
    ensures Run(w, actions) == w
    decreases |actions|
  {
    if actions != [] {
      RedirectIsFinal(w, actions[1..]);
    }
  }

  /**
   * From a fresh page and a coherent session, whatever happens, an
   * authenticated session has a user, the countdown stays within 0..60
   * and the crop selection holds no id twice.
   */
  lemma ReachableSessionsAreCoherent(app: AppState, actions: seq<Action>)
    requires Coherent(app)
    ensures var w := Run(World(InitialFlow, app), actions);
      && (w.app.isAuthenticated ==> w.app.user.Some?)
      && 0 <= w.flow.timer.timer <= 60
      && NoDuplicates(w.flow.selectedCrops)
  {
    InitialInv(app);
    RunKeepsInv(World(InitialFlow, app), actions);
  }

  /**
   * The mobile step moves on to the OTP step exactly when the number passes
   * the schema and the OTP is sent; the countdown then shows 60. A number
   * the schema rejects causes no call and no change.
   */
  lemma MobileStepTransition(w: World, input: string, resp: Response<()>)
    requires w.flow.step == Mobile
    ensures var r := SubmitMobile(w, input, resp);
      && (r.flow.step == Otp <==> ValidMobile(input) && Succeeded(resp))
      && (r.flow.step != Otp ==> r.flow.step == Mobile)
      && (r.flow.step == Otp ==> r.flow.timer == Countdown(60, w.flow.timer.running + 1) && !ResendOffered(r.flow.timer))
      && (!ValidMobile(input) ==> r == w)
      && (ValidMobile(input) ==> r.flow.calls == w.flow.calls + [SendOtp(input)] && r.flow.mobile == input)
      && r.app == w.app
  {
  }

  /**
   * After a successful verification the user is stored and authenticated;
   * a new user, or one without a name, goes to the profile step, anyone
   * else is redirected with the step unchanged. On any failure the step and
   * the session stay as they were.
   */
  lemma OtpStepTransition(w: World, code: string, resp: Response<VerifyData>, now: string)
    requires w.flow.step == Otp
    ensures var r := SubmitOtp(w, code, resp, now);
      var ok := ValidOtp(code) && Succeeded(resp) && resp.data.Some?;
      var newish := ok && (resp.data.value.isNewUser || !Truthy(resp.data.value.user.fullName));
      && (ok ==> r.app.isAuthenticated && r.app.user == Some(UserFromVerify(resp.data.value.user, w.app.language, now)))
      && (ok ==> (r.flow.step == Profile <==> newish))
      && (ok && !newish ==> r.flow.step == Otp && r.flow.redirected)
      && (!ok ==> r.flow.step == Otp && r.flow.redirected == w.flow.redirected && r.app == w.app)
      && (!ValidOtp(code) ==> r == w)
  {
  }

  /**
   * A verification the backend rejects empties the OTP field and reports
   * the category of its message.
   */
  lemma FailedVerifyResetsInput(w: World, code: string, resp: Response<VerifyData>, now: string)
    requires w.flow.step == Otp && ValidOtp(code)
    requires resp.Response? && !(resp.success && resp.data.Some?)
    ensures SubmitOtp(w, code, resp, now).flow.otpInput == ""
    ensures SubmitOtp(w, code, resp, now).flow.toast ==
      Some(OtpRejected(ClassifyOtpError(resp.errorMessage), resp.errorMessage))
  {
  }

  /**
   * `completeRegistration`: with no crop selected nothing but the toast
   * changes; when profile creation fails there is no crop sync and no
   * redirect; a failed crop sync does not stop the redirect; on success the
   * stored crop preferences are the selection.
   */
  lemma RegistrationOutcomes(w: World, p: Response<ProfileRecord>, c: Response<()>, now: string)
    requires w.flow.step == Crops
    ensures var r := Complete(w, p, c, now);
      && (w.flow.selectedCrops == [] ==> r == World(w.flow.(toast := Some(SelectAtLeastOneCrop)), w.app))
      && (w.flow.selectedCrops != [] && !Succeeded(p) ==>
            r.flow.calls == w.flow.calls + [CreateProfile(w.flow.profile.name, w.flow.profile.pincode, DraftEmail(w.flow.profile))]
            && r.flow.redirected == w.flow.redirected && r.app == w.app)
      && (w.flow.selectedCrops != [] && Succeeded(p) && c.Response? ==> r.flow.redirected)
      && (w.flow.selectedCrops != [] && Succeeded(p) ==>
            r.flow.calls == w.flow.calls
              + [CreateProfile(w.flow.profile.name, w.flow.profile.pincode, DraftEmail(w.flow.profile))]
              + [SyncCropPreferences(w.flow.selectedCrops)])
      && (w.flow.selectedCrops != [] && Succeeded(p) && p.data.Some? && c.Response? ==>
            r.app.user == Some(UserFromProfile(p.data.value, w.flow.profile, w.flow.selectedCrops, w.app.language, now))
            && r.app.user.value.cropPreferences == w.flow.selectedCrops)
      && (w.flow.selectedCrops != [] && Succeeded(p) && p.data.None? ==> r.app == w.app)
      && r.app.isAuthenticated == w.app.isAuthenticated
      && r.flow.step == Crops
  {
  }

  /** A resend never changes the step; a successful one restarts the countdown. */
  lemma ResendTransition(w: World, resp: Response<()>)
    requires w.flow.step == Otp && ResendOffered(w.flow.timer)
    ensures var r := Resend(w, resp);
      && r.flow.step == Otp
      && r.flow.calls == w.flow.calls + [SendOtp(w.flow.mobile)]
      && (Succeeded(resp) ==> r.flow.timer == Countdown(60, w.flow.timer.running + 1) && r.flow.otpInput == "")
      && (!Succeeded(resp) ==> r.flow.timer == w.flow.timer)
  {
  }

  /**
   * The profile step moves on to the crops step exactly when the form
   * passes its schema; no backend call is made and the session is not
   * touched. The draft keeps the form's values with an empty state and
   * district; a rejected form changes nothing.
   */
  lemma ProfileStepTransition(w: World, name: string, pincode: string, email: string, emailWellFormed: bool)
    requires w.flow.step == Profile
    ensures var r := SubmitProfile(w, name, pincode, email, emailWellFormed);
      && (r.flow.step == Crops <==> ValidProfile(name, pincode, email, emailWellFormed))
      && (r.flow.step != Crops ==> r == w)
      && r.app == w.app && r.flow.calls == w.flow.calls
      && (ValidProfile(name, pincode, email, emailWellFormed) ==>
            r.flow.profile == ProfileDraft(name, pincode, email, "", "")
            && r.flow.selectedCrops == w.flow.selectedCrops && r.flow.timer == w.flow.timer)
  {
  }

  /**
   * The user stored after a verification: the backend's identity and phone
   * number; an empty name exactly when the backend sent no usable full
   * name; the page's language and the current time as fallbacks.
   */
  lemma StoredUserFromVerify(u: ProfileRecord, lang: Language, now: string)
    ensures var s := UserFromVerify(u, lang, now);
      && s.id == u.id && s.mobile == u.phoneNumber
      && (s.name == "" <==> !Truthy(u.fullName))
      && (Truthy(u.fullName) ==> s.name == u.fullName.value)
      && (u.language.None? ==> s.language == lang)
      && (!Truthy(u.lastLogin) ==> s.lastLogin == now)
      && (u.cropPreferences.None? ==> s.cropPreferences == [])
  {
  }

  /**
   * A returning user is only redirected with a stored user whose name is
   * the non-empty full name the backend sent.
   */
  lemma ReturningUserStoredWithName(w: World, code: string, resp: Response<VerifyData>, now: string)
    requires w.flow.step == Otp && !w.flow.redirected
    ensures var r := SubmitOtp(w, code, resp, now);
      r.flow.redirected ==>
        && resp.Response? && resp.data.Some? && Truthy(resp.data.value.user.fullName)
        && r.app.user.Some? && r.app.user.value.name == resp.data.value.user.fullName.value
        && r.app.user.value.name != ""
  {
  }

  /**
   * The user stored when registration completes: the page's crop selection,
   * and the draft's name and pincode wherever the backend's record has none.
   */
  lemma StoredUserFromProfile(u: ProfileRecord, draft: ProfileDraft, crops: seq<string>, lang: Language, now: string)
    ensures var s := UserFromProfile(u, draft, crops, lang, now);
      && s.id == u.id && s.mobile == u.phoneNumber && s.cropPreferences == crops
      && (Truthy(u.fullName) ==> s.name == u.fullName.value)
      && (!Truthy(u.fullName) ==> s.name == draft.name)
      && (Truthy(u.pinCode) ==> s.pincode == u.pinCode.value)
      && (!Truthy(u.pinCode) ==> s.pincode == draft.pincode)
  {
  }

  /** `n` seconds of the countdown, as events. */
  function Seconds(n: nat): (r: seq<Action>)
    ensures |r| == n && forall i :: 0 <= i < n ==> r[i] == SecondElapsed
  {
    seq(n, _ => SecondElapsed)
  }

  /** While the page is shown, `n` elapsed seconds only advance the countdown. */
  lemma {:induction false} RunSeconds(w: World, n: nat)
    requires !w.flow.redirected
    ensures Run(w, Seconds(n)) == World(w.flow.(timer := AfterSeconds(w.flow.timer, n)), w.app)
    decreases n
  {
    if n > 0 {
      var w1 := World(w.flow.(timer := Second(w.flow.timer)), w.app);
      assert Seconds(n)[1..] == Seconds(n - 1);
      RunSeconds(w1, n - 1);
    }
  }

  /**
   * The finding at the page level: send an OTP, wait a second, go back and
   * send again. Two intervals are then live, and "Resend OTP" is offered
   * after 30 seconds, not 60.
   */
  lemma BackAndResubmitHalvesWait(w: World, input: string, resp: Response<()>)
    requires w.flow.step == Mobile && !w.flow.redirected && w.flow.timer.running == 0
    requires ValidMobile(input) && Succeeded(resp)
    ensures var w4 := Run(w, [MobileSubmitted(input, resp), SecondElapsed, BackFromOtp, MobileSubmitted(input, resp)]);
      && w4.flow.step == Otp && w4.flow.timer == Countdown(60, 2)
      && !ResendOffered(Run(w4, Seconds(29)).flow.timer)
      && ResendOffered(Run(w4, Seconds(30)).flow.timer)
  {
    var acts := [MobileSubmitted(input, resp), SecondElapsed, BackFromOtp, MobileSubmitted(input, resp)];
    var w1 := SubmitMobile(w, input, resp);
    assert w1.flow.timer == Countdown(60, 1) && w1.flow.step == Otp;
    var w2 := World(w1.flow.(timer := Second(w1.flow.timer)), w1.app);
    assert w2.flow.timer == Countdown(59, 1);
    var w3 := World(w2.flow.(step := Mobile), w2.app);
    var w4 := SubmitMobile(w3, input, resp);
    assert w4.flow.timer == Countdown(60, 2) && w4.flow.step == Otp && !w4.flow.redirected;
    var t1 := [SecondElapsed, BackFromOtp, MobileSubmitted(input, resp)];
    var t2 := [BackFromOtp, MobileSubmitted(input, resp)];
    var t3 := [MobileSubmitted(input, resp)];
    assert acts[1..] == t1 && t1[1..] == t2 && t2[1..] == t3 && t3[1..] == [];
    assert Run(w, acts) == Run(w1, t1);
    assert Run(w1, t1) == Run(w2, t2);
    assert Run(w2, t2) == Run(w3, t3);
    assert Run(w3, t3) == Run(w4, []);
    RunSeconds(w4, 29);
    RunSeconds(w4, 30);
    TwoIntervalsBeforeZero(30, 29);
    TwoIntervalsRunTwiceAsFast(30);
  }

  const SampleUser: ProfileRecord :=
    ProfileRecord("u1", None, "9876543210", None, None, None, None, None, true, "2024-01-01", None)

  const SampleProfile: ProfileRecord :=
    ProfileRecord("u1", Some("Ravi Kumar"), "9876543210", Some("203205"), Some("UP"), None, None, None, true,
                  "2024-01-01", None)

  /**
   * The registration of a new user from a fresh page, whatever the session:
   * the mobile "9876543210", the OTP "1234" answered as a new user, the
   * name "Ravi Kumar" and pincode "203205", the crop "wheat-01". Each step
   * leads to the next, the four calls go out in order, and the session ends
   * authenticated with that crop while the page redirects, whether or not
   * the crop sync succeeds.
   */
  lemma RegistrationScenario(w0: World, cropsResp: Response<()>)
    requires w0.flow == InitialFlow && cropsResp.Response?
    ensures var w1 := SubmitMobile(w0, "9876543210", Response(true, None, None));
      w1.flow.step == Otp &&
      var w2 := SubmitOtp(w1, "1234", Response(true, Some(VerifyData(SampleUser, true)), None), "t0");
      w2.flow.step == Profile &&
      var w3 := SubmitProfile(w2, "Ravi Kumar", "203205", "", false);
      w3.flow.step == Crops &&
      var w4 := ToggleCropIn(w3, "wheat-01");
      var w5 := Complete(w4, Response(true, Some(SampleProfile), None), cropsResp, "t1");
      && w5.flow.redirected
      && w5.app.isAuthenticated
      && w5.app.user.Some? && w5.app.user.value.cropPreferences == ["wheat-01"]
      && w5.flow.calls == [SendOtp("9876543210"), VerifyOtp("9876543210", "1234"),
                           CreateProfile("Ravi Kumar", "203205", None), SyncCropPreferences(["wheat-01"])]
  {
    ScenarioMobile(w0);
    var w1 := SubmitMobile(w0, "9876543210", Response(true, None, None));
    ScenarioOtp(w1);
    var w2 := SubmitOtp(w1, "1234", Response(true, Some(VerifyData(SampleUser, true)), None), "t0");
    ScenarioProfile(w2);
    var w3 := SubmitProfile(w2, "Ravi Kumar", "203205", "", false);
    var w4 := ToggleCropIn(w3, "wheat-01");
    assert w4.flow.selectedCrops == ["wheat-01"];
    assert w4.flow.calls == [SendOtp("9876543210"), VerifyOtp("9876543210", "1234")];
    ScenarioComplete(w4, cropsResp);
  }

  lemma ScenarioMobile(w0: World)
    requires w0.flow == InitialFlow
    ensures var w1 := SubmitMobile(w0, "9876543210", Response(true, None, None));
      && w1.flow.step == Otp && w1.flow.mobile == "9876543210" && w1.flow.selectedCrops == []
      && w1.flow.calls == [SendOtp("9876543210")] && !w1.flow.redirected
  {
    MobileExamples();
  }

  lemma ScenarioOtp(w1: World)
    requires w1.flow.step == Otp && !w1.flow.redirected
    ensures var w2 := SubmitOtp(w1, "1234", Response(true, Some(VerifyData(SampleUser, true)), None), "t0");
      && w2.flow.step == Profile && w2.app.isAuthenticated && !w2.flow.redirected
      && w2.flow.selectedCrops == w1.flow.selectedCrops
      && w2.flow.calls == w1.flow.calls + [VerifyOtp(w1.flow.mobile, "1234")]
  {
  }

  lemma ScenarioProfile(w2: World)
    requires w2.flow.step == Profile
    ensures var w3 := SubmitProfile(w2, "Ravi Kumar", "203205", "", false);
      && w3.flow.step == Crops && w3.flow.profile == ProfileDraft("Ravi Kumar", "203205", "", "", "")
      && w3.app == w2.app && w3.flow.calls == w2.flow.calls && w3.flow.selectedCrops == w2.flow.selectedCrops
      && w3.flow.redirected == w2.flow.redirected
  {
    ProfileExamples();
  }

  lemma ScenarioComplete(w4: World, cropsResp: Response<()>)
    requires w4.flow.step == Crops && w4.flow.selectedCrops == ["wheat-01"] && cropsResp.Response?
    requires w4.flow.profile == ProfileDraft("Ravi Kumar", "203205", "", "", "")
    ensures var w5 := Complete(w4, Response(true, Some(SampleProfile), None), cropsResp, "t1");
      && w5.flow.redirected && w5.app.isAuthenticated == w4.app.isAuthenticated
      && w5.app.user.Some? && w5.app.user.value.cropPreferences == ["wheat-01"]
      && w5.flow.calls == w4.flow.calls + [CreateProfile("Ravi Kumar", "203205", None), SyncCropPreferences(["wheat-01"])]
  {
  }


  /** The page as a component: its state hooks and a reference to the session store. */
  class AuthPage {
    const store: AppStore
    var step: Step
    var isNewUser: bool
    var mobile: string
    var resendTimer: int
    /** Interval timers currently live for the countdown. */
    var intervals: nat
    var selectedCrops: seq<string>
    var profileData: ProfileDraft
    /** The value of the OTP form's field. */
    var otpInput: string
    var redirected: bool
    var toast: Option<Toast>
    var calls: seq<ApiCall>

    function Timer(): Countdown
      reads this
    {
      Countdown(resendTimer, intervals)
    }

    function State(): Flow
      reads this
    {
      Flow(step, isNewUser, mobile, Timer(), selectedCrops, profileData, otpInput, redirected, toast, calls)
    }

    function Snapshot(): World
      reads this, store
    {
      World(State(), store.State())
    }

    constructor (store: AppStore)
      ensures this.store == store
      ensures State() == InitialFlow
    {
      this.store := store;
      step, isNewUser, mobile := Mobile, false, "";
      resendTimer, intervals := 0, 0;
      selectedCrops, profileData, otpInput := [], EmptyDraft, "";
      redirected, toast, calls := false, None, [];
    }

    /** `startResendTimer`: one more interval, beside any still live. */
    method StartResendTimer()
      modifies this
      ensures State() == old(State()).(timer := StartAsWritten(old(Timer())))
    {
      resendTimer := ResendSeconds;
      intervals := intervals + 1;
    }

    /** One second passes: each live interval fires once. */
    method Tick()
      modifies this
      ensures State() == old(State()).(timer := Second(old(Timer())))
    {
      ghost var c0 := Timer();
      var t, n := resendTimer, intervals;
      var k := n;
      while k > 0
        invariant k <= n
        invariant FireAll(Countdown(t, n), k) == Second(c0)
      {
        if t <= 1 {
          t, n := 0, n - 1;
        } else {
          t := t - 1;
        }
        k := k - 1;
      }
      resendTimer, intervals := t, n;
    }

    method OnMobileSubmit(input: string, resp: Response<()>)
      requires step == Mobile
      modifies this
      ensures Snapshot() == SubmitMobile(old(Snapshot()), input, resp)
    {
      if !ValidMobile(input) {
        return;
      }
      mobile := input;
      calls := calls + [SendOtp(input)];
      if Succeeded(resp) {
        step := Otp;
        StartResendTimer();
        toast := Some(OtpSent(input));
      } else if resp.Thrown? {
        toast := Some(SomethingWrong);
      } else {
        toast := Some(SendFailed(resp.errorMessage));
      }
    }

    method OnOtpSubmit(code: string, resp: Response<VerifyData>, now: string)
      requires step == Otp
      modifies this, store
      ensures Snapshot() == SubmitOtp(old(Snapshot()), code, resp, now)
    {
      if !ValidOtp(code) {
        return;
      }
      otpInput := code;
      calls := calls + [VerifyOtp(mobile, code)];
      if resp.Thrown? {
        toast := Some(SomethingWrong);
      } else if resp.success && resp.data.Some? {
        var d := resp.data.value;
        store.SetUser(Some(UserFromVerify(d.user, store.language, now)));
        store.SetAuthenticated(true);
        if d.isNewUser || !Truthy(d.user.fullName) {
          isNewUser := true;
          step := Profile;
        } else {
          toast := Some(WelcomeBack);
          redirected := true;
        }
      } else {
        toast := Some(OtpRejected(ClassifyOtpError(resp.errorMessage), resp.errorMessage));
        otpInput := "";
      }
    }

    method OnProfileSubmit(name: string, pincode: string, email: string, emailWellFormed: bool)
      requires step == Profile
      modifies this
      ensures Snapshot() == SubmitProfile(old(Snapshot()), name, pincode, email, emailWellFormed)
    {
      if !ValidProfile(name, pincode, email, emailWellFormed) {
        return;
      }
      profileData := ProfileDraft(name, pincode, email, "", "");
      step := Crops;
    }

    method HandleCropToggle(id: string)
      requires step == Crops
      modifies this
      ensures Snapshot() == ToggleCropIn(old(Snapshot()), id)
    {
      selectedCrops := ToggleCrop(selectedCrops, id);
    }

    method CompleteRegistration(profileResp: Response<ProfileRecord>, cropsResp: Response<()>, now: string)
      requires step == Crops
      modifies this, store
      ensures Snapshot() == Complete(old(Snapshot()), profileResp, cropsResp, now)
    {
      if |selectedCrops| == 0 {
        toast := Some(SelectAtLeastOneCrop);
        return;
      }
      calls := calls + [CreateProfile(profileData.name, profileData.pincode, DraftEmail(profileData))];
      if profileResp.Thrown? {
        toast := Some(SomethingWrong);
        return;
      }
      if !profileResp.success {
        toast := Some(ProfileFailed(profileResp.errorMessage));
        return;
      }
      calls := calls + [SyncCropPreferences(selectedCrops)];
      if cropsResp.Thrown? {
        toast := Some(SomethingWrong);
        return;
      }
      if profileResp.data.Some? {
        store.SetUser(Some(UserFromProfile(profileResp.data.value, profileData, selectedCrops, store.language, now)));
      }
      toast := Some(Welcome);
      redirected := true;
    }

    method ResendOtp(resp: Response<()>)
      requires step == Otp && ResendOffered(Timer())
      modifies this
      ensures Snapshot() == Resend(old(Snapshot()), resp)
    {
      calls := calls + [SendOtp(mobile)];
      if Succeeded(resp) {
        StartResendTimer();
        otpInput := "";
        toast := Some(OtpResent(mobile));
      } else if resp.Thrown? {
        toast := Some(SomethingWrong);
      } else {
        toast := Some(ResendRejected(ClassifyResendError(resp.errorMessage), resp.errorMessage));
      }
    }

    /** The back button of the OTP step. */
    method BackToMobile()
      requires step == Otp
      modifies this
      ensures Snapshot() == Apply(old(Snapshot()), BackFromOtp)
    {
      step := Mobile;
    }

    /** The back button of the crops step. */
    method BackToProfile()
      requires step == Crops
      modifies this
      ensures Snapshot() == Apply(old(Snapshot()), BackFromCrops)
    {
      step := Profile;
    }

    method ToggleLanguage()
      modifies store
      ensures Snapshot() == Apply(old(Snapshot()), LanguageToggled)
    {
      store.SetLanguage(Toggled(store.language));
    }

    /** `getProgress` on the page's current state. */
    function GetProgress(): (p: int)
      reads this
      ensures p in {25, 50, 75, 100}
      ensures isNewUser ==> p == 25 * (Ordinal(step) + 1)
      ensures !isNewUser ==> p == if step == Mobile then 50 else 100
    {
      Progress(isNewUser, step)
    }
  }
}
