/** The unified view model (`UnifiedAuthViewModel`): it owns the three
    providers, merges their states into one `UnifiedAuthState`, forwards the
    screen's commands to the provider they concern, and fans sign-out and
    error clearing out to all three. The `combine` collector that re-runs the
    merge whenever a provider state changes is modelled as an explicit
    `Recompute` step, since when it runs is a matter of scheduling. */
module UnifiedAuth {
  import opened AuthCommon
  import PhoneAuth
  import GoogleAuth
  import TruecallerAuth

  datatype AuthMethod = NONE | PHONE | GOOGLE | TRUECALLER

  datatype UnifiedAuthState = UnifiedAuthState(
    isLoading: bool,
    isAuthenticated: bool,
    authMethod: AuthMethod,
    user: Option<FirebaseUser>,
    errorMessage: string,
    phoneNumber: string,
    displayName: string,
    email: string,
    photoUrl: string,
    firstName: string,
    lastName: string)

  /** `UnifiedAuthState()`: every field at its declared default. */
  const DefaultState := UnifiedAuthState(false, false, NONE, None, "", "", "", "", "", "", "")

  /** One snapshot of the three provider states, as `combine` delivers it. */
  datatype Providers = Providers(
    phone: PhoneAuth.PhoneAuthState,
    google: GoogleAuth.GoogleAuthState,
    truecaller: TruecallerAuth.TruecallerAuthState)

  /** The fixed order in which providers are consulted, highest first. */
  const Priority := [PHONE, GOOGLE, TRUECALLER]

  /** Whether the given provider reports a completed sign-in. */
  predicate Succeeded(m: AuthMethod, s: Providers) {
    match m
    case NONE => false
    case PHONE => s.phone.isVerified
    case GOOGLE => s.google.isAuthenticated
    case TRUECALLER => s.truecaller.isAuthenticated
  }

  /** The error message the given provider currently shows. */
  function ErrorOf(m: AuthMethod, s: Providers): string {
    match m
    case NONE => ""
    case PHONE => s.phone.errorMessage
    case GOOGLE => s.google.errorMessage
    case TRUECALLER => s.truecaller.errorMessage
  }

  /** Reference definition of the chosen method: the first provider of
      `order` that has signed in, or NONE when none has. */
  function FirstSucceeded(order: seq<AuthMethod>, s: Providers): (r: AuthMethod)
    ensures r == NONE <==> forall i :: 0 <= i < |order| ==> !Succeeded(order[i], s)
    ensures r != NONE ==>
      exists i :: 0 <= i < |order| && order[i] == r && Succeeded(r, s)
                  && forall j :: 0 <= j < i ==> !Succeeded(order[j], s)
    decreases |order|
  {
    if order == [] then NONE
    else if Succeeded(order[0], s) then order[0]
    else
      var rest := FirstSucceeded(order[1..], s);
      assert forall i :: 0 <= i < |order[1..]| ==> order[1..][i] == order[i + 1];
      rest
  }

  /** Reference definition of the shown error: the first non-empty error of
      the providers of `order`, or the empty string when all are empty. */
  function FirstError(order: seq<AuthMethod>, s: Providers): (r: string)
    ensures r == "" <==> forall i :: 0 <= i < |order| ==> ErrorOf(order[i], s) == ""
    ensures r != "" ==>
      exists i :: 0 <= i < |order| && ErrorOf(order[i], s) == r
                  && forall j :: 0 <= j < i ==> ErrorOf(order[j], s) == ""
    decreases |order|
  {
    if order == [] then ""
    else if ErrorOf(order[0], s) != "" then ErrorOf(order[0], s)
    else
      var rest := FirstError(order[1..], s);
      assert forall i :: 0 <= i < |order[1..]| ==> order[1..][i] == order[i + 1];
      rest
  }

  /** The reference definitions evaluated on the fixed priority order. */
  lemma PriorityUnfolds(s: Providers)
    ensures FirstSucceeded(Priority, s)
      == if s.phone.isVerified then PHONE
         else if s.google.isAuthenticated then GOOGLE
         else if s.truecaller.isAuthenticated then TRUECALLER
         else NONE
    ensures FirstError(Priority, s)
      == if s.phone.errorMessage != "" then s.phone.errorMessage
         else if s.google.errorMessage != "" then s.google.errorMessage
         else s.truecaller.errorMessage
  {
    assert Priority[1..] == [GOOGLE, TRUECALLER];
    assert Priority[1..][1..] == [TRUECALLER];
    assert Priority[1..][1..][1..] == [];
  }

  /** The `when` that picks the sign-in method: the first provider in
      priority order that has signed in. */
  function AuthMethodOf(s: Providers): (m: AuthMethod)
    ensures m == FirstSucceeded(Priority, s)
  {
    PriorityUnfolds(s);
    if s.phone.isVerified then PHONE
    else if s.google.isAuthenticated then GOOGLE
    else if s.truecaller.isAuthenticated then TRUECALLER
    else NONE
  }

  /** The `when` that picks the error to show: the first non-empty error in
      priority order. */
  function ErrorMessageOf(s: Providers): (e: string)
    ensures e == FirstError(Priority, s)
  {
    PriorityUnfolds(s);
    if s.phone.errorMessage != "" then s.phone.errorMessage
    else if s.google.errorMessage != "" then s.google.errorMessage
    else if s.truecaller.errorMessage != "" then s.truecaller.errorMessage
    else ""
  }

  /** `updateUnifiedState`: the flags are OR-ed, the method and the error are
      taken in priority order, the phone number falls back from the phone
      provider to Truecaller, and the profile always comes from Google (user,
      name, e-mail, photo) and Truecaller (first and last name), whichever
      method signed in. All eleven fields are overwritten. */
  function UpdateUnifiedState(prev: UnifiedAuthState, s: Providers): (r: UnifiedAuthState)
    ensures r.isLoading <==> s.phone.isLoading || s.google.isLoading || s.truecaller.isLoading
    ensures r.isAuthenticated <==> s.phone.isVerified || s.google.isAuthenticated || s.truecaller.isAuthenticated
    ensures r.authMethod == FirstSucceeded(Priority, s)
    ensures r.errorMessage == FirstError(Priority, s)
    ensures s.phone.phoneNumber != "" ==> r.phoneNumber == s.phone.phoneNumber
    ensures s.phone.phoneNumber == "" ==> r.phoneNumber == s.truecaller.phoneNumber
    ensures r.user == s.google.user
    ensures r.displayName == s.google.displayName
    ensures r.email == s.google.email
    ensures r.photoUrl == s.google.photoUrl
    ensures r.firstName == s.truecaller.firstName
    ensures r.lastName == s.truecaller.lastName
  {
    var p, g, t := s.phone, s.google, s.truecaller;
    prev.(
      isLoading := p.isLoading || g.isLoading || t.isLoading,
      isAuthenticated := p.isVerified || g.isAuthenticated || t.isAuthenticated,
      authMethod := AuthMethodOf(s),
      user := g.user,
      errorMessage := ErrorMessageOf(s),
      phoneNumber := if p.phoneNumber != "" then p.phoneNumber else t.phoneNumber,
      displayName := g.displayName,
      email := g.email,
      photoUrl := g.photoUrl,
      firstName := t.firstName,
      lastName := t.lastName)
  }

  /** The merge does not depend on the unified state it overwrites. */
  lemma MergeIgnoresPrevious(a: UnifiedAuthState, b: UnifiedAuthState, s: Providers)
    ensures UpdateUnifiedState(a, s) == UpdateUnifiedState(b, s)
  {
  }

  /** The method is NONE exactly when nobody is signed in; otherwise it names
      a provider that has signed in, and no higher-priority provider has. */
  lemma MethodAgreesWithAuthenticated(prev: UnifiedAuthState, s: Providers)
    ensures var r := UpdateUnifiedState(prev, s);
      && (r.authMethod == NONE <==> !r.isAuthenticated)
      && (r.authMethod != NONE ==> Succeeded(r.authMethod, s))
      && (r.authMethod == GOOGLE ==> !s.phone.isVerified)
      && (r.authMethod == TRUECALLER ==> !s.phone.isVerified && !s.google.isAuthenticated)
  {
    var r := UpdateUnifiedState(prev, s);
    if r.authMethod != NONE {
      var i :| 0 <= i < |Priority| && Priority[i] == r.authMethod && Succeeded(r.authMethod, s)
               && forall j :: 0 <= j < i ==> !Succeeded(Priority[j], s);
      if r.authMethod == GOOGLE {
        assert i == 1 && Priority[0] == PHONE;
      } else if r.authMethod == TRUECALLER {
        assert i == 2 && Priority[0] == PHONE && Priority[1] == GOOGLE;
      }
    } else {
      assert forall m :: m in Priority ==> !Succeeded(m, s);
    }
  }

  /** When exactly one provider has signed in, it is the reported method. */
  lemma SoleSuccessIsReported(prev: UnifiedAuthState, s: Providers, m: AuthMethod)
    requires Succeeded(m, s)
    requires forall other :: other != m ==> !Succeeded(other, s)
    ensures UpdateUnifiedState(prev, s).authMethod == m
    ensures UpdateUnifiedState(prev, s).isAuthenticated
  {
    MethodAgreesWithAuthenticated(prev, s);
    assert m in Priority;
  }

  /** The shown error is empty exactly when all three providers' are; when
      it is not, it is the error of the highest-priority provider that has
      one, however the failures were ordered in time. */
  lemma ErrorFollowsPriority(prev: UnifiedAuthState, s: Providers)
    ensures var r := UpdateUnifiedState(prev, s);
      && (r.errorMessage == "" <==>
            s.phone.errorMessage == "" && s.google.errorMessage == "" && s.truecaller.errorMessage == "")
      && (s.phone.errorMessage != "" ==> r.errorMessage == s.phone.errorMessage)
      && (s.phone.errorMessage == "" && s.google.errorMessage != "" ==>
            r.errorMessage == s.google.errorMessage)
      && (s.phone.errorMessage == "" && s.google.errorMessage == "" ==>
            r.errorMessage == s.truecaller.errorMessage)
  {
    var r := UpdateUnifiedState(prev, s);
    assert Priority[0] == PHONE && Priority[1] == GOOGLE && Priority[2] == TRUECALLER;
    if r.errorMessage != "" {
      var i :| 0 <= i < |Priority| && ErrorOf(Priority[i], s) == r.errorMessage
               && forall j :: 0 <= j < i ==> ErrorOf(Priority[j], s) == "";
    }
  }

  /** The unified view model: the three providers, the published state, and
      whether the Google service's `lateinit googleSignInClient` was ever
      assigned (only a successful initialisation assigns it). */
  datatype Orchestrator = Orchestrator(
    phone: PhoneAuth.PhoneSession,
    google: GoogleAuth.GoogleAuthState,
    truecaller: TruecallerAuth.TruecallerAuthState,
    unified: UnifiedAuthState,
    googleSignInClientSet: bool)

  /** The context the view model hands to the Google service: a bare
      `android.app.Application()`, created directly and never attached. */
  const SourceContext := GoogleAuth.BareApplication

  /** How a call into the view model ends: it completes, or the Google
      service throws an exception it does not catch, which leaves the view
      model; `after` is the state the throw leaves behind. */
  datatype CallResult = Completed(after: Orchestrator) | Threw(after: Orchestrator)

  /** The commands the screen issues. The SDK outcomes a command depends on
      synchronously travel with it. */
  datatype Command =
    | UpdatePhoneNumberCommand(number: string)
    | UpdateOtpCodeCommand(code: string)
    | SendOtpCommand
    | VerifyOtpCommand
    | SignInWithGoogleCommand(request: GoogleAuth.BeginRequest)
    | HandleGoogleResultCommand(intent: GoogleAuth.IntentResult)
    | SignInWithTruecallerCommand
    | SignOutCommand
    | ClearErrorCommand

  function Snapshot(o: Orchestrator): Providers {
    Providers(o.phone.state, o.google, o.truecaller)
  }

  /** Construction: fresh providers, Google's initialisation (which may
      fail), Truecaller's (which does nothing), and a default unified state. */
  function Create(init: GoogleAuth.InitOutcome): (o: Orchestrator)
    ensures o.phone == PhoneAuth.Initial
    ensures o.truecaller == TruecallerAuth.DefaultState
    ensures o.unified == DefaultState
    ensures GoogleAuth.SameExceptError(o.google, GoogleAuth.DefaultState)
    ensures o.google.errorMessage == "" <==> init.InitOk?
    ensures init.InitFailed? ==>
      o.google.errorMessage == GoogleAuth.InitFailedPrefix + MessageText(init.message)
    ensures o.googleSignInClientSet <==> init.InitOk?
  {
    Orchestrator(
      PhoneAuth.Initial,
      GoogleAuth.InitializeGoogleSignIn(GoogleAuth.DefaultState, init),
      TruecallerAuth.InitializeTruecallerSdk(TruecallerAuth.DefaultState),
      DefaultState,
      init.InitOk?)
  }

  /** Construction exactly as the view model does it, in `SourceContext`:
      whatever the SDK would have done, Google's initialisation fails on the
      client-id lookup, so the Google error is showing from the start and the
      sign-in client is never assigned. */
  function CreateAsWritten(sdkInit: GoogleAuth.InitOutcome, lookupFailure: Option<string>): (o: Orchestrator)
    ensures !o.googleSignInClientSet
    ensures o.google.errorMessage == GoogleAuth.InitFailedPrefix + MessageText(lookupFailure)
    ensures o.phone == PhoneAuth.Initial && o.unified == DefaultState
  {
    Create(GoogleAuth.InitOutcomeIn(SourceContext, sdkInit, lookupFailure))
  }

  /** One run of the `combine` collector: the published state becomes the
      merge of the current provider snapshot. */
  function Recompute(o: Orchestrator): (r: Orchestrator)
    ensures Snapshot(r) == Snapshot(o) && r.phone == o.phone
    ensures r.googleSignInClientSet == o.googleSignInClientSet
    ensures r.unified == UpdateUnifiedState(DefaultState, Snapshot(o))
  {
    o.(unified := UpdateUnifiedState(o.unified, Snapshot(o)))
  }

  /** `signOut`: Google and Truecaller go back to their defaults and the
      published state is reset, but the phone session only loses its error:
      number, code, verification ids and verification survive. */
  function SignOut(o: Orchestrator): (r: Orchestrator)
    ensures r.google == GoogleAuth.DefaultState
    ensures r.truecaller == TruecallerAuth.DefaultState
    ensures r.unified == DefaultState
    ensures r.phone.state.errorMessage == ""
    ensures PhoneAuth.SameExceptError(r.phone.state, o.phone.state)
    ensures r.phone.currentVerificationId == o.phone.currentVerificationId
    ensures r.googleSignInClientSet == o.googleSignInClientSet
  {
    Orchestrator(
      PhoneAuth.ClearError(o.phone),
      GoogleAuth.SignOut(o.google),
      TruecallerAuth.SignOut(o.truecaller),
      DefaultState,
      o.googleSignInClientSet)
  }

  /** `signOut` as the code runs it. The phone error is cleared first; then
      the Google service calls `googleSignInClient.signOut()`, which throws
      when the client was never assigned. The exception skips the Google
      reset, the Truecaller sign-out and the reset of the published state.
      Only when the client is set does sign-out complete, as `SignOut`. */
  function SignOutAsWritten(o: Orchestrator): (r: CallResult)
    ensures r.Completed? <==> o.googleSignInClientSet
    ensures r.Completed? ==> r.after == SignOut(o)
    ensures r.Threw? ==>
      && r.after.phone == PhoneAuth.ClearError(o.phone)
      && r.after.google == o.google
      && r.after.truecaller == o.truecaller
      && r.after.unified == o.unified
  {
    var phoneCleared := o.(phone := PhoneAuth.ClearError(o.phone));
    if o.googleSignInClientSet then Completed(SignOut(o)) else Threw(phoneCleared)
  }

  /** `clearError`: every provider's error is cleared and nothing else in
      them changes. The published state is left to the next recompute. */
  function ClearError(o: Orchestrator): (r: Orchestrator)
    ensures r.phone.state.errorMessage == "" && r.google.errorMessage == ""
      && r.truecaller.errorMessage == ""
    ensures PhoneAuth.SameExceptError(r.phone.state, o.phone.state)
    ensures r.phone.currentVerificationId == o.phone.currentVerificationId
    ensures GoogleAuth.SameExceptError(r.google, o.google)
    ensures TruecallerAuth.SameExceptError(r.truecaller, o.truecaller)
    ensures r.unified == o.unified
    ensures r.googleSignInClientSet == o.googleSignInClientSet
  {
    Orchestrator(
      PhoneAuth.ClearError(o.phone),
      GoogleAuth.ClearError(o.google),
      TruecallerAuth.ClearError(o.truecaller),
      o.unified,
      o.googleSignInClientSet)
  }

  /** A command forwarded to the provider it concerns. Phone commands leave
      Google and Truecaller alone and vice versa; only sign-out touches the
      published state directly, and no command assigns the Google sign-in
      client. Sign-out here is the completing `SignOut`; `SignOutAsWritten`
      is what the code does when the client was never assigned. */
  function Execute(o: Orchestrator, c: Command): (r: Orchestrator)
    ensures !c.SignOutCommand? ==> r.unified == o.unified
    ensures (c.UpdatePhoneNumberCommand? || c.UpdateOtpCodeCommand? || c.SendOtpCommand? || c.VerifyOtpCommand?)
      ==> r.google == o.google && r.truecaller == o.truecaller
    ensures (c.SignInWithGoogleCommand? || c.HandleGoogleResultCommand?)
      ==> r.phone == o.phone && r.truecaller == o.truecaller
    ensures c.SignInWithTruecallerCommand? ==>
      && r.phone == o.phone && r.google == o.google
      && r.truecaller.errorMessage == TruecallerAuth.DisabledError
    ensures o.phone.state.isVerified ==> r.phone.state.isVerified
    ensures r.googleSignInClientSet == o.googleSignInClientSet
  {
    match c
    case UpdatePhoneNumberCommand(number) => o.(phone := PhoneAuth.UpdatePhoneNumber(o.phone, number))
    case UpdateOtpCodeCommand(code) => o.(phone := PhoneAuth.UpdateOtpCode(o.phone, code))
    case SendOtpCommand => o.(phone := PhoneAuth.SendOtp(o.phone).session)
    case VerifyOtpCommand => o.(phone := PhoneAuth.VerifyOtp(o.phone).session)
    case SignInWithGoogleCommand(request) => o.(google := GoogleAuth.SignInWithGoogle(o.google, request))
    case HandleGoogleResultCommand(intent) =>
      o.(google := GoogleAuth.HandleGoogleSignInResult(o.google, intent).state)
    case SignInWithTruecallerCommand =>
      o.(truecaller := TruecallerAuth.AuthenticateWithTruecaller(o.truecaller))
    case SignOutCommand => SignOut(o)
    case ClearErrorCommand => ClearError(o)
  }

  /** The view model after a sequence of commands, in order. */
  function ExecuteAll(o: Orchestrator, commands: seq<Command>): (r: Orchestrator)
    ensures r.googleSignInClientSet == o.googleSignInClientSet
    ensures o.phone.state.isVerified ==> r.phone.state.isVerified
    decreases |commands|
  {
    if commands == [] then o else ExecuteAll(Execute(o, commands[0]), commands[1..])
  }

  /** Google as the view model built in `SourceContext` leaves it: the
      sign-in client unassigned, and nothing but the error differing from
      `GoogleAuthState()`. */
  predicate GoogleStalled(o: Orchestrator) {
    !o.googleSignInClientSet && GoogleAuth.SameExceptError(o.google, GoogleAuth.DefaultState)
  }

  /** A screen command as the code runs it in `SourceContext`.
      `signInWithGoogle` always throws on the client-id lookup and catches
      it; `handleGoogleSignInResult` reads the unassigned `oneTapClient` and
      throws an exception that is not the `ApiException` it catches;
      `signOut` is `SignOutAsWritten`. Every other command is `Execute`. */
  function ExecuteAsWritten(o: Orchestrator, c: Command, lookupFailure: Option<string>): (r: CallResult)
    ensures r.Threw? <==> (c.SignOutCommand? || c.HandleGoogleResultCommand?) && !o.googleSignInClientSet
    ensures r.after.googleSignInClientSet == o.googleSignInClientSet
    ensures c.SignInWithGoogleCommand? ==>
      && !r.after.google.isLoading
      && r.after.google.errorMessage == GoogleAuth.RequestFailedPrefix + MessageText(lookupFailure)
    ensures GoogleStalled(o) ==> GoogleStalled(r.after)
  {
    match c
    case SignInWithGoogleCommand(request) =>
      Completed(Execute(o, SignInWithGoogleCommand(GoogleAuth.RequestIn(SourceContext, request, lookupFailure))))
    case HandleGoogleResultCommand(_) => if o.googleSignInClientSet then Completed(Execute(o, c)) else Threw(o)
    case SignOutCommand => SignOutAsWritten(o)
    case _ => Completed(Execute(o, c))
  }

  /** Screen commands run in order as the code runs them, stopping at the
      first uncaught exception. Once Google is stalled it stays stalled, and
      with the client unassigned the run throws exactly when it contains a
      sign-out or a Google result. */
  function ExecuteAllAsWritten(o: Orchestrator, commands: seq<Command>, lookupFailure: Option<string>): (r: CallResult)
    ensures r.after.googleSignInClientSet == o.googleSignInClientSet
    ensures GoogleStalled(o) ==> GoogleStalled(r.after)
    ensures !o.googleSignInClientSet ==>
      (r.Threw? <==> exists i :: 0 <= i < |commands| && (commands[i].SignOutCommand? || commands[i].HandleGoogleResultCommand?))
    decreases |commands|
  {
    if commands == [] then Completed(o)
    else
      match ExecuteAsWritten(o, commands[0], lookupFailure)
      case Threw(after) => Threw(after)
      case Completed(after) =>
        var r := ExecuteAllAsWritten(after, commands[1..], lookupFailure);
        assert forall i :: 0 < i < |commands| ==> commands[i] == commands[1..][i - 1];
        r
  }

  /** Built as the code builds it, the view model never signs in with Google
      and can never sign out: whatever screen commands run, Google stays at
      its defaults but for the error, and a run that ends in `signOut`
      throws. A run that completes leaves a view model whose `signOut` throws
      with Google and the published state untouched; the completing
      `SignOut` resets them. */
  lemma {:induction false} AsWrittenSignOutThrows(sdkInit: GoogleAuth.InitOutcome, lookupFailure: Option<string>,
                                                  commands: seq<Command>)
    ensures var r := ExecuteAllAsWritten(CreateAsWritten(sdkInit, lookupFailure), commands, lookupFailure);
      && GoogleStalled(r.after)
      && (r.Completed? ==>
            && SignOutAsWritten(r.after).Threw?
            && SignOutAsWritten(r.after).after.google == r.after.google
            && SignOutAsWritten(r.after).after.unified == r.after.unified)
    ensures ExecuteAllAsWritten(CreateAsWritten(sdkInit, lookupFailure), commands + [SignOutCommand], lookupFailure).Threw?
  {
    var o := CreateAsWritten(sdkInit, lookupFailure);
    assert GoogleStalled(o);
    var withSignOut := commands + [SignOutCommand];
    assert withSignOut[|commands|].SignOutCommand?;
  }

  /** The smallest witness: right after construction, the as-written
      sign-out leaves the Google initialisation error in place, while the
      completing sign-out clears it. */
  lemma AsWrittenSignOutKeepsInitError(sdkInit: GoogleAuth.InitOutcome, lookupFailure: Option<string>)
    ensures var o := CreateAsWritten(sdkInit, lookupFailure);
      && SignOutAsWritten(o).after.google.errorMessage
         == GoogleAuth.InitFailedPrefix + MessageText(lookupFailure)
      && SignOut(o).google.errorMessage == ""
  {
  }

  /** Sign-out does not sign out a phone user: as soon as the collector runs
      again, the published state is authenticated, by PHONE, exactly when
      the phone session was verified before sign-out. */
  lemma SignOutKeepsPhoneSignIn(o: Orchestrator)
    ensures var r := Recompute(SignOut(o)).unified;
      && (r.isAuthenticated <==> o.phone.state.isVerified)
      && (r.authMethod == PHONE <==> o.phone.state.isVerified)
      && (!o.phone.state.isVerified ==> r.authMethod == NONE)
  {
    var s := Snapshot(SignOut(o));
    MethodAgreesWithAuthenticated(DefaultState, s);
    assert Priority[0] == PHONE;
    assert !Succeeded(GOOGLE, s) && !Succeeded(TRUECALLER, s);
    if o.phone.state.isVerified {
      SoleSuccessIsReported(DefaultState, s, PHONE);
    }
  }

  /** After `clearError` the next published state shows no error. */
  lemma ClearErrorThenRecomputeShowsNoError(o: Orchestrator)
    ensures Recompute(ClearError(o)).unified.errorMessage == ""
  {
    ErrorFollowsPriority(DefaultState, Snapshot(ClearError(o)));
  }

  /** Clearing errors twice is the same as clearing them once. */
  lemma ClearErrorIdempotent(o: Orchestrator)
    ensures ClearError(ClearError(o)) == ClearError(o)
  {
  }

  /** A phone failure and a Google failure. A recompute that runs after
      only the Google failure shows Google's message, provided the phone
      showed none; one after only the phone failure shows the phone message;
      once both have failed, the phone message is shown. The two providers'
      states are independent, so "both" is the same state whichever failure
      arrived first. */
  lemma PhoneFailureOutranksGoogle(o: Orchestrator, phoneMessage: Option<string>, googleMessage: Option<string>)
    ensures var googleOnly := o.(google := GoogleAuth.OnBeginSignIn(o.google, GoogleAuth.BeginFailed(googleMessage)));
            var phoneOnly := o.(phone := PhoneAuth.OnVerificationFailed(o.phone, phoneMessage));
            var both := googleOnly.(phone := phoneOnly.phone);
            && (o.phone.state.errorMessage == "" ==>
                  Recompute(googleOnly).unified.errorMessage
                  == GoogleAuth.GoogleFailedPrefix + MessageText(googleMessage))
            && Recompute(phoneOnly).unified.errorMessage == PhoneAuth.SendFailedPrefix + MessageText(phoneMessage)
            && Recompute(both).unified.errorMessage == PhoneAuth.SendFailedPrefix + MessageText(phoneMessage)
  {
    var googleOnly := o.(google := GoogleAuth.OnBeginSignIn(o.google, GoogleAuth.BeginFailed(googleMessage)));
    var phoneOnly := o.(phone := PhoneAuth.OnVerificationFailed(o.phone, phoneMessage));
    var both := googleOnly.(phone := phoneOnly.phone);
    ErrorFollowsPriority(googleOnly.unified, Snapshot(googleOnly));
    ErrorFollowsPriority(phoneOnly.unified, Snapshot(phoneOnly));
    ErrorFollowsPriority(both.unified, Snapshot(both));
  }

  /** The view model on the SMS path once the number "9876543210" is typed,
      the code was sent as "vid-1" and "123456" is typed. */
  function CodeTyped(init: GoogleAuth.InitOutcome): Orchestrator {
    var o0 := Execute(Create(init), UpdatePhoneNumberCommand("9876543210"));
    var o1 := o0.(phone := PhoneAuth.OnCodeSent(PhoneAuth.SendOtp(o0.phone).session, "vid-1"));
    Execute(o1, UpdateOtpCodeCommand("123456"))
  }

  /** The requests on the SMS happy path: the typed number is dialled with
      the country prefix, the sent code's id is stored, and verifying sends
      Firebase the credential made of that id and the typed code. */
  lemma PhoneHappyPathRequests(init: GoogleAuth.InitOutcome)
    ensures var o0 := Execute(Create(init), UpdatePhoneNumberCommand("9876543210"));
            var step := PhoneAuth.SendOtp(o0.phone);
            && step.effect == PhoneAuth.VerifyPhoneNumber("+919876543210")
            && PhoneAuth.OnCodeSent(step.session, "vid-1").state.verificationId == "vid-1"
    ensures PhoneAuth.VerifyOtp(CodeTyped(init).phone).effect
            == PhoneAuth.SignInWithCredential(PhoneAuth.OtpCredential("vid-1", "123456"))
  {
    assert "+91" + "9876543210" == "+919876543210";
  }

  /** The SMS happy path, end to end: after the code is verified and
      Firebase returns a user, the published state is signed in by PHONE. It
      shows no error only if Google's initialisation succeeded; otherwise, as
      always for the view model as built (`CreateAsWritten`), it keeps
      showing the Google init error. */
  lemma PhoneHappyPath(init: GoogleAuth.InitOutcome, user: FirebaseUser)
    ensures var o2 := Execute(CodeTyped(init), VerifyOtpCommand);
            var o3 := Recompute(o2.(phone := PhoneAuth.CompleteSignIn(o2.phone, PhoneAuth.UserPresent(user))));
            && o3.unified.isAuthenticated
            && o3.unified.authMethod == PHONE
            && (o3.unified.errorMessage == "" <==> init.InitOk?)
            && (init.InitFailed? ==>
                  o3.unified.errorMessage == GoogleAuth.InitFailedPrefix + MessageText(init.message))
  {
    var o2 := Execute(CodeTyped(init), VerifyOtpCommand);
    var o3 := o2.(phone := PhoneAuth.CompleteSignIn(o2.phone, PhoneAuth.UserPresent(user)));
    assert o3.google == Create(init).google && o3.truecaller == TruecallerAuth.DefaultState;
    assert o3.phone.state.isVerified && o3.phone.state.errorMessage == "";
    MethodAgreesWithAuthenticated(o3.unified, Snapshot(o3));
    ErrorFollowsPriority(o3.unified, Snapshot(o3));
  }
}
