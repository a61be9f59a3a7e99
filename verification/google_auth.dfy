/** The federated Google provider (`GoogleAuthService`): One Tap sign-in,
    the intent result that carries the Google ID token, and the Firebase
    credential exchange. Every SDK answer is an event parameter; the only
    request the model surfaces is the ID token handed to Firebase. */
module GoogleAuth {
  import opened AuthCommon

  datatype GoogleAuthState = GoogleAuthState(
    isLoading: bool,
    isAuthenticated: bool,
    user: Option<FirebaseUser>,
    errorMessage: string,
    displayName: string,
    email: string,
    photoUrl: string)

  /** `GoogleAuthState()`: every field at its declared default. */
  const DefaultState := GoogleAuthState(false, false, None, "", "", "", "")

  const InitFailedPrefix := "Failed to initialize Google Sign-In: "
  const RequestFailedPrefix := "Sign-In failed: "
  const LaunchFailedPrefix := "Error launching Google Sign-In: "
  const GoogleFailedPrefix := "Google Sign-In failed: "
  const NoIdTokenError := "No ID token received from Google"
  const FirebaseFailedPrefix := "Firebase authentication failed: "

  /** How building the sign-in clients in `initializeGoogleSignIn` ends. */
  datatype InitOutcome = InitOk | InitFailed(message: Option<string>)

  /** The synchronous part of `signInWithGoogle`: building the request and
      calling `beginSignIn` either returns normally or throws. */
  datatype BeginRequest = RequestIssued | RequestThrew(message: Option<string>)

  /** The `Context` the service is built with. `BareApplication` is an
      `android.app.Application()` created directly: it is never attached to a
      base context, so every `context.getString(...)` on it throws a
      NullPointerException. */
  datatype HostContext = BareApplication | AttachedContext

  /** How `initializeGoogleSignIn` ends in the given context. In a bare
      application the client-id lookup that starts the method throws before
      any client is built, whatever the SDK would have done; `lookupFailure`
      is that exception's message. */
  function InitOutcomeIn(ctx: HostContext, sdk: InitOutcome, lookupFailure: Option<string>): (r: InitOutcome)
    ensures r.InitOk? <==> ctx.AttachedContext? && sdk.InitOk?
    ensures ctx.BareApplication? ==> r == InitFailed(lookupFailure)
    ensures ctx.AttachedContext? ==> r == sdk
  {
    if ctx.BareApplication? then InitFailed(lookupFailure) else sdk
  }

  /** How the synchronous part of `signInWithGoogle` ends in the given
      context: building the request reads the client id too, so in a bare
      application it always throws. */
  function RequestIn(ctx: HostContext, sdk: BeginRequest, lookupFailure: Option<string>): (r: BeginRequest)
    ensures r.RequestIssued? <==> ctx.AttachedContext? && sdk.RequestIssued?
    ensures ctx.BareApplication? ==> r == RequestThrew(lookupFailure)
    ensures ctx.AttachedContext? ==> r == sdk
  {
    if ctx.BareApplication? then RequestThrew(lookupFailure) else sdk
  }

  /** The listener of `beginSignIn`. `IntentLaunched` also covers the case
      where no launcher is registered: `launch` is then skipped silently. */
  datatype BeginResult =
    | IntentLaunched
    | LaunchThrew(message: Option<string>)
    | BeginFailed(message: Option<string>)

  /** What `getSignInCredentialFromIntent` yields for the returned intent. */
  datatype IntentResult = CredentialRead(idToken: Option<string>) | ApiError(message: Option<string>)

  /** The completion of `auth.signInWithCredential`; on success the model
      receives `auth.currentUser`, which may be null. */
  datatype FirebaseOutcome =
    | FirebaseSucceeded(currentUser: Option<FirebaseUser>)
    | FirebaseFailed(message: Option<string>)

  /** A transition's new state and the ID token it hands to Firebase, if any. */
  datatype GoogleStep = GoogleStep(state: GoogleAuthState, exchange: Option<string>)

  datatype GoogleEvent =
    | Initialized(init: InitOutcome)
    | SignInRequested(request: BeginRequest)
    | BeginCompleted(begin: BeginResult)
    | IntentReturned(intent: IntentResult)
    | FirebaseCompleted(firebase: FirebaseOutcome)
    | SignOutRequested
    | ClearErrorRequested

  /** The two states agree on every field except possibly `errorMessage`. */
  predicate SameExceptError(a: GoogleAuthState, b: GoogleAuthState) {
    a.(errorMessage := "") == b.(errorMessage := "")
  }

  /** The sign-in result fields: whether signed in, and who. */
  predicate SameIdentity(a: GoogleAuthState, b: GoogleAuthState) {
    && a.isAuthenticated == b.isAuthenticated
    && a.user == b.user
    && a.displayName == b.displayName
    && a.email == b.email
    && a.photoUrl == b.photoUrl
  }

  /** The profile fields always mirror the stored user (empty when a field or
      the user is absent), and nobody is stored while signed out. */
  predicate ProfileMirrorsUser(s: GoogleAuthState) {
    && (!s.isAuthenticated ==> s.user.None?)
    && match s.user
       case None => s.displayName == "" && s.email == "" && s.photoUrl == ""
       case Some(u) =>
         && s.displayName == OrEmpty(u.displayName)
         && s.email == OrEmpty(u.email)
         && s.photoUrl == OrEmpty(u.photoUrl)
  }

  /** `initializeGoogleSignIn`: a failure only records its message. */
  function InitializeGoogleSignIn(s: GoogleAuthState, init: InitOutcome): (r: GoogleAuthState)
    ensures init.InitOk? ==> r == s
    ensures init.InitFailed? ==> r.errorMessage == InitFailedPrefix + MessageText(init.message)
    ensures SameExceptError(r, s)
  {
    match init
    case InitOk => s
    case InitFailed(message) => s.(errorMessage := InitFailedPrefix + MessageText(message))
  }

  /** `signInWithGoogle` up to the return of `beginSignIn`: loading starts
      and the error is cleared; a synchronous exception stops loading again
      with its message. The sign-in result fields are never touched. */
  function SignInWithGoogle(s: GoogleAuthState, request: BeginRequest): (r: GoogleAuthState)
    ensures SameIdentity(r, s)
    ensures request.RequestIssued? ==> r.isLoading && r.errorMessage == ""
    ensures request.RequestThrew? ==>
      !r.isLoading && r.errorMessage == RequestFailedPrefix + MessageText(request.message)
  {
    var started := s.(isLoading := true, errorMessage := "");
    match request
    case RequestIssued => started
    case RequestThrew(message) =>
      started.(isLoading := false, errorMessage := RequestFailedPrefix + MessageText(message))
  }

  /** The `beginSignIn` listeners: a launched intent leaves the state alone
      (still loading, until the intent comes back); either failure stops
      loading with its own message. */
  function OnBeginSignIn(s: GoogleAuthState, begin: BeginResult): (r: GoogleAuthState)
    ensures SameIdentity(r, s)
    ensures begin.IntentLaunched? ==> r == s
    ensures begin.LaunchThrew? ==>
      !r.isLoading && r.errorMessage == LaunchFailedPrefix + MessageText(begin.message)
    ensures begin.BeginFailed? ==>
      !r.isLoading && r.errorMessage == GoogleFailedPrefix + MessageText(begin.message)
  {
    match begin
    case IntentLaunched => s
    case LaunchThrew(message) =>
      s.(isLoading := false, errorMessage := LaunchFailedPrefix + MessageText(message))
    case BeginFailed(message) =>
      s.(isLoading := false, errorMessage := GoogleFailedPrefix + MessageText(message))
  }

  /** `handleGoogleSignInResult`: a present ID token is handed to Firebase
      with the state untouched; a missing token or an `ApiException` stops
      loading with its message. */
  function HandleGoogleSignInResult(s: GoogleAuthState, intent: IntentResult): (r: GoogleStep)
    ensures SameIdentity(r.state, s)
    ensures r.exchange.Some? <==> intent.CredentialRead? && intent.idToken.Some?
    ensures r.exchange.Some? ==> r.state == s && r.exchange == intent.idToken
    ensures intent.CredentialRead? && intent.idToken.None? ==>
      !r.state.isLoading && r.state.errorMessage == NoIdTokenError
    ensures intent.ApiError? ==>
      !r.state.isLoading && r.state.errorMessage == GoogleFailedPrefix + MessageText(intent.message)
  {
    match intent
    case CredentialRead(Some(token)) => GoogleStep(s, Some(token))
    case CredentialRead(None) =>
      GoogleStep(s.(isLoading := false, errorMessage := NoIdTokenError), None)
    case ApiError(message) =>
      GoogleStep(s.(isLoading := false, errorMessage := GoogleFailedPrefix + MessageText(message)), None)
  }

  /** The completion listener of `signInWithFirebaseCredential`. Success
      signs in and copies the profile from the current user, each field
      empty when absent; failure keeps whoever was signed in before. */
  function OnFirebaseSignIn(s: GoogleAuthState, firebase: FirebaseOutcome): (r: GoogleAuthState)
    ensures !r.isLoading
    ensures firebase.FirebaseSucceeded? ==>
      && r.isAuthenticated && r.errorMessage == "" && r.user == firebase.currentUser
      && ProfileMirrorsUser(r)
    ensures firebase.FirebaseFailed? ==>
      SameIdentity(r, s) && r.errorMessage == FirebaseFailedPrefix + MessageText(firebase.message)
  {
    match firebase
    case FirebaseSucceeded(user) =>
      s.(isLoading := false,
         isAuthenticated := true,
         user := user,
         displayName := if user.Some? then OrEmpty(user.value.displayName) else "",
         email := if user.Some? then OrEmpty(user.value.email) else "",
         photoUrl := if user.Some? then OrEmpty(user.value.photoUrl) else "",
         errorMessage := "")
    case FirebaseFailed(message) =>
      s.(isLoading := false, errorMessage := FirebaseFailedPrefix + MessageText(message))
  }

  /** `signOut`: back to a fresh state, whatever came before. */
  function SignOut(s: GoogleAuthState): (r: GoogleAuthState)
    ensures !r.isLoading && !r.isAuthenticated && r.user.None? && r.errorMessage == ""
    ensures r.displayName == "" && r.email == "" && r.photoUrl == ""
  {
    DefaultState
  }

  function ClearError(s: GoogleAuthState): (r: GoogleAuthState)
    ensures r.errorMessage == ""
    ensures SameExceptError(r, s)
  {
    s.(errorMessage := "")
  }

  /** One event applied to the service. Only a successful Firebase exchange
      signs in, only sign-out signs out, and the profile keeps mirroring the
      stored user. */
  function Step(s: GoogleAuthState, e: GoogleEvent): (r: GoogleStep)
    ensures r.state.isAuthenticated <==>
      (e.FirebaseCompleted? && e.firebase.FirebaseSucceeded?)
      || (s.isAuthenticated && !e.SignOutRequested?)
    ensures ProfileMirrorsUser(s) ==> ProfileMirrorsUser(r.state)
    ensures r.exchange.Some? ==> e.IntentReturned?
  {
    match e
    case Initialized(init) => GoogleStep(InitializeGoogleSignIn(s, init), None)
    case SignInRequested(request) => GoogleStep(SignInWithGoogle(s, request), None)
    case BeginCompleted(begin) => GoogleStep(OnBeginSignIn(s, begin), None)
    case IntentReturned(intent) => HandleGoogleSignInResult(s, intent)
    case FirebaseCompleted(firebase) => GoogleStep(OnFirebaseSignIn(s, firebase), None)
    case SignOutRequested => GoogleStep(SignOut(s), None)
    case ClearErrorRequested => GoogleStep(ClearError(s), None)
  }

  /** The service after a sequence of events, in order. */
  function Run(s: GoogleAuthState, events: seq<GoogleEvent>): (r: GoogleAuthState)
    ensures ProfileMirrorsUser(s) ==> ProfileMirrorsUser(r)
    decreases |events|
  {
    if events == [] then s else Run(Step(s, events[0]).state, events[1..])
  }

  /** Once signed in, the service stays signed in until a sign-out event. */
  lemma {:induction false} SignedInUntilSignOut(s: GoogleAuthState, events: seq<GoogleEvent>)
    requires s.isAuthenticated
    requires forall i :: 0 <= i < |events| ==> !events[i].SignOutRequested?
    ensures Run(s, events).isAuthenticated
    decreases |events|
  {
    if events != [] {
      var next := Step(s, events[0]).state;
      assert forall i :: 0 <= i < |events[1..]| ==> events[1..][i] == events[i + 1];
      SignedInUntilSignOut(next, events[1..]);
    }
  }

  /** In a bare application Google sign-in never gets going: initialisation
      reports the lookup failure, and every sign-in attempt stops loading at
      once with that failure, before One Tap is ever asked for an intent. */
  lemma BareApplicationCannotSignIn(s: GoogleAuthState, sdkInit: InitOutcome, sdkRequest: BeginRequest,
                                    lookupFailure: Option<string>)
    ensures InitializeGoogleSignIn(s, InitOutcomeIn(BareApplication, sdkInit, lookupFailure)).errorMessage
      == InitFailedPrefix + MessageText(lookupFailure)
    ensures var r := SignInWithGoogle(s, RequestIn(BareApplication, sdkRequest, lookupFailure));
      && !r.isLoading
      && r.errorMessage == RequestFailedPrefix + MessageText(lookupFailure)
      && SameIdentity(r, s)
  {
  }

  /** Whatever state the service is in, signing out restores `GoogleAuthState()`. */
  lemma SignOutRestoresDefault(s: GoogleAuthState)
    ensures SignOut(s) == DefaultState
  {
  }

  /** Clearing the error twice is the same as clearing it once. */
  lemma ClearErrorIdempotent(s: GoogleAuthState)
    ensures ClearError(ClearError(s)) == ClearError(s)
  {
  }

  /** From a fresh service, the profile fields always mirror the stored user. */
  lemma ReachableProfilesMirrorUser(events: seq<GoogleEvent>)
    ensures ProfileMirrorsUser(Run(DefaultState, events))
  {
  }
}
