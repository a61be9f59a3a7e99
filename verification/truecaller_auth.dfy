/** The verified-phone SDK provider (`TruecallerAuthService`). The SDK is
    switched off in this application: initialisation does nothing and every
    authentication attempt reports that the provider is disabled. */
module TruecallerAuth {
  import opened AuthCommon

  datatype TruecallerAuthState = TruecallerAuthState(
    isLoading: bool,
    isAuthenticated: bool,
    user: Option<FirebaseUser>,
    errorMessage: string,
    phoneNumber: string,
    firstName: string,
    lastName: string)

  /** `TruecallerAuthState()`: every field at its declared default. */
  const DefaultState := TruecallerAuthState(false, false, None, "", "", "", "")

  const DisabledError := "Truecaller authentication is temporarily disabled"

  datatype TruecallerEvent =
    | InitializeRequested
    | AuthenticateRequested
    | SignOutRequested
    | ClearErrorRequested

  /** The two states agree on every field except possibly `errorMessage`. */
  predicate SameExceptError(a: TruecallerAuthState, b: TruecallerAuthState) {
    a.(errorMessage := "") == b.(errorMessage := "")
  }

  /** What every reachable state looks like while the SDK is disabled:
      nobody signed in, nothing loading, no profile, and the only error ever
      shown is the disabled notice. */
  predicate Dormant(s: TruecallerAuthState) {
    && !s.isAuthenticated
    && !s.isLoading
    && s.user.None?
    && s.phoneNumber == ""
    && s.firstName == ""
    && s.lastName == ""
    && (s.errorMessage == "" || s.errorMessage == DisabledError)
  }

  /** `initializeTruecallerSDK`: only logs. */
  function InitializeTruecallerSdk(s: TruecallerAuthState): (r: TruecallerAuthState)
    ensures r == s
  {
    s
  }

  /** `authenticateWithTruecaller`: stops loading and reports that the
      provider is disabled; nothing else changes. */
  function AuthenticateWithTruecaller(s: TruecallerAuthState): (r: TruecallerAuthState)
    ensures !r.isLoading && r.errorMessage == DisabledError
    ensures r.(isLoading := s.isLoading, errorMessage := s.errorMessage) == s
  {
    s.(isLoading := false, errorMessage := DisabledError)
  }

  /** `signOut`: back to a fresh state. */
  function SignOut(s: TruecallerAuthState): (r: TruecallerAuthState)
    ensures !r.isLoading && !r.isAuthenticated && r.user.None? && r.errorMessage == ""
    ensures r.phoneNumber == "" && r.firstName == "" && r.lastName == ""
  {
    DefaultState
  }

  /** `clearError`: only the error changes, so a dormant service stays
      dormant. */
  function ClearError(s: TruecallerAuthState): (r: TruecallerAuthState)
    ensures r.errorMessage == ""
    ensures SameExceptError(r, s)
    ensures Dormant(s) ==> Dormant(r)
  {
    s.(errorMessage := "")
  }

  /** One event applied to the service; none of them can wake it up. */
  function Step(s: TruecallerAuthState, e: TruecallerEvent): (r: TruecallerAuthState)
    ensures Dormant(s) ==> Dormant(r)
    ensures e.AuthenticateRequested? ==> r.errorMessage == DisabledError
  {
    match e
    case InitializeRequested => InitializeTruecallerSdk(s)
    case AuthenticateRequested => AuthenticateWithTruecaller(s)
    case SignOutRequested => SignOut(s)
    case ClearErrorRequested => ClearError(s)
  }

  /** The service after a sequence of events, in order. */
  function Run(s: TruecallerAuthState, events: seq<TruecallerEvent>): (r: TruecallerAuthState)
    ensures Dormant(s) ==> Dormant(r)
    decreases |events|
  {
    if events == [] then s else Run(Step(s, events[0]), events[1..])
  }

  /** Starting from a fresh service, no sequence of operations signs anybody
      in, starts loading or fills in a profile. */
  lemma ReachableStatesDormant(events: seq<TruecallerEvent>)
    ensures Dormant(Run(DefaultState, events))
  {
  }

  /** Authenticating twice is the same as authenticating once. */
  lemma AuthenticateIdempotent(s: TruecallerAuthState)
    ensures AuthenticateWithTruecaller(AuthenticateWithTruecaller(s)) == AuthenticateWithTruecaller(s)
  {
  }

  /** Whatever state the service is in, signing out restores `TruecallerAuthState()`. */
  lemma SignOutRestoresDefault(s: TruecallerAuthState)
    ensures SignOut(s) == DefaultState
  {
  }
}
