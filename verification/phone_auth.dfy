/** The SMS one-time-code provider (`PhoneAuthViewModel`): the published
    `PhoneAuthState`, the view model's private verification id, and every
    transition the view model or the phone-auth SDK callbacks apply to them.
    Each transition is a pure function; the SDK's asynchronous answers are
    events handed in as parameters, and the requests the view model issues to
    the SDK are returned as an `Effect`. */
module PhoneAuth {
  import opened AuthCommon

  datatype PhoneAuthState = PhoneAuthState(
    phoneNumber: string,
    otpCode: string,
    isLoading: bool,
    isOtpSent: bool,
    isVerified: bool,
    errorMessage: string,
    verificationId: string)

  /** `PhoneAuthState()`: every field at its declared default. */
  const DefaultState := PhoneAuthState("", "", false, false, false, "", "")

  /** The view model: the state it publishes and the verification id it keeps
      privately (`currentVerificationId`, null until a code is sent). */
  datatype PhoneSession = PhoneSession(state: PhoneAuthState, currentVerificationId: Option<string>)

  /** A freshly constructed view model. */
  const Initial := PhoneSession(DefaultState, None)

  const NumberLength := 10
  const OtpLength := 6
  /** Prefix put in front of a number that does not already start with '+'. */
  const CountryPrefix := "+91"

  const InvalidNumberError := "Enter 10-digit mobile number"
  const InvalidOtpError := "Enter 6-digit OTP"
  const MissingVerificationIdError := "No verification ID found"
  const NoUserError := "Authentication failed"
  const SendFailedPrefix := "Failed to send OTP: "
  const VerifyFailedPrefix := "Verification failed: "

  /** The credential handed to Firebase: built from the verification id and
      the typed code, or delivered ready-made by SDK auto-verification. */
  datatype Credential = OtpCredential(verificationId: string, code: string) | AutoCredential

  /** What a transition asks of the outside world. */
  datatype Effect =
    | NoRequest
    | VerifyPhoneNumber(dialled: string)          // PhoneAuthProvider.verifyPhoneNumber
    | SignInWithCredential(credential: Credential) // auth.signInWithCredential

  datatype PhoneStep = PhoneStep(session: PhoneSession, effect: Effect)

  /** How `auth.signInWithCredential(...).await()` ends. */
  datatype SignInOutcome =
    | UserPresent(user: FirebaseUser)    // result.user != null
    | NoUser                             // result.user == null
    | SignInError(message: Option<string>) // the await threw

  /** Everything that can happen to the view model, from the screen or from
      the SDK. */
  datatype PhoneEvent =
    | NumberEdited(number: string)
    | OtpEdited(code: string)
    | SendOtpRequested
    | VerificationCompleted               // onVerificationCompleted (auto-verification)
    | VerificationFailed(message: Option<string>)
    | CodeSent(verificationId: string)
    | VerifyOtpRequested
    | SignInCompleted(outcome: SignInOutcome)
    | ClearErrorRequested

  /** The two states agree on every field except possibly `errorMessage`. */
  predicate SameExceptError(a: PhoneAuthState, b: PhoneAuthState) {
    a.(errorMessage := "") == b.(errorMessage := "")
  }

  /** The private verification id and the published one tell the same story:
      a code has been sent exactly when the private id is set, and the
      published id mirrors it. */
  predicate Synced(ps: PhoneSession) {
    match ps.currentVerificationId
    case None => !ps.state.isOtpSent && ps.state.verificationId == ""
    case Some(id) => ps.state.isOtpSent && ps.state.verificationId == id
  }

  /** The number actually dialled for a ten-character input. */
  function Formatted(number: string): string {
    if |number| > 0 && number[0] == '+' then number else CountryPrefix + number
  }

  function UpdatePhoneNumber(ps: PhoneSession, number: string): (r: PhoneSession)
    ensures r.state.phoneNumber == number
    ensures r.state.(phoneNumber := ps.state.phoneNumber) == ps.state
    ensures r.currentVerificationId == ps.currentVerificationId
  {
    ps.(state := ps.state.(phoneNumber := number))
  }

  function UpdateOtpCode(ps: PhoneSession, code: string): (r: PhoneSession)
    ensures r.state.otpCode == code
    ensures r.state.(otpCode := ps.state.otpCode) == ps.state
    ensures r.currentVerificationId == ps.currentVerificationId
  {
    ps.(state := ps.state.(otpCode := code))
  }

  /** `sendOtp`: only the length of the number is validated. A bad length
      reports an error and contacts nobody; a good one starts loading, clears
      the error and asks the SDK to verify the (possibly prefixed) number. */
  function SendOtp(ps: PhoneSession): (r: PhoneStep)
    ensures r.session.currentVerificationId == ps.currentVerificationId
    ensures r.effect.NoRequest? <==> |ps.state.phoneNumber| != NumberLength
    ensures r.effect.NoRequest? || r.effect.VerifyPhoneNumber?
    ensures |ps.state.phoneNumber| != NumberLength ==>
      r.session.state == ps.state.(errorMessage := InvalidNumberError)
    ensures |ps.state.phoneNumber| == NumberLength ==>
      && r.session.state == ps.state.(isLoading := true, errorMessage := "")
      && (ps.state.phoneNumber[0] == '+' ==> r.effect.dialled == ps.state.phoneNumber)
      && (ps.state.phoneNumber[0] != '+' ==> r.effect.dialled == CountryPrefix + ps.state.phoneNumber)
  {
    var number := ps.state.phoneNumber;
    if |number| != NumberLength then
      PhoneStep(ps.(state := ps.state.(errorMessage := InvalidNumberError)), NoRequest)
    else
      PhoneStep(ps.(state := ps.state.(isLoading := true, errorMessage := "")),
                VerifyPhoneNumber(Formatted(number)))
  }

  /** `onVerificationCompleted`: the SDK verified the number by itself; its
      credential goes straight to Firebase, without any of `verifyOtp`'s
      checks and without touching the state. */
  function OnVerificationCompleted(ps: PhoneSession): (r: PhoneStep)
    ensures r.session == ps
    ensures r.effect == SignInWithCredential(AutoCredential)
  {
    PhoneStep(ps, SignInWithCredential(AutoCredential))
  }

  /** `onVerificationFailed`: loading stops and the failure is reported; the
      sent-code flag and the verification ids are kept. */
  function OnVerificationFailed(ps: PhoneSession, message: Option<string>): (r: PhoneSession)
    ensures !r.state.isLoading
    ensures r.state.errorMessage == SendFailedPrefix + MessageText(message)
    ensures r.state.(isLoading := ps.state.isLoading, errorMessage := ps.state.errorMessage) == ps.state
    ensures r.currentVerificationId == ps.currentVerificationId
  {
    ps.(state := ps.state.(isLoading := false, errorMessage := SendFailedPrefix + MessageText(message)))
  }

  /** `onCodeSent`: the id is stored both privately and in the state. The
      error message is left as it was. */
  function OnCodeSent(ps: PhoneSession, verificationId: string): (r: PhoneSession)
    ensures r.currentVerificationId == Some(verificationId)
    ensures r.state.verificationId == verificationId
    ensures r.state.isOtpSent && !r.state.isLoading
    ensures r.state.(isLoading := ps.state.isLoading, isOtpSent := ps.state.isOtpSent,
                     verificationId := ps.state.verificationId) == ps.state
  {
    PhoneSession(ps.state.(isLoading := false, isOtpSent := true, verificationId := verificationId),
                 Some(verificationId))
  }

  /** `verifyOtp`: the code length is checked first, then the presence of the
      PRIVATE verification id; the first failing check reports its error and
      nothing else changes. Otherwise loading starts, the error is cleared and
      a credential built from the id and the code is handed to Firebase. */
  function VerifyOtp(ps: PhoneSession): (r: PhoneStep)
    ensures r.session.currentVerificationId == ps.currentVerificationId
    ensures r.effect.SignInWithCredential? <==>
      |ps.state.otpCode| == OtpLength && ps.currentVerificationId.Some?
    ensures r.effect.NoRequest? || r.effect.SignInWithCredential?
    ensures |ps.state.otpCode| != OtpLength ==>
      r.session.state == ps.state.(errorMessage := InvalidOtpError)
    ensures |ps.state.otpCode| == OtpLength && ps.currentVerificationId.None? ==>
      r.session.state == ps.state.(errorMessage := MissingVerificationIdError)
    ensures r.effect.SignInWithCredential? ==>
      && r.session.state == ps.state.(isLoading := true, errorMessage := "")
      && r.effect.credential == OtpCredential(ps.currentVerificationId.value, ps.state.otpCode)
  {
    var code := ps.state.otpCode;
    if |code| != OtpLength then
      PhoneStep(ps.(state := ps.state.(errorMessage := InvalidOtpError)), NoRequest)
    else
      match ps.currentVerificationId
      case None =>
        PhoneStep(ps.(state := ps.state.(errorMessage := MissingVerificationIdError)), NoRequest)
      case Some(id) =>
        PhoneStep(ps.(state := ps.state.(isLoading := true, errorMessage := "")),
                  SignInWithCredential(OtpCredential(id, code)))
  }

  /** The end of `signInWithCredential`: loading always stops; a returned
      user verifies the session, anything else reports why it did not.
      Nothing here ever sets `isVerified` back to false. */
  function CompleteSignIn(ps: PhoneSession, outcome: SignInOutcome): (r: PhoneSession)
    ensures r.currentVerificationId == ps.currentVerificationId
    ensures !r.state.isLoading
    ensures r.state.isVerified <==> ps.state.isVerified || outcome.UserPresent?
    ensures outcome.UserPresent? ==> r.state.errorMessage == ""
    ensures outcome.NoUser? ==> r.state.errorMessage == NoUserError
    ensures outcome.SignInError? ==>
      r.state.errorMessage == VerifyFailedPrefix + MessageText(outcome.message)
    ensures r.state.(isLoading := ps.state.isLoading, isVerified := ps.state.isVerified,
                     errorMessage := ps.state.errorMessage) == ps.state
  {
    match outcome
    case UserPresent(_) =>
      ps.(state := ps.state.(isLoading := false, isVerified := true, errorMessage := ""))
    case NoUser =>
      ps.(state := ps.state.(isLoading := false, errorMessage := NoUserError))
    case SignInError(message) =>
      ps.(state := ps.state.(isLoading := false, errorMessage := VerifyFailedPrefix + MessageText(message)))
  }

  function ClearError(ps: PhoneSession): (r: PhoneSession)
    ensures r.state.errorMessage == ""
    ensures SameExceptError(r.state, ps.state)
    ensures r.currentVerificationId == ps.currentVerificationId
  {
    ps.(state := ps.state.(errorMessage := ""))
  }

  /** One event applied to the view model. Only a successful sign-in ever
      verifies the session and nothing ever un-verifies it; the SMS request
      comes only from `sendOtp`, and a credential only from auto-verification
      or `verifyOtp`. */
  function Step(ps: PhoneSession, e: PhoneEvent): (r: PhoneStep)
    ensures r.session.state.isVerified <==>
      ps.state.isVerified || (e.SignInCompleted? && e.outcome.UserPresent?)
    ensures Synced(ps) ==> Synced(r.session)
    ensures r.effect.VerifyPhoneNumber? ==> e.SendOtpRequested?
    ensures r.effect.SignInWithCredential? ==> e.VerificationCompleted? || e.VerifyOtpRequested?
  {
    match e
    case NumberEdited(number) => PhoneStep(UpdatePhoneNumber(ps, number), NoRequest)
    case OtpEdited(code) => PhoneStep(UpdateOtpCode(ps, code), NoRequest)
    case SendOtpRequested => SendOtp(ps)
    case VerificationCompleted => OnVerificationCompleted(ps)
    case VerificationFailed(message) => PhoneStep(OnVerificationFailed(ps, message), NoRequest)
    case CodeSent(id) => PhoneStep(OnCodeSent(ps, id), NoRequest)
    case VerifyOtpRequested => VerifyOtp(ps)
    case SignInCompleted(outcome) => PhoneStep(CompleteSignIn(ps, outcome), NoRequest)
    case ClearErrorRequested => PhoneStep(ClearError(ps), NoRequest)
  }

  /** The view model after a sequence of events, in order. The requests the
      steps issue are dropped: the SDK's answers arrive as later events. */
  function Run(ps: PhoneSession, events: seq<PhoneEvent>): (r: PhoneSession)
    ensures ps.state.isVerified ==> r.state.isVerified
    ensures Synced(ps) ==> Synced(r)
    decreases |events|
  {
    if events == [] then ps else Run(Step(ps, events[0]).session, events[1..])
  }

  /** An unverified session becomes verified only if the events include a
      sign-in that returned a user. */
  lemma {:induction false} VerifiedOnlyBySignIn(ps: PhoneSession, events: seq<PhoneEvent>)
    requires !ps.state.isVerified
    requires Run(ps, events).state.isVerified
    ensures exists i :: 0 <= i < |events| && events[i].SignInCompleted? && events[i].outcome.UserPresent?
    decreases |events|
  {
    var next := Step(ps, events[0]).session;
    if next.state.isVerified {
      assert events[0].SignInCompleted? && events[0].outcome.UserPresent?;
    } else {
      VerifiedOnlyBySignIn(next, events[1..]);
      var i :| 0 <= i < |events[1..]| && events[1..][i].SignInCompleted? && events[1..][i].outcome.UserPresent?;
      assert events[i + 1] == events[1..][i];
    }
  }

  /** The dialled number is always in international form: it starts with
      '+', ends with the typed number, and is either the typed number itself
      or the typed number behind the country prefix. */
  lemma DialledNumberIsInternational(ps: PhoneSession)
    requires SendOtp(ps).effect.VerifyPhoneNumber?
    ensures var d := SendOtp(ps).effect.dialled;
      && d[0] == '+'
      && d[|d| - NumberLength..] == ps.state.phoneNumber
      && (|d| == NumberLength || |d| == NumberLength + |CountryPrefix|)
  {
  }

  /** Validation looks only at the length of the number: two numbers of the
      same length are either both accepted or both rejected, digits or not. */
  lemma ValidationIgnoresCharacters(ps: PhoneSession, a: string, b: string)
    requires |a| == |b|
    ensures SendOtp(UpdatePhoneNumber(ps, a)).effect.NoRequest?
        <==> SendOtp(UpdatePhoneNumber(ps, b)).effect.NoRequest?
  {
  }

  /** A three-character number is refused before anything is sent. */
  lemma ShortNumberIsRejected(ps: PhoneSession)
    ensures var step := SendOtp(UpdatePhoneNumber(ps, "123"));
      && step.effect == NoRequest
      && step.session.state.errorMessage == InvalidNumberError
      && step.session.state.isLoading == ps.state.isLoading
  {
  }

  /** Clearing the error twice is the same as clearing it once. */
  lemma ClearErrorIdempotent(ps: PhoneSession)
    ensures ClearError(ClearError(ps)) == ClearError(ps)
  {
  }

  /** A new view model is in sync, so every session reachable from it is. */
  lemma ReachableSessionsSynced(events: seq<PhoneEvent>)
    ensures Synced(Run(Initial, events))
  {
  }
}
