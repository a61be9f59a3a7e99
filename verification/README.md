# Unified phone / Google / Truecaller sign-in state, in Dafny

This project models the authentication core of an Android test application.
Three sign-in providers each keep an immutable state record:

- SMS one-time code (`PhoneAuthViewModel`);
- Google One Tap followed by a Firebase credential exchange (`GoogleAuthService`);
- Truecaller (`TruecallerAuthService`), which is switched off.

A unified view model (`UnifiedAuthViewModel`) merges the three records into
one `UnifiedAuthState`. It forwards the screen's commands to the provider each
command concerns, and it fans sign-out and error clearing out to all three.

Each Kotlin `copy(...)` transition is a pure Dafny function over a datatype.
The SDK answers arrive through callbacks, listeners and awaited tasks. In the
model they are explicit outcome parameters, for example
`SignInOutcome = UserPresent(user) | NoUser | SignInError(message)`.

The requests a transition sends out are returned as values:

- the number dialled by `sendOtp`;
- the credential handed to Firebase;
- the Google ID token handed to Firebase.

Each provider also has an event datatype, a `Step` dispatcher and a `Run`
fold over any sequence of events. The invariants below are proved for every
event sequence, not only for sequences a real SDK would produce.

Modules, one per source file:

- `AuthCommon`: Kotlin nullables (`Option`), the parts of `FirebaseUser` that
  are read, and how a string template renders a null exception message (as
  `null`).
- `PhoneAuth`: `PhoneAuthState` plus the view model's private
  `currentVerificationId`, together as `PhoneSession`. `verifyOtp` checks the
  private id, not the published one. The `Synced` invariant proves the two
  always agree.
- `GoogleAuth`: `signInWithGoogle` is split into its synchronous part and the
  `beginSignIn` listener. Between the two, other events may intervene.
- `TruecallerAuth`: the disabled stub, and the proof that no sequence of its
  operations signs anybody in.
- `UnifiedAuth`: the merge `UpdateUnifiedState` and two reference definitions
  it is proved against:
  - `FirstSucceeded`: the first provider in `Priority` order that has signed in;
  - `FirstError`: the first non-empty error in the same order.

  The orchestrator has `Create`, `Execute`, `SignOut`, `ClearError` and
  `Recompute`. `Recompute` stands for one run of the `combine` collector.

Three consequences of the code are proved:

- The view model hands the Google service a bare `android.app.Application()`
  that is never attached to a base context. Every string-resource lookup on
  it throws. So Google initialisation always fails, and Google sign-in always
  stops at the synchronous request. `signOut` always throws before it resets
  anything but the phone error (`UnifiedAuth.AsWrittenSignOutThrows`; see
  Findings).
- For the phone provider, sign-out only clears the error. Sign-out resets the
  published state. The next collector run then shows it authenticated by PHONE
  exactly when the phone session was verified before sign-out
  (`SignOutKeepsPhoneSignIn`). That run may never come, because a `StateFlow`
  emits only when its value changes. Take a verified phone session with no
  error, and Google and Truecaller already at their defaults. Sign-out then
  changes no provider state, so no provider emits. The published state stays
  `UnifiedAuthState()`, signed out, until a later phone change (an edit of the
  number or code) starts a run and PHONE comes back.
- The Truecaller stub can never reach a signed-in or loading state
  (`TruecallerAuth.ReachableStatesDormant`).

Further facts of the code that the model keeps:

- Sign-out does not reset the phone provider.
- Phone validation checks only lengths, not digits.
- The merged profile always comes from Google and Truecaller, whatever the
  sign-in method is.
- An error is cleared only by its own provider's progress or by
  `clearError`. Progress on another provider does not clear it.

## Model

| member | source | states |
|---|---|---|
| `PhoneAuth.UpdatePhoneNumber` | app/src/main/java/com/example/firebaseauthtest/PhoneAuthViewModel.kt:37-39 | the number becomes the given one; every other field and the private id are unchanged |
| `PhoneAuth.UpdateOtpCode` | app/src/main/java/com/example/firebaseauthtest/PhoneAuthViewModel.kt:41-43 | the code becomes the given one; every other field and the private id are unchanged |
| `PhoneAuth.SendOtp` | app/src/main/java/com/example/firebaseauthtest/PhoneAuthViewModel.kt:45-96 | a request is issued iff the number has exactly 10 characters; otherwise only the error becomes "Enter 10-digit mobile number"; on success loading starts, the error clears, and the dialled number is the input if it starts with '+', else "+91" + input |
| `PhoneAuth.DialledNumberIsInternational` | app/src/main/java/com/example/firebaseauthtest/PhoneAuthViewModel.kt:52-58 | the dialled number starts with '+', ends with the typed number, and has length 10 or 13 |
| `PhoneAuth.ValidationIgnoresCharacters` | app/src/main/java/com/example/firebaseauthtest/PhoneAuthViewModel.kt:45-50 | two numbers of equal length are accepted or refused alike, whatever their characters |
| `PhoneAuth.ShortNumberIsRejected` | app/src/main/java/com/example/firebaseauthtest/PhoneAuthViewModel.kt:45-50 | "123" issues no request, shows the 10-digit error and leaves loading as it was |
| `PhoneAuth.OnVerificationCompleted` | app/src/main/java/com/example/firebaseauthtest/PhoneAuthViewModel.kt:61-64 | auto-verification hands its credential to Firebase with no OTP or verification-id check and no state change |
| `PhoneAuth.OnVerificationFailed` | app/src/main/java/com/example/firebaseauthtest/PhoneAuthViewModel.kt:66-72 | loading stops, the error is "Failed to send OTP: " + message; the sent flag and both verification ids are kept |
| `PhoneAuth.OnCodeSent` | app/src/main/java/com/example/firebaseauthtest/PhoneAuthViewModel.kt:74-86 | the id is stored privately and in the state, the code is marked sent and loading stops; nothing else changes |
| `PhoneAuth.VerifyOtp` | app/src/main/java/com/example/firebaseauthtest/PhoneAuthViewModel.kt:99-117 | a credential (private id, code) is issued iff the code has 6 characters and a private id exists; the length error takes precedence over the missing-id error, and both leave everything but the error unchanged; otherwise loading starts and the error clears |
| `PhoneAuth.CompleteSignIn` | app/src/main/java/com/example/firebaseauthtest/PhoneAuthViewModel.kt:119-143 | loading stops; verified afterwards iff verified before or a user came back; the error is "" / "Authentication failed" / "Verification failed: " + message for user / no user / exception |
| `PhoneAuth.ClearError` | app/src/main/java/com/example/firebaseauthtest/PhoneAuthViewModel.kt:145-147 | the error is empty and every other field is unchanged |
| `PhoneAuth.ClearErrorIdempotent` | app/src/main/java/com/example/firebaseauthtest/PhoneAuthViewModel.kt:145-147 | clearing twice equals clearing once |
| `PhoneAuth.Step` | app/src/main/java/com/example/firebaseauthtest/PhoneAuthViewModel.kt:37-147 | after any event: verified iff verified before or a sign-in returned a user; the two verification ids stay in sync; SMS requests come only from sendOtp, credentials only from auto-verification or verifyOtp |
| `PhoneAuth.Run` | app/src/main/java/com/example/firebaseauthtest/PhoneAuthViewModel.kt:37-147 | over any event sequence, a verified session stays verified and the ids stay in sync |
| `PhoneAuth.VerifiedOnlyBySignIn` | app/src/main/java/com/example/firebaseauthtest/PhoneAuthViewModel.kt:119-143 | an unverified session that ends verified went through a sign-in that returned a user |
| `PhoneAuth.ReachableSessionsSynced` | app/src/main/java/com/example/firebaseauthtest/PhoneAuthViewModel.kt:74-86 | from a new view model, the private id is set iff a code was sent, and the published id mirrors it |
| `GoogleAuth.InitializeGoogleSignIn` | app/src/main/java/com/example/firebaseauthtest/GoogleAuthService.kt:47-67 | success changes nothing; failure sets only the error, to "Failed to initialize Google Sign-In: " + message |
| `GoogleAuth.SignInWithGoogle` | app/src/main/java/com/example/firebaseauthtest/GoogleAuthService.kt:73-115 | an issued request leaves loading on with no error; a synchronous exception stops loading with "Sign-In failed: " + message; sign-in result and profile untouched |
| `GoogleAuth.OnBeginSignIn` | app/src/main/java/com/example/firebaseauthtest/GoogleAuthService.kt:87-107 | a launched intent changes nothing (still loading); a launch exception or a begin failure stops loading with its own message; sign-in result and profile untouched |
| `GoogleAuth.HandleGoogleSignInResult` | app/src/main/java/com/example/firebaseauthtest/GoogleAuthService.kt:117-138 | the token goes to Firebase, state unchanged, iff an ID token was read; a null token or an ApiException stops loading with its message |
| `GoogleAuth.OnFirebaseSignIn` | app/src/main/java/com/example/firebaseauthtest/GoogleAuthService.kt:140-164 | loading stops; success signs in with the current user, no error and the profile mirroring that user ("" when absent); failure keeps the previous sign-in and profile with "Firebase authentication failed: " + message |
| `GoogleAuth.SignOut` | app/src/main/java/com/example/firebaseauthtest/GoogleAuthService.kt:166-171 | not loading, not signed in, no user, no error, empty profile |
| `GoogleAuth.SignOutRestoresDefault` | app/src/main/java/com/example/firebaseauthtest/GoogleAuthService.kt:166-171 | from any state, sign-out yields `GoogleAuthState()` |
| `GoogleAuth.ClearError` | app/src/main/java/com/example/firebaseauthtest/GoogleAuthService.kt:173-175 | the error is empty and every other field is unchanged |
| `GoogleAuth.ClearErrorIdempotent` | app/src/main/java/com/example/firebaseauthtest/GoogleAuthService.kt:173-175 | clearing twice equals clearing once |
| `GoogleAuth.Step` | app/src/main/java/com/example/firebaseauthtest/GoogleAuthService.kt:47-175 | signed in afterwards iff Firebase just succeeded or it was signed in and the event is not sign-out; profile keeps mirroring the user; only a returned intent sends a token to Firebase |
| `GoogleAuth.Run` | app/src/main/java/com/example/firebaseauthtest/GoogleAuthService.kt:47-175 | over any event sequence, the profile keeps mirroring the stored user |
| `GoogleAuth.SignedInUntilSignOut` | app/src/main/java/com/example/firebaseauthtest/GoogleAuthService.kt:140-171 | a signed-in service stays signed in through any sequence without sign-out |
| `GoogleAuth.ReachableProfilesMirrorUser` | app/src/main/java/com/example/firebaseauthtest/GoogleAuthService.kt:143-155 | from a fresh service, profile fields always equal the stored user's (or "") and no user is stored while signed out |
| `TruecallerAuth.InitializeTruecallerSdk` | app/src/main/java/com/example/firebaseauthtest/TruecallerAuthService.kt:37-40 | the state is unchanged |
| `TruecallerAuth.AuthenticateWithTruecaller` | app/src/main/java/com/example/firebaseauthtest/TruecallerAuthService.kt:46-53 | loading stops and the error is the disabled notice; nothing else changes |
| `TruecallerAuth.AuthenticateIdempotent` | app/src/main/java/com/example/firebaseauthtest/TruecallerAuthService.kt:46-53 | authenticating twice equals authenticating once |
| `TruecallerAuth.SignOut` | app/src/main/java/com/example/firebaseauthtest/TruecallerAuthService.kt:64-68 | not loading, not signed in, no user, no error, empty profile |
| `TruecallerAuth.SignOutRestoresDefault` | app/src/main/java/com/example/firebaseauthtest/TruecallerAuthService.kt:64-68 | from any state, sign-out yields `TruecallerAuthState()` |
| `TruecallerAuth.ClearError` | app/src/main/java/com/example/firebaseauthtest/TruecallerAuthService.kt:70-72 | the error is empty, every other field is unchanged, and a dormant state stays dormant |
| `TruecallerAuth.Step` | app/src/main/java/com/example/firebaseauthtest/TruecallerAuthService.kt:37-72 | no operation leaves the dormant set (never signed in or loading, empty profile, error empty or the disabled notice); authenticate always shows the notice |
| `TruecallerAuth.Run` | app/src/main/java/com/example/firebaseauthtest/TruecallerAuthService.kt:37-72 | any sequence of operations keeps a dormant state dormant |
| `TruecallerAuth.ReachableStatesDormant` | app/src/main/java/com/example/firebaseauthtest/TruecallerAuthService.kt:37-72 | from the default state, every reachable state is dormant |
| `UnifiedAuth.FirstSucceeded` | app/src/main/java/com/example/firebaseauthtest/UnifiedAuthViewModel.kt:67-72 | NONE iff no provider in the order has signed in; otherwise a provider that has, with none before it |
| `UnifiedAuth.FirstError` | app/src/main/java/com/example/firebaseauthtest/UnifiedAuthViewModel.kt:74-79 | "" iff every provider in the order has an empty error; otherwise the error of a provider whose predecessors all have none |
| `UnifiedAuth.AuthMethodOf` | app/src/main/java/com/example/firebaseauthtest/UnifiedAuthViewModel.kt:67-72 | the `when` over PHONE, GOOGLE, TRUECALLER equals the first signed-in provider in priority order |
| `UnifiedAuth.ErrorMessageOf` | app/src/main/java/com/example/firebaseauthtest/UnifiedAuthViewModel.kt:74-79 | the `when` over the three errors equals the first non-empty error in priority order |
| `UnifiedAuth.UpdateUnifiedState` | app/src/main/java/com/example/firebaseauthtest/UnifiedAuthViewModel.kt:59-94 | loading and authenticated are ORs; method and error follow priority order; phone number falls back to Truecaller's when the phone one is empty; user, name, e-mail, photo from Google and first/last name from Truecaller |
| `UnifiedAuth.MergeIgnoresPrevious` | app/src/main/java/com/example/firebaseauthtest/UnifiedAuthViewModel.kt:81-93 | the merge result depends only on the three provider states, not on the previous unified state |
| `UnifiedAuth.MethodAgreesWithAuthenticated` | app/src/main/java/com/example/firebaseauthtest/UnifiedAuthViewModel.kt:64-72 | method is NONE iff not authenticated; a named method has signed in and no higher-priority provider has |
| `UnifiedAuth.SoleSuccessIsReported` | app/src/main/java/com/example/firebaseauthtest/UnifiedAuthViewModel.kt:65-72 | when exactly one provider has signed in, it is the method and the state is authenticated |
| `UnifiedAuth.ErrorFollowsPriority` | app/src/main/java/com/example/firebaseauthtest/UnifiedAuthViewModel.kt:74-79 | the error is empty iff all three are; otherwise it is phone's if present, else Google's, else Truecaller's |
| `UnifiedAuth.PhoneFailureOutranksGoogle` | app/src/main/java/com/example/firebaseauthtest/UnifiedAuthViewModel.kt:74-79 | after only a Google failure the merge shows Google's message (when phone showed none); after only a phone failure, or after both, it shows the phone message |
| `UnifiedAuth.Create` | app/src/main/java/com/example/firebaseauthtest/UnifiedAuthViewModel.kt:34-46 | fresh phone session and Truecaller state, default unified state; Google differs from default only in its error, which is empty iff initialisation succeeded and otherwise is the init-failure message; the sign-in client is assigned iff initialisation succeeded |
| `GoogleAuth.InitOutcomeIn` | app/src/main/java/com/example/firebaseauthtest/GoogleAuthService.kt:49-51 | in a bare Application, initialisation ends with the lookup failure whatever the SDK does; in an attached context it ends as the SDK does; it succeeds iff the context is attached and the SDK succeeds |
| `GoogleAuth.RequestIn` | app/src/main/java/com/example/firebaseauthtest/GoogleAuthService.kt:76-85 | in a bare Application, the synchronous sign-in request throws with the lookup failure whatever the SDK does; in an attached context it ends as the SDK does; it is issued iff the context is attached and the SDK issues it |
| `UnifiedAuth.SourceContext` | app/src/main/java/com/example/firebaseauthtest/UnifiedAuthViewModel.kt:36 | the Google service's context is a bare Application, so every lookup through it fails |
| `GoogleAuth.BareApplicationCannotSignIn` | app/src/main/java/com/example/firebaseauthtest/GoogleAuthService.kt:47-115 | in an unattached Application, initialisation always ends with "Failed to initialize Google Sign-In: " + the lookup's message, and sign-in always stops loading with "Sign-In failed: " + that message, sign-in result and profile untouched |
| `UnifiedAuth.CreateAsWritten` | app/src/main/java/com/example/firebaseauthtest/UnifiedAuthViewModel.kt:34-46 | constructed as the code does, with a bare Application: the Google sign-in client is never assigned and the Google init error shows from the start, whatever the SDK would have done |
| `UnifiedAuth.SignOutAsWritten` | app/src/main/java/com/example/firebaseauthtest/GoogleAuthService.kt:166-171 | sign-out completes, as `SignOut`, iff the sign-in client was assigned; otherwise it throws after clearing only the phone error, leaving Google, Truecaller and the published state as they were |
| `UnifiedAuth.ExecuteAll` | app/src/main/java/com/example/firebaseauthtest/UnifiedAuthViewModel.kt:96-147 | no sequence of screen commands assigns the Google sign-in client, and a verified phone session stays verified |
| `UnifiedAuth.ExecuteAsWritten` | app/src/main/java/com/example/firebaseauthtest/UnifiedAuthViewModel.kt:117-141 | with the client unassigned, a command throws iff it is sign-out or a Google result; Google sign-in always stops loading with "Sign-In failed: " + the lookup's message; a stalled Google (client unassigned, defaults but for the error) stays stalled |
| `UnifiedAuth.ExecuteAllAsWritten` | app/src/main/java/com/example/firebaseauthtest/UnifiedAuthViewModel.kt:96-147 | a run of screen commands never assigns the client and keeps a stalled Google stalled; with the client unassigned, it throws iff some command is sign-out or a Google result |
| `UnifiedAuth.AsWrittenSignOutThrows` | app/src/main/java/com/example/firebaseauthtest/UnifiedAuthViewModel.kt:136-141 | built as the code builds it, after any run of screen commands, Google is stalled; a run ending in sign-out throws; after a completed run, `signOut` throws with Google's state and the published state unchanged |
| `UnifiedAuth.AsWrittenSignOutKeepsInitError` | app/src/main/java/com/example/firebaseauthtest/GoogleAuthService.kt:166-171 | right after construction, the throwing sign-out leaves the Google init error showing, where the completing sign-out clears it |
| `UnifiedAuth.Recompute` | app/src/main/java/com/example/firebaseauthtest/UnifiedAuthViewModel.kt:47-56 | providers and the client flag unchanged; the published state is the merge of the current snapshot |
| `UnifiedAuth.Execute` | app/src/main/java/com/example/firebaseauthtest/UnifiedAuthViewModel.kt:96-147 | phone commands leave Google and Truecaller alone, Google commands leave phone and Truecaller alone, Truecaller sign-in shows the disabled notice; only sign-out touches the published state; a verified phone stays verified |
| `UnifiedAuth.SignOut` | app/src/main/java/com/example/firebaseauthtest/UnifiedAuthViewModel.kt:136-141 | Google and Truecaller back to defaults, published state reset; phone loses only its error, keeping number, code, ids and verification |
| `UnifiedAuth.SignOutKeepsPhoneSignIn` | app/src/main/java/com/example/firebaseauthtest/UnifiedAuthViewModel.kt:136-141 | after sign-out and the next merge, authenticated (by PHONE) iff the phone session was verified before |
| `UnifiedAuth.ClearError` | app/src/main/java/com/example/firebaseauthtest/UnifiedAuthViewModel.kt:143-147 | all three provider errors empty, nothing else in them changed, published state untouched |
| `UnifiedAuth.ClearErrorIdempotent` | app/src/main/java/com/example/firebaseauthtest/UnifiedAuthViewModel.kt:143-147 | clearing twice equals clearing once |
| `UnifiedAuth.ClearErrorThenRecomputeShowsNoError` | app/src/main/java/com/example/firebaseauthtest/UnifiedAuthViewModel.kt:143-147 | the merge after clearError shows no error |
| `UnifiedAuth.PhoneHappyPathRequests` | app/src/main/java/com/example/firebaseauthtest/UnifiedAuthViewModel.kt:97-111 | "9876543210" dials "+919876543210"; the code sent as "vid-1" is stored; verifying "123456" sends the credential ("vid-1", "123456") |
| `UnifiedAuth.PhoneHappyPath` | app/src/main/java/com/example/firebaseauthtest/UnifiedAuthViewModel.kt:97-111 | once that credential's sign-in returns a user, the published state is authenticated by PHONE, whatever Google's initialisation did; the published error is empty iff that initialisation succeeded, and otherwise is the Google init-failure message |

## Left out

- `MainActivity.kt` is not part of this model. It holds the Compose screen, button wiring and launcher registration. It does not match this view model in two places: MainActivity.kt:97 calls `initializeServices(activity)`, which `UnifiedAuthViewModel` does not define, and MainActivity.kt:50 passes an `ActivityResult` where `handleGoogleSignInResult` takes an `Intent?`. The model follows the view model. Only RESULT_OK intents reach `handleGoogleSignInResult`, and the Truecaller launcher does nothing.
- `FirebaseApplication.kt` is not part of this model. It only bootstraps the SDKs.
- The SDK calls themselves are not modelled. This covers `FirebaseAuth`, One Tap `SignInClient`, `PhoneAuthProvider` and the Truecaller SDK. Their answers are outcome parameters, and their requests are returned values.
- `resendToken`, the 60-second SMS timeout and all logging are opaque plumbing.
- Coroutines, `viewModelScope`, and the `StateFlow`/`combine` emission timing are scheduling. Each collector run is the explicit `Recompute`. `StateFlow`'s suppression of equal values is not modelled: `Recompute` may be applied where the code would not run the collector at all. For example, sign-out of a verified, error-free phone session whose other providers are at their defaults leaves the published state signed out until the next phone change.
- `setActivityResultLauncher` only stores the launcher. A missing launcher makes `launch` a no-op, which the model folds into `IntentLaunched`.
- `createFirebaseUserWithPhone` is private, never called, and only logs.
- Google initialisation always fails as the code builds the view model (`CreateAsWritten`), so `googleSignInClient` is never assigned. Google sign-in then always ends in `RequestThrew`, because the client-id lookup at GoogleAuthService.kt:82 throws and is caught there. `signOut` always throws at GoogleAuthService.kt:168, after the phone error was cleared; `SignOutAsWritten` models this. The exception itself, which leaves the view model and crashes the app, is not modelled past that point.
- `handleGoogleSignInResult` reads the uninitialised `oneTapClient`, which throws an exception other than the `ApiException` it catches. `ExecuteAsWritten` models that as `Threw`. The screen cannot deliver a result as built, because no intent is ever launched. `HandleGoogleSignInResult` models the method for an attached context.
- `Create` takes the init outcome as a whole. A failure at GoogleAuthService.kt:58, after line 55 assigned the client, is treated as leaving the client unassigned.
- Firebase's own `auth.signOut()` at GoogleAuthService.kt:167 runs before the throw. It is an SDK call and is not modelled.
- `UnifiedAuth.Execute` and `ExecuteAll` model the behaviour the code evidently intends, in an attached context. Sign-out is the completing `SignOut`, and a Google request takes whatever outcome it is given. From `CreateAsWritten` they therefore reach Google states the code cannot reach, such as a loading Google after `SignInWithGoogleCommand(RequestIssued)`. `ExecuteAsWritten` and `ExecuteAllAsWritten` are the runs as written, in `SourceContext`.
- `ExecuteAll`, `ExecuteAllAsWritten` and `AsWrittenSignOutThrows` range over screen commands only. SDK callbacks (the phone verification callbacks, the `beginSignIn` listener, Firebase completions) and collector runs (`Recompute`) are not commands. They are stated per provider by `PhoneAuth.Run` and `GoogleAuth.Run`, and by `Recompute`.
- Kotlin's `String.length` counts UTF-16 code units, and a Dafny `string` counts characters. The model reads each `string` element as one code unit.
- `PhoneAuth.Run`, `GoogleAuth.Run` and `TruecallerAuth.Run` accept any event sequence. They do not require an SDK answer to follow a matching request, so their invariants cover more sequences than can occur.
- `UnifiedAuth.Execute` states only which parts each command may touch. What the touched provider does is stated by the provider function it calls.

## Findings

| source | as written | input that shows it | evidently intended | confidence | as-written member | corrected member |
|---|---|---|---|---|---|---|
| app/src/main/java/com/example/firebaseauthtest/UnifiedAuthViewModel.kt:36 | the Google service gets a bare `android.app.Application()`, so `getString` throws, initialisation fails and `googleSignInClient` stays unassigned; `signOut` then throws at GoogleAuthService.kt:168 | construct `UnifiedAuthViewModel` directly, as its no-argument constructor allows, then call `signOut` | an attached context, so that sign-out resets Google, Truecaller and the published state; the screen calls `viewModel.initializeServices(activity)` at MainActivity.kt:97, a method the view model does not define, so the screen was evidently written for a view model that sets its services up with the Activity | not executed | `UnifiedAuth.SignOutAsWritten` (with `UnifiedAuth.AsWrittenSignOutThrows`) | `UnifiedAuth.SignOut` |
