/** Values shared by the three sign-in providers and the unified view model:
    Kotlin's nullable values, the Firebase user handed back by a successful
    sign-in, and how Kotlin string templates render a nullable message. */
module AuthCommon {

  /** A Kotlin nullable value: `None` is `null`. */
  datatype Option<+T> = None | Some(value: T)

  /** The parts of a `FirebaseUser` the application reads. The user is
      otherwise opaque; `uid` stands for its identity. */
  datatype FirebaseUser = FirebaseUser(
    uid: string,
    displayName: Option<string>,
    email: Option<string>,
    photoUrl: Option<string>)

  /** `"${e.message}"`: a string template renders a null exception message
      as the four characters `null`. */
  function MessageText(message: Option<string>): string {
    match message
    case Some(text) => text
    case None => "null"
  }

  /** `x ?: ""`: a null string falls back to the empty string. */
  function OrEmpty(value: Option<string>): string {
    match value
    case Some(text) => text
    case None => ""
  }
}
