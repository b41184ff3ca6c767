/** The pure parts of `src/services/auth.service.ts`: choosing a user's primary sign-in
    provider, converting the identity provider's user record, and the sign-in error
    messages. The sign-in calls themselves are not modelled. */
module Auth {
  import opened Wrappers
  import opened Api

  /** The identity provider's user record; `providerData` lists the ids of the linked
      providers and may be missing. */
  datatype FirebaseUser = FirebaseUser(
    uid: string,
    email: Option<string>,
    displayName: Option<string>,
    photoURL: Option<string>,
    providerData: Option<seq<string>>)

  datatype User = User(
    uid: string,
    email: Option<string>,
    displayName: Option<string>,
    photoURL: Option<string>,
    providerId: Option<string>)

  const PasswordProvider: string := "password"

  /** `ids.findIndex(id => id !== 'password')`, with `|ids|` for none. */
  function FirstNonPassword(ids: seq<string>): (i: nat)
    ensures i <= |ids|
    ensures i < |ids| ==> ids[i] != PasswordProvider
    ensures forall j :: 0 <= j < i ==> ids[j] == PasswordProvider
  {
    if ids == [] then 0
    else if ids[0] != PasswordProvider then 0
    else 1 + FirstNonPassword(ids[1..])
  }

  /** `getPrimaryProviderId`: a linked provider other than email-and-password is preferred;
      'unknown' when no provider is linked. */
  function GetPrimaryProviderId(providerData: Option<seq<string>>): (id: string)
    ensures providerData.None? || providerData.value == [] ==> id == "unknown"
    ensures providerData.Some? && providerData.value != [] ==> id in providerData.value
    ensures providerData.Some? && providerData.value != [] ==>
      var ids := providerData.value;
      var i := FirstNonPassword(ids);
      && (i < |ids| && ids[i] != "" ==> id == ids[i])
      && (i == |ids| || ids[i] == "" ==> id == ids[0])
  {
    if providerData.None? || providerData.value == [] then "unknown"
    else
      var ids := providerData.value;
      var i := FirstNonPassword(ids);
      if i < |ids| && ids[i] != "" then ids[i] else ids[0]
  }

  /** Whenever some linked provider is not email-and-password (and has an id), that kind
      of provider is the one reported; with only email-and-password, 'password' is. */
  lemma OAuthProviderPreferred(ids: seq<string>)
    requires ids != []
    ensures (forall j :: 0 <= j < |ids| ==> ids[j] == PasswordProvider) ==>
      GetPrimaryProviderId(Some(ids)) == PasswordProvider
    ensures
      && (exists j :: 0 <= j < |ids| && ids[j] != PasswordProvider)
      && (forall j :: 0 <= j < |ids| && ids[j] != PasswordProvider ==> ids[j] != "")
      ==> GetPrimaryProviderId(Some(ids)) != PasswordProvider
  {
    var i := FirstNonPassword(ids);
    if exists j :: 0 <= j < |ids| && ids[j] != PasswordProvider {
      var j :| 0 <= j < |ids| && ids[j] != PasswordProvider;
      assert i <= j;
    }
  }

  /** `mapFirebaseUser`: the profile fields copied unchanged, plus the primary provider. */
  function MapFirebaseUser(u: FirebaseUser): (r: User)
    ensures r.uid == u.uid && r.email == u.email
    ensures r.displayName == u.displayName && r.photoURL == u.photoURL
    ensures r.providerId == Some(GetPrimaryProviderId(u.providerData))
  {
    User(u.uid, u.email, u.displayName, u.photoURL, Some(GetPrimaryProviderId(u.providerData)))
  }

  /** The known error codes and their texts. */
  const ErrorMessages: map<string, string> := map[
    "auth/email-already-in-use" := "This email is already registered. Please sign in instead.",
    "auth/invalid-email" := "Invalid email address.",
    "auth/operation-not-allowed" := "This operation is not allowed. Please contact support.",
    "auth/weak-password" := "Password should be at least 6 characters.",
    "auth/user-disabled" := "This account has been disabled.",
    "auth/user-not-found" := "No account found with this email.",
    "auth/wrong-password" := "Incorrect password.",
    "auth/invalid-credential" := "Invalid email or password.",
    "auth/too-many-requests" := "Too many failed attempts. Please try again later.",
    "auth/network-request-failed" := "Network error. Please check your connection.",
    "auth/popup-closed-by-user" := "Sign-in popup was closed before completion.",
    "auth/cancelled-popup-request" := "Sign-in was cancelled."
  ]

  const UnexpectedError: string := "An unexpected error occurred."

  /** `getAuthErrorMessage`: the text of a known code, else the error's own message, else a
      generic text. */
  function GetAuthErrorMessage(code: string, message: string): (text: string)
    ensures code in ErrorMessages ==> text == ErrorMessages[code]
    ensures code !in ErrorMessages && message != "" ==> text == message
    ensures code !in ErrorMessages && message == "" ==> text == UnexpectedError
  {
    if code in ErrorMessages && ErrorMessages[code] != "" then ErrorMessages[code]
    else if message != "" then message
    else UnexpectedError
  }

  /** What `errorMessages[code] || error.message || '…'` yields as written: a text, or the
      inherited `Object.prototype` member the lookup finds for such a code. */
  datatype ErrorLookup = Message(text: string) | InheritedMember(name: string)

  function AuthErrorAsWritten(code: string, message: string): (r: ErrorLookup)
    ensures r.InheritedMember? <==> code !in ErrorMessages && code in ObjectPrototypeMembers
  {
    if code in ErrorMessages && ErrorMessages[code] != "" then Message(ErrorMessages[code])
    else if code in ObjectPrototypeMembers then InheritedMember(code)
    else if message != "" then Message(message)
    else Message(UnexpectedError)
  }

  /** An error whose code is "constructor" gets the inherited constructor function in
      place of the error's own message. */
  lemma InheritedCodeEscapesFallback()
    ensures AuthErrorAsWritten("constructor", "Firebase: Error.") == InheritedMember("constructor")
  {
  }

  /** The intended lookup agrees with the code for every code but the inherited names. */
  lemma AuthErrorAgreesWithLookup(code: string, message: string)
    ensures AuthErrorAsWritten(code, message).Message? <==> code !in ObjectPrototypeMembers
    ensures AuthErrorAsWritten(code, message).Message? ==>
      AuthErrorAsWritten(code, message).text == GetAuthErrorMessage(code, message)
  {
    KnownCodesAreOwn(code);
  }

  /** No known code is an inherited member name. */
  lemma KnownCodesAreOwn(code: string)
    ensures code in ErrorMessages ==> code !in ObjectPrototypeMembers
  {
  }

  /** Every known code has a non-empty text. */
  lemma ErrorTableIsFaithful()
    ensures forall c :: c in ErrorMessages ==> ErrorMessages[c] != ""
  {
  }

  /** The user always gets some text to read. */
  lemma ErrorMessageNeverEmpty(code: string, message: string)
    ensures GetAuthErrorMessage(code, message) != ""
  {
    ErrorTableIsFaithful();
  }
}
