/** The OAuth callback page: the backend redirects here with query
    parameters, and the page decides between signing the user in (and
    moving on to the dashboard) and one of several error messages. */
module OAuthCallback {
  import opened Wrappers
  import opened JsNumbers
  import opened UriDecoding

  /** The query parameters the page reads, as `URLSearchParams.get`
      returns them: already percent-decoded once from the URL (and with
      '+' read as a space); `None` when absent. */
  datatype Params = Params(
    success: Option<string>,
    userId: Option<string>,
    userName: Option<string>,
    stravaId: Option<string>,
    error: Option<string>,
    code: Option<string>)

  /** The signed-in user; an id is `None` when `parseInt` gives `NaN`. */
  datatype User = User(id: Option<int>, stravaId: Option<int>, name: string, email: string)

  datatype Status = Processing | Succeeded | Failed

  /** A `router.push(path)` scheduled after `delayMs` milliseconds. */
  datatype Redirect = Redirect(path: string, delayMs: nat)

  const DeniedMessage: string := "OAuth authorization was denied or failed"
  const BackendFailedMessage: string := "Backend OAuth processing failed - please try again"
  const MissingInfoMessage: string := "Invalid OAuth callback - missing user information"
  const ProcessingFailedMessage: string := "Failed to process OAuth callback"
  const DefaultUserName: string := "Strava User"
  const DashboardRedirect: Redirect := Redirect("/dashboard", 1000)

  /** A query parameter is truthy when present and non-empty. */
  predicate Truthy(s: Option<string>) {
    s.Some? && s.value != ""
  }

  /** `success === 'true' && userId && stravaId` */
  predicate HasSuccessTriple(p: Params) {
    p.success == Some("true") && Truthy(p.userId) && Truthy(p.stravaId)
  }

  /** `userName ? decodeURIComponent(userName) : 'Strava User'`; `None`
      when decoding throws. */
  function DecodedName(userName: Option<string>): (r: Option<string>)
    ensures !Truthy(userName) ==> r == Some(DefaultUserName)
    ensures Truthy(userName) && '%' !in userName.value ==> r == userName
  {
    if Truthy(userName) then
      DecodeWithoutEscapesIfPlain(userName.value);
      DecodeUriComponent(userName.value)
    else Some(DefaultUserName)
  }

  lemma DecodeWithoutEscapesIfPlain(s: string)
    ensures '%' !in s ==> DecodeUriComponent(s) == Some(s)
  {
    if '%' !in s {
      DecodeWithoutEscapes(s);
    }
  }

  datatype Outcome = SignedIn(user: User) | Rejected(message: string)

  /** `handleCallback`'s decision: an `error` parameter first, then the
      success triple, then `code`; an exception while building the user
      record gives the generic failure. */
  function Classify(p: Params): (r: Outcome)
    ensures Truthy(p.error) ==> r == Rejected(DeniedMessage)
    ensures r.SignedIn? <==>
              !Truthy(p.error) && HasSuccessTriple(p) && DecodedName(p.userName).Some?
    ensures r.SignedIn? ==>
              r.user.id == ParseInt(p.userId.value) && r.user.stravaId == ParseInt(p.stravaId.value)
              && Some(r.user.name) == DecodedName(p.userName) && r.user.email == ""
    ensures r == Rejected(ProcessingFailedMessage) <==>
              !Truthy(p.error) && HasSuccessTriple(p) && DecodedName(p.userName).None?
    ensures r == Rejected(BackendFailedMessage) <==>
              !Truthy(p.error) && !HasSuccessTriple(p) && Truthy(p.code)
    ensures r == Rejected(MissingInfoMessage) <==>
              !Truthy(p.error) && !HasSuccessTriple(p) && !Truthy(p.code)
  {
    if Truthy(p.error) then Rejected(DeniedMessage)
    else if HasSuccessTriple(p) then
      match DecodedName(p.userName)
      case None => Rejected(ProcessingFailedMessage)
      case Some(name) => SignedIn(User(ParseInt(p.userId.value), ParseInt(p.stravaId.value), name, ""))
    else if Truthy(p.code) then Rejected(BackendFailedMessage)
    else Rejected(MissingInfoMessage)
  }

  /** A `%` without two hexadecimal digits after it in the user name makes
      the whole callback fail, even with a valid success triple. */
  lemma MalformedNameFails(p: Params, k: nat)
    requires !Truthy(p.error) && HasSuccessTriple(p) && p.userName.Some?
    requires var s := p.userName.value;
      k < |s| && s[k] == '%' && (forall j :: 0 <= j < k ==> s[j] != '%')
      && (k + 3 > |s| || DigitValue(s[k + 1], 16).None? || DigitValue(s[k + 2], 16).None?)
    ensures Classify(p) == Rejected(ProcessingFailedMessage)
  {
    DecodeRejectsBadEscape(p.userName.value, k);
  }

  /** A `user_name` value equal to `encodeURIComponent(name)`, that is a
      name percent-encoded twice in the URL, is shown as `name`, whatever
      characters it holds. */
  lemma EncodedNameIsDecoded(p: Params, name: string)
    requires !Truthy(p.error) && HasSuccessTriple(p) && p.userName == Some(EncodeUriComponent(name))
    ensures Classify(p).SignedIn?
    ensures Classify(p).user.name == (if name == "" then DefaultUserName else name)
  {
    DecodeEncodeRoundTrip(name);
  }

  /** The page's state: `status`, `error`, the `setUser` calls made and
      the navigations scheduled. */
  class CallbackPage {
    var status: Status
    var error: string
    var userSets: seq<User>
    var redirects: seq<Redirect>

    constructor()
      ensures status == Processing && error == "" && userSets == [] && redirects == []
    {
      status := Processing;
      error := "";
      userSets := [];
      redirects := [];
    }

    /** `handleCallback` run on the given query parameters. */
    method HandleCallback(p: Params)
      modifies this
      ensures status == Succeeded || status == Failed
      ensures status == Succeeded <==> Classify(p).SignedIn?
      ensures Classify(p).SignedIn? ==>
                userSets == old(userSets) + [Classify(p).user]
                && redirects == old(redirects) + [DashboardRedirect] && error == old(error)
      ensures Classify(p).Rejected? ==>
                userSets == old(userSets) && redirects == old(redirects) && error == Classify(p).message
    {
      var outcome := Classify(p);
      match outcome {
        case SignedIn(user) =>
          userSets := userSets + [user];
          status := Succeeded;
          redirects := redirects + [DashboardRedirect];
        case Rejected(message) =>
          status := Failed;
          error := message;
      }
    }
  }
}
