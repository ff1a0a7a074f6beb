/** The second OAuth callback page: it handles the redirect once (a
    `processed` flag guards later runs), signs the user in on a valid
    success triple and otherwise reports an error and returns home. It
    differs from the first page in two ways proved below: an `error`
    parameter does not override a valid success triple, and the user name
    is taken verbatim instead of being percent-decoded. */
module OAuthCallbackImproved {
  import opened Wrappers
  import opened JsNumbers
  import opened UriDecoding
  import opened OAuthCallback

  const SuccessRedirect: Redirect := Redirect("/dashboard", 1500)
  const FailureRedirect: Redirect := Redirect("/", 3000)

  /** The user `setUser` receives, if any: `userName || 'Strava User'`
      with no decoding. */
  function ImprovedUser(p: Params): (r: Option<User>)
    ensures r.Some? <==> HasSuccessTriple(p)
    ensures r.Some? ==>
              r.value.id == ParseInt(p.userId.value) && r.value.stravaId == ParseInt(p.stravaId.value)
              && r.value.email == ""
              && r.value.name == (if Truthy(p.userName) then p.userName.value else DefaultUserName)
  {
    if HasSuccessTriple(p) then
      Some(User(ParseInt(p.userId.value), ParseInt(p.stravaId.value),
                if Truthy(p.userName) then p.userName.value else DefaultUserName, ""))
    else None
  }

  /** On a redirect with no `error` parameter and no `%` in the user name,
      both pages sign in exactly the same user, or neither does. */
  lemma PagesAgreeOnPlainNames(p: Params)
    requires !Truthy(p.error)
    requires p.userName.Some? ==> '%' !in p.userName.value
    ensures Classify(p).SignedIn? <==> ImprovedUser(p).Some?
    ensures Classify(p).SignedIn? ==> ImprovedUser(p) == Some(Classify(p).user)
  {
    assert DecodedName(p.userName).Some?;
  }

  /** With a valid success triple, an `error` parameter makes the first page
      reject the callback while this one signs the user in. */
  lemma ErrorParameterPrecedenceDiffers(p: Params)
    requires HasSuccessTriple(p) && Truthy(p.error)
    ensures Classify(p) == Rejected(DeniedMessage)
    ensures ImprovedUser(p).Some?
  {
  }

  /** A `user_name` value equal to `encodeURIComponent(name)` (a name
      percent-encoded twice in the URL) is decoded once more by the first
      page and kept as it is by this one; the two pages show the same name
      exactly when the name has no character that needs escaping. */
  lemma NameDecodingDiffers(p: Params, name: string)
    requires HasSuccessTriple(p) && !Truthy(p.error) && p.userName == Some(EncodeUriComponent(name))
    requires name != ""
    ensures Classify(p).SignedIn? && Classify(p).user.name == name
    ensures ImprovedUser(p).Some? && ImprovedUser(p).value.name == EncodeUriComponent(name)
    ensures ImprovedUser(p).value.name == Classify(p).user.name <==> AllUnreserved(name)
  {
    EncodedNameIsDecoded(p, name);
    var encoded := EncodeUriComponent(name);
    assert |encoded| >= |name| > 0;
    KeepsNameAsWritten(p);
  }

  /** A non-empty user name reaches `setUser` exactly as written. */
  lemma KeepsNameAsWritten(p: Params)
    requires HasSuccessTriple(p) && Truthy(p.userName)
    ensures ImprovedUser(p).Some? && ImprovedUser(p).value.name == p.userName.value
  {
  }

  /** A malformed escape in the user name fails the first page, while this
      one signs the user in under the name as written. */
  lemma MalformedNameOnlyFailsFirstPage(p: Params, k: nat)
    requires !Truthy(p.error) && HasSuccessTriple(p) && p.userName.Some?
    requires var s := p.userName.value;
      k < |s| && s[k] == '%' && (forall j :: 0 <= j < k ==> s[j] != '%')
      && (k + 3 > |s| || DigitValue(s[k + 1], 16).None? || DigitValue(s[k + 2], 16).None?)
    ensures Classify(p) == Rejected(ProcessingFailedMessage)
    ensures ImprovedUser(p).Some? && ImprovedUser(p).value.name == p.userName.value
  {
    MalformedNameFails(p, k);
  }

  /** A name percent-encoded once in the URL reaches the page plain; one
      holding a '%' that starts no escape, such as "100% Club", makes the
      first page fail, while this one shows it as it is. */
  lemma PercentInPlainNameOnlyFailsFirstPage(p: Params)
    requires !Truthy(p.error) && HasSuccessTriple(p) && p.userName == Some("100% Club")
    ensures Classify(p) == Rejected(ProcessingFailedMessage)
    ensures ImprovedUser(p).Some? && ImprovedUser(p).value.name == "100% Club"
  {
    var s := p.userName.value;
    assert s[3] == '%' && s[4] == ' ';
    MalformedNameOnlyFailsFirstPage(p, 3);
  }

  class ImprovedCallbackPage {
    var processed: bool
    var status: Status
    /** The `setUser` calls made, oldest first. */
    var userSets: seq<User>
    var redirects: seq<Redirect>

    /** Before the first run nothing has happened; afterwards exactly one
        navigation is scheduled and at most one user has been set. */
    predicate Valid()
      reads this
    {
      && (!processed ==> status == Processing && userSets == [] && redirects == [])
      && (processed ==> status != Processing && |redirects| == 1 && |userSets| <= 1)
      && (|userSets| == 1 <==> status == Succeeded)
    }

    constructor()
      ensures Valid()
      ensures !processed && status == Processing && userSets == [] && redirects == []
    {
      processed := false;
      status := Processing;
      userSets := [];
      redirects := [];
    }

    /** `handleCallback` on the given query parameters. */
    method HandleCallback(p: Params)
      requires Valid()
      modifies this
      ensures Valid() && processed
      ensures old(processed) ==>
                status == old(status) && userSets == old(userSets) && redirects == old(redirects)
      ensures !old(processed) && ImprovedUser(p).Some? ==>
                status == Succeeded && userSets == [ImprovedUser(p).value] && redirects == [SuccessRedirect]
      ensures !old(processed) && ImprovedUser(p).None? ==>
                status == Failed && userSets == [] && redirects == [FailureRedirect]
    {
      if processed {
        return;
      }
      match ImprovedUser(p) {
        case Some(user) =>
          userSets := userSets + [user];
          processed := true;
          status := Succeeded;
          redirects := redirects + [SuccessRedirect];
        case None =>
          status := Failed;
          processed := true;
          redirects := redirects + [FailureRedirect];
      }
    }
  }

  /** However many times the callback runs, `setUser` is called at most
      once and only the first run's parameters matter. */
  method RunTwice(p1: Params, p2: Params) returns (users: seq<User>, first: Status)
    ensures |users| <= 1
    ensures users == (if ImprovedUser(p1).Some? then [ImprovedUser(p1).value] else [])
    ensures first == (if ImprovedUser(p1).Some? then Succeeded else Failed)
  {
    var page := new ImprovedCallbackPage();
    page.HandleCallback(p1);
    first := page.status;
    page.HandleCallback(p2);
    users := page.userSets;
  }
}
