/** The Google sign-in session and the Google Calendar gateway of the web client.

    The session lives in five module-level variables and two localStorage keys;
    here they are the fields of one `GoogleSession` object. Everything the
    Google Identity Services library, `fetch` or the user decides arrives as a
    parameter: the outcome of the user-info lookup, the token response handed
    to the token callback, the poll tick at which the library appears, whether
    constructing the token client throws, and the HTTP reply of a calendar call.
    Calls are taken one at a time; the asynchronous interleavings are not modelled. */
module GoogleCalendarService {
  import opened Wrappers
  import opened Strings

  /** The scope the token callback checks the granted scopes against. */
  const CalendarScope := "https://www.googleapis.com/auth/calendar"

  /** The poll gives up once more than this many ticks have passed without the library. */
  const MaxPollAttempts := 20

  /** A listener notification: `(isSignedIn, email)`. */
  type Notification = (bool, Option<string>)

  const SignedOutStatus: Notification := (false, None)

  /** The outcome of `GET .../oauth2/v3/userinfo` with the token as bearer credential:
      a JSON body (whose `email` may be missing or empty), HTTP 401, or any other
      failure (another non-2xx status, a network error, a body that is not JSON). */
  datatype UserInfoOutcome = UserInfo(email: Option<string>) | Unauthorized | OtherFailure

  /** The object the library hands to the token callback. */
  datatype TokenResponse = TokenResponse(error: Option<string>, accessToken: Option<string>, scope: Option<string>)

  datatype InitError = LibraryLoadTimeout | ClientConstructionFailed

  /** How the promise returned by `initGoogleIdentityServices` settles. */
  datatype InitResult = Resolved | Rejected(reason: InitError)

  /** The library (`window.google.accounts`) is present at poll tick `tick`; tick 0 is the
      first check, before any polling. `appearsAt == None` means it never loads. */
  predicate LibraryPresent(appearsAt: Option<nat>, tick: nat) {
    appearsAt.Some? && appearsAt.value <= tick
  }

  /** The library is found by the first check or by one of the polls. */
  predicate LibraryArrives(appearsAt: Option<nat>) {
    LibraryPresent(appearsAt, MaxPollAttempts + 1)
  }

  /** The `setInterval` poll of `loadGis`: one tick per iteration, stopping when the
      library is present or when more than `MaxPollAttempts` ticks have passed. */
  method PollForLibrary(appearsAt: Option<nat>) returns (arrived: bool, attempts: nat)
    ensures arrived <==> LibraryArrives(appearsAt)
    ensures 1 <= attempts <= MaxPollAttempts + 1
    ensures arrived ==> LibraryPresent(appearsAt, attempts)
    ensures forall t :: 1 <= t < attempts ==> !LibraryPresent(appearsAt, t)
  {
    attempts := 0;
    arrived := false;
    var gaveUp := false;
    while !arrived && !gaveUp
      invariant 0 <= attempts <= MaxPollAttempts + 1
      invariant forall t :: 1 <= t < attempts ==> !LibraryPresent(appearsAt, t)
      invariant arrived ==> !gaveUp && attempts >= 1 && LibraryPresent(appearsAt, attempts)
      invariant gaveUp ==> attempts == MaxPollAttempts + 1 && !LibraryPresent(appearsAt, attempts)
      invariant !arrived && !gaveUp ==> attempts <= MaxPollAttempts && (attempts >= 1 ==> !LibraryPresent(appearsAt, attempts))
      decreases MaxPollAttempts + 1 - attempts, if arrived || gaveUp then 0 else 1
    {
      attempts := attempts + 1;
      if LibraryPresent(appearsAt, attempts) {
        arrived := true;
      } else if attempts > MaxPollAttempts {
        gaveUp := true;
      }
    }
  }

  class GoogleSession {
    /** `currentAccessToken` */
    var token: Option<string>
    /** `activeUserEmail` */
    var email: Option<string>
    var gisInitialized: bool
    /** `tokenClient !== null` */
    var hasClient: bool
    /** `signInStatusListener !== null` */
    var hasListener: bool
    /** localStorage `google_access_token` */
    var storedToken: Option<string>
    /** localStorage `google_user_email` */
    var storedEmail: Option<string>
    /** Every call of the listener, in order. */
    ghost var notifications: seq<Notification>

    /** The session invariant: a held token is never empty and is the stored one,
        and an email is held only together with a token and mirrors the stored one. */
    ghost predicate Valid()
      reads this
    {
      && (token == None || Truthy(token))
      && (token.Some? ==> storedToken == token)
      && (email.Some? ==> token.Some? && storedEmail == email)
    }

    /** `isSignedIn()` */
    function IsSignedIn(): (r: bool)
      reads this
      ensures r <==> token.Some? && token.value != ""
    {
      Truthy(token)
    }

    /** `getSignedInUserEmail()` */
    function SignedInUserEmail(): (r: Option<string>)
      reads this
      ensures r == email
    {
      email
    }

    /** In a valid session the two getters agree: signed in exactly when a token is held,
        and an email is reported only while signed in. */
    lemma GettersAgree()
      requires Valid()
      ensures IsSignedIn() <==> token.Some?
      ensures SignedInUserEmail().Some? ==> IsSignedIn()
    {
    }

    /** What `notifySignInStatusChange` would report now. */
    ghost function Status(): Notification
      reads this
    {
      (Truthy(token), email)
    }

    /** The notification log entry for telling the listener `n`: nothing when no listener is set. */
    ghost function Told(n: Notification): seq<Notification>
      reads this
    {
      if hasListener then [n] else []
    }

    /** The token `initGoogleIdentityServices` holds after its `loadTokenFromStorage` step. */
    ghost function LoadedToken(): Option<string>
      reads this
    {
      if !Truthy(token) && !gisInitialized && Truthy(storedToken) then storedToken else token
    }

    /** The state of the module when the page loads, with whatever localStorage persisted. */
    constructor (persistedToken: Option<string>, persistedEmail: Option<string>)
      ensures Valid()
      ensures token == None && email == None && !gisInitialized && !hasClient && !hasListener
      ensures storedToken == persistedToken && storedEmail == persistedEmail
      ensures notifications == []
    {
      token, email := None, None;
      gisInitialized, hasClient, hasListener := false, false, false;
      storedToken, storedEmail := persistedToken, persistedEmail;
      notifications := [];
    }

    /** `notifySignInStatusChange` */
    method Notify()
      modifies this`notifications
      ensures notifications == old(notifications) + Told(Status())
    {
      if hasListener {
        notifications := notifications + [Status()];
      }
    }

    /** `loadTokenFromStorage`: a non-empty stored token is taken, together with the stored email. */
    method LoadTokenFromStorage()
      requires Valid()
      modifies this`token, this`email
      ensures Valid()
      ensures Truthy(old(storedToken)) ==> token == old(storedToken) && email == old(storedEmail)
      ensures !Truthy(old(storedToken)) ==> token == old(token) && email == old(email)
    {
      if Truthy(storedToken) {
        token := storedToken;
        email := storedEmail;
      }
    }

    /** `fetchUserInfo(currentAccessToken)`. A 401 clears the token in memory and both
        stored keys; every failure clears the email; success takes the response email.
        The listener is told once on success and twice on failure (in `catch` and in `finally`). */
    method FetchUserInfo(outcome: UserInfoOutcome) returns (ok: bool)
      requires Valid() && Truthy(token)
      modifies this`token, this`email, this`storedToken, this`storedEmail, this`notifications
      ensures Valid()
      ensures ok <==> outcome.UserInfo?
      ensures outcome.UserInfo? ==>
        && token == old(token) && storedToken == old(storedToken)
        && email == OrNull(outcome.email) && storedEmail == email
        && notifications == old(notifications) + Told((true, email))
      ensures outcome.Unauthorized? ==>
        && token == None && storedToken == None && email == None && storedEmail == None
        && notifications == old(notifications) + Told(SignedOutStatus) + Told(SignedOutStatus)
      ensures outcome.OtherFailure? ==>
        && token == old(token) && storedToken == old(storedToken) && email == None && storedEmail == None
        && notifications == old(notifications) + Told((true, None)) + Told((true, None))
    {
      match outcome {
        case UserInfo(e) =>
          email := OrNull(e);
          storedEmail := email;
          ok := true;
        case Unauthorized =>
          storedToken := None;
          storedEmail := None;
          token := None;
          ok := false;
        case OtherFailure =>
          ok := false;
      }
      if !ok {
        email := None;
        storedEmail := None;
        Notify();
      }
      Notify();
    }

    /** `initializeClientInternal`: reuses an existing client, otherwise constructs one
        (the token callback is `OnTokenResponse`). A construction failure resets both
        the flag and the client so that a later call can retry. */
    method InitializeClientInternal(constructionFails: bool) returns (result: InitResult)
      requires Valid()
      modifies this`gisInitialized, this`hasClient, this`notifications
      ensures Valid()
      ensures old(hasClient) ==>
        && result == Resolved && gisInitialized && hasClient
        && notifications == old(notifications) + Told(Status())
      ensures !old(hasClient) && constructionFails ==>
        && result == Rejected(ClientConstructionFailed) && !gisInitialized && !hasClient
        && notifications == old(notifications)
      ensures !old(hasClient) && !constructionFails ==>
        && result == Resolved && gisInitialized && hasClient
        && notifications == old(notifications) + Told(Status())
    {
      if gisInitialized && hasClient {
        Notify();
        return Resolved;
      }
      if !gisInitialized && hasClient {
        gisInitialized := true;
        Notify();
        return Resolved;
      }
      if constructionFails {
        gisInitialized := false;
        hasClient := false;
        return Rejected(ClientConstructionFailed);
      }
      hasClient := true;
      gisInitialized := true;
      Notify();
      result := Resolved;
    }

    /** How the bootstrap (`loadGis`) leaves the flag, the client and the log, given
        whether a client existed before it ran. */
    ghost predicate Bootstrapped(result: InitResult, hadClient: bool, appearsAt: Option<nat>,
                                 constructionFails: bool, log: seq<Notification>)
      reads this
    {
      if !LibraryArrives(appearsAt) then
        result == Rejected(LibraryLoadTimeout) && !gisInitialized && hasClient == hadClient && notifications == log
      else if !hadClient && constructionFails then
        result == Rejected(ClientConstructionFailed) && !gisInitialized && !hasClient && notifications == log
      else
        result == Resolved && gisInitialized && hasClient && notifications == log + Told(Status())
    }

    /** `loadGis`: checks for the library, polls for it if absent, then initializes the client. */
    method LoadGis(appearsAt: Option<nat>, constructionFails: bool) returns (result: InitResult)
      requires Valid() && !gisInitialized
      modifies this`gisInitialized, this`hasClient, this`notifications
      ensures Valid()
      ensures Bootstrapped(result, old(hasClient), appearsAt, constructionFails, old(notifications))
    {
      if LibraryPresent(appearsAt, 0) {
        result := InitializeClientInternal(constructionFails);
      } else {
        var arrived, attempts := PollForLibrary(appearsAt);
        if arrived {
          result := InitializeClientInternal(constructionFails);
        } else {
          result := Rejected(LibraryLoadTimeout);
        }
      }
    }

    /** The token branch of `initGoogleIdentityServices`: the held token is checked with
        the identity lookup; on failure the session is wiped (token, email, both stored
        keys, the flag and the client) and the library is bootstrapped afresh. */
    method Revalidate(lookup: UserInfoOutcome, appearsAt: Option<nat>, constructionFails: bool)
      returns (result: InitResult)
      requires Valid() && Truthy(token) && !gisInitialized
      modifies this`token, this`email, this`storedToken, this`storedEmail, this`gisInitialized,
               this`hasClient, this`notifications
      ensures Valid()
      ensures lookup.UserInfo? ==>
        && result == Resolved && gisInitialized && hasClient == old(hasClient)
        && token == old(token) && storedToken == token
        && email == OrNull(lookup.email) && storedEmail == email
        && notifications == old(notifications) + Told((true, email))
      ensures !lookup.UserInfo? ==>
        && token == None && email == None && storedToken == None && storedEmail == None
        && Bootstrapped(result, false, appearsAt, constructionFails,
             old(notifications)
             + (if lookup.Unauthorized? then Told(SignedOutStatus) + Told(SignedOutStatus)
                else Told((true, None)) + Told((true, None)))
             + Told(SignedOutStatus))
    {
      var ok := FetchUserInfo(lookup);
      if ok {
        gisInitialized := true;
        return Resolved;
      }
      storedToken := None;
      storedEmail := None;
      token := None;
      email := None;
      gisInitialized := false;
      hasClient := false;
      Notify();
      result := LoadGis(appearsAt, constructionFails);
    }

    /** `initGoogleIdentityServices(statusCallback?)`. */
    method Init(listener: bool, lookup: UserInfoOutcome, appearsAt: Option<nat>, constructionFails: bool)
      returns (result: InitResult)
      requires Valid()
      modifies this
      ensures Valid()
      ensures hasListener == (old(hasListener) || listener)
      // A token can only come from memory or, when none is held and the library was never set up, from storage.
      ensures token.Some? ==> token == old(token) || (old(token) == None && !old(gisInitialized) && token == old(storedToken))
      // Already initialized with a client: only the listener is told.
      ensures old(gisInitialized && hasClient) ==>
        && result == Resolved && gisInitialized && hasClient
        && token == old(token) && email == old(email)
        && storedToken == old(storedToken) && storedEmail == old(storedEmail)
        && notifications == old(notifications) + Told(Status())
      // A held or stored token is revalidated; success keeps it and marks the library initialized, with no new client.
      ensures !old(gisInitialized && hasClient) && Truthy(old(LoadedToken())) && lookup.UserInfo? ==>
        && result == Resolved && gisInitialized && hasClient == old(hasClient)
        && token == old(LoadedToken()) && storedToken == token
        && email == OrNull(lookup.email) && storedEmail == email
        && notifications == old(notifications) + Told((true, email))
      // A token that fails revalidation is wiped everywhere and the library is bootstrapped afresh.
      ensures !old(gisInitialized && hasClient) && Truthy(old(LoadedToken())) && !lookup.UserInfo? ==>
        && token == None && email == None && storedToken == None && storedEmail == None
        && Bootstrapped(result, false, appearsAt, constructionFails,
             old(notifications)
             + (if lookup.Unauthorized? then Told(SignedOutStatus) + Told(SignedOutStatus)
                else Told((true, None)) + Told((true, None)))
             + Told(SignedOutStatus))
      // Without a token only the bootstrap runs.
      ensures !old(gisInitialized && hasClient) && !Truthy(old(LoadedToken())) ==>
        && token == None && email == None
        && storedToken == old(storedToken) && storedEmail == old(storedEmail)
        && Bootstrapped(result, old(hasClient), appearsAt, constructionFails, old(notifications))
    {
      if listener {
        hasListener := true;
      }
      if !Truthy(token) && !gisInitialized {
        LoadTokenFromStorage();
      }
      if gisInitialized && hasClient {
        Notify();
        return Resolved;
      }
      if gisInitialized && !hasClient {
        gisInitialized := false;
      }
      if Truthy(token) {
        result := Revalidate(lookup, appearsAt, constructionFails);
      } else {
        result := LoadGis(appearsAt, constructionFails);
      }
    }

    /** The token-client callback. An `error` (checked first) or a missing `access_token`
        signs out without touching the flag or the client; a token is kept in memory and
        in storage before the identity lookup. A granted scope list without the calendar
        scope only raises `scopeWarning` (a console warning in the original). */
    method OnTokenResponse(response: TokenResponse, lookup: UserInfoOutcome) returns (scopeWarning: bool)
      requires Valid()
      modifies this`token, this`email, this`storedToken, this`storedEmail, this`notifications
      ensures Valid()
      ensures scopeWarning <==>
        !Truthy(response.error) && Truthy(response.accessToken) && !Contains(response.scope.GetOr(""), CalendarScope)
      ensures Truthy(response.error) || !Truthy(response.accessToken) ==>
        && token == None && email == None && storedToken == None && storedEmail == None
        && notifications == old(notifications) + Told(SignedOutStatus)
      ensures !Truthy(response.error) && Truthy(response.accessToken) && lookup.UserInfo? ==>
        && token == response.accessToken && storedToken == token
        && email == OrNull(lookup.email) && storedEmail == email
        && notifications == old(notifications) + Told((true, email))
      ensures !Truthy(response.error) && Truthy(response.accessToken) && lookup.Unauthorized? ==>
        && token == None && email == None && storedToken == None && storedEmail == None
        && notifications == old(notifications) + Told(SignedOutStatus) + Told(SignedOutStatus)
      ensures !Truthy(response.error) && Truthy(response.accessToken) && lookup.OtherFailure? ==>
        && token == response.accessToken && storedToken == token && email == None && storedEmail == None
        && notifications == old(notifications) + Told((true, None)) + Told((true, None))
    {
      scopeWarning := false;
      if Truthy(response.error) {
        token, email := None, None;
        storedToken, storedEmail := None, None;
        Notify();
        return;
      }
      if Truthy(response.accessToken) {
        scopeWarning := !Contains(response.scope.GetOr(""), CalendarScope);
        token := response.accessToken;
        storedToken := token;
        var _ := FetchUserInfo(lookup);
      } else {
        token, email := None, None;
        storedToken, storedEmail := None, None;
        Notify();
      }
    }

    /** `signInAndAuthorize()`: asks for consent only when a client exists and no token is held. */
    method SignInAndAuthorize() returns (consentRequested: bool)
      requires Valid()
      modifies this`notifications
      ensures consentRequested <==> hasClient && !Truthy(token)
      ensures !hasClient ==> notifications == old(notifications) + Told(SignedOutStatus)
      ensures hasClient && Truthy(token) ==> notifications == old(notifications) + Told(Status())
      ensures hasClient && !Truthy(token) ==> notifications == old(notifications)
    {
      if !hasClient {
        if hasListener {
          notifications := notifications + [SignedOutStatus];
        }
        return false;
      }
      if Truthy(token) {
        Notify();
        return false;
      }
      consentRequested := true;
    }

    /** `signOut()`: all local state is cleared and the listener told before the
        best-effort revocation, whose token is returned (None when there is nothing to revoke). */
    method SignOut() returns (tokenToRevoke: Option<string>)
      requires Valid()
      modifies this`token, this`email, this`storedToken, this`storedEmail, this`gisInitialized,
               this`hasClient, this`notifications
      ensures Valid()
      ensures !IsSignedIn() && SignedInUserEmail() == None
      ensures token == None && email == None && storedToken == None && storedEmail == None
      ensures !gisInitialized && !hasClient
      ensures notifications == old(notifications) + Told(SignedOutStatus)
      ensures tokenToRevoke == (if Truthy(old(token)) then old(token) else None)
    {
      tokenToRevoke := if Truthy(token) then token else None;
      token, email := None, None;
      storedToken, storedEmail := None, None;
      gisInitialized := false;
      hasClient := false;
      Notify();
    }
  }

  // ---------------------------------------------------------------------------
  // Calendar gateway. `token` is `currentAccessToken` at the time of the call.

  /** The body of a reply: JSON (with its `error.message`, if any, and its payload) or not JSON
      at all, in which case `response.json()` throws with `parseError`. */
  datatype Body<T> = Json(errorMessage: Option<string>, payload: T) | NotJson(parseError: string)

  /** The outcome of one `fetch`: a rejected request (with its error message) or an HTTP reply. */
  datatype HttpReply<T> = NetworkError(message: string) | Reply(status: int, statusText: string, body: Body<T>)

  const NotSignedInMessage := "Not signed in or no access token. Please sign in and authorize."
  const UpdateIdRequiredMessage := "Event ID is required to update an event."
  const DeleteIdRequiredMessage := "Event ID is required to delete an event."

  /** `response.ok` */
  predicate IsOk(status: int) {
    200 <= status <= 299
  }

  /** `errorData.error?.message || fallback` */
  function ErrorMessage(errorMessage: Option<string>, fallback: string): (m: string)
    ensures Truthy(errorMessage) ==> m == errorMessage.value
    ensures !Truthy(errorMessage) ==> m == fallback
  {
    if Truthy(errorMessage) then errorMessage.value else fallback
  }

  /** The shared reply handling of create and update: a 2xx JSON body is the event;
      otherwise the provider's message, else `<failurePrefix><statusText>`. */
  function WriteReply<E>(reply: HttpReply<E>, failurePrefix: string): Result<E, string> {
    match reply
    case NetworkError(m) => Failure(m)
    case Reply(status, statusText, body) =>
      match body
      case NotJson(m) => Failure(m)
      case Json(em, payload) =>
        if IsOk(status) then Success(payload) else Failure(ErrorMessage(em, failurePrefix + statusText))
  }

  /** `addCalendarEvent(eventDetails)`: throws before any request when signed out. */
  function AddCalendarEvent<E>(token: Option<string>, reply: HttpReply<E>): (r: Result<E, string>)
    ensures !Truthy(token) ==> r == Failure(NotSignedInMessage)
    ensures r.Success? <==> Truthy(token) && reply.Reply? && IsOk(reply.status) && reply.body.Json?
    ensures r.Success? ==> r.value == reply.body.payload
    ensures Truthy(token) && reply.Reply? && !IsOk(reply.status) && reply.body.Json? ==>
      r == Failure(ErrorMessage(reply.body.errorMessage, "Failed to create event: " + reply.statusText))
  {
    if !Truthy(token) then Failure(NotSignedInMessage)
    else WriteReply(reply, "Failed to create event: ")
  }

  /** `updateCalendarEvent(eventId, eventDetails)`: throws before any request when signed
      out or when the id is empty. */
  function UpdateCalendarEvent<E>(token: Option<string>, eventId: string, reply: HttpReply<E>): (r: Result<E, string>)
    ensures !Truthy(token) ==> r == Failure(NotSignedInMessage)
    ensures Truthy(token) && eventId == "" ==> r == Failure(UpdateIdRequiredMessage)
    ensures r.Success? <==> Truthy(token) && eventId != "" && reply.Reply? && IsOk(reply.status) && reply.body.Json?
    ensures r.Success? ==> r.value == reply.body.payload
    ensures Truthy(token) && eventId != "" && reply.Reply? && !IsOk(reply.status) && reply.body.Json? ==>
      r == Failure(ErrorMessage(reply.body.errorMessage, "Failed to update event: " + reply.statusText))
  {
    if !Truthy(token) then Failure(NotSignedInMessage)
    else if eventId == "" then Failure(UpdateIdRequiredMessage)
    else WriteReply(reply, "Failed to update event: ")
  }

  /** `deleteCalendarEvent(eventId)`: 204 and every other 2xx status resolve; an error
      body that is not JSON counts as `{}`, so the status text is used. */
  function DeleteCalendarEvent(token: Option<string>, eventId: string, reply: HttpReply<()>): (r: Result<(), string>)
    ensures !Truthy(token) ==> r == Failure(NotSignedInMessage)
    ensures Truthy(token) && eventId == "" ==> r == Failure(DeleteIdRequiredMessage)
    ensures r.Success? <==> Truthy(token) && eventId != "" && reply.Reply? && IsOk(reply.status)
    ensures Truthy(token) && eventId != "" && reply.Reply? && !IsOk(reply.status) ==>
      r == Failure(ErrorMessage(if reply.body.Json? then reply.body.errorMessage else None,
                                "Failed to delete event: " + reply.statusText))
  {
    if !Truthy(token) then Failure(NotSignedInMessage)
    else if eventId == "" then Failure(DeleteIdRequiredMessage)
    else match reply
      case NetworkError(m) => Failure(m)
      case Reply(status, statusText, body) =>
        if status == 204 then Success(())
        else if !IsOk(status) then
          var em := if body.Json? then body.errorMessage else None;
          Failure(ErrorMessage(em, "Failed to delete event: " + statusText))
        else Success(())
  }

  /** `listCalendarEvents(...)`: never throws; signed out or any failure gives `[]`,
      a 2xx JSON body gives its `items`, or `[]` when it has none. */
  function ListCalendarEvents<E>(token: Option<string>, reply: HttpReply<Option<seq<E>>>): (r: seq<E>)
    ensures !Truthy(token) ==> r == []
    ensures reply.NetworkError? || (reply.Reply? && (!IsOk(reply.status) || reply.body.NotJson?)) ==> r == []
    ensures r != [] ==> Truthy(token) && reply.Reply? && IsOk(reply.status) && reply.body.Json?
                        && reply.body.payload == Some(r)
    ensures Truthy(token) && reply.Reply? && IsOk(reply.status) && reply.body.Json? ==>
      r == reply.body.payload.GetOr([])
  {
    if !Truthy(token) then []
    else match reply
      case NetworkError(_) => []
      case Reply(status, _, body) =>
        if !IsOk(status) then []
        else match body
          case NotJson(_) => []
          case Json(_, items) => items.GetOr([])
  }

  /** After `signOut()` every write is refused before any request and the list is empty. */
  lemma SignedOutGateway<E>(s: GoogleSession, id: string, reply: HttpReply<E>,
                            deleteReply: HttpReply<()>, listReply: HttpReply<Option<seq<E>>>)
    requires !s.IsSignedIn()
    ensures AddCalendarEvent(s.token, reply) == Failure(NotSignedInMessage)
    ensures UpdateCalendarEvent(s.token, id, reply) == Failure(NotSignedInMessage)
    ensures DeleteCalendarEvent(s.token, id, deleteReply) == Failure(NotSignedInMessage)
    ensures ListCalendarEvents(s.token, listReply) == []
  {
  }
}
