/** The session store of AuthStore.swift as a value: its published fields, one
    function per atomic main-actor step, and one function per public operation
    built from those steps. The class in Store performs the same steps on its
    fields and is proved to follow these functions. */
module Transitions {
  import opened Swift
  import opened Models

  /** Everything the store publishes, plus the toast clears it has scheduled. */
  datatype SessionState = SessionState(
    user: Option<User>,
    isAuthenticated: bool,
    isLoading: bool,
    isCheckingAuth: bool,
    error: Option<string>,
    engineers: seq<Engineer>,
    complaints: seq<Complaint>,
    showToast: bool,
    toastMessage: string,
    /** One entry per 3-second clear scheduled by ShowToast and not yet fired,
        earliest first, holding the message whose display scheduled it. All
        clears have the same delay, so they fire in this order. */
    pendingClears: seq<string>
  )

  /** The invariant every step keeps: the session is authenticated exactly when a
      user is stored, a visible toast always has a clear pending, and a hidden
      toast has an empty message. */
  predicate Valid(s: SessionState)
  {
    && (s.isAuthenticated <==> s.user.Some?)
    && (s.showToast ==> s.pendingClears != [])
    && (!s.showToast ==> s.toastMessage == "")
  }

  /** The store as constructed: no user, checking the session, nothing fetched. */
  function Initial(): (s: SessionState)
    ensures Valid(s)
    ensures s.user.None? && !s.isAuthenticated && s.isCheckingAuth && !s.isLoading
    ensures s.error.None? && s.engineers == [] && s.complaints == [] && s.pendingClears == []
  {
    SessionState(None, false, false, true, None, [], [], false, "", [])
  }

  // ---------------------------------------------------------------------------
  // Shorthands for the contracts below
  // ---------------------------------------------------------------------------

  /** `t` shows toast `m`, and exactly one clear, for `m`, was scheduled since `s`. */
  predicate Toasted(s: SessionState, t: SessionState, m: string)
  {
    t.showToast && t.toastMessage == m && t.pendingClears == s.pendingClears + [m]
  }

  /** The toast slot and its scheduled clears are as in `s`. */
  predicate ToastUntouched(s: SessionState, t: SessionState)
  {
    t.showToast == s.showToast && t.toastMessage == s.toastMessage && t.pendingClears == s.pendingClears
  }

  /** The fetched collections and the check-auth flag are as in `s`. */
  predicate DataUntouched(s: SessionState, t: SessionState)
  {
    t.engineers == s.engineers && t.complaints == s.complaints && t.isCheckingAuth == s.isCheckingAuth
  }

  /** Only the toast slot and its scheduled clears may differ from `s`. */
  predicate OnlyToastChanged(s: SessionState, t: SessionState)
  {
    t == s.(showToast := t.showToast, toastMessage := t.toastMessage, pendingClears := t.pendingClears)
  }

  // ---------------------------------------------------------------------------
  // The atomic steps: one per main-actor block of the source
  // ---------------------------------------------------------------------------

  /** setLoading: a new request starts, clearing the last error. */
  function SetLoading(s: SessionState, loading: bool): (t: SessionState)
    ensures Valid(s) ==> Valid(t)
  {
    s.(isLoading := loading, error := None)
  }

  /** setCheckingAuth: a session check starts, clearing the last error. */
  function SetCheckingAuth(s: SessionState, checking: bool): (t: SessionState)
    ensures Valid(s) ==> Valid(t)
  {
    s.(isCheckingAuth := checking, error := None)
  }

  /** showToast: fills the single toast slot and schedules a clear 3 seconds later.
      An earlier message still on display is overwritten, and its clear stays
      scheduled. */
  function ShowToast(s: SessionState, message: string): (t: SessionState)
    ensures Valid(s) ==> Valid(t)
    ensures Toasted(s, t, message)
    ensures OnlyToastChanged(s, t)
  {
    s.(toastMessage := message, showToast := true, pendingClears := s.pendingClears + [message])
  }

  /** The earliest scheduled clear fires: it hides the toast and empties the
      message whatever is on display, even a message shown after the one that
      scheduled it. */
  function FireTimer(s: SessionState): (t: SessionState)
    requires s.pendingClears != []
    ensures Valid(s) ==> Valid(t)
    ensures !t.showToast && t.toastMessage == ""
    ensures t.pendingClears == s.pendingClears[1..]
    ensures OnlyToastChanged(s, t)
  {
    s.(showToast := false, toastMessage := "", pendingClears := s.pendingClears[1..])
  }

  /** The text a failed signup or login shows and stores as `error`: the thrown
      error's description, or the response's message, or a fixed fallback. */
  function FailureText(reply: AuthReply): (text: string)
    ensures reply.Thrown? ==> text == reply.description
    ensures reply.Replied? && reply.response.message.Some? ==> text == reply.response.message.value
    ensures reply.Replied? && reply.response.message.None? ==> text == "Authentication failed"
  {
    match reply
    case Thrown(description) => description
    case Replied(response) => response.message.GetOr("Authentication failed")
  }

  /** handleAuthResponse: a decoded answer to /signup or /login arrived. */
  function HandleAuthResponse(s: SessionState, response: AuthResponse, successMessage: string): (t: SessionState)
    ensures Valid(s) ==> Valid(t)
  {
    var done := s.(isLoading := false);
    if response.success && response.user.Some? then
      ShowToast(done.(user := response.user, isAuthenticated := true), successMessage)
    else
      var message := response.message.GetOr("Authentication failed");
      ShowToast(done.(error := Some(message)), message)
  }

  /** handleError: a request threw; its description becomes the error and the toast. */
  function HandleError(s: SessionState, message: string): (t: SessionState)
    ensures Valid(s) ==> Valid(t)
  {
    ShowToast(s.(isLoading := false, error := Some(message)), message)
  }

  /** The main-actor block that ends a delivered /logout request. */
  function SignedOut(s: SessionState): (t: SessionState)
    ensures Valid(s) ==> Valid(t)
  {
    ShowToast(s.(user := None, isAuthenticated := false, isLoading := false), "Logged out successfully")
  }

  /** The main-actor blocks that end a /check-auth request, on a decoded answer
      and on a thrown error alike. */
  function AuthChecked(s: SessionState, reply: AuthReply): (t: SessionState)
    ensures Valid(s) ==> Valid(t)
  {
    var done := s.(isCheckingAuth := false);
    if Accepted(reply) then done.(user := reply.response.user, isAuthenticated := true)
    else done.(user := None, isAuthenticated := false)
  }

  /** The toast both admin fetches show when they fail; the complaints fetch
      reuses the engineers wording. */
  const FetchFailureText := "Failed to fetch engineers"

  // ---------------------------------------------------------------------------
  // The public operations
  // ---------------------------------------------------------------------------

  /** signup and login: start loading, then handle the reply. A reply that
      signs in stores exactly its user and toasts `successMessage`; anything
      else, including a thrown error, keeps the previous user and
      authentication, stores the failure text as `error` and toasts it. */
  function Authenticate(s: SessionState, reply: AuthReply, successMessage: string): (t: SessionState)
    ensures Valid(s) ==> Valid(t)
    ensures !t.isLoading
    ensures DataUntouched(s, t)
    ensures Accepted(reply) ==>
      && t.user == reply.response.user && t.isAuthenticated && t.error.None?
      && Toasted(s, t, successMessage)
    ensures !Accepted(reply) ==>
      && t.user == s.user && t.isAuthenticated == s.isAuthenticated
      && t.error == Some(FailureText(reply))
      && Toasted(s, t, FailureText(reply))
  {
    var started := SetLoading(s, true);
    match reply
    case Replied(response) => HandleAuthResponse(started, response, successMessage)
    case Thrown(description) => HandleError(started, description)
  }

  /** logout: a delivered request signs the user out locally; an undelivered one
      only reports "Error logging out" and keeps the session as it was. */
  function Logout(s: SessionState, delivery: Delivery): (t: SessionState)
    ensures Valid(s) ==> Valid(t)
    ensures !t.isLoading
    ensures DataUntouched(s, t)
    ensures delivery == Delivered ==>
      && t.user.None? && !t.isAuthenticated && t.error.None?
      && Toasted(s, t, "Logged out successfully")
    ensures delivery == Undelivered ==>
      && t.user == s.user && t.isAuthenticated == s.isAuthenticated
      && t.error == Some("Error logging out")
      && Toasted(s, t, "Error logging out")
  {
    var started := SetLoading(s, true);
    match delivery
    case Delivered => SignedOut(started)
    case Undelivered => HandleError(started, "Error logging out")
  }

  /** checkAuth: always ends with the check finished and no error; the session is
      authenticated exactly when the reply signs in, and then holds its user.
      It never touches the toast, the loading flag or the collections. */
  function CheckAuth(s: SessionState, reply: AuthReply): (t: SessionState)
    ensures Valid(s) ==> Valid(t)
    ensures !t.isCheckingAuth && t.error.None?
    ensures t.isAuthenticated <==> Accepted(reply)
    ensures t.user == if Accepted(reply) then reply.response.user else None
    ensures ToastUntouched(s, t)
    ensures t.isLoading == s.isLoading && t.engineers == s.engineers && t.complaints == s.complaints
  {
    AuthChecked(SetCheckingAuth(s, true), reply)
  }

  /** getAllEngineersForAdmin: a decoded list replaces the engineers wholesale,
      in wire order, and nothing else; a failure leaves every field but the toast
      as it was and toasts FetchFailureText. */
  function FetchEngineers(s: SessionState, fetched: Fetched<Engineer>): (t: SessionState)
    ensures Valid(s) ==> Valid(t)
    ensures fetched.Decoded? ==> t == s.(engineers := fetched.items)
    ensures fetched.FetchFailed? ==> OnlyToastChanged(s, t) && Toasted(s, t, FetchFailureText)
  {
    match fetched
    case Decoded(items) => s.(engineers := items)
    case FetchFailed => ShowToast(s, FetchFailureText)
  }

  /** getAllComplainsForAdmin: as FetchEngineers, for the complaints. */
  function FetchComplaints(s: SessionState, fetched: Fetched<Complaint>): (t: SessionState)
    ensures Valid(s) ==> Valid(t)
    ensures fetched.Decoded? ==> t == s.(complaints := fetched.items)
    ensures fetched.FetchFailed? ==> OnlyToastChanged(s, t) && Toasted(s, t, FetchFailureText)
  {
    match fetched
    case Decoded(items) => s.(complaints := items)
    case FetchFailed => ShowToast(s, FetchFailureText)
  }

  /** The fixed engineers EngineerPreviewData installs. */
  const PreviewEngineers: seq<Engineer> := [
    Engineer(1, "John Doe", "john@example.com", "Electrical", "Available", Some("7302611179")),
    Engineer(2, "Jane Smith", "jane@example.com", "Plumbing", "Busy", Some("7302611179")),
    Engineer(3, "Mike Johnson", "mike@example.com", "Internet", "Available", Some("7302611179"))
  ]

  /** The fixed complaints ComplaintPreviewData installs. */
  const PreviewComplaints: seq<Complaint> := [
    Complaint(1, "electrical", "lan not working", "In Progress", "dev.ruhela120@gmail.com",
              "2025-04-26 14:23:45", "Medium", "BH-3", "7302611179", "747"),
    Complaint(2, "electrical", "lan not working", "Submitted", "dev.ruhela120@gmail.com",
              "2025-04-26 14:23:45", "Medium", "BH-3", "7302611179", "747")
  ]

  // ---------------------------------------------------------------------------
  // Request bodies
  // ---------------------------------------------------------------------------

  /** The /signup body: the four credentials always, `roll` and `specialization`
      only when present (nil values are dropped before serialising). */
  function SignupBody(name: string, email: string, password: string, role: string,
                      roll: Option<string>, specialization: Option<string>): (body: map<string, string>)
    ensures body.Keys == {"name", "email", "password", "role"}
                         + (if roll.Some? then {"roll"} else {})
                         + (if specialization.Some? then {"specialization"} else {})
    ensures body["name"] == name && body["email"] == email
    ensures body["password"] == password && body["role"] == role
    ensures roll.Some? ==> body["roll"] == roll.value
    ensures specialization.Some? ==> body["specialization"] == specialization.value
  {
    CompactMapValues(map[
      "name" := Some(name),
      "email" := Some(email),
      "password" := Some(password),
      "role" := Some(role),
      "roll" := roll,
      "specialization" := specialization
    ])
  }

  /** The /login body: exactly the email, password and role. */
  function LoginBody(email: string, password: string, role: string): (body: map<string, string>)
    ensures body.Keys == {"email", "password", "role"}
    ensures body["email"] == email && body["password"] == password && body["role"] == role
  {
    map["email" := email, "password" := password, "role" := role]
  }

  /** The login body is the signup body of a user with no roll and no
      specialization, without the name. */
  lemma LoginBodyIsSignupBodyWithoutName(name: string, email: string, password: string, role: string)
    ensures LoginBody(email, password, role) == SignupBody(name, email, password, role, None, None) - {"name"}
  {
    var l := LoginBody(email, password, role);
    var r := SignupBody(name, email, password, role, None, None) - {"name"};
    assert l.Keys == r.Keys;
  }

  // ---------------------------------------------------------------------------
  // Properties across several steps
  // ---------------------------------------------------------------------------

  /** Fires the `n` earliest scheduled clears, in order. */
  function FireTimers(s: SessionState, n: nat): (t: SessionState)
    requires n <= |s.pendingClears|
    ensures t.pendingClears == s.pendingClears[n..]
    ensures n > 0 ==> !t.showToast && t.toastMessage == ""
    ensures n == 0 ==> t == s
    ensures OnlyToastChanged(s, t)
    decreases n
  {
    if n == 0 then s else FireTimers(FireTimer(s), n - 1)
  }

  /** Every toast is eventually cleared: once all scheduled clears have fired,
      the slot is hidden and empty (for a toast shown with nothing else pending,
      that is the single clear 3 seconds after it). */
  lemma {:induction false} AllClearsBlankTheToast(s: SessionState)
    requires Valid(s)
    ensures var t := FireTimers(s, |s.pendingClears|);
      Valid(t) && !t.showToast && t.toastMessage == "" && t.pendingClears == []
    decreases |s.pendingClears|
  {
    if s.pendingClears != [] {
      AllClearsBlankTheToast(FireTimer(s));
    }
  }

  /** The stale-timer behaviour: when `b` is shown while `a` is still on
      display, the clear scheduled for `a` hides `b` although `b`'s own clear
      has not fired yet. */
  lemma StaleClearHidesNewerToast(s: SessionState, a: string, b: string)
    requires Valid(s)
    ensures var shown := ShowToast(ShowToast(s, a), b);
      var t := FireTimers(shown, |s.pendingClears| + 1);
      shown.showToast && shown.toastMessage == b &&
      !t.showToast && t.toastMessage == "" && t.pendingClears == [b]
  {
    var shown := ShowToast(ShowToast(s, a), b);
    assert shown.pendingClears[|s.pendingClears| + 1..] == [b];
  }

  /** The two admin fetches write disjoint collections and toast the same text on
      failure, so running them in either order ends in the same state. */
  lemma FetchesCommute(s: SessionState, engineers: Fetched<Engineer>, complaints: Fetched<Complaint>)
    ensures FetchComplaints(FetchEngineers(s, engineers), complaints)
         == FetchEngineers(FetchComplaints(s, complaints), engineers)
  {
  }

  /** The sign-in scenario: a login answered with user 3 as admin signs the user
      in with exactly that user and schedules a single "Login successful" toast. */
  lemma LoginScenario(s: SessionState)
    requires Valid(s)
    ensures var u := User(3, "A", "a@x.com", "admin", None, None);
      var t := Authenticate(s, Replied(AuthResponse(true, None, Some(u))), "Login successful");
      t.isAuthenticated && t.user == Some(u) && t.user.value.id == 3 &&
      t.toastMessage == "Login successful" && t.pendingClears == s.pendingClears + ["Login successful"]
  {
  }

  /** A rejected login keeps a signed-out session signed out, with the server's
      message as error and toast. */
  lemma RejectedLoginScenario(s: SessionState, m: string)
    requires Valid(s) && !s.isAuthenticated
    ensures var t := Authenticate(s, Replied(AuthResponse(false, Some(m), None)), "Login successful");
      !t.isAuthenticated && t.user.None? && t.error == Some(m) && Toasted(s, t, m)
  {
  }
}
