/** The AuthStore class of AuthStore.swift: one object whose methods update its
    published fields in place. Each method performs one main-actor block (or a
    public operation made of several) and is proved to move the fields exactly as
    the matching function of Transitions moves a SessionState. Network results
    arrive as parameters. */
module Store {
  import opened Swift
  import opened Models
  import Transitions

  class AuthStore {
    var user: Option<User>
    var isAuthenticated: bool
    var isLoading: bool
    var isCheckingAuth: bool
    var error: Option<string>
    var engineers: seq<Engineer>
    var complaints: seq<Complaint>
    var showToast: bool
    var toastMessage: string
    /** The toast clears scheduled on the main queue and not yet run, earliest
        first, each with the message that scheduled it. */
    var pendingClears: seq<string>

    /** The published fields as one value. */
    function State(): Transitions.SessionState
      reads this
    {
      Transitions.SessionState(user, isAuthenticated, isLoading, isCheckingAuth, error,
                               engineers, complaints, showToast, toastMessage, pendingClears)
    }

    ghost predicate Valid()
      reads this
    {
      Transitions.Valid(State())
    }

    constructor ()
      ensures Valid()
      ensures State() == Transitions.Initial()
    {
      user := None;
      isAuthenticated := false;
      isLoading := false;
      isCheckingAuth := true;
      error := None;
      engineers := [];
      complaints := [];
      showToast := false;
      toastMessage := "";
      pendingClears := [];
    }

    method EngineerPreviewData()
      requires Valid()
      modifies this
      ensures Valid()
      ensures engineers == Transitions.PreviewEngineers
      ensures State() == old(State()).(engineers := Transitions.PreviewEngineers)
    {
      engineers := Transitions.PreviewEngineers;
    }

    method ComplaintPreviewData()
      requires Valid()
      modifies this
      ensures Valid()
      ensures complaints == Transitions.PreviewComplaints
      ensures State() == old(State()).(complaints := Transitions.PreviewComplaints)
    {
      complaints := Transitions.PreviewComplaints;
    }

    method SetLoading(loading: bool)
      requires Valid()
      modifies this
      ensures Valid()
      ensures State() == Transitions.SetLoading(old(State()), loading)
    {
      isLoading := loading;
      error := None;
    }

    method SetCheckingAuth(checking: bool)
      requires Valid()
      modifies this
      ensures Valid()
      ensures State() == Transitions.SetCheckingAuth(old(State()), checking)
    {
      isCheckingAuth := checking;
      error := None;
    }

    method ShowToast(message: string)
      requires Valid()
      modifies this
      ensures Valid()
      ensures State() == Transitions.ShowToast(old(State()), message)
    {
      toastMessage := message;
      showToast := true;
      pendingClears := pendingClears + [message];
    }

    /** The main queue runs the earliest scheduled clear. */
    method FireTimer()
      requires Valid() && pendingClears != []
      modifies this
      ensures Valid()
      ensures State() == Transitions.FireTimer(old(State()))
    {
      showToast := false;
      toastMessage := "";
      pendingClears := pendingClears[1..];
    }

    method HandleAuthResponse(response: AuthResponse, successMessage: string)
      requires Valid()
      modifies this
      ensures Valid()
      ensures State() == Transitions.HandleAuthResponse(old(State()), response, successMessage)
    {
      isLoading := false;
      if response.success && response.user.Some? {
        user := response.user;
        isAuthenticated := true;
        ShowToast(successMessage);
      } else {
        error := Some(response.message.GetOr("Authentication failed"));
        ShowToast(error.value);
      }
    }

    method HandleError(message: string)
      requires Valid()
      modifies this
      ensures Valid()
      ensures State() == Transitions.HandleError(old(State()), message)
    {
      isLoading := false;
      error := Some(message);
      ShowToast(message);
    }

    /** signup; `body` is what is posted, `reply` how the request ended. */
    method Signup(name: string, email: string, password: string, role: string,
                  roll: Option<string>, specialization: Option<string>, reply: AuthReply)
      returns (body: map<string, string>)
      requires Valid()
      modifies this
      ensures Valid()
      ensures body == Transitions.SignupBody(name, email, password, role, roll, specialization)
      ensures State() == Transitions.Authenticate(old(State()), reply, "Signup successful")
    {
      SetLoading(true);
      body := Transitions.SignupBody(name, email, password, role, roll, specialization);
      match reply
      case Replied(response) => HandleAuthResponse(response, "Signup successful");
      case Thrown(description) => HandleError(description);
    }

    /** login; `body` is what is posted, `reply` how the request ended. */
    method Login(email: string, password: string, role: string, reply: AuthReply)
      returns (body: map<string, string>)
      requires Valid()
      modifies this
      ensures Valid()
      ensures body == Transitions.LoginBody(email, password, role)
      ensures State() == Transitions.Authenticate(old(State()), reply, "Login successful")
    {
      SetLoading(true);
      body := Transitions.LoginBody(email, password, role);
      match reply
      case Replied(response) => HandleAuthResponse(response, "Login successful");
      case Thrown(description) => HandleError(description);
    }

    method Logout(delivery: Delivery)
      requires Valid()
      modifies this
      ensures Valid()
      ensures State() == Transitions.Logout(old(State()), delivery)
    {
      SetLoading(true);
      match delivery
      case Delivered =>
        user := None;
        isAuthenticated := false;
        isLoading := false;
        ShowToast("Logged out successfully");
      case Undelivered =>
        HandleError("Error logging out");
    }

    method CheckAuth(reply: AuthReply)
      requires Valid()
      modifies this
      ensures Valid()
      ensures State() == Transitions.CheckAuth(old(State()), reply)
    {
      SetCheckingAuth(true);
      isCheckingAuth := false;
      if Accepted(reply) {
        user := reply.response.user;
        isAuthenticated := true;
      } else {
        user := None;
        isAuthenticated := false;
      }
    }

    method GetAllEngineersForAdmin(fetched: Fetched<Engineer>)
      requires Valid()
      modifies this
      ensures Valid()
      ensures State() == Transitions.FetchEngineers(old(State()), fetched)
    {
      match fetched
      case Decoded(items) => engineers := items;
      case FetchFailed => ShowToast(Transitions.FetchFailureText);
    }

    method GetAllComplainsForAdmin(fetched: Fetched<Complaint>)
      requires Valid()
      modifies this
      ensures Valid()
      ensures State() == Transitions.FetchComplaints(old(State()), fetched)
    {
      match fetched
      case Decoded(items) => complaints := items;
      case FetchFailed => ShowToast(Transitions.FetchFailureText);
    }
  }
}
