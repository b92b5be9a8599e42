/** The records the client decodes from the backend, and the outcomes of its
    network calls. Field names follow Dafny's style; the wire names are the
    snake_case ones given in the comments. */
module Models {
  import opened Swift

  /** The signed-in principal; `role` is "student", "engineer" or "admin" on the
      wire, but any string decodes. */
  datatype User = User(
    id: int,
    name: string,
    email: string,
    role: string,
    roll: Option<string>,           // students only
    specialization: Option<string>  // engineers only
  )

  datatype Engineer = Engineer(
    engineerId: int,                // engineer_id
    name: string,
    email: string,
    specialization: string,
    status: string,
    contact: Option<string>
  )
  {
    /** The `Identifiable` identity of an engineer is its wire id. */
    function Id(): int { engineerId }
  }

  datatype Complaint = Complaint(
    complaintId: int,               // complaint_id
    subject: string,
    description: string,
    status: string,
    email: string,
    createdAt: string,              // created_at
    priority: string,
    hostelNo: string,               // hostel_no
    phoneNo: string,                // phone_no
    roomNo: string                  // room_no
  )
  {
    /** The `Identifiable` identity of a complaint is its wire id. */
    function Id(): int { complaintId }
  }

  /** The body of every answer of /signup, /login and /check-auth. */
  datatype AuthResponse = AuthResponse(success: bool, message: Option<string>, user: Option<User>)

  /** How a request expecting an AuthResponse ended: a decoded response, or an
      error thrown by the transport or by the JSON decoder, with its
      `localizedDescription`. */
  datatype AuthReply = Replied(response: AuthResponse) | Thrown(description: string)

  /** How the /logout request ended; its response body is never read, so any
      HTTP answer counts as delivered. */
  datatype Delivery = Delivered | Undelivered

  /** How a collection fetch ended: the decoded list, in wire order, or a
      transport or decode error. */
  datatype Fetched<T> = Decoded(items: seq<T>) | FetchFailed

  /** A response that signs the user in: `success` is true and a user is present. */
  predicate Accepted(reply: AuthReply)
  {
    reply.Replied? && reply.response.success && reply.response.user.Some?
  }

  /** What a filter picker lets through: everything when it is on "All",
      otherwise exactly the value it names, compared case-sensitively. */
  predicate PickerAccepts(selection: string, value: string)
  {
    selection == "All" || value == selection
  }
}
