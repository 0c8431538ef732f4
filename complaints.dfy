/**
 * The help and complaint centre (src/pages/User/Complaints.jsx): a four-field complaint form
 * that is sent with the signed-in user's id, and whose screen switches to a confirmation
 * with the complaint's number until a timer resets it.
 */
module Complaints {
  import opened Wrappers
  import opened JsValues
  import Http
  import AuthContext

  datatype Field = Subject | Description | Category | Priority

  datatype ComplaintForm = ComplaintForm(subject: string, description: string, category: string, priority: string)

  const InitialForm := ComplaintForm("", "", "general", "medium")

  /** The request body: the user's id and the four fields of the form. */
  datatype ComplaintRequest = ComplaintRequest(userId: JsValue, subject: string, description: string, category: string, priority: string)

  /** The form with one field replaced, as `{ ...formData, [name]: value }` builds it. */
  function With(f: ComplaintForm, field: Field, value: string): (r: ComplaintForm)
    ensures field == Subject ==> r == f.(subject := value)
    ensures field == Description ==> r == f.(description := value)
    ensures field == Category ==> r == f.(category := value)
    ensures field == Priority ==> r == f.(priority := value)
  {
    match field
    case Subject => f.(subject := value)
    case Description => f.(description := value)
    case Category => f.(category := value)
    case Priority => f.(priority := value)
  }

  /**
   * `JSON.parse(localStorage.getItem("user"))`: a missing key reads as `null`, which parses
   * to `null`; a stored text is parsed, and may throw.
   */
  function StoredUser(store: AuthContext.Store, parse: JsonParse): Result<JsValue> {
    if AuthContext.UserKey in store then parse(store[AuthContext.UserKey]) else Success(Null)
  }

  /** The id the complaint is filed under, or the message of the error the check throws. */
  function UserId(store: AuthContext.Store, parse: JsonParse): (r: Result<JsValue>)
    ensures r.Success? ==> Truthy(r.value)
    ensures AuthContext.UserKey !in store ==> r == Failure("User not logged in")
    ensures StoredUser(store, parse).Failure? ==> r == Failure(StoredUser(store, parse).error)
    ensures var su := StoredUser(store, parse);
      su.Success? ==> r == if Truthy(su.value) && Truthy(Get(su.value, "id")) then Success(Get(su.value, "id")) else Failure("User not logged in")
  {
    match StoredUser(store, parse)
    case Failure(e) => Failure(e)
    case Success(user) =>
      if !Truthy(user) || !Truthy(Get(user, "id")) then Failure("User not logged in")
      else Success(Get(user, "id"))
  }

  /**
   * The complaint screen reads the user the session context stores: after a sign-in with a
   * user that has an id and whose text parses back, the complaint is filed under that id;
   * after a sign-out the user is not logged in.
   */
  lemma UserIdFromSession(store: AuthContext.Store, parse: JsonParse, serialize: AuthContext.Serialize, u: JsValue)
    requires parse(serialize(u)) == Success(u)
    ensures Truthy(u) && Truthy(Get(u, "id")) ==>
      UserId(store[AuthContext.UserKey := serialize(u)], parse) == Success(Get(u, "id"))
    ensures UserId(store - {AuthContext.UserKey}, parse) == Failure("User not logged in")
  {
  }

  /**
   * The outcome of the request: the new complaint's id, or the message of the error thrown
   * on the way. A response that is not ok throws the server's message or a fixed one; an ok
   * response must carry `complaint.complaint_id`.
   */
  function Outcome(reply: Http.Reply): Result<JsValue> {
    match reply
    case Thrown(message) => Failure(message)
    case Answered(ok, _, body) =>
      match body
      case Failure(e) => Failure(e)
      case Success(result) =>
        if !ok then
          match Prop(result, "message")
          case Failure(e) => Failure(e)
          case Success(message) => Failure(ToString(Or(message, Str("Failed to submit complaint"))))
        else
          match Prop(result, "complaint")
          case Failure(e) => Failure(e)
          case Success(complaint) => Prop(complaint, "complaint_id")
  }

  /** A response that is not ok fails with the server's message, or "Failed to submit complaint" when it has none. */
  lemma RejectedOutcome(status: int, result: JsValue)
    requires result.Obj?
    ensures var o := Outcome(Http.Answered(false, status, Success(result)));
      && o.Failure?
      && (Truthy(Get(result, "message")) ==> o.error == ToString(Get(result, "message")))
      && (!Truthy(Get(result, "message")) ==> o.error == "Failed to submit complaint")
  {
  }

  /** `err.message || "Failed to submit complaint. Please try again."`. */
  function ErrorText(message: string): (text: string)
    ensures text != ""
    ensures message != "" ==> text == message
  {
    if message == "" then "Failed to submit complaint. Please try again." else message
  }

  /** The state of the screen. */
  class HelpComplaintCenter {
    var formData: ComplaintForm
    var submitted: bool
    var loading: bool
    var error: Option<string>
    var complaintId: JsValue

    constructor()
      ensures formData == InitialForm && !submitted && !loading && error == None && complaintId == Null
    {
      formData := InitialForm;
      submitted := false;
      loading := false;
      error := None;
      complaintId := Null;
    }

    /** An input's change event: only the named field changes, and the error is cleared. */
    method HandleChange(field: Field, value: string)
      modifies this
      ensures formData == With(old(formData), field, value) && error == None
      ensures submitted == old(submitted) && loading == old(loading) && complaintId == old(complaintId)
    {
      formData := With(formData, field, value);
      error := None;
    }

    /**
     * The submit handler up to the request: loading starts and the error is cleared; without
     * a signed-in user with an id the error is set, loading ends and nothing is sent;
     * otherwise the request carries the user's id and the form's fields unchanged.
     */
    method BeginSubmit(store: AuthContext.Store, parse: JsonParse) returns (request: Option<ComplaintRequest>)
      modifies this
      ensures formData == old(formData) && submitted == old(submitted) && complaintId == old(complaintId)
      ensures UserId(store, parse).Failure? ==>
        request == None && error == Some(ErrorText(UserId(store, parse).error)) && !loading
      ensures UserId(store, parse).Success? ==>
        request == Some(ComplaintRequest(UserId(store, parse).value, formData.subject, formData.description, formData.category, formData.priority))
        && error == None && loading
    {
      loading := true;
      error := None;
      var userId := UserId(store, parse);
      if userId.Failure? {
        error := Some(ErrorText(userId.error));
        loading := false;
        return None;
      }
      request := Some(ComplaintRequest(userId.value, formData.subject, formData.description, formData.category, formData.priority));
    }

    /**
     * The request's outcome: on success the complaint's id is stored and the confirmation
     * shown; on failure the error is set. Loading ends either way.
     */
    method FinishSubmit(reply: Http.Reply)
      modifies this
      ensures !loading && formData == old(formData)
      ensures Outcome(reply).Success? ==>
        complaintId == Outcome(reply).value && submitted && error == old(error)
      ensures Outcome(reply).Failure? ==>
        error == Some(ErrorText(Outcome(reply).error)) && complaintId == old(complaintId) && submitted == old(submitted)
    {
      var outcome := Outcome(reply);
      if outcome.Success? {
        complaintId := outcome.value;
        submitted := true;
      } else {
        error := Some(ErrorText(outcome.error));
      }
      loading := false;
    }

    /** The timer after a success: the confirmation goes away and the form starts afresh. */
    method ResetAfterSuccess()
      modifies this
      ensures !submitted && complaintId == Null && formData == InitialForm
      ensures loading == old(loading) && error == old(error)
    {
      submitted := false;
      complaintId := Null;
      formData := InitialForm;
    }
  }
}
