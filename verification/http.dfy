/**
 * The request and response side of the API: the state a request carries
 * through its middleware chain, the JSON bodies the handlers send, and the
 * final error handler that turns a thrown error into a response.
 */
module Http {
  import opened Common
  import opened Records
  import opened Zod

  /** `req.user`: who the token says the caller is. */
  datatype Principal = Principal(id: Id, role: Role)

  /** One entry of the `errors` array of a validation failure. */
  datatype FieldError = FieldError(field: string, message: string)

  /** A user as the account endpoints show it: never with its password. */
  datatype AccountView = AccountView(id: Id, username: string, email: string, role: Role)

  /** What a successful handler sends back. */
  datatype Payload =
    | StudentDoc(student: Stored<Student>)
    | StudentList(students: map<Id, Student>)
    | TeacherDoc(teacher: Stored<Teacher>)
    | TeacherList(teachers: map<Id, Teacher>)
    | CourseDoc(course: Stored<Course>)
    | CourseList(courses: map<Id, Course>)
    | Session(note: string, token: string, account: AccountView)
    | Profile(account: AccountView)

  /** A JSON response body. */
  datatype Body =
    | Data(payload: Payload)
    | Message(message: string)
    /** `{ message, error }`: a handler's own fallback, with the error it caught. */
    | Failure(message: string, error: Fault)
    /** `{ statusCode, message }`: what the final error handler sends. */
    | ErrorReport(statusCode: nat, message: string)
    /** `{ message: 'Validation Error', errors }`. */
    | ValidationReport(message: string, errors: seq<FieldError>)

  datatype Response = Response(status: nat, body: Body)

  /**
   * The parts of a request the middleware reads or writes: the
   * `Authorization` header, `req.params.id`, `req.body` and `req.user`.
   */
  datatype RequestState = RequestState(authorization: Option<string>, id: Id, body: Json, user: Option<Principal>)

  /**
   * What one middleware does: calls `next()` with the (possibly updated)
   * request, calls `next(error)`, or answers itself.
   */
  datatype Step = Continue(state: RequestState) | Fail(fault: Fault) | Reply(response: Response)

  /**
   * The final error handler: status `err.statusCode || 500`, message
   * `err.message || 'Internal Server Error'`. Only an `AppError` has a status
   * code; a status code of 0 is falsy and also becomes 500.
   */
  function ErrorBoundary(f: Fault): (r: Response)
    ensures r.status != 0
    ensures f.AppError? && f.statusCode != 0 ==> r.status == f.statusCode
    ensures f.OtherError? ==> r.status == 500
    ensures r.body.ErrorReport? && r.body.statusCode == r.status
    ensures r.body.message != ""
    ensures f.message != "" ==> r.body.message == f.message
  {
    var status := if f.AppError? && f.statusCode != 0 then f.statusCode else 500;
    var message := if f.message != "" then f.message else "Internal Server Error";
    Response(status, ErrorReport(status, message))
  }

  /** An express request, whose body and user the middleware overwrite in place. */
  class Request {
    var authorization: Option<string>
    var id: Id
    var body: Json
    var user: Option<Principal>

    /** A request as it arrives: nobody has attached a user yet. */
    constructor (authorization: Option<string>, id: Id, body: Json)
      ensures State() == RequestState(authorization, id, body, None)
    {
      this.authorization := authorization;
      this.id := id;
      this.body := body;
      this.user := None;
    }

    function State(): RequestState
      reads this
    {
      RequestState(authorization, id, body, user)
    }
  }
}
