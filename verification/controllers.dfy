/**
 * The student, teacher and course controllers. Each handler calls one
 * service operation and turns its outcome into a status and a JSON body;
 * the handlers differ only in how their `catch` treats an error.
 */
module Controllers {
  import opened Common
  import opened Records
  import opened Http
  import opened Zod

  /** The handlers a router can call. */
  datatype Action = Create | GetAll | GetOne | Update | EnrollCourse | RemoveCourse | Remove

  /**
   * How a `catch` answers: `AnyError` sends its fallback status for every
   * error; `AppErrorFirst` sends an `AppError`'s own status and message and
   * the fallback only for other errors.
   */
  datatype Catch = AnyError(status: nat) | AppErrorFirst(status: nat)

  function Caught(c: Catch, f: Fault, fallback: string): (resp: Response)
    ensures c.AppErrorFirst? && f.AppError? ==> resp == Response(f.statusCode, Message(f.message))
    ensures c.AnyError? || f.OtherError? ==> resp == Response(c.status, Failure(fallback, f))
  {
    if c.AppErrorFirst? && f.AppError? then Response(f.statusCode, Message(f.message))
    else Response(c.status, Failure(fallback, f))
  }

  /** The success answer: 201 for a creation, a confirmation for a deletion, the data otherwise. */
  function Succeeded(action: Action, p: Payload, deleted: string): Response
  {
    if action == Create then Response(201, Data(p))
    else if action == Remove then Response(200, Message(deleted))
    else Response(200, Data(p))
  }

  /**
   * The arguments `enrollCourse` and `removeCourse` hand to the service: the
   * owner from the path, the course from `req.body.courseId`; `None` when the
   * body carries no string `courseId`.
   */
  function EnrolmentTarget(s: RequestState): (t: Option<(Id, Id)>)
    ensures t.Some? <==> s.body.Obj? && "courseId" in s.body.fields && s.body.fields["courseId"].Str?
    ensures t.Some? ==> t.value.0 == s.id && Str(t.value.1) == s.body.fields["courseId"]
  {
    if s.body.Obj? && "courseId" in s.body.fields && s.body.fields["courseId"].Str?
    then Some((s.id, s.body.fields["courseId"].s))
    else None
  }

  /** Which `catch` each student handler has, and its fallback message. */
  function StudentCatch(action: Action): (Catch, string)
  {
    match action
    case Create => (AnyError(400), "Error creating student")
    case GetAll => (AnyError(500), "Error fetching students")
    case GetOne => (AppErrorFirst(500), "Error fetching student")
    case Update => (AppErrorFirst(400), "Error updating student")
    case EnrollCourse => (AppErrorFirst(500), "Error enrolling student")
    case RemoveCourse => (AppErrorFirst(500), "Error removing course")
    case Remove => (AppErrorFirst(500), "Error deleting student")
  }

  function TeacherCatch(action: Action): (Catch, string)
  {
    match action
    case Create => (AnyError(400), "Error creating teacher")
    case GetAll => (AnyError(500), "Error fetching teachers")
    case GetOne => (AppErrorFirst(500), "Error fetching teacher")
    case Update => (AppErrorFirst(400), "Error updating teacher")
    case EnrollCourse => (AppErrorFirst(500), "Error enrolling teacher")
    case RemoveCourse => (AppErrorFirst(500), "Error removing course")
    case Remove => (AppErrorFirst(500), "Error deleting teacher")
  }

  /** The course controller has no enrolment handlers; its `getAll` does check for an `AppError`. */
  function CourseCatch(action: Action): (Catch, string)
    requires action != EnrollCourse && action != RemoveCourse
  {
    match action
    case Create => (AnyError(400), "Error creating course")
    case GetAll => (AppErrorFirst(500), "Error fetching courses")
    case GetOne => (AppErrorFirst(500), "Error fetching course")
    case Update => (AppErrorFirst(400), "Error updating course")
    case Remove => (AppErrorFirst(500), "Error deleting course")
  }

  /** A student handler's answer to its service outcome. */
  function StudentRespond(action: Action, outcome: Result<Payload>): (resp: Response)
    ensures outcome.Ok? && action == Create ==> resp == Response(201, Data(outcome.value))
    ensures outcome.Ok? && action == Remove ==> resp == Response(200, Message("Student deleted successfully"))
    ensures outcome.Ok? && action != Create && action != Remove ==> resp == Response(200, Data(outcome.value))
    ensures outcome.Err? && action == Create ==> resp == Response(400, Failure("Error creating student", outcome.fault))
    ensures outcome.Err? && action == GetAll ==> resp == Response(500, Failure("Error fetching students", outcome.fault))
    ensures outcome.Err? && action != Create && action != GetAll && outcome.fault.AppError? ==>
      resp == Response(outcome.fault.statusCode, Message(outcome.fault.message))
    ensures outcome.Err? && action != Create && action != GetAll && outcome.fault.OtherError? ==>
      resp == Response(if action == Update then 400 else 500, Failure(StudentCatch(action).1, outcome.fault))
  {
    match outcome
    case Ok(p) => Succeeded(action, p, "Student deleted successfully")
    case Err(f) => Caught(StudentCatch(action).0, f, StudentCatch(action).1)
  }

  function TeacherRespond(action: Action, outcome: Result<Payload>): (resp: Response)
    ensures outcome.Ok? && action == Create ==> resp == Response(201, Data(outcome.value))
    ensures outcome.Ok? && action == Remove ==> resp == Response(200, Message("Teacher deleted successfully"))
    ensures outcome.Ok? && action != Create && action != Remove ==> resp == Response(200, Data(outcome.value))
    ensures outcome.Err? && action == Create ==> resp == Response(400, Failure("Error creating teacher", outcome.fault))
    ensures outcome.Err? && action == GetAll ==> resp == Response(500, Failure("Error fetching teachers", outcome.fault))
    ensures outcome.Err? && action != Create && action != GetAll && outcome.fault.AppError? ==>
      resp == Response(outcome.fault.statusCode, Message(outcome.fault.message))
    ensures outcome.Err? && action != Create && action != GetAll && outcome.fault.OtherError? ==>
      resp == Response(if action == Update then 400 else 500, Failure(TeacherCatch(action).1, outcome.fault))
  {
    match outcome
    case Ok(p) => Succeeded(action, p, "Teacher deleted successfully")
    case Err(f) => Caught(TeacherCatch(action).0, f, TeacherCatch(action).1)
  }

  function CourseRespond(action: Action, outcome: Result<Payload>): (resp: Response)
    requires action != EnrollCourse && action != RemoveCourse
    ensures outcome.Ok? && action == Create ==> resp == Response(201, Data(outcome.value))
    ensures outcome.Ok? && action == Remove ==> resp == Response(200, Message("Course deleted successfully"))
    ensures outcome.Ok? && action != Create && action != Remove ==> resp == Response(200, Data(outcome.value))
    ensures outcome.Err? && action == Create ==> resp == Response(400, Failure("Error creating course", outcome.fault))
    ensures outcome.Err? && action != Create && outcome.fault.AppError? ==>
      resp == Response(outcome.fault.statusCode, Message(outcome.fault.message))
    ensures outcome.Err? && action != Create && outcome.fault.OtherError? ==>
      resp == Response(if action == Update then 400 else 500, Failure(CourseCatch(action).1, outcome.fault))
  {
    match outcome
    case Ok(p) => Succeeded(action, p, "Course deleted successfully")
    case Err(f) => Caught(CourseCatch(action).0, f, CourseCatch(action).1)
  }

  /**
   * Every creation error is a 400, whoever threw it: the services' 409 for
   * a taken email or code never reaches the client as 409.
   */
  lemma CreateErrorsAreBadRequests(f: Fault)
    ensures StudentRespond(Create, Err(f)) == Response(400, Failure("Error creating student", f))
    ensures TeacherRespond(Create, Err(f)) == Response(400, Failure("Error creating teacher", f))
    ensures CourseRespond(Create, Err(f)) == Response(400, Failure("Error creating course", f))
    ensures StudentRespond(Create, Err(f)).status != 409
  {
  }

  /**
   * The handlers that look for an `AppError` answer with its own status and
   * message; a 404 from a service stays a 404.
   */
  lemma AppErrorsKeepTheirStatus(action: Action, code: nat, message: string)
    requires action in {GetOne, Update, EnrollCourse, RemoveCourse, Remove}
    ensures StudentRespond(action, Err(AppError(code, message))) == Response(code, Message(message))
    ensures TeacherRespond(action, Err(AppError(code, message))) == Response(code, Message(message))
    ensures action != EnrollCourse && action != RemoveCourse ==>
      CourseRespond(action, Err(AppError(code, message))) == Response(code, Message(message))
  {
  }

  /** Any other error is a 500, except in `update`, where it is a 400. */
  lemma OtherErrorsFallBack(action: Action, name: string, message: string)
    requires action in {GetOne, Update, EnrollCourse, RemoveCourse, Remove}
    ensures StudentRespond(action, Err(OtherError(name, message))).status == (if action == Update then 400 else 500)
    ensures TeacherRespond(action, Err(OtherError(name, message))).status == (if action == Update then 400 else 500)
    ensures action != EnrollCourse && action != RemoveCourse ==>
      CourseRespond(action, Err(OtherError(name, message))).status == (if action == Update then 400 else 500)
  {
  }

  /**
   * Listing students or teachers answers 500 for any error, an `AppError`
   * included; listing courses keeps an `AppError`'s status.
   */
  lemma ListingErrors(code: nat, message: string)
    ensures StudentRespond(GetAll, Err(AppError(code, message))).status == 500
    ensures TeacherRespond(GetAll, Err(AppError(code, message))).status == 500
    ensures CourseRespond(GetAll, Err(AppError(code, message))) == Response(code, Message(message))
  {
  }

  /** A successful deletion answers with a confirmation, not the deleted document. */
  lemma RemoveConfirms(p: Payload)
    ensures StudentRespond(Remove, Ok(p)) == Response(200, Message("Student deleted successfully"))
    ensures TeacherRespond(Remove, Ok(p)) == Response(200, Message("Teacher deleted successfully"))
    ensures CourseRespond(Remove, Ok(p)) == Response(200, Message("Course deleted successfully"))
  {
  }
}
