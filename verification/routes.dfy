/**
 * The three routers as data: for each method and path, the middleware run
 * in order before the controller action. `RunChain` plays a chain out on a
 * request: the first middleware that does not call `next()` decides the
 * answer, and an error passed to `next` ends at the final error handler.
 */
module Routes {
  import opened Common
  import opened Zod
  import opened Http
  import opened Auth
  import opened Validation
  import opened Controllers
  import StudentSchema
  import TeacherSchema
  import CourseSchema

  datatype Verb = Get | Post | Put | Delete

  datatype Middleware = Authenticate | Authorize(roles: seq<Role>) | Validate(schema: ObjectSchema)

  datatype Route = Route(verb: Verb, path: string, chain: seq<Middleware>, action: Action)

  /** `studentRoutes`. */
  const StudentRoutes: seq<Route> := [
    Route(Get, "/", [Authenticate], GetAll),
    Route(Get, "/:id", [Authenticate], GetOne),
    Route(Post, "/", [Authenticate, Authorize([Admin]), Validate(StudentSchema.CreateStudentSchema)], Create),
    Route(Put, "/:id", [Authenticate, Validate(StudentSchema.UpdateStudentSchema)], Update),
    Route(Put, "/:id/enroll-course", [Authenticate, Validate(StudentSchema.EnrollSchema)], EnrollCourse),
    Route(Put, "/:id/remove-course", [Authenticate, Validate(StudentSchema.EnrollSchema)], RemoveCourse),
    Route(Delete, "/:id", [Authenticate, Authorize([Admin])], Remove)
  ]

  /** `teacherRoutes`: its GET routes authenticate too. */
  const TeacherRoutes: seq<Route> := [
    Route(Get, "/", [Authenticate], GetAll),
    Route(Get, "/:id", [Authenticate], GetOne),
    Route(Post, "/", [Authenticate, Authorize([Admin]), Validate(TeacherSchema.CreateTeacherSchema)], Create),
    Route(Put, "/:id", [Authenticate, Validate(TeacherSchema.UpdateTeacherSchema)], Update),
    Route(Put, "/:id/enroll-course", [Authenticate, Validate(TeacherSchema.EnrollSchema)], EnrollCourse),
    Route(Put, "/:id/remove-course", [Authenticate, Validate(TeacherSchema.EnrollSchema)], RemoveCourse),
    Route(Delete, "/:id", [Authenticate, Authorize([Admin])], Remove)
  ]

  /** `courseRoutes`: its PUT names both roles. */
  const CourseRoutes: seq<Route> := [
    Route(Get, "/", [Authenticate], GetAll),
    Route(Get, "/:id", [Authenticate], GetOne),
    Route(Post, "/", [Authenticate, Authorize([Admin]), Validate(CourseSchema.CreateCourseSchema)], Create),
    Route(Put, "/:id", [Authenticate, Authorize([User, Admin]), Validate(CourseSchema.UpdateCourseSchema)], Update),
    Route(Delete, "/:id", [Authenticate, Authorize([Admin])], Remove)
  ]

  /** One middleware applied to the request state; none of them touches the header or the path id. */
  function Apply(m: Middleware, s: RequestState, verify: string -> Verdict, isEmail: string -> bool): (step: Step)
    ensures step.Continue? ==> step.state.id == s.id && step.state.authorization == s.authorization
    ensures step.Continue? && m.Authenticate? ==> step.state.user.Some?
    ensures step.Continue? && !m.Authenticate? ==> step.state.user == s.user
    ensures step.Fail? && step.fault.AppError? ==> step.fault.statusCode == 401 || step.fault.statusCode == 403
    ensures step.Reply? ==> step.response.status == 400
  {
    match m
    case Authenticate => Auth.Authenticate(s, verify)
    case Authorize(roles) => Auth.Authorize(roles, s)
    case Validate(schema) => Validation.Validate(schema, s, isEmail)
  }

  /** Where a chain leaves a request: handed to the controller, or already answered. */
  datatype Gate = Admitted(state: RequestState) | Stopped(response: Response)

  /** The chain played out: each middleware in turn until one answers or passes an error. */
  function RunChain(chain: seq<Middleware>, s: RequestState, verify: string -> Verdict, isEmail: string -> bool): (g: Gate)
    ensures g.Admitted? <==> ChainAdmits(chain, s, verify, isEmail)
    ensures g.Admitted? ==> g.state.id == s.id && g.state.authorization == s.authorization
    ensures g.Admitted? && (Authenticate in chain || s.user.Some?) ==> g.state.user.Some?
    ensures g.Stopped? ==> g.response.status in {400, 401, 403, 500}
    decreases |chain|
  {
    if |chain| == 0 then Admitted(s)
    else
      match Apply(chain[0], s, verify, isEmail)
      case Continue(next) =>
        assert Authenticate in chain && chain[0] != Authenticate ==> Authenticate in chain[1..];
        RunChain(chain[1..], next, verify, isEmail)
      case Fail(f) => Stopped(ErrorBoundary(f))
      case Reply(r) => Stopped(r)
  }

  /** Every middleware of the chain calls `next()`. */
  predicate ChainAdmits(chain: seq<Middleware>, s: RequestState, verify: string -> Verdict, isEmail: string -> bool)
    decreases |chain|
  {
    |chain| == 0 ||
    (Apply(chain[0], s, verify, isEmail).Continue? &&
     ChainAdmits(chain[1..], Apply(chain[0], s, verify, isEmail).state, verify, isEmail))
  }

  /**
   * The chain run on a request in place, each middleware's `next()` calling
   * the rest: the request ends up as the chain leaves it when admitted, and
   * the header and path id are never touched.
   */
  method Pass(req: Request, chain: seq<Middleware>, verify: string -> Verdict, isEmail: string -> bool) returns (g: Gate)
    modifies req
    decreases |chain|
    ensures g == RunChain(chain, old(req.State()), verify, isEmail)
    ensures g.Admitted? ==> req.State() == g.state
    ensures req.authorization == old(req.authorization) && req.id == old(req.id)
  {
    if |chain| == 0 {
      return Admitted(req.State());
    }
    var step: Step;
    match chain[0] {
      case Authenticate =>
        step := AuthenticateRequest(req, verify);
      case Authorize(roles) =>
        step := Auth.Authorize(roles, req.State());
      case Validate(schema) =>
        step := ValidateRequest(req, schema, isEmail);
    }
    assert step == Apply(chain[0], old(req.State()), verify, isEmail);
    match step
    case Continue(_) =>
      g := Pass(req, chain[1..], verify, isEmail);
    case Fail(f) =>
      g := Stopped(ErrorBoundary(f));
    case Reply(r) =>
      g := Stopped(r);
  }

  /** All the routes of the API. */
  const AllRoutes: seq<Route> := StudentRoutes + TeacherRoutes + CourseRoutes

  /**
   * The shape every route shares: `authenticate` comes first, a GET runs
   * nothing else and a DELETE adds only the admin check.
   */
  predicate Guarded(route: Route)
  {
    |route.chain| > 0 && route.chain[0] == Authenticate &&
    (route.verb == Get ==> route.chain == [Authenticate]) &&
    (route.verb == Delete ==> route.chain == [Authenticate, Authorize([Admin])])
  }

  lemma StudentRoutesGuarded(route: Route)
    requires route in StudentRoutes
    ensures Guarded(route)
  {
  }

  lemma TeacherRoutesGuarded(route: Route)
    requires route in TeacherRoutes
    ensures Guarded(route)
  {
  }

  lemma CourseRoutesGuarded(route: Route)
    requires route in CourseRoutes
    ensures Guarded(route)
  {
  }

  lemma RoutesGuarded(route: Route)
    requires route in AllRoutes
    ensures Guarded(route)
  {
    if route in StudentRoutes {
      StudentRoutesGuarded(route);
    } else if route in TeacherRoutes {
      TeacherRoutesGuarded(route);
    } else {
      CourseRoutesGuarded(route);
    }
  }

  /**
   * Every student, teacher and course route, the teacher GETs included, starts with
   * `authenticate`: without a bearer token nothing reaches a controller and
   * the answer is 401 "No token provided. Please log in.".
   */
  lemma NoTokenNoEntry(route: Route, s: RequestState, verify: string -> Verdict, isEmail: string -> bool)
    requires route in AllRoutes
    requires BearerToken(s.authorization).None?
    ensures RunChain(route.chain, s, verify, isEmail) ==
      Stopped(Response(401, ErrorReport(401, "No token provided. Please log in.")))
  {
    RoutesGuarded(route);
    NoTokenStops(route, s, verify, isEmail);
  }

  lemma NoTokenStops(route: Route, s: RequestState, verify: string -> Verdict, isEmail: string -> bool)
    requires Guarded(route)
    requires BearerToken(s.authorization).None?
    ensures RunChain(route.chain, s, verify, isEmail) == Stopped(Response(401, ErrorReport(401, NoToken.message)))
  {
  }

  /**
   * The order in which a creation is refused: first 401 (no or bad token),
   * then 403 (not an admin), then 400 (invalid body); only an admin with a
   * valid body reaches the controller, with the parsed body.
   */
  lemma CreateStatusOrder(schema: ObjectSchema, s: RequestState, verify: string -> Verdict, isEmail: string -> bool)
    ensures var g := RunChain([Authenticate, Authorize([Admin]), Validate(schema)], s, verify, isEmail);
      var auth := Auth.Authenticate(s, verify);
      (auth.Fail? ==> g == Stopped(ErrorBoundary(auth.fault))) &&
      (auth.Continue? && auth.state.user.value.role != Admin ==>
         g == Stopped(Response(403, ErrorReport(403, "You do not have permission to perform this action")))) &&
      (auth.Continue? && auth.state.user.value.role == Admin ==> g == GateOf(Validation.Validate(schema, auth.state, isEmail)))
  {
    var chain := [Authenticate, Authorize([Admin]), Validate(schema)];
    var auth := Auth.Authenticate(s, verify);
    if auth.Continue? {
      assert chain[1..] == [Authorize([Admin]), Validate(schema)];
      assert chain[1..][1..] == [Validate(schema)];
      if auth.state.user.value.role == Admin {
        ValidateLast(schema, auth.state, verify, isEmail);
      }
    }
  }

  /** What a chain made of one validation leaves. */
  function GateOf(step: Step): Gate
    requires !step.Fail?
  {
    if step.Continue? then Admitted(step.state) else Stopped(step.response)
  }

  /** A chain that ends with a validation admits with the parsed body, or gives the validation's answer. */
  lemma ValidateLast(schema: ObjectSchema, s: RequestState, verify: string -> Verdict, isEmail: string -> bool)
    ensures RunChain([Validate(schema)], s, verify, isEmail) == GateOf(Validation.Validate(schema, s, isEmail))
  {
    assert [Validate(schema)][1..] == [];
  }

  /** With a valid token, an invalid body and a plain user, a creation is refused 403, not 400. */
  lemma ForbiddenBeforeInvalid(s: RequestState, verify: string -> Verdict, isEmail: string -> bool)
    requires BearerToken(s.authorization).Some?
    requires verify(BearerToken(s.authorization).value).Decoded?
    requires verify(BearerToken(s.authorization).value).role == User
    ensures RunChain(StudentRoutes[2].chain, s, verify, isEmail).response.status == 403
    ensures RunChain(TeacherRoutes[2].chain, s, verify, isEmail).response.status == 403
    ensures RunChain(CourseRoutes[2].chain, s, verify, isEmail).response.status == 403
  {
    CreateStatusOrder(StudentSchema.CreateStudentSchema, s, verify, isEmail);
    CreateStatusOrder(TeacherSchema.CreateTeacherSchema, s, verify, isEmail);
    CreateStatusOrder(CourseSchema.CreateCourseSchema, s, verify, isEmail);
  }

  /** `authenticate` then a validation: any authenticated caller with a valid body gets through. */
  lemma AuthenticateThenValidate(schema: ObjectSchema, s: RequestState, verify: string -> Verdict, isEmail: string -> bool)
    ensures var a := Auth.Authenticate(s, verify);
      RunChain([Authenticate, Validate(schema)], s, verify, isEmail).Admitted? <==>
        a.Continue? && SafeParse(schema, a.state.body, isEmail).Accepted?
  {
    var chain := [Authenticate, Validate(schema)];
    var a := Auth.Authenticate(s, verify);
    if a.Continue? {
      assert chain[1..] == [Validate(schema)];
      ValidateLast(schema, a.state, verify, isEmail);
    }
  }

  /** `authorize` naming both roles adds nothing to `authenticate`. */
  lemma AuthenticateAnyRoleThenValidate(schema: ObjectSchema, s: RequestState, verify: string -> Verdict, isEmail: string -> bool)
    ensures var a := Auth.Authenticate(s, verify);
      RunChain([Authenticate, Authorize([User, Admin]), Validate(schema)], s, verify, isEmail).Admitted? <==>
        a.Continue? && SafeParse(schema, a.state.body, isEmail).Accepted?
  {
    var chain := [Authenticate, Authorize([User, Admin]), Validate(schema)];
    var a := Auth.Authenticate(s, verify);
    if a.Continue? {
      AuthorizeEveryRole(a.state);
      assert chain[1..] == [Authorize([User, Admin]), Validate(schema)];
      assert chain[1..][1..] == [Validate(schema)];
      ValidateLast(schema, a.state, verify, isEmail);
    }
  }

  /**
   * The student and teacher updates check no role, and the course update
   * lists both: any authenticated caller, whatever their role, with a
   * valid body gets through to the controller.
   */
  lemma UpdatesOpenToEveryRole(s: RequestState, verify: string -> Verdict, isEmail: string -> bool)
    ensures var a := Auth.Authenticate(s, verify);
      (RunChain(StudentRoutes[3].chain, s, verify, isEmail).Admitted? <==>
         a.Continue? && SafeParse(StudentSchema.UpdateStudentSchema, a.state.body, isEmail).Accepted?) &&
      (RunChain(TeacherRoutes[3].chain, s, verify, isEmail).Admitted? <==>
         a.Continue? && SafeParse(TeacherSchema.UpdateTeacherSchema, a.state.body, isEmail).Accepted?) &&
      (RunChain(CourseRoutes[3].chain, s, verify, isEmail).Admitted? <==>
         a.Continue? && SafeParse(CourseSchema.UpdateCourseSchema, a.state.body, isEmail).Accepted?)
  {
    AuthenticateThenValidate(StudentSchema.UpdateStudentSchema, s, verify, isEmail);
    AuthenticateThenValidate(TeacherSchema.UpdateTeacherSchema, s, verify, isEmail);
    AuthenticateAnyRoleThenValidate(CourseSchema.UpdateCourseSchema, s, verify, isEmail);
  }

  /**
   * Enrolling and unenrolling need a token and a string `courseId`, and no
   * role: any authenticated caller may change any student's or teacher's
   * course list.
   */
  lemma EnrolmentNeedsOnlyAToken(s: RequestState, verify: string -> Verdict, isEmail: string -> bool)
    ensures var a := Auth.Authenticate(s, verify);
      var ok := a.Continue? && a.state.body.Obj? && "courseId" in a.state.body.fields && a.state.body.fields["courseId"].Str?;
      (RunChain(StudentRoutes[4].chain, s, verify, isEmail).Admitted? <==> ok) &&
      (RunChain(StudentRoutes[5].chain, s, verify, isEmail).Admitted? <==> ok) &&
      (RunChain(TeacherRoutes[4].chain, s, verify, isEmail).Admitted? <==> ok) &&
      (RunChain(TeacherRoutes[5].chain, s, verify, isEmail).Admitted? <==> ok)
  {
    var a := Auth.Authenticate(s, verify);
    AuthenticateThenValidate(StudentSchema.EnrollSchema, s, verify, isEmail);
    AuthenticateThenValidate(TeacherSchema.EnrollSchema, s, verify, isEmail);
    if a.Continue? {
      StudentSchema.EnrollMeaning(a.state.body, isEmail);
      TeacherSchema.EnrollMeaning(a.state.body, isEmail);
    }
  }

  /** Reading is open to every authenticated caller and to nobody else. */
  lemma ReadsNeedOnlyAToken(route: Route, s: RequestState, verify: string -> Verdict, isEmail: string -> bool)
    requires route in AllRoutes && route.verb == Get
    ensures RunChain(route.chain, s, verify, isEmail).Admitted? <==> Auth.Authenticate(s, verify).Continue?
  {
    RoutesGuarded(route);
  }

  /** Deletion is for admins only and reads no body. */
  lemma DeletesNeedAnAdmin(route: Route, s: RequestState, verify: string -> Verdict, isEmail: string -> bool)
    requires route in AllRoutes && route.verb == Delete
    ensures var a := Auth.Authenticate(s, verify);
      RunChain(route.chain, s, verify, isEmail).Admitted? <==> a.Continue? && a.state.user.value.role == Admin
    ensures RunChain(route.chain, s, verify, isEmail).Admitted? ==>
      RunChain(route.chain, s, verify, isEmail).state.body == s.body
  {
    RoutesGuarded(route);
    assert route.chain[1..] == [Authorize([Admin])] && route.chain[1..][1..] == [];
  }

  // ---------------------------------------------------------------------
  // One request end to end: router, middleware chain, controller
  // ---------------------------------------------------------------------

  /** The three routers, by the resource they serve. */
  datatype Resource = Students | Teachers | Courses

  function RoutesOf(res: Resource): seq<Route>
  {
    match res
    case Students => StudentRoutes
    case Teachers => TeacherRoutes
    case Courses => CourseRoutes
  }

  lemma RoutesOfGuarded(res: Resource, route: Route)
    requires route in RoutesOf(res)
    ensures Guarded(route)
  {
    match res
    case Students => StudentRoutesGuarded(route);
    case Teachers => TeacherRoutesGuarded(route);
    case Courses => CourseRoutesGuarded(route);
  }

  /** The controller a resource's routes call. */
  function Handle(res: Resource, action: Action, outcome: Result<Payload>): Response
    requires res.Courses? ==> action != EnrollCourse && action != RemoveCourse
  {
    match res
    case Students => StudentRespond(action, outcome)
    case Teachers => TeacherRespond(action, outcome)
    case Courses => CourseRespond(action, outcome)
  }

  /**
   * A request on one of a router's routes, answered: the chain runs first,
   * and only a request it admits reaches the controller, which answers with
   * what the service returns for the request as the chain left it. The
   * service is a parameter here; the service classes model what it does.
   * A refused request is answered 400, 401, 403 or 500, never by the
   * controller, and one without a bearer token always gets the same 401.
   */
  function Serve(res: Resource, route: Route, s: RequestState, verify: string -> Verdict, isEmail: string -> bool,
                 service: RequestState -> Result<Payload>): (resp: Response)
    requires route in RoutesOf(res)
    ensures !ChainAdmits(route.chain, s, verify, isEmail) ==> resp.status in {400, 401, 403, 500}
    ensures BearerToken(s.authorization).None? ==>
      resp == Response(401, ErrorReport(401, "No token provided. Please log in."))
  {
    RoutesOfGuarded(res, route);
    assert BearerToken(s.authorization).None? ==>
      RunChain(route.chain, s, verify, isEmail) == Stopped(Response(401, ErrorReport(401, NoToken.message))) by {
      if BearerToken(s.authorization).None? {
        NoTokenStops(route, s, verify, isEmail);
      }
    }
    match RunChain(route.chain, s, verify, isEmail)
    case Stopped(r) => r
    case Admitted(state) => Handle(res, route.action, service(state))
  }

  /**
   * No creation is ever answered 409, whatever the service does: a refused
   * request is 400, 401, 403 or 500, a service error becomes 400 and a
   * success is 201.
   */
  lemma CreateNeverConflicts(res: Resource, s: RequestState, verify: string -> Verdict, isEmail: string -> bool,
                             service: RequestState -> Result<Payload>)
    ensures var resp := Serve(res, RoutesOf(res)[2], s, verify, isEmail, service);
      resp.status in {400, 401, 403, 500, 201}
  {
    var route := RoutesOf(res)[2];
    assert route.action == Create;
    var g := RunChain(route.chain, s, verify, isEmail);
    if g.Admitted? {
      match service(g.state)
      case Ok(p) =>
      case Err(f) => CreateErrorsAreBadRequests(f);
    }
  }

  /**
   * An update the chain admits and the service refuses with an `AppError`
   * (a taken email or code, 409; a missing record, 404) is answered with
   * that error's own status and message.
   */
  lemma UpdateErrorsReachTheClient(res: Resource, s: RequestState, verify: string -> Verdict, isEmail: string -> bool,
                                   service: RequestState -> Result<Payload>, code: nat, message: string)
    requires ChainAdmits(RoutesOf(res)[3].chain, s, verify, isEmail)
    requires service(RunChain(RoutesOf(res)[3].chain, s, verify, isEmail).state) == Err(AppError(code, message))
    ensures Serve(res, RoutesOf(res)[3], s, verify, isEmail, service) == Response(code, Message(message))
  {
    assert RoutesOf(res)[3].action == Update;
    AppErrorsKeepTheirStatus(Update, code, message);
  }

  /**
   * An admitted enrolment or unenrolment always carries a string
   * `courseId`, and the controller hands the service the path id as the
   * owner and that `courseId` as the course.
   */
  lemma AdmittedEnrolmentTarget(route: Route, s: RequestState, verify: string -> Verdict, isEmail: string -> bool)
    requires route in [StudentRoutes[4], StudentRoutes[5], TeacherRoutes[4], TeacherRoutes[5]]
    requires ChainAdmits(route.chain, s, verify, isEmail)
    ensures s.body.Obj? && "courseId" in s.body.fields && s.body.fields["courseId"].Str?
    ensures EnrolmentTarget(RunChain(route.chain, s, verify, isEmail).state) ==
      Some((s.id, s.body.fields["courseId"].s))
  {
    var schema := StudentSchema.EnrollSchema;
    assert TeacherSchema.EnrollSchema == schema;
    assert route.chain == [Authenticate, Validate(schema)];
    var a := Auth.Authenticate(s, verify);
    AuthenticateThenValidate(schema, s, verify, isEmail);
    assert a.Continue? && a.state.body == s.body;
    assert route.chain[1..] == [Validate(schema)];
    ValidateLast(schema, a.state, verify, isEmail);
    StudentSchema.EnrollMeaning(s.body, isEmail);
  }
}
