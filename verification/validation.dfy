/**
 * The `validate(schema)` middleware: parse the body against a schema; on
 * success replace the body with the parsed data and go on, on failure
 * answer 400 with one `{ field, message }` entry per issue.
 */
module Validation {
  import opened Common
  import opened Strings
  import opened Zod
  import opened Http
  import StudentSchema

  /** `Array.isArray(e.path) ? e.path.join('.') : String(e.path)`. */
  function FieldName(path: IssuePath): string
  {
    match path
    case Segments(keys) => Join(keys, '.')
    case Scalar(text) => text
  }

  /**
   * The `field` names a path unambiguously: splitting it at the dots gives
   * the path back, as long as it has a segment and no segment has a dot.
   */
  lemma FieldNameRecoversPath(keys: seq<string>)
    requires |keys| >= 1
    requires forall i :: 0 <= i < |keys| ==> '.' !in keys[i]
    ensures Split(FieldName(Segments(keys)), '.') == keys
  {
    SplitJoin(keys, '.');
  }

  /** `result.error.issues.map(...)`: one entry per issue, in issue order. */
  function ErrorsOf(issues: seq<Issue>): (errors: seq<FieldError>)
    ensures |errors| == |issues|
    ensures forall i :: 0 <= i < |issues| ==>
      errors[i] == FieldError(FieldName(issues[i].path), issues[i].message)
  {
    if |issues| == 0 then []
    else [FieldError(FieldName(issues[0].path), issues[0].message)] + ErrorsOf(issues[1..])
  }

  /** The body of the 400 answer. */
  const ValidationError := "Validation Error"

  /**
   * The middleware's decision: go on with the parsed data as the new body
   * exactly when the schema accepts the body, otherwise answer 400 with the
   * issues, leaving the request as it was.
   */
  function Validate(schema: ObjectSchema, s: RequestState, isEmail: string -> bool): (step: Step)
    ensures !step.Fail?
    ensures step.Continue? <==> SafeParse(schema, s.body, isEmail).Accepted?
    ensures step.Continue? ==> step.state == s.(body := Obj(SafeParse(schema, s.body, isEmail).data))
    ensures step.Reply? ==>
      step.response.status == 400 &&
      step.response.body == ValidationReport(ValidationError, ErrorsOf(SafeParse(schema, s.body, isEmail).issues))
  {
    match SafeParse(schema, s.body, isEmail)
    case Accepted(data) => Continue(s.(body := Obj(data)))
    case Rejected(issues) => Reply(Response(400, ValidationReport(ValidationError, ErrorsOf(issues))))
  }

  /** The middleware run on a request: on success `req.body` is overwritten, nothing else is touched. */
  method ValidateRequest(req: Request, schema: ObjectSchema, isEmail: string -> bool) returns (step: Step)
    modifies req
    ensures step == Validate(schema, old(req.State()), isEmail)
    ensures step.Continue? ==> req.State() == step.state
    ensures !step.Continue? ==> req.State() == old(req.State())
  {
    var parsed := SafeParse(schema, req.body, isEmail);
    if parsed.Accepted? {
      req.body := Obj(parsed.data);
      step := Continue(req.State());
    } else {
      step := Reply(Response(400, ValidationReport(ValidationError, ErrorsOf(parsed.issues))));
    }
  }

  /** A validated request passes the same validation again unchanged: validating twice is validating once. */
  lemma ValidateIdempotent(schema: ObjectSchema, s: RequestState, isEmail: string -> bool)
    requires DistinctKeys(schema)
    requires Validate(schema, s, isEmail).Continue?
    ensures var once := Validate(schema, s, isEmail).state;
      Validate(schema, once, isEmail) == Continue(once)
  {
    ReparseIsIdentity(schema, s.body, isEmail);
  }

  /** A request that is not an object is answered 400 with one error at the empty field name. */
  lemma NonObjectBodyRejected(schema: ObjectSchema, s: RequestState, isEmail: string -> bool)
    requires !s.body.Obj?
    ensures Validate(schema, s, isEmail) ==
      Reply(Response(400, ValidationReport(ValidationError, [FieldError("", "Expected object, received " + TypeName(s.body))])))
  {
    assert ErrorsOf([Issue(Segments([]), "Expected object, received " + TypeName(s.body))])
      == [FieldError("", "Expected object, received " + TypeName(s.body))];
  }

  /** An empty student body is answered with the three missing fields, named as in the schema, in order. */
  lemma EmptyStudentBodyErrors(s: RequestState, isEmail: string -> bool)
    requires s.body == Obj(map[])
    ensures Validate(StudentSchema.CreateStudentSchema, s, isEmail) ==
      Reply(Response(400, ValidationReport(ValidationError, [
        FieldError("name", "Name is required"),
        FieldError("email", "Email is required"),
        FieldError("age", "Age is required")])))
  {
    StudentSchema.EmptyBodyReportsEveryField(isEmail);
  }
}
