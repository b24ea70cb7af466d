/**
 * The student schemas: creation, the partial update and the enrolment body,
 * with their meaning stated field by field.
 */
module StudentSchema {
  import opened Common
  import opened Zod
  import opened Records

  /** `createStudentSchema`. */
  const CreateStudentSchema: ObjectSchema := [
    Field("name", Text([MinLength(2, "Name must be at least 2 characters")]), Some("Name is required"), false, None),
    Field("email", Text([EmailFormat("Invalid email address")]), Some("Email is required"), false, None),
    Field("age", Number(AgeChecks), Some("Age is required"), false, None)
  ]

  /** `.positive().max(120)`, with zod's own messages. */
  const AgeChecks: seq<NumberCheck> := [Positive("Number must be greater than 0"),
                                        AtMost(120.0, "Number must be less than or equal to 120")]

  /** `updateStudentSchema = createStudentSchema.partial()`. */
  const UpdateStudentSchema: ObjectSchema := Partial(CreateStudentSchema)

  /** `enrollSchema`: a `courseId` string, any string. */
  const EnrollSchema: ObjectSchema := [Field("courseId", Text([]), None, false, None)]

  predicate GoodName(v: Json) { v.Str? && |v.s| >= 2 }

  predicate GoodEmail(v: Json, isEmail: string -> bool) { v.Str? && isEmail(v.s) }

  predicate GoodAge(v: Json) { v.Num? && 0.0 < v.n <= 120.0 }

  /** What each field of the student schemas demands of a value, unfolded. */
  lemma CheckFacts(v: Json, isEmail: string -> bool)
    ensures Conforms(CreateStudentSchema[0].kind, v, isEmail) <==> GoodName(v)
    ensures Conforms(CreateStudentSchema[1].kind, v, isEmail) <==> GoodEmail(v, isEmail)
    ensures Conforms(CreateStudentSchema[2].kind, v, isEmail) <==> GoodAge(v)
  {
    if v.Str? {
      OneStringCheck(v.s, MinLength(2, "Name must be at least 2 characters"), isEmail);
      OneStringCheck(v.s, EmailFormat("Invalid email address"), isEmail);
    }
    if v.Num? {
      TwoNumberChecks(v.n, AgeChecks[0], AgeChecks[1]);
    }
  }

  /**
   * A creation body is accepted exactly when it carries a name of at least
   * two characters, an email the email predicate accepts and an age in
   * (0, 120]; the parsed data keeps those three keys and nothing else.
   */
  lemma CreateStudentMeaning(body: Json, isEmail: string -> bool)
    ensures var r := SafeParse(CreateStudentSchema, body, isEmail);
      r.Accepted? <==>
        body.Obj? &&
        "name" in body.fields && GoodName(body.fields["name"]) &&
        "email" in body.fields && GoodEmail(body.fields["email"], isEmail) &&
        "age" in body.fields && GoodAge(body.fields["age"])
    ensures var r := SafeParse(CreateStudentSchema, body, isEmail);
      r.Accepted? ==>
        r.data == map["name" := body.fields["name"], "email" := body.fields["email"], "age" := body.fields["age"]]
  {
    var c := CreateStudentSchema;
    assert c[0].key == "name" && c[1].key == "email" && c[2].key == "age";
    assert DistinctKeys(c) && AllRequired(c);
    RequiredThree(c, body, isEmail);
    if body.Obj? {
      var b := body.fields;
      if "name" in b { CheckFacts(b["name"], isEmail); }
      if "email" in b { CheckFacts(b["email"], isEmail); }
      if "age" in b { CheckFacts(b["age"], isEmail); }
    }
  }

  /**
   * An update body may leave out any field, but a field that is present is
   * held to the creation rule; the parsed data keeps only the fields sent.
   */
  lemma UpdateStudentMeaning(body: Json, isEmail: string -> bool)
    ensures var r := SafeParse(UpdateStudentSchema, body, isEmail);
      r.Accepted? <==>
        body.Obj? &&
        ("name" in body.fields ==> GoodName(body.fields["name"])) &&
        ("email" in body.fields ==> GoodEmail(body.fields["email"], isEmail)) &&
        ("age" in body.fields ==> GoodAge(body.fields["age"]))
    ensures var r := SafeParse(UpdateStudentSchema, body, isEmail);
      r.Accepted? ==> r.data == Only(body.fields, {"name", "email", "age"})
  {
    var c := CreateStudentSchema;
    assert c[0].key == "name" && c[1].key == "email" && c[2].key == "age";
    assert DistinctKeys(c);
    PartialThree(c, body, isEmail);
    if body.Obj? {
      var b := body.fields;
      if "name" in b { CheckFacts(b["name"], isEmail); }
      if "email" in b { CheckFacts(b["email"], isEmail); }
      if "age" in b { CheckFacts(b["age"], isEmail); }
    }
  }

  /** The enrolment body is accepted exactly when `courseId` is a string, whatever string. */
  lemma EnrollMeaning(body: Json, isEmail: string -> bool)
    ensures var r := SafeParse(EnrollSchema, body, isEmail);
      r.Accepted? <==> body.Obj? && "courseId" in body.fields && body.fields["courseId"].Str?
    ensures var r := SafeParse(EnrollSchema, body, isEmail);
      r.Accepted? ==> r.data == map["courseId" := body.fields["courseId"]]
  {
    var s := EnrollSchema;
    var r := SafeParse(s, body, isEmail);
    if body.Obj? && r.Accepted? {
      ParseFieldsData(s, body.fields, isEmail);
      SameFieldValuesSameData(s, r.data, map["courseId" := body.fields["courseId"]]);
    }
  }

  /** Every violation is reported in one pass: an empty body names all three missing fields, in order. */
  lemma EmptyBodyReportsEveryField(isEmail: string -> bool)
    ensures SafeParse(CreateStudentSchema, Obj(map[]), isEmail) == Rejected([
      Issue(Segments(["name"]), "Name is required"),
      Issue(Segments(["email"]), "Email is required"),
      Issue(Segments(["age"]), "Age is required")])
  {
    var s := CreateStudentSchema;
    var empty: map<string, Json> := map[];
    var nameIssue := Issue(Segments(["name"]), "Name is required");
    var emailIssue := Issue(Segments(["email"]), "Email is required");
    var ageIssue := Issue(Segments(["age"]), "Age is required");
    assert ParseField(s[0], empty, isEmail).0 == [nameIssue];
    assert ParseField(s[1], empty, isEmail).0 == [emailIssue];
    assert ParseField(s[2], empty, isEmail).0 == [ageIssue];
    IssuesOfThree(s, empty, isEmail);
  }

  /** The typed creation input read back from parsed data. */
  function StudentInputOf(data: map<string, Json>): Option<StudentInput>
  {
    if "name" in data && data["name"].Str? && "email" in data && data["email"].Str?
       && "age" in data && data["age"].Num?
    then Some(StudentInput(data["name"].s, data["email"].s, data["age"].n))
    else None
  }

  /** The typed update input read back from parsed data: only the fields present. */
  function StudentPatchOf(data: map<string, Json>): StudentPatch
  {
    StudentPatch(
      if "name" in data && data["name"].Str? then Some(data["name"].s) else None,
      if "email" in data && data["email"].Str? then Some(data["email"].s) else None,
      if "age" in data && data["age"].Num? then Some(data["age"].n) else None)
  }

  /** Accepted creation data always reads back as a student input that meets the rules. */
  lemma CreateStudentInput(body: Json, isEmail: string -> bool)
    requires SafeParse(CreateStudentSchema, body, isEmail).Accepted?
    ensures var input := StudentInputOf(SafeParse(CreateStudentSchema, body, isEmail).data);
      input.Some? && |input.value.name| >= 2 && isEmail(input.value.email) &&
      0.0 < input.value.age <= 120.0
  {
    CreateStudentMeaning(body, isEmail);
  }

  /** Accepted update data reads back as the patch of exactly the fields sent. */
  lemma UpdateStudentInput(body: Json, isEmail: string -> bool)
    requires SafeParse(UpdateStudentSchema, body, isEmail).Accepted?
    ensures var p := StudentPatchOf(SafeParse(UpdateStudentSchema, body, isEmail).data);
      (p.name.Some? <==> "name" in body.fields) &&
      (p.email.Some? <==> "email" in body.fields) &&
      (p.age.Some? <==> "age" in body.fields) &&
      (p.name.Some? ==> |p.name.value| >= 2) &&
      (p.email.Some? ==> isEmail(p.email.value)) &&
      (p.age.Some? ==> 0.0 < p.age.value <= 120.0)
  {
    UpdateStudentMeaning(body, isEmail);
  }
}
