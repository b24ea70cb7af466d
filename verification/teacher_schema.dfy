/**
 * The teacher schemas: creation, the partial update and the enrolment body.
 */
module TeacherSchema {
  import opened Common
  import opened Zod
  import opened Records

  /** `createTeacherSchema`. */
  const CreateTeacherSchema: ObjectSchema := [
    Field("name", Text([MinLength(2, "Name must be at least 2 characters")]), Some("Name is required"), false, None),
    Field("email", Text([EmailFormat("Enter a valid email address")]), Some("Email is required"), false, None)
  ]

  /** `updateTeacherSchema = createTeacherSchema.partial()`. */
  const UpdateTeacherSchema: ObjectSchema := Partial(CreateTeacherSchema)

  /** `enrollSchema`: a `courseId` string, any string. */
  const EnrollSchema: ObjectSchema := [Field("courseId", Text([]), None, false, None)]

  predicate GoodName(v: Json) { v.Str? && |v.s| >= 2 }

  predicate GoodEmail(v: Json, isEmail: string -> bool) { v.Str? && isEmail(v.s) }

  /** What each field of the teacher schemas demands of a value, unfolded. */
  lemma CheckFacts(v: Json, isEmail: string -> bool)
    ensures Conforms(CreateTeacherSchema[0].kind, v, isEmail) <==> GoodName(v)
    ensures Conforms(CreateTeacherSchema[1].kind, v, isEmail) <==> GoodEmail(v, isEmail)
  {
    if v.Str? {
      OneStringCheck(v.s, MinLength(2, "Name must be at least 2 characters"), isEmail);
      OneStringCheck(v.s, EmailFormat("Enter a valid email address"), isEmail);
    }
  }

  /**
   * A creation body is accepted exactly when it carries a name of at least
   * two characters and an email the email predicate accepts; the parsed
   * data keeps those two keys and nothing else.
   */
  lemma CreateTeacherMeaning(body: Json, isEmail: string -> bool)
    ensures var r := SafeParse(CreateTeacherSchema, body, isEmail);
      r.Accepted? <==>
        body.Obj? &&
        "name" in body.fields && GoodName(body.fields["name"]) &&
        "email" in body.fields && GoodEmail(body.fields["email"], isEmail)
    ensures var r := SafeParse(CreateTeacherSchema, body, isEmail);
      r.Accepted? ==> r.data == map["name" := body.fields["name"], "email" := body.fields["email"]]
  {
    var c := CreateTeacherSchema;
    assert c[0].key == "name" && c[1].key == "email";
    assert DistinctKeys(c) && AllRequired(c);
    RequiredTwo(c, body, isEmail);
    if body.Obj? {
      var b := body.fields;
      if "name" in b { CheckFacts(b["name"], isEmail); }
      if "email" in b { CheckFacts(b["email"], isEmail); }
    }
  }

  /** An update body may leave out either field; a present field is held to the creation rule. */
  lemma UpdateTeacherMeaning(body: Json, isEmail: string -> bool)
    ensures var r := SafeParse(UpdateTeacherSchema, body, isEmail);
      r.Accepted? <==>
        body.Obj? &&
        ("name" in body.fields ==> GoodName(body.fields["name"])) &&
        ("email" in body.fields ==> GoodEmail(body.fields["email"], isEmail))
    ensures var r := SafeParse(UpdateTeacherSchema, body, isEmail);
      r.Accepted? ==> r.data == Only(body.fields, {"name", "email"})
  {
    var c := CreateTeacherSchema;
    assert c[0].key == "name" && c[1].key == "email";
    assert DistinctKeys(c);
    PartialTwo(c, body, isEmail);
    if body.Obj? {
      var b := body.fields;
      if "name" in b { CheckFacts(b["name"], isEmail); }
      if "email" in b { CheckFacts(b["email"], isEmail); }
    }
  }

  /** The enrolment body is accepted exactly when `courseId` is a string. */
  lemma EnrollMeaning(body: Json, isEmail: string -> bool)
    ensures var r := SafeParse(EnrollSchema, body, isEmail);
      r.Accepted? <==> body.Obj? && "courseId" in body.fields && body.fields["courseId"].Str?
    ensures var r := SafeParse(EnrollSchema, body, isEmail);
      r.Accepted? ==> r.data == map["courseId" := body.fields["courseId"]]
  {
    var s := EnrollSchema;
    var r := SafeParse(s, body, isEmail);
    if body.Obj? && r.Accepted? {
      ParseFieldsData(s, body.fields, isEmail);
      SameFieldValuesSameData(s, r.data, map["courseId" := body.fields["courseId"]]);
    }
  }

  function TeacherInputOf(data: map<string, Json>): Option<TeacherInput>
  {
    if "name" in data && data["name"].Str? && "email" in data && data["email"].Str?
    then Some(TeacherInput(data["name"].s, data["email"].s))
    else None
  }

  function TeacherPatchOf(data: map<string, Json>): TeacherPatch
  {
    TeacherPatch(
      if "name" in data && data["name"].Str? then Some(data["name"].s) else None,
      if "email" in data && data["email"].Str? then Some(data["email"].s) else None)
  }

  /** Accepted creation data always reads back as a teacher input that meets the rules. */
  lemma CreateTeacherInput(body: Json, isEmail: string -> bool)
    requires SafeParse(CreateTeacherSchema, body, isEmail).Accepted?
    ensures var input := TeacherInputOf(SafeParse(CreateTeacherSchema, body, isEmail).data);
      input.Some? && |input.value.name| >= 2 && isEmail(input.value.email)
  {
    CreateTeacherMeaning(body, isEmail);
  }

  /** Accepted update data reads back as the patch of exactly the fields sent. */
  lemma UpdateTeacherInput(body: Json, isEmail: string -> bool)
    requires SafeParse(UpdateTeacherSchema, body, isEmail).Accepted?
    ensures var p := TeacherPatchOf(SafeParse(UpdateTeacherSchema, body, isEmail).data);
      (p.name.Some? <==> "name" in body.fields) &&
      (p.email.Some? <==> "email" in body.fields) &&
      (p.name.Some? ==> |p.name.value| >= 2) &&
      (p.email.Some? ==> isEmail(p.email.value))
  {
    UpdateTeacherMeaning(body, isEmail);
  }
}
