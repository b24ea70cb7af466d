/**
 * The stored entities (the Student, Teacher and Course models) and the pure record updates the
 * services apply to them: the partial merge of an update, `$addToSet` and
 * `$pull` on a `courses` array.
 */
module Records {
  import opened Common

  /** A Student document; `courses` holds Course ids in insertion order. */
  datatype Student = Student(name: string, email: string, age: real, courses: seq<Id>)

  /** A Teacher document. */
  datatype Teacher = Teacher(name: string, email: string, courses: seq<Id>)

  /** A Course document. */
  datatype Course = Course(title: string, code: string, credits: real)

  /** A document together with the id the database gave it. */
  datatype Stored<+T> = Stored(id: Id, record: T)

  /** The body of a student creation, as the create schema leaves it. */
  datatype StudentInput = StudentInput(name: string, email: string, age: real)

  /** The body of a student update: only the fields the caller sent. */
  datatype StudentPatch = StudentPatch(name: Option<string>, email: Option<string>, age: Option<real>)

  datatype TeacherInput = TeacherInput(name: string, email: string)

  datatype TeacherPatch = TeacherPatch(name: Option<string>, email: Option<string>)

  datatype CourseInput = CourseInput(title: string, code: string, credits: real)

  datatype CoursePatch = CoursePatch(title: Option<string>, code: Option<string>, credits: Option<real>)

  /** `Student.create(data)`: the array field starts empty. */
  function NewStudent(data: StudentInput): (s: Student)
    ensures s.courses == []
    ensures StudentInput(s.name, s.email, s.age) == data
  {
    Student(data.name, data.email, data.age, [])
  }

  function NewTeacher(data: TeacherInput): (t: Teacher)
    ensures t.courses == []
    ensures TeacherInput(t.name, t.email) == data
  {
    Teacher(data.name, data.email, [])
  }

  function NewCourse(data: CourseInput): (c: Course)
    ensures CourseInput(c.title, c.code, c.credits) == data
  {
    Course(data.title, data.code, data.credits)
  }

  /** `findByIdAndUpdate(id, data)`: the fields present in `data` replace the stored ones. */
  function PatchStudent(s: Student, p: StudentPatch): Student
  {
    Student(p.name.GetOr(s.name), p.email.GetOr(s.email), p.age.GetOr(s.age), s.courses)
  }

  function PatchTeacher(t: Teacher, p: TeacherPatch): Teacher
  {
    Teacher(p.name.GetOr(t.name), p.email.GetOr(t.email), t.courses)
  }

  function PatchCourse(c: Course, p: CoursePatch): Course
  {
    Course(p.title.GetOr(c.title), p.code.GetOr(c.code), p.credits.GetOr(c.credits))
  }

  /** The partial merge touches exactly the supplied fields and never the enrolment list. */
  lemma PatchStudentFrame(s: Student, p: StudentPatch)
    ensures PatchStudent(s, p).courses == s.courses
    ensures p.name.None? ==> PatchStudent(s, p).name == s.name
    ensures p.email.None? ==> PatchStudent(s, p).email == s.email
    ensures p.age.None? ==> PatchStudent(s, p).age == s.age
    ensures p.name.Some? ==> PatchStudent(s, p).name == p.name.value
    ensures p.email.Some? ==> PatchStudent(s, p).email == p.email.value
    ensures p.age.Some? ==> PatchStudent(s, p).age == p.age.value
    ensures PatchStudent(PatchStudent(s, p), p) == PatchStudent(s, p)
    ensures PatchStudent(s, StudentPatch(None, None, None)) == s
  {
  }

  lemma PatchTeacherFrame(t: Teacher, p: TeacherPatch)
    ensures PatchTeacher(t, p).courses == t.courses
    ensures p.name.None? ==> PatchTeacher(t, p).name == t.name
    ensures p.email.None? ==> PatchTeacher(t, p).email == t.email
    ensures p.name.Some? ==> PatchTeacher(t, p).name == p.name.value
    ensures p.email.Some? ==> PatchTeacher(t, p).email == p.email.value
    ensures PatchTeacher(PatchTeacher(t, p), p) == PatchTeacher(t, p)
    ensures PatchTeacher(t, TeacherPatch(None, None)) == t
  {
  }

  lemma PatchCourseFrame(c: Course, p: CoursePatch)
    ensures p.title.None? ==> PatchCourse(c, p).title == c.title
    ensures p.code.None? ==> PatchCourse(c, p).code == c.code
    ensures p.credits.None? ==> PatchCourse(c, p).credits == c.credits
    ensures p.title.Some? ==> PatchCourse(c, p).title == p.title.value
    ensures p.code.Some? ==> PatchCourse(c, p).code == p.code.value
    ensures p.credits.Some? ==> PatchCourse(c, p).credits == p.credits.value
    ensures PatchCourse(PatchCourse(c, p), p) == PatchCourse(c, p)
    ensures PatchCourse(c, CoursePatch(None, None, None)) == c
  {
  }

  // ---------------------------------------------------------------------
  // The enrolment list as a set: $addToSet and $pull
  // ---------------------------------------------------------------------

  /** No id occurs twice. */
  predicate NoDuplicates(cs: seq<Id>)
  {
    forall i, j :: 0 <= i < j < |cs| ==> cs[i] != cs[j]
  }

  /** `$addToSet: { courses: c }`: appends `c` unless it is already there. */
  function AddToSet(cs: seq<Id>, c: Id): (r: seq<Id>)
    ensures c in r
    ensures forall x :: x in r <==> x in cs || x == c
    ensures |cs| <= |r| <= |cs| + 1 && r[..|cs|] == cs
  {
    if c in cs then cs else cs + [c]
  }

  /** `$pull: { courses: c }`: removes every occurrence of `c`, keeping the order of the rest. */
  function Pull(cs: seq<Id>, c: Id): (r: seq<Id>)
    ensures c !in r
    ensures forall x :: x in r <==> x in cs && x != c
    ensures |r| <= |cs|
  {
    if |cs| == 0 then []
    else if cs[0] == c then Pull(cs[1..], c)
    else [cs[0]] + Pull(cs[1..], c)
  }

  /** Adding twice is adding once, and the list stays free of duplicates. */
  lemma AddToSetIdempotent(cs: seq<Id>, c: Id)
    ensures AddToSet(AddToSet(cs, c), c) == AddToSet(cs, c)
    ensures NoDuplicates(cs) ==> NoDuplicates(AddToSet(cs, c))
    ensures c in cs ==> AddToSet(cs, c) == cs
  {
  }

  /** Pulling an id that is not there changes nothing. */
  lemma {:induction false} PullAbsent(cs: seq<Id>, c: Id)
    requires c !in cs
    ensures Pull(cs, c) == cs
  {
    if |cs| > 0 {
      PullAbsent(cs[1..], c);
      assert [cs[0]] + cs[1..] == cs;
    }
  }

  /**
   * Pulling keeps the order of the rest: it distributes over concatenation,
   * so the result is `cs` with every `c` struck out and nothing reordered.
   */
  lemma {:induction false} PullKeepsOrder(xs: seq<Id>, ys: seq<Id>, c: Id)
    ensures Pull(xs + ys, c) == Pull(xs, c) + Pull(ys, c)
    ensures Pull([c], c) == [] && forall x :: x != c ==> Pull([x], c) == [x]
  {
    assert Pull([c], c) == Pull([], c);
    forall x | x != c ensures Pull([x], c) == [x] {
      assert Pull([x], c) == [x] + Pull([], c);
    }
    if |xs| > 0 {
      assert (xs + ys)[1..] == xs[1..] + ys;
      PullKeepsOrder(xs[1..], ys, c);
    } else {
      assert xs + ys == ys;
    }
  }

  /** Pulling twice is pulling once. */
  lemma PullIdempotent(cs: seq<Id>, c: Id)
    ensures Pull(Pull(cs, c), c) == Pull(cs, c)
  {
    PullAbsent(Pull(cs, c), c);
  }

  /** Pulling keeps a duplicate-free list duplicate-free and shortens it by one when the id was there. */
  lemma {:induction false} PullNoDuplicates(cs: seq<Id>, c: Id)
    requires NoDuplicates(cs)
    ensures NoDuplicates(Pull(cs, c))
    ensures |Pull(cs, c)| == if c in cs then |cs| - 1 else |cs|
  {
    if |cs| > 0 {
      assert NoDuplicates(cs[1..]);
      PullNoDuplicates(cs[1..], c);
      if cs[0] == c {
        assert c !in cs[1..];
        PullAbsent(cs[1..], c);
      } else {
        assert c in cs <==> c in cs[1..];
        var r := [cs[0]] + Pull(cs[1..], c);
        forall i, j | 0 <= i < j < |r| ensures r[i] != r[j] {
          if i == 0 {
            assert r[j] in Pull(cs[1..], c);
            assert cs[0] !in cs[1..];
          }
        }
      }
    }
  }

  /** Removing a course that was just enrolled, and had not been before, restores the list. */
  lemma EnrollThenRemove(cs: seq<Id>, c: Id)
    requires c !in cs
    ensures Pull(AddToSet(cs, c), c) == cs
  {
    PullAppendAbsent(cs, c);
  }

  lemma {:induction false} PullAppendAbsent(cs: seq<Id>, c: Id)
    requires c !in cs
    ensures Pull(cs + [c], c) == cs
  {
    if |cs| == 0 {
      assert Pull([c], c) == Pull([], c);
    } else {
      assert (cs + [c])[1..] == cs[1..] + [c];
      PullAppendAbsent(cs[1..], c);
      assert [cs[0]] + cs[1..] == cs;
    }
  }

  // ---------------------------------------------------------------------
  // Uniqueness of the identifying field within one collection
  // ---------------------------------------------------------------------

  /**
   * Students with the same email are the same student, except that the
   * empty email may repeat: the update path skips its check for an empty
   * email (a falsy value), while creation checks every value.
   */
  ghost predicate StudentEmailsUnique(m: map<Id, Student>)
  {
    forall a, b :: a in m && b in m && a != b && m[a].email == m[b].email ==> m[a].email == ""
  }

  ghost predicate TeacherEmailsUnique(m: map<Id, Teacher>)
  {
    forall a, b :: a in m && b in m && a != b && m[a].email == m[b].email ==> m[a].email == ""
  }

  /** Every student's course list is a set: no course id occurs twice in it. */
  ghost predicate StudentCourseListsAreSets(m: map<Id, Student>)
  {
    forall id :: id in m ==> NoDuplicates(m[id].courses)
  }

  /** Every teacher's course list is a set: no course id occurs twice in it. */
  ghost predicate TeacherCourseListsAreSets(m: map<Id, Teacher>)
  {
    forall id :: id in m ==> NoDuplicates(m[id].courses)
  }

  ghost predicate CourseCodesUnique(m: map<Id, Course>)
  {
    forall a, b :: a in m && b in m && a != b && m[a].code == m[b].code ==> m[a].code == ""
  }

  /** `findOne({ email })` finds something. */
  predicate StudentEmailTaken(m: map<Id, Student>, email: string)
  {
    exists k :: k in m && m[k].email == email
  }

  predicate TeacherEmailTaken(m: map<Id, Teacher>, email: string)
  {
    exists k :: k in m && m[k].email == email
  }

  predicate CourseCodeTaken(m: map<Id, Course>, code: string)
  {
    exists k :: k in m && m[k].code == code
  }

  /**
   * The conflict an update reports: the patch carries a non-empty email
   * that a student other than `id` already has.
   */
  ghost predicate StudentEmailConflict(m: map<Id, Student>, id: Id, p: StudentPatch)
  {
    p.email.Some? && p.email.value != "" &&
    exists k :: k in m && k != id && m[k].email == p.email.value
  }

  ghost predicate TeacherEmailConflict(m: map<Id, Teacher>, id: Id, p: TeacherPatch)
  {
    p.email.Some? && p.email.value != "" &&
    exists k :: k in m && k != id && m[k].email == p.email.value
  }

  ghost predicate CourseCodeConflict(m: map<Id, Course>, id: Id, p: CoursePatch)
  {
    p.code.Some? && p.code.value != "" &&
    exists k :: k in m && k != id && m[k].code == p.code.value
  }

  /** Re-submitting a student's own email is never a conflict. */
  lemma StudentOwnEmailIsNoConflict(m: map<Id, Student>, id: Id, p: StudentPatch)
    requires StudentEmailsUnique(m)
    requires id in m && p.email == Some(m[id].email)
    ensures !StudentEmailConflict(m, id, p)
  {
  }

  /** Re-submitting a teacher's own email is never a conflict. */
  lemma TeacherOwnEmailIsNoConflict(m: map<Id, Teacher>, id: Id, p: TeacherPatch)
    requires TeacherEmailsUnique(m)
    requires id in m && p.email == Some(m[id].email)
    ensures !TeacherEmailConflict(m, id, p)
  {
  }

  /** Re-submitting a course's own code is never a conflict. */
  lemma CourseOwnCodeIsNoConflict(m: map<Id, Course>, id: Id, p: CoursePatch)
    requires CourseCodesUnique(m)
    requires id in m && p.code == Some(m[id].code)
    ensures !CourseCodeConflict(m, id, p)
  {
  }

  // ---------------------------------------------------------------------
  // References from enrolment lists into the Course collection
  // ---------------------------------------------------------------------

  /** Every course id a student lists names an existing course. */
  ghost predicate StudentReferencesResolve(students: map<Id, Student>, courses: map<Id, Course>)
  {
    forall s, c :: s in students && c in students[s].courses ==> c in courses
  }

  /** Enrolling into an existing course keeps all references resolvable. */
  lemma EnrollKeepsReferences(students: map<Id, Student>, courses: map<Id, Course>, sid: Id, cid: Id)
    requires StudentReferencesResolve(students, courses)
    requires sid in students && cid in courses
    ensures StudentReferencesResolve(
      students[sid := students[sid].(courses := AddToSet(students[sid].courses, cid))], courses)
  {
  }

  /**
   * Deleting a course does not cascade: whenever some student lists the
   * course, the store left behind holds a reference that resolves to nothing.
   */
  lemma DeleteCourseLeavesDanglingReference(students: map<Id, Student>, courses: map<Id, Course>, sid: Id, cid: Id)
    requires sid in students && cid in students[sid].courses
    ensures !StudentReferencesResolve(students, courses - {cid})
  {
    assert cid !in courses - {cid};
  }

}
