/**
 * The Student collection and the operations of the student service,
 * including the enrolment protocol against the Course collection.
 */
module StudentService {
  import opened Common
  import opened Records
  import CourseService

  class StudentCollection {
    var records: map<Id, Student>

    /**
     * Student emails are unique (the empty email aside, see `StudentEmailsUnique`),
     * and every student's course list is a set.
     */
    ghost predicate Valid()
      reads this
    {
      StudentEmailsUnique(records) && StudentCourseListsAreSets(records)
    }

    constructor ()
      ensures Valid() && records == map[]
    {
      records := map[];
    }

    /**
     * `createStudent`: refuses an email any student already has with 409,
     * leaving the collection as it was; otherwise adds exactly one record.
     */
    method Create(data: StudentInput, newId: Id) returns (r: Result<Stored<Student>>)
      requires Valid()
      requires newId !in records
      modifies this
      ensures Valid()
      ensures r.Err? <==> StudentEmailTaken(old(records), data.email)
      ensures r.Err? ==> r.fault == AppError(409, "Student with this email already exists") && records == old(records)
      ensures r.Ok? ==> r.value == Stored(newId, NewStudent(data)) && records == old(records)[newId := NewStudent(data)]
    {
      if StudentEmailTaken(records, data.email) {
        return Err(AppError(409, "Student with this email already exists"));
      }
      var s := NewStudent(data);
      records := records[newId := s];
      r := Ok(Stored(newId, s));
    }

    /** `getAllStudents`: every stored student (course ids are not expanded). */
    method GetAll() returns (r: map<Id, Student>)
      ensures r == records
    {
      r := records;
    }

    /** `getStudentById`: the record, or 404 "Student not found". */
    method GetById(id: Id) returns (r: Result<Stored<Student>>)
      ensures id in records ==> r == Ok(Stored(id, records[id]))
      ensures id !in records ==> r == Err(AppError(404, "Student not found"))
    {
      if id in records {
        r := Ok(Stored(id, records[id]));
      } else {
        r := Err(AppError(404, "Student not found"));
      }
    }

    /**
     * `updateStudent`: a non-empty new email held by another student is a
     * 409, checked before the existence check; an absent or empty email runs
     * no check at all. Otherwise only the supplied fields change.
     */
    method Update(id: Id, patch: StudentPatch) returns (r: Result<Stored<Student>>)
      requires Valid()
      modifies this
      ensures Valid()
      ensures StudentEmailConflict(old(records), id, patch) ==>
        r == Err(AppError(409, "Email is already taken by another student")) && records == old(records)
      ensures !StudentEmailConflict(old(records), id, patch) && id !in old(records) ==>
        r == Err(AppError(404, "Student not found")) && records == old(records)
      ensures !StudentEmailConflict(old(records), id, patch) && id in old(records) ==>
        var s := PatchStudent(old(records)[id], patch);
        r == Ok(Stored(id, s)) && records == old(records)[id := s]
    {
      if patch.email.Some? && patch.email.value != "" {
        var email := patch.email.value;
        if StudentEmailTaken(records, email) {
          var holder :| holder in records && records[holder].email == email;
          if holder != id {
            return Err(AppError(409, "Email is already taken by another student"));
          }
        }
      }
      if id !in records {
        return Err(AppError(404, "Student not found"));
      }
      var s := PatchStudent(records[id], patch);
      records := records[id := s];
      r := Ok(Stored(id, s));
    }

    /**
     * `enrollStudentInCourse`: first the course must exist (404 "Cannot
     * enroll: Course not found", nothing changes), then the student (404
     * "Student not found"); the course id is added only if absent.
     */
    method Enroll(courses: CourseService.CourseCollection, studentId: Id, courseId: Id)
      returns (r: Result<Stored<Student>>)
      requires Valid()
      modifies this
      ensures Valid()
      ensures courseId !in courses.records ==>
        r == Err(AppError(404, "Cannot enroll: Course not found")) && records == old(records)
      ensures courseId in courses.records && studentId !in old(records) ==>
        r == Err(AppError(404, "Student not found")) && records == old(records)
      ensures courseId in courses.records && studentId in old(records) ==>
        var s := old(records)[studentId].(courses := AddToSet(old(records)[studentId].courses, courseId));
        r == Ok(Stored(studentId, s)) && records == old(records)[studentId := s]
    {
      if courseId !in courses.records {
        return Err(AppError(404, "Cannot enroll: Course not found"));
      }
      if studentId !in records {
        return Err(AppError(404, "Student not found"));
      }
      AddToSetIdempotent(records[studentId].courses, courseId);
      var s := records[studentId].(courses := AddToSet(records[studentId].courses, courseId));
      records := records[studentId := s];
      r := Ok(Stored(studentId, s));
    }

    /**
     * `removeStudentFromCourse`: pulls every occurrence of the course id;
     * the course itself is never looked up. A missing student is a 404.
     */
    method RemoveCourse(studentId: Id, courseId: Id) returns (r: Result<Stored<Student>>)
      requires Valid()
      modifies this
      ensures Valid()
      ensures studentId !in old(records) ==>
        r == Err(AppError(404, "Student not found")) && records == old(records)
      ensures studentId in old(records) ==>
        var s := old(records)[studentId].(courses := Pull(old(records)[studentId].courses, courseId));
        r == Ok(Stored(studentId, s)) && records == old(records)[studentId := s]
    {
      if studentId !in records {
        return Err(AppError(404, "Student not found"));
      }
      PullNoDuplicates(records[studentId].courses, courseId);
      var s := records[studentId].(courses := Pull(records[studentId].courses, courseId));
      records := records[studentId := s];
      r := Ok(Stored(studentId, s));
    }

    /** `deleteStudent`: removes exactly that record, or answers 404. */
    method Delete(id: Id) returns (r: Result<Stored<Student>>)
      requires Valid()
      modifies this
      ensures Valid()
      ensures id in old(records) ==> r == Ok(Stored(id, old(records)[id])) && records == old(records) - {id}
      ensures id !in old(records) ==> r == Err(AppError(404, "Student not found")) && records == old(records)
    {
      if id !in records {
        return Err(AppError(404, "Student not found"));
      }
      r := Ok(Stored(id, records[id]));
      records := records - {id};
    }
  }
}
