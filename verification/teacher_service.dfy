/**
 * The Teacher collection and the operations of the teacher service,
 * including the enrolment protocol against the Course collection.
 */
module TeacherService {
  import opened Common
  import opened Records
  import CourseService

  class TeacherCollection {
    var records: map<Id, Teacher>

    /**
     * Teacher emails are unique (the empty email aside, see `TeacherEmailsUnique`),
     * and every teacher's course list is a set.
     */
    ghost predicate Valid()
      reads this
    {
      TeacherEmailsUnique(records) && TeacherCourseListsAreSets(records)
    }

    constructor ()
      ensures Valid() && records == map[]
    {
      records := map[];
    }

    /**
     * `createTeacher`: refuses an email any teacher already has with 409,
     * leaving the collection as it was; otherwise adds exactly one record.
     */
    method Create(data: TeacherInput, newId: Id) returns (r: Result<Stored<Teacher>>)
      requires Valid()
      requires newId !in records
      modifies this
      ensures Valid()
      ensures r.Err? <==> TeacherEmailTaken(old(records), data.email)
      ensures r.Err? ==> r.fault == AppError(409, "Teacher with this email already exists") && records == old(records)
      ensures r.Ok? ==> r.value == Stored(newId, NewTeacher(data)) && records == old(records)[newId := NewTeacher(data)]
    {
      if TeacherEmailTaken(records, data.email) {
        return Err(AppError(409, "Teacher with this email already exists"));
      }
      var s := NewTeacher(data);
      records := records[newId := s];
      r := Ok(Stored(newId, s));
    }

    /** `getAllTeachers`: every stored teacher (course ids are not expanded). */
    method GetAll() returns (r: map<Id, Teacher>)
      ensures r == records
    {
      r := records;
    }

    /** `getTeacherById`: the record, or 404 "Teacher not found". */
    method GetById(id: Id) returns (r: Result<Stored<Teacher>>)
      ensures id in records ==> r == Ok(Stored(id, records[id]))
      ensures id !in records ==> r == Err(AppError(404, "Teacher not found"))
    {
      if id in records {
        r := Ok(Stored(id, records[id]));
      } else {
        r := Err(AppError(404, "Teacher not found"));
      }
    }

    /**
     * `updateTeacher`: a non-empty new email held by another teacher is a
     * 409, checked before the existence check; an absent or empty email runs
     * no check at all. Otherwise only the supplied fields change.
     */
    method Update(id: Id, patch: TeacherPatch) returns (r: Result<Stored<Teacher>>)
      requires Valid()
      modifies this
      ensures Valid()
      ensures TeacherEmailConflict(old(records), id, patch) ==>
        r == Err(AppError(409, "Email is already taken by another teacher")) && records == old(records)
      ensures !TeacherEmailConflict(old(records), id, patch) && id !in old(records) ==>
        r == Err(AppError(404, "Teacher not found")) && records == old(records)
      ensures !TeacherEmailConflict(old(records), id, patch) && id in old(records) ==>
        var s := PatchTeacher(old(records)[id], patch);
        r == Ok(Stored(id, s)) && records == old(records)[id := s]
    {
      if patch.email.Some? && patch.email.value != "" {
        var email := patch.email.value;
        if TeacherEmailTaken(records, email) {
          var holder :| holder in records && records[holder].email == email;
          if holder != id {
            return Err(AppError(409, "Email is already taken by another teacher"));
          }
        }
      }
      if id !in records {
        return Err(AppError(404, "Teacher not found"));
      }
      var s := PatchTeacher(records[id], patch);
      records := records[id := s];
      r := Ok(Stored(id, s));
    }

    /**
     * `enrollTeacherInCourse`: first the course must exist (404 "Cannot
     * enroll: Course not found", nothing changes), then the teacher (404
     * "Teacher not found"); the course id is added only if absent.
     */
    method Enroll(courses: CourseService.CourseCollection, teacherId: Id, courseId: Id)
      returns (r: Result<Stored<Teacher>>)
      requires Valid()
      modifies this
      ensures Valid()
      ensures courseId !in courses.records ==>
        r == Err(AppError(404, "Cannot enroll: Course not found")) && records == old(records)
      ensures courseId in courses.records && teacherId !in old(records) ==>
        r == Err(AppError(404, "Teacher not found")) && records == old(records)
      ensures courseId in courses.records && teacherId in old(records) ==>
        var s := old(records)[teacherId].(courses := AddToSet(old(records)[teacherId].courses, courseId));
        r == Ok(Stored(teacherId, s)) && records == old(records)[teacherId := s]
    {
      if courseId !in courses.records {
        return Err(AppError(404, "Cannot enroll: Course not found"));
      }
      if teacherId !in records {
        return Err(AppError(404, "Teacher not found"));
      }
      AddToSetIdempotent(records[teacherId].courses, courseId);
      var s := records[teacherId].(courses := AddToSet(records[teacherId].courses, courseId));
      records := records[teacherId := s];
      r := Ok(Stored(teacherId, s));
    }

    /**
     * `removeTeacherFromCourse`: pulls every occurrence of the course id;
     * the course itself is never looked up. A missing teacher is a 404.
     */
    method RemoveCourse(teacherId: Id, courseId: Id) returns (r: Result<Stored<Teacher>>)
      requires Valid()
      modifies this
      ensures Valid()
      ensures teacherId !in old(records) ==>
        r == Err(AppError(404, "Teacher not found")) && records == old(records)
      ensures teacherId in old(records) ==>
        var s := old(records)[teacherId].(courses := Pull(old(records)[teacherId].courses, courseId));
        r == Ok(Stored(teacherId, s)) && records == old(records)[teacherId := s]
    {
      if teacherId !in records {
        return Err(AppError(404, "Teacher not found"));
      }
      PullNoDuplicates(records[teacherId].courses, courseId);
      var s := records[teacherId].(courses := Pull(records[teacherId].courses, courseId));
      records := records[teacherId := s];
      r := Ok(Stored(teacherId, s));
    }

    /** `deleteTeacher`: removes exactly that record, or answers 404. */
    method Delete(id: Id) returns (r: Result<Stored<Teacher>>)
      requires Valid()
      modifies this
      ensures Valid()
      ensures id in old(records) ==> r == Ok(Stored(id, old(records)[id])) && records == old(records) - {id}
      ensures id !in old(records) ==> r == Err(AppError(404, "Teacher not found")) && records == old(records)
    {
      if id !in records {
        return Err(AppError(404, "Teacher not found"));
      }
      r := Ok(Stored(id, records[id]));
      records := records - {id};
    }
  }
}
