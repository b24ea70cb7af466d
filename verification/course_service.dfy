/**
 * The Course collection and the operations of the course service:
 * check-then-insert creation, lookup, merge-update and delete.
 */
module CourseService {
  import opened Common
  import opened Records

  class CourseCollection {
    var records: map<Id, Course>

    /** Course codes are unique (the empty code aside, see `CourseCodesUnique`). */
    ghost predicate Valid()
      reads this
    {
      CourseCodesUnique(records)
    }

    constructor ()
      ensures Valid() && records == map[]
    {
      records := map[];
    }

    /**
     * `createCourse`: refuses a code any course already has with 409 and
     * otherwise stores the course under the id the database hands out.
     * Credits are not checked here: only the schema bounds them.
     */
    method Create(data: CourseInput, newId: Id) returns (r: Result<Stored<Course>>)
      requires Valid()
      requires newId !in records
      modifies this
      ensures Valid()
      ensures r.Err? <==> CourseCodeTaken(old(records), data.code)
      ensures r.Err? ==> r.fault == AppError(409, "Course with this code already exists") && records == old(records)
      ensures r.Ok? ==> r.value == Stored(newId, NewCourse(data)) && records == old(records)[newId := NewCourse(data)]
    {
      if CourseCodeTaken(records, data.code) {
        return Err(AppError(409, "Course with this code already exists"));
      }
      var c := NewCourse(data);
      records := records[newId := c];
      r := Ok(Stored(newId, c));
    }

    /** `getAllCourses`: every stored course. */
    method GetAll() returns (r: map<Id, Course>)
      ensures r == records
    {
      r := records;
    }

    /** `getCourseById`: the record, or 404 "Course not found". */
    method GetById(id: Id) returns (r: Result<Stored<Course>>)
      ensures id in records ==> r == Ok(Stored(id, records[id]))
      ensures id !in records ==> r == Err(AppError(404, "Course not found"))
    {
      if id in records {
        r := Ok(Stored(id, records[id]));
      } else {
        r := Err(AppError(404, "Course not found"));
      }
    }

    /**
     * `updateCourse`: a non-empty new code held by another course is a 409;
     * that check comes before the existence check, so a taken code on a
     * missing id still answers 409. Otherwise the supplied fields are merged.
     */
    method Update(id: Id, patch: CoursePatch) returns (r: Result<Stored<Course>>)
      requires Valid()
      modifies this
      ensures Valid()
      ensures CourseCodeConflict(old(records), id, patch) ==>
        r == Err(AppError(409, "Course code is already in use")) && records == old(records)
      ensures !CourseCodeConflict(old(records), id, patch) && id !in old(records) ==>
        r == Err(AppError(404, "Course not found")) && records == old(records)
      ensures !CourseCodeConflict(old(records), id, patch) && id in old(records) ==>
        var c := PatchCourse(old(records)[id], patch);
        r == Ok(Stored(id, c)) && records == old(records)[id := c]
    {
      if patch.code.Some? && patch.code.value != "" {
        var code := patch.code.value;
        if CourseCodeTaken(records, code) {
          var holder :| holder in records && records[holder].code == code;
          if holder != id {
            return Err(AppError(409, "Course code is already in use"));
          }
        }
      }
      if id !in records {
        return Err(AppError(404, "Course not found"));
      }
      var c := PatchCourse(records[id], patch);
      records := records[id := c];
      r := Ok(Stored(id, c));
    }

    /** `deleteCourse`: removes the course record only, or answers 404. */
    method Delete(id: Id) returns (r: Result<Stored<Course>>)
      requires Valid()
      modifies this
      ensures Valid()
      ensures id in old(records) ==> r == Ok(Stored(id, old(records)[id])) && records == old(records) - {id}
      ensures id !in old(records) ==> r == Err(AppError(404, "Course not found")) && records == old(records)
    {
      if id !in records {
        return Err(AppError(404, "Course not found"));
      }
      r := Ok(Stored(id, records[id]));
      records := records - {id};
    }
  }
}
