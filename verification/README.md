# School records API — a Dafny model

This project models the core of a small school-management REST API written
in TypeScript on Express, Mongoose and zod. The API keeps three collections:
students, teachers and courses. Students and teachers can be enrolled in
courses. Every student, teacher and course route requires a JWT bearer
token; creating and deleting a record also needs the `admin` role, while
updates and enrolments admit any authenticated caller. The bodies of the
POST and PUT routes are checked by zod schemas. The root, `/health` and the
`/auth` routes (register and login) take no token.

The model covers five parts of the API:

- **Record services.** `studentService`, `teacherService` and `courseService`
  are modelled as three classes, each holding a `map` from id to record that
  its methods update in place.
  - Create is check-then-insert on the unique field and refuses a duplicate
    with 409.
  - Update is a partial merge whose uniqueness check ignores the record's own
    id and runs *before* the existence check.
  - Enrol first checks that the course exists, then adds its id once
    (`$addToSet`).
  - Removing a course from a list is `$pull`, with no course check.
  - Delete does not cascade.
- **Schemas.** zod is modelled as data (`Zod`): fields with kinds, checks,
  `required_error`, optionality and defaults. `SafeParse` interprets that
  data: it checks every field, strips unknown keys, fills in defaults and
  reports issues in field order. Each schema file becomes its own module of
  constants, with lemmas that state field by field what the schema accepts
  and what data it leaves.
- **Middleware.** `validate(schema)` either overwrites the body with the
  parsed data or answers 400 with one `{field, message}` per issue.
  `authenticate` takes the second space-separated piece of a `Bearer `
  header, has it verified, and either attaches `{id, role}` or classifies
  the error by name. `authorize(...roles)` is role membership: 401 without a
  user, 403 for a role not listed.
- **Controllers.** Each handler is a mapping from a service outcome to a
  status and a body. The auth controller is modelled over a store of
  accounts.
- **Routers.** Each router is a table of method, path, middleware chain and
  action. `RunChain` plays a chain out, so it decides which error wins.

## Where the model follows the code rather than the API description

- The API description gives 409 for a uniqueness conflict on creation. The
  create handlers answer 400 for every error, that 409 included
  (`Controllers.CreateErrorsAreBadRequests`).
- A duplicate registration is also a 400, not a 409.
- The teacher router's comment calls its GET routes public. Every teacher
  route, like every student and course route, starts with `authenticate`
  (`Routes.NoTokenNoEntry`).
- A username or password at the upper bound is accepted, although the
  message for a longer one says "less than 50" or "less than 100"
  (`UserSchema.UsernameBoundIsInclusive`, `UserSchema.PasswordBoundIsInclusive`).
- A course code needs two characters, although the message for a shorter one
  says "Code must not be empty" (`CourseSchema.OneCharacterCodeRefused`).

## Collaborators that are parameters

These collaborators stay abstract, so every property holds for any choice of
them:

- the email format check: `isEmail`;
- token verification, which returns the decoded `{id, role}` or throws a
  named error: `verify`;
- token signing: `sign`;
- the password comparison of the User model: `passwordMatches`;
- the ids the database hands out: `newId`.

## Model

| member | source | states |
|---|---|---|
| `Common.RoleOf` | app/src/middleware/auth.ts:9-12 | a string is a role exactly when it is 'user' or 'admin' |
| `Common.RoleNameRoundTrip` | app/src/middleware/auth.ts:9-12 | spelling a role and reading it back gives that role; no two roles share a spelling |
| `Strings.Split` | app/src/middleware/auth.ts:30 | `split(' ')` yields at least one piece and no piece contains the separator |
| `Strings.Join` | app/src/middleware/validate.ts:14 | joining a single segment gives that segment |
| `Strings.SplitWithoutSeparator` | app/src/middleware/auth.ts:30 | a string without the separator splits into itself alone |
| `Strings.SplitAtFirstSeparator` | app/src/middleware/auth.ts:30 | the text before the first separator is the first piece, and the rest splits on its own |
| `Strings.JoinSplit` | app/src/middleware/validate.ts:14 | joining the pieces of a split restores the string |
| `Strings.SplitJoin` | app/src/middleware/validate.ts:14 | splitting a join of separator-free parts restores the parts |
| `Records.NewStudent` | app/src/services/studentService.ts:18 | a created student has exactly the input's name, email and age, and no courses |
| `Records.NewTeacher` | app/src/services/teacherService.ts:11 | a created teacher has exactly the input's name and email, and no courses |
| `Records.NewCourse` | app/src/services/courseService.ts:21 | a created course has exactly the input's title, code and credits |
| `Records.PatchStudentFrame` | app/src/services/studentService.ts:46 | the merge replaces exactly the supplied fields, never touches the courses, is idempotent, and an empty patch is a no-op |
| `Records.PatchTeacherFrame` | app/src/services/teacherService.ts:32 | the same for teachers |
| `Records.PatchCourseFrame` | app/src/services/courseService.ts:47 | the same for courses |
| `Records.AddToSet` | app/src/services/studentService.ts:61-65 | `$addToSet` leaves the id in the list, adds nothing else, keeps the old list as a prefix and grows it by at most one |
| `Records.Pull` | app/src/services/studentService.ts:74-78 | `$pull` leaves no occurrence of the id and keeps every other id |
| `Records.PullKeepsOrder` | app/src/services/studentService.ts:74-78 | `$pull` distributes over concatenation and strikes out only the id, so the rest keeps its order |
| `Records.AddToSetIdempotent` | app/src/services/studentService.ts:61-65 | enrolling twice equals enrolling once; a duplicate-free list stays duplicate-free; an id already there changes nothing |
| `Records.PullAbsent` | app/src/services/studentService.ts:73-83 | pulling an id that is not in the list is a no-op |
| `Records.PullIdempotent` | app/src/services/teacherService.ts:53-58 | pulling twice equals pulling once |
| `Records.PullNoDuplicates` | app/src/services/studentService.ts:74-78 | on a duplicate-free list, pull keeps it duplicate-free and removes exactly one entry when the id was there |
| `Records.EnrollThenRemove` | app/src/services/studentService.ts:61-78 | removing a course just enrolled (absent before) restores the list |
| `Records.StudentOwnEmailIsNoConflict` | app/src/services/studentService.ts:38-44 | re-submitting a student's own email is not a conflict |
| `Records.TeacherOwnEmailIsNoConflict` | app/src/services/teacherService.ts:25-30 | re-submitting a teacher's own email is not a conflict |
| `Records.CourseOwnCodeIsNoConflict` | app/src/services/courseService.ts:40-45 | re-submitting a course's own code is not a conflict |
| `Records.EnrollKeepsReferences` | app/src/services/studentService.ts:55-65 | enrolling only into an existing course keeps every listed course id resolvable |
| `Records.DeleteCourseLeavesDanglingReference` | app/src/services/courseService.ts:54-59 | deleting a course that some student lists always leaves that student with a reference that resolves to nothing |
| `CourseService.CourseCollection.Create` | app/src/services/courseService.ts:16-21 | 409 "Course with this code already exists" iff some course has the code, store unchanged; else exactly one course added; credits are not checked; codes stay unique |
| `CourseService.CourseCollection.GetAll` | app/src/services/courseService.ts:24-27 | every stored course |
| `CourseService.CourseCollection.GetById` | app/src/services/courseService.ts:29-34 | the record, or 404 "Course not found" |
| `CourseService.CourseCollection.Update` | app/src/services/courseService.ts:37-52 | a code held by another course gives 409 "Course code is already in use" even for a missing id; else a missing id gives 404; else only the supplied fields change |
| `CourseService.CourseCollection.Delete` | app/src/services/courseService.ts:54-59 | removes exactly that course (and touches no student or teacher), or 404 |
| `StudentService.StudentCollection.Create` | app/src/services/studentService.ts:13-18 | 409 "Student with this email already exists" iff some student has the email, store unchanged; else exactly one record added; emails stay unique |
| `StudentService.StudentCollection.GetAll` | app/src/services/studentService.ts:21-26 | every stored student |
| `StudentService.StudentCollection.GetById` | app/src/services/studentService.ts:28-34 | the record, or 404 "Student not found" |
| `StudentService.StudentCollection.Update` | app/src/services/studentService.ts:36-51 | a non-empty email held by a different student gives 409 before the 404; an absent or empty email runs no check; otherwise only the supplied fields change |
| `StudentService.StudentCollection.Enroll` | app/src/services/studentService.ts:53-71 | a missing course gives 404 "Cannot enroll: Course not found" before the student is looked up, and nothing changes; a missing student gives 404; else only that student's courses become `AddToSet` of them; every course list stays a set |
| `StudentService.StudentCollection.RemoveCourse` | app/src/services/studentService.ts:73-84 | no course check; a missing student gives 404; else only that student's courses become `Pull` of them; every course list stays a set |
| `StudentService.StudentCollection.Delete` | app/src/services/studentService.ts:86-91 | removes exactly that student, or 404 |
| `TeacherService.TeacherCollection.Create` | app/src/services/teacherService.ts:6-12 | 409 "Teacher with this email already exists" iff some teacher (only teachers are consulted) has the email; else exactly one added |
| `TeacherService.TeacherCollection.GetAll` | app/src/services/teacherService.ts:14-16 | every stored teacher |
| `TeacherService.TeacherCollection.GetById` | app/src/services/teacherService.ts:18-22 | the record, or 404 "Teacher not found" |
| `TeacherService.TeacherCollection.Update` | app/src/services/teacherService.ts:24-35 | 409 "Email is already taken by another teacher" only for another teacher's email, checked before the 404; otherwise only the supplied fields change |
| `TeacherService.TeacherCollection.Enroll` | app/src/services/teacherService.ts:37-51 | a missing course gives 404 "Cannot enroll: Course not found" first and nothing changes; then a missing teacher gives 404; else an idempotent set-add; every course list stays a set |
| `TeacherService.TeacherCollection.RemoveCourse` | app/src/services/teacherService.ts:53-61 | removes every occurrence with no course check; a missing teacher gives 404; every course list stays a set |
| `TeacherService.TeacherCollection.Delete` | app/src/services/teacherService.ts:63-67 | removes that teacher, or 404 |
| `Zod.Partial` | app/src/schemas/studentSchema.ts:9 | `.partial()` keeps every field, its kind and its checks, makes it optional and drops any default |
| `Zod.StringFailures` | app/src/schemas/studentSchema.ts:4-5 | a string raises no message exactly when it passes every check, and at most one message per check |
| `Zod.NumberFailures` | app/src/schemas/studentSchema.ts:6 | a number raises no message exactly when it passes every check |
| `Zod.ValueFailuresNoneIffConforms` | app/src/schemas/studentSchema.ts:4-6 | a present value raises no issue exactly when it has the right type and passes its checks |
| `Zod.ParseField` | app/src/middleware/validate.ts:6 | a field raises no issue exactly when it accepts, and contributes the sent value or its default |
| `Zod.ParseFields` | app/src/middleware/validate.ts:6 | no issue exactly when every field accepts; the data holds only schema keys |
| `Zod.SafeParse` | app/src/middleware/validate.ts:6 | accepted exactly when the body is an object and every field accepts; unknown keys are stripped |
| `Zod.ParseFieldsData` | app/src/middleware/validate.ts:9 | the parsed data holds, under each key, exactly the sent value or the default, and nothing for an absent optional field |
| `Zod.AcceptedDataIs` | app/src/middleware/validate.ts:9 | accepted data equals any map that agrees with every field's value |
| `Zod.ReparseIsIdentity` | app/src/middleware/validate.ts:7-10 | parsing the parsed data again accepts it unchanged |
| `Zod.RequiredMeaning` | app/src/middleware/validate.ts:6-9 | for a schema whose fields are all required: accepted iff the body is an object in which every field is present and conforms; the data is the body cut down to the schema's keys |
| `Zod.PartialMeaning` | app/src/schemas/studentSchema.ts:9 | for a `.partial()` schema: accepted iff the body is an object in which every field that is present conforms; the data is the body cut down to the schema's keys |
| `Zod.PartialData` | app/src/schemas/studentSchema.ts:9 | the data of an accepted `.partial()` parse keeps exactly the schema keys that were sent, with their values |
| `StudentSchema.CreateStudentMeaning` | app/src/schemas/studentSchema.ts:3-7 | accepted iff name has at least 2 characters, email passes `isEmail`, and 0 < age ≤ 120; data is exactly those three keys |
| `StudentSchema.UpdateStudentMeaning` | app/src/schemas/studentSchema.ts:9 | every field may be left out; a present field obeys the creation rule; data keeps only the fields sent |
| `StudentSchema.EnrollMeaning` | app/src/schemas/studentSchema.ts:12-14 | accepted iff `courseId` is a string (any string) |
| `StudentSchema.EmptyBodyReportsEveryField` | app/src/schemas/studentSchema.ts:3-7 | an empty body yields the three `required_error` messages, in field order |
| `StudentSchema.CreateStudentInput` | app/src/schemas/studentSchema.ts:3-7 | accepted creation data always reads back as a valid student input |
| `StudentSchema.UpdateStudentInput` | app/src/schemas/studentSchema.ts:9 | accepted update data reads back as a patch of exactly the fields sent, each valid |
| `TeacherSchema.CreateTeacherMeaning` | app/src/schemas/teacherSchema.ts:3-6 | accepted iff name has at least 2 characters and email passes `isEmail`; data is exactly those keys |
| `TeacherSchema.UpdateTeacherMeaning` | app/src/schemas/teacherSchema.ts:8 | partial, with the same per-field rules |
| `TeacherSchema.EnrollMeaning` | app/src/schemas/teacherSchema.ts:10-12 | accepted iff `courseId` is a string |
| `TeacherSchema.CreateTeacherInput` | app/src/schemas/teacherSchema.ts:3-6 | accepted data reads back as a valid teacher input |
| `TeacherSchema.UpdateTeacherInput` | app/src/schemas/teacherSchema.ts:8 | accepted update data reads back as the patch of the fields sent |
| `CourseSchema.CreateCourseMeaning` | app/src/schemas/courseSchema.ts:3-7 | accepted iff title has at least 1 character, code at least 2, and credits ≥ 1; data is exactly those keys |
| `CourseSchema.OneCharacterCodeRefused` | app/src/schemas/courseSchema.ts:5 | a one-character code is refused with "Code must not be empty" |
| `CourseSchema.UpdateCourseMeaning` | app/src/schemas/courseSchema.ts:9 | partial, with the same per-field rules |
| `CourseSchema.CreateCourseInput` | app/src/schemas/courseSchema.ts:3-7 | accepted data reads back as a valid course input |
| `CourseSchema.UpdateCourseInput` | app/src/schemas/courseSchema.ts:9 | accepted update data reads back as the patch of the fields sent |
| `UserSchema.RegisterMeaning` | app/src/schemas/userSchema.ts:3-13 | accepted iff username is 3–50 characters, email passes `isEmail`, password is 6–100 characters, and role (if sent) is 'user' or 'admin'; the data's role is 'user' when none was sent |
| `UserSchema.RegisterData` | app/src/schemas/userSchema.ts:3-13 | accepted registration data holds exactly the four keys: username, email and password as sent, and the role sent or 'user' |
| `UserSchema.UsernameBoundIsInclusive` | app/src/schemas/userSchema.ts:4-6 | with a valid email and password, a registration whose username has 50 characters is accepted; one with 51 is rejected with the single issue "Username must be less than 50 characters" at `username` |
| `UserSchema.PasswordBoundIsInclusive` | app/src/schemas/userSchema.ts:9-11 | with a valid username and email, a registration whose password has 100 characters is accepted; one with 101 is rejected with the single issue "Password must be less than 100 characters" at `password` |
| `UserSchema.AbsentRoleDefaultsToUser` | app/src/schemas/userSchema.ts:12 | without a role the parsed role is 'user' |
| `UserSchema.LoginMeaning` | app/src/schemas/userSchema.ts:15-20 | accepted iff email passes `isEmail` and the password is non-empty |
| `UserSchema.RegisterInputMeetsRules` | app/src/schemas/userSchema.ts:3-13 | accepted registration data reads back with every bound met and a role always present |
| `UserSchema.LoginInputMeetsRules` | app/src/schemas/userSchema.ts:15-20 | accepted login data reads back with a non-empty password |
| `Http.ErrorBoundary` | app/src/app.ts:172-181 | an AppError keeps its non-zero status and every other error is 500; the message defaults to "Internal Server Error" |
| `Validation.FieldNameRecoversPath` | app/src/middleware/validate.ts:14 | the dotted field name splits back into the issue's path |
| `Validation.ErrorsOf` | app/src/middleware/validate.ts:13-16 | one `{field, message}` per issue, in issue order |
| `Validation.Validate` | app/src/middleware/validate.ts:4-22 | continues, with the body replaced by the parsed data, exactly when the schema accepts; otherwise 400 "Validation Error" with the errors; never passes an error on |
| `Validation.ValidateRequest` | app/src/middleware/validate.ts:7-10 | in place: only `req.body` changes, and only on success |
| `Validation.ValidateIdempotent` | app/src/middleware/validate.ts:9 | a validated request passes the same validation again unchanged |
| `Validation.NonObjectBodyRejected` | app/src/middleware/validate.ts:13-21 | a non-object body gets one error with an empty field name |
| `Validation.EmptyStudentBodyErrors` | app/src/middleware/validate.ts:13-21 | an empty student body gets errors for name, email and age, in that order |
| `Auth.BearerPieces` | app/src/middleware/auth.ts:30 | a `Bearer ` header always has a second piece: the first piece after the prefix |
| `Auth.BearerToken` | app/src/middleware/auth.ts:26-30 | there is a token exactly when the header is present and starts with `Bearer `; it is the text up to the next space |
| `Auth.BearerTokenOfSpaceFree` | app/src/middleware/auth.ts:30 | a space-free token is handed over unchanged |
| `Auth.BearerTokenStopsAtSpace` | app/src/middleware/auth.ts:30 | text after a further space is ignored |
| `Auth.BearerTokenAfterDoubleSpace` | app/src/middleware/auth.ts:30 | a doubled space yields the empty token |
| `Auth.VerifyFailure` | app/src/middleware/auth.ts:45-52 | JsonWebTokenError becomes 401 "Invalid token. Please log in again.", TokenExpiredError becomes 401 "Token expired. Please log in again."; any other error is passed on unchanged |
| `Auth.Authenticate` | app/src/middleware/auth.ts:21-54 | continues exactly when there is a token and `verify` decodes it, with `user` set to exactly the decoded id and role; a missing or non-Bearer header gives 401 "No token provided. Please log in." |
| `Auth.AuthenticateRequest` | app/src/middleware/auth.ts:39-44 | in place: only `req.user` changes, and only on success |
| `Auth.Authorize` | app/src/middleware/auth.ts:57-69 | passes iff there is a user whose role is listed, changing nothing; 401 without a user; 403 otherwise |
| `Auth.AuthorizeEveryRole` | app/src/middleware/auth.ts:63-65 | listing both roles admits every authenticated caller |
| `Auth.AdminOnlyRefusesUser` | app/src/middleware/auth.ts:63-65 | `authorize('admin')` answers a plain user with 403 |
| `Controllers.Caught` | app/src/controllers/studentController.ts:27-31 | an AppError-aware catch keeps the AppError's status and message; otherwise the fallback status with the handler's message |
| `Controllers.EnrolmentTarget` | app/src/controllers/studentController.ts:49-50 | the service is called with the path id as the owner and `req.body.courseId` as the course, whenever the body carries a string `courseId` |
| `Controllers.StudentRespond` | app/src/controllers/studentController.ts:5-83 | create answers 201 with the data, delete 200 "Student deleted successfully", the others 200 with the data; a create error is 400 and a listing error 500, whatever the error; the other handlers answer an AppError with its own status and message, and any other error with 400 in update and 500 elsewhere |
| `Controllers.TeacherRespond` | app/src/controllers/teacherController.ts:5-71 | create answers 201 with the data, delete 200 "Teacher deleted successfully", the others 200 with the data; a create error is 400 and a listing error 500, whatever the error; the other handlers answer an AppError with its own status and message, and any other error with 400 in update and 500 elsewhere |
| `Controllers.CourseRespond` | app/src/controllers/courseController.ts:5-61 | create answers 201 with the data, delete 200 "Course deleted successfully", the others 200 with the data; a create error is 400 whatever the error; every other handler, listing included, answers an AppError with its own status and message, and any other error with 400 in update and 500 elsewhere |
| `Controllers.CreateErrorsAreBadRequests` | app/src/controllers/studentController.ts:9-11 | every creation error, the service's 409 included, is answered 400 |
| `Controllers.AppErrorsKeepTheirStatus` | app/src/controllers/studentController.ts:27-31 | getOne, update, enroll, remove-course and remove answer an AppError with its own status and message |
| `Controllers.OtherErrorsFallBack` | app/src/controllers/studentController.ts:39-44 | any other error is 500, except in update, where it is 400 |
| `Controllers.ListingErrors` | app/src/controllers/courseController.ts:18-24 | listing students or teachers gives 500 even for an AppError; listing courses keeps the AppError's status |
| `Controllers.RemoveConfirms` | app/src/controllers/studentController.ts:75-76 | a deletion answers with "… deleted successfully" |
| `Routes.Apply` | app/src/routes/studentRoutes.ts:110 | no middleware touches the header or the path id; only `authenticate` sets the user; a middleware's own errors are 401 or 403, its own answer 400 |
| `Routes.RunChain` | app/src/routes/studentRoutes.ts:110 | admitted exactly when every middleware calls `next()`; a chain with `authenticate` admits only with a user; a refusal is 400, 401, 403 or 500 |
| `Routes.Pass` | app/src/routes/studentRoutes.ts:110 | the chain run in place leaves the request exactly as `RunChain` says |
| `Routes.RoutesGuarded` | app/src/routes/studentRoutes.ts:38-248 | every route runs `authenticate` first; a GET runs nothing else and a DELETE adds only `authorize('admin')` |
| `Routes.NoTokenNoEntry` | app/src/routes/teacherRoutes.ts:38 | on every route, the teacher GETs included, a request without a bearer token gets 401 "No token provided. Please log in." |
| `Routes.CreateStatusOrder` | app/src/routes/studentRoutes.ts:110 | creation refuses with 401, then 403, then 400, in that order |
| `Routes.ForbiddenBeforeInvalid` | app/src/routes/courseRoutes.ts:119 | a plain user's creation request is 403 whatever its body |
| `Routes.AuthenticateThenValidate` | app/src/routes/studentRoutes.ts:151 | a chain of `authenticate` then `validate` admits exactly the authenticated callers with a valid body |
| `Routes.AuthenticateAnyRoleThenValidate` | app/src/routes/courseRoutes.ts:166 | `authorize('user', 'admin')` adds nothing to `authenticate` |
| `Routes.UpdatesOpenToEveryRole` | app/src/routes/studentRoutes.ts:151 | the student, teacher and course updates admit every authenticated role with a valid body |
| `Routes.EnrolmentNeedsOnlyAToken` | app/src/routes/studentRoutes.ts:188 | enrol and remove-course need only a token and a string `courseId` |
| `Routes.ReadsNeedOnlyAToken` | app/src/routes/studentRoutes.ts:38-65 | the GET routes admit exactly the authenticated callers |
| `Routes.DeletesNeedAnAdmin` | app/src/routes/studentRoutes.ts:248 | DELETE admits exactly authenticated admins and reads no body |
| `Routes.Serve` | app/src/routes/studentRoutes.ts:110 | a request the chain refuses is answered 400, 401, 403 or 500 without reaching the controller; without a bearer token the answer is always the same 401 |
| `Routes.CreateNeverConflicts` | app/src/routes/studentRoutes.ts:110 | whatever the service does, a creation request is answered 201, 400, 401, 403 or 500, never 409 |
| `Routes.UpdateErrorsReachTheClient` | app/src/routes/studentRoutes.ts:151 | an admitted update that the service refuses with an AppError (409 or 404) is answered with that status and message |
| `Routes.AdmittedEnrolmentTarget` | app/src/routes/studentRoutes.ts:188 | an admitted enrol or remove-course request always has a string `courseId`, and the service gets the path id and that course |
| `Accounts.View` | app/src/controllers/authController.ts:44-49 | the user object carries id, username, email and role, and never the password |
| `Accounts.UserStore.Register` | app/src/controllers/authController.ts:17-54 | 400 iff the email OR the username is already used, with nothing stored; else one account is added with role 'user' by default, and the answer carries the token for the new id and role |
| `Accounts.UserStore.Login` | app/src/controllers/authController.ts:57-91 | an unknown email and a wrong password give the same 401 "Invalid email or password"; otherwise the session of the stored account |
| `Accounts.UserStore.GetProfile` | app/src/controllers/authController.ts:94-118 | 401 without a user, 404 "User not found" for an unknown id, otherwise the account without its password |
| `Accounts.LoginSession` | app/src/controllers/authController.ts:76-87 | "Login successful", a token signed for the stored id and role with the 7-day lifetime, and the account view |
| `Accounts.AuthAnswer` | app/src/controllers/authController.ts:41-53 | a successful `register` answers 201 with its payload, a successful `login` or `getProfile` answers 200 (lines 78 and 106), and a thrown error reaches the final error handler |
| `Accounts.DuplicateRegistrationIsBadRequest` | app/src/controllers/authController.ts:26-28 | a duplicate registration is answered 400 |
| `Accounts.IssuedTokenAuthenticates` | app/src/controllers/authController.ts:8-14 | a token issued for `{id, role}` is accepted by `authenticate`, which then attaches exactly that id and role (given a `verify` that accepts what `sign` made) |

## Left out

- Storage and server plumbing are not modelled: the database connection and
  its middleware, CORS, Swagger, the health and home routes, the 404
  catch-all and server start-up.
- Collections are single sequential maps. Concurrent requests are not
  modelled, including the race between the duplicate check and the insert.
  The database's own unique indexes are not modelled either.
- Ids are opaque strings. Malformed-ObjectId cast errors are not modelled.
  `populate` is the identity: course ids are not expanded into documents.
- A failing database call is represented only by the controllers' handling
  of a non-AppError (`OtherError`). The service methods themselves never
  throw one.
- The zod email regular expression is the `isEmail` parameter.
  - zod's own type messages follow its usual wording ("Expected string,
    received number"), as far as the schemas need them.
  - Issue paths hold only the object keys these flat schemas produce.
  - Lengths count characters, not UTF-16 code units.
  - Numbers are `real`: `NaN`, infinities and integer checks play no part.
- JWT signing and verification are the `sign` and `verify` parameters. The
  7-day expiry is carried in the signed claims, but the clock that makes a
  token expire is not modelled. `JWT_SECRET` and its fallback are
  configuration.
- Password hashing and `comparePassword` are the `passwordMatches`
  parameter. The User model is not part of this model: accounts store the
  password as given.
- `createdAt` is not part of the profile view.
- The auth router is not part of this model. Register, login and profile
  are modelled as controller logic without a middleware chain.
- Matching a URL to a route pattern is not modelled: routes are looked up by
  method and pattern.
- `Routes.Serve` takes what the service returns as a parameter. It does not
  call the service classes' methods, because those change state in place.
  The service methods are specified separately.
- `Accounts.UserStore.Register`: the token's exact value is stated in terms
  of the `sign` parameter.
- `Auth.Verdict`: a payload that `verify` accepts is taken to carry an id
  and a role of 'user' or 'admin'. `authenticate` casts the payload without
  checking it, so a verified token with another role, or with none, would
  be attached as it is and then refused 403 by `authorize`. The model
  cannot represent such a payload.
