# University records front-end: store and view controllers in Dafny

This project models the client-side core of an Angular front-end for a
university records system. The front-end mirrors four kinds of server
entities (students, enrollments, departments, courses) into local containers.
Views edit those entities through modal forms, show enrollments on a
five-column status board, and forward prompts to a generative-AI service.

Every awaited backend call is an abstract outcome: `Outcome<T>`, which is
`Success(value)` or `Failure`. Each store method takes the outcomes of the
calls it makes as parameters. JSON decoding is a function parameter `decode`
that returns an `Option`. The AI service's replies and the clock (`now`) are
plain inputs.

Modules: one per core source file, plus shared helpers (`Wrappers`, `Seqs`):

- `Wrappers` (`wrappers.dfy`): `Option` and `Outcome`.
- `Seqs` (`seqs.dfy`): `Filter`, `MapSeq` and `Find`, which are the array
  `filter`, `map` and `find` the code relies on, plus their lemmas.
- `Types` (`types.dfy`): the entities and the `EnrollmentStatus` enum from
  `src/models/types.ts`, the display record `EnrollmentDTO` from
  `src/models/dtos.ts`, and the request bodies. It also defines JavaScript
  truthiness of nullable ids (`Truthy`, `TruthyOrNone`) and `x || ''` (`OrEmpty`).
- `Store` (`store.dfy`): class `DataService`. It has four `seq` containers and
  a ghost `requests` field (a log kept only by the model) that records, in order, every backend call the store's
  own methods send (the views' edit-modal gets are not recorded; see "Left
  out"). Construction starts the boot load. Each fetch replaces its
  container on success and leaves it unchanged on failure. Each delete
  filters its container only after the call succeeds. Department create
  appends the department the server returns; department update replaces the
  elements with a matching id by the caller's own department. Every other
  create or update re-fetches its container.
- `Kanban` (`kanban.dfy`): the enrollment board's columns, move buttons and
  modal state machine.
- `Students` (`students.dfy`): the students directory (`ProjectsComponent`).
- `Departments` (`departments.dfy`): the departments view.
- `Dashboard` (`dashboard.dfy`): the status badge mapping and the
  recent-enrollments slice.
- `AiTools` (`aitools.dfy`): the advisor chat and the study-plan generator.

The views do not await the store mutations they start. So a view's save
method returns the `Command` it issues: which store operation it calls, and
with what arguments. The store method of the same name models what that call
does to the containers. The board's `MoveStatus` starts no other work, so it
calls `UpdateEnrollmentStatus` on the store directly. The counts `TotalStudents`, `TotalEnrollments`,
`TotalDepartments` and `TotalCourses` are the container lengths
(src/services/data.service.ts:20-26); `RemoveIdLength` states how a delete
changes them.

## Model

| member | source | states |
|---|---|---|
| `Seqs.Filter` | src/services/data.service.ts:23 | the result holds exactly the input's elements that satisfy the predicate and is no longer than the input |
| `Seqs.MapSeq` | src/services/data.service.ts:145 | the result has the input's length, and each element is the function applied to the element at the same position |
| `Seqs.Find` | src/components/kanban/kanban.component.ts:186 | finds a result iff some element satisfies the predicate; the result is the first such element (the head of the filter) |
| `Seqs.FilterAppend` | src/services/data.service.ts:76 | filtering a concatenation is concatenating the filters, so survivors keep their relative order |
| `Seqs.FilterMultiplicity` | src/services/data.service.ts:76 | a filter keeps every copy of each passing element and no copy of any other |
| `Seqs.FilterIdempotent` | src/services/data.service.ts:76 | filtering twice by one predicate equals filtering once |
| `Seqs.FilterSplitsLength` | src/services/data.service.ts:21-24 | when two predicates are each other's negation on every element, their two filters together are exactly as long as the input |
| `Seqs.FilterCountsIndices` | src/services/data.service.ts:22-24 | the length of a filter is the number of positions whose element passes |
| `Types.StatusOf` | src/models/types.ts:2-8 | a string maps to the enum member with that string value, or to none when no member has it |
| `Types.StatusNameRoundTrip` | src/models/types.ts:2-8 | reading a status back from its own string value gives that status |
| `Types.StatusNameInjective` | src/models/types.ts:2-8 | two statuses with the same string value are the same status |
| `Types.TruthyOrNone` | src/components/projects/projects.component.ts:189 | a falsy id (absent or zero) becomes absent: the result is present exactly when the id is present and non-zero, and then unchanged |
| `Store.RemoveId` | src/services/data.service.ts:76 | after a delete no record has the id, every record with another id remains, and nothing new appears |
| `Store.RemoveIdKeepsOrder` | src/services/data.service.ts:74-77 | a delete keeps the survivors in their relative order |
| `Store.RemoveIdMultiplicity` | src/services/data.service.ts:121-124 | a delete removes every copy of each record with the id and keeps all copies of the others |
| `Store.RemoveIdLength` | src/services/data.service.ts:20-26 | a delete shortens its container, and so the matching `total…` count, by exactly the number of positions whose record carries the id |
| `Store.RemoveAbsentId` | src/services/data.service.ts:148-151 | deleting an id that no record has leaves the container as it was |
| `Store.ReplaceDepartment` | src/services/data.service.ts:143-146 | an update keeps the length, puts the new department wherever the id matches, keeps all other elements, and leaves the id column as it was |
| `Store.ReplaceDepartmentIdempotent` | src/services/data.service.ts:145 | applying the same department update twice equals applying it once |
| `Store.StudentPayloadOf` | src/services/data.service.ts:60-62 | the student body is the input plus a `{idDepartment}` reference exactly when the department id is present and non-zero |
| `Store.DataService.constructor` | src/services/data.service.ts:14-43 | the containers start empty and construction runs the boot load: the four list requests are sent in order, and each container is its fetched list on success and stays empty otherwise |
| `Store.DataService.TotalEnrollments` | src/services/data.service.ts:21-24 | every enrollment is counted exactly once: the total is the number of ACTIVE positions plus the number of other positions |
| `Store.DataService.ActiveEnrollments` | src/services/data.service.ts:22-24 | equals the number of positions in the enrollments container whose status is ACTIVE, and is at most the total |
| `Store.DataService.LoadInitialData` | src/services/data.service.ts:38-43 | sends the department, course, student and enrollment list requests in that order; each container follows its own fetch outcome |
| `Store.DataService.FetchStudents` | src/services/data.service.ts:46-55 | on success the container becomes exactly the returned list; on failure it is unchanged and nothing rejects |
| `Store.DataService.GetStudent` | src/services/data.service.ts:56-58 | sends one get request and returns the server's outcome untouched |
| `Store.DataService.AddStudent` | src/services/data.service.ts:60-65 | posts the payload; a failure rejects and leaves the container unchanged; a success re-fetches |
| `Store.DataService.UpdateStudent` | src/services/data.service.ts:67-72 | puts the payload with the same department rule; a failure rejects with no re-fetch; a success re-fetches |
| `Store.DataService.DeleteStudent` | src/services/data.service.ts:74-77 | on success the container is the old one without that id; on failure it is unchanged and the call rejects |
| `Store.DataService.FetchEnrollments` | src/services/data.service.ts:81-91 | replaces the container only when the call succeeds and the body decodes; otherwise it is unchanged |
| `Store.DataService.GetEnrollment` | src/services/data.service.ts:93-95 | sends one get request and returns the server's outcome untouched |
| `Store.DataService.AddEnrollment` | src/services/data.service.ts:97-106 | posts the student and course references, the status and the timestamp; re-fetches only on success |
| `Store.DataService.UpdateEnrollment` | src/services/data.service.ts:108-111 | puts the given body; re-fetches only on success |
| `Store.DataService.UpdateEnrollmentStatus` | src/services/data.service.ts:113-119 | resubmits the fetched record with only its status changed; an absent record sends nothing more; a failed fetch rejects |
| `Store.DataService.DeleteEnrollment` | src/services/data.service.ts:121-124 | on success removes that id; on failure the container is unchanged |
| `Store.DataService.FetchDepartments` | src/services/data.service.ts:127-132 | on success the container is exactly the returned list; on failure it is unchanged |
| `Store.DataService.GetDepartment` | src/services/data.service.ts:134-136 | sends one get request and returns the server's outcome untouched |
| `Store.DataService.AddDepartment` | src/services/data.service.ts:138-141 | on success appends the server-returned department after the untouched old elements; on failure nothing changes |
| `Store.DataService.UpdateDepartment` | src/services/data.service.ts:143-146 | on success replaces the departments with that id; on failure nothing changes |
| `Store.DataService.DeleteDepartment` | src/services/data.service.ts:148-151 | on success removes that id; on failure the container is unchanged |
| `Store.DataService.FetchCourses` | src/services/data.service.ts:154-163 | on success the container is exactly the returned list; on failure it is unchanged |
| `Store.DataService.GetCourse` | src/services/data.service.ts:165-167 | sends one get request and returns the server's outcome untouched |
| `Store.DataService.AddCourse` | src/services/data.service.ts:169-172 | posts the course; re-fetches only on success |
| `Store.DataService.UpdateCourse` | src/services/data.service.ts:174-178 | the course sent, and the caller's object afterwards, carry `idCourse` equal to the path id; re-fetches only on success |
| `Store.DataService.DeleteCourse` | src/services/data.service.ts:180-183 | on success removes that id; on failure the container is unchanged |
| `Kanban.Column` | src/components/kanban/kanban.component.ts:150-154 | a column holds exactly the enrollments whose status string is that column's status |
| `Kanban.ColumnKeepsOrder` | src/components/kanban/kanban.component.ts:150-154 | a column lists its cards in container order |
| `Kanban.UnknownStatusOnNoColumn` | src/components/kanban/kanban.component.ts:150-154 | an enrollment whose status string is not one of the five appears on no column |
| `Kanban.ColumnsPartition` | src/components/kanban/kanban.component.ts:150-154 | the five column lengths plus the number of unknown-status enrollments equal the container length |
| `Kanban.ColumnStep` | src/components/kanban/kanban.component.ts:150 | a column of a non-empty list is the first card (when it matches) followed by the column of the rest, and its length steps accordingly |
| `Kanban.ActiveCountIsActiveColumn` | src/components/kanban/kanban.component.ts:150 | the store's active count equals the length of the board's Active column |
| `Kanban.VisibleMoves` | src/components/kanban/kanban.component.ts:78-83 | Mark Complete shows unless the column is COMPLETED; Mark Failed shows unless the column is FAILED or COMPLETED; no shown button targets the card's own column |
| `Kanban.EditForm` | src/components/kanban/kanban.component.ts:171-175 | the filled form keeps the record's status, and passes the save guard exactly when the record has a student and a course, both with non-zero ids |
| `Kanban.SaveCall` | src/components/kanban/kanban.component.ts:181-206 | an incomplete form issues nothing; create mode (null or 0 id) adds the form's ids and status; edit mode updates with ids and status only, and only when the container holds that id |
| `Kanban.EditThenSave` | src/components/kanban/kanban.component.ts:168-206 | editing an enrollment and saving the untouched form resubmits its student, course and status by id |
| `Kanban.KanbanComponent.constructor` | src/components/kanban/kanban.component.ts:146-160 | the modal starts closed, with no editing id and the blank form |
| `Kanban.KanbanComponent.OpenCreateModal` | src/components/kanban/kanban.component.ts:162-166 | clears the editing id, resets the form to `{0, 0, ACTIVE}` and opens the modal |
| `Kanban.KanbanComponent.OpenEditModal` | src/components/kanban/kanban.component.ts:168-179 | an absent record changes nothing; a present one fills the form (0 for a missing student or course), sets the id and opens the modal |
| `Kanban.KanbanComponent.SaveEnrollment` | src/components/kanban/kanban.component.ts:181-206 | issues the call `SaveCall` describes; closes the modal exactly when both ids are set |
| `Kanban.KanbanComponent.MoveStatus` | src/components/kanban/kanban.component.ts:209-211 | runs the store's status change on that enrollment: the store sends the get, then (for a present record) the full record with only its status changed and, on success, the list re-fetch; the board's enrollments change only when all three calls succeed and the list decodes |
| `Students.EditForm` | src/components/projects/projects.component.ts:166-173 | the filled form passes validation exactly when the record's first name, last name and email are non-empty; it holds a department id exactly when the record has a department with a non-zero id, and then that id |
| `Students.SaveCall` | src/components/projects/projects.component.ts:179-202 | a missing first name, last name or email issues nothing; otherwise the names, email, phone and birth date are sent as typed; a null or 0 department becomes absent; with a truthy editing id it is an update carrying that id, else a create |
| `Students.EditThenSave` | src/components/projects/projects.component.ts:163-202 | editing a student and saving the untouched form sends back the same fields, with `''` defaults and its department reference exactly when it has a non-zero one |
| `Students.ProjectsComponent.constructor` | src/components/projects/projects.component.ts:145-155 | the modal starts closed, with no editing id and the blank form |
| `Students.ProjectsComponent.OpenCreateModal` | src/components/projects/projects.component.ts:157-161 | clears the editing id, resets every string field to `''` and the department to null, and opens the modal |
| `Students.ProjectsComponent.OpenEditModal` | src/components/projects/projects.component.ts:163-177 | an absent student changes nothing; a present one fills the form with phone and birth date defaulted to `''` and the department to null |
| `Students.ProjectsComponent.SaveStudent` | src/components/projects/projects.component.ts:179-202 | issues the call `SaveCall` describes; closes the modal exactly when validation passed |
| `Departments.EditForm` | src/components/departments/departments.component.ts:130-134 | the filled form keeps the name, and saving it issues a call exactly when that name is non-empty |
| `Departments.SaveCall` | src/components/departments/departments.component.ts:140-155 | an empty name issues nothing; edit mode updates with the editing id and the three form fields; create mode adds the form buffer |
| `Departments.EditThenSave` | src/components/departments/departments.component.ts:126-155 | editing a named department and saving the untouched form sends it back with the same id and name, with location and head defaulted to `''` |
| `Departments.DepartmentsComponent.constructor` | src/components/departments/departments.component.ts:115-118 | the modal starts closed, with no editing id and the blank form |
| `Departments.DepartmentsComponent.OpenCreateModal` | src/components/departments/departments.component.ts:120-124 | resets the form to three empty strings, clears the editing id and opens the modal |
| `Departments.DepartmentsComponent.OpenEditModal` | src/components/departments/departments.component.ts:126-138 | an absent department changes nothing; a present one fills the form with location and head defaulted to `''` |
| `Departments.DepartmentsComponent.SaveDept` | src/components/departments/departments.component.ts:140-155 | issues the call `SaveCall` describes; closes the modal exactly when the name is non-empty |
| `Dashboard.StatusClass` | src/components/dashboard/dashboard.component.ts:106-114 | ACTIVE is blue, COMPLETED green, FAILED red and DROPPED gray, each exclusively; every other string, WITHDRAWN included, is slate |
| `Dashboard.RecentEnrollments` | src/components/dashboard/dashboard.component.ts:73 | the table shows the first min(5, n) enrollments, in container order |
| `AiTools.LeadingBlanks` | src/components/ai-tools/ai-tools.component.ts:128 | the count is within the string, the characters before it are all whitespace, and the character at it, if any, is not |
| `AiTools.ContentEnd` | src/components/ai-tools/ai-tools.component.ts:128 | the index is within the string, the characters from it on are all whitespace, and the character just before it, if any, is not |
| `AiTools.TrimStart` | src/components/ai-tools/ai-tools.component.ts:128 | the result is a suffix of the input and the removed prefix is all whitespace; it is empty iff the input is all whitespace; otherwise it starts with a non-whitespace character |
| `AiTools.TrimEnd` | src/components/ai-tools/ai-tools.component.ts:128 | the result is a prefix of the input and the removed suffix is all whitespace; it is empty iff the input is all whitespace; otherwise it ends with a non-whitespace character |
| `AiTools.Trim` | src/components/ai-tools/ai-tools.component.ts:128 | the input is a whitespace prefix, then the result, then a whitespace suffix, and the result neither starts nor ends with whitespace |
| `AiTools.TrimEmptyIffBlank` | src/components/ai-tools/ai-tools.component.ts:128 | a trimmed prompt is empty exactly when the prompt is empty or all whitespace |
| `AiTools.CourseLabel` | src/components/ai-tools/ai-tools.component.ts:145 | the label is never empty: it is the course name when the course is present with a non-empty name, and 'Unknown Course' otherwise |
| `AiTools.CompletedCourses` | src/components/ai-tools/ai-tools.component.ts:143-145 | there is one label per COMPLETED enrollment of the student |
| `AiTools.CompletedCoursesOne` | src/components/ai-tools/ai-tools.component.ts:143-145 | a single enrollment gives its course name (or `'Unknown Course'` when the course or its name is missing) if it is the student's and COMPLETED, and nothing otherwise |
| `AiTools.CompletedCoursesAppend` | src/components/ai-tools/ai-tools.component.ts:143-145 | the labels of a concatenation are the concatenated labels, so container order is kept |
| `AiTools.AiToolsComponent.constructor` | src/components/ai-tools/ai-tools.component.ts:119-125 | the prompt, reply and plan start empty, and nothing is selected or loading |
| `AiTools.AiToolsComponent.AskAi` | src/components/ai-tools/ai-tools.component.ts:127-134 | a blank prompt changes nothing and sends nothing; otherwise the prompt is sent, the reply is shown, loading is false and the prompt is cleared |
| `AiTools.AiToolsComponent.GeneratePlan` | src/components/ai-tools/ai-tools.component.ts:136-158 | with no truthy selection or no matching student, nothing changes; otherwise it sends the first matching student's first name with their completed courses; the plan is the decoded reply or empty, and generating is false afterwards |

## Left out

- HTTP transport (URLs, headers, `firstValueFrom`) and `console.error` logging are not modelled. Each call is an `Outcome` parameter, and the `requests` field records which call was sent with which body.
- Async interleaving is not modelled. Each store operation is atomic. A view's un-awaited store call in a save method is modelled as the `Command` the view returns, not as a call run during the view's method. `MoveStatus` issues nothing else, so it runs the store call itself; its rejection, which the source does not observe, is dropped.
- The clock is an input: `now` is the `enrollmentDate` that `AddEnrollment` sends.
- JSON decoding is the `decode` parameter. A body that parses to something other than an enrollment list would be stored by the source without checking. The model treats such a body as not decoding. The same holds for `GeneratePlan` (src/components/ai-tools/ai-tools.component.ts:151): a reply that parses to valid JSON other than a plan list is assigned to `generatedPlan` as it is by the source, while the model's `decode` yields either a `seq<PlanItem>` or nothing, and nothing gives the empty plan.
- `src/services/ai.service.ts` is not part of this model. Its two methods catch their own errors, so their replies are plain string inputs to `AskAi` and `GeneratePlan`.
- The embedded `enrollments` list of a `Student` record is display-only and not modelled.
- Ids are modelled as `int`. In the source, the study-plan select binds `[value]`, which yields a string id. With a string id, the strict comparison at src/components/ai-tools/ai-tools.component.ts:144 never matches, while the loose one at line 139 does. The model does not reproduce this coercion.
- Grades are `real`; JavaScript numbers as doubles are not modelled.
- `KanbanComponent.OpenEditModal`, `ProjectsComponent.OpenEditModal` and `DepartmentsComponent.OpenEditModal` take the fetched record as an `Option`. `None` stands for both a null body and a rejected fetch, since neither changes the view. The rejection itself escapes as an unhandled promise rejection, which is not modelled. The get-enrollment, get-student and get-department requests these methods send through the store are not recorded in `DataService.requests`.
- `Store.DataService.constructor`: the source starts `loadInitialData` without awaiting it; the model completes the whole boot load inside the constructor, so no state where only some of the four lists have arrived is observable.
- `AskAi` and `GeneratePlan`: the intermediate `isLoading` and `isGenerating` value `true`, visible while the AI call is pending, is not observable in an atomic model.
- `Store.DataService.UpdateCourse`: the in-place change to the caller's course object is returned as `course'`, not shared through aliasing.
- `Kanban.KanbanComponent.MoveStatus`: the source takes a string and casts it to the enum. The model takes an `EnrollmentStatus`; the template only passes COMPLETED and FAILED.
- `IsJsWhitespace` lists ECMAScript's WhiteSpace and LineTerminator code points explicitly. Later additions to the Unicode space-separator category are not tracked.
- Templates, CSS classes other than the status badges, the HTML-sanitising pipe, the icons, the date pipe and `src/app.component.ts` (view selection) are presentation and are not modelled.
- Fetch failures are swallowed, not reported. Department create appends the department the server returns, and department update discards the server's answer and replaces the matching elements by the caller's department; neither re-fetches. A failed create, update or delete rejects the returned promise (`rejected` is true) and leaves the container as it was.
