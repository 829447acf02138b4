# Student learning analytics dashboard: list logic

This project models the list logic of an administrative dashboard for courses,
students and teachers. The student and teacher pages hold an in-memory list,
seeded from mock data, that their handlers replace. The course page filters
the constant seed courses, and the analysis page keeps only its filter
selection. The model covers:

- **Student management page** (`Students`). The table is filtered by a search
  text, which must occur in the name or the student number, ignoring case, and
  by a class filter, where `"all"` selects every class. The class drop-down
  lists each class once, in order of first occurrence. There are handlers to
  delete a student, edit one (the form carries a hidden id) and add one (the id
  becomes `s` followed by the new length). The page is a class with one field
  per piece of state (`students`, `searchText`, `classFilter`, `isModalOpen`).
  Each handler replaces its fields, and its contract ties the new `students` to
  a function of the old list.
- **Course list page** (`Courses`). A name-or-code search is combined with a
  status filter over the seed courses. Two lookup tables give each status a
  tag colour and a label. Each card previews the first 50 characters of the
  course description.
- **Mock data** (`MockData`). This module holds the seed teachers, students
  and courses, and the three-valued course status. The dashboard statistics
  (totals and per-status counts) count each status's occurrences in the
  course list and are proved to partition it.
  The mock login accepts exactly one e-mail address and ignores the password.
- **Teacher management page** (`Teachers`). This page has its own seed list.
  Adding numbers the new row one past the current length. The name search is
  case-sensitive and always filters the seed list, not the current table, so
  teachers added earlier disappear after a search.
- **Teaching-quality analysis page** (`TeachingQuality`). The second drop-down
  is filled according to the filter type (classes, teachers or courses), and
  changing the filter type clears the selection.

Generic pieces live in `Seqs` and `Strings`:

- `Array.prototype.filter`, with the subsequence, membership and multiplicity
  lemmas every page filter reuses.
- `Array.from(new Set(xs))`, deduplication in first-occurrence order.
- `String.prototype.includes`, proved equal to "some window equals the needle".
- ASCII `toLowerCase`.
- Decimal rendering of ids, with a parse round trip.

Two lemmas state that generated ids are not unique:

- `Students.DeleteThenAddRepeatsId`: deleting `s1` from the seed students and
  then adding a student yields a second `s3`.
- `Teachers.SearchThenAddRepeatsId`: after a search leaves only teacher 2,
  adding a teacher numbers it 2 again.

The source does not promise unique ids, so these are stated as behaviour, not
as findings.

The course status is a stored literal in the seed data. No date-based course
lifecycle or attendance derivation exists in the modelled files, so none is
modelled.

## Model

| member | source | states |
|---|---|---|
| `Seqs.Filter` | src/app/students/page.tsx:49-53 | `filter` keeps only elements that satisfy the predicate, keeps every element that does, and never lengthens the list |
| `Seqs.FilterIsSubsequence` | src/app/students/page.tsx:49 | a filtered list is an order-preserving subsequence of its input |
| `Seqs.FilterMultiset` | src/app/students/page.tsx:49 | a filter keeps every occurrence of a satisfying value and none of any other value |
| `Seqs.FilterAll` | src/app/students/page.tsx:49 | filtering by a predicate every element meets returns the input unchanged |
| `Seqs.Distinct` | src/app/students/page.tsx:44-45 | `Array.from(new Set(xs))` has no duplicates and holds exactly the values of `xs` |
| `Seqs.DistinctFirstOccurrenceOrder` | src/app/students/page.tsx:44-45 | the deduplicated values are listed in order of their first occurrence in the input |
| `Seqs.FirstIndex` | src/app/students/page.tsx:44-45 | the first occurrence of a value: it is there and nowhere earlier |
| `Strings.Includes` | src/app/courses/page.tsx:17-18 | `hay.includes(needle)` holds exactly when some window of `hay` equals `needle` |
| `Strings.IncludesEmpty` | src/app/students/page.tsx:50-51 | every string includes the empty search text |
| `Strings.IncludesSameLength` | src/app/teachers/page.tsx:38 | between strings of equal length, `includes` is equality |
| `Strings.Lower` | src/app/students/page.tsx:50-51 | `toLowerCase` keeps the length and lowers each character; no upper-case ASCII letter remains |
| `Strings.LowerIdempotent` | src/app/courses/page.tsx:17-18 | lowering twice is lowering once |
| `Strings.NatToString` | src/app/students/page.tsx:121 | the decimal numeral in `` `s${n}` `` is non-empty, all digits, without a leading zero |
| `Strings.NatToStringRoundTrip` | src/app/students/page.tsx:121 | reading the numeral back gives the number |
| `Strings.NatToStringInjective` | src/app/students/page.tsx:121 | different lengths give different generated ids |
| `MockData.StatusName` | src/lib/mockData.ts:32 | a course status is one of the three literals `active`, `completed`, `upcoming` |
| `MockData.StatusNameInjective` | src/lib/mockData.ts:32 | comparing status literals is comparing statuses |
| `MockData.StatusCountsPartition` | src/lib/mockData.ts:186-188 | the active, upcoming and completed counts add up to the number of courses |
| `MockData.CountWithStatus` | src/lib/mockData.ts:186-188 | the number of courses with a status is at most the number of courses |
| `MockData.CountWithStatusOccurrences` | src/lib/mockData.ts:186-188 | the filter-length count of a status equals the number of occurrences of that status in the status column |
| `MockData.StatisticsOf` | src/lib/mockData.ts:182-189 | the totals are the list lengths; the active, upcoming and completed counts are the numbers of occurrences of each status in the course list; the three counts sum to the course total |
| `MockData.GetStatistics` | src/lib/mockData.ts:174-190 | the totals are the seed list lengths and the three status counts sum to the number of seed courses |
| `MockData.SeedStatistics` | src/lib/mockData.ts:96-189 | on the seed data the statistics are 3 courses, 3 students, 3 teachers, one course per status |
| `MockData.LoginMock` | src/lib/mockData.ts:203-220 | success exactly when the e-mail is `admin@example.com`; on success an admin user with the input e-mail and no message; on failure no user and the fixed error message |
| `MockData.LoginIgnoresPassword` | src/lib/mockData.ts:203-205 | the password never changes the login outcome |
| `Students.ClassGroups` | src/app/students/page.tsx:45 | `students.map(s => s.classGroup)`: one class per student, in order |
| `Students.ClassOptionsOf` | src/app/students/page.tsx:44-46 | every class option has its label equal to its value |
| `Students.FilterStudents` | src/app/students/page.tsx:49-53 | with the row predicate `MatchesFilter`: every shown student matches the search text and the class filter, and the list never grows |
| `Students.DeleteStudent` | src/app/students/page.tsx:105 | no remaining record has the deleted id, and the list never grows |
| `Students.Overlay` | src/app/students/page.tsx:114 | `{ ...s, ...values }`: the submitted fields replace the record's, the e-mail and grade the form lacks are kept |
| `Students.EditStudents` | src/app/students/page.tsx:113-115 | the length is kept; a record with the submitted id becomes its overlay, every other record is unchanged |
| `Students.NewStudent` | src/app/students/page.tsx:119-122 | the new id is `s` followed by digits that read as the new length; the record has no e-mail and no grade |
| `Students.AddStudent` | src/app/students/page.tsx:119-123 | one record more, after the unchanged old list |
| `Students.SubmitStudent` | src/app/students/page.tsx:110-125 | a truthy id keeps the length (edit), a missing one adds one record |
| `Students.ClassOptionsSpec` | src/app/students/page.tsx:44-46 | the class options have label equal to value, no duplicate value, exactly the classes occurring in the list, in first-occurrence order |
| `Students.FilterStudentsSpec` | src/app/students/page.tsx:49-53 | a student is shown exactly when it is in the list, the lowered search text occurs in its lowered name or student number, and it is in the selected class or `"all"` is selected; order and multiplicity are kept |
| `Students.FilterStudentsUnfiltered` | src/app/students/page.tsx:49-53 | with empty search text and `"all"`, the whole list shows |
| `Students.DeleteStudentSpec` | src/app/students/page.tsx:104-105 | delete removes every record with the id, keeps every other record in order, and changes nothing for an unknown id |
| `Students.EditStudentsSpec` | src/app/students/page.tsx:111-115 | edit (truthy id) keeps the length, leaves records with another id untouched, overlays the submitted fields on records with the id while keeping their e-mail and grade, and changes nothing for an unknown id |
| `Students.AddStudentSpec` | src/app/students/page.tsx:118-123 | add (falsy id) appends one record with id `s` + (old length + 1) and the submitted fields after the unchanged old list |
| `Students.DeleteThenAddRepeatsId` | src/app/students/page.tsx:104-123 | deleting `s1` from the seed list and then adding gives two records with id `s3` |
| `Students.StudentsPage.constructor` | src/app/students/page.tsx:35-39 | the page starts with no search text, class filter `"all"`, the modal closed and the seed students, so the table shows every seed student |
| `Students.StudentsPage.FilteredStudents` | src/app/students/page.tsx:49-53 | the shown rows are students of the current list that match the current search text and class filter, never more than the list |
| `Students.StudentsPage.ClassOptions` | src/app/students/page.tsx:44-46 | the class drop-down lists each class of the current list once, and only those |
| `Students.StudentsPage.SetSearchText` | src/app/students/page.tsx:218 | typing replaces the search text only |
| `Students.StudentsPage.SetClassFilter` | src/app/students/page.tsx:224 | choosing a class replaces the class filter only |
| `Students.StudentsPage.HandleAdd` | src/app/students/page.tsx:99-102 | "add" opens the modal and changes nothing else |
| `Students.StudentsPage.CancelModal` | src/app/students/page.tsx:252 | cancel closes the modal and changes nothing else |
| `Students.StudentsPage.HandleDelete` | src/app/students/page.tsx:104-107 | the list becomes the delete of the old list; the other state is unchanged |
| `Students.StudentsPage.HandleSubmit` | src/app/students/page.tsx:109-128 | the list becomes the edit or the add of the old list, chosen by the id, and the modal closes |
| `Courses.FilterCourses` | src/app/courses/page.tsx:16-21 | with `MatchesSearch` (lines 17-18) and `MatchesStatus` (line 19): every listed course matches both, and the list never grows |
| `Courses.FilteredCourses` | src/app/courses/page.tsx:16 | the page lists only seed courses, never more than there are |
| `Courses.FilterCoursesSpec` | src/app/courses/page.tsx:16-21 | a course is shown exactly when it is in the list, the lowered search text occurs in its lowered name or code, and its status is the selected one or `"all"` is selected; order and multiplicity are kept |
| `Courses.AllStatusesIsSearchOnly` | src/app/courses/page.tsx:19 | with `"all"` no status constraint applies |
| `Courses.UnknownStatusMatchesNothing` | src/app/courses/page.tsx:19-20 | a status value that is neither `"all"` nor a known literal shows no course |
| `Courses.FilteredCoursesUnfiltered` | src/app/courses/page.tsx:16-21 | with empty search and `"all"` every seed course is shown |
| `Courses.GetStatusColor` | src/app/courses/page.tsx:23-34 | the colour is one of green, blue, orange and default, and it is default exactly for a string that is none of the three statuses |
| `Courses.GetStatusText` | src/app/courses/page.tsx:36-47 | an unknown status is shown as itself; a known one is replaced by a label |
| `Courses.StatusColorsDistinct` | src/app/courses/page.tsx:23-34 | the three statuses get three different colours, none of them the fallback |
| `Courses.UnknownStatusFallback` | src/app/courses/page.tsx:23-47 | any other string gets colour `default` and is shown as its own label |
| `Courses.StatusTextDistinct` | src/app/courses/page.tsx:36-47 | the three statuses get three different labels |
| `Courses.StatusOptionsAgreeWithCards` | src/app/courses/page.tsx:67-77 | the status drop-down labels each status as its cards do and offers every status |
| `Courses.Preview` | src/app/courses/page.tsx:97 | the card preview is the prefix of the description of length min(50, its length) |
| `Courses.PreviewOfShort` | src/app/courses/page.tsx:97 | a description of at most 50 characters is shown whole |
| `Teachers.NewTeacher` | src/app/teachers/page.tsx:26 | `{ id: teachers.length + 1, ...values }`: number one past the length, the submitted fields |
| `Teachers.AddTeacher` | src/app/teachers/page.tsx:26 | one row more, numbered one past the old length, after the unchanged old rows |
| `Teachers.SearchTeachers` | src/app/teachers/page.tsx:37-39 | every result is a seed teacher whose name includes the value, never more rows than the seed list |
| `Teachers.AddTeacherSpec` | src/app/teachers/page.tsx:26 | add appends one teacher numbered old length + 1 with the submitted fields after the unchanged old rows |
| `Teachers.SearchTeachersSpec` | src/app/teachers/page.tsx:36-40 | a search result is an order-preserving subsequence of the seed list holding exactly the seed teachers whose name contains the value, case-sensitively |
| `Teachers.SearchEmptyRestoresSeed` | src/app/teachers/page.tsx:36-40 | searching for the empty string restores the seed list |
| `Teachers.SearchDropsAddedTeacher` | src/app/teachers/page.tsx:24-40 | a teacher added to the seed table is absent after any search |
| `Teachers.SearchThenAddRepeatsId` | src/app/teachers/page.tsx:24-40 | after a search for 李四, adding gives two rows numbered 2 |
| `Teachers.TeachersPage.constructor` | src/app/teachers/page.tsx:15-16 | the page starts with the seed teachers and the modal closed |
| `Teachers.TeachersPage.ShowModal` | src/app/teachers/page.tsx:19-22 | opening the form leaves the table unchanged |
| `Teachers.TeachersPage.HandleOk` | src/app/teachers/page.tsx:24-30 | the table becomes the add of the old table and the modal closes |
| `Teachers.TeachersPage.HandleCancel` | src/app/teachers/page.tsx:32-34 | cancel closes the modal and leaves the table unchanged |
| `Teachers.TeachersPage.HandleSearch` | src/app/teachers/page.tsx:36-41 | the table becomes the search of the seed list, whatever it was before |
| `TeachingQuality.TeacherNames` | src/app/teaching-quality-analysis/page.tsx:40 | `mockTeachers.map(t => t.name)`: one name per teacher, in order |
| `TeachingQuality.CourseNames` | src/app/teaching-quality-analysis/page.tsx:42 | `mockCourses.map(c => c.name)`: one name per course, in order |
| `TeachingQuality.GetFilterOptions` | src/app/teaching-quality-analysis/page.tsx:35-46 | by class the options have no duplicates; by teacher or course there is one per seed record; any other type gives none |
| `TeachingQuality.ClassFilterOptions` | src/app/teaching-quality-analysis/page.tsx:37-38 | by class: the distinct classes of the seed students, duplicate-free, in first-occurrence order, equal to the student page's initial class options |
| `TeachingQuality.SeedClassOptions` | src/app/teaching-quality-analysis/page.tsx:37-38 | on the seed data the class options are 计算机2101, 计算机2102 |
| `TeachingQuality.OtherFilterOptions` | src/app/teaching-quality-analysis/page.tsx:39-44 | by teacher or course: one name per seed record in seed order; any other type gives the empty list |
| `TeachingQuality.AnalysisPage.FilterOptions` | src/app/teaching-quality-analysis/page.tsx:126 | the second drop-down offers the options of the current filter type, and nothing for an unknown type |
| `TeachingQuality.AnalysisPage.constructor` | src/app/teaching-quality-analysis/page.tsx:30-31 | the page starts with filter type `class` and no selection, so the second drop-down offers 计算机2101 and 计算机2102 |
| `TeachingQuality.AnalysisPage.OnFilterTypeChange` | src/app/teaching-quality-analysis/page.tsx:108-111 | changing the filter type stores it, always resets the selection to `""`, and the second drop-down then offers that type's options |
| `TeachingQuality.AnalysisPage.OnSelectedItemChange` | src/app/teaching-quality-analysis/page.tsx:122 | choosing an item stores it and keeps the filter type |

## Left out

- Case folding: `Strings.Lower` folds only `A`-`Z`. Unicode lowering rules are not modelled. The seed data's Chinese names are unaffected by lowering.
- String length: Dafny characters are Unicode scalar values, while JavaScript's `slice` counts UTF-16 code units. `Courses.Preview` therefore agrees with the source only for text without characters outside the Basic Multilingual Plane, such as the seed descriptions.
- The ellipsis after the preview: the card always appends a literal `...` in its template. That is rendering, so the model does not include it.
- Form validation (`form.validateFields`, the required-field and e-mail rules): the handlers take the already validated values. A failed validation does nothing in the source, and the model does not represent that case.
- The teacher form's age: the number input delivers text in the browser. The model stores the age as an integer, as the seed rows do.
- Form reset, success toasts, the modal titles and the analysis page's placeholder text: these are UI effects with no effect on the lists.
- React state updates: each `setX` call is modelled as an immediate, atomic replacement of its field. Batching and re-render timing are not modelled.
- Excel template download and Excel import (src/app/students/page.tsx:56-97): these depend on a spreadsheet library, the file reader and the clock.
- Random metrics of the analysis page (src/app/teaching-quality-analysis/page.tsx:49-67): these use `Math.random` and floating point.
- The analysis page's date-range handler (src/app/teaching-quality-analysis/page.tsx:134-141): it depends on the date library's `toDate`.
- The HTTP client (src/lib/api.ts), the authentication context, the login, home, layout and not-found pages, the dashboard layout, the route guard and the styling configuration: these are I/O, routing and rendering.
- src/lib/mockData/index.ts: the page files read `classGroup`, which only src/lib/mockData.ts defines, so this model takes src/lib/mockData.ts as the mock data the pages import.
- Id uniqueness: no lemma claims that generated ids are unique, because they are not (see `Students.DeleteThenAddRepeatsId` and `Teachers.SearchThenAddRepeatsId`).
- Course lifecycle phases from dates, and attendance status derivation: no modelled file computes them. The course status is a stored field of the seed data.
