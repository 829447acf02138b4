/** The student management page: a search-and-class filter over the
    in-memory student list, the class options of the filter drop-down, and
    the delete, edit and add handlers that replace the list. */
module Students {
  import opened Seqs
  import opened Strings
  import opened MockData

  /** An entry of a drop-down: `{ value, label }` (`label` is a Dafny keyword, hence `labelText`). */
  datatype SelectOption = SelectOption(value: string, labelText: string)

  /** The fields the student form submits. `id` is the hidden field: `""`
      stands for a missing (falsy) id, which selects the add branch. */
  datatype StudentForm = StudentForm(
    id: string,
    name: string,
    studentId: string,
    classGroup: string,
    phoneNumber: string)

  /** The value that selects "every class" in the class filter. */
  const AllClasses: string := "all"

  // ---------------------------------------------------------------------
  // Class options

  function ClassGroups(students: seq<Student>): (r: seq<string>)
    ensures |r| == |students|
    ensures forall i :: 0 <= i < |students| ==> r[i] == students[i].classGroup
  {
    seq(|students|, i requires 0 <= i < |students| => students[i].classGroup)
  }

  /** `classOptions`: one option per distinct class, value and label alike. */
  function ClassOptionsOf(students: seq<Student>): (r: seq<SelectOption>)
    ensures forall i :: 0 <= i < |r| ==> r[i].labelText == r[i].value
  {
    var d := Distinct(ClassGroups(students));
    seq(|d|, i requires 0 <= i < |d| => SelectOption(d[i], d[i]))
  }

  function Values(options: seq<SelectOption>): seq<string> {
    seq(|options|, i requires 0 <= i < |options| => options[i].value)
  }

  /** The class options list each class occurring in `students` exactly once,
      labelled by itself, in the order of first occurrence. */
  lemma ClassOptionsSpec(students: seq<Student>)
    ensures forall o :: o in ClassOptionsOf(students) ==> o.labelText == o.value
    ensures NoDuplicates(Values(ClassOptionsOf(students)))
    ensures forall c :: c in Values(ClassOptionsOf(students)) <==>
      exists i :: 0 <= i < |students| && students[i].classGroup == c
    ensures forall i, j :: 0 <= i < j < |ClassOptionsOf(students)| ==>
      FirstIndex(ClassGroups(students), ClassOptionsOf(students)[i].value)
      < FirstIndex(ClassGroups(students), ClassOptionsOf(students)[j].value)
  {
    var g := ClassGroups(students);
    var d := Distinct(g);
    assert Values(ClassOptionsOf(students)) == d;
    DistinctFirstOccurrenceOrder(g);
    forall c | c in d ensures exists i :: 0 <= i < |students| && students[i].classGroup == c {
      var k := FirstIndex(g, c);
      assert students[k].classGroup == c;
    }
  }

  // ---------------------------------------------------------------------
  // Filter

  /** The row predicate of `filteredStudents`. */
  predicate MatchesFilter(st: Student, searchText: string, classFilter: string) {
    (Includes(Lower(st.name), Lower(searchText)) || Includes(Lower(st.studentId), Lower(searchText)))
    && (classFilter == AllClasses || st.classGroup == classFilter)
  }

  /** `filteredStudents`. */
  function FilterStudents(students: seq<Student>, searchText: string, classFilter: string): (r: seq<Student>)
    ensures |r| <= |students|
    ensures forall i :: 0 <= i < |r| ==> MatchesFilter(r[i], searchText, classFilter)
  {
    Filter(students, (st: Student) => MatchesFilter(st, searchText, classFilter))
  }

  /** Every listed student matches the search text in its name or student
      number, ignoring case, and is in the selected class unless all classes
      are selected; the list keeps the table's order and every occurrence
      of every matching student. */
  lemma FilterStudentsSpec(students: seq<Student>, searchText: string, classFilter: string, st: Student)
    ensures st in FilterStudents(students, searchText, classFilter) <==>
      st in students
      && (Includes(Lower(st.name), Lower(searchText)) || Includes(Lower(st.studentId), Lower(searchText)))
      && (classFilter == AllClasses || st.classGroup == classFilter)
    ensures IsSubsequence(FilterStudents(students, searchText, classFilter), students)
    ensures multiset(FilterStudents(students, searchText, classFilter))[st]
      == if MatchesFilter(st, searchText, classFilter) then multiset(students)[st] else 0
  {
    var p := (s: Student) => MatchesFilter(s, searchText, classFilter);
    FilterIsSubsequence(students, p);
    FilterMultiset(students, p, st);
  }

  /** With no search text and every class selected, the whole table shows. */
  lemma FilterStudentsUnfiltered(students: seq<Student>)
    ensures FilterStudents(students, "", AllClasses) == students
  {
    forall i | 0 <= i < |students| ensures MatchesFilter(students[i], "", AllClasses) {
      IncludesEmpty(Lower(students[i].name));
    }
    FilterAll(students, (s: Student) => MatchesFilter(s, "", AllClasses));
  }

  // ---------------------------------------------------------------------
  // Delete

  /** `handleDelete(id)`: `students.filter(s => s.id !== id)`. */
  function DeleteStudent(students: seq<Student>, id: string): (r: seq<Student>)
    ensures |r| <= |students|
    ensures forall i :: 0 <= i < |r| ==> r[i].id != id
  {
    Filter(students, (s: Student) => s.id != id)
  }

  /** Delete removes every record with the id and keeps every other record,
      in order; an id no record has leaves the table unchanged. */
  lemma DeleteStudentSpec(students: seq<Student>, id: string, st: Student)
    ensures forall i :: 0 <= i < |DeleteStudent(students, id)| ==> DeleteStudent(students, id)[i].id != id
    ensures IsSubsequence(DeleteStudent(students, id), students)
    ensures multiset(DeleteStudent(students, id))[st] == if st.id == id then 0 else multiset(students)[st]
    ensures (forall i :: 0 <= i < |students| ==> students[i].id != id) ==> DeleteStudent(students, id) == students
  {
    var p := (s: Student) => s.id != id;
    FilterIsSubsequence(students, p);
    FilterMultiset(students, p, st);
    if forall i :: 0 <= i < |students| ==> students[i].id != id {
      FilterAll(students, p);
    }
  }

  // ---------------------------------------------------------------------
  // Edit and add

  /** `{ ...s, ...values }`: the submitted fields replace the record's,
      the fields the form does not have (e-mail, grade) are kept. */
  function Overlay(s: Student, values: StudentForm): (r: Student)
    ensures r.email == s.email && r.grade == s.grade
    ensures r.id == values.id && r.name == values.name && r.studentId == values.studentId
    ensures r.classGroup == values.classGroup && r.phoneNumber == values.phoneNumber
  {
    s.(id := values.id, name := values.name, studentId := values.studentId,
       classGroup := values.classGroup, phoneNumber := values.phoneNumber)
  }

  /** The edit branch: every record with the submitted id is overlaid. */
  function EditStudents(students: seq<Student>, values: StudentForm): (r: seq<Student>)
    ensures |r| == |students|
    ensures forall i :: 0 <= i < |students| && students[i].id != values.id ==> r[i] == students[i]
    ensures forall i :: 0 <= i < |students| && students[i].id == values.id ==> r[i] == Overlay(students[i], values)
  {
    seq(|students|, i requires 0 <= i < |students| =>
      if students[i].id == values.id then Overlay(students[i], values) else students[i])
  }

  /** The record the add branch appends: `{ ...values, id: "s" + (n + 1) }`. */
  function NewStudent(values: StudentForm, n: nat): (r: Student)
    ensures |r.id| >= 2 && r.id[0] == 's'
    ensures forall i :: 1 <= i < |r.id| ==> IsDigit(r.id[i])
    ensures ParseDigits(r.id[1..]) == n + 1
    ensures r.email == None && r.grade == None
  {
    NatToStringRoundTrip(n + 1);
    assert ("s" + NatToString(n + 1))[1..] == NatToString(n + 1);
    Student("s" + NatToString(n + 1), values.name, values.studentId, None, None,
            values.classGroup, values.phoneNumber)
  }

  /** The add branch. */
  function AddStudent(students: seq<Student>, values: StudentForm): (r: seq<Student>)
    ensures |r| == |students| + 1
    ensures r[..|students|] == students
  {
    students + [NewStudent(values, |students|)]
  }

  /** `handleSubmit`: a truthy id edits, a missing one adds. */
  function SubmitStudent(students: seq<Student>, values: StudentForm): (r: seq<Student>)
    ensures |r| == if values.id != "" then |students| else |students| + 1
  {
    if values.id != "" then EditStudents(students, values) else AddStudent(students, values)
  }

  /** Edit keeps the length; a record with another id is untouched; a
      record with the id gets the submitted fields over its own, keeping its
      e-mail and grade; an unknown id changes nothing. */
  lemma EditStudentsSpec(students: seq<Student>, values: StudentForm)
    requires values.id != ""
    ensures |SubmitStudent(students, values)| == |students|
    ensures forall i :: 0 <= i < |students| && students[i].id != values.id ==>
      SubmitStudent(students, values)[i] == students[i]
    ensures forall i :: 0 <= i < |students| && students[i].id == values.id ==>
      var r := SubmitStudent(students, values)[i];
      r.id == students[i].id && r.name == values.name && r.studentId == values.studentId
      && r.classGroup == values.classGroup && r.phoneNumber == values.phoneNumber
      && r.email == students[i].email && r.grade == students[i].grade
    ensures (forall i :: 0 <= i < |students| ==> students[i].id != values.id) ==>
      SubmitStudent(students, values) == students
  {
  }

  /** Add appends exactly one record, with id `s` followed by the new
      length, after the unchanged old records. */
  lemma AddStudentSpec(students: seq<Student>, values: StudentForm)
    requires values.id == ""
    ensures |SubmitStudent(students, values)| == |students| + 1
    ensures SubmitStudent(students, values)[..|students|] == students
    ensures SubmitStudent(students, values)[|students|].id == "s" + NatToString(|students| + 1)
    ensures var r := SubmitStudent(students, values)[|students|];
      r.name == values.name && r.studentId == values.studentId
      && r.classGroup == values.classGroup && r.phoneNumber == values.phoneNumber
      && r.email == None && r.grade == None
  {
  }

  /** The generated id is not fresh: after deleting `s1` from the seed list,
      adding a student produces a second `s3`. */
  lemma DeleteThenAddRepeatsId(values: StudentForm)
    requires values.id == ""
    ensures var r := SubmitStudent(DeleteStudent(MockStudents, "s1"), values);
      |r| == 3 && r[1].id == "s3" && r[2].id == "s3"
  {
  }

  // ---------------------------------------------------------------------
  // The page state

  /** The state of `StudentsPage`; each setter replaces one field. */
  class StudentsPage {
    var searchText: string
    var classFilter: string
    var isModalOpen: bool
    var students: seq<Student>

    constructor ()
      ensures searchText == "" && classFilter == AllClasses && !isModalOpen
      ensures students == MockStudents
      ensures FilteredStudents() == MockStudents
    {
      searchText := "";
      classFilter := AllClasses;
      isModalOpen := false;
      students := MockStudents;
      FilterStudentsUnfiltered(MockStudents);
    }

    /** The rows the table shows. */
    function FilteredStudents(): (r: seq<Student>)
      reads this
      ensures |r| <= |students|
      ensures forall i :: 0 <= i < |r| ==> r[i] in students && MatchesFilter(r[i], searchText, classFilter)
    {
      FilterStudents(students, searchText, classFilter)
    }

    /** The options of the class drop-down, after the fixed "all" entry. */
    function ClassOptions(): (r: seq<SelectOption>)
      reads this
      ensures NoDuplicates(Values(r))
      ensures forall c :: c in Values(r) <==> exists i :: 0 <= i < |students| && students[i].classGroup == c
    {
      ClassOptionsSpec(students);
      ClassOptionsOf(students)
    }

    method SetSearchText(text: string)
      modifies this
      ensures searchText == text
      ensures classFilter == old(classFilter) && isModalOpen == old(isModalOpen) && students == old(students)
    {
      searchText := text;
    }

    method SetClassFilter(filter: string)
      modifies this
      ensures classFilter == filter
      ensures searchText == old(searchText) && isModalOpen == old(isModalOpen) && students == old(students)
    {
      classFilter := filter;
    }

    /** `handleAdd`: opens the (cleared) form. */
    method HandleAdd()
      modifies this
      ensures isModalOpen
      ensures searchText == old(searchText) && classFilter == old(classFilter) && students == old(students)
    {
      isModalOpen := true;
    }

    /** The modal's cancel button. */
    method CancelModal()
      modifies this
      ensures !isModalOpen
      ensures searchText == old(searchText) && classFilter == old(classFilter) && students == old(students)
    {
      isModalOpen := false;
    }

    method HandleDelete(id: string)
      modifies this
      ensures students == DeleteStudent(old(students), id)
      ensures searchText == old(searchText) && classFilter == old(classFilter) && isModalOpen == old(isModalOpen)
    {
      students := Filter(students, (s: Student) => s.id != id);
    }

    /** `handleSubmit` once the form has validated: edit or add, then close. */
    method HandleSubmit(values: StudentForm)
      modifies this
      ensures students == SubmitStudent(old(students), values)
      ensures !isModalOpen
      ensures searchText == old(searchText) && classFilter == old(classFilter)
    {
      if values.id != "" {
        students := EditStudents(students, values);
      } else {
        var newStudent := NewStudent(values, |students|);
        students := students + [newStudent];
      }
      isModalOpen := false;
    }
  }
}
