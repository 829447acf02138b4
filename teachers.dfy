/** The teacher management page. It keeps its own seed list of teachers
    (not the one of the shared mock data), appends teachers from a form, and
    searches by name. The search always filters the seed list, not the
    current table. */
module Teachers {
  import opened Seqs
  import opened Strings

  /** A row of the teacher table; the page numbers its rows. */
  datatype TeacherRow = TeacherRow(id: int, name: string, age: int, subject: string, email: string)

  /** The fields the teacher form submits; it has no id field. */
  datatype TeacherForm = TeacherForm(name: string, age: int, subject: string, email: string)

  /** The page's own seed list. */
  const SeedTeachers: seq<TeacherRow> := [
    TeacherRow(1, "张三", 30, "数学", "zhangsan@example.com"),
    TeacherRow(2, "李四", 35, "英语", "lisi@example.com"),
    TeacherRow(3, "王五", 40, "物理", "wangwu@example.com")
  ]

  /** `{ id: teachers.length + 1, ...values }`: the form has no `id`, so the
      spread keeps the computed one. */
  function NewTeacher(values: TeacherForm, n: nat): (r: TeacherRow)
    ensures r.id == n + 1
    ensures r.name == values.name && r.age == values.age && r.subject == values.subject && r.email == values.email
  {
    TeacherRow(n + 1, values.name, values.age, values.subject, values.email)
  }

  /** The list `handleOk` stores. */
  function AddTeacher(teachers: seq<TeacherRow>, values: TeacherForm): (r: seq<TeacherRow>)
    ensures |r| == |teachers| + 1
    ensures r[..|teachers|] == teachers
    ensures r[|teachers|].id == |teachers| + 1
  {
    teachers + [NewTeacher(values, |teachers|)]
  }

  /** The list `handleSearch(value)` stores: the seed teachers whose name
      contains `value`, case-sensitively. */
  function SearchTeachers(value: string): (r: seq<TeacherRow>)
    ensures |r| <= |SeedTeachers|
    ensures forall i :: 0 <= i < |r| ==> r[i] in SeedTeachers && Includes(r[i].name, value)
  {
    Filter(SeedTeachers, (t: TeacherRow) => Includes(t.name, value))
  }

  /** Adding appends exactly one teacher, numbered one past the old length,
      after the unchanged old rows. */
  lemma AddTeacherSpec(teachers: seq<TeacherRow>, values: TeacherForm)
    ensures |AddTeacher(teachers, values)| == |teachers| + 1
    ensures AddTeacher(teachers, values)[..|teachers|] == teachers
    ensures var t := AddTeacher(teachers, values)[|teachers|];
      t.id == |teachers| + 1 && t.name == values.name && t.age == values.age
      && t.subject == values.subject && t.email == values.email
  {
  }

  /** A search result is a sub-list of the seed list, in its order, made of
      exactly the seed teachers whose name contains the search value. */
  lemma SearchTeachersSpec(value: string, t: TeacherRow)
    ensures IsSubsequence(SearchTeachers(value), SeedTeachers)
    ensures t in SearchTeachers(value) <==> t in SeedTeachers && Includes(t.name, value)
    ensures multiset(SearchTeachers(value))[t]
      == if Includes(t.name, value) then multiset(SeedTeachers)[t] else 0
  {
    var p := (x: TeacherRow) => Includes(x.name, value);
    FilterIsSubsequence(SeedTeachers, p);
    FilterMultiset(SeedTeachers, p, t);
  }

  /** Searching for the empty string restores the seed list. */
  lemma SearchEmptyRestoresSeed()
    ensures SearchTeachers("") == SeedTeachers
  {
  }

  /** A teacher added to the seed table is gone after any search: its number
      is 4, and no seed teacher has that number. */
  lemma SearchDropsAddedTeacher(values: TeacherForm, value: string)
    ensures NewTeacher(values, |SeedTeachers|) !in SearchTeachers(value)
  {
  }

  /** Row numbers are not unique: after a search leaves only 李四 (number 2),
      adding a teacher numbers it 2 as well. */
  lemma SearchThenAddRepeatsId(values: TeacherForm)
    ensures var r := AddTeacher(SearchTeachers("李四"), values);
      |r| == 2 && r[0].id == 2 && r[1].id == 2
  {
    var s := SeedTeachers;
    var p := (t: TeacherRow) => Includes(t.name, "李四");
    IncludesSameLength(s[0].name, "李四");
    IncludesSameLength(s[1].name, "李四");
    IncludesSameLength(s[2].name, "李四");
    assert s == [s[0]] + [s[1]] + [s[2]];
    FilterAppend([s[0]] + [s[1]], [s[2]], p);
    FilterAppend([s[0]], [s[1]], p);
    assert SearchTeachers("李四") == [s[1]];
  }

  /** The state of `TeachersPage`. */
  class TeachersPage {
    var teachers: seq<TeacherRow>
    var isModalVisible: bool

    constructor ()
      ensures teachers == SeedTeachers && !isModalVisible
    {
      teachers := SeedTeachers;
      isModalVisible := false;
    }

    /** `showModal`: opens the (cleared) form. */
    method ShowModal()
      modifies this
      ensures isModalVisible && teachers == old(teachers)
    {
      isModalVisible := true;
    }

    /** `handleOk` once the form has validated. */
    method HandleOk(values: TeacherForm)
      modifies this
      ensures teachers == AddTeacher(old(teachers), values)
      ensures !isModalVisible
    {
      teachers := teachers + [NewTeacher(values, |teachers|)];
      isModalVisible := false;
    }

    /** `handleCancel`: closes the form; the table is unchanged. */
    method HandleCancel()
      modifies this
      ensures !isModalVisible && teachers == old(teachers)
    {
      isModalVisible := false;
    }

    /** `handleSearch`: the new table depends on `value` only, never on the
        current one. */
    method HandleSearch(value: string)
      modifies this
      ensures teachers == SearchTeachers(value)
      ensures isModalVisible == old(isModalVisible)
    {
      teachers := Filter(SeedTeachers, (t: TeacherRow) => Includes(t.name, value));
    }
  }
}
