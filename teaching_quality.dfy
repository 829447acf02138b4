/** The teaching-quality analysis page: the filter-type drop-down, which
    decides what the second drop-down offers (classes, teachers or courses
    from the shared mock data), and the selection it resets. */
module TeachingQuality {
  import opened Seqs
  import opened MockData
  import Students

  function TeacherNames(teachers: seq<Teacher>): (r: seq<string>)
    ensures |r| == |teachers|
    ensures forall i :: 0 <= i < |teachers| ==> r[i] == teachers[i].name
  {
    seq(|teachers|, i requires 0 <= i < |teachers| => teachers[i].name)
  }

  function CourseNames(courses: seq<Course>): (r: seq<string>)
    ensures |r| == |courses|
    ensures forall i :: 0 <= i < |courses| ==> r[i] == courses[i].name
  {
    seq(|courses|, i requires 0 <= i < |courses| => courses[i].name)
  }

  /** `getFilterOptions` for a given filter type. */
  function GetFilterOptions(filterType: string): (r: seq<string>)
    ensures filterType == "class" ==> NoDuplicates(r)
    ensures filterType == "teacher" ==> |r| == |MockTeachers|
    ensures filterType == "course" ==> |r| == |MockCourses|
    ensures filterType !in {"class", "teacher", "course"} ==> r == []
  {
    if filterType == "class" then Distinct(Students.ClassGroups(MockStudents))
    else if filterType == "teacher" then TeacherNames(MockTeachers)
    else if filterType == "course" then CourseNames(MockCourses)
    else []
  }

  /** By class: each class of the seed students once, in order of first
      occurrence, the same values the student page offers at start-up. */
  lemma ClassFilterOptions()
    ensures NoDuplicates(GetFilterOptions("class"))
    ensures forall c :: c in GetFilterOptions("class") <==>
      exists i :: 0 <= i < |MockStudents| && MockStudents[i].classGroup == c
    ensures forall i, j :: 0 <= i < j < |GetFilterOptions("class")| ==>
      FirstIndex(Students.ClassGroups(MockStudents), GetFilterOptions("class")[i])
      < FirstIndex(Students.ClassGroups(MockStudents), GetFilterOptions("class")[j])
    ensures GetFilterOptions("class") == Students.Values(Students.ClassOptionsOf(MockStudents))
  {
  }

  /** On the seed data the class options are 计算机2101 then 计算机2102. */
  lemma SeedClassOptions()
    ensures GetFilterOptions("class") == ["计算机2101", "计算机2102"]
  {
    var a, b := "计算机2101", "计算机2102";
    var g := Students.ClassGroups(MockStudents);
    assert g == [a, a, b] by {
      assert MockStudents[0].classGroup == a;
      assert MockStudents[1].classGroup == a;
      assert MockStudents[2].classGroup == b;
    }
    assert a != b by {
      assert a[6] != b[6];
    }
    DistinctRepeatThenNew(a, b);
  }

  /** Helper: a repeated value followed by a new one. */
  lemma DistinctRepeatThenNew(a: string, b: string)
    requires a != b
    ensures Distinct([a, a, b]) == [a, b]
  {
    var none: seq<string> := [];
    assert [a][..0] == none;
    assert Distinct([a]) == [a];
    assert [a, a][..1] == [a];
    assert Distinct([a, a]) == [a];
    assert [a, a, b][..2] == [a, a];
  }

  /** By teacher or by course: one name per seed record, in seed order; any
      other filter type offers nothing. */
  lemma OtherFilterOptions(filterType: string)
    ensures filterType == "teacher" ==>
      |GetFilterOptions(filterType)| == |MockTeachers|
      && forall i :: 0 <= i < |MockTeachers| ==> GetFilterOptions(filterType)[i] == MockTeachers[i].name
    ensures filterType == "course" ==>
      |GetFilterOptions(filterType)| == |MockCourses|
      && forall i :: 0 <= i < |MockCourses| ==> GetFilterOptions(filterType)[i] == MockCourses[i].name
    ensures filterType !in {"class", "teacher", "course"} ==> GetFilterOptions(filterType) == []
  {
  }

  /** The state of `TeachingQualityAnalysis` that the filter drop-downs
      change. */
  class AnalysisPage {
    var filterType: string
    var selectedItem: string

    constructor ()
      ensures filterType == "class" && selectedItem == ""
      ensures FilterOptions() == ["计算机2101", "计算机2102"]
    {
      filterType := "class";
      selectedItem := "";
      SeedClassOptions();
    }

    /** The entries of the second drop-down. */
    function FilterOptions(): (r: seq<string>)
      reads this
      ensures filterType !in {"class", "teacher", "course"} ==> r == []
    {
      GetFilterOptions(filterType)
    }

    /** The filter-type drop-down's change handler: a new type always clears
        the selection. */
    method OnFilterTypeChange(value: string)
      modifies this
      ensures filterType == value && selectedItem == ""
      ensures FilterOptions() == GetFilterOptions(value)
    {
      filterType := value;
      selectedItem := "";
    }

    /** The second drop-down's change handler. */
    method OnSelectedItemChange(item: string)
      modifies this
      ensures selectedItem == item && filterType == old(filterType)
    {
      selectedItem := item;
    }
  }
}
