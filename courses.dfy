/** The course list page: a name-or-code search combined with a status
    filter over the seed courses, the two status lookup tables used by each
    course card, and the card's description preview. */
module Courses {
  import opened Seqs
  import opened Strings
  import opened MockData

  /** The value of the status drop-down that disables the status filter. */
  const AllStatuses: string := "all"

  /** The length of the description preview on a card. */
  const PreviewLength: nat := 50

  /** `matchSearch`: the search text occurs in the name or the code,
      ignoring case. */
  predicate MatchesSearch(c: Course, searchText: string) {
    Includes(Lower(c.name), Lower(searchText)) || Includes(Lower(c.code), Lower(searchText))
  }

  /** `matchStatus`. */
  predicate MatchesStatus(c: Course, status: string) {
    if status == AllStatuses then true else StatusName(c.status) == status
  }

  /** The filter of `filteredCourses`, over any course list. */
  function FilterCourses(courses: seq<Course>, searchText: string, status: string): (r: seq<Course>)
    ensures |r| <= |courses|
    ensures forall i :: 0 <= i < |r| ==> MatchesSearch(r[i], searchText) && MatchesStatus(r[i], status)
  {
    Filter(courses, (c: Course) => MatchesSearch(c, searchText) && MatchesStatus(c, status))
  }

  /** `filteredCourses`: the filter applied to the seed courses. */
  function FilteredCourses(searchText: string, status: string): (r: seq<Course>)
    ensures |r| <= |MockCourses|
    ensures forall i :: 0 <= i < |r| ==> r[i] in MockCourses
  {
    FilterCourses(MockCourses, searchText, status)
  }

  /** A listed course matches the search in its name or code and has the
      selected status (any status when "all" is selected); the list keeps
      the order of `courses` and every occurrence of every matching course. */
  lemma FilterCoursesSpec(courses: seq<Course>, searchText: string, status: string, c: Course)
    ensures c in FilterCourses(courses, searchText, status) <==>
      c in courses
      && (Includes(Lower(c.name), Lower(searchText)) || Includes(Lower(c.code), Lower(searchText)))
      && (status == AllStatuses || StatusName(c.status) == status)
    ensures IsSubsequence(FilterCourses(courses, searchText, status), courses)
    ensures multiset(FilterCourses(courses, searchText, status))[c]
      == if MatchesSearch(c, searchText) && MatchesStatus(c, status) then multiset(courses)[c] else 0
  {
    var p := (x: Course) => MatchesSearch(x, searchText) && MatchesStatus(x, status);
    FilterIsSubsequence(courses, p);
    FilterMultiset(courses, p, c);
  }

  /** With "all" selected, only the search constrains the list. */
  lemma AllStatusesIsSearchOnly(courses: seq<Course>, searchText: string)
    ensures FilterCourses(courses, searchText, AllStatuses)
         == Filter(courses, (c: Course) => MatchesSearch(c, searchText))
  {
    FilterSameOnElements(courses,
      (c: Course) => MatchesSearch(c, searchText) && MatchesStatus(c, AllStatuses),
      (c: Course) => MatchesSearch(c, searchText));
  }

  /** Helper: predicates that agree on the elements filter alike. */
  lemma {:induction false} FilterSameOnElements(courses: seq<Course>, p: Course -> bool, q: Course -> bool)
    requires forall i :: 0 <= i < |courses| ==> p(courses[i]) == q(courses[i])
    ensures Filter(courses, p) == Filter(courses, q)
    decreases |courses|
  {
    if courses != [] {
      FilterSameOnElements(courses[1..], p, q);
    }
  }

  /** A status value other than "all" and the three literals matches no
      course, because a course's status is always one of the three. */
  lemma UnknownStatusMatchesNothing(courses: seq<Course>, searchText: string, status: string)
    requires status !in {AllStatuses, "active", "completed", "upcoming"}
    ensures FilterCourses(courses, searchText, status) == []
  {
    FilterNone(courses, (c: Course) => MatchesSearch(c, searchText) && MatchesStatus(c, status));
  }

  /** With an empty search and "all", every seed course is shown. */
  lemma FilteredCoursesUnfiltered()
    ensures FilteredCourses("", AllStatuses) == MockCourses
  {
    forall i | 0 <= i < |MockCourses|
      ensures MatchesSearch(MockCourses[i], "") && MatchesStatus(MockCourses[i], AllStatuses)
    {
      IncludesEmpty(Lower(MockCourses[i].name));
    }
    FilterAll(MockCourses, (c: Course) => MatchesSearch(c, "") && MatchesStatus(c, AllStatuses));
  }

  // ---------------------------------------------------------------------
  // Status lookup tables

  /** `getStatusColor`. */
  function GetStatusColor(status: string): (r: string)
    ensures r in {"green", "blue", "orange", "default"}
    ensures r == "default" <==> status !in {"active", "completed", "upcoming"}
  {
    if status == "active" then "green"
    else if status == "completed" then "blue"
    else if status == "upcoming" then "orange"
    else "default"
  }

  /** `getStatusText`. */
  function GetStatusText(status: string): (r: string)
    ensures status !in {"active", "completed", "upcoming"} ==> r == status
    ensures status in {"active", "completed", "upcoming"} ==> r != status
  {
    if status == "active" then "进行中"
    else if status == "completed" then "已结束"
    else if status == "upcoming" then "即将开始"
    else status
  }

  /** Each course status gets its own colour, never the fallback. */
  lemma StatusColorsDistinct(a: CourseStatus, b: CourseStatus)
    ensures GetStatusColor(StatusName(a)) != "default"
    ensures GetStatusColor(StatusName(a)) == GetStatusColor(StatusName(b)) <==> a == b
  {
  }

  /** A status outside the three known literals shows the fallback colour
      and itself as its label. */
  lemma UnknownStatusFallback(status: string)
    requires status !in {"active", "completed", "upcoming"}
    ensures GetStatusColor(status) == "default"
    ensures GetStatusText(status) == status
  {
  }

  /** The three known statuses get three different labels. */
  lemma StatusTextDistinct(a: CourseStatus, b: CourseStatus)
    ensures GetStatusText(StatusName(a)) == GetStatusText(StatusName(b)) <==> a == b
  {
  }

  /** The options of the status drop-down. */
  const StatusOptions: seq<(string, string)> := [
    ("all", "全部状态"),
    ("active", "进行中"),
    ("completed", "已结束"),
    ("upcoming", "即将开始")
  ]

  /** The drop-down labels the statuses exactly as the cards do, and offers
      every status. */
  lemma StatusOptionsAgreeWithCards()
    ensures forall i :: 1 <= i < |StatusOptions| ==> StatusOptions[i].1 == GetStatusText(StatusOptions[i].0)
    ensures forall st: CourseStatus :: (StatusName(st), GetStatusText(StatusName(st))) in StatusOptions[1..]
  {
  }

  // ---------------------------------------------------------------------
  // Description preview

  /** `description.slice(0, 50)`; the card appends a literal "...". */
  function Preview(description: string): (r: string)
    ensures r <= description
    ensures |r| == if |description| < PreviewLength then |description| else PreviewLength
  {
    if |description| < PreviewLength then description else description[..PreviewLength]
  }

  /** A description of at most 50 characters is shown whole. */
  lemma PreviewOfShort(description: string)
    requires |description| <= PreviewLength
    ensures Preview(description) == description
  {
  }
}
