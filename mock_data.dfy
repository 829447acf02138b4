/** The seed data of the dashboard and the two helpers defined beside it:
    the dashboard statistics and the mock credential check. */
module MockData {
  import opened Seqs

  datatype Option<T> = None | Some(value: T)

  datatype Teacher = Teacher(
    id: string,
    name: string,
    title: string,
    department: string,
    phoneNumber: string)

  /** A student record. `email` and `grade` are optional: records added from
      the student form carry neither. */
  datatype Student = Student(
    id: string,
    name: string,
    studentId: string,
    email: Option<string>,
    grade: Option<string>,
    classGroup: string,
    phoneNumber: string)

  datatype CourseSchedule = CourseSchedule(dayOfWeek: int, startTime: string, endTime: string)

  /** The union `"active" | "completed" | "upcoming"`. */
  datatype CourseStatus = Active | Completed | Upcoming

  /** The string literal of each status. */
  function StatusName(st: CourseStatus): (s: string)
    ensures s in {"active", "completed", "upcoming"}
  {
    match st
    case Active => "active"
    case Completed => "completed"
    case Upcoming => "upcoming"
  }

  /** Different statuses have different literals, so comparing literals is
      comparing statuses. */
  lemma StatusNameInjective(a: CourseStatus, b: CourseStatus)
    ensures StatusName(a) == StatusName(b) <==> a == b
  {
  }

  datatype Course = Course(
    id: string,
    code: string,
    name: string,
    description: string,
    status: CourseStatus,
    classroom: string,
    startDate: string,
    endDate: string,
    term: string,
    teachers: seq<Teacher>,
    students: seq<Student>,
    schedule: seq<CourseSchedule>)

  const MockTeachers: seq<Teacher> := [
    Teacher("t1", "张教授", "教授", "计算机科学系", "13800138001"),
    Teacher("t2", "李副教授", "副教授", "计算机科学系", "13800138002"),
    Teacher("t3", "王讲师", "讲师", "计算机科学系", "13800138003")
  ]

  const MockStudents: seq<Student> := [
    Student("s1", "张三", "2021001", Some("s1@example.com"), Some("大一"), "计算机2101", "13900139001"),
    Student("s2", "李四", "2021002", Some("s2@example.com"), Some("大一"), "计算机2101", "13900139002"),
    Student("s3", "王五", "2021003", Some("s3@example.com"), Some("大一"), "计算机2102", "13900139003")
  ]

  const MockCourses: seq<Course> := [
    Course("c1", "CS101", "计算机导论",
      "本课程介绍计算机科学的基本概念和原理，包括计算机系统组成、程序设计基础等内容。",
      Active, "教学楼A-101", "2024-03-01", "2024-07-01", "2024春季学期",
      [MockTeachers[0]], MockStudents[0..2],
      [CourseSchedule(1, "08:00", "09:40"), CourseSchedule(3, "10:00", "11:40")]),
    Course("c2", "CS102", "数据结构",
      "本课程介绍基本数据结构和算法，包括数组、链表、树、图等数据结构的原理和实现。",
      Upcoming, "教学楼B-202", "2024-03-15", "2024-07-15", "2024春季学期",
      [MockTeachers[1]], MockStudents[1..3],
      [CourseSchedule(2, "14:00", "15:40"), CourseSchedule(4, "16:00", "17:40")]),
    Course("c3", "CS103", "操作系统",
      "本课程介绍操作系统的基本概念、原理和实现技术，包括进程管理、内存管理、文件系统等内容。",
      Completed, "教学楼C-303", "2024-02-01", "2024-06-01", "2024春季学期",
      [MockTeachers[2]], MockStudents,
      [CourseSchedule(1, "14:00", "15:40"), CourseSchedule(3, "16:00", "17:40")])
  ]

  // ---------------------------------------------------------------------
  // Statistics

  datatype Statistics = Statistics(
    totalCourses: nat,
    totalStudents: nat,
    totalTeachers: nat,
    activeCourses: nat,
    upcomingCourses: nat,
    completedCourses: nat)

  /** `courses.filter(course => course.status === st).length`. */
  function CountWithStatus(courses: seq<Course>, st: CourseStatus): (r: nat)
    ensures r <= |courses|
  {
    |Filter(courses, (c: Course) => c.status == st)|
  }

  /** The status column of a course list. */
  function Statuses(courses: seq<Course>): (r: seq<CourseStatus>)
    ensures |r| == |courses|
    ensures forall i :: 0 <= i < |courses| ==> r[i] == courses[i].status
  {
    seq(|courses|, i requires 0 <= i < |courses| => courses[i].status)
  }

  /** The count of a status is the number of times it occurs in the status
      column. */
  lemma {:induction false} CountWithStatusOccurrences(courses: seq<Course>, st: CourseStatus)
    ensures CountWithStatus(courses, st) == multiset(Statuses(courses))[st]
    decreases |courses|
  {
    if courses != [] {
      CountWithStatusOccurrences(courses[1..], st);
      assert Statuses(courses) == [courses[0].status] + Statuses(courses[1..]);
    }
  }

  /** Every course has exactly one of the three statuses, so the three
      counts add up to the number of courses. */
  lemma {:induction false} StatusCountsPartition(courses: seq<Course>)
    ensures CountWithStatus(courses, Active) + CountWithStatus(courses, Upcoming)
            + CountWithStatus(courses, Completed) == |courses|
    decreases |courses|
  {
    if courses != [] {
      StatusCountsPartition(courses[1..]);
    }
  }

  /** The statistics of the given lists; `getStatistics` applies it to the
      seed lists. */
  function StatisticsOf(courses: seq<Course>, students: seq<Student>, teachers: seq<Teacher>): (r: Statistics)
    ensures r.totalCourses == |courses| && r.totalStudents == |students| && r.totalTeachers == |teachers|
    ensures r.activeCourses == multiset(Statuses(courses))[Active]
    ensures r.upcomingCourses == multiset(Statuses(courses))[Upcoming]
    ensures r.completedCourses == multiset(Statuses(courses))[Completed]
    ensures r.activeCourses + r.upcomingCourses + r.completedCourses == r.totalCourses
  {
    StatusCountsPartition(courses);
    CountWithStatusOccurrences(courses, Active);
    CountWithStatusOccurrences(courses, Upcoming);
    CountWithStatusOccurrences(courses, Completed);
    Statistics(
      |courses|, |students|, |teachers|,
      CountWithStatus(courses, Active),
      CountWithStatus(courses, Upcoming),
      CountWithStatus(courses, Completed))
  }

  /** `getStatistics()`: the statistics of the seed lists. */
  function GetStatistics(): (r: Statistics)
    ensures r.totalCourses == |MockCourses| && r.totalStudents == |MockStudents| && r.totalTeachers == |MockTeachers|
    ensures r.activeCourses + r.upcomingCourses + r.completedCourses == r.totalCourses
  {
    StatisticsOf(MockCourses, MockStudents, MockTeachers)
  }

  /** On the seed data: three courses, one in each status. */
  lemma SeedStatistics()
    ensures GetStatistics() == Statistics(3, 3, 3, 1, 1, 1)
  {
    var c := MockCourses;
    assert c == [c[0]] + [c[1]] + [c[2]];
    var active := (x: Course) => x.status == Active;
    var upcoming := (x: Course) => x.status == Upcoming;
    FilterAppend([c[0]] + [c[1]], [c[2]], active);
    FilterAppend([c[0]], [c[1]], active);
    FilterAppend([c[0]] + [c[1]], [c[2]], upcoming);
    FilterAppend([c[0]], [c[1]], upcoming);
    assert CountWithStatus(c, Active) == 1;
    assert CountWithStatus(c, Upcoming) == 1;
    StatusCountsPartition(c);
  }

  // ---------------------------------------------------------------------
  // Mock login

  datatype Role = Admin | TeacherRole | StudentRole

  datatype User = User(id: string, email: string, role: Role, name: string)

  datatype LoginResponse = LoginResponse(success: bool, user: Option<User>, message: Option<string>)

  const AdminEmail: string := "admin@example.com"
  const LoginFailureMessage: string := "用户名或密码错误"

  /** `loginMock`: only the e-mail address is checked. */
  function LoginMock(email: string, password: string): (r: LoginResponse)
    ensures r.success <==> email == AdminEmail
    ensures r.success ==> r.user == Some(User("1", email, Admin, "管理员")) && r.message == None
    ensures !r.success ==> r.user == None && r.message == Some(LoginFailureMessage)
  {
    if email == AdminEmail then
      LoginResponse(true, Some(User("1", AdminEmail, Admin, "管理员")), None)
    else
      LoginResponse(false, None, Some(LoginFailureMessage))
  }

  /** The password never changes the outcome. */
  lemma LoginIgnoresPassword(email: string, p1: string, p2: string)
    ensures LoginMock(email, p1) == LoginMock(email, p2)
  {
  }
}
