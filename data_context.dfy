/** The in-memory store the pages share: the teachers (each with its
    courses), the bookings and the favourite teacher ids, with the five
    operations the provider hands out. */
module DataContext {
  import opened Wrappers
  import Lists
  import Text

  /** A course a teacher offers. Ratings are decimal values such as 4.9. */
  datatype Course = Course(
    id: int, title: string, style: string, level: string,
    price: string, duration: string, reviews: int, rating: real)

  /** A teacher; `courses` is `None` for a record without a `courses` field.
      Display-only fields (image, bio, coordinates, ...) are not modelled. */
  datatype Teacher = Teacher(
    id: int, name: string, style: string, styles: seq<string>,
    location: string, price: string, courses: Option<seq<Course>>)

  datatype Booking = Booking(
    id: int, teacherId: int, status: string, statusLabel: string,
    teacher: string, date: string, time: string, price: string)

  /** The object handed to `addBooking`: `id`, `status` and `statusLabel`
      may be absent, in which case the defaults apply. */
  datatype BookingRequest = BookingRequest(
    id: Option<int>, status: Option<string>, statusLabel: Option<string>,
    teacherId: int, teacher: string, date: string, time: string, price: string)

  datatype User = User(id: string, name: string, role: string)

  /** What `deleteCourse` throws: reading `courses.filter` on a teacher
      record that has no `courses` field. */
  datatype StoreError = CoursesMissing(teacherId: int)

  const DefaultStatus := "upcoming"
  const DefaultStatusLabel := "Payé"

  /** `t.courses ? [...t.courses] : []` */
  function CoursesOf(t: Teacher): seq<Course>
  {
    match t.courses
    case None => []
    case Some(cs) => cs
  }

  /** `findIndex(c => c.id === id)`: the first position holding that id, or -1. */
  function FindCourseIndex(cs: seq<Course>, id: int): (k: int)
    ensures -1 <= k < |cs|
    ensures k >= 0 ==> cs[k].id == id && forall j :: 0 <= j < k ==> cs[j].id != id
    ensures k == -1 <==> forall j :: 0 <= j < |cs| ==> cs[j].id != id
  {
    if cs == [] then -1
    else if cs[0].id == id then 0
    else
      var k := FindCourseIndex(cs[1..], id);
      if k == -1 then -1 else k + 1
  }

  /** The course list after `addCourse`: the first course with the same id is
      replaced in place, or the course is pushed at the end. */
  function Upserted(cs: seq<Course>, course: Course): (r: seq<Course>)
    ensures course in r
    ensures forall c :: c in r ==> c in cs || c == course
    ensures forall c :: c in cs && c.id != course.id ==> c in r
    ensures |r| == |cs| <==> exists j :: 0 <= j < |cs| && cs[j].id == course.id
    ensures |r| != |cs| ==> |r| == |cs| + 1
  {
    var k := FindCourseIndex(cs, course.id);
    if k >= 0 then
      var r := cs[k := course];
      assert r[k] == course;
      assert forall j :: 0 <= j < |cs| && cs[j].id != course.id ==> r[j] == cs[j];
      r
    else cs + [course]
  }

  /** The teacher after `addCourse`, for the teacher the call targets. */
  function WithCourse(t: Teacher, course: Course): Teacher
  {
    t.(courses := Some(Upserted(CoursesOf(t), course)))
  }

  /** The teacher list after `addCourse(teacherId, course)`. */
  function AddCourseTo(ts: seq<Teacher>, teacherId: int, course: Course): (r: seq<Teacher>)
    ensures |r| == |ts|
    ensures forall i :: 0 <= i < |ts| ==> r[i].id == ts[i].id
    ensures forall i :: 0 <= i < |ts| && ts[i].id == teacherId ==> course in CoursesOf(r[i])
    ensures forall i :: 0 <= i < |ts| && ts[i].id != teacherId ==> r[i] == ts[i]
  {
    seq(|ts|, i requires 0 <= i < |ts| =>
      if ts[i].id == teacherId then WithCourse(ts[i], course) else ts[i])
  }

  /** The teacher list after `deleteCourse(teacherId, courseId)`, or the error
      thrown when a targeted teacher has no `courses` field. */
  function DeleteCourseFrom(ts: seq<Teacher>, teacherId: int, courseId: int): (r: Result<seq<Teacher>, StoreError>)
    ensures r.Err? <==> exists i :: 0 <= i < |ts| && ts[i].id == teacherId && ts[i].courses.None?
  {
    if exists i :: 0 <= i < |ts| && ts[i].id == teacherId && ts[i].courses.None? then
      Err(CoursesMissing(teacherId))
    else
      Ok(seq(|ts|, i requires 0 <= i < |ts| =>
        if ts[i].id == teacherId
        then ts[i].(courses := Some(Lists.Filter((c: Course) => c.id != courseId, ts[i].courses.value)))
        else ts[i]))
  }

  /** `{ id: now, status: 'upcoming', statusLabel: 'Payé', ...request }`:
      fields present in the request override the defaults. */
  function NewBooking(request: BookingRequest, now: int): (b: Booking)
    ensures request.id.None? ==> b.id == now
    ensures request.status.None? ==> b.status == DefaultStatus
    ensures request.statusLabel.None? ==> b.statusLabel == DefaultStatusLabel
    ensures request.status.Some? ==> b.status == request.status.value
    ensures request.statusLabel.Some? ==> b.statusLabel == request.statusLabel.value
    ensures request.id.Some? ==> b.id == request.id.value
    ensures b.teacherId == request.teacherId && b.price == request.price
    ensures b.teacher == request.teacher && b.date == request.date && b.time == request.time
  {
    Booking(
      match request.id case None => now case Some(id) => id,
      request.teacherId,
      match request.status case None => DefaultStatus case Some(s) => s,
      match request.statusLabel case None => DefaultStatusLabel case Some(l) => l,
      request.teacher, request.date, request.time, request.price)
  }

  /** `teachers.find(t => t.id === id)`: the first teacher with that id. */
  function FindTeacher(ts: seq<Teacher>, id: int): (r: Option<Teacher>)
    ensures r.None? <==> forall i :: 0 <= i < |ts| ==> ts[i].id != id
    ensures r.Some? ==> r.value.id == id
    ensures r.Some? ==> exists k :: 0 <= k < |ts| && ts[k] == r.value && forall j :: 0 <= j < k ==> ts[j].id != id
  {
    if ts == [] then None
    else if ts[0].id == id then Some(ts[0])
    else
      FindTeacher(ts[1..], id)
  }

  /** `getTeacherById(id)`: the id is read with `parseInt`, and a text that
      does not start with a number finds nobody. */
  function TeacherById(ts: seq<Teacher>, idText: string): (r: Option<Teacher>)
    ensures Text.ParseInt(idText).None? ==> r.None?
    ensures r.Some? ==> r.value in ts && Text.ParseInt(idText) == Some(r.value.id)
    ensures Text.ParseInt(idText).Some? ==> r == FindTeacher(ts, Text.ParseInt(idText).value)
  {
    match Text.ParseInt(idText)
    case None => None
    case Some(id) => FindTeacher(ts, id)
  }

  /** Passing a number `n` (which `parseInt` reads as `String(n)`) finds the
      first teacher whose id is `n`. */
  lemma TeacherByNumber(ts: seq<Teacher>, n: int)
    ensures TeacherById(ts, Text.IntToString(n)) == FindTeacher(ts, n)
  {
    Text.ParseIntRoundTrip(n);
  }

  /** `addCourse`, when a course with the same id exists: the first such
      course is replaced at its position and the count is unchanged. */
  lemma {:induction false} UpsertReplacesFirst(cs: seq<Course>, course: Course, k: nat)
    requires k < |cs| && cs[k].id == course.id
    requires forall j :: 0 <= j < k ==> cs[j].id != course.id
    ensures Upserted(cs, course) == cs[k := course]
    ensures |Upserted(cs, course)| == |cs|
  {
    var f := FindCourseIndex(cs, course.id);
    assert f != -1;
    assert !(f < k) && !(k < f);
  }

  /** `addCourse`, when no course has that id: it is appended. */
  lemma UpsertAppends(cs: seq<Course>, course: Course)
    requires forall j :: 0 <= j < |cs| ==> cs[j].id != course.id
    ensures Upserted(cs, course) == cs + [course]
  {
  }

  /** Upserting the same course twice is upserting it once. */
  lemma {:induction false} UpsertIdempotent(cs: seq<Course>, course: Course)
    ensures Upserted(Upserted(cs, course), course) == Upserted(cs, course)
  {
    var k := FindCourseIndex(cs, course.id);
    var once := Upserted(cs, course);
    if k >= 0 {
      UpsertReplacesFirst(once, course, k);
    } else {
      UpsertReplacesFirst(once, course, |cs|);
    }
  }

  /** `addCourse` leaves the list length, the order and every other teacher
      alone, and on the targeted teachers changes only `courses`. */
  lemma AddCourseFrame(ts: seq<Teacher>, teacherId: int, course: Course)
    ensures |AddCourseTo(ts, teacherId, course)| == |ts|
    ensures forall i :: 0 <= i < |ts| && ts[i].id != teacherId ==> AddCourseTo(ts, teacherId, course)[i] == ts[i]
    ensures forall i :: 0 <= i < |ts| && ts[i].id == teacherId ==>
      AddCourseTo(ts, teacherId, course)[i] == ts[i].(courses := Some(Upserted(CoursesOf(ts[i]), course)))
  {
  }

  /** A targeted teacher without a `courses` field ends with exactly `[course]`. */
  lemma AddCourseToTeacherWithoutCourses(ts: seq<Teacher>, teacherId: int, course: Course, i: nat)
    requires i < |ts| && ts[i].id == teacherId && ts[i].courses.None?
    ensures AddCourseTo(ts, teacherId, course)[i].courses == Some([course])
  {
    assert CoursesOf(ts[i]) == [];
    assert [] + [course] == [course];
  }

  /** `addCourse` is idempotent on the whole teacher list. */
  lemma AddCourseIdempotent(ts: seq<Teacher>, teacherId: int, course: Course)
    ensures AddCourseTo(AddCourseTo(ts, teacherId, course), teacherId, course)
         == AddCourseTo(ts, teacherId, course)
  {
    var once := AddCourseTo(ts, teacherId, course);
    forall i | 0 <= i < |ts| && ts[i].id == teacherId
      ensures WithCourse(once[i], course) == once[i]
    {
      UpsertIdempotent(CoursesOf(ts[i]), course);
    }
  }

  /** `deleteCourse` on success: other teachers are untouched, and a targeted
      teacher keeps, in order, exactly its courses with a different id. */
  lemma DeleteCourseEffect(ts: seq<Teacher>, teacherId: int, courseId: int)
    requires DeleteCourseFrom(ts, teacherId, courseId).Ok?
    ensures var r := DeleteCourseFrom(ts, teacherId, courseId).value;
      && |r| == |ts|
      && (forall i :: 0 <= i < |ts| && ts[i].id != teacherId ==> r[i] == ts[i])
      && (forall i :: 0 <= i < |ts| && ts[i].id == teacherId ==>
            && r[i] == ts[i].(courses := r[i].courses)
            && r[i].courses.Some?
            && (forall j :: 0 <= j < |CoursesOf(r[i])| ==> CoursesOf(r[i])[j].id != courseId)
            && (forall c :: c in CoursesOf(ts[i]) && c.id != courseId ==> c in CoursesOf(r[i]))
            && Lists.IsSubsequence(CoursesOf(r[i]), CoursesOf(ts[i])))
  {
    var r := DeleteCourseFrom(ts, teacherId, courseId).value;
    forall i | 0 <= i < |ts| && ts[i].id == teacherId
      ensures Lists.IsSubsequence(CoursesOf(r[i]), CoursesOf(ts[i]))
    {
      Lists.FilterIsSubsequence((c: Course) => c.id != courseId, ts[i].courses.value);
    }
  }

  /** The state the provider holds. Each setter call replaces one field. */
  class Store {
    var teachers: seq<Teacher>
    var bookings: seq<Booking>
    var favorites: seq<int>
    var currentUser: User

    /** The provider starts from the lists it was given (saved or initial data)
        and the simulated student user. */
    constructor (initialTeachers: seq<Teacher>, initialBookings: seq<Booking>, initialFavorites: seq<int>)
      ensures teachers == initialTeachers && bookings == initialBookings && favorites == initialFavorites
      ensures currentUser == User("student-1", "Étudiant Test", "student")
    {
      teachers := initialTeachers;
      bookings := initialBookings;
      favorites := initialFavorites;
      currentUser := User("student-1", "Étudiant Test", "student");
    }

    /** `addCourse(teacherId, course)`: maps over the teachers; for a target,
        copies its course list and upserts the course into the copy. */
    method AddCourse(teacherId: int, course: Course)
      modifies this
      ensures teachers == AddCourseTo(old(teachers), teacherId, course)
      ensures bookings == old(bookings) && favorites == old(favorites) && currentUser == old(currentUser)
    {
      var next: seq<Teacher> := [];
      var i := 0;
      while i < |teachers|
        invariant 0 <= i <= |teachers|
        invariant |next| == i
        invariant teachers == old(teachers) && bookings == old(bookings)
        invariant favorites == old(favorites) && currentUser == old(currentUser)
        invariant forall j :: 0 <= j < i ==> next[j] == AddCourseTo(teachers, teacherId, course)[j]
      {
        var t := teachers[i];
        if t.id == teacherId {
          var updated := UpsertCourse(CoursesOf(t), course);
          next := next + [t.(courses := Some(updated))];
        } else {
          next := next + [t];
        }
        i := i + 1;
      }
      teachers := next;
    }

    /** `deleteCourse(teacherId, courseId)`; `error` is the exception thrown
        for a targeted teacher without a `courses` field, in which case the
        teachers are left as they were. */
    method DeleteCourse(teacherId: int, courseId: int) returns (error: Option<StoreError>)
      modifies this
      ensures match DeleteCourseFrom(old(teachers), teacherId, courseId)
        case Ok(r) => error.None? && teachers == r
        case Err(e) => error == Some(e) && teachers == old(teachers)
      ensures bookings == old(bookings) && favorites == old(favorites) && currentUser == old(currentUser)
    {
      match DeleteCourseFrom(teachers, teacherId, courseId)
      case Ok(r) =>
        teachers := r;
        error := None;
      case Err(e) =>
        error := Some(e);
    }

    /** `addBooking(request)`: the new booking goes in front. */
    method AddBooking(request: BookingRequest, now: int)
      modifies this
      ensures bookings == [NewBooking(request, now)] + old(bookings)
      ensures teachers == old(teachers) && favorites == old(favorites) && currentUser == old(currentUser)
    {
      bookings := [NewBooking(request, now)] + bookings;
    }

    /** `toggleFavorite(teacherId)` */
    method ToggleFavorite(teacherId: int)
      modifies this
      ensures favorites == Lists.Toggle(old(favorites), teacherId)
      ensures teachers == old(teachers) && bookings == old(bookings) && currentUser == old(currentUser)
    {
      favorites := Lists.Toggle(favorites, teacherId);
    }

    /** `getTeacherById(idText)` */
    method GetTeacherById(idText: string) returns (r: Option<Teacher>)
      ensures r == TeacherById(teachers, idText)
      ensures r.Some? ==> r.value in teachers && Text.ParseInt(idText) == Some(r.value.id)
    {
      match Text.ParseInt(idText)
      case None => r := None;
      case Some(id) => r := FindTeacher(teachers, id);
    }

    /** `setCurrentUser(user)` */
    method SetCurrentUser(user: User)
      modifies this
      ensures currentUser == user
      ensures teachers == old(teachers) && bookings == old(bookings) && favorites == old(favorites)
    {
      currentUser := user;
    }
  }

  /** The callback body of `addCourse` for a targeted teacher: copy the list
      (`[...t.courses]`), then assign the found slot in place or push. */
  method UpsertCourse(courses: seq<Course>, course: Course) returns (updated: seq<Course>)
    ensures updated == Upserted(courses, course)
  {
    var copy := new Course[|courses|](i requires 0 <= i < |courses| => courses[i]);
    assert copy[..] == courses;
    var k := FindCourseIndex(courses, course.id);
    if k >= 0 {
      copy[k] := course;
      updated := copy[..];
    } else {
      updated := copy[..] + [course];
    }
  }
}
