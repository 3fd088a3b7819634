/** The teacher's course editor: a modal form that either creates a course or
    edits an existing one, and saves through the store's `addCourse`. */
module TeacherCourses {
  import opened Wrappers
  import Text
  import opened DataContext

  /** The simulated logged-in teacher. */
  const CurrentTeacherId := 1

  /** The five fields the form edits. */
  datatype CourseForm = CourseForm(title: string, style: string, level: string, price: string, duration: string)

  datatype Field = Title | Style | Level | Price | Duration

  /** The form for a new course. */
  const BlankForm := CourseForm("", "Ballet", "Débutant", "", "60")

  /** The form filled from an existing course. */
  function FormOf(c: Course): CourseForm
  {
    CourseForm(c.title, c.style, c.level, c.price, c.duration)
  }

  /** `setFormData({ ...formData, [field]: value })` */
  function WithField(f: CourseForm, field: Field, value: string): CourseForm
  {
    match field
    case Title => f.(title := value)
    case Style => f.(style := value)
    case Level => f.(level := value)
    case Price => f.(price := value)
    case Duration => f.(duration := value)
  }

  /** Several `onChange` edits in a row. */
  function WithFields(f: CourseForm, edits: seq<(Field, string)>): CourseForm
    decreases |edits|
  {
    if edits == [] then f else WithFields(WithField(f, edits[0].0, edits[0].1), edits[1..])
  }

  /** Edits of the other fields leave the title and the price alone. */
  lemma {:induction false} WithFieldsKeepsTitleAndPrice(f: CourseForm, edits: seq<(Field, string)>)
    requires forall i :: 0 <= i < |edits| ==> edits[i].0 != Title && edits[i].0 != Price
    ensures WithFields(f, edits).title == f.title && WithFields(f, edits).price == f.price
    decreases |edits|
  {
    if edits != [] {
      WithFieldsKeepsTitleAndPrice(WithField(f, edits[0].0, edits[0].1), edits[1..]);
    }
  }

  /** `handleSave` goes on only with a title and a price. */
  predicate CanSave(f: CourseForm)
    ensures CanSave(f) ==> f != BlankForm
  {
    f.title != "" && f.price != ""
  }

  /** `coursePayload`: the form's five fields, with the id, reviews and
      rating of the course being edited, or the clock value as id and zero
      reviews and rating for a new course. */
  function Payload(f: CourseForm, editing: Option<Course>, now: int): (c: Course)
    ensures FormOf(c) == f
    ensures editing.Some? ==> c.id == editing.value.id && c.reviews == editing.value.reviews
                              && c.rating == editing.value.rating
    ensures editing.None? ==> c.id == now && c.reviews == 0 && c.rating == 0.0
  {
    match editing
    case Some(e) => Course(e.id, f.title, f.style, f.level, f.price, f.duration, e.reviews, e.rating)
    case None => Course(now, f.title, f.style, f.level, f.price, f.duration, 0, 0.0)
  }

  /** `getTeacherById(1)?.courses || []` */
  function ShownCourses(ts: seq<Teacher>): (r: seq<Course>)
    ensures r == [] || exists i :: 0 <= i < |ts| && ts[i].id == CurrentTeacherId && r == CoursesOf(ts[i])
  {
    TeacherByNumber(ts, CurrentTeacherId);
    match TeacherById(ts, Text.IntToString(CurrentTeacherId))
    case None => []
    case Some(t) => CoursesOf(t)
  }

  /** The list shown is the courses of the first teacher with id 1, and empty
      when there is no such teacher or it has no `courses` field. */
  lemma ShownCoursesOfFirstTeacher(ts: seq<Teacher>)
    ensures (forall i :: 0 <= i < |ts| ==> ts[i].id != CurrentTeacherId) ==> ShownCourses(ts) == []
    ensures forall k :: (0 <= k < |ts| && ts[k].id == CurrentTeacherId
      && forall j :: 0 <= j < k ==> ts[j].id != CurrentTeacherId) ==> ShownCourses(ts) == CoursesOf(ts[k])
  {
    TeacherByNumber(ts, CurrentTeacherId);
    forall k | 0 <= k < |ts| && ts[k].id == CurrentTeacherId
      && (forall j :: 0 <= j < k ==> ts[j].id != CurrentTeacherId)
      ensures ShownCourses(ts) == CoursesOf(ts[k])
    {
      var r := FindTeacher(ts, CurrentTeacherId);
      var m :| 0 <= m < |ts| && ts[m] == r.value && forall j :: 0 <= j < m ==> ts[j].id != CurrentTeacherId;
      assert !(m < k) && !(k < m);
    }
  }

  /** A new course can be saved exactly once both its title and its price
      have been typed in, whatever the other fields hold. */
  lemma NewCourseNeedsTitleAndPrice(title: string, price: string, others: seq<(Field, string)>)
    requires forall i :: 0 <= i < |others| ==> others[i].0 != Title && others[i].0 != Price
    ensures !CanSave(BlankForm)
    ensures CanSave(WithFields(WithField(WithField(BlankForm, Title, title), Price, price), others))
            <==> title != "" && price != ""
  {
    WithFieldsKeepsTitleAndPrice(WithField(WithField(BlankForm, Title, title), Price, price), others);
  }

  /** Opening an existing course and saving it unchanged gives back that
      course. */
  lemma ResaveUnchanged(c: Course, now: int)
    ensures Payload(FormOf(c), Some(c), now) == c
  {
  }

  /** Saving an edit of a course that is in the list keeps the number of
      courses; the edited course takes the place of the first one with its id. */
  lemma EditKeepsCount(cs: seq<Course>, f: CourseForm, editing: Course, now: int)
    requires exists j :: 0 <= j < |cs| && cs[j].id == editing.id
    ensures |Upserted(cs, Payload(f, Some(editing), now))| == |cs|
    ensures Upserted(cs, Payload(f, Some(editing), now))
         == cs[FindCourseIndex(cs, editing.id) := Payload(f, Some(editing), now)]
  {
    var k := FindCourseIndex(cs, editing.id);
    UpsertReplacesFirst(cs, Payload(f, Some(editing), now), k);
  }

  /** Saving a new course whose clock id is not yet used appends it. */
  lemma NewCourseAppended(cs: seq<Course>, f: CourseForm, now: int)
    requires forall j :: 0 <= j < |cs| ==> cs[j].id != now
    ensures Upserted(cs, Payload(f, None, now)) == cs + [Payload(f, None, now)]
  {
    UpsertAppends(cs, Payload(f, None, now));
  }

  /** The component state of the editor. */
  class CourseEditor {
    var isModalOpen: bool
    var editingCourse: Option<Course>
    var formData: CourseForm

    constructor ()
      ensures !isModalOpen && editingCourse.None? && formData == BlankForm
    {
      isModalOpen := false;
      editingCourse := None;
      formData := BlankForm;
    }

    /** `handleOpenModal(course)`: edit the given course, or start a blank one. */
    method OpenModal(course: Option<Course>)
      modifies this
      ensures isModalOpen && editingCourse == course
      ensures formData == match course case Some(c) => FormOf(c) case None => BlankForm
    {
      match course {
        case Some(c) =>
          editingCourse := course;
          formData := FormOf(c);
        case None =>
          editingCourse := None;
          formData := BlankForm;
      }
      isModalOpen := true;
    }

    /** The modal's close button. */
    method CloseModal()
      modifies this`isModalOpen
      ensures !isModalOpen
    {
      isModalOpen := false;
    }

    /** An input's `onChange`. */
    method ChangeField(field: Field, value: string)
      modifies this
      ensures formData == WithField(old(formData), field, value)
      ensures isModalOpen == old(isModalOpen) && editingCourse == old(editingCourse)
    {
      formData := WithField(formData, field, value);
    }

    /** `handleSave`: without a title or a price nothing happens; otherwise the
        payload is upserted into teacher 1's courses and the modal closes. */
    method Save(store: Store, now: int) returns (saved: bool)
      modifies this, store
      ensures saved == CanSave(old(formData))
      ensures saved ==> !isModalOpen
      ensures saved ==> store.teachers == AddCourseTo(old(store.teachers), CurrentTeacherId, Payload(formData, editingCourse, now))
      ensures !saved ==> isModalOpen == old(isModalOpen) && store.teachers == old(store.teachers)
      ensures formData == old(formData) && editingCourse == old(editingCourse)
      ensures store.bookings == old(store.bookings) && store.favorites == old(store.favorites)
      ensures store.currentUser == old(store.currentUser)
    {
      if !CanSave(formData) {
        return false;
      }
      var payload := Payload(formData, editingCourse, now);
      store.AddCourse(CurrentTeacherId, payload);
      isModalOpen := false;
      saved := true;
    }

    /** `handleDelete(courseId)`; `confirmed` is the answer to the browser's
        confirmation dialog. */
    method Delete(store: Store, courseId: int, confirmed: bool) returns (error: Option<StoreError>)
      modifies store
      ensures !confirmed ==> error.None? && store.teachers == old(store.teachers)
      ensures confirmed ==> match DeleteCourseFrom(old(store.teachers), CurrentTeacherId, courseId)
        case Ok(r) => error.None? && store.teachers == r
        case Err(e) => error == Some(e) && store.teachers == old(store.teachers)
      ensures store.bookings == old(store.bookings) && store.favorites == old(store.favorites)
      ensures store.currentUser == old(store.currentUser)
    {
      error := None;
      if confirmed {
        error := store.DeleteCourse(CurrentTeacherId, courseId);
      }
    }
  }
}
