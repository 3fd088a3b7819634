/** The three-step signup wizard: role, then name and email, then interests. */
module Signup {
  import Lists

  const TeacherRole := "teacher"
  const TeacherHomePath := "/teacher"
  const StudentHomePath := "/student"

  /** Where finishing leads: the teacher area for the role "teacher", the
      student area for anything else. */
  function Destination(role: string): (path: string)
    ensures path == TeacherHomePath <==> role == TeacherRole
    ensures path == StudentHomePath <==> role != TeacherRole
  {
    if role == TeacherRole then TeacherHomePath else StudentHomePath
  }

  /** The Next button is disabled at step 1 without a role, at step 2 without
      a name or an email, and while loading. */
  predicate NextDisabled(step: int, role: string, name: string, email: string, isLoading: bool)
    ensures isLoading ==> NextDisabled(step, role, name, email, isLoading)
    ensures step != 1 && step != 2 ==> (NextDisabled(step, role, name, email, isLoading) <==> isLoading)
  {
    (step == 1 && role == "") || (step == 2 && (name == "" || email == "")) || isLoading
  }

  /** The fields a step asks for are all that can block it: at step 3 only
      loading disables Next, whatever the other fields hold. */
  lemma NextBlockedOnlyByItsStep(role: string, name: string, email: string, isLoading: bool)
    ensures NextDisabled(1, role, name, email, isLoading) <==> role == "" || isLoading
    ensures NextDisabled(2, role, name, email, isLoading) <==> name == "" || email == "" || isLoading
    ensures NextDisabled(3, role, name, email, isLoading) <==> isLoading
  {
  }

  /** Progress dot `i` is filled once the wizard has reached step `i`. */
  predicate DotFilled(step: int, i: int)
  {
    step >= i
  }

  /** At a step between 1 and 3, exactly that many of the three dots are filled. */
  lemma FilledDotsCountTheStep(step: int)
    requires 1 <= step <= 3
    ensures |Lists.Filter(i => DotFilled(step, i), [1, 2, 3])| == step
  {
    var p := (i: int) => DotFilled(step, i);
    assert [1, 2, 3] == [1] + [2] + [3];
    Lists.FilterConcat(p, [1] + [2], [3]);
    Lists.FilterConcat(p, [1], [2]);
    assert Lists.Filter(p, [1]) == [1];
    assert Lists.Filter(p, [2]) == if step >= 2 then [2] else [];
    assert Lists.Filter(p, [3]) == if step >= 3 then [3] else [];
  }

  /** The wizard's component state. */
  class SignupWizard {
    var step: int
    var role: string
    var name: string
    var email: string
    var interests: seq<string>
    var isLoading: bool
    /** The role the pending `setTimeout` callback closed over: the one held
        when Next started finishing. Back stays enabled while loading, so the
        role shown can change before the callback runs. */
    var pendingRole: string

    ghost predicate Valid()
      reads this
    {
      1 <= step <= 3
    }

    constructor ()
      ensures Valid() && step == 1 && !isLoading && pendingRole == ""
      ensures role == "" && name == "" && email == "" && interests == []
    {
      step := 1;
      role, name, email := "", "", "";
      interests := [];
      isLoading := false;
      pendingRole := "";
    }

    /** One of the two role cards. */
    method ChooseRole(r: string)
      modifies this`role
      ensures role == r
    {
      role := r;
    }

    method SetName(n: string)
      modifies this`name
      ensures name == n
    {
      name := n;
    }

    method SetEmail(e: string)
      modifies this`email
      ensures email == e
    {
      email := e;
    }

    /** `toggleInterest(style)` */
    method ToggleInterest(style: string)
      modifies this`interests
      ensures interests == Lists.Toggle(old(interests), style)
    {
      interests := Lists.Toggle(interests, style);
    }

    function NextIsDisabled(): bool
      reads this
    {
      NextDisabled(step, role, name, email, isLoading)
    }

    /** `handleNext`: advance below step 3; at step 3 start finishing, which
        sets the loading flag and captures the role for the delayed
        callback. The step stays within 1 to 3. */
    method HandleNext() returns (finishing: bool)
      requires Valid()
      modifies this`step, this`isLoading, this`pendingRole
      ensures Valid()
      ensures finishing <==> old(step) == 3
      ensures pendingRole == if finishing then old(role) else old(pendingRole)
      ensures step == if old(step) < 3 then old(step) + 1 else old(step)
      ensures isLoading == (old(isLoading) || finishing)
    {
      if step < 3 {
        step := step + 1;
        finishing := false;
      } else {
        isLoading := true;
        pendingRole := role;
        finishing := true;
      }
    }

    /** A click on Next: a disabled button does nothing. */
    method PressNext() returns (finishing: bool)
      requires Valid()
      modifies this`step, this`isLoading, this`pendingRole
      ensures Valid()
      ensures pendingRole == if finishing then old(role) else old(pendingRole)
      ensures old(NextIsDisabled()) ==> !finishing && step == old(step) && isLoading == old(isLoading)
      ensures !old(NextIsDisabled()) ==> (finishing <==> old(step) == 3) && isLoading == finishing
      ensures !old(NextIsDisabled()) ==> step == if old(step) < 3 then old(step) + 1 else old(step)
    {
      finishing := false;
      if !NextIsDisabled() {
        finishing := HandleNext();
      }
    }

    /** The back arrow: step back above step 1, leave for the login page at
        step 1 (`leave`). The step stays within 1 to 3. */
    method Back() returns (leave: bool)
      requires Valid()
      modifies this`step
      ensures Valid()
      ensures leave <==> old(step) == 1
      ensures step == if old(step) > 1 then old(step) - 1 else old(step)
    {
      if step > 1 {
        step := step - 1;
        leave := false;
      } else {
        leave := true;
      }
    }

    /** The delayed end of `finishSignup`: the path it navigates to, chosen
        by the role captured when finishing started (not the role shown now),
        and the loading flag cleared. */
    method FinishSignup() returns (path: string)
      modifies this`isLoading
      ensures path == Destination(pendingRole) && !isLoading
    {
      path := Destination(pendingRole);
      isLoading := false;
    }
  }

  /** Going back while the signup is finishing does not change where it
      leads: choose "teacher", reach step 3, press Next, step back twice,
      choose "student", and the delayed callback still opens the teacher
      area. */
  method BackWhileLoadingKeepsDestination() returns (path: string)
    ensures path == TeacherHomePath
  {
    var w := new SignupWizard();
    w.ChooseRole(TeacherRole);
    var finishing := w.PressNext();
    w.SetName("Ana");
    w.SetEmail("ana@example.com");
    finishing := w.PressNext();
    finishing := w.PressNext();
    assert finishing && w.isLoading;
    var leave := w.Back();
    leave := w.Back();
    w.ChooseRole("student");
    path := w.FinishSignup();
  }
}
