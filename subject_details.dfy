/** The student's course detail page: the enrolment check against the
    student's profile, the enrol action, the enrolment button, the star row
    of each review and the enrolled-students label. */
module SubjectDetails {
  import opened Common

  /** A course reference in the student's profile: its `_id`, or its
      `$oid` in the extended-JSON form. */
  datatype CourseRef = CourseRef(underscoreId: Option<string>, oid: Option<string>)

  /** `course._id || course.$oid`; None is `undefined`. */
  function RefId(c: CourseRef): (r: Option<string>)
    ensures Truthy(c.underscoreId) ==> r == c.underscoreId
    ensures !Truthy(c.underscoreId) ==> r == c.oid
  {
    if Truthy(c.underscoreId) then c.underscoreId else c.oid
  }

  /** `userCourses`: the id of every course reference, in order. */
  function UserCourses(courses: seq<CourseRef>): (r: seq<Option<string>>)
    ensures |r| == |courses|
    ensures forall i :: 0 <= i < |courses| ==> r[i] == RefId(courses[i])
  {
    seq(|courses|, i requires 0 <= i < |courses| => RefId(courses[i]))
  }

  /** `userCourses.includes(id)`. */
  predicate Enrolled(courses: seq<CourseRef>, id: string) {
    Some(id) in UserCourses(courses)
  }

  /** The student is enrolled exactly when some reference carries the route
      id as its non-empty `_id`, or carries no usable `_id` and has the
      route id as its `$oid`. */
  lemma EnrolledSpec(courses: seq<CourseRef>, id: string)
    ensures Enrolled(courses, id) <==>
      exists i :: 0 <= i < |courses| &&
        ((Truthy(courses[i].underscoreId) && courses[i].underscoreId == Some(id))
         || (!Truthy(courses[i].underscoreId) && courses[i].oid == Some(id)))
  {
    var ids := UserCourses(courses);
    if Enrolled(courses, id) {
      var i :| 0 <= i < |ids| && ids[i] == Some(id);
      assert RefId(courses[i]) == Some(id);
    }
  }

  /** A non-empty `_id` hides the `$oid`: a reference whose `$oid` is the
      route id does not count when its `_id` is another id. */
  lemma UnderscoreIdWins(id: string, other: string)
    requires other != "" && other != id
    ensures !Enrolled([CourseRef(Some(other), Some(id))], id)
  {
    assert UserCourses([CourseRef(Some(other), Some(id))]) == [Some(other)];
  }

  // ---------------------------------------------------------------------
  // The star row and the enrolled label

  /** `[...Array(5)].map((_, i) => i < rating)`: which of the five stars are
      filled. */
  function Stars(rating: int): (r: seq<bool>)
    ensures |r| == 5
    ensures forall i :: 0 <= i < 5 ==> (r[i] <==> i < rating)
  {
    StarRow(5, rating)
  }

  /** The first `k` stars of the row. */
  function StarRow(k: nat, rating: int): (r: seq<bool>)
    ensures |r| == k
  {
    seq(k, i requires 0 <= i < k => i < rating)
  }

  function CountFilled(s: seq<bool>): nat
    decreases |s|
  {
    if s == [] then 0 else CountFilled(s[..|s| - 1]) + (if s[|s| - 1] then 1 else 0)
  }

  function Clamp(x: int, lo: int, hi: int): int
    requires lo <= hi
  {
    if x < lo then lo else if x > hi then hi else x
  }

  lemma {:induction false} StarRowCount(k: nat, rating: int)
    ensures CountFilled(StarRow(k, rating)) == Clamp(rating, 0, k)
    decreases k
  {
    if k > 0 {
      var row := StarRow(k, rating);
      assert row[..k - 1] == StarRow(k - 1, rating);
      StarRowCount(k - 1, rating);
    }
  }

  /** The filled stars come first, and there are as many as the rating,
      bounded by 0 and 5. */
  lemma StarsSpec(rating: int)
    ensures forall i, j :: 0 <= i < j < 5 && Stars(rating)[j] ==> Stars(rating)[i]
    ensures CountFilled(Stars(rating)) == Clamp(rating, 0, 5)
  {
    StarRowCount(5, rating);
  }

  /** `${n}`: the decimal digits of a natural number. */
  function DecimalString(n: nat): (r: string)
    ensures r != []
    decreases n
  {
    if n < 10 then [Digit(n)] else DecimalString(n / 10) + [Digit(n % 10)]
  }

  function Digit(d: nat): char
    requires d < 10
  {
    "0123456789"[d]
  }

  /** The "Students Enrolled" text; `count` is the length of the enrolled
      list, None when the list is missing. */
  function EnrolledLabel(count: Option<nat>): string {
    if count.Some? && count.value > 0 then
      DecimalString(count.value) + " student" + (if count.value != 1 then "s" else "")
    else "No students enrolled."
  }

  /** "1 student" has no plural "s"; any other positive count has one; no
      count, or zero, reads "No students enrolled.". */
  lemma EnrolledLabelSpec(count: Option<nat>)
    ensures count == Some(1) ==> EnrolledLabel(count) == "1 student"
    ensures count.Some? && count.value > 1 ==> EnrolledLabel(count) == DecimalString(count.value) + " students"
    ensures EnrolledLabel(count) == "No students enrolled." <==> count.None? || count.value == 0
    ensures EnrolledLabel(count) != "No students enrolled." ==>
      (EnrolledLabel(count)[|EnrolledLabel(count)| - 1] == 's' <==> count.value != 1)
  {
    if count.Some? && count.value > 0 {
      var text := EnrolledLabel(count);
      var d := DecimalString(count.value);
      if count.value == 1 {
        assert d == "1";
      }
      assert text[0] == d[0];
      assert d[0] != 'N' by { DigitsOnly(count.value); }
    }
  }

  lemma {:induction false} DigitsOnly(n: nat)
    ensures forall i :: 0 <= i < |DecimalString(n)| ==> '0' <= DecimalString(n)[i] <= '9'
    decreases n
  {
    if n >= 10 {
      DigitsOnly(n / 10);
    }
  }

  // ---------------------------------------------------------------------
  // The page state

  /** The enrolment button. */
  datatype Button = CheckingEnrollment | RequestToClass | EnrollInCourse

  function Caption(b: Button): string {
    match b
    case CheckingEnrollment => "Checking Enrollment..."
    case RequestToClass => "Request to Class"
    case EnrollInCourse => "Enroll in Course"
  }

  class CoursePage {
    /** The route id of the course. */
    const id: string
    var isEnrolled: bool
    var isCheckingEnrollment: bool
    var isModalOpen: bool

    constructor(routeId: string)
      ensures id == routeId && !isEnrolled && isCheckingEnrollment && !isModalOpen
    {
      id := routeId;
      isEnrolled := false;
      isCheckingEnrollment := true;
      isModalOpen := false;
    }

    /** `checkEnrollment`: `response` carries the profile's course list.
        The flag is cleared whatever the outcome; a failure leaves
        `isEnrolled` as it was. */
    method CheckEnrollment(response: Response<seq<CourseRef>>)
      modifies this
      ensures !isCheckingEnrollment
      ensures response.Ok? ==> isEnrolled == Enrolled(response.data, id)
      ensures response.Failed? ==> isEnrolled == old(isEnrolled)
      ensures isModalOpen == old(isModalOpen)
    {
      isCheckingEnrollment := true;
      match response {
        case Ok(courses) =>
          var userCourses := UserCourses(courses);
          isEnrolled := Some(id) in userCourses;
        case Failed(_) =>
      }
      isCheckingEnrollment := false;
    }

    /** `handleEnroll`: success marks the student enrolled; a failure only
        alerts the server's message. */
    method HandleEnroll(response: Response<()>) returns (alert: string)
      modifies this
      ensures response.Ok? ==> isEnrolled && alert == "Enrolled successfully!"
      ensures response.Failed? ==>
        isEnrolled == old(isEnrolled) && alert == OrElse(response.serverMessage, "An error occurred.")
      ensures isCheckingEnrollment == old(isCheckingEnrollment) && isModalOpen == old(isModalOpen)
    {
      match response {
        case Ok(_) =>
          alert := "Enrolled successfully!";
          isEnrolled := true;
        case Failed(serverMessage) =>
          alert := OrElse(serverMessage, "An error occurred.");
      }
    }

    /** The button shown: a disabled "Checking" while the check runs, then
        "Request to Class" for an enrolled student, else "Enroll in Course". */
    function ShownButton(): (b: Button)
      reads this
      ensures b == CheckingEnrollment <==> isCheckingEnrollment
      ensures b == RequestToClass <==> !isCheckingEnrollment && isEnrolled
      ensures b == EnrollInCourse <==> !isCheckingEnrollment && !isEnrolled
    {
      if isCheckingEnrollment then CheckingEnrollment
      else if isEnrolled then RequestToClass
      else EnrollInCourse
    }

    /** Pressing the button: nothing while disabled, the request form for an
        enrolled student, otherwise the enrol request. */
    method PressButton(enroll: Response<()>) returns (alert: Option<string>)
      modifies this
      ensures old(ShownButton()) == CheckingEnrollment ==>
        alert == None && isEnrolled == old(isEnrolled) && isModalOpen == old(isModalOpen)
      ensures old(ShownButton()) == RequestToClass ==> alert == None && isModalOpen && isEnrolled
      ensures old(ShownButton()) == EnrollInCourse && enroll.Ok? ==>
        alert == Some("Enrolled successfully!") && ShownButton() == RequestToClass
      ensures old(ShownButton()) == EnrollInCourse && enroll.Failed? ==>
        alert.Some? && ShownButton() == EnrollInCourse
      ensures isCheckingEnrollment == old(isCheckingEnrollment)
    {
      var shown := ShownButton();
      alert := None;
      match shown {
        case CheckingEnrollment =>
        case RequestToClass =>
          isModalOpen := true;
        case EnrollInCourse =>
          var text := HandleEnroll(enroll);
          alert := Some(text);
      }
    }
  }
}
