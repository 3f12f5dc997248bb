/** The plan request page: choosing a course set and a venue set, checking the
    inputs in order, building the request payload and reporting the outcome. */
module PlanPage {
  import opened Wrappers
  import opened Records
  import Text

  const TitleMissing: string := "Please enter a time table title."
  const CourseSetMissing: string := "Please select a course set."
  const VenueSetMissing: string := "Please select a venue set."
  const StartMissing: string := "Please select a start date."
  const EndMissing: string := "Please select an end date."
  const DatesReversed: string := "End date must be after start date."
  const Generated: string := "The time table has been generated successfully!"
  const OutOfReach: string := "Certain resources are out of reach at the time. Please try again."
  const Unavailable: string := "Certain resources are not available at the moment. Please try again."

  /** What the form holds when it is submitted. A selection is `None` for the
      `{}` the page falls back to; dates are timestamps, `None` for `null`. */
  datatype PlanInput = PlanInput(
    title: string,
    courseSet: Option<CourseSet>,
    venueSet: Option<VenueSet>,
    startDate: Option<int>,
    endDate: Option<int>,
    constraints: string)

  /** `selectedCourseSet.name` is truthy. */
  predicate CourseSetChosen(c: Option<CourseSet>) {
    c.Some? && c.value.name != ""
  }

  /** `selectedVenueSet.name` is truthy. */
  predicate VenueSetChosen(v: Option<VenueSet>) {
    v.Some? && v.value.name != ""
  }

  /** `validateInputs`: the message of the first check that fails, in the
      page's order, or `None` when all six pass. */
  function ValidationError(p: PlanInput): Option<string> {
    if Text.Trim(p.title) == "" then Some(TitleMissing)
    else if !CourseSetChosen(p.courseSet) then Some(CourseSetMissing)
    else if !VenueSetChosen(p.venueSet) then Some(VenueSetMissing)
    else if p.startDate.None? then Some(StartMissing)
    else if p.endDate.None? then Some(EndMissing)
    else if p.startDate.value > p.endDate.value then Some(DatesReversed)
    else None
  }

  /** The title holds a character that is not white space. */
  predicate HasText(s: string) {
    exists i :: 0 <= i < |s| && !Text.IsJsSpace(s[i])
  }

  /** The inputs pass exactly when all six conditions hold: a title with text,
      a named course set, a named venue set, both dates, start not after end. */
  lemma ValidIffAllChecksPass(p: PlanInput)
    ensures ValidationError(p).None? <==>
              && HasText(p.title)
              && CourseSetChosen(p.courseSet)
              && VenueSetChosen(p.venueSet)
              && p.startDate.Some? && p.endDate.Some?
              && p.startDate.value <= p.endDate.value
  {
    Text.TrimEmptyIffBlank(p.title);
  }

  /** Each message is reported exactly when its own check fails and every
      earlier one passes. */
  lemma FirstFailureReported(p: PlanInput)
    ensures ValidationError(p) == Some(TitleMissing) <==> !HasText(p.title)
    ensures ValidationError(p) == Some(CourseSetMissing) <==>
              HasText(p.title) && !CourseSetChosen(p.courseSet)
    ensures ValidationError(p) == Some(VenueSetMissing) <==>
              HasText(p.title) && CourseSetChosen(p.courseSet) && !VenueSetChosen(p.venueSet)
    ensures ValidationError(p) == Some(StartMissing) <==>
              HasText(p.title) && CourseSetChosen(p.courseSet) && VenueSetChosen(p.venueSet)
              && p.startDate.None?
    ensures ValidationError(p) == Some(EndMissing) <==>
              HasText(p.title) && CourseSetChosen(p.courseSet) && VenueSetChosen(p.venueSet)
              && p.startDate.Some? && p.endDate.None?
    ensures ValidationError(p) == Some(DatesReversed) <==>
              HasText(p.title) && CourseSetChosen(p.courseSet) && VenueSetChosen(p.venueSet)
              && p.startDate.Some? && p.endDate.Some? && p.startDate.value > p.endDate.value
  {
    Text.TrimEmptyIffBlank(p.title);
  }

  /** A title of spaces only is rejected; a plan starting and ending on the
      same date passes, since the dates are compared with a strict `>`. */
  lemma BlankTitleRejectedSameDayAccepted(p: PlanInput, day: int)
    ensures (forall i :: 0 <= i < |p.title| ==> Text.IsJsSpace(p.title[i])) ==>
              ValidationError(p) == Some(TitleMissing)
    ensures HasText(p.title) && CourseSetChosen(p.courseSet) && VenueSetChosen(p.venueSet) ==>
              ValidationError(p.(startDate := Some(day), endDate := Some(day))).None?
  {
    Text.TrimEmptyIffBlank(p.title);
  }

  /** One venue of the payload's `venueDetails`. */
  datatype VenueDetail = VenueDetail(name: string, capacity: int)

  /** One course of the payload's `courseDetails`. */
  datatype CourseDetail = CourseDetail(
    code: string,
    numStudents: int,
    units: int,
    departmentName: string,
    level: string)

  /** `venues.map(v => ({ name, capacity }))`. */
  function VenueDetails(venues: seq<Venue>): (r: seq<VenueDetail>)
    ensures |r| == |venues|
    ensures forall i :: 0 <= i < |venues| ==>
              r[i].name == venues[i].name && r[i].capacity == venues[i].capacity
  {
    if venues == [] then []
    else [VenueDetail(venues[0].name, venues[0].capacity)] + VenueDetails(venues[1..])
  }

  /** `courses.map(c => ({ code, num_students, units, department_name, level }))`. */
  function CourseDetails(courses: seq<Course>): (r: seq<CourseDetail>)
    ensures |r| == |courses|
    ensures forall i :: 0 <= i < |courses| ==>
              && r[i].code == courses[i].code
              && r[i].numStudents == courses[i].numStudents
              && r[i].units == courses[i].units
              && r[i].departmentName == courses[i].departmentName
              && r[i].level == courses[i].level
  {
    if courses == [] then []
    else
      var c := courses[0];
      [CourseDetail(c.code, c.numStudents, c.units, c.departmentName, c.level)]
        + CourseDetails(courses[1..])
  }

  /** The request body `planData` (the two detail lists before `JSON.stringify`). */
  datatype PlanData = PlanData(
    title: string,
    venueDetails: seq<VenueDetail>,
    courseDetails: seq<CourseDetail>,
    startDate: int,
    endDate: int,
    constraints: string,
    courseSetName: string,
    venueSetName: string)

  /** `planData`, built only from inputs that passed validation. */
  function PlanDataFor(p: PlanInput): (r: PlanData)
    requires ValidationError(p).None?
    ensures r.title == p.title && r.constraints == p.constraints
    ensures r.courseSetName == p.courseSet.value.name && r.venueSetName == p.venueSet.value.name
    ensures r.startDate == p.startDate.value && r.endDate == p.endDate.value
    ensures r.startDate <= r.endDate
    ensures r.venueDetails == VenueDetails(p.venueSet.value.venues)
    ensures r.courseDetails == CourseDetails(p.courseSet.value.courses)
  {
    PlanData(
      p.title,
      VenueDetails(p.venueSet.value.venues),
      CourseDetails(p.courseSet.value.courses),
      p.startDate.value,
      p.endDate.value,
      p.constraints,
      p.courseSet.value.name,
      p.venueSet.value.name)
  }

  /** Position of the first element whose name is `name` (`Array.prototype.find`). */
  function FindIndex<T>(items: seq<T>, nameOf: T -> string, name: string): (r: Option<nat>)
    ensures r.Some? ==> r.value < |items| && nameOf(items[r.value]) == name
    ensures r.Some? ==> forall j :: 0 <= j < r.value ==> nameOf(items[j]) != name
    ensures r.None? <==> forall j :: 0 <= j < |items| ==> nameOf(items[j]) != name
  {
    if items == [] then None
    else if nameOf(items[0]) == name then Some(0)
    else
      match FindIndex(items[1..], nameOf, name)
      case None => None
      case Some(k) => Some(k + 1)
  }

  /** The set chosen in a dropdown: `sets.find(set => set.name === name) || {}`. */
  function FindByName<T>(items: seq<T>, nameOf: T -> string, name: string): (r: Option<T>)
    ensures r.Some? ==> r.value in items && nameOf(r.value) == name
    ensures r.None? <==> forall j :: 0 <= j < |items| ==> nameOf(items[j]) != name
  {
    match FindIndex(items, nameOf, name)
    case None => None
    case Some(k) => Some(items[k])
  }

  /** The dropdown picks the first set carrying the name, even when later sets
      carry it too. */
  lemma FindByNamePicksFirst<T>(items: seq<T>, nameOf: T -> string, name: string, i: nat)
    requires i < |items| && nameOf(items[i]) == name
    requires forall j :: 0 <= j < i ==> nameOf(items[j]) != name
    ensures FindByName(items, nameOf, name) == Some(items[i])
  {
  }

  function CourseSetName(c: CourseSet): string { c.name }
  function VenueSetName(v: VenueSet): string { v.name }

  /** What the generation request came back with: a response whose
      `data.data_dict` is truthy or not, or an exception. */
  datatype PlanResponse = Answered(hasDataDict: bool) | Failed

  /** The banner `renderMessage` shows. */
  datatype Banner = NoBanner | ErrorBanner(text: string) | SuccessBanner(text: string)

  /** `renderMessage`: an error, when there is one, hides the notification. */
  function RenderMessage(error: string, notification: string): (b: Banner)
    ensures error != "" ==> b == ErrorBanner(error)
    ensures error == "" && notification != "" ==> b == SuccessBanner(notification)
    ensures b == NoBanner <==> error == "" && notification == ""
  {
    if error != "" then ErrorBanner(error)
    else if notification != "" then SuccessBanner(notification)
    else NoBanner
  }

  class Page {
    var courseSets: seq<CourseSet>
    var venueSets: seq<VenueSet>
    var timeTableTitle: string
    var selectedCourseSet: Option<CourseSet>
    var selectedVenueSet: Option<VenueSet>
    var startDate: Option<int>
    var endDate: Option<int>
    var constraints: string
    var loading: bool
    var error: string
    var notification: string

    constructor ()
      ensures courseSets == [] && venueSets == [] && timeTableTitle == ""
      ensures selectedCourseSet.None? && selectedVenueSet.None?
      ensures startDate.None? && endDate.None? && constraints == ""
      ensures !loading && error == "" && notification == ""
    {
      courseSets, venueSets := [], [];
      timeTableTitle := "";
      selectedCourseSet, selectedVenueSet := None, None;
      startDate, endDate := None, None;
      constraints := "";
      loading := false;
      error, notification := "", "";
    }

    /** The inputs the checks and the payload read. */
    function Input(): PlanInput
      reads this`timeTableTitle, this`selectedCourseSet, this`selectedVenueSet
      reads this`startDate, this`endDate, this`constraints
    {
      PlanInput(timeTableTitle, selectedCourseSet, selectedVenueSet, startDate, endDate, constraints)
    }

    /** The effect that loads both lists together (`Promise.all`): both on
      success, neither and an error on failure. */
    method SetsLoaded(response: Option<(seq<CourseSet>, seq<VenueSet>)>)
      modifies this`courseSets, this`venueSets, this`error
      ensures response.Some? ==> courseSets == response.value.0 && venueSets == response.value.1
                                 && error == old(error)
      ensures response.None? ==> courseSets == old(courseSets) && venueSets == old(venueSets)
                                 && error == Unavailable
    {
      if response.Some? {
        courseSets := response.value.0;
        venueSets := response.value.1;
      } else {
        error := Unavailable;
      }
    }

    method SetTitle(title: string)
      modifies this`timeTableTitle
      ensures timeTableTitle == title
    {
      timeTableTitle := title;
    }

    /** The course set dropdown's `onChange`. */
    method SelectCourseSet(name: string)
      modifies this`selectedCourseSet
      ensures selectedCourseSet == FindByName(courseSets, CourseSetName, name)
    {
      selectedCourseSet := FindByName(courseSets, CourseSetName, name);
    }

    /** The venue set dropdown's `onChange`. */
    method SelectVenueSet(name: string)
      modifies this`selectedVenueSet
      ensures selectedVenueSet == FindByName(venueSets, VenueSetName, name)
    {
      selectedVenueSet := FindByName(venueSets, VenueSetName, name);
    }

    method SetStartDate(date: Option<int>)
      modifies this`startDate
      ensures startDate == date
    {
      startDate := date;
    }

    method SetEndDate(date: Option<int>)
      modifies this`endDate
      ensures endDate == date
    {
      endDate := date;
    }

    method SetConstraints(c: string)
      modifies this`constraints
      ensures constraints == c
    {
      constraints := c;
    }

    /** `validateInputs`: runs the checks in order, stops at the first that
      fails and puts its message in `error`. */
    method ValidateInputs() returns (ok: bool)
      modifies this`error
      ensures ok <==> ValidationError(Input()).None?
      ensures error == if ok then old(error) else ValidationError(Input()).value
    {
      if Text.Trim(timeTableTitle) == "" {
        error := TitleMissing;
        return false;
      }
      if !CourseSetChosen(selectedCourseSet) {
        error := CourseSetMissing;
        return false;
      }
      if !VenueSetChosen(selectedVenueSet) {
        error := VenueSetMissing;
        return false;
      }
      if startDate.None? {
        error := StartMissing;
        return false;
      }
      if endDate.None? {
        error := EndMissing;
        return false;
      }
      if startDate.value > endDate.value {
        error := DatesReversed;
        return false;
      }
      return true;
    }

    /** `handleSubmit` up to the request: clears both messages, validates, and
      only then raises `loading` and builds the payload it posts. */
    method BeginSubmit() returns (request: Option<PlanData>)
      modifies this`error, this`notification, this`loading
      ensures notification == ""
      ensures request.Some? <==> ValidationError(Input()).None?
      ensures request.None? ==> error == ValidationError(Input()).value && loading == old(loading)
      ensures request.Some? ==> request.value == PlanDataFor(Input()) && error == "" && loading
    {
      error := "";
      notification := "";
      var input := Input();
      ghost var verdict := ValidationError(input);
      var ok := ValidateInputs();
      assert Input() == input;
      if !ok {
        assert error == verdict.value;
        request := None;
        return;
      }
      assert verdict.None?;
      loading := true;
      request := Some(PlanDataFor(input));
    }

    /** `handleSubmit` after the request settles: success only for a
      `data_dict` in the answer, the fixed error otherwise, and `loading`
      lowered on every path. */
    method FinishSubmit(response: PlanResponse)
      modifies this`error, this`notification, this`loading
      ensures !loading
      ensures response == Answered(true) ==> notification == Generated && error == old(error)
      ensures response != Answered(true) ==> error == OutOfReach && notification == old(notification)
    {
      if response.Answered? && response.hasDataDict {
        notification := Generated;
      } else {
        error := OutOfReach;
      }
      loading := false;
    }
  }
}
