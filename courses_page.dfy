/** The course registry page: the course list with its five-row pagination,
    the add-course form and its submission. */
module CoursesPage {
  import opened Wrappers
  import opened Records
  import Pagination

  const CoursesPerPage: nat := 5

  /** A department as the department picker lists it. */
  datatype Department = Department(id: int, department: string)

  /** The form object `newCourse`: input name to typed value. A computed key
      `[name]: value` may add any key, so the form is a map. */
  type Form = map<string, string>

  /** The form after `setNewCourse` with the six fields blanked. */
  function EmptyForm(): (f: Form)
    ensures f.Keys == {"title", "code", "units", "num_students", "department", "level"}
    ensures forall k | k in f :: f[k] == ""
  {
    map["title" := "", "code" := "", "units" := "", "num_students" := "", "department" := "", "level" := ""]
  }

  /** `paginate` moves only to one of the numbered pages. */
  predicate PageAccepted(n: int, totalPages: nat) {
    0 < n <= totalPages
  }

  class Page {
    var courses: seq<Course>
    var departments: seq<Department>
    var newCourse: Form
    var isFormVisible: bool
    var currentPage: int

    ghost predicate Valid()
      reads this
    {
      currentPage >= 1
    }

    constructor ()
      ensures Valid()
      ensures courses == [] && departments == [] && newCourse == EmptyForm()
      ensures !isFormVisible && currentPage == 1
    {
      courses := [];
      departments := [];
      newCourse := EmptyForm();
      isFormVisible := false;
      currentPage := 1;
    }

    /** `Math.ceil(courses.length / coursesPerPage)`. */
    function TotalPages(): nat
      reads this
    {
      Pagination.TotalPages(|courses|, CoursesPerPage)
    }

    /** `currentCourses`: the rows of the current page, at most five, taken in
      order from position `(currentPage - 1) * 5`. */
    function CurrentCourses(): (r: seq<Course>)
      requires Valid()
      reads this
      ensures |r| <= CoursesPerPage
      ensures var first := Pagination.Min((currentPage - 1) * CoursesPerPage, |courses|);
              var last := Pagination.Min(currentPage * CoursesPerPage, |courses|);
              first <= last && r == courses[first..last]
    {
      Pagination.WindowOfPage(courses, currentPage, CoursesPerPage);
      Pagination.Window(courses, currentPage, CoursesPerPage)
    }

    /** The "to" figure of "Showing .. to .. of .. results". */
    function ShowingTo(): (r: int)
      reads this
      ensures r <= |courses| && r <= currentPage * CoursesPerPage
      ensures r == |courses| || r == currentPage * CoursesPerPage
    {
      Pagination.ShowingTo(currentPage, CoursesPerPage, |courses|)
    }

    /** The "Previous" buttons' `disabled`. */
    function PreviousDisabled(): bool
      reads this
    {
      currentPage == 1
    }

    /** The "Next" buttons' `disabled`. */
    function NextDisabled(): bool
      reads this
    {
      currentPage == TotalPages()
    }

    /** Between page 1 and the last page, "Previous" is enabled exactly when
        `paginate(currentPage - 1)` is accepted and "Next" exactly when
        `paginate(currentPage + 1)` is. On an empty list (page 1 of 0) "Next"
        is enabled while `paginate(2)` is refused, which leaves the page as it
        is. */
    lemma ButtonsMatchPaginate()
      requires 1 <= currentPage <= TotalPages()
      ensures !PreviousDisabled() <==> PageAccepted(currentPage - 1, TotalPages())
      ensures !NextDisabled() <==> PageAccepted(currentPage + 1, TotalPages())
    {
    }

    /** The first effect: the department list, when the request succeeds. */
    method DepartmentsLoaded(response: Option<seq<Department>>)
      requires Valid()
      modifies this`departments
      ensures Valid()
      ensures departments == if response.Some? then response.value else old(departments)
    {
      if response.Some? {
        departments := response.value;
      }
    }

    /** The second effect: the course list, when the request succeeds. */
    method CoursesLoaded(response: Option<seq<Course>>)
      requires Valid()
      modifies this`courses
      ensures Valid()
      ensures courses == if response.Some? then response.value else old(courses)
    {
      if response.Some? {
        courses := response.value;
      }
    }

    /** `paginate(n)`: bounds-checked against `totalPages`. */
    method Paginate(n: int)
      requires Valid()
      modifies this`currentPage
      ensures Valid()
      ensures currentPage == if PageAccepted(n, TotalPages()) then n else old(currentPage)
      ensures PageAccepted(n, TotalPages()) ==> CurrentCourses() != []
    {
      if n > 0 && n <= TotalPages() {
        currentPage := n;
        Pagination.WindowNonEmptyIffPageExists(courses, n, CoursesPerPage);
      }
    }

    /** `handleInputChange`: only the named field changes. */
    method HandleInputChange(name: string, value: string)
      requires Valid()
      modifies this`newCourse
      ensures Valid()
      ensures newCourse == old(newCourse)[name := value]
      ensures name in newCourse && newCourse[name] == value
      ensures forall k | k in old(newCourse) && k != name :: k in newCourse && newCourse[k] == old(newCourse)[k]
    {
      newCourse := newCourse[name := value];
    }

    /** `handleDepartmentChange`: only `department` changes. */
    method HandleDepartmentChange(value: string)
      requires Valid()
      modifies this`newCourse
      ensures Valid()
      ensures newCourse == old(newCourse)["department" := value]
    {
      newCourse := newCourse["department" := value];
    }

    /** The "Add New Course" button. */
    method ToggleForm()
      requires Valid()
      modifies this`isFormVisible
      ensures Valid()
      ensures isFormVisible == !old(isFormVisible)
    {
      isFormVisible := !isFormVisible;
    }

    /** `handleSubmit`: posts `newCourse`; `created` is the course the backend
      returned, `None` when the request failed. On success the course is
      appended, the form blanked and hidden; on failure nothing changes. */
    method HandleSubmit(created: Option<Course>) returns (posted: Form)
      requires Valid()
      modifies this`courses, this`newCourse, this`isFormVisible
      ensures Valid()
      ensures posted == old(newCourse)
      ensures created.Some? ==> courses == old(courses) + [created.value]
                                && newCourse == EmptyForm() && !isFormVisible
      ensures created.None? ==> courses == old(courses) && newCourse == old(newCourse)
                                && isFormVisible == old(isFormVisible)
    {
      posted := newCourse;
      if created.Some? {
        courses := courses + [created.value];
        newCourse := EmptyForm();
        isFormVisible := false;
      }
    }
  }
}
