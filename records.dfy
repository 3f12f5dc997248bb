/** The records the backend returns, as the pages read them. */
module Records {

  /** A registered course (`/api/courses/`); `department` is the department id
      the form posts, `departmentName` the name the backend reports. */
  datatype Course = Course(
    id: int,
    title: string,
    code: string,
    units: int,
    numStudents: int,
    department: int,
    departmentName: string,
    level: string)

  /** A registered venue (`/api/venues/`). */
  datatype Venue = Venue(id: int, name: string, capacity: int)

  /** A named group of courses (`/api/course-sets/`). */
  datatype CourseSet = CourseSet(name: string, courses: seq<Course>)

  /** A named group of venues (`/api/venue-sets/`). */
  datatype VenueSet = VenueSet(name: string, venues: seq<Venue>)

  /** A generated timetable (`/api/exam-time-table/`); `date` is a timestamp. */
  datatype Timetable = Timetable(
    id: int,
    title: string,
    courseSetName: string,
    venueSetName: string,
    date: int,
    excelFile: string)
}
