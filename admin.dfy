/**
 * The admin panel (src/pages/Admin.tsx): a sidebar with four menu items and a department
 * submenu under "Student Details", the staff-details search, and the per-department student
 * search.
 */
module Admin {
  import opened Wrappers
  import opened Text
  import opened Seqs

  /** The departments listed in the submenu, in their order. */
  const Departments: seq<string> :=
    ["CSE", "ECE", "MECH", "CIVIL", "IT", "AIML", "CYBER SECURITY", "AIDS", "EEE", "DCSE", "DECE", "DMECH"]

  /** The menu item keys: `staff-mgmt`, `student-mgmt`, `staff-details`, `student-details`. */
  datatype MenuItem = StaffManagement | StudentManagement | StaffDetails | StudentDetails

  /** A row of the staff-details table. */
  datatype StaffRow = StaffRow(id: string, name: string, dept: string, role: string, status: string)

  /** A row of the student-details table. */
  datatype StudentRow = StudentRow(id: string, name: string, dept: string, year: string, status: string)

  predicate StaffMatches(search: string, s: StaffRow) {
    || IncludesIgnoringCase(s.name, search)
    || IncludesIgnoringCase(s.id, search)
    || IncludesIgnoringCase(s.dept, search)
  }

  function StaffTest(search: string): StaffRow -> bool {
    s => StaffMatches(search, s)
  }

  /** `StaffTable`'s filter: name, id or department contains the search, ignoring case, in order. */
  function FilterStaff(staff: seq<StaffRow>, search: string): (r: seq<StaffRow>)
    ensures forall x :: x in r <==> x in staff && StaffMatches(search, x)
    ensures forall x :: multiset(r)[x] == if StaffMatches(search, x) then multiset(staff)[x] else 0
    ensures IsSubsequence(r, staff)
  {
    FilterCharacterized(staff, StaffTest(search));
    Filter(staff, StaffTest(search))
  }

  lemma EmptyStaffSearchShowsAll(staff: seq<StaffRow>)
    ensures FilterStaff(staff, "") == staff
  {
    forall i | 0 <= i < |staff|
      ensures StaffTest("")(staff[i])
    {
      EmptyTermMatchesEverything(staff[i].name);
    }
    FilterKeepsAll(staff, StaffTest(""));
  }

  predicate StudentSearchMatches(search: string, s: StudentRow) {
    || IncludesIgnoringCase(s.name, search)
    || IncludesIgnoringCase(s.id, search)
    || IncludesIgnoringCase(s.year, search)
  }

  predicate StudentMatches(department: string, search: string, s: StudentRow) {
    s.dept == department && StudentSearchMatches(search, s)
  }

  function StudentTest(department: string, search: string): StudentRow -> bool {
    s => StudentMatches(department, search, s)
  }

  function InDepartment(department: string): StudentRow -> bool {
    (s: StudentRow) => s.dept == department
  }

  /**
   * `StudentDetailsTable`'s filter: only students of exactly the given department, matched on
   * name, id or year ignoring case.
   */
  function FilterDepartmentStudents(students: seq<StudentRow>, department: string, search: string): (r: seq<StudentRow>)
    ensures forall x :: x in r <==> x in students && x.dept == department && StudentSearchMatches(search, x)
    ensures forall i :: 0 <= i < |r| ==> r[i].dept == department
    ensures forall x :: multiset(r)[x] == if StudentMatches(department, search, x) then multiset(students)[x] else 0
    ensures IsSubsequence(r, students)
  {
    FilterCharacterized(students, StudentTest(department, search));
    var r := Filter(students, StudentTest(department, search));
    assert forall i :: 0 <= i < |r| ==> r[i] in r;
    r
  }

  /** An empty search shows the whole department. */
  lemma EmptyStudentSearchShowsDepartment(students: seq<StudentRow>, department: string)
    ensures FilterDepartmentStudents(students, department, "") == Filter(students, InDepartment(department))
  {
    FilterEmptyTermHelper(students, department);
  }

  lemma {:induction false} FilterEmptyTermHelper(students: seq<StudentRow>, department: string)
    ensures Filter(students, StudentTest(department, "")) == Filter(students, InDepartment(department))
  {
    if students != [] {
      EmptyTermMatchesEverything(students[0].name);
      FilterEmptyTermHelper(students[1..], department);
    }
  }

  /** What the "Student Details" panel shows: a table for a selected department, else a prompt. */
  datatype StudentDetailsView = SelectPrompt | StudentTable(department: string, rows: seq<StudentRow>)

  /** `StudentDetailsContent`: a table only when a department is selected (truthy). */
  function StudentDetailsContent(selectedDept: Option<string>, students: seq<StudentRow>, search: string): (r: StudentDetailsView)
    ensures r.SelectPrompt? <==> !Truthy(selectedDept)
    ensures r.StudentTable? ==> r.department == selectedDept.value
    ensures r.StudentTable? ==> r.rows == FilterDepartmentStudents(students, selectedDept.value, search)
  {
    if Truthy(selectedDept) then
      StudentTable(selectedDept.value, FilterDepartmentStudents(students, selectedDept.value, search))
    else SelectPrompt
  }

  /** The main panel rendered for the active menu item. */
  datatype Panel = StaffForm | StudentForm | StaffTablePanel | StudentDetailsPanel(selectedDept: Option<string>)

  /** The sidebar and main-panel state of the admin page. */
  class AdminPanel {
    var active: MenuItem
    var studentDeptOpen: bool
    var selectedDept: Option<string>

    /** The submenu is only ever open under "Student Details"; a selection is a listed department. */
    predicate Valid()
      reads this
    {
      && (studentDeptOpen ==> active == StudentDetails)
      && (selectedDept.Some? ==> selectedDept.value in Departments)
    }

    /** The page opens on "Staff Management", submenu closed, no department selected. */
    constructor()
      ensures active == StaffManagement && !studentDeptOpen && selectedDept.None?
      ensures Valid()
    {
      active := StaffManagement;
      studentDeptOpen := false;
      selectedDept := None;
    }

    /** The submenu's render condition, which under `Valid` is the open flag alone. */
    function SubmenuVisible(): (r: bool)
      reads this
      ensures r <==> active == StudentDetails && studentDeptOpen
      ensures Valid() ==> (r <==> studentDeptOpen)
    {
      active == StudentDetails && studentDeptOpen
    }

    /** The panel the main area renders. */
    function MainPanel(): (p: Panel)
      reads this
      ensures p == StaffForm <==> active == StaffManagement
      ensures p == StudentForm <==> active == StudentManagement
      ensures p == StaffTablePanel <==> active == StaffDetails
      ensures p.StudentDetailsPanel? <==> active == StudentDetails
      ensures p.StudentDetailsPanel? ==> p.selectedDept == selectedDept
    {
      match active
      case StaffManagement => StaffForm
      case StudentManagement => StudentForm
      case StaffDetails => StaffTablePanel
      case StudentDetails => StudentDetailsPanel(selectedDept)
    }

    /** A menu click: the item becomes active; "Student Details" toggles the submenu, any other closes it. */
    method ClickMenuItem(item: MenuItem)
      requires Valid()
      modifies this
      ensures active == item
      ensures studentDeptOpen == (item == StudentDetails && !old(studentDeptOpen))
      ensures selectedDept == old(selectedDept)
      ensures Valid()
    {
      active := item;
      if item == StudentDetails {
        studentDeptOpen := !studentDeptOpen;
      } else {
        studentDeptOpen := false;
      }
    }

    /** A click on a department button, which exists only while the submenu is shown. */
    method SelectDepartment(dept: string)
      requires Valid() && SubmenuVisible() && dept in Departments
      modifies this
      ensures selectedDept == Some(dept)
      ensures active == old(active) && studentDeptOpen == old(studentDeptOpen)
      ensures Valid()
    {
      selectedDept := Some(dept);
    }
  }
}
