/**
 * The student list page (src/pages/StudentManagement.tsx): a name / roll-number / department
 * search over the student list, and the badge and button labels that follow `hasFaceData`.
 */
module StudentManagement {
  import opened Wrappers
  import opened Text
  import opened Seqs

  datatype Student = Student(id: string, name: string, rollNo: string, year: string, department: string,
                             dob: string, hasFaceData: bool, lastSeen: Option<string>)

  /** Row test of `filteredStudents`: name, roll number or department contains the term, ignoring case. */
  predicate SearchMatches(term: string, s: Student) {
    || IncludesIgnoringCase(s.name, term)
    || IncludesIgnoringCase(s.rollNo, term)
    || IncludesIgnoringCase(s.department, term)
  }

  function SearchTest(term: string): Student -> bool {
    s => SearchMatches(term, s)
  }

  /** `filteredStudents`: an order-preserving selection of exactly the matching students. */
  function FilteredStudents(students: seq<Student>, term: string): (r: seq<Student>)
    ensures forall x :: x in r <==> x in students && SearchMatches(term, x)
    ensures forall x :: multiset(r)[x] == if SearchMatches(term, x) then multiset(students)[x] else 0
    ensures IsSubsequence(r, students)
  {
    FilterCharacterized(students, SearchTest(term));
    Filter(students, SearchTest(term))
  }

  lemma EmptySearchShowsAll(students: seq<Student>)
    ensures FilteredStudents(students, "") == students
  {
    forall i | 0 <= i < |students|
      ensures SearchTest("")(students[i])
    {
      EmptyTermMatchesEverything(students[i].name);
    }
    FilterKeepsAll(students, SearchTest(""));
  }

  /** Two students that agree on every searched field. */
  predicate SameSearchedFields(s: Student, t: Student) {
    s.name == t.name && s.rollNo == t.rollNo && s.department == t.department
  }

  /**
   * The id, year, date of birth, face-data flag and last-seen time are never searched: lists that
   * agree position by position on the searched fields keep the same positions.
   */
  lemma {:induction false} UnsearchedFieldsIgnored(a: seq<Student>, b: seq<Student>, term: string)
    requires |a| == |b|
    requires forall i :: 0 <= i < |a| ==> SameSearchedFields(a[i], b[i])
    ensures |FilteredStudents(a, term)| == |FilteredStudents(b, term)|
    ensures forall i :: 0 <= i < |FilteredStudents(a, term)| ==>
              SameSearchedFields(FilteredStudents(a, term)[i], FilteredStudents(b, term)[i])
  {
    if a != [] {
      UnsearchedFieldsIgnored(a[1..], b[1..], term);
      assert SearchMatches(term, a[0]) == SearchMatches(term, b[0]);
      var ta, tb := Filter(a[1..], SearchTest(term)), Filter(b[1..], SearchTest(term));
      if SearchMatches(term, a[0]) {
        assert Filter(a, SearchTest(term)) == [a[0]] + ta;
        assert Filter(b, SearchTest(term)) == [b[0]] + tb;
      } else {
        assert Filter(a, SearchTest(term)) == ta;
        assert Filter(b, SearchTest(term)) == tb;
      }
    }
  }

  /** The badge text of a student row. */
  function FaceDataBadge(s: Student): (r: string)
    ensures r == "Face Data Ready" <==> s.hasFaceData
    ensures r == "Setup Required" <==> !s.hasFaceData
  {
    if s.hasFaceData then "Face Data Ready" else "Setup Required"
  }

  /** The label of the capture button of a student row. */
  function CaptureButtonLabel(s: Student): (r: string)
    ensures r == "Update" <==> s.hasFaceData
    ensures r == "Capture" <==> !s.hasFaceData
  {
    if s.hasFaceData then "Update" else "Capture"
  }

  /** Both labels are fixed by `hasFaceData` alone. */
  lemma LabelsFollowFaceData(s: Student, t: Student)
    requires s.hasFaceData == t.hasFaceData
    ensures FaceDataBadge(s) == FaceDataBadge(t) && CaptureButtonLabel(s) == CaptureButtonLabel(t)
  {
  }
}
