/**
 * The enrolled-face directory as the gate pages read it from the database: a `staff`
 * collection and a `students` collection grouped by department. Both pages compare a query
 * descriptor with every stored record whose `faceDescriptor` is an array; the distance itself
 * (face-api's Euclidean distance on float arrays) is abstracted as a function `dist` from the
 * stored descriptor to a real number, fixed for the query being matched.
 */
module Directory {
  import opened Wrappers

  /** A stored face descriptor (a number array in the database). */
  type Descriptor = seq<real>

  /**
   * A staff record. `faceDescriptor` is `Some` exactly when the stored value is an array;
   * a missing `name` is the empty string (both are falsy).
   */
  datatype StaffRecord = StaffRecord(name: string, faceDescriptor: Option<Descriptor>)

  /** A student record, which may carry its name under `Name` (here `titleName`) or `name`. */
  datatype StudentRecord = StudentRecord(titleName: string, name: string, faceDescriptor: Option<Descriptor>)

  /** `stu.Name || stu.name`. */
  function StudentName(s: StudentRecord): string {
    if s.titleName != "" then s.titleName else s.name
  }

  /** The two collections, in the iteration order of `Object.values`. */
  datatype Snapshot = Snapshot(staff: seq<StaffRecord>, departments: seq<seq<StudentRecord>>)

  /** Reading both collections either throws or yields a snapshot (absent collections are empty). */
  datatype DirectoryRead = ReadFailed | Read(snapshot: Snapshot)

  /** One compared record: the name the scan would report and its distance to the query. */
  datatype Candidate = Candidate(name: string, distance: real)

  /** The comparison a staff record takes part in: none unless its descriptor is an array. */
  function StaffCandidate(s: StaffRecord, dist: Descriptor -> real): seq<Candidate> {
    match s.faceDescriptor
    case Some(d) => [Candidate(s.name, dist(d))]
    case None => []
  }

  /** The comparison a student record takes part in. */
  function StudentCandidate(s: StudentRecord, dist: Descriptor -> real): seq<Candidate> {
    match s.faceDescriptor
    case Some(d) => [Candidate(StudentName(s), dist(d))]
    case None => []
  }

  /** The comparisons made over the staff collection, in order. */
  function StaffCandidates(staff: seq<StaffRecord>, dist: Descriptor -> real): seq<Candidate>
    decreases |staff|
  {
    if staff == [] then []
    else StaffCandidates(staff[..|staff| - 1], dist) + StaffCandidate(staff[|staff| - 1], dist)
  }

  /** The comparisons made over one department, in order. */
  function DepartmentCandidates(dept: seq<StudentRecord>, dist: Descriptor -> real): seq<Candidate>
    decreases |dept|
  {
    if dept == [] then []
    else DepartmentCandidates(dept[..|dept| - 1], dist) + StudentCandidate(dept[|dept| - 1], dist)
  }

  /** The comparisons made over all departments, department by department. */
  function StudentCandidates(departments: seq<seq<StudentRecord>>, dist: Descriptor -> real): seq<Candidate>
    decreases |departments|
  {
    if departments == [] then []
    else StudentCandidates(departments[..|departments| - 1], dist)
         + DepartmentCandidates(departments[|departments| - 1], dist)
  }

  lemma {:induction false} StaffCandidatesAppend(a: seq<StaffRecord>, b: seq<StaffRecord>, dist: Descriptor -> real)
    ensures StaffCandidates(a + b, dist) == StaffCandidates(a, dist) + StaffCandidates(b, dist)
    decreases |b|
  {
    if b == [] {
      assert a + b == a;
    } else {
      var b' := b[..|b| - 1];
      assert (a + b)[..|a + b| - 1] == a + b';
      assert (a + b)[|a + b| - 1] == b[|b| - 1];
      StaffCandidatesAppend(a, b', dist);
    }
  }

  lemma {:induction false} DepartmentCandidatesAppend(a: seq<StudentRecord>, b: seq<StudentRecord>, dist: Descriptor -> real)
    ensures DepartmentCandidates(a + b, dist) == DepartmentCandidates(a, dist) + DepartmentCandidates(b, dist)
    decreases |b|
  {
    if b == [] {
      assert a + b == a;
    } else {
      var b' := b[..|b| - 1];
      assert (a + b)[..|a + b| - 1] == a + b';
      assert (a + b)[|a + b| - 1] == b[|b| - 1];
      DepartmentCandidatesAppend(a, b', dist);
    }
  }

  /** The student comparisons depend on each department only through its own comparisons. */
  lemma {:induction false} StudentCandidatesCongruent(a: seq<seq<StudentRecord>>, b: seq<seq<StudentRecord>>, dist: Descriptor -> real)
    requires |a| == |b|
    requires forall i :: 0 <= i < |a| ==> DepartmentCandidates(a[i], dist) == DepartmentCandidates(b[i], dist)
    ensures StudentCandidates(a, dist) == StudentCandidates(b, dist)
    decreases |a|
  {
    if a != [] {
      StudentCandidatesCongruent(a[..|a| - 1], b[..|b| - 1], dist);
    }
  }

  lemma StaffRecordWithoutDescriptor(x: StaffRecord, dist: Descriptor -> real)
    requires x.faceDescriptor.None?
    ensures StaffCandidates([x], dist) == []
  {
  }

  lemma StudentRecordWithoutDescriptor(x: StudentRecord, dist: Descriptor -> real)
    requires x.faceDescriptor.None?
    ensures DepartmentCandidates([x], dist) == []
  {
  }

  /** A staff record without an array descriptor adds no comparison wherever it is stored. */
  lemma {:induction false} StaffWithoutDescriptorAddsNothing(staff: seq<StaffRecord>, i: nat, x: StaffRecord, dist: Descriptor -> real)
    requires i <= |staff|
    requires x.faceDescriptor.None?
    ensures StaffCandidates(staff[..i] + [x] + staff[i..], dist) == StaffCandidates(staff, dist)
  {
    var pre, post := staff[..i], staff[i..];
    assert pre + post == staff;
    calc {
      StaffCandidates(pre + [x] + post, dist);
      { StaffCandidatesAppend(pre + [x], post, dist); }
      StaffCandidates(pre + [x], dist) + StaffCandidates(post, dist);
      { StaffCandidatesAppend(pre, [x], dist); StaffRecordWithoutDescriptor(x, dist); }
      StaffCandidates(pre, dist) + StaffCandidates(post, dist);
      { StaffCandidatesAppend(pre, post, dist); }
      StaffCandidates(staff, dist);
    }
  }

  /** A student record without an array descriptor adds no comparison wherever it is stored. */
  lemma {:induction false} StudentWithoutDescriptorAddsNothing(departments: seq<seq<StudentRecord>>, d: nat, j: nat, x: StudentRecord, dist: Descriptor -> real)
    requires d < |departments| && j <= |departments[d]|
    requires x.faceDescriptor.None?
    ensures StudentCandidates(departments[d := departments[d][..j] + [x] + departments[d][j..]], dist)
         == StudentCandidates(departments, dist)
  {
    var dept := departments[d];
    var pre, post := dept[..j], dept[j..];
    assert pre + post == dept;
    calc {
      DepartmentCandidates(pre + [x] + post, dist);
      { DepartmentCandidatesAppend(pre + [x], post, dist); }
      DepartmentCandidates(pre + [x], dist) + DepartmentCandidates(post, dist);
      { DepartmentCandidatesAppend(pre, [x], dist); StudentRecordWithoutDescriptor(x, dist); }
      DepartmentCandidates(pre, dist) + DepartmentCandidates(post, dist);
      { DepartmentCandidatesAppend(pre, post, dist); }
      DepartmentCandidates(dept, dist);
    }
    var updated := departments[d := pre + [x] + post];
    assert DepartmentCandidates(updated[d], dist) == DepartmentCandidates(dept, dist);
    StudentCandidatesCongruent(updated, departments, dist);
  }
}
