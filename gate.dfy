/**
 * The gate terminal's recognition step (`recognizeFace` and `handleScanFace` in
 * src/pages/Gate.tsx): compare the detected face with every staff record, then with every
 * student record department by department, keep the closest one under a running minimum that
 * starts at 1.0 and only moves on a strictly smaller distance, and welcome the person when that
 * minimum is below 0.5 and a name was recorded; otherwise offer the visitor pass.
 */
module Gate {
  import opened Wrappers
  import opened Directory

  /** The acceptance threshold of the gate. */
  const RecognitionThreshold: real := 0.5

  /** The running state of the scan: `minDistance` and `bestName`. */
  datatype Match = Match(minDistance: real, bestName: string)

  /** The scan's starting point: `let minDistance = 1.0; let bestName = ""`. */
  const NoMatch: Match := Match(1.0, "")

  /** One comparison: replace the best match only on a strictly smaller distance. */
  function Step(m: Match, c: Candidate): Match {
    if c.distance < m.minDistance then Match(c.distance, c.name) else m
  }

  /** The running minimum after comparing `cs` in order, starting from `m`. */
  function ScanFrom(m: Match, cs: seq<Candidate>): Match
    decreases |cs|
  {
    if cs == [] then m else Step(ScanFrom(m, cs[..|cs| - 1]), cs[|cs| - 1])
  }

  /** All comparisons in the order the gate makes them: staff first, then the students. */
  function ScanOrder(snap: Snapshot, dist: Descriptor -> real): seq<Candidate> {
    StaffCandidates(snap.staff, dist) + StudentCandidates(snap.departments, dist)
  }

  /** The final `minDistance` and `bestName` for a directory snapshot. */
  function BestMatch(snap: Snapshot, dist: Descriptor -> real): Match {
    ScanFrom(NoMatch, ScanOrder(snap, dist))
  }

  /** The condition for "Welcome": `minDistance < 0.5 && bestName`. */
  predicate Recognized(m: Match) {
    m.minDistance < RecognitionThreshold && m.bestName != ""
  }

  /** `k` is the first position holding the smallest distance in `cs`. */
  ghost predicate IsFirstMinimum(cs: seq<Candidate>, k: int) {
    && 0 <= k < |cs|
    && (forall j :: 0 <= j < |cs| ==> cs[k].distance <= cs[j].distance)
    && (forall j :: 0 <= j < k ==> cs[k].distance < cs[j].distance)
  }

  lemma FirstMinimumUnique(cs: seq<Candidate>, k: int, k': int)
    requires IsFirstMinimum(cs, k) && IsFirstMinimum(cs, k')
    ensures k == k'
  {
    assert cs[k].distance == cs[k'].distance;
  }

  /** Scanning `a + b` is scanning `b` from where scanning `a` left off. */
  lemma {:induction false} ScanAppend(m: Match, a: seq<Candidate>, b: seq<Candidate>)
    ensures ScanFrom(m, a + b) == ScanFrom(ScanFrom(m, a), b)
    decreases |b|
  {
    if b == [] {
      assert a + b == a;
    } else {
      var b' := b[..|b| - 1];
      assert (a + b)[..|a + b| - 1] == a + b';
      assert (a + b)[|a + b| - 1] == b[|b| - 1];
      ScanAppend(m, a, b');
    }
  }

  /** Scanning one more candidate is one more `Step`. */
  lemma ScanSnoc(m: Match, cs: seq<Candidate>, one: seq<Candidate>)
    requires |one| <= 1
    ensures ScanFrom(m, cs + one) == if one == [] then ScanFrom(m, cs) else Step(ScanFrom(m, cs), one[0])
  {
    if one == [] {
      assert cs + one == cs;
    } else {
      assert (cs + one)[..|cs|] == cs;
    }
  }

  /**
   * The scan computes the first minimum below the starting distance: the result never exceeds
   * the start nor any compared distance; it is the start when nothing is strictly below it,
   * and otherwise it is the name and distance of the first candidate with the smallest distance.
   */
  lemma {:induction false} ScanSelectsFirstMinimum(m: Match, cs: seq<Candidate>)
    ensures ScanFrom(m, cs).minDistance <= m.minDistance
    ensures forall j :: 0 <= j < |cs| ==> ScanFrom(m, cs).minDistance <= cs[j].distance
    ensures (forall j :: 0 <= j < |cs| ==> m.minDistance <= cs[j].distance) ==> ScanFrom(m, cs) == m
    ensures (exists j :: 0 <= j < |cs| && cs[j].distance < m.minDistance) ==>
              exists k :: IsFirstMinimum(cs, k) && ScanFrom(m, cs) == Match(cs[k].distance, cs[k].name)
    decreases |cs|
  {
    if cs != [] {
      var p, c := cs[..|cs| - 1], cs[|cs| - 1];
      ScanSelectsFirstMinimum(m, p);
      var rp := ScanFrom(m, p);
      assert forall j :: 0 <= j < |p| ==> cs[j] == p[j];
      if c.distance < rp.minDistance {
        assert IsFirstMinimum(cs, |p|);
      } else if exists j :: 0 <= j < |p| && p[j].distance < m.minDistance {
        var k :| IsFirstMinimum(p, k) && rp == Match(p[k].distance, p[k].name);
        assert IsFirstMinimum(cs, k);
      }
    }
  }

  /**
   * Ties go to the earlier part of the scan: when some candidate of `a` already reaches the
   * final minimum, scanning `b` afterwards changes nothing.
   */
  lemma {:induction false} TieGoesToEarlierPart(m: Match, a: seq<Candidate>, b: seq<Candidate>)
    requires exists i :: 0 <= i < |a| && a[i].distance == ScanFrom(m, a + b).minDistance
    ensures ScanFrom(m, a + b) == ScanFrom(m, a)
  {
    var i :| 0 <= i < |a| && a[i].distance == ScanFrom(m, a + b).minDistance;
    var ra := ScanFrom(m, a);
    ScanAppend(m, a, b);
    ScanSelectsFirstMinimum(m, a);
    ScanSelectsFirstMinimum(ra, b);
    assert a[i].distance >= ra.minDistance;
    assert forall j :: 0 <= j < |b| ==> ra.minDistance <= b[j].distance;
  }

  /** A staff record tied with a student for the closest distance wins: staff are scanned first. */
  lemma StaffWinTies(snap: Snapshot, dist: Descriptor -> real)
    requires exists i :: 0 <= i < |StaffCandidates(snap.staff, dist)|
                         && StaffCandidates(snap.staff, dist)[i].distance == BestMatch(snap, dist).minDistance
    ensures BestMatch(snap, dist) == ScanFrom(NoMatch, StaffCandidates(snap.staff, dist))
  {
    TieGoesToEarlierPart(NoMatch, StaffCandidates(snap.staff, dist), StudentCandidates(snap.departments, dist));
  }

  /**
   * The gate recognises the face exactly when the first closest compared record is closer
   * than 0.5 and carries a non-empty name.
   */
  lemma RecognizedIffClosestNamedBelowThreshold(snap: Snapshot, dist: Descriptor -> real)
    ensures var cs := ScanOrder(snap, dist);
            Recognized(BestMatch(snap, dist)) <==>
            exists k :: IsFirstMinimum(cs, k) && cs[k].distance < RecognitionThreshold && cs[k].name != ""
  {
    var cs := ScanOrder(snap, dist);
    ScanSelectsFirstMinimum(NoMatch, cs);
    if exists k :: IsFirstMinimum(cs, k) && cs[k].distance < RecognitionThreshold && cs[k].name != "" {
      var k :| IsFirstMinimum(cs, k) && cs[k].distance < RecognitionThreshold && cs[k].name != "";
      var k' :| IsFirstMinimum(cs, k') && BestMatch(snap, dist) == Match(cs[k'].distance, cs[k'].name);
      FirstMinimumUnique(cs, k, k');
    }
  }

  /** A staff record without an array descriptor can be added anywhere without changing the result. */
  lemma StaffWithoutDescriptorIgnored(snap: Snapshot, i: nat, x: StaffRecord, dist: Descriptor -> real)
    requires i <= |snap.staff| && x.faceDescriptor.None?
    ensures BestMatch(snap.(staff := snap.staff[..i] + [x] + snap.staff[i..]), dist) == BestMatch(snap, dist)
  {
    StaffWithoutDescriptorAddsNothing(snap.staff, i, x, dist);
  }

  /** A student record without an array descriptor can be added anywhere without changing the result. */
  lemma StudentWithoutDescriptorIgnored(snap: Snapshot, d: nat, j: nat, x: StudentRecord, dist: Descriptor -> real)
    requires d < |snap.departments| && j <= |snap.departments[d]| && x.faceDescriptor.None?
    ensures var depts := snap.departments;
            BestMatch(snap.(departments := depts[d := depts[d][..j] + [x] + depts[d][j..]]), dist) == BestMatch(snap, dist)
  {
    StudentWithoutDescriptorAddsNothing(snap.departments, d, j, x, dist);
  }

  /** The inner loop of `recognizeFace` over the students of one department. */
  method ScanDepartment(m: Match, dept: seq<StudentRecord>, dist: Descriptor -> real) returns (r: Match)
    ensures r == ScanFrom(m, DepartmentCandidates(dept, dist))
  {
    r := m;
    var j := 0;
    while j < |dept|
      invariant 0 <= j <= |dept|
      invariant r == ScanFrom(m, DepartmentCandidates(dept[..j], dist))
    {
      var stu := dept[j];
      ghost var before := DepartmentCandidates(dept[..j], dist);
      assert dept[..j + 1][..j] == dept[..j];
      assert DepartmentCandidates(dept[..j + 1], dist) == before + StudentCandidate(stu, dist);
      ScanSnoc(m, before, StudentCandidate(stu, dist));
      if stu.faceDescriptor.Some? {
        var distance := dist(stu.faceDescriptor.value);
        if distance < r.minDistance {
          r := Match(distance, StudentName(stu));
        }
      }
      j := j + 1;
    }
    assert dept[..j] == dept;
  }

  /** The loop of `recognizeFace` over the staff records. */
  method ScanStaff(m: Match, staff: seq<StaffRecord>, dist: Descriptor -> real) returns (r: Match)
    ensures r == ScanFrom(m, StaffCandidates(staff, dist))
  {
    r := m;
    var i := 0;
    while i < |staff|
      invariant 0 <= i <= |staff|
      invariant r == ScanFrom(m, StaffCandidates(staff[..i], dist))
    {
      var s := staff[i];
      ghost var before := StaffCandidates(staff[..i], dist);
      assert staff[..i + 1][..i] == staff[..i];
      assert StaffCandidates(staff[..i + 1], dist) == before + StaffCandidate(s, dist);
      ScanSnoc(m, before, StaffCandidate(s, dist));
      if s.faceDescriptor.Some? {
        var distance := dist(s.faceDescriptor.value);
        if distance < r.minDistance {
          r := Match(distance, s.name);
        }
      }
      i := i + 1;
    }
    assert staff[..i] == staff;
  }

  /**
   * The comparison loops of `recognizeFace`: staff first, then every department's students,
   * yielding the final `minDistance` and `bestName`.
   */
  method FindBestMatch(snap: Snapshot, dist: Descriptor -> real) returns (minDistance: real, bestName: string)
    ensures Match(minDistance, bestName) == BestMatch(snap, dist)
  {
    var m := ScanStaff(NoMatch, snap.staff, dist);
    ghost var afterStaff := m;
    var depts := snap.departments;
    var d := 0;
    assert depts[..0] == [];
    while d < |depts|
      invariant 0 <= d <= |depts|
      invariant m == ScanFrom(afterStaff, StudentCandidates(depts[..d], dist))
    {
      var dept := depts[d];
      ghost var done := StudentCandidates(depts[..d], dist);
      assert depts[..d + 1][..d] == depts[..d];
      assert StudentCandidates(depts[..d + 1], dist) == done + DepartmentCandidates(dept, dist);
      ScanAppend(afterStaff, done, DepartmentCandidates(dept, dist));
      m := ScanDepartment(m, dept, dist);
      d := d + 1;
    }
    assert depts[..d] == depts;
    ScanAppend(NoMatch, StaffCandidates(snap.staff, dist), StudentCandidates(depts, dist));
    minDistance, bestName := m.minDistance, m.bestName;
  }

  /**
   * What `minDistance` and `bestName` hold after the scan: never more than 1.0 nor any compared
   * distance; 1.0 and no name when nothing compares strictly below 1.0; otherwise the name and
   * distance of the first record with the smallest distance.
   */
  lemma BestMatchIsFirstMinimum(snap: Snapshot, dist: Descriptor -> real)
    ensures var m, cs := BestMatch(snap, dist), ScanOrder(snap, dist);
            && m.minDistance <= 1.0
            && (forall j :: 0 <= j < |cs| ==> m.minDistance <= cs[j].distance)
            && ((forall j :: 0 <= j < |cs| ==> 1.0 <= cs[j].distance) ==> m == NoMatch)
            && ((exists j :: 0 <= j < |cs| && cs[j].distance < 1.0) ==>
                  exists k :: IsFirstMinimum(cs, k) && cs[k] == Candidate(m.bestName, m.minDistance))
  {
    ScanSelectsFirstMinimum(NoMatch, ScanOrder(snap, dist));
  }

  /** What the gate page shows: its message, whether the visitor pass form is open, and the spinner. */
  datatype GateView = GateView(message: string, showVisitorPass: bool, loading: bool)

  /** The face detector on the captured frame: it throws, finds no face, or yields a descriptor. */
  datatype Detection = DetectionThrows | NoFaceDetected | FaceDetected

  const ModelsNotLoadedMessage: string := "Face recognition models not loaded yet."
  const NoFaceMessage: string := "No face detected. Try again."
  const RecognitionErrorMessage: string := "Recognition error. Try again."
  const VisitorPassMessage: string := "Face not recognized. Please fill visitor pass."

  function WelcomeMessage(name: string): string {
    "Welcome, " + name + "!"
  }

  /**
   * The view `recognizeFace` leaves behind: the specification that method `RecognizeFace`
   * (which finds the match with loops) is proved against, and that `ScanFace` states its
   * recognition branch with.
   */
  function Recognition(view: GateView, detection: Detection, directory: DirectoryRead, dist: Descriptor -> real): GateView {
    match detection
    case DetectionThrows => view.(message := RecognitionErrorMessage, loading := false)
    case NoFaceDetected => view.(message := NoFaceMessage, loading := false)
    case FaceDetected =>
      match directory
      case ReadFailed => view.(message := RecognitionErrorMessage, loading := false)
      case Read(snap) =>
        var m := BestMatch(snap, dist);
        if Recognized(m) then GateView(WelcomeMessage(m.bestName), false, false)
        else GateView(VisitorPassMessage, true, false)
  }

  /**
   * `recognizeFace`: without a detected face it reports that and compares nothing; a failure of
   * the detector or of the directory read reports a recognition error; otherwise it welcomes
   * the closest named record under the threshold or opens the visitor pass.
   */
  method RecognizeFace(view: GateView, detection: Detection, directory: DirectoryRead, dist: Descriptor -> real)
    returns (next: GateView)
    ensures next == Recognition(view, detection, directory, dist)
    ensures !next.loading
    ensures detection == DetectionThrows ==> next == view.(message := RecognitionErrorMessage, loading := false)
    ensures detection == NoFaceDetected ==> next == view.(message := NoFaceMessage, loading := false)
    ensures detection.FaceDetected? && directory.ReadFailed? ==>
              next == view.(message := RecognitionErrorMessage, loading := false)
    ensures detection.FaceDetected? && directory.Read? ==>
              && next.showVisitorPass == !Recognized(BestMatch(directory.snapshot, dist))
              && (!next.showVisitorPass ==> next.message == WelcomeMessage(BestMatch(directory.snapshot, dist).bestName))
              && (next.showVisitorPass ==> next.message == VisitorPassMessage)
  {
    if detection == DetectionThrows {
      return view.(message := RecognitionErrorMessage, loading := false);
    }
    if detection == NoFaceDetected {
      return view.(message := NoFaceMessage, loading := false);
    }
    if directory.ReadFailed? {
      return view.(message := RecognitionErrorMessage, loading := false);
    }
    var minDistance, bestName := FindBestMatch(directory.snapshot, dist);
    if minDistance < RecognitionThreshold && bestName != "" {
      next := GateView(WelcomeMessage(bestName), false, false);
    } else {
      next := GateView(VisitorPassMessage, true, false);
    }
  }

  /**
   * `handleScanFace`: refuses with a message while the models are not loaded, does nothing
   * when the video, canvas or drawing context is missing, and otherwise runs the recognition.
   */
  method ScanFace(view: GateView, modelsLoaded: bool, cameraReady: bool, detection: Detection,
                  directory: DirectoryRead, dist: Descriptor -> real) returns (next: GateView)
    ensures !modelsLoaded ==> next == view.(message := ModelsNotLoadedMessage)
    ensures modelsLoaded && !cameraReady ==> next == view
    ensures modelsLoaded && cameraReady ==> next == Recognition(view, detection, directory, dist)
  {
    if !modelsLoaded {
      return view.(message := ModelsNotLoadedMessage);
    }
    if !cameraReady {
      return view;
    }
    next := RecognizeFace(view, detection, directory, dist);
  }
}
