/**
 * The diagnostic face-test page (src/pages/FaceTest.tsx): capture one face descriptor from the
 * camera, then count how many stored faces lie closer than 0.6 to it, students first and
 * staff second.
 */
module FaceTest {
  import opened Wrappers
  import opened Text
  import opened Directory
  import Gate

  /** The matching threshold of the test page (looser than the gate's 0.5). */
  const MatchThreshold: real := 0.6

  /** The distance from the captured descriptor `q` to a stored one, with `distance` the metric. */
  function QueryDistance(distance: Descriptor -> Descriptor -> real, q: Descriptor): Descriptor -> real {
    d => distance(q)(d)
  }

  /** All stored faces in the order the test visits them: students, then staff. */
  function StoredFaces(snap: Snapshot, dist: Descriptor -> real): seq<Candidate> {
    StudentCandidates(snap.departments, dist) + StaffCandidates(snap.staff, dist)
  }

  /** The number of compared faces strictly closer than `t`. */
  function CountBelow(cs: seq<Candidate>, t: real): (n: nat)
    ensures n <= |cs|
    decreases |cs|
  {
    if cs == [] then 0
    else CountBelow(cs[..|cs| - 1], t) + (if cs[|cs| - 1].distance < t then 1 else 0)
  }

  lemma {:induction false} CountBelowAppend(a: seq<Candidate>, b: seq<Candidate>, t: real)
    ensures CountBelow(a + b, t) == CountBelow(a, t) + CountBelow(b, t)
    decreases |b|
  {
    if b == [] {
      assert a + b == a;
    } else {
      var b' := b[..|b| - 1];
      assert (a + b)[..|a + b| - 1] == a + b';
      assert (a + b)[|a + b| - 1] == b[|b| - 1];
      CountBelowAppend(a, b', t);
    }
  }

  /** The count is positive exactly when some compared face is closer than `t`. */
  lemma {:induction false} CountBelowPositiveIff(cs: seq<Candidate>, t: real)
    ensures CountBelow(cs, t) > 0 <==> exists j :: 0 <= j < |cs| && cs[j].distance < t
    decreases |cs|
  {
    if cs != [] {
      var p := cs[..|cs| - 1];
      CountBelowPositiveIff(p, t);
      assert forall j :: 0 <= j < |p| ==> p[j] == cs[j];
      if exists j :: 0 <= j < |p| && p[j].distance < t {
        var j :| 0 <= j < |p| && p[j].distance < t;
        assert cs[j].distance < t;
      }
    }
  }

  /** The count does not depend on the order the collections are visited in. */
  lemma CountBelowOrderFree(snap: Snapshot, dist: Descriptor -> real, t: real)
    ensures CountBelow(StoredFaces(snap, dist), t) == CountBelow(Gate.ScanOrder(snap, dist), t)
  {
    var staff, students := StaffCandidates(snap.staff, dist), StudentCandidates(snap.departments, dist);
    CountBelowAppend(students, staff, t);
    CountBelowAppend(staff, students, t);
  }

  /**
   * A face the gate would welcome is also reported as a match by the test page, because the
   * gate's threshold is the stricter of the two and both compare the same records.
   */
  lemma GateRecognitionImpliesTestMatch(snap: Snapshot, dist: Descriptor -> real)
    requires Gate.Recognized(Gate.BestMatch(snap, dist))
    ensures CountBelow(StoredFaces(snap, dist), MatchThreshold) >= 1
  {
    var cs := Gate.ScanOrder(snap, dist);
    Gate.RecognizedIffClosestNamedBelowThreshold(snap, dist);
    var k :| Gate.IsFirstMinimum(cs, k) && cs[k].distance < Gate.RecognitionThreshold && cs[k].name != "";
    assert cs[k].distance < MatchThreshold;
    CountBelowPositiveIff(cs, MatchThreshold);
    CountBelowOrderFree(snap, dist, MatchThreshold);
  }

  /** The inner loop of `testRecognition` over one department's students. */
  method CountDepartment(found0: nat, total0: nat, dept: seq<StudentRecord>, dist: Descriptor -> real)
    returns (found: nat, total: nat)
    ensures found == found0 + CountBelow(DepartmentCandidates(dept, dist), MatchThreshold)
    ensures total == total0 + |DepartmentCandidates(dept, dist)|
  {
    found, total := found0, total0;
    var j := 0;
    while j < |dept|
      invariant 0 <= j <= |dept|
      invariant found == found0 + CountBelow(DepartmentCandidates(dept[..j], dist), MatchThreshold)
      invariant total == total0 + |DepartmentCandidates(dept[..j], dist)|
    {
      var student := dept[j];
      ghost var before := DepartmentCandidates(dept[..j], dist);
      assert dept[..j + 1][..j] == dept[..j];
      assert DepartmentCandidates(dept[..j + 1], dist) == before + StudentCandidate(student, dist);
      CountBelowAppend(before, StudentCandidate(student, dist), MatchThreshold);
      if student.faceDescriptor.Some? {
        total := total + 1;
        var distance := dist(student.faceDescriptor.value);
        if distance < MatchThreshold {
          found := found + 1;
        }
        assert CountBelow([Candidate(StudentName(student), distance)], MatchThreshold)
            == CountBelow([], MatchThreshold) + (if distance < MatchThreshold then 1 else 0);
      }
      j := j + 1;
    }
    assert dept[..j] == dept;
  }

  /** The loop of `testRecognition` over the staff records. */
  method CountStaff(found0: nat, total0: nat, staff: seq<StaffRecord>, dist: Descriptor -> real)
    returns (found: nat, total: nat)
    ensures found == found0 + CountBelow(StaffCandidates(staff, dist), MatchThreshold)
    ensures total == total0 + |StaffCandidates(staff, dist)|
  {
    found, total := found0, total0;
    var i := 0;
    while i < |staff|
      invariant 0 <= i <= |staff|
      invariant found == found0 + CountBelow(StaffCandidates(staff[..i], dist), MatchThreshold)
      invariant total == total0 + |StaffCandidates(staff[..i], dist)|
    {
      var member := staff[i];
      ghost var before := StaffCandidates(staff[..i], dist);
      assert staff[..i + 1][..i] == staff[..i];
      assert StaffCandidates(staff[..i + 1], dist) == before + StaffCandidate(member, dist);
      CountBelowAppend(before, StaffCandidate(member, dist), MatchThreshold);
      if member.faceDescriptor.Some? {
        total := total + 1;
        var distance := dist(member.faceDescriptor.value);
        if distance < MatchThreshold {
          found := found + 1;
        }
        assert CountBelow([Candidate(member.name, distance)], MatchThreshold)
            == CountBelow([], MatchThreshold) + (if distance < MatchThreshold then 1 else 0);
      }
      i := i + 1;
    }
    assert staff[..i] == staff;
  }

  /**
   * The counting loops of `testRecognition`: `totalFaces` is the number of stored faces that
   * carry an array descriptor and `foundMatches` the number of those closer than 0.6.
   */
  method CountMatches(snap: Snapshot, dist: Descriptor -> real) returns (foundMatches: nat, totalFaces: nat)
    ensures totalFaces == |StoredFaces(snap, dist)|
    ensures foundMatches == CountBelow(StoredFaces(snap, dist), MatchThreshold)
    ensures foundMatches <= totalFaces
  {
    foundMatches, totalFaces := 0, 0;
    var depts := snap.departments;
    var d := 0;
    assert depts[..0] == [];
    while d < |depts|
      invariant 0 <= d <= |depts|
      invariant foundMatches == CountBelow(StudentCandidates(depts[..d], dist), MatchThreshold)
      invariant totalFaces == |StudentCandidates(depts[..d], dist)|
    {
      ghost var done := StudentCandidates(depts[..d], dist);
      assert depts[..d + 1][..d] == depts[..d];
      assert StudentCandidates(depts[..d + 1], dist) == done + DepartmentCandidates(depts[d], dist);
      CountBelowAppend(done, DepartmentCandidates(depts[d], dist), MatchThreshold);
      foundMatches, totalFaces := CountDepartment(foundMatches, totalFaces, depts[d], dist);
      d := d + 1;
    }
    assert depts[..d] == depts;
    CountBelowAppend(StudentCandidates(depts, dist), StaffCandidates(snap.staff, dist), MatchThreshold);
    foundMatches, totalFaces := CountStaff(foundMatches, totalFaces, snap.staff, dist);
  }

  /** The test page's state: models loaded, message, spinner and the captured descriptor. */
  datatype FaceTestView = FaceTestView(modelsLoaded: bool, message: string, loading: bool, captured: Option<Descriptor>)

  /** The detector on the drawn frame: it throws, finds no face, or yields a descriptor. */
  datatype Capture = CaptureThrows | NoFaceInFrame | FaceInFrame(descriptor: Descriptor)

  const ModelsNotLoadedMessage: string := "Models not loaded yet. Please wait."
  const CameraNotReadyMessage: string := "Camera not ready."
  const NoContextMessage: string := "Canvas context not available."
  const NoFaceMessage: string := "No face detected. Please ensure your face is clearly visible."
  const CaptureErrorMessage: string := "Error capturing face. Check console for details."
  const NothingCapturedMessage: string := "No face captured yet. Please capture a face first."
  const TestErrorMessage: string := "Error testing recognition. Check console for details."

  function CapturedMessage(length: nat): string {
    "Face captured successfully! Descriptor length: " + NatToString(length)
  }

  function TestCompleteMessage(found: nat, total: nat): string {
    "Recognition test complete! Found " + NatToString(found) + " matches out of "
      + NatToString(total) + " stored faces. Check console for details."
  }

  /**
   * `captureFace`: the two early refusals leave the spinner alone; once started, every path ends
   * with the spinner off and its own message, and only a detected face replaces the captured
   * descriptor.
   */
  function CaptureFace(view: FaceTestView, cameraReady: bool, contextReady: bool, capture: Capture): (next: FaceTestView)
    ensures next.modelsLoaded == view.modelsLoaded
    ensures !view.modelsLoaded ==> next == view.(message := ModelsNotLoadedMessage)
    ensures view.modelsLoaded && !cameraReady ==> next == view.(message := CameraNotReadyMessage)
    ensures view.modelsLoaded && cameraReady ==> !next.loading
    ensures view.modelsLoaded && cameraReady && !contextReady ==>
              next == view.(message := NoContextMessage, loading := false)
    ensures view.modelsLoaded && cameraReady && contextReady && capture == CaptureThrows ==>
              next == view.(message := CaptureErrorMessage, loading := false)
    ensures view.modelsLoaded && cameraReady && contextReady && capture == NoFaceInFrame ==>
              next == view.(message := NoFaceMessage, loading := false)
    ensures next.captured != view.captured ==> view.modelsLoaded && cameraReady && contextReady && capture.FaceInFrame?
    ensures view.modelsLoaded && cameraReady && contextReady && capture.FaceInFrame? ==>
              next.captured == Some(capture.descriptor) && next.message == CapturedMessage(|capture.descriptor|)
  {
    if !view.modelsLoaded then view.(message := ModelsNotLoadedMessage)
    else if !cameraReady then view.(message := CameraNotReadyMessage)
    else if !contextReady then view.(message := NoContextMessage, loading := false)
    else match capture
      case CaptureThrows => view.(message := CaptureErrorMessage, loading := false)
      case NoFaceInFrame => view.(message := NoFaceMessage, loading := false)
      case FaceInFrame(descriptor) =>
        view.(captured := Some(descriptor), message := CapturedMessage(|descriptor|), loading := false)
  }

  /**
   * The view `testRecognition` leaves behind: the specification that method `TestRecognition`
   * (which counts with loops) is proved against.
   */
  function Test(view: FaceTestView, directory: DirectoryRead, distance: Descriptor -> Descriptor -> real): FaceTestView {
    match view.captured
    case None => view.(message := NothingCapturedMessage)
    case Some(q) =>
      match directory
      case ReadFailed => view.(message := TestErrorMessage, loading := false)
      case Read(snap) =>
        var faces := StoredFaces(snap, QueryDistance(distance, q));
        view.(message := TestCompleteMessage(CountBelow(faces, MatchThreshold), |faces|), loading := false)
  }

  /**
   * `testRecognition`: without a captured face it only says so; otherwise it reports how many of
   * the stored faces are closer than 0.6 to the captured one, or an error when the read fails.
   */
  method TestRecognition(view: FaceTestView, directory: DirectoryRead, distance: Descriptor -> Descriptor -> real)
    returns (next: FaceTestView)
    ensures next == Test(view, directory, distance)
    ensures next.captured == view.captured && next.modelsLoaded == view.modelsLoaded
    ensures view.captured.None? ==> next == view.(message := NothingCapturedMessage)
    ensures view.captured.Some? ==> !next.loading
    ensures view.captured.Some? && directory.ReadFailed? ==> next == view.(message := TestErrorMessage, loading := false)
    ensures view.captured.Some? && directory.Read? ==>
              var faces := StoredFaces(directory.snapshot, QueryDistance(distance, view.captured.value));
              next == view.(message := TestCompleteMessage(CountBelow(faces, MatchThreshold), |faces|), loading := false)
  {
    if view.captured.None? {
      return view.(message := NothingCapturedMessage);
    }
    if directory.ReadFailed? {
      return view.(message := TestErrorMessage, loading := false);
    }
    var foundMatches, totalFaces := CountMatches(directory.snapshot, QueryDistance(distance, view.captured.value));
    next := view.(message := TestCompleteMessage(foundMatches, totalFaces), loading := false);
  }
}
