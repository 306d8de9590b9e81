/**
 * The scene heuristics of the action recognizer
 * (backend/action_recognizer.py): classifying a scene's environment from
 * the object names seen in it, averaging the people detected over a frame
 * window, and the fixed movement analysis.
 */
module ActionRecognizer {
  import opened Common

  datatype Environment = Outdoor | Indoor | Unknown

  /** One entry of the actions list. */
  datatype Action = Action(action: string, confidence: real, timestamp: int, duration: real)

  /** A person detection: its frame number, when the record carries one. */
  datatype Detection = Detection(frame: Option<int>)

  const OutdoorObjects: set<string> := {"tree", "grass", "sky", "car", "road", "building"}
  const IndoorObjects: set<string> := {"couch", "bed", "table", "chair", "tv", "door"}

  /** The string `detect_environment` returns for each kind of place; distinct kinds get distinct names. */
  function EnvironmentName(e: Environment): (name: string)
    ensures name == "outdoor" <==> e == Outdoor
    ensures name == "indoor" <==> e == Indoor
    ensures name == "unknown" <==> e == Unknown
  {
    match e
    case Outdoor => "outdoor"
    case Indoor => "indoor"
    case Unknown => "unknown"
  }

  // ---- Environment -------------------------------------------------------------

  /** How many entries of `objects` (with repetitions) are in `names`. */
  function CountIn(objects: seq<string>, names: set<string>): (n: nat)
    ensures n <= |objects|
  {
    if objects == [] then 0
    else CountIn(objects[..|objects| - 1], names) + (if objects[|objects| - 1] in names then 1 else 0)
  }

  /** The count is the number of positions whose name is in `names`: each such entry counts once. */
  lemma {:induction false} CountInIndices(objects: seq<string>, names: set<string>)
    ensures CountIn(objects, names) == |set i | 0 <= i < |objects| && objects[i] in names|
  {
    var all := set i | 0 <= i < |objects| && objects[i] in names;
    if objects == [] {
      assert all == {};
    } else {
      var n := |objects| - 1;
      var front := objects[..n];
      var before := set i | 0 <= i < n && front[i] in names;
      CountInIndices(front, names);
      assert n !in before;
      if objects[n] in names {
        assert all == before + {n};
      } else {
        assert all == before;
      }
    }
  }

  /** `detect_environment`: the kind of place whose objects outnumber the other's; a tie is unknown. */
  function DetectEnvironment(objects: seq<string>): (e: Environment)
    ensures e == Outdoor <==> CountIn(objects, OutdoorObjects) > CountIn(objects, IndoorObjects)
    ensures e == Indoor <==> CountIn(objects, IndoorObjects) > CountIn(objects, OutdoorObjects)
    ensures e == Unknown <==> CountIn(objects, OutdoorObjects) == CountIn(objects, IndoorObjects)
  {
    var outdoor := CountIn(objects, OutdoorObjects);
    var indoor := CountIn(objects, IndoorObjects);
    if outdoor > indoor then Outdoor
    else if indoor > outdoor then Indoor
    else Unknown
  }

  /** `detect_environment` as it answers: the name of the kind of place whose objects outnumber the other's. */
  function DetectEnvironmentName(objects: seq<string>): (name: string)
    ensures name == "outdoor" <==> CountIn(objects, OutdoorObjects) > CountIn(objects, IndoorObjects)
    ensures name == "indoor" <==> CountIn(objects, IndoorObjects) > CountIn(objects, OutdoorObjects)
    ensures name == "unknown" <==> CountIn(objects, OutdoorObjects) == CountIn(objects, IndoorObjects)
  {
    EnvironmentName(DetectEnvironment(objects))
  }

  /** No object name belongs to both kinds of place, so no entry counts twice. */
  lemma KindsAreDisjoint()
    ensures OutdoorObjects !! IndoorObjects
  {
  }

  lemma {:induction false} CountInAppend(a: seq<string>, b: seq<string>, names: set<string>)
    ensures CountIn(a + b, names) == CountIn(a, names) + CountIn(b, names)
  {
    if b == [] {
      assert a + b == a;
    } else {
      var n := |b| - 1;
      assert (a + b)[..|a + b| - 1] == a + b[..n];
      assert (a + b)[|a + b| - 1] == b[n];
      CountInAppend(a, b[..n], names);
    }
  }

  /** Since no name is of both kinds, the two counts together never exceed the number of objects. */
  lemma {:induction false} CountsWithinLength(objects: seq<string>)
    ensures CountIn(objects, OutdoorObjects) + CountIn(objects, IndoorObjects) <= |objects|
  {
    if objects != [] {
      KindsAreDisjoint();
      CountsWithinLength(objects[..|objects| - 1]);
    }
  }

  /** Counts see only how often each name occurs, not where. */
  lemma {:induction false} CountInPermutation(a: seq<string>, b: seq<string>, names: set<string>)
    requires multiset(a) == multiset(b)
    ensures CountIn(a, names) == CountIn(b, names)
  {
    if a != [] {
      var n := |a| - 1;
      var x := a[n];
      assert a == a[..n] + [x];
      assert x in multiset(b);
      var k :| 0 <= k < |b| && b[k] == x;
      var rest := b[..k] + b[k + 1..];
      assert b == b[..k] + [x] + b[k + 1..];
      assert multiset(a) == multiset(a[..n]) + multiset{x};
      assert multiset(b) == multiset(b[..k]) + multiset{x} + multiset(b[k + 1..]);
      assert multiset(rest) == multiset(b[..k]) + multiset(b[k + 1..]);
      assert multiset(a[..n]) == multiset(a) - multiset{x};
      assert multiset(rest) == multiset(b) - multiset{x};
      CountInPermutation(a[..n], rest, names);
      CountInAppend(b[..k], [x], names);
      CountInAppend(b[..k] + [x], b[k + 1..], names);
      CountInAppend(b[..k], b[k + 1..], names);
    }
  }

  /** The environment does not depend on the order the objects are listed in. */
  lemma EnvironmentIgnoresOrder(a: seq<string>, b: seq<string>)
    requires multiset(a) == multiset(b)
    ensures DetectEnvironment(a) == DetectEnvironment(b)
  {
    CountInPermutation(a, b, OutdoorObjects);
    CountInPermutation(a, b, IndoorObjects);
  }

  lemma {:induction false} CountInNone(objects: seq<string>, names: set<string>)
    requires forall i :: 0 <= i < |objects| ==> objects[i] !in names
    ensures CountIn(objects, names) == 0
  {
    if objects != [] {
      CountInNone(objects[..|objects| - 1], names);
    }
  }

  /** Only unrecognised names, the empty list among them, give "unknown". */
  lemma UnrecognisedIsUnknown(objects: seq<string>)
    requires forall i :: 0 <= i < |objects| ==> objects[i] !in OutdoorObjects && objects[i] !in IndoorObjects
    ensures DetectEnvironment(objects) == Unknown
  {
    CountInNone(objects, OutdoorObjects);
    CountInNone(objects, IndoorObjects);
  }

  lemma {:induction false} CountInAll(objects: seq<string>, names: set<string>)
    requires forall i :: 0 <= i < |objects| ==> objects[i] in names
    ensures CountIn(objects, names) == |objects|
  {
    if objects != [] {
      CountInAll(objects[..|objects| - 1], names);
    }
  }

  /** A scene showing only outdoor objects, at least one, is outdoor; likewise indoors. */
  lemma AllOfOneKind(objects: seq<string>)
    requires objects != []
    ensures (forall i :: 0 <= i < |objects| ==> objects[i] in OutdoorObjects) ==> DetectEnvironment(objects) == Outdoor
    ensures (forall i :: 0 <= i < |objects| ==> objects[i] in IndoorObjects) ==> DetectEnvironment(objects) == Indoor
  {
    KindsAreDisjoint();
    if forall i :: 0 <= i < |objects| ==> objects[i] in OutdoorObjects {
      CountInAll(objects, OutdoorObjects);
      CountInNone(objects, IndoorObjects);
    }
    if forall i :: 0 <= i < |objects| ==> objects[i] in IndoorObjects {
      CountInAll(objects, IndoorObjects);
      CountInNone(objects, OutdoorObjects);
    }
  }

  /** One more outdoor object never turns an outdoor scene into anything else; likewise indoors. */
  lemma MoreOfTheSameKind(objects: seq<string>, x: string)
    ensures x in OutdoorObjects && DetectEnvironment(objects) == Outdoor ==> DetectEnvironment(objects + [x]) == Outdoor
    ensures x in IndoorObjects && DetectEnvironment(objects) == Indoor ==> DetectEnvironment(objects + [x]) == Indoor
  {
    assert (objects + [x])[..|objects|] == objects;
  }

  // ---- People count ----------------------------------------------------------------

  /** The frame a detection is counted at: a record without one counts as frame 0. */
  function FrameOf(d: Detection): int {
    match d.frame
    case Some(f) => f
    case None => 0
  }

  /** How many detections fall in the inclusive frame window `[startFrame, endFrame]`. */
  function InWindow(detections: seq<Detection>, startFrame: int, endFrame: int): (n: nat)
    ensures n <= |detections|
  {
    if detections == [] then 0
    else
      var d := detections[|detections| - 1];
      InWindow(detections[..|detections| - 1], startFrame, endFrame)
        + (if startFrame <= FrameOf(d) <= endFrame then 1 else 0)
  }

  /** The window count is the number of detections whose frame lies in the window, both ends included. */
  lemma {:induction false} InWindowIndices(detections: seq<Detection>, startFrame: int, endFrame: int)
    ensures InWindow(detections, startFrame, endFrame)
            == |set i | 0 <= i < |detections| && startFrame <= FrameOf(detections[i]) <= endFrame|
  {
    var all := set i | 0 <= i < |detections| && startFrame <= FrameOf(detections[i]) <= endFrame;
    if detections == [] {
      assert all == {};
    } else {
      var n := |detections| - 1;
      var front := detections[..n];
      var before := set i | 0 <= i < n && startFrame <= FrameOf(front[i]) <= endFrame;
      InWindowIndices(front, startFrame, endFrame);
      assert n !in before;
      if startFrame <= FrameOf(detections[n]) <= endFrame {
        assert all == before + {n};
      } else {
        assert all == before;
      }
    }
  }

  /** A detection at either end of the window counts: one at `startFrame` or `endFrame` adds one. */
  lemma WindowEndsIncluded(detections: seq<Detection>, startFrame: int, endFrame: int)
    requires startFrame <= endFrame
    ensures InWindow(detections + [Detection(Some(startFrame))], startFrame, endFrame)
            == InWindow(detections, startFrame, endFrame) + 1
    ensures InWindow(detections + [Detection(Some(endFrame))], startFrame, endFrame)
            == InWindow(detections, startFrame, endFrame) + 1
  {
    assert (detections + [Detection(Some(startFrame))])[..|detections|] == detections;
    assert (detections + [Detection(Some(endFrame))])[..|detections|] == detections;
  }

  /**
   * `count_people_in_scene`: the person detections in the window, divided
   * (rounding down) by the window's length, taken as at least 1.
   */
  function CountPeopleInScene(objectDetections: map<string, seq<Detection>>, startFrame: int, endFrame: int): (r: nat)
    ensures "person" !in objectDetections ==> r == 0
    ensures "person" in objectDetections ==>
      var matched := InWindow(objectDetections["person"], startFrame, endFrame);
      var span := if endFrame - startFrame > 1 then endFrame - startFrame else 1;
      && FloorQuotient(r, matched, span)
      && r <= matched
      && (endFrame - startFrame <= 1 ==> r == matched)
  {
    if "person" !in objectDetections then 0
    else
      var matched := InWindow(objectDetections["person"], startFrame, endFrame);
      if matched == 0 then 0
      else
        var span := if endFrame - startFrame > 1 then endFrame - startFrame else 1;
        FloorDivision(matched, span);
        matched / span
  }

  /** `q` is the quotient of `m` by `span`, rounded down: `q` whole spans fit into `m`, `q + 1` do not. */
  predicate FloorQuotient(q: int, m: int, span: int) {
    q * span <= m < (q + 1) * span
  }

  /** Python's `//` on a count and a positive divisor: the quotient brackets the count and never exceeds it. */
  lemma FloorDivision(m: nat, span: int)
    requires span >= 1
    ensures FloorQuotient(m / span, m, span)
    ensures m / span <= m
    ensures span == 1 ==> m / span == m
  {
    var q, rem := m / span, m % span;
    assert m == q * span + rem && 0 <= rem < span;
    assert (q + 1) * span == q * span + span;
    AtLeastOnce(q, span);
  }

  /** A non-negative number taken at least once is at least itself. */
  lemma AtLeastOnce(q: int, span: int)
    requires q >= 0 && span >= 1
    ensures q * span >= q
  {
    assert q * span == q * (span - 1) + q;
  }

  /** An empty or inverted window matches nothing, so no people are counted. */
  lemma {:induction false} EmptyWindowMatchesNothing(detections: seq<Detection>, startFrame: int, endFrame: int)
    requires endFrame < startFrame
    ensures InWindow(detections, startFrame, endFrame) == 0
  {
    if detections != [] {
      EmptyWindowMatchesNothing(detections[..|detections| - 1], startFrame, endFrame);
    }
  }

  /**
   * Detection records that carry no frame number (those the analyser writes
   * carry only a timestamp) all count at frame 0: every one of them
   * matches a window that contains 0, and none matches any other window.
   */
  lemma {:induction false} FramelessDetections(detections: seq<Detection>, startFrame: int, endFrame: int)
    requires forall i :: 0 <= i < |detections| ==> detections[i].frame.None?
    ensures InWindow(detections, startFrame, endFrame) == if startFrame <= 0 <= endFrame then |detections| else 0
  {
    if detections != [] {
      FramelessDetections(detections[..|detections| - 1], startFrame, endFrame);
    }
  }

  // ---- Movement patterns --------------------------------------------------------------

  /** `_analyze_movement_patterns`: whatever the positions and frame rate, one fixed "walking" entry. */
  function AnalyzeMovementPatterns<P>(positions: seq<P>, fps: real): (actions: seq<Action>)
    ensures |actions| == 1
    ensures actions[0] == Action("walking", 0.8, 0, 5.0)
  {
    [Action("walking", 0.8, 0, 5.0)]
  }
}
