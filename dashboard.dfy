/**
 * The results dashboard (frontend/src/app/dashboard/page.tsx): it polls the
 * job's status until the analysis ends, picks the view for the current
 * status, and highlights the scene or transcript segment under the playback
 * position together with a progress bar for the active scene.
 */
module Dashboard {
  import opened Common
  import opened Api

  /** Delay before the next status check while the job is still running. */
  const PollDelayMs: nat := 2000
  const AnalyzePrefix: string := ApiBase + "/analyze/"
  const UploadsPrefix: string := ApiBase + "/uploads/"

  /** The body of a `GET /analyze/{job_id}` reply. */
  datatype StatusReply = StatusReply(status: string, results: Option<AnalysisResults>, filename: string)

  /** What one status request produced: a reply, or a thrown error (network fault or an error status such as 404). */
  datatype Fetch = Replied(reply: StatusReply) | Threw

  /** What one `checkStatus` call does with its fetch. */
  datatype Decision =
    | ShowResults(results: Option<AnalysisResults>, videoUrl: string)
    | ShowFailed
    | ShowError
    | PollAgain(delayMs: nat)

  /** The three screens the page renders. */
  datatype View = Analysing | FailureView | ResultsView

  // ---- Polling --------------------------------------------------------------

  /** The status request sent on mount: none when the `job_id` parameter is missing or empty (falsy). */
  function StatusRequest(jobId: Option<string>): (url: Option<string>)
    ensures url.Some? <==> jobId.Some? && jobId.value != ""
    ensures url.Some? ==> AnalyzePrefix <= url.value && url.value[|AnalyzePrefix|..] == jobId.value
  {
    if jobId.Some? && jobId.value != "" then Some(AnalyzePrefix + jobId.value) else None
  }

  /**
   * One `checkStatus`: a "completed" reply shows the results and the video,
   * "failed" shows the failure, a thrown request shows the error, and any
   * other status schedules another check after 2000 ms.
   */
  function Decide(fetch: Fetch): (d: Decision)
    ensures d.ShowResults? <==> fetch.Replied? && fetch.reply.status == "completed"
    ensures d.ShowFailed? <==> fetch.Replied? && fetch.reply.status == "failed"
    ensures d.ShowError? <==> fetch.Threw?
    ensures d.PollAgain? <==> fetch.Replied? && fetch.reply.status !in {"completed", "failed"}
    ensures d.PollAgain? ==> d.delayMs == PollDelayMs
    ensures d.ShowResults? ==> d.results == fetch.reply.results
    ensures d.ShowResults? ==> UploadsPrefix <= d.videoUrl && d.videoUrl[|UploadsPrefix|..] == fetch.reply.filename
  {
    match fetch
    case Threw => ShowError
    case Replied(reply) =>
      if reply.status == "completed" then ShowResults(reply.results, UploadsPrefix + reply.filename)
      else if reply.status == "failed" then ShowFailed
      else PollAgain(PollDelayMs)
  }

  /** The status a check that ends polling sets; a check that reschedules leaves the status as it was. */
  function StatusAfter(status: string, d: Decision): (s: string)
    ensures d.PollAgain? ==> s == status
    ensures d.ShowResults? ==> s == "completed"
    ensures d.ShowFailed? ==> s == "failed"
    ensures d.ShowError? ==> s == "error"
  {
    match d
    case ShowResults(_, _) => "completed"
    case ShowFailed => "failed"
    case ShowError => "error"
    case PollAgain(_) => status
  }

  /**
   * The chain of checks that a mount starts, fed one fetch per check: a
   * check runs only when the previous one rescheduled. Returns the final
   * status and the number of requests made.
   */
  function PollChain(status: string, fetches: seq<Fetch>): (r: (string, nat))
    ensures r.1 <= |fetches|
    ensures r.1 == 0 <==> fetches == []
  {
    if fetches == [] then (status, 0)
    else
      var d := Decide(fetches[0]);
      if d.PollAgain? then
        var (s, n) := PollChain(status, fetches[1..]);
        (s, n + 1)
      else (StatusAfter(status, d), 1)
  }

  /**
   * Polling stops at the first fetch that is not a running status: exactly
   * that many requests are made, and that fetch alone decides the final
   * status.
   */
  lemma {:induction false} PollingStopsAtFirstVerdict(status: string, fetches: seq<Fetch>, k: nat)
    requires k < |fetches| && !Decide(fetches[k]).PollAgain?
    requires forall i :: 0 <= i < k ==> Decide(fetches[i]).PollAgain?
    ensures PollChain(status, fetches) == (StatusAfter(status, Decide(fetches[k])), k + 1)
  {
    if k > 0 {
      PollingStopsAtFirstVerdict(status, fetches[1..], k - 1);
    }
  }

  /** While every reply reports a running job, the status stays what it was and every fetch is requested. */
  lemma {:induction false} PollingKeepsStatus(status: string, fetches: seq<Fetch>)
    requires forall i :: 0 <= i < |fetches| ==> Decide(fetches[i]).PollAgain?
    ensures PollChain(status, fetches) == (status, |fetches|)
  {
    if fetches != [] {
      PollingKeepsStatus(status, fetches[1..]);
    }
  }

  /** Starting from "loading", the page only ever holds "loading", "completed", "failed" or "error". */
  lemma {:induction false} ReachableStatuses(fetches: seq<Fetch>)
    ensures PollChain("loading", fetches).0 in {"loading", "completed", "failed", "error"}
  {
    if fetches != [] && Decide(fetches[0]).PollAgain? {
      ReachableStatuses(fetches[1..]);
    }
  }

  // ---- Views ------------------------------------------------------------------

  /** The screen rendered for a status. */
  function ViewFor(status: string): (v: View)
    ensures v == Analysing <==> status in {"loading", "queued", "processing"}
    ensures v == FailureView <==> status in {"failed", "error"}
    ensures v == ResultsView <==> status !in {"loading", "queued", "processing", "failed", "error"}
  {
    if status == "loading" || status == "queued" || status == "processing" then Analysing
    else if status == "failed" || status == "error" then FailureView
    else ResultsView
  }

  /**
   * After one check from "loading", the page shows results exactly for a
   * "completed" reply, the failure screen for "failed" or a thrown request,
   * and keeps analysing otherwise.
   */
  lemma ViewAfterCheck(fetch: Fetch)
    ensures var v := ViewFor(StatusAfter("loading", Decide(fetch)));
      && (v == ResultsView <==> fetch.Replied? && fetch.reply.status == "completed")
      && (v == FailureView <==> fetch.Threw? || fetch.reply.status == "failed")
      && (v == Analysing <==> Decide(fetch).PollAgain?)
  {
  }

  // ---- Playback highlighting -----------------------------------------------------

  /** The half-open test that highlights a scene or segment: it has started and not yet ended. */
  predicate IsActive(t: real, start: real, end: real)
    ensures IsActive(t, start, end) ==> start < end
  {
    start <= t < end
  }

  predicate SceneActive(scene: Scene, t: real) {
    IsActive(t, scene.startTime, scene.endTime)
  }

  predicate SegmentActive(segment: TranscriptSegment, t: real) {
    IsActive(t, segment.start, segment.end)
  }

  /** At the boundary of two adjacent intervals only the later one is active. */
  lemma AdjacentHandOver(t: real, start1: real, end1: real, start2: real, end2: real)
    requires end1 == start2 < end2 && t == start2
    ensures !IsActive(t, start1, end1) && IsActive(t, start2, end2)
  {
  }

  /** Scenes in playback order: each well formed, each ending no later than the next starts. */
  predicate Chronological(scenes: seq<Scene>) {
    && (forall i :: 0 <= i < |scenes| ==> scenes[i].startTime <= scenes[i].endTime)
    && (forall i :: 0 < i < |scenes| ==> scenes[i - 1].endTime <= scenes[i].startTime)
  }

  lemma {:induction false} EndsBeforeLaterStarts(scenes: seq<Scene>, i: nat, j: nat)
    requires Chronological(scenes) && i < j < |scenes|
    ensures scenes[i].endTime <= scenes[j].startTime
  {
    if i + 1 < j {
      EndsBeforeLaterStarts(scenes, i, j - 1);
    }
  }

  /** Transcript segments in playback order, in the same sense as `Chronological`. */
  predicate ChronologicalSegments(segments: seq<TranscriptSegment>) {
    && (forall i :: 0 <= i < |segments| ==> segments[i].start <= segments[i].end)
    && (forall i :: 0 < i < |segments| ==> segments[i - 1].end <= segments[i].start)
  }

  /** Among chronological scenes at most one is highlighted at any playback time. */
  lemma AtMostOneActiveScene(scenes: seq<Scene>, t: real, i: nat, j: nat)
    requires Chronological(scenes) && i < |scenes| && j < |scenes|
    requires SceneActive(scenes[i], t) && SceneActive(scenes[j], t)
    ensures i == j
  {
    if i < j {
      EndsBeforeLaterStarts(scenes, i, j);
    } else if j < i {
      EndsBeforeLaterStarts(scenes, j, i);
    }
  }

  /** Among chronological transcript segments at most one is highlighted at any playback time. */
  lemma AtMostOneActiveSegment(segments: seq<TranscriptSegment>, t: real, i: nat, j: nat)
    requires ChronologicalSegments(segments) && i < |segments| && j < |segments|
    requires SegmentActive(segments[i], t) && SegmentActive(segments[j], t)
    ensures i == j
  {
    var scenes := seq(|segments|, k requires 0 <= k < |segments| => Scene(segments[k].id, segments[k].start, segments[k].end));
    assert Chronological(scenes);
    AtMostOneActiveScene(scenes, t, i, j);
  }

  /**
   * Width of the active scene's progress bar, in percent: 0 when the scene is
   * not active, else the elapsed share of the scene, capped at 100. Being
   * active implies `end > start`, so the division is defined, and the cap
   * never applies.
   */
  function ProgressWidth(t: real, start: real, end: real): (w: real)
    ensures 0.0 <= w < 100.0
    ensures !IsActive(t, start, end) ==> w == 0.0
    ensures IsActive(t, start, end) ==> w * (end - start) == (t - start) * 100.0
  {
    if IsActive(t, start, end) then
      var share := ((t - start) / (end - start)) * 100.0;
      if share < 100.0 then share else 100.0
    else 0.0
  }

  /** Within one active scene the bar never shrinks as playback advances. */
  lemma ProgressGrows(t1: real, t2: real, start: real, end: real)
    requires IsActive(t1, start, end) && IsActive(t2, start, end) && t1 <= t2
    ensures ProgressWidth(t1, start, end) <= ProgressWidth(t2, start, end)
  {
    var w1, w2 := ProgressWidth(t1, start, end), ProgressWidth(t2, start, end);
    assert w1 * (end - start) <= w2 * (end - start);
  }

  // ---- The page state ---------------------------------------------------------------

  class DashboardPage {
    var status: string
    var results: Option<AnalysisResults>
    var videoUrl: string
    var currentTime: real

    constructor ()
      ensures status == "loading" && results == None && videoUrl == "" && currentTime == 0.0
    {
      status := "loading";
      results := None;
      videoUrl := "";
      currentTime := 0.0;
    }

    /** The view rendered for the current status. */
    function CurrentView(): View
      reads this
    {
      ViewFor(status)
    }

    /**
     * `checkStatus` applied to one fetch: updates the status, results and
     * video URL as the reply says, and returns the delay of the next check
     * it schedules, if any.
     */
    method CheckStatus(fetch: Fetch) returns (next: Option<nat>)
      modifies this
      ensures next == if Decide(fetch).PollAgain? then Some(PollDelayMs) else None
      ensures status == StatusAfter(old(status), Decide(fetch))
      ensures Decide(fetch).ShowResults? ==> results == Decide(fetch).results && videoUrl == Decide(fetch).videoUrl
      ensures !Decide(fetch).ShowResults? ==> results == old(results) && videoUrl == old(videoUrl)
      ensures currentTime == old(currentTime)
      ensures Decide(fetch).ShowResults? ==> CurrentView() == ResultsView
      ensures Decide(fetch).ShowFailed? || Decide(fetch).ShowError? ==> CurrentView() == FailureView
      ensures Decide(fetch).PollAgain? ==> CurrentView() == old(CurrentView())
    {
      next := None;
      match fetch {
        case Threw =>
          status := "error";
        case Replied(reply) =>
          if reply.status == "completed" {
            status := "completed";
            results := reply.results;
            videoUrl := UploadsPrefix + reply.filename;
          } else if reply.status == "failed" {
            status := "failed";
          } else {
            next := Some(PollDelayMs);
          }
      }
    }

    /** `handleTimeUpdate`: records the video's playback position. */
    method TimeUpdate(t: real)
      modifies this
      ensures currentTime == t
      ensures status == old(status) && results == old(results) && videoUrl == old(videoUrl)
    {
      currentTime := t;
    }
  }
}
