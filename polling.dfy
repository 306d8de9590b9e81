/**
 * The dashboard polling the backend: the reply `GET /analyze/{job_id}`
 * (backend/main.py) gives for a stored job, read by the dashboard's
 * `checkStatus` (frontend/src/app/dashboard/page.tsx), and the video link
 * the dashboard builds from the recorded filename, served by the backend's
 * `/uploads` static mount.
 */
module Polling {
  import opened Common
  import opened Api
  import opened JobStore
  import Dashboard

  /** The JSON body of a job record as the dashboard reads it. */
  function ReplyFor(job: Job): Dashboard.StatusReply {
    Dashboard.StatusReply(StatusName(job.status), job.results, job.filename)
  }

  /** A `get_status` answer as the dashboard's request sees it: a 404 makes the request throw. */
  function FetchOf(r: Result<Job, HttpError>): Dashboard.Fetch {
    match r
    case Success(job) => Dashboard.Replied(ReplyFor(job))
    case Failure(_) => Dashboard.Threw
  }

  /**
   * The dashboard keeps polling exactly while the job is queued or being
   * processed, shows the results of a completed job with the video link
   * built from its filename, and shows the failure of a failed job.
   */
  lemma DashboardFollowsJob(job: Job)
    ensures var d := Dashboard.Decide(FetchOf(Success(job)));
      && (d.PollAgain? <==> job.status == Queued || job.status == Processing)
      && (d.ShowResults? <==> job.status == Completed)
      && (d.ShowFailed? <==> job.status == Failed)
      && !d.ShowError?
      && (d.ShowResults? ==> d.results == job.results && d.videoUrl == Dashboard.UploadsPrefix + job.filename)
  {
    var d := Dashboard.Decide(FetchOf(Success(job)));
    var name := StatusName(job.status);
    assert name[0] == 'c' <==> job.status == Completed;
    assert name[0] == 'f' <==> job.status == Failed;
    assert d.ShowResults? <==> name == "completed";
    assert d.ShowFailed? <==> name == "failed";
  }

  /** Polling an id the store does not know ends in the error screen. */
  lemma UnknownJobShowsError(store: Store, jobId: string)
    requires jobId !in store.jobs
    ensures Dashboard.Decide(FetchOf(store.GetStatus(jobId))) == Dashboard.ShowError
    ensures Dashboard.ViewFor(Dashboard.StatusAfter("loading", Dashboard.Decide(FetchOf(store.GetStatus(jobId)))))
            == Dashboard.FailureView
  {
  }

  /**
   * A job the analyser finished: the dashboard shows exactly the results
   * the analyser returned, and links the video under the name recorded at
   * upload.
   */
  lemma CompletedJobShowsItsResults(job: Job, results: AnalysisResults)
    ensures Dashboard.Decide(FetchOf(Success(Processed(job, Analysed(results)))))
            == Dashboard.ShowResults(Some(results), Dashboard.UploadsPrefix + job.filename)
  {
    DashboardFollowsJob(Processed(job, Analysed(results)));
  }

  // ---- The video link ----------------------------------------------------------

  /**
   * As written, `POST /upload` records the client's filename but saves the
   * file with the job id in front, so for every (non-empty) job id the
   * dashboard's video link misses the saved file.
   */
  lemma FileUploadLinkMisses(jobId: string, filename: string)
    requires jobId != ""
    ensures !LinksAnalysedFile(Job(Queued, filename, None, None),
                               ProcessTask(jobId, InUploads(StoredName(jobId, filename))))
  {
    assert |InUploads(filename)| < |InUploads(StoredName(jobId, filename))|;
  }

  /** The same miss for one concrete upload: "clip.mp4" saved for job "J". */
  lemma FileUploadLinkMissesExample()
    ensures InUploads("clip.mp4") == "uploads/clip.mp4"
    ensures InUploads(StoredName("J", "clip.mp4")) == "uploads/J_clip.mp4"
    ensures !LinksAnalysedFile(Job(Queued, "clip.mp4", None, None),
                               ProcessTask("J", InUploads(StoredName("J", "clip.mp4"))))
  {
    FileUploadLinkMisses("J", "clip.mp4");
  }

  /** Recording the stored name, the link reaches the file the analysis ran on. */
  lemma StoredNameLinksAnalysedFile(jobId: string, filename: string)
    ensures LinksAnalysedFile(Job(Queued, StoredName(jobId, filename), None, None),
                              ProcessTask(jobId, InUploads(StoredName(jobId, filename))))
  {
  }

  /** `POST /upload-url` records the name it analyses, so its link always reaches the file. */
  lemma UrlUploadLinksAnalysedFile(jobId: string, venvExists: bool, venvPath: string, ytDlp: Probe, youtubeDl: Probe,
                                   download: Download, outputExists: bool, uploads: seq<string>)
    ensures var r := FetchVideo(jobId, venvExists, venvPath, ytDlp, youtubeDl, download, outputExists, uploads);
      r.Success? ==> LinksAnalysedFile(Job(Queued, r.value.filename, None, None), ProcessTask(jobId, r.value.path))
  {
  }

  /** Analysis keeps the recorded filename, so a link that reached the file still does once the job completes. */
  lemma ProcessingKeepsLink(job: Job, task: BackgroundTask, analysis: Analysis)
    requires LinksAnalysedFile(job, task)
    ensures LinksAnalysedFile(Processed(job, analysis), task)
  {
  }
}
