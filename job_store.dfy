/**
 * The backend's in-memory job store (backend/main.py): uploads register a
 * job under a fresh id, a background task moves it from "queued" through
 * "processing" to "completed" or "failed", and two lookups report it.
 * File copies, the downloader subprocesses and the analyser are outcomes
 * given as parameters; background tasks are returned and run by explicit
 * calls.
 */
module JobStore {
  import opened Common
  import opened Api

  const UploadDir: string := "uploads"
  /** Only this many leading characters of the downloader's error output are reported. */
  const StderrExcerpt: nat := 200

  datatype JobStatus = Queued | Processing | Completed | Failed

  /** A job record `jobs[job_id]`; `results` and `error` are keys that may be absent. */
  datatype Job = Job(status: JobStatus, filename: string, results: Option<AnalysisResults>, error: Option<string>)

  /** An `HTTPException`: status code and detail message. */
  datatype HttpError = HttpError(code: nat, detail: string)

  /** The body returned by both upload endpoints. */
  datatype Submission = Submission(jobId: string, status: string)

  /** A `process_video` call queued by an upload. */
  datatype BackgroundTask = ProcessTask(jobId: string, filePath: string)

  /** What the analyser did: returned results, or raised an exception with its message. */
  datatype Analysis = Analysed(results: AnalysisResults) | Raised(message: string)

  /** Outcome of `subprocess.run([tool, "--version"], check=True)`. */
  datatype Probe = Runs | NotInstalled | ExitedNonZero(message: string)

  /** Outcome of the download subprocess (run with a 300 s timeout). */
  datatype Download = Exited(returnCode: int, stderr: string) | TimedOut

  /** Where a successful download landed: the path to analyse and the name recorded for the job. */
  datatype Downloaded = Downloaded(path: string, filename: string)

  /** The status string stored in a job record; each status has its own. */
  function StatusName(s: JobStatus): (name: string)
    ensures name == "queued" <==> s == Queued
    ensures name == "processing" <==> s == Processing
    ensures name == "completed" <==> s == Completed
    ensures name == "failed" <==> s == Failed
  {
    match s
    case Queued => "queued"
    case Processing => "processing"
    case Completed => "completed"
    case Failed => "failed"
  }

  /** `os.path.join(UPLOAD_DIR, name)`. */
  function InUploads(name: string): string {
    UploadDir + "/" + name
  }

  /** The name `POST /upload` saves a file under: the job id, an underscore, then the client's filename. */
  function StoredName(jobId: string, filename: string): (name: string)
    ensures |name| == |jobId| + 1 + |filename|
    ensures name[..|jobId|] == jobId && name[|jobId|] == '_' && name[|jobId| + 1..] == filename
  {
    jobId + "_" + filename
  }

  /**
   * The `/uploads` static mount serves `uploads/<name>` at `/uploads/<name>`,
   * and the dashboard links the video at `/uploads/<recorded filename>`: the
   * link shows the analysed video exactly when that file is the one the
   * analysis task was given.
   */
  predicate LinksAnalysedFile(job: Job, task: BackgroundTask) {
    InUploads(job.filename) == task.filePath
  }

  const NotFound := HttpError(404, "Job not found")
  const NotComplete := HttpError(400, "Analysis not complete")
  const NoDownloader := HttpError(500, "Neither yt-dlp nor youtube-dl is installed. Please install yt-dlp.")
  const MissingDownload := HttpError(400, "Video file not found after download")
  const DownloadTimeout := HttpError(408, "Video download timeout. Please try a shorter video.")
  /** What FastAPI answers for an exception the handler does not catch. */
  const Unhandled := HttpError(500, "Internal Server Error")

  function ServerError(message: string): HttpError {
    HttpError(500, "Server error: " + message)
  }

  // ---- Analysis outcome --------------------------------------------------------

  /**
   * The record `process_video` leaves behind: "completed" with the results on
   * success, "failed" with the exception's message otherwise; the filename
   * and every other key are kept.
   */
  function Processed(job: Job, analysis: Analysis): (j: Job)
    ensures j.filename == job.filename
    ensures j.status == Completed <==> analysis.Analysed?
    ensures j.status == Failed <==> analysis.Raised?
    ensures j.status == Completed ==> j.results == Some(analysis.results) && j.error == job.error
    ensures j.status == Failed ==> j.error == Some(analysis.message) && j.results == job.results
  {
    match analysis
    case Analysed(results) => job.(status := Completed, results := Some(results))
    case Raised(message) => job.(status := Failed, error := Some(message))
  }

  /** The lifecycle a job moves along: queued, then processing, then completed or failed. */
  predicate LifecycleStep(from: JobStatus, to: JobStatus) {
    || (from == Queued && to == Processing)
    || (from == Processing && (to == Completed || to == Failed))
  }

  // ---- Fetching a video from a URL ------------------------------------------------

  /**
   * The downloader `/upload-url` picks: the virtual environment's yt-dlp if
   * it exists, else a system yt-dlp, else youtube-dl, else a 500 error. A
   * probe that runs but exits non-zero raises `CalledProcessError`, which
   * is not the `FileNotFoundError` the fallback catches: it ends the
   * request with a 500 "Server error".
   */
  function ChooseDownloader(venvExists: bool, venvPath: string, ytDlp: Probe, youtubeDl: Probe): (r: Result<string, HttpError>)
    ensures venvExists ==> r == Success(venvPath)
    ensures !venvExists && ytDlp.Runs? ==> r == Success("yt-dlp")
    ensures !venvExists && ytDlp.NotInstalled? && youtubeDl.Runs? ==> r == Success("youtube-dl")
    ensures r.Failure? <==> !venvExists && !ytDlp.Runs? && (ytDlp.ExitedNonZero? || !youtubeDl.Runs?)
    ensures r.Failure? ==> r.error.code == 500
    ensures !venvExists && ytDlp.NotInstalled? && youtubeDl.NotInstalled? ==> r == Failure(NoDownloader)
    ensures !venvExists && ytDlp.ExitedNonZero? ==> r == Failure(ServerError(ytDlp.message))
    ensures !venvExists && ytDlp.NotInstalled? && youtubeDl.ExitedNonZero? ==> r == Failure(ServerError(youtubeDl.message))
  {
    if venvExists then Success(venvPath)
    else match ytDlp
      case Runs => Success("yt-dlp")
      case ExitedNonZero(message) => Failure(ServerError(message))
      case NotInstalled =>
        match youtubeDl
        case Runs => Success("youtube-dl")
        case ExitedNonZero(message) => Failure(ServerError(message))
        case NotInstalled => Failure(NoDownloader)
  }

  /** The first directory entry that starts with `prefix`, in listing order. */
  function FirstWithPrefix(names: seq<string>, prefix: string): (r: Option<string>)
    ensures r.None? <==> forall i :: 0 <= i < |names| ==> !(prefix <= names[i])
    ensures r.Some? ==> exists i :: 0 <= i < |names| && names[i] == r.value && prefix <= r.value
                                      && forall j :: 0 <= j < i ==> !(prefix <= names[j])
  {
    if names == [] then None
    else if prefix <= names[0] then Some(names[0])
    else
      var rest := FirstWithPrefix(names[1..], prefix);
      assert forall i :: 0 < i < |names| ==> names[i] == names[1..][i - 1];
      rest
  }

  /**
   * Everything `/upload-url` does before registering the job: pick a
   * downloader, run it, and find the file it wrote. The expected name is
   * `<job_id>_video.mp4`; when that file is missing, the first upload
   * entry starting with the job id is taken instead.
   */
  function FetchVideo(jobId: string, venvExists: bool, venvPath: string, ytDlp: Probe, youtubeDl: Probe,
                      download: Download, outputExists: bool, uploads: seq<string>): (r: Result<Downloaded, HttpError>)
    ensures ChooseDownloader(venvExists, venvPath, ytDlp, youtubeDl).Failure? ==>
              r == Failure(ChooseDownloader(venvExists, venvPath, ytDlp, youtubeDl).error)
    ensures r.Success? ==> download.Exited? && download.returnCode == 0
    ensures r.Success? ==> jobId <= r.value.filename && r.value.path == InUploads(r.value.filename)
    ensures ChooseDownloader(venvExists, venvPath, ytDlp, youtubeDl).Success? ==>
              && (download.TimedOut? ==> r == Failure(DownloadTimeout))
              && (download.Exited? && download.returnCode != 0 ==>
                    r == Failure(HttpError(400, "Failed to download video: " + Take(download.stderr, StderrExcerpt))))
              && (download.Exited? && download.returnCode == 0 && outputExists ==>
                    r.Success? && r.value.filename == jobId + "_video.mp4")
              && (download.Exited? && download.returnCode == 0 && !outputExists ==>
                    && (r == Failure(MissingDownload) <==> FirstWithPrefix(uploads, jobId).None?)
                    && (r.Success? ==> Some(r.value.filename) == FirstWithPrefix(uploads, jobId))
                    && (FirstWithPrefix(uploads, jobId).Some? ==>
                          r == Success(Downloaded(InUploads(FirstWithPrefix(uploads, jobId).value),
                                                  FirstWithPrefix(uploads, jobId).value))))
  {
    var chosen := ChooseDownloader(venvExists, venvPath, ytDlp, youtubeDl);
    if chosen.Failure? then Failure(chosen.error)
    else match download
      case TimedOut => Failure(DownloadTimeout)
      case Exited(code, stderr) =>
        if code != 0 then Failure(HttpError(400, "Failed to download video: " + Take(stderr, StderrExcerpt)))
        else if outputExists then
          Success(Downloaded(InUploads(jobId + "_video.mp4"), jobId + "_video.mp4"))
        else match FirstWithPrefix(uploads, jobId)
          case Some(name) => Success(Downloaded(InUploads(name), name))
          case None => Failure(MissingDownload)
  }

  // ---- The store -------------------------------------------------------------------

  class Store {
    /** The module-level `jobs` dictionary. */
    var jobs: map<string, Job>

    /** A completed job always carries its results. */
    ghost predicate Valid()
      reads this
    {
      forall id :: id in jobs && jobs[id].status == Completed ==> jobs[id].results.Some?
    }

    constructor ()
      ensures Valid() && jobs == map[]
    {
      jobs := map[];
    }

    /**
     * `POST /upload`: saves the file as `uploads/<job_id>_<filename>`,
     * registers the job as "queued" and queues its analysis. If saving the
     * file raises, FastAPI answers 500 and no job is registered.
     */
    method Upload(jobId: string, filename: string, saved: bool)
      returns (reply: Result<Submission, HttpError>, task: Option<BackgroundTask>)
      requires Valid()
      modifies this
      ensures Valid()
      ensures saved ==> && jobs == old(jobs)[jobId := Job(Queued, filename, None, None)]
                        && reply == Success(Submission(jobId, "queued"))
                        && task == Some(ProcessTask(jobId, InUploads(StoredName(jobId, filename))))
      ensures !saved ==> jobs == old(jobs) && reply == Failure(Unhandled) && task == None
      ensures saved && jobId != "" ==> !LinksAnalysedFile(jobs[jobId], task.value)
    {
      var filePath := InUploads(StoredName(jobId, filename));
      if !saved {
        return Failure(Unhandled), None;
      }
      jobs := jobs[jobId := Job(Queued, filename, None, None)];
      reply := Success(Submission(jobId, "queued"));
      task := Some(ProcessTask(jobId, filePath));
      assert |InUploads(filename)| < |filePath|;
    }

    /**
     * `POST /upload` as the rest of the system needs it: the job records the
     * name the file was saved under, as `/upload-url` does, so that the
     * `/uploads` link built from the record reaches the saved file.
     */
    method UploadRecordingStoredName(jobId: string, filename: string, saved: bool)
      returns (reply: Result<Submission, HttpError>, task: Option<BackgroundTask>)
      requires Valid()
      modifies this
      ensures Valid()
      ensures saved ==> && jobs == old(jobs)[jobId := Job(Queued, StoredName(jobId, filename), None, None)]
                        && reply == Success(Submission(jobId, "queued"))
                        && task == Some(ProcessTask(jobId, InUploads(StoredName(jobId, filename))))
      ensures !saved ==> jobs == old(jobs) && reply == Failure(Unhandled) && task == None
      ensures saved ==> LinksAnalysedFile(jobs[jobId], task.value)
    {
      var name := StoredName(jobId, filename);
      if !saved {
        return Failure(Unhandled), None;
      }
      jobs := jobs[jobId := Job(Queued, name, None, None)];
      reply := Success(Submission(jobId, "queued"));
      task := Some(ProcessTask(jobId, InUploads(name)));
    }

    /**
     * `POST /upload-url`: registers a "queued" job only once the video has
     * been downloaded and found; every error leaves the store unchanged.
     */
    method UploadFromUrl(jobId: string, venvExists: bool, venvPath: string, ytDlp: Probe, youtubeDl: Probe,
                         download: Download, outputExists: bool, uploads: seq<string>)
      returns (reply: Result<Submission, HttpError>, task: Option<BackgroundTask>)
      requires Valid()
      modifies this
      ensures Valid()
      ensures var fetched := FetchVideo(jobId, venvExists, venvPath, ytDlp, youtubeDl, download, outputExists, uploads);
        && (fetched.Failure? ==> jobs == old(jobs) && reply == Failure(fetched.error) && task == None)
        && (fetched.Success? ==> && jobs == old(jobs)[jobId := Job(Queued, fetched.value.filename, None, None)]
                                 && reply == Success(Submission(jobId, "queued"))
                                 && task == Some(ProcessTask(jobId, fetched.value.path))
                                 && LinksAnalysedFile(jobs[jobId], task.value))
    {
      var fetched := FetchVideo(jobId, venvExists, venvPath, ytDlp, youtubeDl, download, outputExists, uploads);
      if fetched.Failure? {
        return Failure(fetched.error), None;
      }
      jobs := jobs[jobId := Job(Queued, fetched.value.filename, None, None)];
      reply := Success(Submission(jobId, "queued"));
      task := Some(ProcessTask(jobId, fetched.value.path));
    }

    /** The first statement of `process_video`: the job is marked "processing" before the analyser runs. */
    method StartProcessing(jobId: string)
      requires Valid() && jobId in jobs
      modifies this
      ensures Valid()
      ensures jobs == old(jobs)[jobId := old(jobs)[jobId].(status := Processing)]
    {
      jobs := jobs[jobId := jobs[jobId].(status := Processing)];
    }

    /** The rest of `process_video`: records the analyser's results, or its failure. */
    method FinishProcessing(jobId: string, analysis: Analysis)
      requires Valid() && jobId in jobs
      modifies this
      ensures Valid()
      ensures jobs == old(jobs)[jobId := Processed(old(jobs)[jobId], analysis)]
    {
      match analysis {
        case Analysed(results) =>
          jobs := jobs[jobId := jobs[jobId].(status := Completed, results := Some(results))];
        case Raised(message) =>
          jobs := jobs[jobId := jobs[jobId].(status := Failed, error := Some(message))];
      }
    }

    /**
     * A whole `process_video` run on a queued job: it passes through
     * "processing" and ends "completed" or "failed"; only this job changes.
     */
    method ProcessVideo(task: BackgroundTask, analysis: Analysis)
      requires Valid() && task.jobId in jobs
      modifies this
      ensures Valid()
      ensures jobs == old(jobs)[task.jobId := Processed(old(jobs)[task.jobId], analysis)]
      ensures LifecycleStep(Processing, jobs[task.jobId].status)
    {
      StartProcessing(task.jobId);
      FinishProcessing(task.jobId, analysis);
    }

    /** `GET /analyze/{job_id}`: 404 for an unknown id, otherwise the stored record as it is. */
    function GetStatus(jobId: string): (r: Result<Job, HttpError>)
      reads this
      ensures r.Failure? <==> jobId !in jobs
      ensures r.Failure? ==> r.error == NotFound
      ensures r.Success? ==> r.value == jobs[jobId]
    {
      if jobId !in jobs then Failure(NotFound) else Success(jobs[jobId])
    }

    /**
     * `GET /results/{job_id}`: 404 for an unknown id, 400 until the job is
     * completed, otherwise its results. Reading the missing `results` key
     * would raise, so a completed job without results would give a 500; a
     * valid store has none.
     */
    function GetResults(jobId: string): (r: Result<AnalysisResults, HttpError>)
      reads this
      ensures jobId !in jobs ==> r == Failure(NotFound)
      ensures jobId in jobs && jobs[jobId].status != Completed ==> r == Failure(NotComplete)
      ensures r.Success? <==> jobId in jobs && jobs[jobId].status == Completed && jobs[jobId].results.Some?
      ensures r.Success? ==> Some(r.value) == jobs[jobId].results
      ensures Valid() && r.Failure? ==> r.error == NotFound || r.error == NotComplete
    {
      if jobId !in jobs then Failure(NotFound)
      else if jobs[jobId].status != Completed then Failure(NotComplete)
      else match jobs[jobId].results
        case Some(results) => Success(results)
        case None => Failure(Unhandled)
    }
  }
}
