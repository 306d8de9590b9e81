/**
 * The upload form of the home page (frontend/src/app/page.tsx): a video is
 * submitted either as a chosen file or as a URL. The two inputs exclude
 * each other, a file takes precedence when the upload starts, and an
 * `uploading` flag is raised while the request runs.
 */
module UploadPage {
  import opened Common
  import opened Api

  const DashboardPrefix: string := "/dashboard?job_id="

  /** A chosen file, as far as the form uses it. */
  datatype VideoFile = VideoFile(name: string, size: nat)

  datatype Tab = UploadTab | UrlTab

  /** The request an upload sends: the file as multipart form data, or `{url}` as JSON. */
  datatype UploadRequest = PostFile(file: VideoFile) | PostUrl(url: string)

  /** How the request settled: the new job's id, or a thrown error. */
  datatype UploadReply = Accepted(jobId: string) | Rejected

  /** The endpoint a request is posted to. */
  function Endpoint(request: UploadRequest): (url: string)
    ensures url == ApiBase + "/upload" <==> request.PostFile?
    ensures url == ApiBase + "/upload-url" <==> request.PostUrl?
  {
    match request
    case PostFile(_) => ApiBase + "/upload"
    case PostUrl(_) => ApiBase + "/upload-url"
  }

  /**
   * The request `handleUpload` sends for the form's contents: the file if one
   * is chosen, otherwise the URL if it is non-empty, otherwise none.
   */
  function RequestFor(file: Option<VideoFile>, videoUrl: string): (request: Option<UploadRequest>)
    ensures request.None? <==> file.None? && videoUrl == ""
    ensures file.Some? ==> request == Some(PostFile(file.value))
    ensures file.None? && videoUrl != "" ==> request == Some(PostUrl(videoUrl))
    ensures request.Some? ==> (Endpoint(request.value) == ApiBase + "/upload" <==> file.Some?)
  {
    if file.Some? then Some(PostFile(file.value))
    else if videoUrl != "" then Some(PostUrl(videoUrl))
    else None
  }

  /** The Start button's `disabled` condition. */
  predicate StartDisabled(file: Option<VideoFile>, videoUrl: string, uploading: bool) {
    (file.None? && videoUrl == "") || uploading
  }

  /**
   * The button is enabled exactly when an upload would send a request and
   * none is running; so a click on an enabled button always sends one.
   */
  lemma EnabledExactlyWhenSendable(file: Option<VideoFile>, videoUrl: string, uploading: bool)
    ensures !StartDisabled(file, videoUrl, uploading) <==> RequestFor(file, videoUrl).Some? && !uploading
  {
  }

  /** Where the page navigates after the request settles: to the new job's dashboard, or nowhere. */
  function RouteAfter(reply: UploadReply): (route: Option<string>)
    ensures route.Some? <==> reply.Accepted?
    ensures route.Some? ==> DashboardPrefix <= route.value && route.value[|DashboardPrefix|..] == reply.jobId
  {
    match reply
    case Accepted(jobId) => Some(DashboardPrefix + jobId)
    case Rejected => None
  }

  class UploadForm {
    var file: Option<VideoFile>
    var videoUrl: string
    var uploading: bool
    var activeTab: Tab

    /** A chosen file and a non-empty URL are never held together. */
    ghost predicate Valid()
      reads this
    {
      !(file.Some? && videoUrl != "")
    }

    constructor ()
      ensures Valid()
      ensures file == None && videoUrl == "" && !uploading && activeTab == UploadTab
    {
      file := None;
      videoUrl := "";
      uploading := false;
      activeTab := UploadTab;
    }

    /** Whether the Start button is disabled now. */
    function Disabled(): bool
      reads this
    {
      StartDisabled(file, videoUrl, uploading)
    }

    /** `handleFileChange`: the first chosen file replaces the input and clears the URL; an empty choice changes nothing. */
    method HandleFileChange(files: seq<VideoFile>)
      requires Valid()
      modifies this
      ensures Valid()
      ensures |files| > 0 ==> file == Some(files[0]) && videoUrl == ""
      ensures |files| == 0 ==> file == old(file) && videoUrl == old(videoUrl)
      ensures uploading == old(uploading) && activeTab == old(activeTab)
    {
      if |files| > 0 {
        file := Some(files[0]);
        videoUrl := "";
      }
    }

    /** `handleUrlChange`: the typed text replaces the URL and clears the chosen file. */
    method HandleUrlChange(value: string)
      modifies this
      ensures Valid()
      ensures videoUrl == value && file == None
      ensures uploading == old(uploading) && activeTab == old(activeTab)
    {
      videoUrl := value;
      file := None;
    }

    /** A click on one of the two tabs; the inputs are kept as they are. */
    method SelectTab(tab: Tab)
      modifies this
      ensures activeTab == tab
      ensures file == old(file) && videoUrl == old(videoUrl) && uploading == old(uploading)
    {
      activeTab := tab;
    }

    /**
     * The part of `handleUpload` before the request settles: with neither a
     * file nor a URL it returns at once; otherwise it raises `uploading` and
     * sends the request for the form's contents, whichever tab is shown.
     */
    method BeginUpload() returns (sent: Option<UploadRequest>)
      modifies this
      ensures sent == RequestFor(old(file), old(videoUrl))
      ensures uploading == if sent.Some? then true else old(uploading)
      ensures file == old(file) && videoUrl == old(videoUrl) && activeTab == old(activeTab)
      ensures !old(Disabled()) ==> sent.Some?
      ensures sent.Some? ==> Disabled()
    {
      if file.None? && videoUrl == "" {
        return None;
      }
      uploading := true;
      if file.Some? {
        sent := Some(PostFile(file.value));
      } else {
        sent := Some(PostUrl(videoUrl));
      }
    }

    /**
     * The part of `handleUpload` after the request settles: navigate to the
     * new job's dashboard on success; in either case the `finally` clause
     * lowers `uploading`.
     */
    method FinishUpload(reply: UploadReply) returns (route: Option<string>)
      modifies this
      ensures !uploading
      ensures route == RouteAfter(reply)
      ensures file == old(file) && videoUrl == old(videoUrl) && activeTab == old(activeTab)
      ensures Disabled() <==> RequestFor(file, videoUrl).None?
    {
      route := None;
      if reply.Accepted? {
        route := Some(DashboardPrefix + reply.jobId);
      }
      uploading := false;
    }

    /**
     * A whole `handleUpload` whose request settles with `reply`: a request is
     * sent exactly when the form holds a file or a URL, and afterwards
     * `uploading` is down again; with nothing to send nothing changes.
     */
    method HandleUpload(reply: UploadReply) returns (sent: Option<UploadRequest>, route: Option<string>)
      modifies this
      ensures sent == RequestFor(old(file), old(videoUrl))
      ensures sent.None? ==> route == None && uploading == old(uploading)
      ensures sent.Some? ==> route == RouteAfter(reply) && !uploading
      ensures file == old(file) && videoUrl == old(videoUrl) && activeTab == old(activeTab)
    {
      sent := BeginUpload();
      if sent.None? {
        return sent, None;
      }
      route := FinishUpload(reply);
    }
  }
}
