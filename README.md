# Video analysis app: verified model of its stateful core

The application lets a user upload a video file, or give a video URL. A
FastAPI backend analyses the video for scenes, a transcript and objects.
A Next.js dashboard polls the backend until the analysis ends, then plays
the video with the active scene and transcript segment highlighted. A
custom cursor draws a particle trail behind the pointer.

This project models, in Dafny, the parts of that system that hold state or
make decisions. Each part gets its own module:

- `CursorTrail` (`cursor_trail.dfy`) is the particle pool of the cursor
  trail, from `frontend/src/components/CustomCursor.tsx`:
  - a mouse move spawns a particle, but only while the pool holds fewer
    than 50;
  - each frame decays every particle's life by 0.02, moves it by its
    velocity and drops the dead ones;
  - the survivors are written into position, size and colour buffers.

  The class `Trail` keeps the pool as a `seq` field. Its methods `Step` and
  `FillBuffers` are loops proved against the functions `Survivors`,
  `PositionBuffer`, `SizeBuffer` and `ColorBuffer`. Lemmas about those
  functions cover the rest:
  - the pool invariant (0 < life ≤ maxLife = 1);
  - the order of the survivors;
  - the lifetime of a particle: it is gone after 50 frames;
  - where each particle's values sit in the buffers, and their ranges.
- `Dashboard` (`dashboard.dfy`) is the results page,
  `frontend/src/app/dashboard/page.tsx`:
  - the `checkStatus` decision for one reply, and the chain of polls;
  - which view each status shows;
  - the half-open "active" test for scenes and transcript segments;
  - the width of the progress bar.
- `UploadPage` (`upload_page.dfy`) is the upload form,
  `frontend/src/app/page.tsx`:
  - a chosen file and a typed URL exclude each other, and the file wins;
  - the `uploading` flag is raised while a request runs and lowered in a
    `finally`;
  - the condition that disables the Start button.
- `JobStore` (`job_store.dfy`) is the backend's in-memory `jobs`
  dictionary, `backend/main.py`:
  - the two upload endpoints;
  - `process_video`, which moves a job from queued through processing to
    completed or failed;
  - the downloader fallback chain, and the search for the downloaded file;
  - the lookups `get_status` and `get_results`, with their 404 and 400
    errors.
- `ActionRecognizer` (`action_recognizer.dfy`) holds the scene heuristics
  of `backend/action_recognizer.py`:
  - environment classification by counting object names;
  - the people count over an inclusive frame window;
  - the fixed movement analysis.
- `Polling` (`polling.dfy`) joins the backend and the dashboard. It covers
  the reply `get_status` gives for a stored job, the decision the dashboard
  takes on that reply, and whether the dashboard's video link reaches the
  file that was analysed.

`Common` (`common.dfy`) holds `Option`, `Result`, and Python's `s[:n]`.
`Api` (`api.dfy`) holds the analysis-results records that both sides
exchange.

Things outside the program are turned into inputs:
- `Math.random()` draws;
- the viewport size;
- whether the points object is mounted;
- the outcome of each HTTP request;
- each subprocess outcome and file-system check;
- each analyser run.

The browser's asynchronous callbacks become explicit calls in sequence:
mouse moves, frames, the `setTimeout` polls, and the request before and
after it settles. FastAPI background tasks are also run as explicit calls.

## Model

| member | source | states |
|---|---|---|
| Common.Take | backend/main.py:118 | Python `s[:n]`: the first `min(n, len(s))` characters, a prefix of `s`; the whole of `s` when it is no longer than `n` |
| CursorTrail.NdcX | frontend/src/components/CustomCursor.tsx:54 | the horizontal device coordinate maps back to the pixel (`(x+1)/2*width == clientX`), and lies in [-1, 1] for a pointer inside the window |
| CursorTrail.NdcY | frontend/src/components/CustomCursor.tsx:55 | the vertical device coordinate is flipped (`(1-y)/2*height == clientY`), and lies in [-1, 1] for a pointer inside the window |
| CursorTrail.Jitter | frontend/src/components/CustomCursor.tsx:67-68 | a velocity component from a draw in [0,1) lies in [-0.01, 0.01) |
| CursorTrail.Spawned | frontend/src/components/CustomCursor.tsx:60-73 | a spawned particle is live, with life = maxLife = 1; its position and velocity have z = 0, and its velocity x and y lie in [-0.01, 0.01) |
| CursorTrail.SpawnedAtPointer | frontend/src/components/CustomCursor.tsx:53-65 | for any pointer position, inside the window or not, the particle starts at 5 times its device coordinates, which map back to the pointer's pixel |
| CursorTrail.SpawnedInsideView | frontend/src/components/CustomCursor.tsx:53-65 | for a pointer inside the window, the particle starts in the square [-5,5]² |
| CursorTrail.Advance | frontend/src/components/CustomCursor.tsx:86-87 | one frame lowers life by exactly 0.02 and adds the velocity to the position; velocity and maxLife are unchanged |
| CursorTrail.Survivors | frontend/src/components/CustomCursor.tsx:85-89 | the pool after a frame is never longer than before, and every survivor has positive life |
| CursorTrail.SurvivorsLive | frontend/src/components/CustomCursor.tsx:85-89 | a frame preserves the pool invariant 0 < life ≤ maxLife = 1 |
| CursorTrail.SurvivorOrigins | frontend/src/components/CustomCursor.tsx:85-89 | the survivors are exactly the advanced particles whose life stayed positive: they come from strictly increasing positions, so order is kept, and none is lost |
| CursorTrail.SurvivorsDecay | frontend/src/components/CustomCursor.tsx:86 | a frame lowers every upper bound on life by 0.02 |
| CursorTrail.LifeBoundAfterFrames | frontend/src/components/CustomCursor.tsx:85-89 | after k frames without spawns, every particle has life ≤ 1 − 0.02k |
| CursorTrail.LastFrame | frontend/src/components/CustomCursor.tsx:85-89 | particles with life ≤ 0.02 all die on the next frame |
| CursorTrail.EmptyAfterFiftyFrames | frontend/src/components/CustomCursor.tsx:85-89 | any valid pool is empty after 50 frames without spawns |
| CursorTrail.AdvanceAfterFrames | frontend/src/components/CustomCursor.tsx:86-87 | advancing the closed form for k−1 frames gives the closed form for k frames |
| CursorTrail.FreshParticleLifetime | frontend/src/components/CustomCursor.tsx:85-89 | a lone fresh particle survives exactly 49 frames, with life 1 − 0.02k and position moved by k velocities; it is removed on the 50th |
| CursorTrail.PositionBuffer | frontend/src/components/CustomCursor.tsx:92-99 | the position buffer has length 3N |
| CursorTrail.SizeBuffer | frontend/src/components/CustomCursor.tsx:93-101 | the size buffer has length N |
| CursorTrail.ColorBuffer | frontend/src/components/CustomCursor.tsx:94-107 | the colour buffer has length 3N |
| CursorTrail.BufferLayout | frontend/src/components/CustomCursor.tsx:96-107 | slots 3i..3i+2 hold particle i's x, y, z and its colour `(0.3+0.5p, 0.4+0.3p, 1)`; size slot i holds life·0.1 |
| CursorTrail.BufferRanges | frontend/src/components/CustomCursor.tsx:101-107 | for a valid pool, sizes lie in (0, 0.1], red in (0.3, 0.8], green in (0.4, 0.7], and blue is 1 |
| CursorTrail.WritePosition | frontend/src/components/CustomCursor.tsx:97-99 | writing particle i extends the filled prefix of the position buffer by that particle's three slots |
| CursorTrail.WriteSize | frontend/src/components/CustomCursor.tsx:101 | writing particle i extends the filled prefix of the size buffer by its slot |
| CursorTrail.WriteColor | frontend/src/components/CustomCursor.tsx:104-107 | writing particle i extends the filled prefix of the colour buffer by its three slots |
| CursorTrail.Trail.constructor | frontend/src/components/CustomCursor.tsx:33-40 | the pool starts empty, with the pointer at (0, 0) |
| CursorTrail.Trail.MouseMove | frontend/src/components/CustomCursor.tsx:45-75 | records the pointer; appends exactly the spawned particle iff fewer than 50 are held, and otherwise leaves the pool unchanged; keeps the pool at most 50 and all live |
| CursorTrail.Trail.Step | frontend/src/components/CustomCursor.tsx:85-89 | the filter loop leaves exactly `Survivors` of the old pool and keeps the invariant |
| CursorTrail.Trail.FillBuffers | frontend/src/components/CustomCursor.tsx:92-108 | the `forEach` loop fills fresh arrays equal to the three buffer functions of the pool |
| CursorTrail.Trail.Frame | frontend/src/components/CustomCursor.tsx:81-117 | when the points object is not mounted, nothing changes and no buffers are made; otherwise the pool steps and the three fresh buffers describe the survivors |
| Dashboard.StatusRequest | frontend/src/app/dashboard/page.tsx:42-47 | a request is made iff `job_id` is present and non-empty, and its URL is `/analyze/` followed by the id |
| Dashboard.Decide | frontend/src/app/dashboard/page.tsx:45-64 | "completed" shows the results and the video `/uploads/<filename>`; "failed" shows the failure; a thrown request shows the error; each of these holds iff its condition; any other status polls again after 2000 ms |
| Dashboard.StatusAfter | frontend/src/app/dashboard/page.tsx:50-62 | a check that reschedules leaves the status as it was; results set "completed", a failed reply sets "failed", and a thrown request sets "error" |
| Dashboard.PollChain | frontend/src/app/dashboard/page.tsx:45-66 | the chain of `setTimeout` checks makes at most one request per fetch, and at least one whenever a fetch is available (the mount always checks once) |
| Dashboard.PollingStopsAtFirstVerdict | frontend/src/app/dashboard/page.tsx:45-66 | a poll chain makes exactly k+1 requests when the k-th reply is the first one that is not a running status; that reply alone decides the final status |
| Dashboard.PollingKeepsStatus | frontend/src/app/dashboard/page.tsx:56-59 | while the replies report a running job, every reply is requested and the status is unchanged |
| Dashboard.ReachableStatuses | frontend/src/app/dashboard/page.tsx:36-66 | starting from "loading", the status is only ever loading, completed, failed or error |
| Dashboard.ViewFor | frontend/src/app/dashboard/page.tsx:82-113 | the analysing view iff the status is loading, queued or processing; the failure view iff failed or error; the results view for every other status |
| Dashboard.ViewAfterCheck | frontend/src/app/dashboard/page.tsx:82-113 | after one check, the results view shows iff the reply said "completed", the failure view iff "failed" or a thrown request, and the analysing view iff polling goes on |
| Dashboard.IsActive | frontend/src/app/dashboard/page.tsx:156 | the half-open highlight test `start <= t < end` (used by `SceneActive` and `SegmentActive`, lines 156 and 204); an active interval has `start < end` |
| Dashboard.AdjacentHandOver | frontend/src/app/dashboard/page.tsx:156 | at the shared boundary of two adjacent intervals, only the later one is active |
| Dashboard.EndsBeforeLaterStarts | frontend/src/app/dashboard/page.tsx:152-156 | in chronological scenes, every scene ends no later than any later scene starts |
| Dashboard.AtMostOneActiveScene | frontend/src/app/dashboard/page.tsx:152-159 | among chronological scenes, at most one is highlighted at any playback time |
| Dashboard.AtMostOneActiveSegment | frontend/src/app/dashboard/page.tsx:204 | among chronological transcript segments (`SegmentActive`), at most one is highlighted at any playback time |
| Dashboard.ProgressWidth | frontend/src/app/dashboard/page.tsx:177-179 | the width lies in [0, 100); it is 0 when the scene is inactive, and when active it is exactly the elapsed share `(t−start)/(end−start)·100`, so the cap never applies |
| Dashboard.ProgressGrows | frontend/src/app/dashboard/page.tsx:177-179 | within one active scene, the bar never shrinks as playback advances |
| Dashboard.DashboardPage.constructor | frontend/src/app/dashboard/page.tsx:36-39 | the page starts "loading", with no results, no video URL and time 0 |
| Dashboard.DashboardPage.CheckStatus | frontend/src/app/dashboard/page.tsx:45-64 | applies `Decide` to the page state: the status ("completed", "failed" for a failed reply, "error" for a thrown request, unchanged while polling), and the results and video URL only on "completed"; returns the 2000 ms reschedule exactly when polling goes on; the rendered view (`CurrentView`) becomes the results view on "completed", the failure view on "failed" or a thrown request, and is unchanged while polling goes on |
| Dashboard.DashboardPage.TimeUpdate | frontend/src/app/dashboard/page.tsx:69-73 | records the playback time and changes nothing else |
| UploadPage.Endpoint | frontend/src/app/page.tsx:40-43 | a file goes to `/upload` and a URL to `/upload-url`, each iff it is that kind of request |
| UploadPage.RequestFor | frontend/src/app/page.tsx:29-44 | no request iff there is neither a file nor a URL; a file is posted whenever one is chosen, to `/upload`; otherwise the URL is posted, to `/upload-url` |
| UploadPage.EnabledExactlyWhenSendable | frontend/src/app/page.tsx:167 | with `StartDisabled` the button's `disabled` expression, the Start button is enabled iff an upload would send a request and none is running |
| UploadPage.RouteAfter | frontend/src/app/page.tsx:46-49 | navigation happens iff the request succeeded, and goes to `/dashboard?job_id=` followed by the returned id |
| UploadPage.UploadForm.constructor | frontend/src/app/page.tsx:10-13 | the form starts with no file, an empty URL, not uploading, on the upload tab |
| UploadPage.UploadForm.HandleFileChange | frontend/src/app/page.tsx:16-21 | the first chosen file replaces the input and clears the URL; an empty choice changes nothing; file and URL stay exclusive |
| UploadPage.UploadForm.HandleUrlChange | frontend/src/app/page.tsx:23-26 | the typed text becomes the URL and the file is cleared |
| UploadPage.UploadForm.SelectTab | frontend/src/app/page.tsx:91-101 | a tab click changes only the active tab |
| UploadPage.UploadForm.BeginUpload | frontend/src/app/page.tsx:28-44 | sends `RequestFor` the current inputs, and raises `uploading` exactly when it sends; the inputs are unchanged; a click on an enabled button always sends, and while the request runs the button is disabled |
| UploadPage.UploadForm.FinishUpload | frontend/src/app/page.tsx:46-55 | lowers `uploading` on success and failure alike, and navigates as `RouteAfter` says; afterwards the button is disabled only if there is nothing to send |
| UploadPage.UploadForm.HandleUpload | frontend/src/app/page.tsx:28-56 | a whole upload: with nothing to send, nothing changes; otherwise the request is sent and `uploading` is down afterwards |
| JobStore.StatusName | backend/main.py:38-56 | the status strings "queued", "processing", "completed" and "failed", each naming exactly one status |
| JobStore.StoredName | backend/main.py:51 | the saved name is the job id, an underscore, then the client's filename |
| JobStore.Processed | backend/main.py:36-46 | the job ends "completed" with the results iff the analyser returned them, and "failed" with the message iff it raised; the filename is kept |
| JobStore.ChooseDownloader | backend/main.py:76-92 | the venv yt-dlp if it exists, else system yt-dlp, else youtube-dl; the 500 "neither is installed" error when both are missing; a yt-dlp or youtube-dl probe that exits non-zero gives a 500 "Server error: <message>" |
| JobStore.FirstWithPrefix | backend/main.py:124-127 | none iff no entry starts with the prefix; otherwise the first such entry in listing order |
| JobStore.FetchVideo | backend/main.py:65-146 | downloader errors pass through; a timeout gives 408; a non-zero exit gives 400 with the first 200 characters of stderr; otherwise the expected `<job_id>_video.mp4`, else the first entry starting with the job id (whenever there is one), else a 400; a success always lies under `uploads/` and is named after the job id |
| JobStore.Store.constructor | backend/main.py:31 | the store starts empty |
| JobStore.Store.Upload | backend/main.py:48-59 | when the file is saved, only this job is written, as "queued" with the client's filename, and the task analyses `uploads/<job_id>_<filename>` (`StoredName`); the video link then misses that file (not `LinksAnalysedFile`: the `/uploads` mount at line 28 serves `uploads/<recorded filename>`, which the dashboard links); a failed save changes nothing and answers 500 |
| JobStore.Store.UploadRecordingStoredName | backend/main.py:48-59 | the corrected upload: it records the stored name, so the video link reaches the analysed file (`LinksAnalysedFile`) |
| JobStore.Store.UploadFromUrl | backend/main.py:61-146 | registers a "queued" job for the fetched file only when `FetchVideo` succeeds, with its link reaching that file; every error leaves the store unchanged |
| JobStore.Store.StartProcessing | backend/main.py:38 | only this job changes, and it becomes "processing" |
| JobStore.Store.FinishProcessing | backend/main.py:39-45 | only this job changes, and it becomes `Processed` by the analyser's outcome |
| JobStore.Store.ProcessVideo | backend/main.py:36-46 | a run leaves the job `Processed` by the analyser's outcome, which is a lifecycle step from "processing" ("completed" or "failed"); it changes no other job, and keeps every completed job carrying results |
| JobStore.Store.GetStatus | backend/main.py:149-153 | 404 iff the id is unknown; otherwise the stored record, unchanged |
| JobStore.Store.GetResults | backend/main.py:155-161 | 404 for an unknown id; 400 until the job is completed; otherwise its results; a valid store raises no other error |
| ActionRecognizer.CountIn | backend/action_recognizer.py:86-87 | a count never exceeds the number of entries; `CountInIndices` fixes its value |
| ActionRecognizer.CountInIndices | backend/action_recognizer.py:86-87 | the generator sum `sum(1 for obj in objects if obj in ...)`: the count equals the number of positions whose name is in the set, so each such entry counts exactly once |
| ActionRecognizer.DetectEnvironment | backend/action_recognizer.py:86-94 | "outdoor" iff the outdoor count is larger; "indoor" iff the indoor count is larger; "unknown" iff they tie |
| ActionRecognizer.EnvironmentName | backend/action_recognizer.py:89-94 | the returned strings "outdoor", "indoor" and "unknown", each naming exactly one kind of place |
| ActionRecognizer.DetectEnvironmentName | backend/action_recognizer.py:73-94 | `detect_environment` as it answers: "outdoor" iff the outdoor count is larger, "indoor" iff the indoor count is larger, "unknown" iff they tie |
| ActionRecognizer.KindsAreDisjoint | backend/action_recognizer.py:83-84 | no object name is both an outdoor and an indoor object |
| ActionRecognizer.CountsWithinLength | backend/action_recognizer.py:83-87 | the outdoor and indoor counts together never exceed the number of objects |
| ActionRecognizer.CountInAppend | backend/action_recognizer.py:86-87 | the count of a concatenation is the sum of the counts |
| ActionRecognizer.CountInPermutation | backend/action_recognizer.py:86-87 | counts depend only on the multiset of names |
| ActionRecognizer.EnvironmentIgnoresOrder | backend/action_recognizer.py:83-94 | reordering the objects never changes the environment |
| ActionRecognizer.CountInNone | backend/action_recognizer.py:86-87 | a list with no name from the set counts 0 |
| ActionRecognizer.UnrecognisedIsUnknown | backend/action_recognizer.py:93-94 | lists of only unrecognised names, including the empty list, are "unknown" |
| ActionRecognizer.CountInAll | backend/action_recognizer.py:86-87 | when every entry is in the set, the count is the length of the list |
| ActionRecognizer.AllOfOneKind | backend/action_recognizer.py:86-92 | a non-empty list of only outdoor objects is classified outdoor, and one of only indoor objects indoor |
| ActionRecognizer.MoreOfTheSameKind | backend/action_recognizer.py:86-92 | adding an outdoor object keeps an outdoor scene outdoor; likewise indoors |
| ActionRecognizer.InWindow | backend/action_recognizer.py:112-115 | the number of matches never exceeds the number of detections; a detection matches when its frame (`FrameOf`: the `frame` key, or 0 when absent, line 114) lies in the inclusive window; `InWindowIndices` fixes its value |
| ActionRecognizer.InWindowIndices | backend/action_recognizer.py:112-115 | the window count equals the number of detections whose frame (`FrameOf`) lies in `[start_frame, end_frame]`, both ends included |
| ActionRecognizer.WindowEndsIncluded | backend/action_recognizer.py:114 | a detection at exactly `start_frame`, or exactly `end_frame`, adds one to the count |
| ActionRecognizer.CountPeopleInScene | backend/action_recognizer.py:108-122 | 0 without a "person" key; otherwise the matches floor-divided by `max(1, end − start)`, so at most the matches, and equal to them when the window spans at most 1 |
| ActionRecognizer.FloorDivision | backend/action_recognizer.py:122 | `//` of a count by a divisor of at least 1 is the floor quotient, never larger than the count, and the count itself when the divisor is 1 |
| ActionRecognizer.EmptyWindowMatchesNothing | backend/action_recognizer.py:112-118 | an inverted window matches no detection |
| ActionRecognizer.FramelessDetections | backend/action_recognizer.py:112-115 | detections without a frame all count at frame 0: all of them match iff the window contains 0, and none otherwise |
| ActionRecognizer.AnalyzeMovementPatterns | backend/action_recognizer.py:52-71 | whatever the input, exactly one entry ("walking", 0.8, 0, 5.0) |
| Polling.DashboardFollowsJob | frontend/src/app/dashboard/page.tsx:47-59 | for a stored job, the dashboard polls again iff it is queued or processing, shows results iff it is completed, with those results and a link to its filename, and shows failure iff it failed |
| Polling.UnknownJobShowsError | backend/main.py:149-153 | polling an unknown id makes the 404 throw, and the page shows the failure view |
| Polling.CompletedJobShowsItsResults | backend/main.py:40-42 | after a successful analysis, the dashboard shows exactly the analyser's results and links the recorded filename |
| Polling.FileUploadLinkMisses | backend/main.py:51-56 | as written, for every job id the file upload's recorded name does not lead to the saved file |
| Polling.FileUploadLinkMissesExample | backend/main.py:51-56 | the file "clip.mp4" for job "J" is saved as `uploads/J_clip.mp4`, but the link serves `uploads/clip.mp4` |
| Polling.StoredNameLinksAnalysedFile | backend/main.py:51-57 | recording the stored name makes the link reach the analysed file |
| Polling.UrlUploadLinksAnalysedFile | backend/main.py:121-134 | a URL upload records the name it analyses, so its link always reaches the file |
| Polling.ProcessingKeepsLink | backend/main.py:36-46 | analysis keeps the recorded filename, so a working link still works once the job completes |

## Left out

- The cursor-dot DOM styling, the hidden system cursor and the Three.js material settings are rendering only. The same goes for handing the buffers to `BufferAttribute`.
- A particle is a datatype value held in a `seq`, not a mutable object. No particle is shared, so updating `life` and `position` in place is the same as replacing the value. The life and position of the particles the filter drops are not tracked.
- All arithmetic is exact `real`. The source uses JavaScript doubles stored into `Float32Array`. Exact facts such as "removed on exactly the 50th frame" hold in the model, not necessarily under floating-point rounding.
- CursorTrail.Trail.MouseMove: requires a viewport of positive width and height. With a zero size the source divides by zero and stores infinities or NaN.
- `Math.random()` is an input in [0, 1). Network requests, `setTimeout`, router navigation, `alert` and `console` output are all replaced by explicit inputs and outputs.
- `jumpToTime` only seeks the video element and starts it playing, so it is not modelled.
- The dashboard never stores "queued" or "processing" as its status: a running reply leaves "loading" in place. The view for those two statuses is still modelled.
- `Background3D.tsx` and `SceneCard.tsx` are not part of this model. They are shaders, random star fields and presentation.
- `backend/analyzer.py` and `ActionRecognizer.recognize_actions` are not part of this model. They are calls into video and ML libraries, and each run is an input `Analysis` outcome.
- For the downloader, only the command's outcome is modelled: exit code and stderr, or a timeout. The command-line arguments and the `print` logging are left out.
- A `requires` that the job exists lets a process run skip the source's `KeyError` path. Exceptions other than the modelled ones are left out as well. A task is created only for a job just registered, and jobs are never deleted.
- The job id comes from `uuid4()`. It is a parameter, and is never empty.
- The concurrency between mouse events and frames, and between requests and background tasks, is left out. Each is an explicit call in sequence.
- ActionRecognizer.CountPeopleInScene: a detection record without a `frame` key counts at frame 0, as `d.get('frame', 0)` says. The records `backend/analyzer.py` produces carry only a timestamp, so all of them fall at frame 0 (see `FramelessDetections`).

## Findings

| source | as written | input that shows it | evidently intended | confidence | as-written member | corrected member |
|---|---|---|---|---|---|---|
| backend/main.py:56 | `/upload` saves the file as `uploads/<job_id>_<filename>` (line 51) but records only `<filename>`. The dashboard builds its video link as `/uploads/<recorded filename>` (frontend/src/app/dashboard/page.tsx:53), so the link names a file that was never saved. | A file "clip.mp4" uploaded for job "J" is saved as `uploads/J_clip.mp4`, but the completed dashboard links `/uploads/clip.mp4`. | Record the stored name, as `/upload-url` does (line 133), so the video plays the analysed file. | high, not executed | Polling.FileUploadLinkMisses | JobStore.Store.UploadRecordingStoredName |
