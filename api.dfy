/**
 * The analysis results exchanged between the backend (backend/main.py,
 * backend/analyzer.py) and the dashboard page: the shape the dashboard's
 * TypeScript interfaces give them, and the backend address both pages call.
 */
module Api {

  /** The backend's address, as both pages hard-code it. */
  const ApiBase: string := "http://localhost:8000"

  /** A detected scene: its position in the list and its time span in seconds. */
  datatype Scene = Scene(index: int, startTime: real, endTime: real)

  /** One transcribed utterance and its time span in seconds. */
  datatype TranscriptSegment = TranscriptSegment(id: int, start: real, end: real, text: string)

  /** One sighting of an object class at a time, with the detector's confidence. */
  datatype ObjectDetection = ObjectDetection(timestamp: real, confidence: real)

  /** What a completed analysis returns. */
  datatype AnalysisResults = AnalysisResults(
    scenes: seq<Scene>,
    transcript: seq<TranscriptSegment>,
    objects: map<string, seq<ObjectDetection>>)
}
