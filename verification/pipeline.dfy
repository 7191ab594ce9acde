/** The `try` block of `evaluateExplanation`, which both components share word for word:
    the artifact is transcribed, the transcript is stored, then it is scored against the
    topic. `Explain` is what one run of that block produces for given replies; each
    component's handler is proved to land exactly this run in its state. */
module Pipeline {
  import opened Domain
  import Groq

  /** What one run sends and yields: the requests in order, the transcript and the score
      that came back (if any), and the error it ends with. */
  datatype Run = Run(requests: seq<Request>, transcript: Option<string>,
    evaluation: Option<Evaluation>, error: Option<string>)

  /** What a remote request sees of the session at the moment it is sent: the busy flag
      of the handler that sent it, the error and the stored transcript. */
  datatype Pending = Pending(busy: bool, error: Option<string>, transcription: string)

  /** One run for `blob` and `topic`. The scoring request goes out only after a transcript
      has come back and carries that transcript; a scoring failure still yields the
      transcript; the run ends without an error exactly when both replies succeed, and
      otherwise with the fixed message of the step that failed, never the fallback. */
  function Explain(blob: Blob, topic: string, transcriptReply: Outcome<string>,
    evaluationReply: Outcome<Evaluation>): (r: Run)
    ensures r.requests == [TranscribeRequest(blob)] +
      (if transcriptReply.Ok? then [EvaluateRequest(transcriptReply.value, topic)] else [])
    ensures r.transcript.Some? <==> transcriptReply.Ok?
    ensures r.transcript.Some? ==> r.transcript.value == transcriptReply.value
    ensures r.evaluation.Some? <==> transcriptReply.Ok? && evaluationReply.Ok?
    ensures r.evaluation.Some? ==> r.evaluation.value == evaluationReply.value
    ensures r.error.None? <==> transcriptReply.Ok? && evaluationReply.Ok?
    ensures transcriptReply.Err? ==> r.error == Some(Groq.TranscribeFailedMessage)
    ensures transcriptReply.Ok? && evaluationReply.Err? ==> r.error == Some(Groq.EvaluateFailedMessage)
    ensures r.error != Some(Groq.FallbackMessage)
  {
    match Groq.Transcribe(transcriptReply)
    case Err(message) =>
      Run([TranscribeRequest(blob)], None, None, Some(Groq.ShownError(message)))
    case Ok(text) =>
      var requests := [TranscribeRequest(blob), EvaluateRequest(text, topic)];
      match Groq.Evaluate(evaluationReply)
      case Err(message) => Run(requests, Some(text), None, Some(Groq.ShownError(message)))
      case Ok(result) => Run(requests, Some(text), Some(result), None)
  }

  /** What the requests of a run see: each one goes out while the handler is busy and the
      error is cleared; the transcription request sees the transcript held before the run,
      the scoring request the one just stored. */
  function Seen(before: string, r: Run): seq<Pending>
  {
    [Pending(true, None, before)] +
    (if r.transcript.Some? then [Pending(true, None, r.transcript.value)] else [])
  }

  /** The transcript a session holds after a run: a new one replaces the old. */
  function TranscriptAfter(before: string, r: Run): string
  {
    if r.transcript.Some? then r.transcript.value else before
  }

  /** The score a session holds after a run: a failed run keeps the previous score. */
  function EvaluationAfter(before: Option<Evaluation>, r: Run): Option<Evaluation>
  {
    if r.evaluation.Some? then r.evaluation else before
  }
}
