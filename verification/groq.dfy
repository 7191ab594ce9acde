/** The two remote clients both components define (`transcribeWithGroq`,
    `evaluateWithGroq`). The HTTP exchange is a given `Outcome`; what is modelled is how
    the client turns it into a value or a thrown error. */
module Groq {
  import opened Domain

  const TranscribeFailedMessage := "Failed to transcribe audio. Please try again."
  const EvaluateFailedMessage := "Failed to evaluate explanation. Please try again."
  const FallbackMessage := "An error occurred during evaluation. Please try again."

  /** `transcribeWithGroq`: the text of a successful reply; every failure, whatever its
      status text, is rethrown under one fixed message. */
  function Transcribe(reply: Outcome<string>): (r: Outcome<string>)
    ensures r.Ok? <==> reply.Ok?
    ensures r.Ok? ==> r.value == reply.value
    ensures r.Err? ==> r.message == TranscribeFailedMessage
  {
    match reply
    case Ok(text) => Ok(text)
    case Err(_) => Err(TranscribeFailedMessage)
  }

  /** `evaluateWithGroq`: the parsed scoring object of a successful reply; every failure
      is rethrown under one fixed message. */
  function Evaluate(reply: Outcome<Evaluation>): (r: Outcome<Evaluation>)
    ensures r.Ok? <==> reply.Ok?
    ensures r.Ok? ==> r.value == reply.value
    ensures r.Err? ==> r.message == EvaluateFailedMessage
  {
    match reply
    case Ok(result) => Ok(result)
    case Err(_) => Err(EvaluateFailedMessage)
  }

  /** `error.message || fallback`: the message an evaluation failure shows. */
  function ShownError(message: string): (r: string)
    ensures r != ""
    ensures message != "" ==> r == message
    ensures message == "" ==> r == FallbackMessage
  {
    if message != "" then message else FallbackMessage
  }
}
