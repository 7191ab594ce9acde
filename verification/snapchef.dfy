/** The simpler evaluator component: it records or takes an uploaded audio explanation
    and has it transcribed and scored. It has no size or type checks, no reset, no file
    name, duration, playback state or flashcards, and its guard does not trim the topic. */
module Snapchef {
  import opened Domain
  import Groq
  import opened Pipeline

  const MissingInputMessage := "Please record or upload an explanation and specify a topic first."
  const MicrophoneMessage := "Error accessing microphone. Please ensure you have granted microphone permissions."

  /** The guard of `evaluateExplanation`: an artifact and a non-empty topic; a topic of
      spaces is let through. */
  function EvaluateRejection(blob: Option<Blob>, topic: string): (r: Option<string>)
    ensures r.Some? <==> blob.None? || topic == ""
    ensures r.Some? ==> r.value == MissingInputMessage
  {
    if blob.None? || topic == "" then Some(MissingInputMessage) else None
  }

  class Session {
    var isRecording: bool
    var audioBlob: Option<Blob>
    var transcription: string
    var evaluation: Option<Evaluation>
    var topic: string
    var isProcessing: bool
    var error: Option<string>
    /** Whether a media recorder has been created. */
    var hasRecorder: bool
    /** The recorder's chunk buffer. */
    var audioChunks: seq<Chunk>
    var audioSource: string

    /** What holds between handlers and whenever a handler waits for a reply: only a
        created recorder records, and the source tag describes the artifact. */
    ghost predicate Consistent()
      reads this
    {
      (isRecording ==> hasRecorder) && audioSource == SourceTag(audioBlob)
    }

    /** What holds between handlers: the state is consistent and no request is out. */
    ghost predicate Valid()
      reads this
    {
      Consistent() && !isProcessing
    }

    constructor ()
      ensures Valid()
      ensures !isRecording && audioBlob == None && transcription == "" && evaluation == None
      ensures topic == "" && !isProcessing && error == None && !hasRecorder
      ensures audioChunks == [] && audioSource == ""
    {
      isRecording, audioBlob, transcription, evaluation, topic := false, None, "", None, "";
      isProcessing, error, hasRecorder, audioChunks, audioSource := false, None, false, [], "";
    }

    /** The topic input's change handler. */
    method SetTopic(value: string)
      requires Valid()
      modifies this`topic
      ensures Valid() && topic == value
    {
      topic := value;
    }

    /** `startRecording`: a granted microphone gets a new recorder and clears the error;
        a refused one sets the message. Nothing is reset: the previous artifact, transcript
        and score stay until the recording stops. */
    method StartRecording(microphone: Outcome<()>)
      requires Valid()
      modifies this`hasRecorder, this`isRecording, this`error
      ensures Valid()
      ensures microphone.Ok? ==> hasRecorder && isRecording && error == None
      ensures microphone.Err? ==>
        error == Some(MicrophoneMessage) && unchanged(this`hasRecorder, this`isRecording)
    {
      match microphone {
        case Err(_) =>
          error := Some(MicrophoneMessage);
        case Ok(_) =>
          hasRecorder := true;
          isRecording := true;
          error := None;
      }
    }

    /** `handleFileUpload`: any file becomes the artifact, with no size or type check;
        the transcript and score of the previous artifact stay. */
    method HandleFileUpload(file: AudioFile)
      requires Valid()
      modifies this`audioBlob, this`audioSource, this`error
      ensures Valid()
      ensures audioBlob == Some(FromFile(file)) && audioSource == UploadSource && error == None
    {
      audioBlob := Some(FromFile(file));
      audioSource := UploadSource;
      error := None;
    }

    /** `ondataavailable`: the chunk joins the end of the buffer. */
    method OnDataAvailable(chunk: Chunk)
      requires Valid()
      modifies this`audioChunks
      ensures Valid() && audioChunks == old(audioChunks) + [chunk]
    {
      audioChunks := audioChunks + [chunk];
    }

    /** `onstop`: the buffered chunks, in arrival order, become the artifact; the buffer
        is emptied. */
    method OnRecorderStop()
      requires Valid()
      modifies this`audioBlob, this`audioSource, this`audioChunks
      ensures Valid()
      ensures audioBlob == Some(FromChunks(old(audioChunks), RecordedMimeType))
      ensures audioSource == RecordingSource && audioChunks == []
    {
      audioBlob := Some(FromChunks(audioChunks, RecordedMimeType));
      audioSource := RecordingSource;
      audioChunks := [];
    }

    /** `stopRecording`: acts only with a recorder that is recording; `stopped` says
        whether the recorder was told to stop. */
    method StopRecording() returns (stopped: bool)
      requires Valid()
      modifies this`isRecording
      ensures Valid()
      ensures stopped == old(hasRecorder && isRecording)
      ensures isRecording == (old(isRecording) && !stopped)
    {
      stopped := hasRecorder && isRecording;
      if stopped {
        isRecording := false;
      }
    }

    /** `evaluateExplanation`: the guard sets its message and sends nothing; otherwise the
        artifact is processed. */
    method EvaluateExplanation(transcriptReply: Outcome<string>, evaluationReply: Outcome<Evaluation>)
      returns (requests: seq<Request>, ghost inFlight: seq<Pending>)
      requires Valid()
      modifies this`isProcessing, this`error, this`transcription, this`evaluation
      ensures Valid()
      ensures EvaluateRejection(old(audioBlob), old(topic)).Some? ==>
        requests == [] && inFlight == [] &&
        error == EvaluateRejection(old(audioBlob), old(topic)) &&
        unchanged(this`isProcessing, this`transcription, this`evaluation)
      ensures EvaluateRejection(old(audioBlob), old(topic)).None? ==>
        Landed(Explain(old(audioBlob).value, old(topic), transcriptReply, evaluationReply), requests, inFlight)
    {
      var rejection := EvaluateRejection(audioBlob, topic);
      if rejection.Some? {
        error := rejection;
        requests, inFlight := [], [];
      } else {
        requests, inFlight := ProcessExplanation(transcriptReply, evaluationReply);
      }
    }

    /** The session after `run`: the busy flag is cleared, the run's error is shown, a
        transcript or score that came back replaces the old one, and `inFlight` says what
        each request saw when it was sent. */
    twostate predicate Landed(run: Run, requests: seq<Request>, inFlight: seq<Pending>)
      reads this
    {
      !isProcessing && requests == run.requests && error == run.error &&
      transcription == TranscriptAfter(old(transcription), run) &&
      evaluation == EvaluationAfter(old(evaluation), run) &&
      inFlight == Seen(old(transcription), run)
    }

    /** The processing part of `evaluateExplanation`: busy with no error, the artifact goes
        out for transcription; a transcript that comes back is stored before it goes out,
        with the topic, for scoring. The busy flag is cleared at the end. */
    method ProcessExplanation(transcriptReply: Outcome<string>, evaluationReply: Outcome<Evaluation>)
      returns (requests: seq<Request>, ghost inFlight: seq<Pending>)
      requires Valid() && audioBlob.Some?
      modifies this`isProcessing, this`error, this`transcription, this`evaluation
      ensures Valid()
      ensures Landed(Explain(old(audioBlob).value, old(topic), transcriptReply, evaluationReply), requests, inFlight)
    {
      isProcessing := true;
      error := None;
      requests, inFlight := [TranscribeRequest(audioBlob.value)], [Pending(isProcessing, error, transcription)];
      match Groq.Transcribe(transcriptReply) {
        case Err(message) =>
          error := Some(Groq.ShownError(message));
          isProcessing := false;
        case Ok(text) =>
          transcription := text;
          requests, inFlight := requests + [EvaluateRequest(text, topic)], inFlight + [Pending(isProcessing, error, transcription)];
          ScoreTranscript(evaluationReply);
      }
    }

    /** The scoring step: a result that comes back is stored, a failure shows the client's
        fixed message, and the busy flag is cleared. */
    method ScoreTranscript(evaluationReply: Outcome<Evaluation>)
      requires Consistent()
      modifies this`isProcessing, this`error, this`evaluation
      ensures Valid()
      ensures evaluationReply.Ok? ==> evaluation == Some(evaluationReply.value) && unchanged(this`error)
      ensures evaluationReply.Err? ==> error == Some(Groq.EvaluateFailedMessage) && unchanged(this`evaluation)
    {
      match Groq.Evaluate(evaluationReply) {
        case Err(message) =>
          error := Some(Groq.ShownError(message));
        case Ok(result) =>
          evaluation := Some(result);
      }
      isProcessing := false;
    }

    /** `playRecording`: every click plays the artifact held at that moment through a new
        playback element; nothing is played without one, and no state changes. */
    method PlayRecording() returns (played: Option<Blob>)
      requires Valid()
      ensures played == audioBlob
    {
      played := audioBlob;
    }
  }
}
