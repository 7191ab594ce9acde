/** The richer evaluator component: one session that records or uploads an audio
    explanation, has it transcribed and scored, and builds a flashcard deck from it.
    Every `useState` variable but the recording timer is a field of `Session`, as are the
    recorder, its chunk buffer and the playback element; every handler is a method. A remote
    reply or a microphone permission answer is a parameter, so one run of a handler is
    deterministic, and the handler returns the requests it sent. */
module Feynmind {
  import opened Domain
  import opened Text
  import Groq
  import opened Pipeline

  const MaxUploadBytes: nat := 25 * 1024 * 1024
  const AudioTypePrefix := "audio/"
  const RecordedFileName := "Recorded Audio"
  const MinTopicLength := 3

  const SizeExceededMessage := "File size exceeds 25MB limit"
  const UnsupportedTypeMessage := "Please upload an audio file"
  const MissingInputMessage := "Please record or upload an explanation and specify a topic first."
  const TopicTooShortMessage := "Please enter a more specific topic (at least 3 characters)."
  const NoTranscriptMessage := "Please record and transcribe an explanation first."
  const FlashcardsFailedMessage := "Failed to generate flashcards. Please try again."
  const MicrophoneMessage := "Error accessing microphone. Please ensure you have granted microphone permissions."

  /** The `fileName` that goes with an artifact. */
  function DisplayName(blob: Option<Blob>): string
  {
    match blob
    case None => ""
    case Some(FromFile(f)) => f.name
    case Some(FromChunks(_, _)) => RecordedFileName
  }

  /** The guard of `evaluateExplanation`: the message it sets, or None to go ahead. The
      blank test trims the topic; the length test does not. */
  function EvaluateRejection(blob: Option<Blob>, topic: string): (r: Option<string>)
    ensures r.Some? ==> r.value == MissingInputMessage || r.value == TopicTooShortMessage
    ensures r.None? ==> blob.Some? && |topic| >= MinTopicLength
    ensures blob.None? ==> r == Some(MissingInputMessage)
  {
    if blob.None? || Trim(topic) == "" then Some(MissingInputMessage)
    else if |topic| < MinTopicLength then Some(TopicTooShortMessage)
    else None
  }

  /** The evaluation guard, stated without `trim`: it asks for the artifact and the topic
      exactly when there is no artifact or the topic is all whitespace, and lets the
      request go exactly when there is an artifact and the topic has a non-whitespace
      character and at least three characters. */
  lemma {:induction false} EvaluateRejectionCases(blob: Option<Blob>, topic: string)
    ensures EvaluateRejection(blob, topic) == Some(MissingInputMessage) <==> blob.None? || IsBlank(topic)
    ensures EvaluateRejection(blob, topic) == Some(TopicTooShortMessage) <==>
      blob.Some? && !IsBlank(topic) && |topic| < MinTopicLength
    ensures EvaluateRejection(blob, topic) == None <==>
      blob.Some? && !IsBlank(topic) && |topic| >= MinTopicLength
  {
    TrimEmptyIffBlank(topic);
    assert |MissingInputMessage| != |TopicTooShortMessage|;
  }

  /** The length test counts the untrimmed topic, so whitespace can make up the length. */
  lemma PaddedTopicPasses(blob: Blob)
    ensures EvaluateRejection(Some(blob), "  a") == None
  {
    assert "  a"[2] == 'a';
    assert !IsBlank("  a");
    EvaluateRejectionCases(Some(blob), "  a");
  }

  datatype Playback = NoAudio | Paused | Playing(source: Blob)

  class Session {
    var isRecording: bool
    var audioBlob: Option<Blob>
    var transcription: string
    var evaluation: Option<Evaluation>
    var topic: string
    var isProcessing: bool
    var error: Option<string>
    var fileName: string
    var audioDuration: nat
    var isPlaying: bool
    /** Whether a media recorder has been created. */
    var hasRecorder: bool
    /** The recorder's chunk buffer. */
    var audioChunks: seq<Chunk>
    /** The artifact the playback element was created from, if there is an element. */
    var player: Option<Blob>
    var audioSource: string
    var flashcards: seq<Flashcard>
    var showFlashcards: bool
    var currentCardIndex: int
    var isFlipped: bool
    var isGeneratingCards: bool

    /** What holds between handlers and whenever a handler waits for a reply: the deck
        cursor is 0 on an empty deck and a valid index otherwise, the source tag and file
        name describe the artifact, only a created recorder records, and playback only
        runs on an existing element. */
    ghost predicate Consistent()
      reads this
    {
      (isRecording ==> hasRecorder) &&
      0 <= currentCardIndex && (currentCardIndex < |flashcards| || currentCardIndex == 0) &&
      audioSource == SourceTag(audioBlob) &&
      fileName == DisplayName(audioBlob) &&
      (isPlaying ==> player.Some?)
    }

    /** What holds between handlers: the state is consistent and no request is out, since
        every handler clears the busy flag it sets before it returns. */
    ghost predicate Valid()
      reads this
    {
      Consistent() && !isProcessing && !isGeneratingCards
    }

    /** The artifact and everything derived from it (transcript, score, name, duration,
        source, deck, cursor, flip flag) hold their values at mount. */
    ghost predicate Cleared()
      reads this
    {
      audioBlob == None && transcription == "" && evaluation == None && fileName == "" &&
      audioDuration == 0 && audioSource == "" && flashcards == [] && !showFlashcards &&
      currentCardIndex == 0 && !isFlipped
    }

    constructor ()
      ensures Valid() && Cleared()
      ensures !isRecording && topic == "" && !isProcessing && error == None && !isPlaying
      ensures !hasRecorder && audioChunks == [] && player == None && !isGeneratingCards
    {
      isRecording, audioBlob, transcription, evaluation, topic := false, None, "", None, "";
      isProcessing, error, fileName, audioDuration, isPlaying := false, None, "", 0, false;
      hasRecorder, audioChunks, player, audioSource := false, [], None, "";
      flashcards, showFlashcards, currentCardIndex, isFlipped, isGeneratingCards := [], false, 0, false, false;
    }

    /** The topic input's change handler. */
    method SetTopic(value: string)
      requires Valid()
      modifies this`topic
      ensures Valid() && topic == value
    {
      topic := value;
    }

    /** `resetAll`: only the fields `Cleared` names change; the topic, the error, the
        recorder and its buffer, the playback element and the busy flags stay. */
    method ResetAll()
      requires Valid()
      modifies this`audioBlob, this`transcription, this`evaluation, this`fileName,
        this`audioDuration, this`audioSource, this`flashcards, this`showFlashcards,
        this`currentCardIndex, this`isFlipped
      ensures Valid() && Cleared()
    {
      ClearArtifact();
      ClearDeck();
    }

    /** The artifact, its transcript, score, name, duration and source go back to empty. */
    method ClearArtifact()
      requires Valid()
      modifies this`audioBlob, this`transcription, this`evaluation, this`fileName,
        this`audioDuration, this`audioSource
      ensures Valid()
      ensures audioBlob == None && transcription == "" && evaluation == None
      ensures fileName == "" && audioDuration == 0 && audioSource == ""
    {
      audioBlob, transcription, evaluation, fileName, audioDuration, audioSource := None, "", None, "", 0, "";
    }

    /** The deck is emptied and hidden, with the cursor on 0 and the card unflipped. */
    method ClearDeck()
      requires Valid()
      modifies this`flashcards, this`showFlashcards, this`currentCardIndex, this`isFlipped
      ensures Valid()
      ensures flashcards == [] && !showFlashcards && currentCardIndex == 0 && !isFlipped
    {
      flashcards, showFlashcards, currentCardIndex, isFlipped := [], false, 0, false;
    }

    /** `handleFileUpload`: the size check comes first, then the type check; a rejected
        file only sets the error. */
    method HandleFileUpload(file: AudioFile)
      requires Valid()
      modifies this`audioBlob, this`transcription, this`evaluation, this`fileName,
        this`audioDuration, this`audioSource, this`flashcards, this`showFlashcards,
        this`currentCardIndex, this`isFlipped, this`error
      ensures Valid()
      ensures file.size > MaxUploadBytes ==>
        error == Some(SizeExceededMessage) && ArtifactUnchanged()
      ensures file.size <= MaxUploadBytes && !StartsWith(file.mimeType, AudioTypePrefix) ==>
        error == Some(UnsupportedTypeMessage) && ArtifactUnchanged()
      ensures file.size <= MaxUploadBytes && StartsWith(file.mimeType, AudioTypePrefix) ==>
        Holds(file) && error == None
    {
      if file.size > MaxUploadBytes {
        error := Some(SizeExceededMessage);
      } else if !StartsWith(file.mimeType, AudioTypePrefix) {
        error := Some(UnsupportedTypeMessage);
      } else {
        AcceptUpload(file);
      }
    }

    /** None of the fields `resetAll` clears has changed. */
    twostate predicate ArtifactUnchanged()
      reads this
    {
      unchanged(this`audioBlob, this`transcription, this`evaluation, this`fileName,
        this`audioDuration, this`audioSource, this`flashcards, this`showFlashcards,
        this`currentCardIndex, this`isFlipped)
    }

    /** The session holds `file` as a fresh upload: no transcript, score or deck, and a
        duration of 0 until the metadata arrives. */
    ghost predicate Holds(file: AudioFile)
      reads this
    {
      audioBlob == Some(FromFile(file)) && audioSource == UploadSource && fileName == file.name &&
      transcription == "" && evaluation == None && audioDuration == 0 &&
      flashcards == [] && !showFlashcards && currentCardIndex == 0 && !isFlipped
    }

    /** The accepted branch of `handleFileUpload`: the session is reset before the file
        becomes the artifact, so nothing derived from an earlier artifact survives. */
    method AcceptUpload(file: AudioFile)
      requires Valid()
      modifies this`audioBlob, this`transcription, this`evaluation, this`fileName,
        this`audioDuration, this`audioSource, this`flashcards, this`showFlashcards,
        this`currentCardIndex, this`isFlipped, this`error
      ensures Valid() && Holds(file) && error == None
    {
      ResetAll();
      audioBlob := Some(FromFile(file));
      audioSource := UploadSource;
      fileName := file.name;
      error := None;
    }

    /** `audio.onloadedmetadata`: the artifact's duration, rounded to whole seconds. */
    method OnMetadataLoaded(seconds: nat)
      requires Valid()
      modifies this`audioDuration
      ensures Valid() && audioDuration == seconds
    {
      audioDuration := seconds;
    }

    /** `startRecording`: the session is reset before the microphone is asked for, so it
        is reset even when permission is refused. A granted microphone gets a new
        recorder; the chunk buffer is left as it is. */
    method StartRecording(microphone: Outcome<()>)
      requires Valid()
      modifies this`audioBlob, this`transcription, this`evaluation, this`fileName,
        this`audioDuration, this`audioSource, this`flashcards, this`showFlashcards,
        this`currentCardIndex, this`isFlipped, this`error, this`hasRecorder, this`isRecording
      ensures Valid() && Cleared()
      ensures microphone.Ok? ==> hasRecorder && isRecording && error == None
      ensures microphone.Err? ==>
        error == Some(MicrophoneMessage) && unchanged(this`hasRecorder, this`isRecording)
    {
      ResetAll();
      match microphone {
        case Err(_) =>
          error := Some(MicrophoneMessage);
        case Ok(_) =>
          hasRecorder := true;
          isRecording := true;
          error := None;
      }
    }

    /** `ondataavailable`: the chunk joins the end of the buffer. */
    method OnDataAvailable(chunk: Chunk)
      requires Valid()
      modifies this`audioChunks
      ensures Valid() && audioChunks == old(audioChunks) + [chunk]
    {
      audioChunks := audioChunks + [chunk];
    }

    /** `onstop`: the buffered chunks, in arrival order, become the artifact; the buffer
        is emptied. */
    method OnRecorderStop()
      requires Valid()
      modifies this`audioBlob, this`audioSource, this`audioChunks, this`fileName
      ensures Valid()
      ensures audioBlob == Some(FromChunks(old(audioChunks), RecordedMimeType))
      ensures audioSource == RecordingSource && fileName == RecordedFileName && audioChunks == []
    {
      audioBlob := Some(FromChunks(audioChunks, RecordedMimeType));
      audioSource := RecordingSource;
      audioChunks := [];
      fileName := RecordedFileName;
    }

    /** `stopRecording`: acts only with a recorder that is recording; `stopped` says
        whether the recorder was told to stop. A second call finds `isRecording` false and
        does nothing. */
    method StopRecording() returns (stopped: bool)
      requires Valid()
      modifies this`isRecording
      ensures Valid()
      ensures stopped == old(hasRecorder && isRecording)
      ensures isRecording == (old(isRecording) && !stopped)
    {
      stopped := hasRecorder && isRecording;
      if stopped {
        isRecording := false;
      }
    }

    /** `generateFlashcards`: without a transcript and a topic only the error changes and
        nothing is sent. `inFlight` holds what each request sees when it is sent. */
    method GenerateFlashcards(reply: Outcome<seq<Flashcard>>)
      returns (requests: seq<Request>, ghost inFlight: seq<Pending>)
      requires Valid()
      modifies this`error, this`isGeneratingCards, this`flashcards, this`showFlashcards,
        this`currentCardIndex, this`isFlipped
      ensures Valid()
      ensures old(transcription == "" || topic == "") ==>
        requests == [] && inFlight == [] && error == Some(NoTranscriptMessage) &&
        unchanged(this`isGeneratingCards) && DeckUnchanged()
      ensures old(transcription != "" && topic != "") ==>
        requests == [FlashcardsRequest(old(transcription), old(topic))] &&
        inFlight == [Pending(true, None, old(transcription))] && !isGeneratingCards &&
        FlashcardsOutcome(reply)
    {
      if transcription == "" || topic == "" {
        error := Some(NoTranscriptMessage);
        requests, inFlight := [], [];
      } else {
        requests, inFlight := RequestFlashcards(reply);
      }
    }

    /** The deck, its visibility, the cursor and the flip flag are as they were. */
    twostate predicate DeckUnchanged()
      reads this
    {
      unchanged(this`flashcards, this`showFlashcards, this`currentCardIndex, this`isFlipped)
    }

    /** How a flashcard reply lands: a deck replaces the old one and is shown from its
        first card, unflipped, with no error; a failure sets one fixed message and leaves
        the deck as it was. */
    twostate predicate FlashcardsOutcome(reply: Outcome<seq<Flashcard>>)
      reads this
    {
      if reply.Ok? then
        flashcards == reply.value && showFlashcards && currentCardIndex == 0 && !isFlipped &&
        error == None
      else
        error == Some(FlashcardsFailedMessage) && DeckUnchanged()
    }

    /** The request part of `generateFlashcards`: busy with no error while the one request,
        carrying the transcript and the topic, is out; the busy flag is cleared either way. */
    method RequestFlashcards(reply: Outcome<seq<Flashcard>>)
      returns (requests: seq<Request>, ghost inFlight: seq<Pending>)
      requires Valid()
      modifies this`error, this`isGeneratingCards, this`flashcards, this`showFlashcards,
        this`currentCardIndex, this`isFlipped
      ensures Valid()
      ensures requests == [FlashcardsRequest(old(transcription), old(topic))]
      ensures inFlight == [Pending(true, None, old(transcription))]
      ensures !isGeneratingCards && FlashcardsOutcome(reply)
    {
      isGeneratingCards, error := true, None;
      requests, inFlight := [FlashcardsRequest(transcription, topic)], [Pending(isGeneratingCards, error, transcription)];
      match reply {
        case Ok(cards) =>
          flashcards, showFlashcards, currentCardIndex, isFlipped := cards, true, 0, false;
          isGeneratingCards := false;
        case Err(_) =>
          error, isGeneratingCards := Some(FlashcardsFailedMessage), false;
      }
    }

    /** `nextCard`: moves one card on, unflipped, unless the cursor is on the last card. */
    method NextCard()
      requires Valid()
      modifies this`currentCardIndex, this`isFlipped
      ensures Valid()
      ensures old(currentCardIndex) < |flashcards| - 1 ==>
        currentCardIndex == old(currentCardIndex) + 1 && !isFlipped
      ensures old(currentCardIndex) >= |flashcards| - 1 ==>
        unchanged(this`currentCardIndex, this`isFlipped)
    {
      if currentCardIndex < |flashcards| - 1 {
        currentCardIndex := currentCardIndex + 1;
        isFlipped := false;
      }
    }

    /** `previousCard`: moves one card back, unflipped, unless the cursor is on the first. */
    method PreviousCard()
      requires Valid()
      modifies this`currentCardIndex, this`isFlipped
      ensures Valid()
      ensures old(currentCardIndex) > 0 ==>
        currentCardIndex == old(currentCardIndex) - 1 && !isFlipped
      ensures old(currentCardIndex) == 0 ==> unchanged(this`currentCardIndex, this`isFlipped)
    {
      if currentCardIndex > 0 {
        currentCardIndex := currentCardIndex - 1;
        isFlipped := false;
      }
    }

    /** A click on the card turns it over. */
    method FlipCard()
      requires Valid()
      modifies this`isFlipped
      ensures Valid() && isFlipped == !old(isFlipped)
    {
      isFlipped := !isFlipped;
    }

    /** The deck's close button hides the deck and keeps it. */
    method CloseFlashcards()
      requires Valid()
      modifies this`showFlashcards
      ensures Valid() && !showFlashcards
    {
      showFlashcards := false;
    }

    /** `evaluateExplanation`: the guard sets its message, sends nothing and leaves
        everything else alone; otherwise the artifact is processed. */
    method EvaluateExplanation(transcriptReply: Outcome<string>, evaluationReply: Outcome<Evaluation>)
      returns (requests: seq<Request>, ghost inFlight: seq<Pending>)
      requires Valid()
      modifies this`isProcessing, this`error, this`transcription, this`evaluation
      ensures Valid()
      ensures EvaluateRejection(old(audioBlob), old(topic)).Some? ==>
        requests == [] && inFlight == [] &&
        error == EvaluateRejection(old(audioBlob), old(topic)) &&
        unchanged(this`isProcessing, this`transcription, this`evaluation)
      ensures EvaluateRejection(old(audioBlob), old(topic)).None? ==>
        Landed(Explain(old(audioBlob).value, old(topic), transcriptReply, evaluationReply), requests, inFlight)
    {
      var rejection := EvaluateRejection(audioBlob, topic);
      if rejection.Some? {
        error := rejection;
        requests, inFlight := [], [];
      } else {
        requests, inFlight := ProcessExplanation(transcriptReply, evaluationReply);
      }
    }

    /** The session after `run`: the busy flag is cleared, the run's error is shown, a
        transcript or score that came back replaces the old one, and `inFlight` says what
        each request saw when it was sent. */
    twostate predicate Landed(run: Run, requests: seq<Request>, inFlight: seq<Pending>)
      reads this
    {
      !isProcessing && requests == run.requests && error == run.error &&
      transcription == TranscriptAfter(old(transcription), run) &&
      evaluation == EvaluationAfter(old(evaluation), run) &&
      inFlight == Seen(old(transcription), run)
    }

    /** The processing part of `evaluateExplanation`: busy with no error, the artifact goes
        out for transcription; a transcript that comes back is stored before it goes out,
        with the topic, for scoring. The busy flag is cleared at the end. */
    method ProcessExplanation(transcriptReply: Outcome<string>, evaluationReply: Outcome<Evaluation>)
      returns (requests: seq<Request>, ghost inFlight: seq<Pending>)
      requires Valid() && audioBlob.Some?
      modifies this`isProcessing, this`error, this`transcription, this`evaluation
      ensures Valid()
      ensures Landed(Explain(old(audioBlob).value, old(topic), transcriptReply, evaluationReply), requests, inFlight)
    {
      isProcessing := true;
      error := None;
      requests, inFlight := [TranscribeRequest(audioBlob.value)], [Pending(isProcessing, error, transcription)];
      match Groq.Transcribe(transcriptReply) {
        case Err(message) =>
          error := Some(Groq.ShownError(message));
          isProcessing := false;
        case Ok(text) =>
          transcription := text;
          requests, inFlight := requests + [EvaluateRequest(text, topic)], inFlight + [Pending(isProcessing, error, transcription)];
          ScoreTranscript(evaluationReply);
      }
    }

    /** The scoring step: a result that comes back is stored, a failure shows the client's
        fixed message, and the busy flag is cleared. */
    method ScoreTranscript(evaluationReply: Outcome<Evaluation>)
      requires Consistent() && !isGeneratingCards
      modifies this`isProcessing, this`error, this`evaluation
      ensures Valid()
      ensures evaluationReply.Ok? ==> evaluation == Some(evaluationReply.value) && unchanged(this`error)
      ensures evaluationReply.Err? ==> error == Some(Groq.EvaluateFailedMessage) && unchanged(this`evaluation)
    {
      match Groq.Evaluate(evaluationReply) {
        case Err(message) =>
          error := Some(Groq.ShownError(message));
        case Ok(result) =>
          evaluation := Some(result);
      }
      isProcessing := false;
    }

    /** `playRecording`: nothing without an artifact; a click while playing pauses. Else
        the playback element is created from the current artifact if there is none yet,
        and played. Reset pauses the element but keeps it, so after a new artifact the
        element still plays the one it was created from. */
    method PlayRecording() returns (action: Playback)
      requires Valid()
      modifies this`isPlaying, this`player
      ensures Valid()
      ensures old(audioBlob).None? ==> action == NoAudio && unchanged(this`isPlaying, this`player)
      ensures old(audioBlob).Some? && old(isPlaying) ==>
        action == Paused && !isPlaying && unchanged(this`player)
      ensures old(audioBlob).Some? && !old(isPlaying) ==>
        player == (if old(player).Some? then old(player) else old(audioBlob)) &&
        action == Playing(player.value) && isPlaying
    {
      if audioBlob.None? {
        return NoAudio;
      }
      if isPlaying && player.Some? {
        isPlaying := false;
        return Paused;
      }
      if player.None? {
        player := audioBlob;
      }
      isPlaying := true;
      action := Playing(player.value);
    }

    /** The playback element's `onended`. */
    method OnPlaybackEnded()
      requires Valid()
      modifies this`isPlaying
      ensures Valid() && !isPlaying
    {
      isPlaying := false;
    }
  }
}
