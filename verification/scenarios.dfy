/** Concrete sessions driven through the handlers, one user story each, with what the
    user sees at the end. */
module Scenarios {
  import opened Domain
  import opened Text
  import opened Pipeline
  import Groq
  import Feynmind
  import Snapchef
  import TimeFormat

  const DemoFile := AudioFile("demo.wav", 10 * 1024, "audio/wav")
  const DemoTopic := "Entropy"
  const DemoTranscript := "Entropy measures disorder."
  const DemoScore := Evaluation(80, 70, 90, 80, ["Good pacing", "Define terms earlier"])
  const DemoDeck := [Flashcard("What does entropy measure?", "Disorder"), Flashcard("Its unit?", "J/K")]
  const LectureFile := AudioFile("lecture.mp3", 2048, "audio/mpeg")

  /** The demo file passes both upload checks. */
  lemma DemoFileAccepted()
    ensures DemoFile.size <= Feynmind.MaxUploadBytes
    ensures StartsWith(DemoFile.mimeType, Feynmind.AudioTypePrefix)
  {
    assert DemoFile.mimeType[..6] == Feynmind.AudioTypePrefix;
  }

  /** The second file passes both upload checks. */
  lemma LectureFileAccepted()
    ensures LectureFile.size <= Feynmind.MaxUploadBytes
    ensures StartsWith(LectureFile.mimeType, Feynmind.AudioTypePrefix)
  {
    assert LectureFile.mimeType[..6] == Feynmind.AudioTypePrefix;
  }

  /** The demo topic passes the richer guard. */
  lemma DemoTopicAccepted(blob: Blob)
    ensures Feynmind.EvaluateRejection(Some(blob), DemoTopic) == None
  {
    assert DemoTopic[0] == 'E';
    Feynmind.EvaluateRejectionCases(Some(blob), DemoTopic);
  }

  /** A fresh richer session holding the demo upload under the demo topic. */
  method UploadedDemo() returns (s: Feynmind.Session)
    ensures fresh(s) && s.Valid()
    ensures s.audioBlob == Some(FromFile(DemoFile)) && s.fileName == DemoFile.name
    ensures s.audioSource == UploadSource && s.topic == DemoTopic
    ensures s.error == None && !s.isPlaying && s.player == None && s.flashcards == []
    ensures !s.isRecording && !s.hasRecorder && s.evaluation == None && !s.isProcessing
  {
    s := new Feynmind.Session();
    DemoFileAccepted();
    s.HandleFileUpload(DemoFile);
    s.SetTopic(DemoTopic);
  }

  /** The demo session after its transcript and score have come back. */
  method ScoredDemo() returns (s: Feynmind.Session, requests: seq<Request>)
    ensures fresh(s) && s.Valid()
    ensures s.audioBlob == Some(FromFile(DemoFile)) && s.topic == DemoTopic
    ensures s.transcription == DemoTranscript && s.evaluation == Some(DemoScore)
    ensures s.error == None && !s.isPlaying && s.player == None && s.flashcards == []
    ensures !s.isRecording
    ensures requests == [TranscribeRequest(FromFile(DemoFile)), EvaluateRequest(DemoTranscript, DemoTopic)]
  {
    s := UploadedDemo();
    requests := ScoreDemo(s);
  }

  /** The demo artifact under the demo topic is sent, and both replies succeed: the
      transcript and the score are stored and no error is shown. */
  method ScoreDemo(s: Feynmind.Session) returns (requests: seq<Request>)
    requires s.Valid() && s.audioBlob == Some(FromFile(DemoFile)) && s.topic == DemoTopic
    modifies s`isProcessing, s`error, s`transcription, s`evaluation
    ensures s.Valid()
    ensures s.transcription == DemoTranscript && s.evaluation == Some(DemoScore) && s.error == None
    ensures requests == [TranscribeRequest(FromFile(DemoFile)), EvaluateRequest(DemoTranscript, DemoTopic)]
  {
    DemoTopicAccepted(FromFile(DemoFile));
    var run := Explain(FromFile(DemoFile), DemoTopic, Ok(DemoTranscript), Ok(DemoScore));
    DemoExplained();
    assert TranscriptAfter(s.transcription, run) == DemoTranscript;
    assert EvaluationAfter(s.evaluation, run) == Some(DemoScore);
    ghost var seen: seq<Pending>;
    requests, seen := s.EvaluateExplanation(Ok(DemoTranscript), Ok(DemoScore));
  }

  /** The run for the demo when both replies succeed. */
  lemma DemoExplained()
    ensures Explain(FromFile(DemoFile), DemoTopic, Ok(DemoTranscript), Ok(DemoScore)) ==
      Run([TranscribeRequest(FromFile(DemoFile)), EvaluateRequest(DemoTranscript, DemoTopic)],
        Some(DemoTranscript), Some(DemoScore), None)
  {
  }

  /** A two-letter topic is too short for the richer guard. */
  lemma TwoLetterTopicRejected(blob: Blob)
    ensures Feynmind.EvaluateRejection(Some(blob), "AB") == Some(Feynmind.TopicTooShortMessage)
  {
    assert "AB"[0] == 'A';
    Feynmind.EvaluateRejectionCases(Some(blob), "AB");
  }

  /** 75 seconds read as one minute and fifteen seconds. */
  lemma SeventyFiveSeconds()
    ensures TimeFormat.FormatTime(75) == "1:15"
  {
    assert 75 / 60 == 1 && 75 % 60 == 15;
    assert TimeFormat.DigitChar(1) == '1' && TimeFormat.DigitChar(5) == '5';
    var m := TimeFormat.NatToString(1);
    assert m == "1";
    var k := TimeFormat.NatToString(15);
    assert k == TimeFormat.NatToString(1) + [TimeFormat.DigitChar(5)];
    assert k == "15";
    assert PadStart(k, 2, '0') == "15";
  }

  /** The demo upload: accepted as an upload under its own name, transcribed, then
      scored with exactly the scores that came back; one request of each kind, in order. */
  method DemoRun() returns (requests: seq<Request>, name: string, source: string,
    transcript: string, score: Option<Evaluation>, error: Option<string>)
    ensures requests == [TranscribeRequest(FromFile(DemoFile)), EvaluateRequest(DemoTranscript, DemoTopic)]
    ensures name == "demo.wav" && source == "upload"
    ensures transcript == "Entropy measures disorder."
    ensures score == Some(Evaluation(80, 70, 90, 80, ["Good pacing", "Define terms earlier"]))
    ensures error == None
  {
    var s;
    s, requests := ScoredDemo();
    DemoFileAccepted();
    name, source, transcript, score, error := s.fileName, s.audioSource, s.transcription, s.evaluation, s.error;
  }

  /** A second accepted upload leaves nothing of the first artifact's transcript, score
      or deck. */
  method NoStaleResults() returns (deckBefore: seq<Flashcard>, name: string,
    transcript: string, score: Option<Evaluation>, deck: seq<Flashcard>, showing: bool)
    ensures deckBefore == DemoDeck
    ensures name == "lecture.mp3" && transcript == "" && score == None && deck == [] && !showing
  {
    var s, requests := ScoredDemo();
    ghost var seen: seq<Pending>;
    requests, seen := s.GenerateFlashcards(Ok(DemoDeck));
    deckBefore := s.flashcards;
    LectureFileAccepted();
    s.HandleFileUpload(LectureFile);
    name, transcript, score, deck, showing := s.fileName, s.transcription, s.evaluation, s.flashcards, s.showFlashcards;
  }

  /** An oversized or non-audio file only sets its message; the scored demo stays. */
  method RejectedUploadsKeepSession() returns (sizeError: Option<string>,
    typeError: Option<string>, name: string, transcript: string, score: Option<Evaluation>)
    ensures sizeError == Some("File size exceeds 25MB limit")
    ensures typeError == Some("Please upload an audio file")
    ensures name == "demo.wav" && transcript == DemoTranscript && score == Some(DemoScore)
  {
    var s, requests := ScoredDemo();
    s.HandleFileUpload(AudioFile("big.wav", 26 * 1024 * 1024, "audio/wav"));
    sizeError := s.error;
    var notes := AudioFile("notes.txt", 100, "text/plain");
    assert notes.mimeType[0] != Feynmind.AudioTypePrefix[0];
    s.HandleFileUpload(notes);
    typeError := s.error;
    name, transcript, score := s.fileName, s.transcription, s.evaluation;
  }

  /** A topic of two characters is refused before anything is sent, even with an
      artifact present. */
  method ShortTopicSendsNothing() returns (requests: seq<Request>, error: Option<string>, busy: bool)
    ensures requests == [] && error == Some(Feynmind.TopicTooShortMessage) && !busy
  {
    var s := UploadedDemo();
    s.SetTopic("AB");
    TwoLetterTopicRejected(FromFile(DemoFile));
    ghost var seen: seq<Pending>;
    requests, seen := s.EvaluateExplanation(Ok(DemoTranscript), Ok(DemoScore));
    error, busy := s.error, s.isProcessing;
  }

  /** Recording: the chunks delivered while recording become one artifact in delivery
      order, named as a recording; the first stop acts, a second one does nothing. */
  method RecordChunks(chunks: seq<Chunk>) returns (artifact: Option<Blob>, name: string,
    source: string, first: bool, second: bool)
    ensures artifact == Some(FromChunks(chunks, RecordedMimeType))
    ensures name == "Recorded Audio" && source == "recording"
    ensures first && !second
  {
    var s := new Feynmind.Session();
    s.StartRecording(Ok(()));
    var i := 0;
    while i < |chunks|
      invariant 0 <= i <= |chunks|
      invariant s.Valid() && s.isRecording && s.hasRecorder
      invariant s.audioChunks == chunks[..i]
    {
      s.OnDataAvailable(chunks[i]);
      assert chunks[..i + 1] == chunks[..i] + [chunks[i]];
      i := i + 1;
    }
    assert chunks[..i] == chunks;
    first := s.StopRecording();
    s.OnRecorderStop();
    second := s.StopRecording();
    artifact, name, source := s.audioBlob, s.fileName, s.audioSource;
  }

  /** A refused microphone still resets the session: the scored demo is gone and only the
      permission message shows. */
  method RefusedMicrophoneResets() returns (artifact: Option<Blob>, transcript: string,
    score: Option<Evaluation>, recording: bool, error: Option<string>)
    ensures artifact == None && transcript == "" && score == None && !recording
    ensures error == Some(Feynmind.MicrophoneMessage)
  {
    var s, requests := ScoredDemo();
    s.StartRecording(Err("NotAllowedError"));
    artifact, transcript, score, recording, error := s.audioBlob, s.transcription, s.evaluation, s.isRecording, s.error;
  }

  /** Browsing a two-card deck: back from the first card stays put, forward moves one
      card and shows the front, forward from the last card stays put. */
  method BrowseDeck() returns (afterPrevious: int, afterNext: int, flipped: bool, afterLast: int, size: nat)
    ensures afterPrevious == 0 && afterNext == 1 && !flipped && afterLast == 1 && size == 2
  {
    var s, requests := ScoredDemo();
    ghost var seen: seq<Pending>;
    requests, seen := s.GenerateFlashcards(Ok(DemoDeck));
    s.PreviousCard();
    afterPrevious := s.currentCardIndex;
    s.FlipCard();
    s.NextCard();
    afterNext, flipped := s.currentCardIndex, s.isFlipped;
    s.NextCard();
    afterLast, size := s.currentCardIndex, |s.flashcards|;
  }

  /** A failed deck request keeps the previous deck and cursor and shows its message. The
      deck is closed first, since the generate button only shows while it is hidden. */
  method FailedDeckKeepsDeck() returns (deck: seq<Flashcard>, index: int, error: Option<string>, busy: bool)
    ensures deck == DemoDeck && index == 1
    ensures error == Some(Feynmind.FlashcardsFailedMessage) && !busy
  {
    var s, requests := ScoredDemo();
    ghost var seen: seq<Pending>;
    requests, seen := s.GenerateFlashcards(Ok(DemoDeck));
    s.NextCard();
    s.CloseFlashcards();
    requests, seen := s.GenerateFlashcards(Err("500"));
    deck, index, error, busy := s.flashcards, s.currentCardIndex, s.error, s.isGeneratingCards;
  }

  /** The playback element outlives a reset: after a new upload the play button still
      plays the first artifact, and an upload during playback leaves the playing flag set,
      so the next click only pauses. */
  method PlaybackOutlivesReset() returns (first: Feynmind.Playback, stale: Feynmind.Playback,
    playingAfterUpload: bool, click: Feynmind.Playback)
    ensures first == Feynmind.Playing(FromFile(DemoFile))
    ensures stale == Feynmind.Playing(FromFile(DemoFile))
    ensures playingAfterUpload && click == Feynmind.Paused
  {
    var s, requests := ScoredDemo();
    first := s.PlayRecording();
    var pause := s.PlayRecording();
    LectureFileAccepted();
    s.HandleFileUpload(LectureFile);
    stale := s.PlayRecording();
    s.HandleFileUpload(LectureFile);
    playingAfterUpload := s.isPlaying;
    click := s.PlayRecording();
  }

  /** The duration shown for a 75-second upload. */
  method ShownDuration() returns (clock: string)
    ensures clock == "1:15"
  {
    var s := UploadedDemo();
    s.OnMetadataLoaded(75);
    SeventyFiveSeconds();
    clock := TimeFormat.FormatTime(s.audioDuration);
  }

  /** The simpler component sends a topic of spaces, stores the transcript when scoring
      fails, and keeps that transcript when another file is uploaded. */
  method SnapchefStory() returns (requests: seq<Request>, error: Option<string>,
    transcriptAfterUpload: string, scoreAfterUpload: Option<Evaluation>, artifact: Option<Blob>)
    ensures requests == [TranscribeRequest(FromFile(DemoFile)), EvaluateRequest(DemoTranscript, "   ")]
    ensures error == Some(Groq.EvaluateFailedMessage)
    ensures transcriptAfterUpload == DemoTranscript && scoreAfterUpload == None
    ensures artifact == Some(FromFile(LectureFile))
  {
    var s := new Snapchef.Session();
    s.HandleFileUpload(DemoFile);
    s.SetTopic("   ");
    ghost var seen: seq<Pending>;
    requests, seen := s.EvaluateExplanation(Ok(DemoTranscript), Err("Internal Server Error"));
    error := s.error;
    s.HandleFileUpload(LectureFile);
    transcriptAfterUpload, scoreAfterUpload, artifact := s.transcription, s.evaluation, s.audioBlob;
  }

  /** In the simpler component, starting a recording keeps the previously uploaded
      artifact: nothing is reset. */
  method SnapchefRecordKeepsArtifact() returns (artifact: Option<Blob>, recording: bool)
    ensures artifact == Some(FromFile(DemoFile)) && recording
  {
    var s := new Snapchef.Session();
    s.HandleFileUpload(DemoFile);
    s.StartRecording(Ok(()));
    artifact, recording := s.audioBlob, s.isRecording;
  }
}
