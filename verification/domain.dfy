/** Values shared by both evaluator components: the audio artifact, the results the
    remote services send back, and the requests the components send out. */
module Domain {

  datatype Option<T> = None | Some(value: T)

  /** What a remote call or a browser permission request came back with:
      a value, or the message of the error it threw. */
  datatype Outcome<T> = Ok(value: T) | Err(message: string)

  newtype Byte = x: int | 0 <= x < 256

  /** One `dataavailable` payload of the media recorder. */
  type Chunk = seq<Byte>

  /** A file picked in the upload control: its declared name, size in bytes and MIME type. */
  datatype AudioFile = AudioFile(name: string, size: nat, mimeType: string)

  /** The audio artifact a session holds: an uploaded file as it is, or the recorder's
      chunks joined, in arrival order, into one blob of the given type. */
  datatype Blob = FromFile(file: AudioFile) | FromChunks(chunks: seq<Chunk>, mimeType: string)

  /** The parsed scoring object of the chat service; nothing bounds its numbers. */
  datatype Evaluation = Evaluation(
    clarity: int,
    completeness: int,
    organization: int,
    overallScore: int,
    feedback: seq<string>)

  datatype Flashcard = Flashcard(front: string, back: string)

  /** A request a handler sends to a remote service. */
  datatype Request =
    | TranscribeRequest(audio: Blob)
    | EvaluateRequest(transcript: string, topic: string)
    | FlashcardsRequest(transcript: string, topic: string)

  const RecordedMimeType := "audio/wav"
  const UploadSource := "upload"
  const RecordingSource := "recording"

  /** The `audioSource` value that goes with an artifact: empty when there is none. */
  function SourceTag(blob: Option<Blob>): string
  {
    match blob
    case None => ""
    case Some(FromFile(_)) => UploadSource
    case Some(FromChunks(_, _)) => RecordingSource
  }
}
