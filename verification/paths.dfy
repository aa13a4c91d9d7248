/** Filesystem paths as sequences of components, and the fixed layout of a
    session's directory under the application data directory. */
module Paths {

  type Path = seq<string>

  /** A component that `Path::join` treats as absolute (it replaces the base). */
  predicate IsAbsolute(component: string)
  {
    |component| > 0 && component[0] == '/'
  }

  /** `base.join(component)`: appends the component, unless it is absolute,
      in which case the result is that component alone. */
  function Join(base: Path, component: string): (p: Path)
    ensures |p| >= 1 && p[|p| - 1] == component
    ensures !IsAbsolute(component) ==> p[..|p| - 1] == base
    ensures IsAbsolute(component) ==> |p| == 1
  {
    if IsAbsolute(component) then [component] else base + [component]
  }

  /** Everything but the last component. */
  function Parent(p: Path): Path
    requires |p| >= 1
  {
    p[..|p| - 1]
  }

  function FileName(p: Path): string
    requires |p| >= 1
  {
    p[|p| - 1]
  }

  const AudioName := "audio.wav"
  const TranscriptionName := "transcription.json"
  const DiarizationName := "diarization.json"
  const WhisperModelName := "models/whisper/base.en.ggml"
  const DiarizationModelName := "models/pyannote/speaker_diarization.onnx"

  /** `data_dir.join(session_id)` */
  function SessionDir(dataDir: Path, sessionId: string): Path
  {
    Join(dataDir, sessionId)
  }

  datatype SessionPaths = SessionPaths(audio: Path, transcription: Path, diarization: Path)

  /** The three paths the command derives from the data directory and the
      session id: all in the session's directory, under their fixed names,
      and pairwise distinct (so the two writes never clobber each other or
      the audio). */
  function ArtifactPaths(dataDir: Path, sessionId: string): (paths: SessionPaths)
    ensures |paths.audio| >= 1 && |paths.transcription| >= 1 && |paths.diarization| >= 1
    ensures Parent(paths.audio) == SessionDir(dataDir, sessionId)
    ensures Parent(paths.transcription) == SessionDir(dataDir, sessionId)
    ensures Parent(paths.diarization) == SessionDir(dataDir, sessionId)
    ensures FileName(paths.audio) == "audio.wav"
    ensures FileName(paths.transcription) == "transcription.json"
    ensures FileName(paths.diarization) == "diarization.json"
    ensures paths.audio != paths.transcription && paths.audio != paths.diarization
    ensures paths.transcription != paths.diarization
  {
    var dir := SessionDir(dataDir, sessionId);
    SessionPaths(Join(dir, AudioName), Join(dir, TranscriptionName), Join(dir, DiarizationName))
  }

  /** The local acoustic model, at a fixed place under the data directory. */
  function WhisperModel(dataDir: Path): (p: Path)
    ensures p == dataDir + ["models/whisper/base.en.ggml"]
  {
    Join(dataDir, WhisperModelName)
  }

  /** The local diarization model, at a fixed place under the data directory. */
  function DiarizationModel(dataDir: Path): (p: Path)
    ensures p == dataDir + ["models/pyannote/speaker_diarization.onnx"]
  {
    Join(dataDir, DiarizationModelName)
  }
}
