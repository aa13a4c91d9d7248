/** What one `retranscribe_audio` call does, as a function of the world before
    it: the fallible steps it takes (in order), its result, the files
    afterwards and the session store afterwards. Every `?` in the command is an
    early return, so a run takes a prefix of a fixed plan of steps and stops at
    the first one that fails. Foreign calls (model loading, inference, the
    cloud request, WAV decoding, JSON encoding, file writes, database calls)
    are answered by the `Services` oracle. */
module Retranscription {
  import opened Wrappers
  import opened Paths
  import opened Normalize
  import opened Seqs

  newtype byte = x: int | 0 <= x < 256

  type Bytes = seq<byte>

  type Files = map<Path, Bytes>

  const AudioMissing := "Audio file does not exist"

  /** The message of `std::fs::read` on a missing file (Linux). */
  const NotFound := "No such file or directory (os error 2)"

  /** The session record: only `language` is read and only the two artifact
      paths are written by the command. */
  datatype Session = Session(id: string, language: string, transcription: Option<Path>, diarization: Option<Path>)

  datatype Audio<S> = Audio(samples: seq<S>, sampleRate: nat)

  /** The pair of lists persisted as `transcription.json` and
      `diarization.json`; the cloud backend returns it as is. */
  datatype Canonical<T, C> = Canonical(transcription: seq<Word<T, C>>, diarization: seq<DiarizationSegment<T>>)

  /** A failed `std::fs::write`: its message, and what it left at the path
      (nothing new, or a truncated or partial file). */
  datatype WriteFault = WriteFault(msg: string, residue: Option<Bytes>)

  /** The answers of everything the command calls but does not define. */
  datatype Services<!T, !C, !S> = Services(
    sessionGetFault: Option<string>,                            // session_get failing for a reason other than an unknown id
    unknownSession: string,                                     // session_get's message for an unknown id
    localNew: (Path, Path) -> Outcome,                          // LocalSTTClient::new(whisper, Some(diarization))
    readFault: Option<string>,                                  // std::fs::read failing on an existing file
    readWav: Bytes -> Result<Audio<S>>,                         // wav::read_wav
    localTranscribe: Audio<S> -> Result<seq<Segment<T, C>>>,    // LocalSTTClient::transcribe
    cloudNew: string -> Outcome,                                // DeepgramClient::new(language)
    cloudTranscribe: (string, Path) -> Result<Canonical<T, C>>, // transcribe_file on a client built for a language
    encodeTranscription: seq<Word<T, C>> -> Result<Bytes>,      // serde_json::to_string_pretty
    encodeDiarization: seq<DiarizationSegment<T>> -> Result<Bytes>,
    writeFault: Path -> Option<WriteFault>,                     // std::fs::write
    updateFault: Option<string>)                                // session_update_transcription

  /** The fallible steps of the command, in the terms of its calls. */
  datatype Step =
    | CheckAudio(path: Path)
    | GetSession(id: string)
    | NewLocalClient(whisperModel: Path, diarizationModel: Path)
    | ReadAudio(path: Path)
    | DecodeWav
    | TranscribeLocal
    | NewCloudClient(language: string)
    | TranscribeCloud(path: Path)
    | EncodeTranscription
    | EncodeDiarization
    | WriteFile(path: Path)
    | UpdateSession(id: string, transcription: Path, diarization: Path)

  // ---------------------------------------------------------------------
  // The plan: the steps of a run that fails nowhere
  // ---------------------------------------------------------------------

  /** Every path the command derives from the data directory and the session
      id. */
  datatype Layout = Layout(paths: SessionPaths, whisperModel: Path, diarizationModel: Path)

  /** The two artifact paths differ, and neither model file is any of the
      session's three paths, whatever the session id: the writes never
      overwrite a model, and the audio read never reads one. */
  function LayoutOf(dataDir: Path, sessionId: string): (l: Layout)
    ensures l.paths == ArtifactPaths(dataDir, sessionId)
    ensures l.whisperModel == dataDir + [WhisperModelName]
    ensures l.diarizationModel == dataDir + [DiarizationModelName]
    ensures l.paths.transcription != l.paths.diarization
    ensures l.whisperModel != l.diarizationModel
    ensures l.whisperModel != l.paths.audio && l.whisperModel != l.paths.transcription &&
            l.whisperModel != l.paths.diarization
    ensures l.diarizationModel != l.paths.audio && l.diarizationModel != l.paths.transcription &&
            l.diarizationModel != l.paths.diarization
  {
    Layout(ArtifactPaths(dataDir, sessionId), WhisperModel(dataDir), DiarizationModel(dataDir))
  }

  function LocalPlan(l: Layout): seq<Step>
  {
    [NewLocalClient(l.whisperModel, l.diarizationModel), ReadAudio(l.paths.audio), DecodeWav, TranscribeLocal]
  }

  function CloudPlan(language: string, audio: Path): seq<Step>
  {
    [NewCloudClient(language), TranscribeCloud(audio)]
  }

  function BackendPlan(useLocal: bool, l: Layout, language: string): seq<Step>
  {
    if useLocal then LocalPlan(l) else CloudPlan(language, l.paths.audio)
  }

  function PersistPlan(transcription: Path, diarization: Path): seq<Step>
  {
    [EncodeTranscription, WriteFile(transcription), EncodeDiarization, WriteFile(diarization)]
  }

  /** The steps after the backend: the two writes, then the session update. */
  function FinishPlan(sessionId: string, transcription: Path, diarization: Path): seq<Step>
  {
    PersistPlan(transcription, diarization) + [UpdateSession(sessionId, transcription, diarization)]
  }

  /** The steps after the session lookup. */
  function ProceedPlan(useLocal: bool, l: Layout, sessionId: string, language: string): seq<Step>
  {
    BackendPlan(useLocal, l, language) + FinishPlan(sessionId, l.paths.transcription, l.paths.diarization)
  }

  function Plan(useLocal: bool, l: Layout, sessionId: string, language: string): seq<Step>
  {
    [CheckAudio(l.paths.audio), GetSession(sessionId)] + ProceedPlan(useLocal, l, sessionId, language)
  }

  /** The audio check comes first and the session update last; the session
      is looked up before any backend is built. The local branch builds its
      client from the two fixed model paths and never builds a cloud client
      (so the session language plays no part in it); the cloud branch builds
      its client with the session language and never builds a local one. */
  lemma PlanShape(useLocal: bool, l: Layout, sessionId: string, language: string)
    ensures var paths := l.paths;
      var plan := Plan(useLocal, l, sessionId, language);
      |plan| >= 3 && plan[0] == CheckAudio(paths.audio) && plan[1] == GetSession(sessionId) &&
      plan[|plan| - 1] == UpdateSession(sessionId, paths.transcription, paths.diarization) &&
      (useLocal ==> plan[2] == NewLocalClient(l.whisperModel, l.diarizationModel) &&
                    forall lang :: NewCloudClient(lang) !in plan) &&
      (!useLocal ==> plan[2] == NewCloudClient(language) &&
                     forall w, d :: NewLocalClient(w, d) !in plan)
  {
  }

  /** Where the writes and the session update sit in the plan, with `n` the
      number of backend steps: a prefix of the plan holds each of them exactly
      when it is long enough to reach its position. */
  lemma PlanPositions(useLocal: bool, l: Layout, sessionId: string, language: string, k: nat)
    requires k <= |Plan(useLocal, l, sessionId, language)|
    requires l.paths.transcription != l.paths.diarization
    ensures var paths := l.paths;
      var n := |BackendPlan(useLocal, l, language)|;
      var t := Plan(useLocal, l, sessionId, language)[..k];
      |Plan(useLocal, l, sessionId, language)| == n + 7 &&
      (WriteFile(paths.transcription) in t <==> k > n + 3) &&
      (WriteFile(paths.diarization) in t <==> k > n + 5) &&
      (UpdateSession(sessionId, paths.transcription, paths.diarization) in t <==> k > n + 6)
  {
    var tp, dp := l.paths.transcription, l.paths.diarization;
    var b := BackendPlan(useLocal, l, language);
    var front := [CheckAudio(l.paths.audio), GetSession(sessionId)] + b;
    var back := FinishPlan(sessionId, tp, dp);
    assert Plan(useLocal, l, sessionId, language) == front + back;
    assert forall x :: x in front ==> !x.WriteFile? && !x.UpdateSession?;
    OnlyAt(front, back, WriteFile(tp), 1, k);
    OnlyAt(front, back, WriteFile(dp), 3, k);
    OnlyAt(front, back, UpdateSession(sessionId, tp, dp), 4, k);
  }

  /** Every occurrence of `b` in `t` is preceded by an occurrence of `a`. */
  ghost predicate Before(t: seq<Step>, a: Step, b: Step)
  {
    forall j :: 0 <= j < |t| && t[j] == b ==> a in t[..j]
  }

  /** In every prefix of the plan, transcription.json is written before
      diarization.json, and diarization.json before the session is updated. */
  lemma PlanWriteOrder(useLocal: bool, l: Layout, sessionId: string, language: string, k: nat)
    requires k <= |Plan(useLocal, l, sessionId, language)|
    requires l.paths.transcription != l.paths.diarization
    ensures var paths := l.paths;
      var t := Plan(useLocal, l, sessionId, language)[..k];
      Before(t, WriteFile(paths.transcription), WriteFile(paths.diarization)) &&
      Before(t, WriteFile(paths.diarization), UpdateSession(sessionId, paths.transcription, paths.diarization))
  {
    var paths := l.paths;
    var t := Plan(useLocal, l, sessionId, language)[..k];
    forall j | 0 <= j < |t| && t[j] == WriteFile(paths.diarization)
      ensures WriteFile(paths.transcription) in t[..j]
    {
      PlanPositions(useLocal, l, sessionId, language, j + 1);
      PlanPositions(useLocal, l, sessionId, language, j);
      assert t[..j + 1] == Plan(useLocal, l, sessionId, language)[..j + 1];
      assert t[..j] == Plan(useLocal, l, sessionId, language)[..j];
      assert WriteFile(paths.diarization) in t[..j + 1];
    }
    forall j | 0 <= j < |t| && t[j] == UpdateSession(sessionId, paths.transcription, paths.diarization)
      ensures WriteFile(paths.diarization) in t[..j]
    {
      PlanPositions(useLocal, l, sessionId, language, j + 1);
      PlanPositions(useLocal, l, sessionId, language, j);
      assert t[..j + 1] == Plan(useLocal, l, sessionId, language)[..j + 1];
      assert t[..j] == Plan(useLocal, l, sessionId, language)[..j];
      assert UpdateSession(sessionId, paths.transcription, paths.diarization) in t[..j + 1];
    }
  }

  // ---------------------------------------------------------------------
  // The world's answers
  // ---------------------------------------------------------------------

  function Lookup(files: Files, p: Path): Option<Bytes>
  {
    if p in files then Some(files[p]) else None
  }

  /** `state.db.session_get(&session_id)` */
  function GetSessionResult<T, C, S>(svc: Services<T, C, S>, sessions: map<string, Session>, sessionId: string): (r: Result<Session>)
    ensures r.Ok? ==> sessionId in sessions && r.value == sessions[sessionId]
    ensures sessionId !in sessions ==> r.Err?
  {
    match svc.sessionGetFault
    case Some(msg) => Err(msg)
    case None => if sessionId in sessions then Ok(sessions[sessionId]) else Err(svc.unknownSession)
  }

  /** `std::fs::read(&audio_path)` */
  function ReadResult(files: Files, p: Path, fault: Option<string>): (r: Result<Bytes>)
    ensures r.Ok? ==> Lookup(files, p) == Some(r.value)
    ensures p !in files ==> r.Err?
  {
    match fault
    case Some(msg) => Err(msg)
    case None => if p in files then Ok(files[p]) else Err(NotFound)
  }

  /** `std::fs::write(path, bytes)`: in place, without staging, so a failure
      may leave a residue at the path; it touches nothing else. */
  function WriteResult(files: Files, p: Path, bytes: Bytes, fault: Option<WriteFault>): (r: (Outcome, Files))
    ensures r.0.Pass? <==> fault.None?
    ensures r.0.Pass? ==> Lookup(r.1, p) == Some(bytes)
    ensures r.0.Fail? ==> Lookup(r.1, p) == Lookup(files, p) || Lookup(r.1, p) == fault.value.residue
    ensures Lookup(files, p).Some? ==> Lookup(r.1, p).Some?  // a write never deletes
    ensures forall q :: q != p ==> Lookup(r.1, q) == Lookup(files, q)
  {
    match fault
    case None => (Pass, files[p := bytes])
    case Some(WriteFault(msg, residue)) =>
      (Fail(msg), if residue.Some? then files[p := residue.value] else files)
  }

  // ---------------------------------------------------------------------
  // The stages of a run
  // ---------------------------------------------------------------------

  /** How many steps of its plan a stage took (it stops at the first that
      fails), and what it produced or why it stopped. */
  datatype Stage<X> = Stage(taken: nat, out: Result<X>)

  function Normalized<T, C>(segs: seq<Segment<T, C>>): Canonical<T, C>
  {
    Canonical(Transcription(segs), Diarization(segs))
  }

  /** The local branch: build the client from the fixed model files, read and
      decode the audio, transcribe it, normalize the segments. It has no
      language input: the session language plays no part in it. */
  function LocalBackend<T, C, S>(svc: Services<T, C, S>, l: Layout, files: Files): (st: Stage<Canonical<T, C>>)
    ensures 1 <= st.taken <= 4 && (st.out.Ok? ==> st.taken == 4)
    // success means: the client was built, the audio file's bytes were read
    // without a fault, decoded and transcribed, and the segments normalized
    ensures st.out.Ok? <==>
      svc.localNew(l.whisperModel, l.diarizationModel).Pass? && svc.readFault.None? &&
      l.paths.audio in files && svc.readWav(files[l.paths.audio]).Ok? &&
      svc.localTranscribe(svc.readWav(files[l.paths.audio]).value).Ok?
    ensures st.out.Ok? ==>
      st.out.value == Normalized(svc.localTranscribe(svc.readWav(files[l.paths.audio]).value).value)
    // each failure stops the branch at its own step, with its own message
    ensures svc.localNew(l.whisperModel, l.diarizationModel).Fail? ==>
      st == Stage(1, Err(svc.localNew(l.whisperModel, l.diarizationModel).msg))
    ensures svc.localNew(l.whisperModel, l.diarizationModel).Pass? && svc.readFault.Some? ==>
      st == Stage(2, Err(svc.readFault.value))
    ensures svc.localNew(l.whisperModel, l.diarizationModel).Pass? && l.paths.audio !in files ==>
      st == Stage(2, Err(if svc.readFault.Some? then svc.readFault.value else NotFound))
    ensures svc.localNew(l.whisperModel, l.diarizationModel).Pass? && svc.readFault.None? &&
            l.paths.audio in files && svc.readWav(files[l.paths.audio]).Err? ==>
      st == Stage(3, Err(svc.readWav(files[l.paths.audio]).msg))
    ensures svc.localNew(l.whisperModel, l.diarizationModel).Pass? && svc.readFault.None? &&
            l.paths.audio in files && svc.readWav(files[l.paths.audio]).Ok? &&
            svc.localTranscribe(svc.readWav(files[l.paths.audio]).value).Err? ==>
      st == Stage(4, Err(svc.localTranscribe(svc.readWav(files[l.paths.audio]).value).msg))
  {
    match svc.localNew(l.whisperModel, l.diarizationModel)
    case Fail(msg) => Stage(1, Err(msg))
    case Pass =>
      var data := ReadResult(files, l.paths.audio, svc.readFault);
      if data.Err? then Stage(2, Err(data.msg))
      else
        var decoded := svc.readWav(data.value);
        if decoded.Err? then Stage(3, Err(decoded.msg))
        else
          var segments := svc.localTranscribe(decoded.value);
          if segments.Err? then Stage(4, Err(segments.msg))
          else Stage(4, Ok(Normalized(segments.value)))
  }

  /** The cloud branch: build the client for the session language, send the
      audio file; its result is already in canonical form. */
  function CloudBackend<T, C, S>(svc: Services<T, C, S>, language: string, audio: Path): (st: Stage<Canonical<T, C>>)
    ensures 1 <= st.taken <= 2 && (st.out.Ok? ==> st.taken == 2)
    ensures st.out.Ok? <==> svc.cloudNew(language).Pass? && svc.cloudTranscribe(language, audio).Ok?
    ensures st.out.Ok? ==> st.out == svc.cloudTranscribe(language, audio)
    ensures svc.cloudNew(language).Fail? ==> st == Stage(1, Err(svc.cloudNew(language).msg))
    ensures svc.cloudNew(language).Pass? ==> st == Stage(2, svc.cloudTranscribe(language, audio))
  {
    match svc.cloudNew(language)
    case Fail(msg) => Stage(1, Err(msg))
    case Pass => Stage(2, svc.cloudTranscribe(language, audio))
  }

  /** The backend `use_local` selects. */
  function Backend<T, C, S>(useLocal: bool, svc: Services<T, C, S>, l: Layout, files: Files, language: string): (st: Stage<Canonical<T, C>>)
    ensures var n := |BackendPlan(useLocal, l, language)|;
      1 <= st.taken <= n && (st.out.Ok? ==> st.taken == n)
  {
    if useLocal then LocalBackend(svc, l, files) else CloudBackend(svc, language, l.paths.audio)
  }

  /** What the persisting stage did. */
  datatype Persisted = Persisted(taken: nat, out: Outcome, files: Files)

  /** Encode and write transcription.json, then encode and write
      diarization.json. Nothing outside the two paths changes; nothing is
      written after a step has failed; a failure of the second write leaves
      the first file as written (no rollback); success leaves both files
      holding the encodings. */
  function Persist<T, C, S>(svc: Services<T, C, S>, files: Files, tp: Path, dp: Path, c: Canonical<T, C>): (ps: Persisted)
    requires tp != dp
    ensures 1 <= ps.taken <= 4 && (ps.out.Pass? ==> ps.taken == 4)
    ensures forall q :: q != tp && q != dp ==> Lookup(ps.files, q) == Lookup(files, q)
    ensures ps.taken < 2 ==> ps.files == files
    ensures ps.taken < 4 ==> Lookup(ps.files, dp) == Lookup(files, dp)
    ensures ps.taken == 4 ==>
      svc.encodeTranscription(c.transcription).Ok? &&
      Lookup(ps.files, tp) == Some(svc.encodeTranscription(c.transcription).value)
    ensures ps.out.Pass? ==>
      svc.encodeDiarization(c.diarization).Ok? &&
      Lookup(ps.files, dp) == Some(svc.encodeDiarization(c.diarization).value)
    // the stage passes exactly when both encodings and both writes succeed
    ensures ps.out.Pass? <==>
      svc.encodeTranscription(c.transcription).Ok? && svc.writeFault(tp).None? &&
      svc.encodeDiarization(c.diarization).Ok? && svc.writeFault(dp).None?
    // and a failure is reported with the message of the step that failed
    ensures svc.encodeTranscription(c.transcription).Err? ==>
      ps.taken == 1 && ps.out == Fail(svc.encodeTranscription(c.transcription).msg)
    ensures svc.encodeTranscription(c.transcription).Ok? && svc.writeFault(tp).Some? ==>
      ps.taken == 2 && ps.out == Fail(svc.writeFault(tp).value.msg)
    ensures ps.taken >= 3 && svc.encodeDiarization(c.diarization).Err? ==>
      ps.taken == 3 && ps.out == Fail(svc.encodeDiarization(c.diarization).msg)
    ensures ps.taken == 4 && svc.writeFault(dp).Some? ==>
      ps.out == Fail(svc.writeFault(dp).value.msg)
    // once the first write passed, the stage goes on to the second encoding,
    // and once that passed, to the second write
    ensures svc.encodeTranscription(c.transcription).Ok? && svc.writeFault(tp).None? ==> ps.taken >= 3
    ensures svc.encodeTranscription(c.transcription).Ok? && svc.writeFault(tp).None? &&
            svc.encodeDiarization(c.diarization).Ok? ==>
      ps.taken == 4
  {
    var t := svc.encodeTranscription(c.transcription);
    if t.Err? then Persisted(1, Fail(t.msg), files)
    else
      var (first, files1) := WriteResult(files, tp, t.value, svc.writeFault(tp));
      if first.Fail? then Persisted(2, first, files1)
      else
        var d := svc.encodeDiarization(c.diarization);
        if d.Err? then Persisted(3, Fail(d.msg), files1)
        else
          var (second, files2) := WriteResult(files1, dp, d.value, svc.writeFault(dp));
          Persisted(4, second, files2)
  }

  // ---------------------------------------------------------------------
  // A whole run
  // ---------------------------------------------------------------------

  /** The outcome of a run, how many steps of its plan it reached, and the
      files and session store it leaves. */
  datatype Run = Run(result: Result<()>, reached: nat, files: Files, sessions: map<string, Session>)

  /** The language of the stored session. For an unknown id it is `""`; a
      run on an unknown id stops at the lookup, before any step that uses
      the language, so that value never reaches a backend. */
  function LanguageOf(sessions: map<string, Session>, sessionId: string): string
  {
    if sessionId in sessions then sessions[sessionId].language else ""
  }

  function WithArtifacts(s: Session, tp: Path, dp: Path): Session
  {
    s.(transcription := Some(tp), diarization := Some(dp))
  }

  /** The plan of a run on `sessionId` from the session store `sessions`. */
  function PlanFor(useLocal: bool, l: Layout, sessions: map<string, Session>, sessionId: string): seq<Step>
  {
    Plan(useLocal, l, sessionId, LanguageOf(sessions, sessionId))
  }

  /** The steps after the backend produced `c` (`FinishPlan`): write both
      artifacts, then point the session at them. */
  function Finish<T, C, S>(l: Layout, files: Files, sessions: map<string, Session>, sessionId: string, session: Session, c: Canonical<T, C>, svc: Services<T, C, S>): (run: Run)
    requires l.paths.transcription != l.paths.diarization
    ensures 1 <= run.reached <= 5 && (run.result.Ok? ==> run.reached == 5)
    ensures run.result.Err? ==> run.sessions == sessions
    // success needs both writes and the update to succeed
    ensures var ps := Persist(svc, files, l.paths.transcription, l.paths.diarization, c);
      run.result.Ok? <==> ps.out.Pass? && svc.updateFault.None?
    // a failed write is returned, and the update is not reached
    ensures var ps := Persist(svc, files, l.paths.transcription, l.paths.diarization, c);
      ps.out.Fail? ==> run.result == Err(ps.out.msg) && run.reached == ps.taken && run.reached < 5
    // a failed update is returned, after both files were written
    ensures var ps := Persist(svc, files, l.paths.transcription, l.paths.diarization, c);
      ps.out.Pass? && svc.updateFault.Some? ==> run.result == Err(svc.updateFault.value) && run.reached == 5
  {
    var ps := Persist(svc, files, l.paths.transcription, l.paths.diarization, c);
    if ps.out.Fail? then Run(Err(ps.out.msg), ps.taken, ps.files, sessions)
    else
      match svc.updateFault
      case Some(msg) => Run(Err(msg), 5, ps.files, sessions)
      case None =>
        Run(Ok(()), 5, ps.files, sessions[sessionId := WithArtifacts(session, l.paths.transcription, l.paths.diarization)])
  }

  /** The steps after the session was found (`ProceedPlan`): run the chosen
      backend, then `Finish`. */
  function Proceed<T, C, S>(l: Layout, files: Files, sessions: map<string, Session>, sessionId: string, session: Session, useLocal: bool, svc: Services<T, C, S>): (run: Run)
    requires l.paths.transcription != l.paths.diarization
    ensures var plan := ProceedPlan(useLocal, l, sessionId, session.language);
      1 <= run.reached <= |plan| && (run.result.Ok? ==> run.reached == |plan|)
    ensures run.result.Err? ==> run.sessions == sessions
    // success needs the backend, both writes and the update to succeed
    ensures var b := Backend(useLocal, svc, l, files, session.language);
      run.result.Ok? <==>
        b.out.Ok? && svc.updateFault.None? &&
        Persist(svc, files, l.paths.transcription, l.paths.diarization, b.out.value).out.Pass?
    // a failed backend is returned as is; otherwise the call goes on to Finish
    ensures var b := Backend(useLocal, svc, l, files, session.language);
      b.out.Err? ==> run == Run(Err(b.out.msg), b.taken, files, sessions)
    ensures var b := Backend(useLocal, svc, l, files, session.language);
      b.out.Ok? ==>
        var f := Finish(l, files, sessions, sessionId, session, b.out.value, svc);
        run.result == f.result && run.reached == b.taken + f.reached &&
        run.files == f.files && run.sessions == f.sessions
  {
    var b := Backend(useLocal, svc, l, files, session.language);
    if b.out.Err? then Run(Err(b.out.msg), b.taken, files, sessions)
    else
      var f := Finish(l, files, sessions, sessionId, session, b.out.value, svc);
      f.(reached := b.taken + f.reached)
  }

  /** One call of the command, with the paths of `l`, from the world (`files`,
      `sessions`) it finds: it stops at the first step that fails, and
      succeeds only by reaching the end of its plan. */
  function Retranscribe<T, C, S>(l: Layout, files: Files, sessions: map<string, Session>, sessionId: string, useLocal: bool, svc: Services<T, C, S>): (run: Run)
    requires l.paths.transcription != l.paths.diarization
    ensures var plan := PlanFor(useLocal, l, sessions, sessionId);
      1 <= run.reached <= |plan| && (run.result.Ok? ==> run.reached == |plan|)
    ensures run.result.Err? ==> run.sessions == sessions
    // success needs the audio file, the session, the backend, both writes
    // and the update: any failing step ends the call with an error
    ensures var b := Produced(l, files, sessions, sessionId, useLocal, svc);
      run.result.Ok? <==>
        l.paths.audio in files && GetSessionResult(svc, sessions, sessionId).Ok? &&
        b.out.Ok? && svc.updateFault.None? &&
        Persist(svc, files, l.paths.transcription, l.paths.diarization, b.out.value).out.Pass?
  {
    if l.paths.audio !in files then Run(Err(AudioMissing), 1, files, sessions)
    else
      var got := GetSessionResult(svc, sessions, sessionId);
      if got.Err? then Run(Err(got.msg), 2, files, sessions)
      else
        var p := Proceed(l, files, sessions, sessionId, got.value, useLocal, svc);
        p.(reached := 2 + p.reached)
  }

  /** The steps a run took. */
  function Taken(l: Layout, sessions: map<string, Session>, sessionId: string, useLocal: bool, run: Run): seq<Step>
    requires run.reached <= |PlanFor(useLocal, l, sessions, sessionId)|
  {
    PlanFor(useLocal, l, sessions, sessionId)[..run.reached]
  }

  /** A run that finds the audio file and the session proceeds with that
      session after the first two steps of its plan. */
  lemma RetranscribeProceeds<T, C, S>(l: Layout, files: Files, sessions: map<string, Session>, sessionId: string, useLocal: bool, svc: Services<T, C, S>)
    requires l.paths.transcription != l.paths.diarization
    requires l.paths.audio in files && GetSessionResult(svc, sessions, sessionId).Ok?
    ensures var run := Retranscribe(l, files, sessions, sessionId, useLocal, svc);
      var session := GetSessionResult(svc, sessions, sessionId).value;
      var p := Proceed(l, files, sessions, sessionId, session, useLocal, svc);
      run == p.(reached := 2 + p.reached) &&
      Taken(l, sessions, sessionId, useLocal, run) ==
        [CheckAudio(l.paths.audio), GetSession(sessionId)] + ProceedPlan(useLocal, l, sessionId, session.language)[..p.reached]
  {
  }

  /** A run that does not find the session stops after the lookup. */
  lemma RetranscribeUnknownSession<T, C, S>(l: Layout, files: Files, sessions: map<string, Session>, sessionId: string, useLocal: bool, svc: Services<T, C, S>)
    requires l.paths.transcription != l.paths.diarization
    requires l.paths.audio in files && GetSessionResult(svc, sessions, sessionId).Err?
    ensures var run := Retranscribe(l, files, sessions, sessionId, useLocal, svc);
      run == Run(Err(GetSessionResult(svc, sessions, sessionId).msg), 2, files, sessions) &&
      Taken(l, sessions, sessionId, useLocal, run) == [CheckAudio(l.paths.audio), GetSession(sessionId)]
  {
  }

  /** What the chosen backend produces from the world a run starts in (the
      language is that of the stored session). */
  function Produced<T, C, S>(l: Layout, files: Files, sessions: map<string, Session>, sessionId: string, useLocal: bool, svc: Services<T, C, S>): Stage<Canonical<T, C>>
  {
    Backend(useLocal, svc, l, files, LanguageOf(sessions, sessionId))
  }

  /** A missing audio file is reported with its fixed message, before the
      session store is contacted, any backend is built or any file written. */
  lemma AudioGuard<T, C, S>(l: Layout, files: Files, sessions: map<string, Session>, sessionId: string, useLocal: bool, svc: Services<T, C, S>)
    requires l.paths.transcription != l.paths.diarization
    requires l.paths.audio !in files
    ensures var run := Retranscribe(l, files, sessions, sessionId, useLocal, svc);
      run.result == Err(AudioMissing) && run.files == files && run.sessions == sessions &&
      Taken(l, sessions, sessionId, useLocal, run) == [CheckAudio(l.paths.audio)]
  {
  }

  /** A run changes no file but the two artifacts, and changes no file at all
      before it writes transcription.json. */
  lemma RunFrame<T, C, S>(l: Layout, files: Files, sessions: map<string, Session>, sessionId: string, useLocal: bool, svc: Services<T, C, S>)
    requires l.paths.transcription != l.paths.diarization
    ensures var run := Retranscribe(l, files, sessions, sessionId, useLocal, svc);
      (forall q :: q != l.paths.transcription && q != l.paths.diarization ==> Lookup(run.files, q) == Lookup(files, q)) &&
      (WriteFile(l.paths.transcription) !in Taken(l, sessions, sessionId, useLocal, run) ==> run.files == files)
  {
    var run := Retranscribe(l, files, sessions, sessionId, useLocal, svc);
    PlanPositions(useLocal, l, sessionId, LanguageOf(sessions, sessionId), run.reached);
  }

  /** In every run, transcription.json is written before diarization.json is,
      and diarization.json before the session is updated. */
  lemma RunWriteOrder<T, C, S>(l: Layout, files: Files, sessions: map<string, Session>, sessionId: string, useLocal: bool, svc: Services<T, C, S>)
    requires l.paths.transcription != l.paths.diarization
    ensures var run := Retranscribe(l, files, sessions, sessionId, useLocal, svc);
      var t := Taken(l, sessions, sessionId, useLocal, run);
      Before(t, WriteFile(l.paths.transcription), WriteFile(l.paths.diarization)) &&
      Before(t, WriteFile(l.paths.diarization), UpdateSession(sessionId, l.paths.transcription, l.paths.diarization))
  {
    var run := Retranscribe(l, files, sessions, sessionId, useLocal, svc);
    PlanWriteOrder(useLocal, l, sessionId, LanguageOf(sessions, sessionId), run.reached);
  }

  /** A failure to build the client or to transcribe is reported as is, before
      any file is written and without touching the session store. */
  lemma BackendFailureWritesNothing<T, C, S>(l: Layout, files: Files, sessions: map<string, Session>, sessionId: string, useLocal: bool, svc: Services<T, C, S>)
    requires l.paths.transcription != l.paths.diarization
    requires l.paths.audio in files
    requires GetSessionResult(svc, sessions, sessionId).Ok?
    requires Produced(l, files, sessions, sessionId, useLocal, svc).out.Err?
    ensures var run := Retranscribe(l, files, sessions, sessionId, useLocal, svc);
      run.result == Err(Produced(l, files, sessions, sessionId, useLocal, svc).out.msg) &&
      run.files == files && run.sessions == sessions &&
      forall p :: WriteFile(p) !in Taken(l, sessions, sessionId, useLocal, run)
  {
  }

  /** Once diarization.json has been written to (whether or not that write
      succeeded), transcription.json holds the encoded transcription: a
      failed second write does not roll back the first. */
  lemma NoRollback<T, C, S>(l: Layout, files: Files, sessions: map<string, Session>, sessionId: string, useLocal: bool, svc: Services<T, C, S>)
    requires l.paths.transcription != l.paths.diarization
    ensures var run := Retranscribe(l, files, sessions, sessionId, useLocal, svc);
      var b := Produced(l, files, sessions, sessionId, useLocal, svc);
      WriteFile(l.paths.diarization) in Taken(l, sessions, sessionId, useLocal, run) ==>
        b.out.Ok? && svc.encodeTranscription(b.out.value.transcription).Ok? &&
        Lookup(run.files, l.paths.transcription) == Some(svc.encodeTranscription(b.out.value.transcription).value)
  {
    var run := Retranscribe(l, files, sessions, sessionId, useLocal, svc);
    PlanPositions(useLocal, l, sessionId, LanguageOf(sessions, sessionId), run.reached);
  }

  /** The session record is updated only after both artifacts were written
      successfully, and a successful run leaves both files holding the
      encodings of the backend's result and the session pointing at them. */
  lemma UpdateOnlyAfterBothWrites<T, C, S>(l: Layout, files: Files, sessions: map<string, Session>, sessionId: string, useLocal: bool, svc: Services<T, C, S>)
    requires l.paths.transcription != l.paths.diarization
    ensures var tp, dp := l.paths.transcription, l.paths.diarization;
      var run := Retranscribe(l, files, sessions, sessionId, useLocal, svc);
      var b := Produced(l, files, sessions, sessionId, useLocal, svc);
      (UpdateSession(sessionId, tp, dp) in Taken(l, sessions, sessionId, useLocal, run) ==>
        b.out.Ok? &&
        svc.encodeTranscription(b.out.value.transcription).Ok? && svc.writeFault(tp).None? &&
        svc.encodeDiarization(b.out.value.diarization).Ok? && svc.writeFault(dp).None? &&
        Lookup(run.files, tp) == Some(svc.encodeTranscription(b.out.value.transcription).value) &&
        Lookup(run.files, dp) == Some(svc.encodeDiarization(b.out.value.diarization).value)) &&
      (run.result.Ok? ==>
        UpdateSession(sessionId, tp, dp) in Taken(l, sessions, sessionId, useLocal, run) && svc.updateFault.None? &&
        sessionId in sessions &&
        run.sessions == sessions[sessionId := WithArtifacts(sessions[sessionId], tp, dp)])
  {
    var run := Retranscribe(l, files, sessions, sessionId, useLocal, svc);
    PlanPositions(useLocal, l, sessionId, LanguageOf(sessions, sessionId), run.reached);
  }

  /** A failed write of either artifact ends the call with that write's
      error: after a failed transcription.json write nothing more is written,
      and after a failed diarization.json write the session is not updated.
      Either way the session store is unchanged. */
  lemma WriteFailureIsReported<T, C, S>(l: Layout, files: Files, sessions: map<string, Session>, sessionId: string, useLocal: bool, svc: Services<T, C, S>)
    requires l.paths.transcription != l.paths.diarization
    ensures var tp, dp := l.paths.transcription, l.paths.diarization;
      var run := Retranscribe(l, files, sessions, sessionId, useLocal, svc);
      var t := Taken(l, sessions, sessionId, useLocal, run);
      (WriteFile(tp) in t && svc.writeFault(tp).Some? ==>
        run.result == Err(svc.writeFault(tp).value.msg) && WriteFile(dp) !in t && run.sessions == sessions) &&
      (WriteFile(dp) in t && svc.writeFault(dp).Some? ==>
        run.result == Err(svc.writeFault(dp).value.msg) &&
        UpdateSession(sessionId, tp, dp) !in t && run.sessions == sessions)
  {
    var run := Retranscribe(l, files, sessions, sessionId, useLocal, svc);
    PlanPositions(useLocal, l, sessionId, LanguageOf(sessions, sessionId), run.reached);
  }

  /** A run whose backend, encodings and first write all pass, and whose
      diarization.json write fails, attempts that write, returns its error,
      keeps transcription.json as written and never updates the session. */
  lemma SecondWriteFailure<T, C, S>(l: Layout, files: Files, sessions: map<string, Session>, sessionId: string, useLocal: bool, svc: Services<T, C, S>)
    requires l.paths.transcription != l.paths.diarization
    requires l.paths.audio in files && GetSessionResult(svc, sessions, sessionId).Ok?
    requires var b := Produced(l, files, sessions, sessionId, useLocal, svc);
      b.out.Ok? &&
      svc.encodeTranscription(b.out.value.transcription).Ok? && svc.writeFault(l.paths.transcription).None? &&
      svc.encodeDiarization(b.out.value.diarization).Ok? && svc.writeFault(l.paths.diarization).Some?
    ensures var tp, dp := l.paths.transcription, l.paths.diarization;
      var run := Retranscribe(l, files, sessions, sessionId, useLocal, svc);
      var t := Taken(l, sessions, sessionId, useLocal, run);
      var b := Produced(l, files, sessions, sessionId, useLocal, svc);
      run.result == Err(svc.writeFault(dp).value.msg) &&
      WriteFile(tp) in t && WriteFile(dp) in t && UpdateSession(sessionId, tp, dp) !in t &&
      Lookup(run.files, tp) == Some(svc.encodeTranscription(b.out.value.transcription).value) &&
      run.sessions == sessions
  {
    var run := Retranscribe(l, files, sessions, sessionId, useLocal, svc);
    PlanPositions(useLocal, l, sessionId, LanguageOf(sessions, sessionId), run.reached);
  }

  /** A failed session update ends the call with its error, after both files
      were written, and leaves the session store unchanged. */
  lemma UpdateFailureIsReported<T, C, S>(l: Layout, files: Files, sessions: map<string, Session>, sessionId: string, useLocal: bool, svc: Services<T, C, S>)
    requires l.paths.transcription != l.paths.diarization
    requires svc.updateFault.Some?
    ensures var tp, dp := l.paths.transcription, l.paths.diarization;
      var run := Retranscribe(l, files, sessions, sessionId, useLocal, svc);
      var t := Taken(l, sessions, sessionId, useLocal, run);
      var b := Produced(l, files, sessions, sessionId, useLocal, svc);
      run.result.Err? && run.sessions == sessions &&
      (UpdateSession(sessionId, tp, dp) in t ==>
        run.result == Err(svc.updateFault.value) &&
        svc.writeFault(tp).None? && svc.writeFault(dp).None?) &&
      // a run whose earlier steps all pass reaches the update and returns its error
      (l.paths.audio in files && GetSessionResult(svc, sessions, sessionId).Ok? && b.out.Ok? &&
       Persist(svc, files, tp, dp, b.out.value).out.Pass? ==>
        UpdateSession(sessionId, tp, dp) in t && run.result == Err(svc.updateFault.value))
  {
    var run := Retranscribe(l, files, sessions, sessionId, useLocal, svc);
    PlanPositions(useLocal, l, sessionId, LanguageOf(sessions, sessionId), run.reached);
  }

  /** On the local branch, a failed read of the audio file ends the call with
      the read's error after four steps, before any file is written. */
  lemma ReadFailureIsReported<T, C, S>(l: Layout, files: Files, sessions: map<string, Session>, sessionId: string, svc: Services<T, C, S>)
    requires l.paths.transcription != l.paths.diarization
    requires l.paths.audio in files && GetSessionResult(svc, sessions, sessionId).Ok?
    requires svc.localNew(l.whisperModel, l.diarizationModel).Pass? && svc.readFault.Some?
    ensures var run := Retranscribe(l, files, sessions, sessionId, true, svc);
      run.result == Err(svc.readFault.value) && run.files == files && run.sessions == sessions &&
      Taken(l, sessions, sessionId, true, run) ==
        [CheckAudio(l.paths.audio), GetSession(sessionId), NewLocalClient(l.whisperModel, l.diarizationModel), ReadAudio(l.paths.audio)]
  {
  }

  /** The local branch does not depend on the session language: two sessions
      that differ only in their language give the same result, steps and
      files. */
  lemma LocalIgnoresLanguage<T, C, S>(l: Layout, files: Files, sessions: map<string, Session>, sessionId: string, session: Session, language: string, svc: Services<T, C, S>)
    requires l.paths.transcription != l.paths.diarization
    ensures var a := Proceed(l, files, sessions, sessionId, session, true, svc);
      var b := Proceed(l, files, sessions, sessionId, session.(language := language), true, svc);
      a.result == b.result && a.reached == b.reached && a.files == b.files &&
      ProceedPlan(true, l, sessionId, session.language) == ProceedPlan(true, l, sessionId, language)
  {
  }
}
