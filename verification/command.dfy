/** The command as the application runs it: an environment whose file system
    and session store the steps change in place, one fallible call after
    another, returning at the first failure. A ghost log records the calls
    made, so that each method is proved to take exactly the steps (and leave
    exactly the state) its specification in `Retranscription` describes. */
module Command {
  import opened Wrappers
  import opened Paths
  import opened Normalize
  import opened Retranscription
  import opened Seqs

  class Env {
    /** `state.data_dir` */
    const dataDir: Path
    /** The file system, by path. */
    var files: Files
    /** `state.db`'s session table, by id. */
    var sessions: map<string, Session>
    /** The fallible calls made so far, oldest first. */
    ghost var log: seq<Step>

    constructor (dataDir: Path, files: Files, sessions: map<string, Session>)
      ensures this.dataDir == dataDir && this.files == files && this.sessions == sessions && log == []
    {
      this.dataDir := dataDir;
      this.files := files;
      this.sessions := sessions;
      log := [];
    }

    /** `std::fs::read(path)`: the bytes at the path, a missing file reported
        with the operating system's message. */
    method ReadFile(p: Path, fault: Option<string>) returns (r: Result<Bytes>)
      ensures r == ReadResult(files, p, fault)
      ensures r.Ok? <==> p in files && fault.None?
    {
      if fault.Some? {
        return Err(fault.value);
      }
      if p !in files {
        return Err(NotFound);
      }
      return Ok(files[p]);
    }

    /** `std::fs::write(path, bytes)`: replaces the file at the path in place;
        a failed write may leave a residue there. No other path changes. */
    method WriteFile(p: Path, bytes: Bytes, fault: Option<WriteFault>) returns (o: Outcome)
      modifies this`files
      ensures (o, files) == WriteResult(old(files), p, bytes, fault)
    {
      match fault
      case None =>
        files := files[p := bytes];
        o := Pass;
      case Some(WriteFault(msg, residue)) =>
        if residue.Some? {
          files := files[p := residue.value];
        }
        o := Fail(msg);
    }

    /** The local branch: build the client from the model files, read and
        decode the audio, transcribe, normalize. */
    method TranscribeLocal<T, C, S>(l: Layout, svc: Services<T, C, S>) returns (r: Result<Canonical<T, C>>)
      modifies this`log
      ensures var st := LocalBackend(svc, l, files);
        r == st.out && log == old(log) + LocalPlan(l)[..st.taken]
    {
      ghost var plan := LocalPlan(l);
      Extend(log, plan, 0);
      log := log + [NewLocalClient(l.whisperModel, l.diarizationModel)];
      var client := svc.localNew(l.whisperModel, l.diarizationModel);
      if client.Fail? {
        return Err(client.msg);
      }
      Extend(old(log), plan, 1);
      log := log + [ReadAudio(l.paths.audio)];
      var data := ReadFile(l.paths.audio, svc.readFault);
      if data.Err? {
        return Err(data.msg);
      }
      Extend(old(log), plan, 2);
      log := log + [DecodeWav];
      var decoded := svc.readWav(data.value);
      if decoded.Err? {
        return Err(decoded.msg);
      }
      Extend(old(log), plan, 3);
      log := log + [Step.TranscribeLocal];
      var segments := svc.localTranscribe(decoded.value);
      if segments.Err? {
        return Err(segments.msg);
      }
      var words := Transcription(segments.value);
      var speakers := Diarization(segments.value);
      return Ok(Canonical(words, speakers));
    }

    /** The cloud branch: build the client for the language, send the audio
        file. */
    method TranscribeCloud<T, C, S>(language: string, audio: Path, svc: Services<T, C, S>) returns (r: Result<Canonical<T, C>>)
      modifies this`log
      ensures var st := CloudBackend(svc, language, audio);
        r == st.out && log == old(log) + CloudPlan(language, audio)[..st.taken]
    {
      ghost var plan := CloudPlan(language, audio);
      Extend(log, plan, 0);
      log := log + [NewCloudClient(language)];
      var client := svc.cloudNew(language);
      if client.Fail? {
        return Err(client.msg);
      }
      Extend(old(log), plan, 1);
      log := log + [Step.TranscribeCloud(audio)];
      r := svc.cloudTranscribe(language, audio);
    }

    /** Encode and write transcription.json, then encode and write
        diarization.json, stopping at the first failure. */
    method WriteArtifacts<T, C, S>(tp: Path, dp: Path, c: Canonical<T, C>, svc: Services<T, C, S>) returns (o: Outcome)
      requires tp != dp
      modifies this`files, this`log
      ensures var ps := Persist(svc, old(files), tp, dp, c);
        o == ps.out && files == ps.files && log == old(log) + PersistPlan(tp, dp)[..ps.taken]
    {
      ghost var plan := PersistPlan(tp, dp);
      Extend(log, plan, 0);
      log := log + [EncodeTranscription];
      var t := svc.encodeTranscription(c.transcription);
      if t.Err? {
        return Fail(t.msg);
      }
      Extend(old(log), plan, 1);
      log := log + [Step.WriteFile(tp)];
      o := WriteFile(tp, t.value, svc.writeFault(tp));
      if o.Fail? {
        return;
      }
      Extend(old(log), plan, 2);
      log := log + [EncodeDiarization];
      var d := svc.encodeDiarization(c.diarization);
      if d.Err? {
        return Fail(d.msg);
      }
      Extend(old(log), plan, 3);
      log := log + [Step.WriteFile(dp)];
      o := WriteFile(dp, d.value, svc.writeFault(dp));
    }

    /** After the backend produced `c`: write both artifacts, then point the
        session record at them (`session_update_transcription`). */
    method SaveResults<T, C, S>(l: Layout, sessionId: string, session: Session, c: Canonical<T, C>, svc: Services<T, C, S>) returns (r: Result<()>)
      requires l.paths.transcription != l.paths.diarization
      modifies this`files, this`sessions, this`log
      ensures var run := Finish(l, old(files), old(sessions), sessionId, session, c, svc);
        r == run.result && files == run.files && sessions == run.sessions &&
        log == old(log) + FinishPlan(sessionId, l.paths.transcription, l.paths.diarization)[..run.reached]
    {
      var tp, dp := l.paths.transcription, l.paths.diarization;
      ghost var persist := PersistPlan(tp, dp);
      ghost var update := [UpdateSession(sessionId, tp, dp)];
      var written := WriteArtifacts(tp, dp, c, svc);
      ghost var ps := Persist(svc, old(files), tp, dp, c);
      PrefixWithin(persist, update, ps.taken);
      if written.Fail? {
        return Err(written.msg);
      }
      assert persist[..4] == persist;
      PrefixOfAppend(persist, update, 1);
      log := log + [UpdateSession(sessionId, tp, dp)];
      AppendAssoc(old(log), persist, update);
      match svc.updateFault
      case Some(msg) =>
        return Err(msg);
      case None =>
        sessions := sessions[sessionId := WithArtifacts(session, tp, dp)];
        return Ok(());
    }

    /** After the session was found: run the backend `useLocal` selects, then
        save its result. */
    method TranscribeAndSave<T, C, S>(l: Layout, sessionId: string, session: Session, useLocal: bool, svc: Services<T, C, S>) returns (r: Result<()>)
      requires l.paths.transcription != l.paths.diarization
      modifies this`files, this`sessions, this`log
      ensures var run := Proceed(l, old(files), old(sessions), sessionId, session, useLocal, svc);
        r == run.result && files == run.files && sessions == run.sessions &&
        log == old(log) + ProceedPlan(useLocal, l, sessionId, session.language)[..run.reached]
    {
      ghost var b := BackendPlan(useLocal, l, session.language);
      ghost var finish := FinishPlan(sessionId, l.paths.transcription, l.paths.diarization);
      ghost var st := Backend(useLocal, svc, l, files, session.language);
      var produced;
      if useLocal {
        produced := TranscribeLocal(l, svc);
      } else {
        produced := TranscribeCloud(session.language, l.paths.audio, svc);
      }
      PrefixWithin(b, finish, st.taken);
      if produced.Err? {
        return Err(produced.msg);
      }
      assert b[..st.taken] == b;
      r := SaveResults(l, sessionId, session, produced.value, svc);
      ghost var f := Finish(l, old(files), old(sessions), sessionId, session, produced.value, svc);
      PrefixOfAppend(b, finish, f.reached);
      AppendAssoc(old(log), b, finish[..f.reached]);
    }

    /** The command on the paths of `l`: check the audio, look up the session,
        then transcribe and save. */
    method RetranscribeAt<T, C, S>(l: Layout, sessionId: string, useLocal: bool, svc: Services<T, C, S>) returns (r: Result<()>)
      requires l.paths.transcription != l.paths.diarization
      modifies this`files, this`sessions, this`log
      ensures var run := Retranscribe(l, old(files), old(sessions), sessionId, useLocal, svc);
        r == run.result && files == run.files && sessions == run.sessions &&
        log == old(log) + Taken(l, old(sessions), sessionId, useLocal, run)
    {
      log := log + [CheckAudio(l.paths.audio)];
      if l.paths.audio !in files {
        AudioGuard(l, files, sessions, sessionId, useLocal, svc);
        return Err(AudioMissing);
      }
      log := log + [GetSession(sessionId)];
      var got := GetSessionResult(svc, sessions, sessionId);
      if got.Err? {
        RetranscribeUnknownSession(l, files, sessions, sessionId, useLocal, svc);
        AppendTwo(old(log), CheckAudio(l.paths.audio), GetSession(sessionId), []);
        return Err(got.msg);
      }
      RetranscribeProceeds(l, files, sessions, sessionId, useLocal, svc);
      r := TranscribeAndSave(l, sessionId, got.value, useLocal, svc);
      ghost var k := Proceed(l, old(files), old(sessions), sessionId, got.value, useLocal, svc).reached;
      AppendTwo(old(log), CheckAudio(l.paths.audio), GetSession(sessionId), ProceedPlan(useLocal, l, sessionId, got.value.language)[..k]);
    }

    /** `retranscribe_audio(session_id, use_local)`: its result, the files
        and session store it leaves and the calls it makes are those of
        `Retranscribe` on the paths derived from `dataDir` and the id. */
    method RetranscribeAudio<T, C, S>(sessionId: string, useLocal: bool, svc: Services<T, C, S>) returns (r: Result<()>)
      modifies this`files, this`sessions, this`log
      ensures var l := LayoutOf(dataDir, sessionId);
        var run := Retranscribe(l, old(files), old(sessions), sessionId, useLocal, svc);
        r == run.result && files == run.files && sessions == run.sessions &&
        log == old(log) + Taken(l, old(sessions), sessionId, useLocal, run)
    {
      var l := LayoutOf(dataDir, sessionId);
      r := RetranscribeAt(l, sessionId, useLocal, svc);
    }
  }
}
