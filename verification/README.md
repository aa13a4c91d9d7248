# retranscribe_audio, modelled in Dafny

This project models `retranscribe_audio`, the misc plugin command that takes a recorded
session again and re-derives two things from its `audio.wav`:

- a word-level transcription;
- a speaker diarization.

It uses either the on-device backend (Whisper plus pyannote) or the Deepgram cloud service, as
`use_local` selects. It writes the results as `transcription.json` and `diarization.json` in the
session's directory, then points the session record at those two files.

The project has five modules:

- `Paths` (`paths.dfy`) covers `Path::join` and the fixed layout of a session directory under the
  data directory.
- `Normalize` (`normalize.dfy`) covers the pure pipelines of the local branch:
  - the `flat_map` that turns backend segments into `Word` records;
  - the `filter_map` that turns them into `DiarizationSegment`s, with the speaker-label rule.
  Timestamps (`f64`) and confidences (`f32`) are only ever copied, so they are the opaque type
  parameters `T` and `C`.
- `Retranscription` (`retranscription.dfy`) gives the meaning of one call as functions of the
  world before it:
  - the fixed plan of fallible steps;
  - how many of those steps a call takes, since every `?` returns early;
  - its result;
  - the file system and session store it leaves.
  Lemmas state the guard, frame, ordering, no-rollback and update properties.
- `Command` (`command.dfy`) is the imperative form. A `class Env` holds the file map and session
  store that the steps change in place, plus a ghost log of the calls made. Each method is proved
  to leave exactly the state, and log exactly the steps, that the `Retranscription` functions
  describe.
- `Wrappers` and `Seqs` hold `Option`/`Result` and generic facts about sequence prefixes.

Every call into code that is not part of this model is answered by a `Services` value. That
covers session lookup, model loading, WAV decoding, local inference, the Deepgram request, JSON
encoding, `std::fs::write` faults and the session update. Each such call is a function of its
inputs, or a fault given up front.

## Model

| member | source | states |
|---|---|---|
| Paths.Join | plugins/misc/src/commands.rs:90-92 | The joined path ends with the new component and keeps the base before it. An absolute component replaces the base, as `Path::join` does. |
| Paths.ArtifactPaths | plugins/misc/src/commands.rs:89-92 | All three paths sit directly in `data_dir/session_id`, named `audio.wav`, `transcription.json` and `diarization.json`. They are pairwise distinct. |
| Normalize.DecimalDigits | plugins/misc/src/commands.rs:159 | The rendering of an index is a non-empty string of decimal digits with no leading zero (except "0" itself). |
| Normalize.DecimalRoundTrip | plugins/misc/src/commands.rs:159 | Reading the rendered digits back, by an independent definition, gives the index. |
| Normalize.SpeakerLabel | plugins/misc/src/commands.rs:155-166 | `Assigned{id, label}` is labelled `id`, never `label`. `Unassigned{index}` is labelled "speaker" followed by the decimal digits of `index`, which read back to `index`. |
| Normalize.WordsOf | plugins/misc/src/commands.rs:129-139 | There is one `Word` per word of the segment, in order. Each carries that word's text and the segment's start, end, confidence and speaker. |
| Normalize.Transcription | plugins/misc/src/commands.rs:126-141 | The transcription has as many words as all segments together. |
| Normalize.WordCountAppend | plugins/misc/src/commands.rs:126-141 | The word count of two runs of segments is the sum of their counts. |
| Normalize.TranscriptionAppend | plugins/misc/src/commands.rs:126-141 | Flattening distributes over concatenation: it is the in-order concatenation of the segments' words. |
| Normalize.TranscriptionAt | plugins/misc/src/commands.rs:132-138 | Word `j` of segment `i` sits at position (words of earlier segments) + `j`. It has exactly that word's text and the segment's start, end, confidence and speaker, whether or not the segment has a speaker. |
| Normalize.TranscriptionOrigin | plugins/misc/src/commands.rs:126-141 | Every transcription entry is word `j` of some segment `i`, at that same position, with the copied fields. |
| Normalize.TranscriptionInOrder | plugins/misc/src/commands.rs:126-141 | Words keep segment order, and their order within a segment. |
| Normalize.SpeakerCount | plugins/misc/src/commands.rs:153-154 | At most one entry per segment is kept. |
| Normalize.Diarization | plugins/misc/src/commands.rs:151-169 | The diarization has exactly as many entries as there are segments with a speaker. |
| Normalize.SpeakerCountAppend | plugins/misc/src/commands.rs:151-169 | The number of segments with a speaker adds up over concatenation. |
| Normalize.DiarizationAppend | plugins/misc/src/commands.rs:151-169 | Filtering distributes over concatenation of the segment list. |
| Normalize.DiarizationAt | plugins/misc/src/commands.rs:155-166 | A segment with a speaker yields the entry at position (earlier segments with a speaker). The entry has the segment's start and end and the speaker's label. |
| Normalize.DiarizationOrigin | plugins/misc/src/commands.rs:151-169 | Every diarization entry comes from a segment that has a speaker, at that position, with its bounds and label. |
| Normalize.DiarizationInOrder | plugins/misc/src/commands.rs:151-169 | Entries keep the order of their segments. |
| Normalize.Example | plugins/misc/src/commands.rs:126-169 | On three concrete segments, the middle one without a speaker, all four words are kept. The silent segment is dropped from the diarization. The labels are "speaker0" and the assigned id. |
| Retranscription.LayoutOf | plugins/misc/src/commands.rs:89-108 | The session paths are exactly `ArtifactPaths(data_dir, session_id)`, so audio, transcription and diarization each sit under their own fixed name. The model paths are `data_dir` joined with `models/whisper/base.en.ggml` and `models/pyannote/speaker_diarization.onnx`. For every session id, the two artifact paths are distinct, so the two writes never hit the same file. The two model files differ from each other and from the audio, transcription and diarization paths, so no write overwrites a model. |
| Retranscription.PlanShape | plugins/misc/src/commands.rs:94-123 | The plan opens with the audio check and then the session lookup, and it ends with the session update. The local branch builds its client from the two fixed model paths and never builds a cloud client. The cloud branch builds its client with the session language and never builds a local one. |
| Retranscription.PlanPositions | plugins/misc/src/commands.rs:144-203 | A prefix of the plan contains the transcription write, the diarization write or the update exactly when it reaches that step's fixed position. |
| Retranscription.PlanWriteOrder | plugins/misc/src/commands.rs:144-203 | In every prefix of the plan, `transcription.json` is written before `diarization.json`, and `diarization.json` before the session update. |
| Retranscription.GetSessionResult | plugins/misc/src/commands.rs:98-101 | A found session is the stored record. An unknown id is an error. |
| Retranscription.ReadResult | plugins/misc/src/commands.rs:117 | A successful read returns the file's bytes. A missing file is an error. |
| Retranscription.WriteResult | plugins/misc/src/commands.rs:144-148 | A write succeeds exactly when no fault occurs, and then the file holds the bytes. A failed write leaves the old content or the fault's residue, and never deletes an existing file. No other path changes. |
| Retranscription.LocalBackend | plugins/misc/src/commands.rs:105-141 | The local branch takes 1 to 4 steps and succeeds only after all 4. It succeeds exactly when the client is built, the audio file is read without a fault, and decoding and inference succeed. Its result is then the normalized transcription and diarization of the inferred segments. A failed client build stops it at step 1 with that error. A failed `fs::read` stops it at step 2 with the read's error. A failed `read_wav` stops it at step 3 with its error, and a failed `transcribe` at step 4 with its error. |
| Retranscription.CloudBackend | plugins/misc/src/commands.rs:176-184 | The cloud branch takes 1 or 2 steps. It succeeds exactly when the client for the session language is built and `transcribe_file` succeeds, and its result is that answer. A failed client build stops it at step 1 with that error. Once the client is built, the branch takes step 2 and returns `transcribe_file`'s answer, error included. |
| Retranscription.Backend | plugins/misc/src/commands.rs:105-184 | The chosen branch takes at least one of its plan's steps, and succeeds only by taking them all. |
| Retranscription.Persist | plugins/misc/src/commands.rs:186-196 | Nothing outside the two artifact paths changes, and nothing changes before the first write. The diarization file is untouched until its write. Once the second write was attempted, the transcription file holds the encoded transcription. The stage passes exactly when both encodings and both writes succeed, and then both files hold the encodings. Once the first write passes, the stage goes on to the second encoding, and once that passes, to the second write. Otherwise it fails with the message of the step that failed: the first encoding, the first write, the second encoding or the second write. |
| Retranscription.Finish | plugins/misc/src/commands.rs:186-203 | The write-and-update stage takes 1 to 5 steps. It succeeds exactly when both writes pass and the session update has no fault. A failed write is returned as the error before the update is reached. A failed update is returned as the error after both writes. A failure leaves the session store unchanged. |
| Retranscription.Proceed | plugins/misc/src/commands.rs:105-203 | After the lookup, a call takes a non-empty prefix of the remaining plan and succeeds only by completing it. It succeeds exactly when the backend, both encode-and-write steps and the update succeed. A failed backend is returned as is, with no change. Otherwise the call's result, files and sessions are those of `Finish`, after the backend's steps. A failure leaves the session store unchanged. |
| Retranscription.Retranscribe | plugins/misc/src/commands.rs:89-205 | A call takes a non-empty prefix of its plan and succeeds only by reaching the end. It returns `Ok` exactly when the audio exists, the session is found, the backend succeeds, both encode-and-write steps pass and the update has no fault. Any failing step, including a read, a write or the update, ends it with an error. An error leaves the session store unchanged. |
| Retranscription.RetranscribeProceeds | plugins/misc/src/commands.rs:98-105 | Once the audio exists and the session is found, the call takes the first two steps and then proceeds with the stored session's language. |
| Retranscription.RetranscribeUnknownSession | plugins/misc/src/commands.rs:98-101 | A failed lookup returns its error after exactly the audio check and the lookup, changing nothing. |
| Retranscription.AudioGuard | plugins/misc/src/commands.rs:94-96 | A missing audio file gives `Err("Audio file does not exist")` after the audio check alone. There is no lookup, no client, no write and no update, and nothing changes. |
| Retranscription.RunFrame | plugins/misc/src/commands.rs:144-196 | A call changes no file but the two artifacts, and changes no file at all unless it reached the transcription write. |
| Retranscription.RunWriteOrder | plugins/misc/src/commands.rs:144-203 | In every call, on either branch, `transcription.json` is written before `diarization.json`, and that before the session update. |
| Retranscription.BackendFailureWritesNothing | plugins/misc/src/commands.rs:110-184 | A failure to build a client, read, decode or transcribe is returned as is. No file is written and no file or session changes. |
| Retranscription.NoRollback | plugins/misc/src/commands.rs:186-196 | Once `diarization.json` has been written to (even unsuccessfully), `transcription.json` holds the encoded transcription. |
| Retranscription.UpdateOnlyAfterBothWrites | plugins/misc/src/commands.rs:186-205 | The update is reached only if both encodings succeeded, both writes reported success, and both files hold the encodings. A successful call had no update fault, and it has updated exactly that session to point at the two paths. |
| Retranscription.WriteFailureIsReported | plugins/misc/src/commands.rs:186-196 | A failed `transcription.json` write ends the call with that write's error, and `diarization.json` is not written. A failed `diarization.json` write ends the call with its error, and the session is not updated. Either way the session store is unchanged. |
| Retranscription.UpdateFailureIsReported | plugins/misc/src/commands.rs:200-203 | With an update fault, the call never succeeds and the session store is unchanged. If the update was reached, the call returns the update's error, and both writes had succeeded. A call whose audio check, lookup, backend and both writes pass does reach the update and returns its error. |
| Retranscription.SecondWriteFailure | plugins/misc/src/commands.rs:171-175 | If the backend, both encodings and the first write pass and the `diarization.json` write fails, the call attempts that write and returns its error. `transcription.json` keeps the encoded transcription, the session is not updated, and the session store is unchanged. |
| Retranscription.ReadFailureIsReported | plugins/misc/src/commands.rs:117 | On the local branch, a failed `fs::read` of the audio ends the call with the read's error after the audio check, lookup, client build and read. Nothing is written and no session changes. |
| Retranscription.LocalIgnoresLanguage | plugins/misc/src/commands.rs:103-123 | On the local branch, the session language changes neither the steps nor the result nor the files. |
| Command.Env.constructor | plugins/misc/src/commands.rs:87-89 | The environment starts with the given data directory, files and sessions, and an empty log. |
| Command.Env.ReadFile | plugins/misc/src/commands.rs:117 | Reading succeeds exactly when the file exists and no fault occurs, and it returns the file's bytes. |
| Command.Env.WriteFile | plugins/misc/src/commands.rs:144-148 | Writing in place leaves the file system that `WriteResult` describes. |
| Command.Env.TranscribeLocal | plugins/misc/src/commands.rs:107-169 | The local steps return `LocalBackend`'s result, and log exactly the steps it takes. |
| Command.Env.TranscribeCloud | plugins/misc/src/commands.rs:178-184 | The cloud steps return `CloudBackend`'s result, and log exactly the steps it takes. |
| Command.Env.WriteArtifacts | plugins/misc/src/commands.rs:186-196 | The two encode-and-write steps leave the files `Persist` describes, and log exactly its steps. |
| Command.Env.SaveResults | plugins/misc/src/commands.rs:186-203 | Writing both files and then updating the session leaves the files and sessions that `Finish` describes, and logs its steps. |
| Command.Env.TranscribeAndSave | plugins/misc/src/commands.rs:105-203 | Running the chosen backend and saving its result matches `Proceed`. |
| Command.Env.RetranscribeAt | plugins/misc/src/commands.rs:94-205 | On given artifact paths, the audio check, lookup, backend and save return `Retranscribe`'s result and leave its files and sessions. The log grows by exactly the steps `Retranscribe` takes. |
| Command.Env.RetranscribeAudio | plugins/misc/src/commands.rs:84-206 | The command returns `Retranscribe`'s result and leaves its files and sessions. Its log grows by exactly the steps that `Retranscribe` takes on the paths derived from `data_dir` and the id. |

## Left out

- The other commands in `plugins/misc/src/commands.rs` (lines 6-81) are left out. Each only forwards to a Tauri, opener or filesystem API.
- `crates/db-admin/src/users_ops.rs`, `crates/data/src/korean_1/mod.rs` and `apps/app/tailwind.config.ts` are not part of this model. They hold database passthroughs, embedded constants and UI configuration.
- Whisper/pyannote inference, the Deepgram request, WAV decoding, JSON encoding, the database's `session_get` and the session update are oracles in `Services`. Their internals are not modelled, and neither is `segment.words()`'s splitting of a segment's text: each segment carries its word list.
- The session update is modelled as setting the session's transcription and diarization paths. Its database semantics are not part of this model.
- `Path::exists` is modelled as "the path is in the file map". Permission errors, symbolic links, `..` components and path normalisation are not modelled.
- `Path::join` is modelled with absolute-component replacement only. Windows prefixes are not modelled.
- Floating-point timestamps and confidences are opaque type parameters, so no arithmetic or serialization on them is modelled.
- `async`/`.await` and concurrency are left out. A call is one sequential run, and two calls on the same session are not modelled as interleaving.
- Nothing stages writes atomically, locks a session or checks a freshness token: `std::fs::write` writes in place at lines 144, 171, 186 and 192. The model follows that code: a failed write may leave a residue, and nothing serializes concurrent calls. It does not claim atomic or serialized persistence.
- In the source, the local branch computes the diarization list after writing `transcription.json`. The computation is pure, so the model computes both lists before the writes. This changes no observable step.
- The cloud client is modelled as receiving the audio path, as `transcribe_file` does. Its reading of the file is inside the oracle.
- A write fault leaves either the old content or one residue given up front. The exact bytes of a partial write are not modelled.
