/** Normalization of local backend segments into the two canonical lists that
    the command persists: a word-granular transcription (a `flat_map` over the
    segments) and a speaker-interval diarization (a `filter_map` over the same
    segments). Timestamps and confidences are only copied, never computed on,
    so they are the opaque type parameters `T` and `C`. */
module Normalize {
  import opened Wrappers

  newtype u32 = x: int | 0 <= x < 0x1_0000_0000

  /** Who spoke a segment: only a cluster index, or an enrolled identity. */
  datatype SpeakerIdentity = Unassigned(index: u32) | Assigned(id: string, humanLabel: string)  // `label` is a Dafny keyword

  /** A segment as the local backend returns it. */
  datatype Segment<T, C> = Segment(start: T, end: T, confidence: C, words: seq<string>, speaker: Option<SpeakerIdentity>)

  datatype Word<T, C> = Word(word: string, start: T, end: T, confidence: C, speaker: Option<SpeakerIdentity>)

  datatype DiarizationSegment<T> = DiarizationSegment(start: T, end: T, speaker: string)

  // ---------------------------------------------------------------------
  // Decimal rendering of a speaker index (`format!("{}", index)`)
  // ---------------------------------------------------------------------

  predicate IsDigit(c: char)
  {
    '0' <= c <= '9'
  }

  predicate AllDigits(s: string)
  {
    forall i :: 0 <= i < |s| ==> IsDigit(s[i])
  }

  function DigitChar(d: nat): (c: char)
    requires d < 10
    ensures IsDigit(c)
  {
    ('0' as int + d) as char
  }

  function DigitValue(c: char): (d: nat)
    requires IsDigit(c)
    ensures d < 10
  {
    c as int - '0' as int
  }

  /** The decimal digits of `n`, most significant first, without leading zeros. */
  function DecimalDigits(n: nat): (s: string)
    ensures 1 <= |s| && AllDigits(s)
    ensures s[0] == '0' ==> n == 0 && s == "0"
  {
    if n < 10 then [DigitChar(n)] else DecimalDigits(n / 10) + [DigitChar(n % 10)]
  }

  /** An independent reading of a digit string, least significant digit last. */
  function ParseDecimal(s: string): nat
    requires AllDigits(s)
  {
    if s == [] then 0 else ParseDecimal(s[..|s| - 1]) * 10 + DigitValue(s[|s| - 1])
  }

  lemma {:induction false} DecimalRoundTrip(n: nat)
    ensures ParseDecimal(DecimalDigits(n)) == n
  {
    var s := DecimalDigits(n);
    if n >= 10 {
      DecimalRoundTrip(n / 10);
      assert s[..|s| - 1] == DecimalDigits(n / 10);
      assert DigitValue(s[|s| - 1]) == n % 10;
    } else {
      assert s == [DigitChar(n)];
      assert s[..0] == [];
    }
  }

  /** The label a diarization entry carries. An unassigned speaker is named
      "speaker" followed by its index in decimal, which determines the index;
      an assigned speaker is named by its id, and its human-readable label is
      never used. */
  function SpeakerLabel(speaker: SpeakerIdentity): (name: string)
    ensures speaker.Assigned? ==> name == speaker.id
    ensures speaker.Unassigned? ==>
      |name| > 7 && name[..7] == "speaker" && AllDigits(name[7..]) &&
      ParseDecimal(name[7..]) == speaker.index as int &&
      (name[7] == '0' ==> name == "speaker0")
  {
    match speaker
    case Unassigned(index) =>
      var digits := DecimalDigits(index as nat);
      DecimalRoundTrip(index as nat);
      assert ("speaker" + digits)[7..] == digits;
      "speaker" + digits
    case Assigned(id, _) => id
  }

  // ---------------------------------------------------------------------
  // Transcription: flat_map of each segment's words into Word records
  // ---------------------------------------------------------------------

  /** The Word records of `texts`, each carrying the segment's bounds,
      confidence and speaker. */
  function WordsOf<T, C>(seg: Segment<T, C>, texts: seq<string>): (ws: seq<Word<T, C>>)
    ensures |ws| == |texts|
    ensures forall j :: 0 <= j < |ws| ==>
      ws[j].word == texts[j] && ws[j].start == seg.start && ws[j].end == seg.end &&
      ws[j].confidence == seg.confidence && ws[j].speaker == seg.speaker
  {
    if texts == [] then []
    else [Word(texts[0], seg.start, seg.end, seg.confidence, seg.speaker)] + WordsOf(seg, texts[1..])
  }

  /** The total number of words over all segments. */
  function WordCount<T, C>(segs: seq<Segment<T, C>>): nat
  {
    if segs == [] then 0 else |segs[0].words| + WordCount(segs[1..])
  }

  function Transcription<T, C>(segs: seq<Segment<T, C>>): (ws: seq<Word<T, C>>)
    ensures |ws| == WordCount(segs)
  {
    if segs == [] then [] else WordsOf(segs[0], segs[0].words) + Transcription(segs[1..])
  }

  lemma {:induction false} WordCountAppend<T, C>(a: seq<Segment<T, C>>, b: seq<Segment<T, C>>)
    ensures WordCount(a + b) == WordCount(a) + WordCount(b)
  {
    if a == [] {
      assert a + b == b;
    } else {
      assert (a + b)[1..] == a[1..] + b;
      WordCountAppend(a[1..], b);
    }
  }

  /** Flattening distributes over concatenation of the segment list. */
  lemma {:induction false} TranscriptionAppend<T, C>(a: seq<Segment<T, C>>, b: seq<Segment<T, C>>)
    ensures Transcription(a + b) == Transcription(a) + Transcription(b)
  {
    if a == [] {
      assert a + b == b;
    } else {
      assert (a + b)[1..] == a[1..] + b;
      TranscriptionAppend(a[1..], b);
    }
  }

  /** Word `j` of segment `i` sits right after the words of all earlier
      segments, and copies that segment's fields. */
  lemma {:induction false} TranscriptionAt<T, C>(segs: seq<Segment<T, C>>, i: nat, j: nat)
    requires i < |segs| && j < |segs[i].words|
    ensures WordCount(segs[..i]) + j < |Transcription(segs)|
    ensures Transcription(segs)[WordCount(segs[..i]) + j] ==
      Word(segs[i].words[j], segs[i].start, segs[i].end, segs[i].confidence, segs[i].speaker)
  {
    var ws := WordsOf(segs[0], segs[0].words);
    assert Transcription(segs) == ws + Transcription(segs[1..]);
    if i == 0 {
      assert segs[..0] == [];
    } else {
      TranscriptionAt(segs[1..], i - 1, j);
      assert segs[..i] == [segs[0]] + segs[1..][..i - 1];
      assert segs[..i][1..] == segs[1..][..i - 1];
    }
  }

  /** Every word of the transcription comes from some word of some segment. */
  lemma {:induction false} TranscriptionOrigin<T, C>(segs: seq<Segment<T, C>>, k: nat) returns (i: nat, j: nat)
    requires k < |Transcription(segs)|
    ensures i < |segs| && j < |segs[i].words|
    ensures k == WordCount(segs[..i]) + j
    ensures Transcription(segs)[k] ==
      Word(segs[i].words[j], segs[i].start, segs[i].end, segs[i].confidence, segs[i].speaker)
  {
    if k < |segs[0].words| {
      i, j := 0, k;
      assert segs[..0] == [];
    } else {
      var i', j' := TranscriptionOrigin(segs[1..], k - |segs[0].words|);
      i, j := i' + 1, j';
      assert segs[..i][1..] == segs[1..][..i'];
    }
    TranscriptionAt(segs, i, j);
  }

  lemma {:induction false} WordCountPrefixGrows<T, C>(segs: seq<Segment<T, C>>, i: nat, i': nat)
    requires i < i' <= |segs|
    ensures WordCount(segs[..i]) + |segs[i].words| <= WordCount(segs[..i'])
  {
    assert segs[..i'] == segs[..i] + [segs[i]] + segs[i + 1..i'];
    WordCountAppend(segs[..i] + [segs[i]], segs[i + 1..i']);
    WordCountAppend(segs[..i], [segs[i]]);
    assert WordCount([segs[i]]) == |segs[i].words| by {
      assert [segs[i]][1..] == [];
    }
  }

  /** Words keep segment order, and within a segment their own order. */
  lemma TranscriptionInOrder<T, C>(segs: seq<Segment<T, C>>, i: nat, j: nat, i': nat, j': nat)
    requires i < |segs| && j < |segs[i].words| && i' < |segs| && j' < |segs[i'].words|
    requires i < i' || (i == i' && j < j')
    ensures WordCount(segs[..i]) + j < WordCount(segs[..i']) + j'
  {
    if i < i' {
      WordCountPrefixGrows(segs, i, i');
    }
  }

  // ---------------------------------------------------------------------
  // Diarization: filter_map keeping the segments that carry a speaker
  // ---------------------------------------------------------------------

  /** The number of segments that carry a speaker. */
  function SpeakerCount<T, C>(segs: seq<Segment<T, C>>): (n: nat)
    ensures n <= |segs|
  {
    if segs == [] then 0
    else (if segs[0].speaker.Some? then 1 else 0) + SpeakerCount(segs[1..])
  }

  /** The closure given to `filter_map`: nothing for a segment without a speaker. */
  function DiarizationEntry<T, C>(seg: Segment<T, C>): Option<DiarizationSegment<T>>
  {
    match seg.speaker
    case None => None
    case Some(speaker) => Some(DiarizationSegment(seg.start, seg.end, SpeakerLabel(speaker)))
  }

  function Diarization<T, C>(segs: seq<Segment<T, C>>): (ds: seq<DiarizationSegment<T>>)
    ensures |ds| == SpeakerCount(segs)
  {
    if segs == [] then []
    else
      match DiarizationEntry(segs[0])
      case None => Diarization(segs[1..])
      case Some(d) => [d] + Diarization(segs[1..])
  }

  lemma {:induction false} SpeakerCountAppend<T, C>(a: seq<Segment<T, C>>, b: seq<Segment<T, C>>)
    ensures SpeakerCount(a + b) == SpeakerCount(a) + SpeakerCount(b)
  {
    if a == [] {
      assert a + b == b;
    } else {
      assert (a + b)[1..] == a[1..] + b;
      SpeakerCountAppend(a[1..], b);
    }
  }

  lemma {:induction false} DiarizationAppend<T, C>(a: seq<Segment<T, C>>, b: seq<Segment<T, C>>)
    ensures Diarization(a + b) == Diarization(a) + Diarization(b)
  {
    if a == [] {
      assert a + b == b;
    } else {
      assert (a + b)[1..] == a[1..] + b;
      DiarizationAppend(a[1..], b);
    }
  }

  /** A segment with a speaker yields its entry right after the entries of the
      earlier segments that have one, with its own bounds and label. */
  lemma {:induction false} DiarizationAt<T, C>(segs: seq<Segment<T, C>>, i: nat)
    requires i < |segs| && segs[i].speaker.Some?
    ensures SpeakerCount(segs[..i]) < |Diarization(segs)|
    ensures Diarization(segs)[SpeakerCount(segs[..i])] ==
      DiarizationSegment(segs[i].start, segs[i].end, SpeakerLabel(segs[i].speaker.value))
  {
    if i == 0 {
      assert segs[..0] == [];
    } else {
      DiarizationAt(segs[1..], i - 1);
      assert segs[..i][1..] == segs[1..][..i - 1];
    }
  }

  /** Every diarization entry comes from a segment that carries a speaker. */
  lemma {:induction false} DiarizationOrigin<T, C>(segs: seq<Segment<T, C>>, k: nat) returns (i: nat)
    requires k < |Diarization(segs)|
    ensures i < |segs| && segs[i].speaker.Some?
    ensures k == SpeakerCount(segs[..i])
    ensures Diarization(segs)[k] ==
      DiarizationSegment(segs[i].start, segs[i].end, SpeakerLabel(segs[i].speaker.value))
  {
    if segs[0].speaker.Some? && k == 0 {
      i := 0;
      assert segs[..0] == [];
    } else {
      var k' := if segs[0].speaker.Some? then k - 1 else k;
      var i' := DiarizationOrigin(segs[1..], k');
      i := i' + 1;
      assert segs[..i][1..] == segs[1..][..i'];
    }
    DiarizationAt(segs, i);
  }

  /** Entries keep the order of the segments they come from. */
  lemma DiarizationInOrder<T, C>(segs: seq<Segment<T, C>>, i: nat, i': nat)
    requires i < i' < |segs| && segs[i].speaker.Some?
    ensures SpeakerCount(segs[..i]) < SpeakerCount(segs[..i'])
  {
    assert segs[..i'] == segs[..i] + [segs[i]] + segs[i + 1..i'];
    SpeakerCountAppend(segs[..i] + [segs[i]], segs[i + 1..i']);
    SpeakerCountAppend(segs[..i], [segs[i]]);
    assert [segs[i]][1..] == [];
  }

  /** Three segments, one without a speaker: the transcription keeps all
      their words, the diarization drops the silent one, and an assigned
      speaker is labelled by id, not by its label. */
  lemma Example<T, C>(t0: T, t1: T, t2: T, t3: T, c: C)
    ensures var segs := [
      Segment(t0, t1, c, ["hi"], Some(Unassigned(0))),
      Segment(t1, t2, c, ["so", "well"], None),
      Segment(t2, t3, c, ["yes"], Some(Assigned("spk_1", "Alice")))];
      |Transcription(segs)| == 4 &&
      Transcription(segs)[1] == Word("so", t1, t2, c, None) &&
      Diarization(segs) == [DiarizationSegment(t0, t1, "speaker0"), DiarizationSegment(t2, t3, "spk_1")]
  {
    var segs := [
      Segment(t0, t1, c, ["hi"], Some(Unassigned(0))),
      Segment(t1, t2, c, ["so", "well"], None),
      Segment(t2, t3, c, ["yes"], Some(Assigned("spk_1", "Alice")))];
    assert segs[1..] == [segs[1], segs[2]];
    assert segs[1..][1..] == [segs[2]];
    assert [segs[2]][1..] == [];
    assert WordCount([segs[2]]) == 1;
    assert WordCount(segs[1..]) == 3;
    assert WordCount(segs) == 4;
    assert SpeakerLabel(Unassigned(0)) == "speaker0" by {
      assert DecimalDigits(0) == "0";
    }
    assert Diarization([segs[2]]) == [DiarizationSegment(t2, t3, "spk_1")];
    TranscriptionAt(segs, 1, 0);
    assert segs[..1] == [segs[0]];
    assert WordCount([segs[0]]) == 1 by { assert [segs[0]][1..] == []; }
  }
}
