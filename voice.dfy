/** packages/voice: the sessions newest first, the canned transcription stored as a
    session, and the speech URL. `encodeURIComponent` is a parameter. */
module Voice {
  import opened Wrappers
  import opened JsString
  import opened Utils
  import opened DbRecords
  import opened Db

  const SpeechPrefix: string := "https://voice.example.com/generated/"

  /** Non-increasing by `createdAt`: no session is older than one after it. */
  ghost predicate NewestFirst(sessions: seq<VoiceSession>) {
    forall p, q :: 0 <= p < q < |sessions| ==> !Less(sessions[p].createdAt, sessions[q].createdAt)
  }

  lemma NotLessTransitive(a: string, b: string, c: string)
    requires !Less(a, b) && !Less(b, c)
    ensures !Less(a, c)
  {
    if a != b && b != c {
      LessTotal(a, b);
      LessTotal(b, c);
      LessTransitive(c, b, a);
      LessAsymmetric(c, a);
    }
  }

  lemma LessAsymmetric(a: string, b: string)
    requires Less(a, b)
    ensures !Less(b, a)
  {
    if Less(b, a) {
      LessTransitive(a, b, a);
      LessIrreflexive(a);
    }
  }

  /** The in-place sort of `.sort((a, b) => (a.createdAt < b.createdAt ? 1 : -1))`:
      the sessions end up newest first. Sessions with equal `createdAt` may end up
      in any order, as the comparator never reports a tie. */
  method SortNewestFirst(a: array<VoiceSession>)
    modifies a
    ensures multiset(a[..]) == old(multiset(a[..]))
    ensures NewestFirst(a[..])
  {
    if a.Length == 0 {
      return;
    }
    for i := 1 to a.Length
      invariant multiset(a[..]) == old(multiset(a[..]))
      invariant NewestFirst(a[..i])
    {
      Sink(a, i);
    }
    assert a[..a.Length] == a[..];
  }

  /** One insertion step: the session at `i` moves left past every older one. */
  method Sink(a: array<VoiceSession>, i: int)
    requires 0 < i < a.Length
    requires NewestFirst(a[..i])
    modifies a
    ensures multiset(a[..]) == old(multiset(a[..]))
    ensures NewestFirst(a[..i + 1])
  {
    var j := i;
    assert Sinking(a[..], i, j);
    while j > 0 && Less(a[j - 1].createdAt, a[j].createdAt)
      invariant 0 <= j <= i
      invariant multiset(a[..]) == old(multiset(a[..]))
      invariant Sinking(a[..], i, j)
      decreases j
    {
      ghost var before := a[..];
      SinkStep(before, i, j);
      a[j - 1], a[j] := a[j], a[j - 1];
      assert a[..] == before[j - 1 := before[j]][j := before[j - 1]];
      j := j - 1;
    }
    InsertionDone(a[..], i, j);
  }

  /** The session moving left sits at `j`: the others keep their order, and every
      session it has passed is older than it. */
  ghost predicate Sinking(s: seq<VoiceSession>, i: int, j: int)
    requires 0 <= j <= i < |s|
  {
    && (forall p, q :: 0 <= p < q <= i && p != j && q != j ==> !Less(s[p].createdAt, s[q].createdAt))
    && (forall q :: j < q <= i ==> Less(s[q].createdAt, s[j].createdAt))
  }

  lemma SinkStep(s: seq<VoiceSession>, i: int, j: int)
    requires 0 < j <= i < |s|
    requires Sinking(s, i, j)
    requires Less(s[j - 1].createdAt, s[j].createdAt)
    ensures multiset(s[j - 1 := s[j]][j := s[j - 1]]) == multiset(s)
    ensures Sinking(s[j - 1 := s[j]][j := s[j - 1]], i, j - 1)
  {
  }

  /** When the moving session has stopped, the first `i + 1` are newest first. */
  lemma InsertionDone(s: seq<VoiceSession>, i: int, j: int)
    requires 0 <= j <= i < |s|
    requires Sinking(s, i, j)
    requires j == 0 || !Less(s[j - 1].createdAt, s[j].createdAt)
    ensures NewestFirst(s[..i + 1])
  {
    forall p, q | 0 <= p < q <= i
      ensures !Less(s[p].createdAt, s[q].createdAt)
    {
      if q == j {
        if p < j - 1 {
          NotLessTransitive(s[p].createdAt, s[j - 1].createdAt, s[j].createdAt);
        }
      } else if p == j {
        LessAsymmetric(s[q].createdAt, s[j].createdAt);
      }
    }
  }

  /** `listVoiceSessions()`: a sorted copy; the stored order is untouched. */
  method ListVoiceSessions(sessions: seq<VoiceSession>) returns (r: seq<VoiceSession>)
    ensures multiset(r) == multiset(sessions)
    ensures NewestFirst(r)
  {
    var a := new VoiceSession[|sessions|](i requires 0 <= i < |sessions| => sessions[i]);
    assert a[..] == sessions;
    SortNewestFirst(a);
    r := a[..];
  }

  /** `Math.round(length / 80)`, at least 1. */
  function DurationSeconds(length: nat): (d: int)
    ensures d >= 1
    ensures length < 40 ==> d == 1
    ensures length >= 40 ==> 80 * d - 40 <= length < 80 * d + 40
  {
    Max(1, (length + 40) / 80)
  }

  function Transcript(length: nat): string {
    "Transcribed " + NatToString(length) + " bytes of audio into text."
  }

  /** `transcribeAudio(buffer)` for a buffer of `length` bytes. */
  method TranscribeAudio(db: Database, length: nat, random: Entropy, now: string) returns (v: VoiceSession)
    modifies db, db.disk
    ensures v.id == CreateId(Evt, random) && v.createdAt == now
    ensures v.transcript == Transcript(length)
    ensures v.title == Truncate(Transcript(length), 48) && |v.title| <= 48
    ensures v.durationSeconds == DurationSeconds(length) && v.durationSeconds >= 1
    ensures db.schema == old(db.schema).(voiceSessions := old(db.schema.voiceSessions) + [v])
    ensures db.disk.files == old(db.disk.files)[db.path := Store(db.schema)]
  {
    var transcript := Transcript(length);
    v := db.AddVoiceSession(VoiceSessionDraft(Some(CreateId(Evt, random)), Truncate(transcript, 48), transcript,
                                              DurationSeconds(length), None), random, now);
  }

  /** `text.slice(0, 80)` */
  function SpokenText(text: string): (r: string)
    ensures |r| <= 80 && StartsWith(text, r)
    ensures |text| <= 80 ==> r == text
    ensures |text| > 80 ==> |r| == 80
  {
    if |text| <= 80 then text else text[..80]
  }

  /** `synthesizeSpeech(text)`: `random` are the id's random bytes, `encode` is
      `encodeURIComponent`. */
  function SynthesizeSpeech(text: string, random: Entropy, encode: string -> string): (url: string)
    ensures StartsWith(url, SpeechPrefix + CreateId(Evt, random) + "?text=")
  {
    SpeechPrefix + CreateId(Evt, random) + "?text=" + encode(SpokenText(text))
  }

  /** Only the first 80 characters of the text reach the URL. */
  lemma SpeechIgnoresTail(text: string, tail: string, random: Entropy, encode: string -> string)
    requires |text| >= 80
    ensures SynthesizeSpeech(text + tail, random, encode) == SynthesizeSpeech(text, random, encode)
  {
    assert (text + tail)[..80] == text[..80];
  }
}
