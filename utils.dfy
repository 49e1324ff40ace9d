/** packages/utils: identifier format, the sentence chunker, `truncate`, `partition`
    and `capitalize`. */
module Utils {
  import opened JsString

  // ---------------------------------------------------------------------------
  // Identifiers: `createId(prefix)` is the prefix, an underscore and six random
  // bytes in lower-case hexadecimal. The random bytes are a parameter.

  newtype Byte = x: int | 0 <= x < 256

  /** The six bytes `crypto.randomBytes(6)` would return. */
  type Entropy = b: seq<Byte> | |b| == 6 witness [0, 0, 0, 0, 0, 0]

  datatype IdPrefix = Usr | Org | Prd | Sub | Msg | Thr | Evt | Doc

  function PrefixName(p: IdPrefix): string {
    match p
    case Usr => "usr"
    case Org => "org"
    case Prd => "prd"
    case Sub => "sub"
    case Msg => "msg"
    case Thr => "thr"
    case Evt => "evt"
    case Doc => "doc"
  }

  predicate IsHexDigit(c: char) {
    '0' <= c <= '9' || 'a' <= c <= 'f'
  }

  function HexDigit(n: int): (c: char)
    requires 0 <= n < 16
    ensures IsHexDigit(c)
  {
    if n < 10 then ('0' as int + n) as char else ('a' as int + n - 10) as char
  }

  /** `buffer.toString('hex')`: two lower-case hexadecimal digits per byte. */
  function Hex(bytes: seq<Byte>): (r: string)
    ensures |r| == 2 * |bytes|
    ensures forall i :: 0 <= i < |r| ==> IsHexDigit(r[i])
  {
    if bytes == [] then []
    else [HexDigit(bytes[0] as int / 16), HexDigit(bytes[0] as int % 16)] + Hex(bytes[1..])
  }

  lemma {:induction false} HexInjective(a: seq<Byte>, b: seq<Byte>)
    requires |a| == |b| && Hex(a) == Hex(b)
    ensures a == b
  {
    if a != [] {
      var ha, hb := Hex(a), Hex(b);
      assert ha[0] == hb[0] && ha[1] == hb[1];
      assert a[0] as int / 16 == b[0] as int / 16;
      assert a[0] as int % 16 == b[0] as int % 16;
      assert ha[2..] == Hex(a[1..]) && hb[2..] == Hex(b[1..]);
      HexInjective(a[1..], b[1..]);
      assert a == [a[0]] + a[1..] && b == [b[0]] + b[1..];
    }
  }

  /** `createId(prefix)` with the random bytes given. */
  function CreateId(prefix: IdPrefix, random: Entropy): (id: string)
    ensures |id| == |PrefixName(prefix)| + 13
    ensures StartsWith(id, PrefixName(prefix) + "_")
    ensures forall i :: |PrefixName(prefix)| + 1 <= i < |id| ==> IsHexDigit(id[i])
  {
    PrefixName(prefix) + "_" + Hex(random)
  }

  /** Different random bytes give different identifiers: two identifiers with the
      same prefix collide only when the random bytes do. */
  lemma CreateIdInjective(prefix: IdPrefix, a: Entropy, b: Entropy)
    requires CreateId(prefix, a) == CreateId(prefix, b)
    ensures a == b
  {
    var n := |PrefixName(prefix)| + 1;
    assert CreateId(prefix, a)[n..] == Hex(a);
    assert CreateId(prefix, b)[n..] == Hex(b);
    HexInjective(a, b);
  }

  // ---------------------------------------------------------------------------
  // `Math.round(average(values))`

  /** `values.reduce((total, value) => total + value, 0)` */
  function Sum(values: seq<int>): int {
    if values == [] then 0 else Sum(values[..|values| - 1]) + values[|values| - 1]
  }

  /** `Math.round(average(values))`: the average rounded to the nearest integer, a
      half rounded up; 0 for no values. */
  function RoundedAverage(values: seq<int>): (r: int)
    ensures values == [] ==> r == 0
    ensures values != [] ==> 2 * |values| * r - |values| <= 2 * Sum(values) < 2 * |values| * r + |values|
  {
    if values == [] then 0 else (2 * Sum(values) + |values|) / (2 * |values|)
  }

  lemma {:induction false} SumBounds(values: seq<int>, lo: int, hi: int)
    requires forall k :: 0 <= k < |values| ==> lo <= values[k] <= hi
    ensures |values| * lo <= Sum(values) <= |values| * hi
  {
    if values != [] {
      var n := |values| - 1;
      var init := values[..n];
      assert forall k :: 0 <= k < |init| ==> init[k] == values[k];
      SumBounds(init, lo, hi);
      assert Sum(values) == Sum(init) + values[n];
      BoundsStep(n, Sum(init), values[n], lo, hi);
    }
  }

  lemma BoundsStep(n: int, s: int, x: int, lo: int, hi: int)
    requires n * lo <= s <= n * hi && lo <= x <= hi
    ensures (n + 1) * lo <= s + x <= (n + 1) * hi
  {
    assert (n + 1) * lo == n * lo + lo && (n + 1) * hi == n * hi + hi;
  }

  /** The rounded average lies between the smallest and the largest value, and is
      the value itself when all are equal. */
  lemma RoundedAverageBounds(values: seq<int>, lo: int, hi: int)
    requires values != []
    requires forall k :: 0 <= k < |values| ==> lo <= values[k] <= hi
    ensures lo <= RoundedAverage(values) <= hi
    ensures lo == hi ==> RoundedAverage(values) == lo
  {
    SumBounds(values, lo, hi);
    RoundedBetween(|values|, Sum(values), RoundedAverage(values), lo, hi);
  }

  /** `r` within half of `s / n`, and `s / n` between `lo` and `hi`, put `r` there too. */
  lemma RoundedBetween(n: int, s: int, r: int, lo: int, hi: int)
    requires n > 0
    requires n * lo <= s <= n * hi
    requires 2 * n * r - n <= 2 * s < 2 * n * r + n
    ensures lo <= r <= hi
  {
    assert n * (r + 1) == n * r + n && n * (r - 1) == n * r - n && 2 * n * r == 2 * (n * r);
    if r < lo {
      ScaleLe(n, r + 1, lo);
    }
    if r > hi {
      ScaleLe(n, hi, r - 1);
    }
  }

  lemma ScaleLe(n: nat, a: int, b: int)
    requires a <= b
    ensures n * a <= n * b
  {
    assert n * b - n * a == n * (b - a);
  }

  // ---------------------------------------------------------------------------
  // `truncate`, `capitalize`, `partition`

  function Max(a: int, b: int): int {
    if a < b then b else a
  }

  /** `truncate(text, maxLength)`: the text itself when it fits; otherwise a prefix of
      it followed by "...", never longer than `maxLength` once `maxLength >= 3`. */
  function Truncate(text: string, maxLength: int): (r: string)
    ensures |text| <= maxLength ==> r == text
    ensures |text| > maxLength ==>
      |r| == Max(0, maxLength - 3) + 3 && EndsWith(r, "...") && StartsWith(text, r[..|r| - 3])
    ensures |r| <= Max(3, maxLength)
  {
    if |text| <= maxLength then text
    else text[..Max(0, maxLength - 3)] + "..."
  }

  /** `capitalize(value)`: the first character upper-cased, the rest unchanged. */
  function Capitalize(value: string): (r: string)
    ensures |r| == |value|
    ensures value != [] ==> r[0] == ToUpperChar(value[0]) && r[1..] == value[1..]
  {
    if value == [] then value else [ToUpperChar(value[0])] + value[1..]
  }

  /** The items on which `test` returns `keep`, in their order. */
  function Keep<T>(items: seq<T>, test: T -> bool, keep: bool): seq<T> {
    if items == [] then []
    else
      var kept := Keep(items[..|items| - 1], test, keep);
      if test(items[|items| - 1]) == keep then kept + [items[|items| - 1]] else kept
  }

  /** `partition(items, predicate)`, the predicate named `test` here */
  method Partition<T>(items: seq<T>, test: T -> bool) returns (left: seq<T>, right: seq<T>)
    ensures left == Keep(items, test, true)
    ensures right == Keep(items, test, false)
  {
    left, right := [], [];
    for i := 0 to |items|
      invariant left == Keep(items[..i], test, true)
      invariant right == Keep(items[..i], test, false)
    {
      assert items[..i + 1][..i] == items[..i];
      if test(items[i]) {
        left := left + [items[i]];
      } else {
        right := right + [items[i]];
      }
    }
    assert items[..|items|] == items;
  }

  /** The two sides of a partition split the items between them: every item lands on
      exactly one side, and each side holds only the items that belong there. */
  lemma {:induction false} PartitionSplitsItems<T>(items: seq<T>, test: T -> bool)
    ensures multiset(Keep(items, test, true)) + multiset(Keep(items, test, false)) == multiset(items)
    ensures |Keep(items, test, true)| + |Keep(items, test, false)| == |items|
    ensures forall x :: x in Keep(items, test, true) ==> test(x)
    ensures forall x :: x in Keep(items, test, false) ==> !test(x)
  {
    if items != [] {
      var prefix := items[..|items| - 1];
      PartitionSplitsItems(prefix, test);
      assert items == prefix + [items[|items| - 1]];
    }
  }

  // ---------------------------------------------------------------------------
  // The sentence chunker `chunkText(source, maxLength = 500)`.

  predicate IsSentenceEnd(c: char) {
    c == '.' || c == '!' || c == '?'
  }

  /** The end of the white-space run of `s` that starts at `i`. */
  function SpaceRunEnd(s: string, i: nat): (e: nat)
    requires i <= |s|
    ensures i <= e <= |s|
    ensures AllSpace(s[i..e])
    ensures e == |s| || !IsSpace(s[e])
    decreases |s| - i
  {
    if i < |s| && IsSpace(s[i]) then SpaceRunEnd(s, i + 1) else i
  }

  /** `s.split(/(?<=[.!?])\s+/g)`, scanning at `q` while the current piece starts at
      `p`: a separator is a maximal run of white space right after `.`, `!` or `?`. */
  function SplitSentencesFrom(s: string, p: nat, q: nat): (r: seq<string>)
    requires p <= q <= |s|
    ensures |r| >= 1
    decreases |s| - q
  {
    if q == |s| then [s[p..]]
    else if q > 0 && IsSentenceEnd(s[q - 1]) && IsSpace(s[q]) then
      var e := SpaceRunEnd(s, q);
      [s[p..q]] + SplitSentencesFrom(s, e, e)
    else SplitSentencesFrom(s, p, q + 1)
  }

  function SplitSentences(s: string): (r: seq<string>)
    ensures |r| >= 1
  {
    SplitSentencesFrom(s, 0, 0)
  }

  lemma {:induction false} SplitSentencesFromKeepsText(s: string, p: nat, q: nat)
    requires p <= q <= |s|
    ensures NonSpace(Concat(SplitSentencesFrom(s, p, q))) == NonSpace(s[p..])
    decreases |s| - q
  {
    if q == |s| {
      assert SplitSentencesFrom(s, p, q) == [s[p..]];
      assert [s[p..]][1..] == [];
      assert Concat([s[p..]]) == s[p..] + Concat([]);
      assert Concat(SplitSentencesFrom(s, p, q)) == s[p..];
    } else if q > 0 && IsSentenceEnd(s[q - 1]) && IsSpace(s[q]) {
      var e := SpaceRunEnd(s, q);
      SplitSentencesFromKeepsText(s, e, e);
      var rest := SplitSentencesFrom(s, e, e);
      assert Concat([s[p..q]] + rest) == s[p..q] + Concat(rest);
      NonSpaceConcat(s[p..q], Concat(rest));
      assert s[p..] == s[p..q] + s[q..e] + s[e..];
      NonSpaceConcat(s[p..q] + s[q..e], s[e..]);
      NonSpaceConcat(s[p..q], s[q..e]);
      NonSpaceAllSpace(s[q..e]);
    } else {
      SplitSentencesFromKeepsText(s, p, q + 1);
    }
  }

  /** Splitting into sentences drops only white space. */
  lemma SplitSentencesKeepsText(s: string)
    ensures NonSpace(Concat(SplitSentences(s))) == NonSpace(s)
  {
    SplitSentencesFromKeepsText(s, 0, 0);
  }

  /** The loop state of the chunker: the chunks pushed so far and the buffer. */
  datatype Chunking = Chunking(parts: seq<string>, buffer: string)

  /** One iteration of the chunker's loop. */
  function SentenceStep(st: Chunking, sentence: string, maxLength: int): Chunking {
    if |st.buffer + sentence| > maxLength then
      Chunking(if st.buffer != [] then st.parts + [Trim(st.buffer)] else st.parts, sentence)
    else
      Chunking(st.parts, Trim(st.buffer + " " + sentence))
  }

  /** The loop state after the given sentences. */
  function FoldSentences(sentences: seq<string>, maxLength: int): Chunking {
    if sentences == [] then Chunking([], [])
    else SentenceStep(FoldSentences(sentences[..|sentences| - 1], maxLength), sentences[|sentences| - 1], maxLength)
  }

  /** The final `if (buffer) parts.push(buffer.trim())`. */
  function FlushBuffer(st: Chunking): seq<string> {
    if st.buffer != [] then st.parts + [Trim(st.buffer)] else st.parts
  }

  /** What `chunkText(source, maxLength)` returns. */
  function SentenceChunks(source: string, maxLength: int): (r: seq<string>)
    ensures IsBlank(source) ==> r == []
  {
    TrimEmptyIffBlank(source);
    if Trim(source) == [] then [] else FlushBuffer(FoldSentences(SplitSentences(source), maxLength))
  }

  /** `chunkText(source, maxLength = 500)` */
  method ChunkText(source: string, maxLength: int := 500) returns (parts: seq<string>)
    ensures parts == SentenceChunks(source, maxLength)
  {
    if Trim(source) == [] {
      return [];
    }
    var sentences := SplitSentences(source);
    parts := [];
    var buffer: string := [];
    for i := 0 to |sentences|
      invariant Chunking(parts, buffer) == FoldSentences(sentences[..i], maxLength)
    {
      assert sentences[..i + 1][..i] == sentences[..i];
      var sentence := sentences[i];
      if |buffer + sentence| > maxLength {
        if buffer != [] {
          parts := parts + [Trim(buffer)];
        }
        buffer := sentence;
      } else {
        buffer := Trim(buffer + " " + sentence);
      }
    }
    assert sentences[..|sentences|] == sentences;
    if buffer != [] {
      parts := parts + [Trim(buffer)];
    }
  }

  // ---------------------------------------------------------------------------
  // Which sentences each chunk is made of.

  /** The number of sentences in `group` that hold something besides white space. */
  function CountNonBlank(group: seq<string>): nat {
    if group == [] then 0 else (if IsBlank(group[0]) then 0 else 1) + CountNonBlank(group[1..])
  }

  predicate AllBlank(group: seq<string>) {
    forall j :: 0 <= j < |group| ==> IsBlank(group[j])
  }

  /** The grouping of the sentences that the chunker's decisions induce: the closed
      groups (one per pushed chunk), the sentences of the current buffer, and whether
      the buffer has been extended by the `else` branch since it was last reset. */
  datatype Grouping = Grouping(groups: seq<seq<string>>, current: seq<string>, appended: bool)

  ghost function GroupSentences(sentences: seq<string>, maxLength: int): Grouping {
    if sentences == [] then Grouping([], [], false)
    else
      var prev := sentences[..|sentences| - 1];
      var sentence := sentences[|sentences| - 1];
      var g := GroupSentences(prev, maxLength);
      var buffer := FoldSentences(prev, maxLength).buffer;
      if |buffer + sentence| > maxLength then
        if buffer != [] then Grouping(g.groups + [g.current], [sentence], false)
        else Grouping(g.groups, g.current + [sentence], false)
      else Grouping(g.groups, g.current + [sentence], true)
  }

  /** `chunk` is made of the sentences of `group`: a non-empty group whose visible
      text the chunk holds in order; a chunk of two or more non-blank sentences is at
      most `maxLength + 1` long; a sentence longer than `maxLength` can only be the
      last of its group, and its chunk is then that sentence trimmed. */
  ghost predicate ChunkOfGroup(chunk: string, group: seq<string>, maxLength: int) {
    && group != []
    && NonSpace(chunk) == NonSpace(Concat(group))
    && (CountNonBlank(group) >= 2 ==> |chunk| <= maxLength + 1)
    && (forall j :: 0 <= j < |group| && |group[j]| > maxLength ==> j == |group| - 1 && chunk == Trim(group[j]))
  }

  ghost predicate ChunksOfGroups(chunks: seq<string>, groups: seq<seq<string>>, maxLength: int) {
    |chunks| == |groups| && forall k :: 0 <= k < |groups| ==> ChunkOfGroup(chunks[k], groups[k], maxLength)
  }

  /** How the buffer relates to the sentences it has taken in since the last push. */
  ghost predicate BufferOfGroup(buffer: string, current: seq<string>, appended: bool, maxLength: int) {
    && NonSpace(buffer) == NonSpace(Concat(current))
    && (appended ==> current != [] && |buffer| <= maxLength + 1)
    && (!appended ==>
          (current == [] && buffer == []) ||
          (current != [] && buffer == current[|current| - 1] && AllBlank(current[..|current| - 1])))
    && (forall j :: 0 <= j < |current| && |current[j]| > maxLength ==> j == |current| - 1 && !appended)
  }

  /** How the loop state and the grouping agree after `sentences`. */
  ghost predicate GroupsAgree(sentences: seq<string>, maxLength: int, st: Chunking, g: Grouping) {
    && ChunksOfGroups(st.parts, g.groups, maxLength)
    && Flatten(g.groups) + g.current == sentences
    && BufferOfGroup(st.buffer, g.current, g.appended, maxLength)
  }

  lemma {:induction false} CountNonBlankAppend(group: seq<string>, s: string)
    ensures CountNonBlank(group + [s]) == CountNonBlank(group) + (if IsBlank(s) then 0 else 1)
  {
    if group != [] {
      assert (group + [s])[1..] == group[1..] + [s];
      CountNonBlankAppend(group[1..], s);
    }
  }

  lemma {:induction false} CountNonBlankAllBlank(group: seq<string>)
    requires AllBlank(group)
    ensures CountNonBlank(group) == 0
  {
    if group != [] {
      CountNonBlankAllBlank(group[1..]);
    }
  }

  lemma {:induction false} BlankConcatAllBlank(group: seq<string>)
    requires NonSpace(Concat(group)) == []
    ensures AllBlank(group)
  {
    if group != [] {
      NonSpaceConcat(group[0], Concat(group[1..]));
      BlankConcatAllBlank(group[1..]);
    }
  }

  lemma NonSpaceConcatSnoc(group: seq<string>, s: string)
    ensures NonSpace(Concat(group + [s])) == NonSpace(Concat(group)) + NonSpace(s)
  {
    ConcatAppend(group, [s]);
    assert Concat([s]) == s;
    NonSpaceConcat(Concat(group), s);
  }

  lemma NonSpaceJoined(buffer: string, sentence: string)
    ensures NonSpace(Trim(buffer + " " + sentence)) == NonSpace(buffer) + NonSpace(sentence)
  {
    var joined := buffer + " " + sentence;
    NonSpaceTrim(joined);
    NonSpaceConcat(buffer + " ", sentence);
    NonSpaceConcat(buffer, " ");
    NonSpaceAllSpace(" ");
  }

  /** A buffer that is pushed becomes the chunk of the sentences it took in. */
  lemma CloseGroup(buffer: string, current: seq<string>, appended: bool, maxLength: int)
    requires BufferOfGroup(buffer, current, appended, maxLength)
    requires buffer != []
    ensures ChunkOfGroup(Trim(buffer), current, maxLength)
  {
    NonSpaceTrim(buffer);
    if appended {
      CloseJoinedGroup(buffer, current, maxLength);
    } else {
      CloseSingleGroup(buffer, current, maxLength);
    }
  }

  /** A buffer of joined sentences fits, and none of its sentences is over-long. */
  lemma CloseJoinedGroup(buffer: string, current: seq<string>, maxLength: int)
    requires BufferOfGroup(buffer, current, true, maxLength)
    ensures current != [] && |Trim(buffer)| <= maxLength + 1
    ensures forall j :: 0 <= j < |current| ==> |current[j]| <= maxLength
  {
  }

  /** A buffer holding one sentence after blank ones has at most one non-blank
      sentence, and is that sentence. */
  lemma CloseSingleGroup(buffer: string, current: seq<string>, maxLength: int)
    requires BufferOfGroup(buffer, current, false, maxLength)
    requires buffer != []
    ensures current != [] && buffer == current[|current| - 1]
    ensures CountNonBlank(current) <= 1
    ensures forall j :: 0 <= j < |current| && |current[j]| > maxLength ==> j == |current| - 1
  {
    var n := |current| - 1;
    assert current == current[..n] + [current[n]];
    CountNonBlankAllBlank(current[..n]);
    CountNonBlankAppend(current[..n], current[n]);
  }

  lemma ChunksOfGroupsAppend(chunks: seq<string>, groups: seq<seq<string>>, c: string, g: seq<string>, maxLength: int)
    requires ChunksOfGroups(chunks, groups, maxLength)
    requires ChunkOfGroup(c, g, maxLength)
    ensures ChunksOfGroups(chunks + [c], groups + [g], maxLength)
  {
  }

  /** An empty buffer holds no over-long sentence. */
  lemma EmptyBufferNoOverlong(current: seq<string>, appended: bool, maxLength: int)
    requires maxLength >= 0
    requires BufferOfGroup([], current, appended, maxLength)
    ensures forall j :: 0 <= j < |current| ==> |current[j]| <= maxLength
  {
    forall j | 0 <= j < |current|
      ensures |current[j]| <= maxLength
    {
      if j == |current| - 1 && !appended {
        assert current[j] == [];
      }
    }
  }

  /** A buffer that fits together with the next sentence holds no over-long sentence. */
  lemma FittingBufferNoOverlong(buffer: string, current: seq<string>, appended: bool, maxLength: int, s: string)
    requires BufferOfGroup(buffer, current, appended, maxLength)
    requires |buffer + s| <= maxLength
    ensures forall j :: 0 <= j < |current| ==> |current[j]| <= maxLength
  {
    forall j | 0 <= j < |current|
      ensures |current[j]| <= maxLength
    {
      if j == |current| - 1 && !appended {
        assert current[j] == buffer;
      }
    }
  }

  lemma GroupStepPush(sentences: seq<string>, maxLength: int, st: Chunking, g: Grouping, s: string)
    requires GroupsAgree(sentences, maxLength, st, g)
    requires st.buffer != []
    ensures GroupsAgree(sentences + [s], maxLength,
                        Chunking(st.parts + [Trim(st.buffer)], s), Grouping(g.groups + [g.current], [s], false))
  {
    CloseGroup(st.buffer, g.current, g.appended, maxLength);
    ChunksOfGroupsAppend(st.parts, g.groups, Trim(st.buffer), g.current, maxLength);
    FlattenAppend(g.groups, [g.current]);
    assert Flatten([g.current]) == g.current;
    assert Concat([s]) == s;
  }

  lemma GroupStepRestart(sentences: seq<string>, maxLength: int, st: Chunking, g: Grouping, s: string)
    requires maxLength >= 0
    requires GroupsAgree(sentences, maxLength, st, g)
    requires st.buffer == []
    ensures GroupsAgree(sentences + [s], maxLength, Chunking(st.parts, s), Grouping(g.groups, g.current + [s], false))
  {
    var current := g.current + [s];
    BlankConcatAllBlank(g.current);
    assert current[..|current| - 1] == g.current;
    NonSpaceConcatSnoc(g.current, s);
    EmptyBufferNoOverlong(g.current, g.appended, maxLength);
  }

  /** Appending a sentence that fits to the buffer. */
  lemma BufferAppend(buffer: string, current: seq<string>, appended: bool, maxLength: int, s: string)
    requires BufferOfGroup(buffer, current, appended, maxLength)
    requires |buffer + s| <= maxLength
    ensures BufferOfGroup(Trim(buffer + " " + s), current + [s], true, maxLength)
  {
    var current' := current + [s];
    NonSpaceJoined(buffer, s);
    NonSpaceConcatSnoc(current, s);
    FittingBufferNoOverlong(buffer, current, appended, maxLength, s);
    assert forall j :: 0 <= j < |current'| ==> |current'[j]| <= maxLength;
  }

  lemma GroupStepAppend(sentences: seq<string>, maxLength: int, st: Chunking, g: Grouping, s: string)
    requires GroupsAgree(sentences, maxLength, st, g)
    requires |st.buffer + s| <= maxLength
    ensures GroupsAgree(sentences + [s], maxLength,
                        Chunking(st.parts, Trim(st.buffer + " " + s)), Grouping(g.groups, g.current + [s], true))
  {
    BufferAppend(st.buffer, g.current, g.appended, maxLength, s);
    assert Flatten(g.groups) + (g.current + [s]) == sentences + [s];
  }

  lemma {:induction false} GroupSentencesAgree(sentences: seq<string>, maxLength: int)
    requires maxLength >= 0
    ensures GroupsAgree(sentences, maxLength, FoldSentences(sentences, maxLength), GroupSentences(sentences, maxLength))
  {
    if sentences != [] {
      var prev := sentences[..|sentences| - 1];
      var s := sentences[|sentences| - 1];
      GroupSentencesAgree(prev, maxLength);
      assert sentences == prev + [s];
      var st := FoldSentences(prev, maxLength);
      var g := GroupSentences(prev, maxLength);
      if |st.buffer + s| > maxLength {
        if st.buffer != [] {
          GroupStepPush(prev, maxLength, st, g, s);
        } else {
          GroupStepRestart(prev, maxLength, st, g, s);
        }
      } else {
        GroupStepAppend(prev, maxLength, st, g, s);
      }
    }
  }

  /** The sentences of each chunk `chunkText(source, maxLength)` returns. */
  ghost function SentenceGroups(source: string, maxLength: int): seq<seq<string>> {
    if Trim(source) == [] then []
    else
      var sentences := SplitSentences(source);
      var st := FoldSentences(sentences, maxLength);
      var g := GroupSentences(sentences, maxLength);
      if st.buffer != [] then g.groups + [g.current] else g.groups
  }

  /** The chunker keeps sentences whole and in order: chunk k is made of group k of
      consecutive sentences (see ChunkOfGroup), the groups cover the sentences from
      the first one, and only blank sentences may be left over at the end. */
  lemma SentenceChunksGroups(source: string, maxLength: int)
    requires maxLength >= 0
    ensures var groups, sentences := SentenceGroups(source, maxLength), SplitSentences(source);
      && ChunksOfGroups(SentenceChunks(source, maxLength), groups, maxLength)
      && |Flatten(groups)| <= |sentences|
      && Flatten(groups) == sentences[..|Flatten(groups)|]
      && IsBlank(Concat(sentences[|Flatten(groups)|..]))
  {
    if Trim(source) == [] {
      BlankSourceGroups(source, maxLength);
    } else {
      GroupSentencesAgree(SplitSentences(source), maxLength);
      FoldedGroups(SplitSentences(source), maxLength);
    }
  }

  /** A blank source has no chunk and no group, and all its sentences are blank. */
  lemma BlankSourceGroups(source: string, maxLength: int)
    requires Trim(source) == []
    ensures SentenceGroups(source, maxLength) == [] && SentenceChunks(source, maxLength) == []
    ensures IsBlank(Concat(SplitSentences(source)))
  {
    TrimEmptyIffBlank(source);
    SplitSentencesKeepsText(source);
  }

  /** Flushing the last buffer closes the last group. */
  lemma FoldedGroups(sentences: seq<string>, maxLength: int)
    requires GroupsAgree(sentences, maxLength, FoldSentences(sentences, maxLength), GroupSentences(sentences, maxLength))
    ensures var st, g := FoldSentences(sentences, maxLength), GroupSentences(sentences, maxLength);
      var groups := if st.buffer != [] then g.groups + [g.current] else g.groups;
      && ChunksOfGroups(FlushBuffer(st), groups, maxLength)
      && |Flatten(groups)| <= |sentences|
      && Flatten(groups) == sentences[..|Flatten(groups)|]
      && IsBlank(Concat(sentences[|Flatten(groups)|..]))
  {
    var st := FoldSentences(sentences, maxLength);
    var g := GroupSentences(sentences, maxLength);
    if st.buffer != [] {
      CloseLastGroup(sentences, maxLength, st, g);
    } else {
      BlankLastGroup(sentences, maxLength, st, g);
    }
  }

  lemma CloseLastGroup(sentences: seq<string>, maxLength: int, st: Chunking, g: Grouping)
    requires GroupsAgree(sentences, maxLength, st, g) && st.buffer != []
    ensures ChunksOfGroups(st.parts + [Trim(st.buffer)], g.groups + [g.current], maxLength)
    ensures Flatten(g.groups + [g.current]) == sentences
    ensures sentences[|sentences|..] == []
  {
    CloseGroup(st.buffer, g.current, g.appended, maxLength);
    ChunksOfGroupsAppend(st.parts, g.groups, Trim(st.buffer), g.current, maxLength);
    FlattenSnoc(g.groups, g.current);
  }

  lemma BlankLastGroup(sentences: seq<string>, maxLength: int, st: Chunking, g: Grouping)
    requires GroupsAgree(sentences, maxLength, st, g) && st.buffer == []
    ensures |Flatten(g.groups)| <= |sentences| && Flatten(g.groups) == sentences[..|Flatten(g.groups)|]
    ensures IsBlank(Concat(sentences[|Flatten(g.groups)|..]))
  {
    assert sentences[|Flatten(g.groups)|..] == g.current;
  }

  lemma {:induction false} NonSpaceConcatGroups(chunks: seq<string>, groups: seq<seq<string>>)
    requires |chunks| == |groups|
    requires forall k :: 0 <= k < |groups| ==> NonSpace(chunks[k]) == NonSpace(Concat(groups[k]))
    ensures NonSpace(Concat(chunks)) == NonSpace(Concat(Flatten(groups)))
  {
    if chunks != [] {
      NonSpaceConcatGroups(chunks[1..], groups[1..]);
      NonSpaceConcat(chunks[0], Concat(chunks[1..]));
      ConcatAppend(groups[0], Flatten(groups[1..]));
      NonSpaceConcat(Concat(groups[0]), Concat(Flatten(groups[1..])));
    }
  }

  /** Chunks of groups hold the visible text of the grouped sentences. */
  lemma ChunksKeepGroupText(chunks: seq<string>, groups: seq<seq<string>>, maxLength: int)
    requires ChunksOfGroups(chunks, groups, maxLength)
    ensures NonSpace(Concat(chunks)) == NonSpace(Concat(Flatten(groups)))
  {
    forall k | 0 <= k < |groups| ensures NonSpace(chunks[k]) == NonSpace(Concat(groups[k])) {
      assert ChunkOfGroup(chunks[k], groups[k], maxLength);
    }
    NonSpaceConcatGroups(chunks, groups);
  }

  /** A blank rest adds no visible text. */
  lemma BlankRest(sentences: seq<string>, n: int)
    requires 0 <= n <= |sentences|
    requires IsBlank(Concat(sentences[n..]))
    ensures NonSpace(Concat(sentences)) == NonSpace(Concat(sentences[..n]))
  {
    assert sentences == sentences[..n] + sentences[n..];
    ConcatAppend(sentences[..n], sentences[n..]);
    NonSpaceConcat(Concat(sentences[..n]), Concat(sentences[n..]));
  }

  /** Chunks of groups that cover the sentences up to a blank rest hold the visible
      text of the sentences. */
  lemma GroupsKeepText(chunks: seq<string>, groups: seq<seq<string>>, sentences: seq<string>, maxLength: int)
    requires ChunksOfGroups(chunks, groups, maxLength)
    requires |Flatten(groups)| <= |sentences| && Flatten(groups) == sentences[..|Flatten(groups)|]
    requires IsBlank(Concat(sentences[|Flatten(groups)|..]))
    ensures NonSpace(Concat(chunks)) == NonSpace(Concat(sentences))
  {
    ChunksKeepGroupText(chunks, groups, maxLength);
    BlankRest(sentences, |Flatten(groups)|);
  }

  /** Chunking loses, duplicates and reorders no visible character of the source. */
  lemma SentenceChunksKeepText(source: string, maxLength: int)
    requires maxLength >= 0
    ensures NonSpace(Concat(SentenceChunks(source, maxLength))) == NonSpace(source)
  {
    SentenceChunksGroups(source, maxLength);
    GroupsKeepText(SentenceChunks(source, maxLength), SentenceGroups(source, maxLength), SplitSentences(source), maxLength);
    SplitSentencesKeepsText(source);
  }

  /** The chunker returns no chunk exactly when the source is blank. */
  lemma SentenceChunksEmptyIffBlank(source: string, maxLength: int)
    requires maxLength >= 0
    ensures SentenceChunks(source, maxLength) == [] <==> IsBlank(source)
  {
    SentenceChunksKeepText(source, maxLength);
    TrimEmptyIffBlank(source);
  }
}
