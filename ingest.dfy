/** scripts/ingest.ts: the command-line parser, the slug of a markdown file, the
    paragraph chunker and the document title. The database and file-system work of
    `ingest()` is not part of this model. */
module Ingest {
  import opened Wrappers
  import opened JsString
  import opened Utils

  // ---------------------------------------------------------------------------
  // `parseArgs()`

  datatype IngestOptions = IngestOptions(sourcePath: string, dryRun: bool)

  function DefaultOptions(root: string): IngestOptions {
    IngestOptions(ResolvePath(root, "docs"), false)
  }

  predicate IsPathFlag(arg: string) {
    arg == "--path" || arg == "-p"
  }

  /** The loop of `parseArgs` from index `i` with the options built so far. */
  function ParseArgsFrom(root: string, args: seq<string>, i: nat, options: IngestOptions): Result<IngestOptions>
    decreases |args| - i
  {
    if i >= |args| then Success(options)
    else if IsPathFlag(args[i]) then
      if i + 1 >= |args| || args[i + 1] == [] then Failure("Missing value for --path")
      else ParseArgsFrom(root, args, i + 2, options.(sourcePath := ResolvePath(root, args[i + 1])))
    else if args[i] == "--dry-run" then ParseArgsFrom(root, args, i + 1, options.(dryRun := true))
    else ParseArgsFrom(root, args, i + 1, options)
  }

  /** `parseArgs()` over `process.argv.slice(2)`, with `ROOT_DIR` given. */
  method ParseArgs(root: string, args: seq<string>) returns (r: Result<IngestOptions>)
    ensures r == ParseArgsFrom(root, args, 0, DefaultOptions(root))
  {
    var options := DefaultOptions(root);
    var i := 0;
    while i < |args|
      invariant i <= |args|
      invariant ParseArgsFrom(root, args, i, options) == ParseArgsFrom(root, args, 0, DefaultOptions(root))
      decreases |args| - i
    {
      var arg := args[i];
      if IsPathFlag(arg) {
        if i + 1 >= |args| || args[i + 1] == [] {
          return Failure("Missing value for --path");
        }
        options := options.(sourcePath := ResolvePath(root, args[i + 1]));
        i := i + 1;
      } else if arg == "--dry-run" {
        options := options.(dryRun := true);
      }
      i := i + 1;
    }
    return Success(options);
  }

  lemma {:induction false} ParseArgsShift(root: string, a: seq<string>, b: seq<string>, j: nat, options: IngestOptions)
    ensures ParseArgsFrom(root, a + b, |a| + j, options) == ParseArgsFrom(root, b, j, options)
    decreases |b| - j
  {
    if j < |b| {
      assert (a + b)[|a| + j] == b[j];
      if j + 1 < |b| {
        assert (a + b)[|a| + j + 1] == b[j + 1];
      }
      if IsPathFlag(b[j]) {
        if j + 1 < |b| && b[j + 1] != [] {
          ParseArgsShift(root, a, b, j + 2, options.(sourcePath := ResolvePath(root, b[j + 1])));
        }
      } else if b[j] == "--dry-run" {
        ParseArgsShift(root, a, b, j + 1, options.(dryRun := true));
      } else {
        ParseArgsShift(root, a, b, j + 1, options);
      }
    }
  }

  /** Arguments are read left to right: once a prefix parses, the rest continues
      from the options the prefix produced. */
  lemma {:induction false} ParseArgsAppend(root: string, a: seq<string>, b: seq<string>, i: nat, options: IngestOptions)
    requires i <= |a| && ParseArgsFrom(root, a, i, options).Success?
    ensures ParseArgsFrom(root, a + b, i, options) == ParseArgsFrom(root, b, 0, ParseArgsFrom(root, a, i, options).value)
    decreases |a| - i
  {
    if i == |a| {
      ParseArgsShift(root, a, b, 0, options);
    } else {
      assert (a + b)[i] == a[i];
      if IsPathFlag(a[i]) {
        assert (a + b)[i + 1] == a[i + 1];
        ParseArgsAppend(root, a, b, i + 2, options.(sourcePath := ResolvePath(root, a[i + 1])));
      } else if a[i] == "--dry-run" {
        ParseArgsAppend(root, a, b, i + 1, options.(dryRun := true));
      } else {
        ParseArgsAppend(root, a, b, i + 1, options);
      }
    }
  }

  /** A later `--path` overrides an earlier one; `--dry-run` only sets `dryRun`;
      any other argument is ignored; a `--path` with no value, or an empty one,
      fails. */
  lemma ParseArgsLaterArguments(root: string, a: seq<string>, flag: string, value: string, other: string)
    requires ParseArgsFrom(root, a, 0, DefaultOptions(root)).Success?
    requires IsPathFlag(flag) && value != []
    requires !IsPathFlag(other) && other != "--dry-run"
    ensures var o := ParseArgsFrom(root, a, 0, DefaultOptions(root)).value;
      && ParseArgsFrom(root, a + [flag, value], 0, DefaultOptions(root)) == Success(o.(sourcePath := ResolvePath(root, value)))
      && ParseArgsFrom(root, a + ["--dry-run"], 0, DefaultOptions(root)) == Success(o.(dryRun := true))
      && ParseArgsFrom(root, a + [other], 0, DefaultOptions(root)) == Success(o)
      && ParseArgsFrom(root, a + [flag], 0, DefaultOptions(root)) == Failure("Missing value for --path")
      && ParseArgsFrom(root, a + [flag, []], 0, DefaultOptions(root)) == Failure("Missing value for --path")
  {
    var o := ParseArgsFrom(root, a, 0, DefaultOptions(root)).value;
    ParseArgsAppend(root, a, [flag, value], 0, DefaultOptions(root));
    ParseArgsAppend(root, a, ["--dry-run"], 0, DefaultOptions(root));
    ParseArgsAppend(root, a, [other], 0, DefaultOptions(root));
    ParseArgsAppend(root, a, [flag], 0, DefaultOptions(root));
    ParseArgsAppend(root, a, [flag, []], 0, DefaultOptions(root));
  }

  // ---------------------------------------------------------------------------
  // `slugFromPath(filePath)`

  predicate OccursAt(s: string, pattern: string, j: nat) {
    j + |pattern| <= |s| && s[j..j + |pattern|] == pattern
  }

  /** The first index at or after `i` at which `pattern` occurs in `s`. */
  function IndexOfFrom(s: string, pattern: string, i: nat): (r: Option<nat>)
    ensures r.Some? ==> i <= r.value && OccursAt(s, pattern, r.value)
    ensures r.Some? ==> forall j :: i <= j < r.value ==> !OccursAt(s, pattern, j)
    ensures r.None? ==> forall j :: i <= j ==> !OccursAt(s, pattern, j)
    decreases |s| - i
  {
    if i + |pattern| > |s| then None
    else if OccursAt(s, pattern, i) then Some(i)
    else IndexOfFrom(s, pattern, i + 1)
  }

  /** `s.indexOf(pattern)` */
  function IndexOf(s: string, pattern: string): Option<nat> {
    IndexOfFrom(s, pattern, 0)
  }

  /** `s.replace(pattern, '')` with a string pattern: the first occurrence removed. */
  function RemoveFirst(s: string, pattern: string): (r: string)
    ensures |r| <= |s|
  {
    match IndexOf(s, pattern)
    case None => s
    case Some(i) => s[..i] + s[i + |pattern|..]
  }

  /** `.replace(/^[\/\\]+/, '')` */
  function StripLeadingSeparators(s: string): (r: string)
    ensures r == [] || (r[0] != '/' && r[0] != '\\')
    ensures |r| <= |s| && r == s[|s| - |r|..]
  {
    if s != [] && (s[0] == '/' || s[0] == '\\') then StripLeadingSeparators(s[1..]) else s
  }

  /** Every `/` becomes `:`. */
  function SlashesToColons(s: string): (r: string)
    ensures |r| == |s|
    ensures forall i :: 0 <= i < |s| ==> r[i] == (if s[i] == '/' then ':' else s[i])
  {
    if s == [] then [] else [if s[0] == '/' then ':' else s[0]] + SlashesToColons(s[1..])
  }

  /** The index just past the closing `/` of a regular expression literal whose body
      starts at `i`, following section 12.9.5 of ECMA-262: a backslash escapes the next
      character, a `/` inside a class `[...]` does not close the literal, and the
      literal may not reach a line terminator or the end of its line. None when it
      does. */
  function RegexBodyEnd(line: string, i: nat, inClass: bool): (r: Option<nat>)
    requires i <= |line|
    ensures r.Some? ==> i < r.value <= |line| && line[r.value - 1] == '/'
    ensures r.Some? ==> forall k :: i <= k < r.value ==> !IsLineTerminator(line[k])
    decreases |line| - i
  {
    if i == |line| || IsLineTerminator(line[i]) then None
    else if line[i] == '\\' then
      if i + 1 == |line| || IsLineTerminator(line[i + 1]) then None else RegexBodyEnd(line, i + 2, inClass)
    else if line[i] == '[' then RegexBodyEnd(line, i + 1, true)
    else if line[i] == ']' then RegexBodyEnd(line, i + 1, false)
    else if line[i] == '/' && !inClass then Some(i + 1)
    else RegexBodyEnd(line, i + 1, inClass)
  }

  /** The regular expression literal at scripts/ingest.ts:74, as written, is never
      closed: its `\/` is an escaped slash, so the line ends inside the literal and
      the script is rejected before it runs. */
  lemma {:induction false} SlashRegexAsWritten()
    ensures RegexBodyEnd("    .replace(/\\/g, ':')", 14, false).None?
  {
    var line := "    .replace(/\\/g, ':')";
    assert line[14] == '\\' && line[16] == 'g';
    assert RegexBodyEnd(line, 16, false).None? by {
      assert forall k :: 16 <= k < |line| ==> line[k] != '/' && line[k] != '\\' && line[k] != '[';
      ScanWithoutSlash(line, 16);
    }
  }

  /** The literal `/\//g` evidently intended there closes after the escaped slash. */
  lemma SlashRegexCorrected()
    ensures RegexBodyEnd("    .replace(/\\//g, ':')", 14, false) == Some(17)
  {
  }

  /** A scan over a line rest with no `/`, no `\` and no `[` never closes. */
  lemma {:induction false} ScanWithoutSlash(line: string, i: nat)
    requires i <= |line|
    requires forall k :: i <= k < |line| ==> line[k] != '/' && line[k] != '\\' && line[k] != '['
    ensures RegexBodyEnd(line, i, false).None?
    decreases |line| - i
  {
    if i < |line| && !IsLineTerminator(line[i]) {
      ScanWithoutSlash(line, i + 1);
    }
  }

  /** `.replace(/\.mdx?$/, '')` */
  function StripMarkdownExtension(s: string): (r: string)
    ensures |r| <= |s| && r == s[..|r|]
    ensures EndsWith(s, ".mdx") ==> r == s[..|s| - 4]
    ensures !EndsWith(s, ".mdx") && EndsWith(s, ".md") ==> r == s[..|s| - 3]
    ensures !EndsWith(s, ".mdx") && !EndsWith(s, ".md") ==> r == s
  {
    if EndsWith(s, ".mdx") then s[..|s| - 4] else if EndsWith(s, ".md") then s[..|s| - 3] else s
  }

  /** `slugFromPath(filePath)` with `ROOT_DIR` given. */
  function SlugFromPath(root: string, filePath: string): (slug: string)
    ensures |slug| <= |filePath|
  {
    ToLower(StripMarkdownExtension(SlashesToColons(StripLeadingSeparators(RemoveFirst(filePath, root)))))
  }

  /** A slug holds no `/` and no upper-case ASCII letter, and does not start with a
      separator. */
  lemma SlugShape(root: string, filePath: string)
    ensures var slug := SlugFromPath(root, filePath);
      && (forall i :: 0 <= i < |slug| ==> slug[i] != '/' && !('A' <= slug[i] <= 'Z'))
      && (slug == [] || slug[0] != '\\')
  {
    var s := StripLeadingSeparators(RemoveFirst(filePath, root));
    var c := SlashesToColons(s);
    var m := StripMarkdownExtension(c);
    assert forall i :: 0 <= i < |m| ==> m[i] == c[i] && m[i] != '/';
    assert m == [] || m[0] != '\\';
    LowerWithoutSlash(m);
  }

  /** Lower-casing a string without `/` and not starting with `\` keeps both facts
      and leaves no upper-case ASCII letter. */
  lemma LowerWithoutSlash(m: string)
    requires forall i :: 0 <= i < |m| ==> m[i] != '/'
    requires m == [] || m[0] != '\\'
    ensures var slug := ToLower(m);
      && (forall i :: 0 <= i < |slug| ==> slug[i] != '/' && !('A' <= slug[i] <= 'Z'))
      && (slug == [] || slug[0] != '\\')
  {
  }

  /** For a file under the root, the slug depends only on the path below the root. */
  lemma SlugUnderRoot(root: string, rel: string)
    ensures SlugFromPath(root, root + rel) == ToLower(StripMarkdownExtension(SlashesToColons(StripLeadingSeparators(rel))))
  {
    RemoveFirstPrefix(root, rel);
  }

  lemma RemoveFirstPrefix(root: string, rel: string)
    ensures RemoveFirst(root + rel, root) == rel
  {
    assert OccursAt(root + rel, root, 0) by {
      assert (root + rel)[0..|root|] == root;
    }
    assert (root + rel)[..0] + (root + rel)[|root|..] == rel;
  }

  // ---------------------------------------------------------------------------
  // The paragraph chunker `chunkText(source, maxLength = 1200)`.

  /** The largest `l` in `[lo, hi)` with `s[l] == '\n'`. */
  function LastNewline(s: string, lo: nat, hi: nat): (r: Option<nat>)
    requires lo <= hi <= |s|
    ensures r.Some? ==> lo <= r.value < hi && s[r.value] == '\n'
    ensures r.Some? ==> forall j :: r.value < j < hi ==> s[j] != '\n'
    ensures r.None? ==> forall j :: lo <= j < hi ==> s[j] != '\n'
    decreases hi - lo
  {
    if hi == lo then None else if s[hi - 1] == '\n' then Some(hi - 1) else LastNewline(s, lo, hi - 1)
  }

  /** A line break followed by part of a white-space run is white space. */
  lemma BreakIsSpace(s: string, q: nat, l: nat, run: nat)
    requires q < l < run <= |s| && s[q] == '\n' && AllSpace(s[q + 1..run])
    ensures AllSpace(s[q..l + 1])
  {
    var tail := s[q + 1..run];
    var sep := s[q..l + 1];
    var prefix := tail[..l - q];
    assert sep == [s[q]] + prefix;
    assert IsSpace(s[q]);
    assert forall j :: 0 <= j < |prefix| ==> prefix[j] == tail[j];
  }

  /** Where a match of `\n\s*\n` starting at `q` ends: after the last `\n` of the
      white-space run that follows the first `\n`. */
  function ParagraphBreakEnd(s: string, q: nat): (e: Option<nat>)
    requires q < |s|
    ensures e.Some? ==> q + 2 <= e.value <= |s| && AllSpace(s[q..e.value])
  {
    if s[q] != '\n' then None
    else
      var run := SpaceRunEnd(s, q + 1);
      match LastNewline(s, q + 1, run)
      case None => None
      case Some(l) =>
        BreakIsSpace(s, q, l, run);
        Some(l + 1)
  }

  /** `s.split(/\n\s*\n/)`, scanning at `q` while the current piece starts at `p`. */
  function SplitParagraphsFrom(s: string, p: nat, q: nat): (r: seq<string>)
    requires p <= q <= |s|
    ensures |r| >= 1
    ensures (forall i :: q <= i < |s| ==> s[i] != '\n') ==> r == [s[p..]]
    decreases |s| - q
  {
    if q == |s| then [s[p..]]
    else match ParagraphBreakEnd(s, q)
      case Some(e) => [s[p..q]] + SplitParagraphsFrom(s, e, e)
      case None => SplitParagraphsFrom(s, p, q + 1)
  }

  function SplitParagraphs(s: string): (r: seq<string>)
    ensures |r| >= 1
    ensures (forall i :: 0 <= i < |s| ==> s[i] != '\n') ==> r == [s]
  {
    SplitParagraphsFrom(s, 0, 0)
  }

  /** The loop state of the chunker: the chunks pushed so far and the buffer. */
  datatype ParagraphChunking = ParagraphChunking(chunks: seq<string>, buffer: string)

  /** One iteration of the chunker's loop. */
  function ParagraphStep(st: ParagraphChunking, paragraph: string, maxLength: int): ParagraphChunking {
    var push := |st.buffer + "\n\n" + paragraph| > maxLength && st.buffer != [];
    var chunks := if push then st.chunks + [Trim(st.buffer)] else st.chunks;
    var buffer := if push then [] else st.buffer;
    ParagraphChunking(chunks, if buffer != [] then buffer + "\n\n" + paragraph else paragraph)
  }

  function FoldParagraphs(paragraphs: seq<string>, maxLength: int): ParagraphChunking {
    if paragraphs == [] then ParagraphChunking([], [])
    else ParagraphStep(FoldParagraphs(paragraphs[..|paragraphs| - 1], maxLength), paragraphs[|paragraphs| - 1], maxLength)
  }

  /** What `chunkText(source, maxLength)` returns. */
  function ParagraphChunks(source: string, maxLength: int): (r: seq<string>)
    ensures source == [] ==> r == []
  {
    var paragraphs := SplitParagraphs(source);
    assert source == [] ==> paragraphs == [""] && paragraphs[..0] == [] && FoldParagraphs(paragraphs, maxLength).buffer == [];
    var st := FoldParagraphs(paragraphs, maxLength);
    if st.buffer != [] then st.chunks + [Trim(st.buffer)] else st.chunks
  }

  method ChunkParagraphs(source: string, maxLength: int := 1200) returns (chunks: seq<string>)
    ensures chunks == ParagraphChunks(source, maxLength)
  {
    var paragraphs := SplitParagraphs(source);
    chunks := [];
    var buffer: string := [];
    for i := 0 to |paragraphs|
      invariant ParagraphChunking(chunks, buffer) == FoldParagraphs(paragraphs[..i], maxLength)
    {
      assert paragraphs[..i + 1][..i] == paragraphs[..i];
      var paragraph := paragraphs[i];
      if |buffer + "\n\n" + paragraph| > maxLength {
        if buffer != [] {
          chunks := chunks + [Trim(buffer)];
          buffer := [];
        }
      }
      buffer := if buffer != [] then buffer + "\n\n" + paragraph else paragraph;
    }
    assert paragraphs[..|paragraphs|] == paragraphs;
    if buffer != [] {
      chunks := chunks + [Trim(buffer)];
    }
  }

  // ---------------------------------------------------------------------------
  // Which paragraphs each chunk is made of.

  /** The paragraphs that are not empty. */
  function NonEmpty(paragraphs: seq<string>): (r: seq<string>)
    ensures forall i :: 0 <= i < |r| ==> r[i] != []
  {
    if paragraphs == [] then []
    else
      var rest := NonEmpty(paragraphs[..|paragraphs| - 1]);
      if paragraphs[|paragraphs| - 1] != [] then rest + [paragraphs[|paragraphs| - 1]] else rest
  }

  lemma {:induction false} NonEmptyAppend(a: seq<string>, b: seq<string>)
    ensures NonEmpty(a + b) == NonEmpty(a) + NonEmpty(b)
    decreases |b|
  {
    if b == [] {
      assert a + b == a;
    } else {
      var b' := b[..|b| - 1];
      assert (a + b)[..|a + b| - 1] == a + b';
      NonEmptyAppend(a, b');
    }
  }

  /** A group of paragraphs that forms one chunk: it starts with a non-empty
      paragraph, and when it holds two or more paragraphs they fit in `maxLength`
      once joined. */
  predicate GoodGroup(group: seq<string>, maxLength: int) {
    group != [] && group[0] != [] && (|group| >= 2 ==> |Join(group, "\n\n")| <= maxLength)
  }

  /** The grouping the chunker's decisions induce: closed groups and the paragraphs
      of the current buffer. */
  datatype ParagraphGrouping = ParagraphGrouping(groups: seq<seq<string>>, current: seq<string>)

  ghost function GroupParagraphs(paragraphs: seq<string>, maxLength: int): ParagraphGrouping {
    if paragraphs == [] then ParagraphGrouping([], [])
    else
      var prev := paragraphs[..|paragraphs| - 1];
      var p := paragraphs[|paragraphs| - 1];
      var g := GroupParagraphs(prev, maxLength);
      var buffer := FoldParagraphs(prev, maxLength).buffer;
      if |buffer + "\n\n" + p| > maxLength && buffer != [] then
        ParagraphGrouping(g.groups + [g.current], if p != [] then [p] else [])
      else if buffer != [] then ParagraphGrouping(g.groups, g.current + [p])
      else ParagraphGrouping(g.groups, if p != [] then [p] else [])
  }

  ghost predicate ChunksOfParagraphGroups(chunks: seq<string>, groups: seq<seq<string>>, maxLength: int) {
    && |chunks| == |groups|
    && forall k :: 0 <= k < |groups| ==> chunks[k] == Trim(Join(groups[k], "\n\n")) && GoodGroup(groups[k], maxLength)
  }

  ghost predicate ParagraphsAgree(paragraphs: seq<string>, maxLength: int, st: ParagraphChunking, g: ParagraphGrouping) {
    && ChunksOfParagraphGroups(st.chunks, g.groups, maxLength)
    && st.buffer == Join(g.current, "\n\n")
    && (g.current == [] || GoodGroup(g.current, maxLength))
    && NonEmpty(Flatten(g.groups) + g.current) == NonEmpty(paragraphs)
  }

  lemma JoinNonEmpty(group: seq<string>, sep: string)
    requires group != [] && group[0] != []
    ensures Join(group, sep) != []
  {
    if |group| > 1 {
      assert Join(group, sep)[0] == group[0][0];
    }
  }

  lemma NonEmptySingle(p: string)
    ensures NonEmpty([p]) == (if p != [] then [p] else [])
  {
    assert [p][..0] == [];
  }

  lemma ChunksOfParagraphGroupsAppend(chunks: seq<string>, groups: seq<seq<string>>, group: seq<string>, maxLength: int)
    requires ChunksOfParagraphGroups(chunks, groups, maxLength) && GoodGroup(group, maxLength)
    ensures ChunksOfParagraphGroups(chunks + [Trim(Join(group, "\n\n"))], groups + [group], maxLength)
  {
    var chunks', groups' := chunks + [Trim(Join(group, "\n\n"))], groups + [group];
    forall k | 0 <= k < |groups'|
      ensures chunks'[k] == Trim(Join(groups'[k], "\n\n")) && GoodGroup(groups'[k], maxLength)
    {
      if k < |groups| {
        assert chunks'[k] == chunks[k] && groups'[k] == groups[k];
      }
    }
  }

  /** Closing the current group and starting a new one keeps the non-empty
      paragraphs in order. */
  lemma CloseParagraphGroup(paragraphs: seq<string>, groups: seq<seq<string>>, current: seq<string>, p: string)
    requires NonEmpty(Flatten(groups) + current) == NonEmpty(paragraphs)
    ensures NonEmpty(Flatten(groups + [current]) + (if p != [] then [p] else [])) == NonEmpty(paragraphs + [p])
  {
    var next := if p != [] then [p] else [];
    FlattenAppend(groups, [current]);
    assert Flatten([current]) == current + Flatten([]);
    assert Flatten(groups + [current]) + next == (Flatten(groups) + current) + next;
    NonEmptyAppend(Flatten(groups) + current, next);
    NonEmptyAppend(paragraphs, [p]);
    NonEmptySingle(p);
    if p != [] {
      NonEmptySingle(p);
      assert NonEmpty(next) == NonEmpty([p]);
    } else {
      assert NonEmpty(next) == [];
    }
  }

  lemma ParagraphStepPush(paragraphs: seq<string>, maxLength: int, st: ParagraphChunking, g: ParagraphGrouping, p: string)
    requires ParagraphsAgree(paragraphs, maxLength, st, g)
    requires |st.buffer + "\n\n" + p| > maxLength && st.buffer != []
    ensures ParagraphsAgree(paragraphs + [p], maxLength, ParagraphStep(st, p, maxLength),
                            ParagraphGrouping(g.groups + [g.current], if p != [] then [p] else []))
  {
    assert g.current != [];
    ChunksOfParagraphGroupsAppend(st.chunks, g.groups, g.current, maxLength);
    CloseParagraphGroup(paragraphs, g.groups, g.current, p);
    var next := ParagraphStep(st, p, maxLength);
    assert next.chunks == st.chunks + [Trim(Join(g.current, "\n\n"))];
    assert next.buffer == p;
    if p != [] {
      assert Join([p], "\n\n") == p;
    }
  }

  lemma ParagraphStepExtend(paragraphs: seq<string>, maxLength: int, st: ParagraphChunking, g: ParagraphGrouping, p: string)
    requires ParagraphsAgree(paragraphs, maxLength, st, g)
    requires |st.buffer + "\n\n" + p| <= maxLength && st.buffer != []
    ensures ParagraphsAgree(paragraphs + [p], maxLength, ParagraphStep(st, p, maxLength),
                            ParagraphGrouping(g.groups, g.current + [p]))
  {
    assert g.current != [];
    JoinAppend(g.current, p, "\n\n");
    NonEmptyAppend(Flatten(g.groups) + g.current, [p]);
    NonEmptyAppend(paragraphs, [p]);
    assert Flatten(g.groups) + (g.current + [p]) == (Flatten(g.groups) + g.current) + [p];
  }

  lemma ParagraphStepStart(paragraphs: seq<string>, maxLength: int, st: ParagraphChunking, g: ParagraphGrouping, p: string)
    requires ParagraphsAgree(paragraphs, maxLength, st, g)
    requires st.buffer == []
    ensures ParagraphsAgree(paragraphs + [p], maxLength, ParagraphStep(st, p, maxLength),
                            ParagraphGrouping(g.groups, if p != [] then [p] else []))
  {
    if g.current != [] {
      JoinNonEmpty(g.current, "\n\n");
    }
    assert g.current == [];
    var current := if p != [] then [p] else [];
    NonEmptyAppend(Flatten(g.groups), current);
    NonEmptyAppend(paragraphs, [p]);
    NonEmptySingle(p);
    assert Flatten(g.groups) + g.current == Flatten(g.groups);
  }

  lemma {:induction false} GroupParagraphsAgree(paragraphs: seq<string>, maxLength: int)
    ensures ParagraphsAgree(paragraphs, maxLength, FoldParagraphs(paragraphs, maxLength), GroupParagraphs(paragraphs, maxLength))
  {
    if paragraphs == [] {
      assert Flatten<string>([]) == [];
    } else {
      GroupParagraphsAgree(paragraphs[..|paragraphs| - 1], maxLength);
      GroupParagraphStep(paragraphs, maxLength);
    }
  }

  /** One more paragraph keeps the chunker and the grouping in agreement. */
  lemma GroupParagraphStep(paragraphs: seq<string>, maxLength: int)
    requires paragraphs != []
    requires var prev := paragraphs[..|paragraphs| - 1];
      ParagraphsAgree(prev, maxLength, FoldParagraphs(prev, maxLength), GroupParagraphs(prev, maxLength))
    ensures ParagraphsAgree(paragraphs, maxLength, FoldParagraphs(paragraphs, maxLength), GroupParagraphs(paragraphs, maxLength))
  {
    var prev := paragraphs[..|paragraphs| - 1];
    var p := paragraphs[|paragraphs| - 1];
    assert paragraphs == prev + [p];
    var st := FoldParagraphs(prev, maxLength);
    var g := GroupParagraphs(prev, maxLength);
    if |st.buffer + "\n\n" + p| > maxLength && st.buffer != [] {
      ParagraphStepPush(prev, maxLength, st, g, p);
    } else if st.buffer != [] {
      ParagraphStepExtend(prev, maxLength, st, g, p);
    } else {
      ParagraphStepStart(prev, maxLength, st, g, p);
    }
  }

  /** The paragraphs of each chunk `chunkText(source, maxLength)` returns. */
  ghost function ParagraphGroups(source: string, maxLength: int): seq<seq<string>> {
    var paragraphs := SplitParagraphs(source);
    var g := GroupParagraphs(paragraphs, maxLength);
    if FoldParagraphs(paragraphs, maxLength).buffer != [] then g.groups + [g.current] else g.groups
  }

  /** The chunker keeps paragraphs whole and in order: chunk k is group k of
      consecutive paragraphs joined by blank lines and trimmed; the groups hold every
      non-empty paragraph, in order; a chunk of two or more paragraphs fits in
      `maxLength`, so only a lone paragraph can exceed it. */
  lemma ParagraphChunksGroups(source: string, maxLength: int)
    ensures var chunks, groups := ParagraphChunks(source, maxLength), ParagraphGroups(source, maxLength);
      && ChunksOfParagraphGroups(chunks, groups, maxLength)
      && NonEmpty(Flatten(groups)) == NonEmpty(SplitParagraphs(source))
      && forall k :: 0 <= k < |chunks| && |groups[k]| >= 2 ==> |chunks[k]| <= maxLength
  {
    var paragraphs := SplitParagraphs(source);
    GroupParagraphsAgree(paragraphs, maxLength);
    FlushParagraphGroups(paragraphs, maxLength, FoldParagraphs(paragraphs, maxLength), GroupParagraphs(paragraphs, maxLength));
  }

  /** The final flush of the buffer closes the current group. */
  lemma FlushParagraphGroups(paragraphs: seq<string>, maxLength: int, st: ParagraphChunking, g: ParagraphGrouping)
    requires ParagraphsAgree(paragraphs, maxLength, st, g)
    ensures var chunks := if st.buffer != [] then st.chunks + [Trim(st.buffer)] else st.chunks;
      var groups := if st.buffer != [] then g.groups + [g.current] else g.groups;
      && ChunksOfParagraphGroups(chunks, groups, maxLength)
      && NonEmpty(Flatten(groups)) == NonEmpty(paragraphs)
      && forall k :: 0 <= k < |chunks| && |groups[k]| >= 2 ==> |chunks[k]| <= maxLength
  {
    var chunks := if st.buffer != [] then st.chunks + [Trim(st.buffer)] else st.chunks;
    var groups := if st.buffer != [] then g.groups + [g.current] else g.groups;
    if st.buffer != [] {
      assert g.current != [];
      ChunksOfParagraphGroupsAppend(st.chunks, g.groups, g.current, maxLength);
      FlattenSnoc(g.groups, g.current);
    } else {
      if g.current != [] {
        JoinNonEmpty(g.current, "\n\n");
      }
      assert Flatten(g.groups) + g.current == Flatten(g.groups);
    }
    GroupedChunksFit(chunks, groups, maxLength);
  }

  /** A chunk of two or more paragraphs fits in `maxLength`. */
  lemma GroupedChunksFit(chunks: seq<string>, groups: seq<seq<string>>, maxLength: int)
    requires ChunksOfParagraphGroups(chunks, groups, maxLength)
    ensures forall k :: 0 <= k < |chunks| && |groups[k]| >= 2 ==> |chunks[k]| <= maxLength
  {
    forall k | 0 <= k < |chunks| && |groups[k]| >= 2
      ensures |chunks[k]| <= maxLength
    {
      assert GoodGroup(groups[k], maxLength);
    }
  }

  // ---------------------------------------------------------------------------
  // The title: `content.match(/^#\s+(.+)$/m)`, else the last `:` segment of the slug.

  predicate LineStart(s: string, i: nat)
    requires i <= |s|
  {
    i == 0 || IsLineTerminator(s[i - 1])
  }

  /** The end of the line that `i` is on. */
  function LineEnd(s: string, i: nat): (e: nat)
    requires i <= |s|
    ensures i <= e <= |s| && (e == |s| || IsLineTerminator(s[e]))
    ensures forall j :: i <= j < e ==> !IsLineTerminator(s[j])
    decreases |s| - i
  {
    if i == |s| || IsLineTerminator(s[i]) then i else LineEnd(s, i + 1)
  }

  /** The largest `k` in `[lo, hi)` whose character is not a line terminator. */
  function LastInLine(s: string, lo: nat, hi: nat): (r: Option<nat>)
    requires lo <= hi <= |s|
    ensures r.Some? ==> lo <= r.value < hi && !IsLineTerminator(s[r.value])
    ensures r.Some? ==> forall j :: r.value < j < hi ==> IsLineTerminator(s[j])
    ensures r.None? ==> forall j :: lo <= j < hi ==> IsLineTerminator(s[j])
    decreases hi - lo
  {
    if hi == lo then None else if !IsLineTerminator(s[hi - 1]) then Some(hi - 1) else LastInLine(s, lo, hi - 1)
  }

  /** The capture group of a match of `^#\s+(.+)$` (multi-line) that starts at `i`:
      `\s+` takes the longest white-space run it can, giving characters back only when
      the run reaches the end of the text. */
  function HeadingAt(s: string, i: nat): (r: Option<string>)
    requires i < |s|
    ensures r.Some? ==> r.value != [] && forall j :: 0 <= j < |r.value| ==> !IsLineTerminator(r.value[j])
  {
    if !LineStart(s, i) || s[i] != '#' then None
    else
      var run := SpaceRunEnd(s, i + 1);
      if run == i + 1 then None
      else if run < |s| then Some(s[run..LineEnd(s, run)])
      else match LastInLine(s, i + 2, run)
        case None => None
        case Some(k) => Some(s[k..LineEnd(s, k)])
  }

  /** The first match, trying start positions from left to right. */
  function FirstHeadingFrom(s: string, i: nat): (r: Option<string>)
    requires i <= |s|
    ensures r.Some? ==> r.value != [] && forall j :: 0 <= j < |r.value| ==> !IsLineTerminator(r.value[j])
    decreases |s| - i
  {
    if i == |s| then None
    else match HeadingAt(s, i)
      case Some(g) => Some(g)
      case None => FirstHeadingFrom(s, i + 1)
  }

  /** The title of a document: its first `# ` heading, trimmed, or else the last
      `:`-separated segment of its slug. */
  function Title(content: string, slug: string): (t: string)
    ensures FirstHeadingFrom(content, 0).None? ==> EndsWith(slug, t) && ':' !in t
  {
    match FirstHeadingFrom(content, 0)
    case Some(g) => Trim(g)
    case None =>
      var segments := Split(slug, ':');
      LastSegment(slug);
      segments[|segments| - 1]
  }

  /** Without a heading, the title is the part of the slug after its last `:`. */
  lemma TitleFallback(content: string, slug: string)
    requires FirstHeadingFrom(content, 0).None?
    ensures ':' !in Title(content, slug)
    ensures EndsWith(slug, Title(content, slug))
    ensures var t := Title(content, slug); |t| == |slug| || slug[|slug| - |t| - 1] == ':'
  {
    LastSegment(slug);
  }

  lemma LastSegment(slug: string)
    ensures var segments := Split(slug, ':');
      var last := segments[|segments| - 1];
      && ':' !in last && EndsWith(slug, last)
      && (|last| == |slug| || slug[|slug| - |last| - 1] == ':')
  {
    var segments := Split(slug, ':');
    var last := segments[|segments| - 1];
    JoinSplit(slug, ':');
    if |segments| > 1 {
      var init := segments[..|segments| - 1];
      assert segments == init + [last];
      JoinAppend(init, last, [':']);
      assert slug == (Join(init, [':']) + [':']) + last;
    }
  }

  /** A document whose first line is `# ` followed by a heading gets that heading,
      trimmed, as its title. */
  lemma TitleFromFirstLine(heading: string, rest: string, slug: string)
    requires heading != [] && !IsSpace(heading[0])
    requires forall j :: 0 <= j < |heading| ==> !IsLineTerminator(heading[j])
    ensures Title("# " + heading + "\n" + rest, slug) == Trim(heading)
  {
    var s := "# " + heading + "\n" + rest;
    assert s[2] == heading[0];
    assert SpaceRunEnd(s, 2) == 2;
    assert SpaceRunEnd(s, 1) == 2;
    assert s[2 + |heading|] == '\n';
    assert forall j :: 2 <= j < 2 + |heading| ==> s[j] == heading[j - 2];
    LineEndAt(s, 2, 2 + |heading|);
    assert s[2..2 + |heading|] == heading;
    assert HeadingAt(s, 0) == Some(heading);
  }

  lemma LineEndAt(s: string, i: nat, e: nat)
    requires i <= e < |s| && IsLineTerminator(s[e])
    requires forall j :: i <= j < e ==> !IsLineTerminator(s[j])
    ensures LineEnd(s, i) == e
  {
  }
}
