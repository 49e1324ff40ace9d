/** The JavaScript string and array built-ins the source relies on (`trim`, `split`
    with a one-character separator, `join`, `startsWith`, `toLowerCase`, `<` on strings,
    number-to-string), stated over `seq<char>`, with the facts the rest of the model
    needs about them. */
module JsString {

  /** JavaScript's white space and line terminators: the `\s` class and what `trim`
      removes (the space separators of Unicode 15, tab, vertical tab, form feed,
      the byte-order mark and the four line terminators). */
  predicate IsSpace(c: char) {
    c == ' ' || c == '\t' || c == '\n' || c == '\r' || c == '\U{000B}' || c == '\U{000C}'
    || c == '\U{00A0}' || c == '\U{FEFF}' || c == '\U{2028}' || c == '\U{2029}'
    || c == '\U{1680}' || ('\U{2000}' <= c <= '\U{200A}') || c == '\U{202F}' || c == '\U{205F}'
    || c == '\U{3000}'
  }

  /** The characters `.` in a regular expression does not match. */
  predicate IsLineTerminator(c: char) {
    c == '\n' || c == '\r' || c == '\U{2028}' || c == '\U{2029}'
  }

  predicate AllSpace(s: string) {
    forall i :: 0 <= i < |s| ==> IsSpace(s[i])
  }

  /** `s.trimStart()` */
  function TrimStart(s: string): (r: string)
    ensures |r| <= |s| && r == s[|s| - |r|..]
    ensures r == [] || !IsSpace(r[0])
    ensures AllSpace(s[..|s| - |r|])
  {
    if |s| > 0 && IsSpace(s[0]) then
      var r := TrimStart(s[1..]);
      assert s[..|s| - |r|] == [s[0]] + s[1..][..|s| - 1 - |r|];
      r
    else s
  }

  /** `s.trimEnd()` */
  function TrimEnd(s: string): (r: string)
    ensures |r| <= |s| && r == s[..|r|]
    ensures r == [] || !IsSpace(r[|r| - 1])
    ensures AllSpace(s[|r|..])
  {
    if |s| > 0 && IsSpace(s[|s| - 1]) then
      var r := TrimEnd(s[..|s| - 1]);
      assert s[|r|..] == s[..|s| - 1][|r|..] + [s[|s| - 1]];
      r
    else s
  }

  /** `s.trim()`: white space removed at both ends. */
  function Trim(s: string): (r: string)
    ensures |r| <= |s|
    ensures r == [] || (!IsSpace(r[0]) && !IsSpace(r[|r| - 1]))
  {
    TrimEnd(TrimStart(s))
  }

  /** The non-white-space characters of `s`, in order: what the chunkers must never
      lose, duplicate or reorder. */
  function NonSpace(s: string): string {
    if s == [] then [] else (if IsSpace(s[0]) then [] else [s[0]]) + NonSpace(s[1..])
  }

  predicate IsBlank(s: string) {
    NonSpace(s) == []
  }

  lemma {:induction false} NonSpaceConcat(a: string, b: string)
    ensures NonSpace(a + b) == NonSpace(a) + NonSpace(b)
  {
    if a != [] {
      assert (a + b)[1..] == a[1..] + b;
      NonSpaceConcat(a[1..], b);
    } else {
      assert a + b == b;
    }
  }

  lemma {:induction false} NonSpaceAllSpace(s: string)
    ensures AllSpace(s) <==> NonSpace(s) == []
  {
    if s != [] {
      NonSpaceAllSpace(s[1..]);
      if AllSpace(s) {
        assert AllSpace(s[1..]);
      } else if IsSpace(s[0]) {
        assert !AllSpace(s[1..]) by {
          var i :| 0 <= i < |s| && !IsSpace(s[i]);
          assert s[1..][i - 1] == s[i];
        }
      }
    }
  }

  /** Trimming only removes white space. */
  lemma NonSpaceTrim(s: string)
    ensures NonSpace(Trim(s)) == NonSpace(s)
  {
    NonSpaceTrimStart(s);
    NonSpaceTrimEnd(TrimStart(s));
  }

  lemma NonSpaceTrimStart(s: string)
    ensures NonSpace(TrimStart(s)) == NonSpace(s)
  {
    var t := TrimStart(s);
    NonSpaceSpacePrefix(s, |s| - |t|);
  }

  lemma NonSpaceSpacePrefix(s: string, k: int)
    requires 0 <= k <= |s| && AllSpace(s[..k])
    ensures NonSpace(s[k..]) == NonSpace(s)
  {
    assert s[..k] + s[k..] + [] == s;
    NonSpaceSpaceAround(s[..k], s[k..], []);
  }

  lemma NonSpaceTrimEnd(t: string)
    ensures NonSpace(TrimEnd(t)) == NonSpace(t)
  {
    var r := TrimEnd(t);
    var q := t[|r|..];
    assert [] + r + q == t;
    NonSpaceSpaceAround([], r, q);
  }

  /** White space on either side of `t` adds nothing to its non-space characters. */
  lemma NonSpaceSpaceAround(p: string, t: string, q: string)
    requires AllSpace(p) && AllSpace(q)
    ensures NonSpace(p + t + q) == NonSpace(t)
  {
    NonSpaceConcat(p, t);
    NonSpaceConcat(p + t, q);
    NonSpaceAllSpace(p);
    NonSpaceAllSpace(q);
    assert NonSpace(t) + [] == NonSpace(t);
  }

  /** `!s.trim()`: trimming leaves nothing exactly when `s` is blank. */
  lemma TrimEmptyIffBlank(s: string)
    ensures Trim(s) == [] <==> IsBlank(s)
  {
    NonSpaceTrim(s);
    var r := Trim(s);
    if r != [] {
      assert NonSpace(r) == [r[0]] + NonSpace(r[1..]);
    }
  }

  lemma NonSpaceAllSpaceIsEmpty(s: string)
    requires AllSpace(s)
    ensures NonSpace(s) == []
  {
    NonSpaceAllSpace(s);
  }

  /** Concatenation of a sequence of strings (`parts.join('')`). */
  function Concat(parts: seq<string>): string {
    if parts == [] then [] else parts[0] + Concat(parts[1..])
  }

  lemma {:induction false} ConcatAppend(a: seq<string>, b: seq<string>)
    ensures Concat(a + b) == Concat(a) + Concat(b)
  {
    if a != [] {
      assert (a + b)[1..] == a[1..] + b;
      ConcatAppend(a[1..], b);
    } else {
      assert a + b == b;
    }
  }

  /** Flattening a sequence of groups into one sequence. */
  function Flatten<T>(groups: seq<seq<T>>): seq<T> {
    if groups == [] then [] else groups[0] + Flatten(groups[1..])
  }

  lemma {:induction false} FlattenAppend<T>(a: seq<seq<T>>, b: seq<seq<T>>)
    ensures Flatten(a + b) == Flatten(a) + Flatten(b)
  {
    if a != [] {
      assert (a + b)[1..] == a[1..] + b;
      FlattenAppend(a[1..], b);
    } else {
      assert a + b == b;
    }
  }

  lemma FlattenSnoc<T>(groups: seq<seq<T>>, last: seq<T>)
    ensures Flatten(groups + [last]) == Flatten(groups) + last
  {
    FlattenAppend(groups, [last]);
    assert Flatten([last]) == last + Flatten([]);
  }

  /** `parts.join(sep)` */
  function Join(parts: seq<string>, sep: string): string {
    if parts == [] then []
    else if |parts| == 1 then parts[0]
    else parts[0] + sep + Join(parts[1..], sep)
  }

  lemma {:induction false} JoinAppend(parts: seq<string>, p: string, sep: string)
    requires parts != []
    ensures Join(parts + [p], sep) == Join(parts, sep) + sep + p
  {
    if |parts| == 1 {
      assert parts + [p] == [parts[0], p];
    } else {
      assert (parts + [p])[1..] == parts[1..] + [p];
      JoinAppend(parts[1..], p, sep);
    }
  }

  /** `s.split(sep)` for a one-character separator: the maximal pieces between
      separators, so there is always at least one piece and none contains `sep`. */
  function Split(s: string, sep: char): (r: seq<string>)
    ensures |r| >= 1
    ensures forall i :: 0 <= i < |r| ==> sep !in r[i]
  {
    if s == [] then [[]]
    else if s[0] == sep then [[]] + Split(s[1..], sep)
    else
      var rest := Split(s[1..], sep);
      [[s[0]] + rest[0]] + rest[1..]
  }

  /** Joining the pieces of a split with the separator gives the string back. */
  lemma {:induction false} JoinSplit(s: string, sep: char)
    ensures Join(Split(s, sep), [sep]) == s
  {
    if s != [] {
      JoinSplit(s[1..], sep);
      var rest := Split(s[1..], sep);
      if s[0] == sep {
        assert Split(s, sep) == [[]] + rest;
      } else {
        var parts := [[s[0]] + rest[0]] + rest[1..];
        if |rest| > 1 {
          assert parts[1..] == rest[1..];
          assert Join(rest, [sep]) == rest[0] + [sep] + Join(rest[1..], [sep]);
        }
      }
    }
  }

  /** A string without the separator splits into itself alone. */
  lemma {:induction false} SplitWithoutSeparator(s: string, sep: char)
    requires sep !in s
    ensures Split(s, sep) == [s]
  {
    if s != [] {
      SplitWithoutSeparator(s[1..], sep);
      assert [s[0]] + s[1..] == s;
    }
  }

  /** `(a + sep + b).split(sep)` is `[a, b]` when neither part holds the separator. */
  lemma {:induction false} SplitAtSeparator(a: string, b: string, sep: char)
    requires sep !in a && sep !in b
    ensures Split(a + [sep] + b, sep) == [a, b]
  {
    var s := a + [sep] + b;
    if a == [] {
      assert s[1..] == b;
      SplitWithoutSeparator(b, sep);
    } else {
      assert s[1..] == a[1..] + [sep] + b;
      SplitAtSeparator(a[1..], b, sep);
      assert [a[0]] + a[1..] == a;
    }
  }

  predicate StartsWith(s: string, prefix: string) {
    |prefix| <= |s| && s[..|prefix|] == prefix
  }

  predicate EndsWith(s: string, suffix: string) {
    |suffix| <= |s| && s[|s| - |suffix|..] == suffix
  }

  /** `c.toUpperCase()` on a single character; only ASCII letters are mapped. */
  function ToUpperChar(c: char): char {
    if 'a' <= c <= 'z' then (c as int - 32) as char else c
  }

  /** `c.toLowerCase()` on a single character; only ASCII letters are mapped. */
  function ToLowerChar(c: char): char {
    if 'A' <= c <= 'Z' then (c as int + 32) as char else c
  }

  /** `s.toLowerCase()`, character by character. */
  function ToLower(s: string): (r: string)
    ensures |r| == |s|
    ensures forall i :: 0 <= i < |s| ==> r[i] == ToLowerChar(s[i])
  {
    if s == [] then [] else [ToLowerChar(s[0])] + ToLower(s[1..])
  }

  /** `String(n)` for a natural number: its decimal digits, without leading zeros. */
  function NatToString(n: nat): (r: string)
    ensures |r| >= 1
    ensures forall i :: 0 <= i < |r| ==> '0' <= r[i] <= '9'
    decreases n
  {
    if n < 10 then [('0' as int + n) as char]
    else NatToString(n / 10) + [('0' as int + n % 10) as char]
  }

  /** The last `limit` items, all of them when there are fewer, none when `limit`
      is not positive: `items.slice(Math.max(0, items.length - limit))`, and
      `items.slice(-limit)` for a positive `limit`. */
  function LastAtMost<T>(items: seq<T>, limit: int): (r: seq<T>)
    ensures |r| == (if limit <= 0 then 0 else if limit < |items| then limit else |items|)
    ensures r == items[|items| - |r|..]
  {
    if limit <= 0 then [] else if limit < |items| then items[|items| - limit..] else items
  }

  /** `items.reverse()` on a copy. */
  function Reverse<T>(items: seq<T>): (r: seq<T>)
    ensures |r| == |items|
    ensures forall k :: 0 <= k < |items| ==> r[k] == items[|items| - 1 - k]
  {
    if items == [] then [] else Reverse(items[1..]) + [items[0]]
  }

  /** An appended item is the last of the last `limit` items, and pushes out the
      oldest of them when there were already `limit`. */
  lemma LastAtMostSnoc<T>(items: seq<T>, x: T, limit: int)
    requires limit > 0
    ensures var before, after := LastAtMost(items, limit), LastAtMost(items + [x], limit);
      && after[|after| - 1] == x
      && after[..|after| - 1] == (if |before| == limit then before[1..] else before)
  {
    var before, after := LastAtMost(items, limit), LastAtMost(items + [x], limit);
    var all := items + [x];
    assert after == all[|all| - |after|..];
    assert after[..|after| - 1] == items[|items| - (|after| - 1)..];
  }

  lemma ReverseSnoc<T>(items: seq<T>, x: T)
    ensures Reverse(items + [x]) == [x] + Reverse(items)
  {
    var r, s := Reverse(items + [x]), [x] + Reverse(items);
    assert forall k :: 1 <= k < |r| ==> r[k] == s[k];
  }

  lemma ReverseDropFirst<T>(items: seq<T>)
    requires items != []
    ensures Reverse(items[1..]) == Reverse(items)[..|items| - 1]
  {
  }

  /** Of the last `limit` items newest first, an appended item comes first and pushes
      the oldest out when there were already `limit`. */
  lemma NewestFirstSnoc<T>(items: seq<T>, x: T, limit: int)
    requires limit > 0
    ensures var after, before := Reverse(LastAtMost(items + [x], limit)), Reverse(LastAtMost(items, limit));
      && after[0] == x
      && after[1..] == before[..|after| - 1]
  {
    var last, latest := LastAtMost(items, limit), LastAtMost(items + [x], limit);
    LastAtMostSnoc(items, x, limit);
    var kept := latest[..|latest| - 1];
    assert latest == kept + [x];
    ReverseSnoc(kept, x);
    if |last| == limit {
      ReverseDropFirst(last);
    } else {
      assert Reverse(last)[..|last|] == Reverse(last);
    }
  }

  /** `a < b` on strings: lexicographic order of the characters. */
  predicate Less(a: string, b: string) {
    if a == [] then b != []
    else if b == [] then false
    else if a[0] != b[0] then a[0] < b[0]
    else Less(a[1..], b[1..])
  }

  lemma {:induction false} LessIrreflexive(a: string)
    ensures !Less(a, a)
  {
    if a != [] {
      LessIrreflexive(a[1..]);
    }
  }

  lemma {:induction false} LessTransitive(a: string, b: string, c: string)
    requires Less(a, b) && Less(b, c)
    ensures Less(a, c)
  {
    if a != [] && b != [] && c != [] && a[0] == b[0] && b[0] == c[0] {
      LessTransitive(a[1..], b[1..], c[1..]);
    }
  }

  /** Two different strings are always ordered one way or the other. */
  lemma {:induction false} LessTotal(a: string, b: string)
    requires a != b
    ensures Less(a, b) || Less(b, a)
  {
    if a != [] && b != [] && a[0] == b[0] {
      assert a == [a[0]] + a[1..] && b == [b[0]] + b[1..];
      LessTotal(a[1..], b[1..]);
    }
  }

  /** node's `path.resolve(base, p)` without normalisation of `.` and `..`: an
      absolute `p` as it is, otherwise `p` under `base`. */
  function ResolvePath(base: string, p: string): (r: string)
    ensures StartsWith(p, "/") ==> r == p
    ensures !StartsWith(p, "/") ==> StartsWith(r, base + "/") && r[|base| + 1..] == p
    ensures StartsWith(base, "/") ==> StartsWith(r, "/")
  {
    if StartsWith(p, "/") then p else base + "/" + p
  }
}
