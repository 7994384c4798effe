/**
 * The string operations the configuration builder relies on, with the
 * semantics of Python's `str`: `s.split(sep)` with an explicit one-character
 * separator, `sep.join(parts)`, a `'\n'`-only `splitlines`, and `format` on a
 * template holding a single `{}` slot.
 */
module Strings {

  import opened Wrappers

  /** Index of the first occurrence of `c` in `s`, or `|s|` when `c` does not occur. */
  function IndexOf(s: string, c: char): (i: nat)
    ensures i <= |s|
    ensures i < |s| ==> s[i] == c
    ensures forall j :: 0 <= j < i ==> s[j] != c
  {
    if |s| == 0 then 0
    else if s[0] == c then 0
    else 1 + IndexOf(s[1..], c)
  }

  /** Number of occurrences of `c` in `s`. */
  function Count(s: string, c: char): (n: nat)
  {
    multiset(s)[c]
  }

  /**
   * `s.split(sep)`: the pieces of `s` between successive separators, from left
   * to right. Nothing is trimmed and empty pieces are kept, so `""` splits to
   * `[""]` and `","` splits to `["", ""]`.
   */
  function Split(s: string, sep: char): (parts: seq<string>)
    ensures |parts| > 0
    decreases |s|
  {
    var i := IndexOf(s, sep);
    if i == |s| then [s]
    else [s[..i]] + Split(s[i + 1..], sep)
  }

  /** A split yields one more piece than there are separators. */
  lemma {:induction false} SplitCount(s: string, sep: char)
    ensures |Split(s, sep)| == Count(s, sep) + 1
    decreases |s|
  {
    var i := IndexOf(s, sep);
    if i == |s| {
      assert s[..i] == s;
    } else {
      SplitCount(s[i + 1..], sep);
      assert s == s[..i] + [sep] + s[i + 1..];
    }
  }

  /** No piece of a split contains the separator. */
  lemma {:induction false} SplitPiecesFree(s: string, sep: char)
    ensures forall k :: 0 <= k < |Split(s, sep)| ==> sep !in Split(s, sep)[k]
    decreases |s|
  {
    var i := IndexOf(s, sep);
    if i == |s| {
      assert s[..i] == s;
    } else {
      SplitPiecesFree(s[i + 1..], sep);
      var parts := Split(s, sep);
      assert parts == [s[..i]] + Split(s[i + 1..], sep);
      forall k | 0 <= k < |parts|
        ensures sep !in parts[k]
      {
        if k > 0 {
          assert parts[k] == Split(s[i + 1..], sep)[k - 1];
        }
      }
    }
  }

  /** `sep.join(parts)`: the parts with one separator between each neighbouring pair. */
  function Join(parts: seq<string>, sep: char): (s: string)
    ensures |parts| > 0 ==> Count(s, sep) >= |parts| - 1
    ensures |parts| > 0 ==> parts[0] <= s
  {
    if |parts| == 0 then ""
    else if |parts| == 1 then parts[0]
    else parts[0] + [sep] + Join(parts[1..], sep)
  }

  /** Joining what a split produced gives back the original string, character for character. */
  lemma {:induction false} JoinSplit(s: string, sep: char)
    ensures Join(Split(s, sep), sep) == s
    decreases |s|
  {
    if sep !in s {
      IndexOfAbsent(s, sep);
      assert s[..|s|] == s;
    } else {
      var i := IndexOf(s, sep);
      var first, rest := s[..i], s[i + 1..];
      assert sep !in first;
      assert s == first + [sep] + rest;
      SplitAtFirst(first, sep, rest);
      JoinSplit(rest, sep);
      JoinCons(first, Split(rest, sep), sep);
    }
  }

  lemma JoinCons(first: string, rest: seq<string>, sep: char)
    requires |rest| > 0
    ensures Join([first] + rest, sep) == first + [sep] + Join(rest, sep)
  {
    assert ([first] + rest)[1..] == rest;
  }

  /** Splitting a join of separator-free parts gives back exactly those parts. */
  lemma {:induction false} SplitJoin(parts: seq<string>, sep: char)
    requires |parts| > 0
    requires forall k :: 0 <= k < |parts| ==> sep !in parts[k]
    ensures Split(Join(parts, sep), sep) == parts
    decreases |parts|
  {
    if |parts| == 1 {
      IndexOfAbsent(parts[0], sep);
      assert parts == [parts[0]];
    } else {
      var rest := parts[1..];
      SplitJoin(rest, sep);
      SplitAtFirst(parts[0], sep, Join(rest, sep));
      assert parts == [parts[0]] + rest;
    }
  }

  lemma SplitAtFirst(first: string, sep: char, tail: string)
    requires sep !in first
    ensures Split(first + [sep] + tail, sep) == [first] + Split(tail, sep)
  {
    var s := first + [sep] + tail;
    IndexOfFirst(first, sep, tail);
    assert s[..|first|] == first;
    assert s[|first| + 1..] == tail;
  }

  lemma IndexOfAbsent(s: string, c: char)
    requires c !in s
    ensures IndexOf(s, c) == |s|
  {
  }

  lemma {:induction false} IndexOfFirst(a: string, c: char, b: string)
    requires c !in a
    ensures IndexOf(a + [c] + b, c) == |a|
    decreases |a|
  {
    var s := a + [c] + b;
    if |a| > 0 {
      assert s[1..] == a[1..] + [c] + b;
      IndexOfFirst(a[1..], c, b);
    }
  }

  /** The last piece of a split is empty exactly when the string is empty or ends with the separator. */
  lemma {:induction false} SplitLastEmpty(s: string, sep: char)
    ensures var parts := Split(s, sep);
      parts[|parts| - 1] == "" <==> (s == "" || s[|s| - 1] == sep)
    decreases |s|
  {
    var i := IndexOf(s, sep);
    if i == |s| {
      assert s[..i] == s;
      if s != "" {
        assert s[|s| - 1] in s;
      }
    } else {
      var rest := s[i + 1..];
      SplitLastEmpty(rest, sep);
      var parts := Split(s, sep);
      assert parts == [s[..i]] + Split(rest, sep);
      if rest != "" {
        assert rest[|rest| - 1] == s[|s| - 1];
      }
    }
  }

  /**
   * `text.splitlines()` for text whose only line boundary is `'\n'`: the
   * lines without their terminators, where a final terminator does not start
   * one more (empty) line. So `""` gives no lines and `"a\n"` gives `["a"]`.
   */
  function SplitLines(text: string): (lines: seq<string>)
    ensures forall k :: 0 <= k < |lines| ==> '\n' !in lines[k]
    ensures text == "" || text[|text| - 1] == '\n' ==> |lines| == Count(text, '\n')
    ensures text != "" && text[|text| - 1] != '\n' ==> |lines| == Count(text, '\n') + 1
    ensures text == "" || text[|text| - 1] == '\n' ==> UnlinesTerminated(lines) == text
    ensures text != "" && text[|text| - 1] != '\n' ==> Join(lines, '\n') == text
  {
    var parts := Split(text, '\n');
    SplitLastEmpty(text, '\n');
    SplitCount(text, '\n');
    SplitPiecesFree(text, '\n');
    DropFinalEmpty(text);
    if parts[|parts| - 1] == "" then parts[..|parts| - 1] else parts
  }

  /** Dropping an empty final piece of a split on `'\n'` leaves the lines of a newline-terminated text. */
  lemma DropFinalEmpty(text: string)
    ensures var parts := Split(text, '\n');
      && (parts[|parts| - 1] == "" ==> UnlinesTerminated(parts[..|parts| - 1]) == text)
      && (parts[|parts| - 1] != "" ==> Join(parts, '\n') == text)
  {
    var parts := Split(text, '\n');
    JoinSplit(text, '\n');
    if parts[|parts| - 1] == "" {
      DropEmptyLast(parts, text);
    }
  }

  lemma DropEmptyLast(parts: seq<string>, text: string)
    requires |parts| > 0 && parts[|parts| - 1] == ""
    requires Join(parts, '\n') == text
    ensures UnlinesTerminated(parts[..|parts| - 1]) == text
  {
    var lines := parts[..|parts| - 1];
    assert parts == lines + [""];
    if |lines| > 0 {
      JoinAppendEmpty(lines, '\n');
    }
  }

  /** The contents of a newline-terminated file holding the given lines. */
  function UnlinesTerminated(lines: seq<string>): (text: string)
  {
    if |lines| == 0 then "" else Join(lines, '\n') + "\n"
  }

  lemma {:induction false} JoinAppendEmpty(parts: seq<string>, sep: char)
    requires |parts| > 0
    ensures Join(parts + [""], sep) == Join(parts, sep) + [sep]
    decreases |parts|
  {
    if |parts| == 1 {
      assert parts + [""] == [parts[0], ""];
    } else {
      assert (parts + [""])[1..] == parts[1..] + [""];
      JoinAppendEmpty(parts[1..], sep);
    }
  }

  /** Reading the lines back from a newline-terminated file gives exactly the lines written. */
  lemma SplitLinesUnlines(lines: seq<string>)
    requires forall k :: 0 <= k < |lines| ==> '\n' !in lines[k]
    ensures SplitLines(UnlinesTerminated(lines)) == lines
  {
    if |lines| > 0 {
      var padded := lines + [""];
      JoinAppendEmpty(lines, '\n');
      assert forall k :: 0 <= k < |padded| ==> '\n' !in padded[k];
      SplitJoin(padded, '\n');
      assert padded[..|padded| - 1] == lines;
    }
  }

  /** A path template with a `{}` slot: the text before the slot and the text after it. */
  datatype Template = Template(prefix: string, suffix: string) {

    /** The template as written, with its slot. */
    function Text(): (text: string)
    {
      prefix + "{}" + suffix
    }

    /** Neither side of the slot holds a brace, so `{}` is the template's one replacement field. */
    predicate SingleSlot()
    {
      '{' !in prefix && '}' !in prefix && '{' !in suffix && '}' !in suffix
    }

    /**
     * `template.format(arg)`: the `{}` field of the template text replaced by
     * the argument verbatim; for a single-slot template that field is the
     * text's first brace.
     */
    function Format(arg: string): (r: string)
      ensures Text()[|prefix|..|prefix| + 2] == "{}"
      ensures r == Text()[..|prefix|] + arg + Text()[|prefix| + 2..]
    {
      var text := Text();
      assert text[..|prefix|] == prefix && text[|prefix| + 2..] == suffix;
      prefix + arg + suffix
    }

    /** The argument that formats to `path`, if `path` has the template's shape. */
    function Match(path: string): (r: Option<string>)
      ensures r.Some? ==> |path| == |prefix| + |r.value| + |suffix|
    {
      if |prefix| + |suffix| <= |path|
        && path[..|prefix|] == prefix
        && path[|path| - |suffix|..] == suffix
      then Some(path[|prefix|..|path| - |suffix|])
      else None
    }
  }

  /** In a single-slot template the first brace opens the slot, and the text holds one `{` and one `}`. */
  lemma SlotIsOnlyField(t: Template)
    requires t.SingleSlot()
    ensures IndexOf(t.Text(), '{') == |t.prefix|
    ensures Count(t.Text(), '{') == 1 && Count(t.Text(), '}') == 1
  {
    assert t.Text() == t.prefix + ['{'] + ("}" + t.suffix);
    IndexOfFirst(t.prefix, '{', "}" + t.suffix);
    assert t.Text() == t.prefix + ['{'] + ['}'] + t.suffix;
  }

  /**
   * For a single-slot template, formatting replaces the two characters at the
   * text's first brace, its one replacement field, by the argument.
   */
  lemma FormatFillsFirstField(t: Template, arg: string)
    requires t.SingleSlot()
    ensures var i := IndexOf(t.Text(), '{');
      i + 2 <= |t.Text()| && t.Text()[i..i + 2] == "{}"
      && t.Format(arg) == t.Text()[..i] + arg + t.Text()[i + 2..]
  {
    SlotIsOnlyField(t);
  }

  /** Matching recovers the argument of a format, and only a format matches. */
  lemma FormatMatch(t: Template, arg: string, path: string)
    ensures t.Match(t.Format(arg)) == Some(arg)
    ensures t.Match(path) == Some(arg) ==> t.Format(arg) == path
  {
    var r := t.Format(arg);
    assert r[|r| - |t.suffix|..] == t.suffix;
    if t.Match(path) == Some(arg) {
      assert path == path[..|t.prefix|] + path[|t.prefix|..|path| - |t.suffix|] + path[|path| - |t.suffix|..];
    }
  }

  /** Different arguments give different formatted paths. */
  lemma FormatInjective(t: Template, a: string, b: string)
    requires a != b
    ensures t.Format(a) != t.Format(b)
  {
    FormatMatch(t, a, t.Format(a));
    FormatMatch(t, b, t.Format(b));
  }
}
