/** The JavaScript string built-ins the pages lean on: `trim()`, `split(sep)`,
    `join(sep)`, `length`, and the "non-blank lines of a text area" idiom
    `text.split('\n').filter(line => line.trim())`. */
module Text {

  /** The WhiteSpace and LineTerminator code points that `String.prototype.trim`
      strips (ECMAScript: TAB, VT, FF, SP, NBSP, ZWNBSP, the Zs category, LF, CR,
      LS, PS). */
  predicate IsWhitespace(c: char) {
    || c == '\t' || c == '\U{000B}' || c == '\U{000C}' || c == ' '
    || c == '\U{00A0}' || c == '\U{FEFF}' || c == '\U{1680}'
    || ('\U{2000}' <= c <= '\U{200A}') || c == '\U{202F}' || c == '\U{205F}'
    || c == '\U{3000}'
    || c == '\n' || c == '\r' || c == '\U{2028}' || c == '\U{2029}'
  }

  /** The leading whitespace of `s` removed: what remains is a suffix of `s`, does
      not start with whitespace, and everything dropped was whitespace. */
  function TrimStart(s: string): (r: string)
    ensures |r| <= |s| && r == s[|s| - |r|..]
    ensures r == [] || !IsWhitespace(r[0])
    ensures forall i :: 0 <= i < |s| - |r| ==> IsWhitespace(s[i])
  {
    if |s| > 0 && IsWhitespace(s[0]) then TrimStart(s[1..]) else s
  }

  /** The trailing whitespace of `s` removed: a prefix of `s` that does not end in
      whitespace, everything dropped being whitespace. */
  function TrimEnd(s: string): (r: string)
    ensures |r| <= |s| && r == s[..|r|]
    ensures r == [] || !IsWhitespace(r[|r| - 1])
    ensures forall i :: |r| <= i < |s| ==> IsWhitespace(s[i])
  {
    if |s| > 0 && IsWhitespace(s[|s| - 1]) then TrimEnd(s[..|s| - 1]) else s
  }

  /** `s.trim()` */
  function Trim(s: string): string {
    TrimEnd(TrimStart(s))
  }

  /** `!s.trim()`: the trimmed string is empty, hence falsy. */
  predicate IsBlank(s: string) {
    Trim(s) == ""
  }

  /** A string is blank exactly when every character of it is whitespace. */
  lemma BlankIffAllWhitespace(s: string)
    ensures IsBlank(s) <==> forall i :: 0 <= i < |s| ==> IsWhitespace(s[i])
  {
    var t := TrimStart(s);
    if IsBlank(s) {
      // TrimEnd(t) is empty, so t is all whitespace, and t cannot start with
      // whitespace: t is empty and TrimStart dropped all of s
      assert t == [];
    } else {
      var r := Trim(s);
      assert r != [] && r == t[..|r|];
      if t[0] == s[|s| - |t|] {}
    }
  }

  /** The UTF-16 `length` of a string: code points beyond the Basic Multilingual
      Plane take two code units. */
  function Utf16Length(s: string): (n: nat)
    ensures |s| <= n <= 2 * |s|
  {
    if s == [] then 0
    else (if s[0] as int > 0xFFFF then 2 else 1) + Utf16Length(s[1..])
  }

  /** `s.split(sep)` for a one-character separator: the pieces between
      separators, at least one, none containing the separator; there are two
      or more pieces exactly when the separator occurs. */
  function Split(s: string, sep: char): (parts: seq<string>)
    ensures |parts| >= 1
    ensures forall i :: 0 <= i < |parts| ==> sep !in parts[i]
    ensures sep in s <==> |parts| >= 2
  {
    if |s| == 0 then [""]
    else
      var rest := Split(s[1..], sep);
      assert s == [s[0]] + s[1..];
      if s[0] == sep then [""] + rest
      else [[s[0]] + rest[0]] + rest[1..]
  }

  /** `parts.join(sep)` */
  function Join(parts: seq<string>, sep: char): string {
    if |parts| == 0 then ""
    else if |parts| == 1 then parts[0]
    else parts[0] + [sep] + Join(parts[1..], sep)
  }

  /** Splitting and joining back on the same separator gives the text back. */
  lemma {:induction false} JoinSplit(s: string, sep: char)
    ensures Join(Split(s, sep), sep) == s
    decreases |s|
  {
    if |s| > 0 {
      var rest := Split(s[1..], sep);
      JoinSplit(s[1..], sep);
      if s[0] == sep {
        assert Split(s, sep) == [""] + rest;
        assert s == [sep] + s[1..];
      } else {
        var parts := Split(s, sep);
        assert parts == [[s[0]] + rest[0]] + rest[1..];
        if |rest| == 1 {
          assert rest == [rest[0]];
        } else {
          assert rest[1..][1..] == rest[2..];
          assert Join(rest, sep) == rest[0] + [sep] + Join(rest[1..], sep);
          assert parts[1..] == rest[1..];
        }
        assert s == [s[0]] + s[1..];
      }
    }
  }

  /** A piece without separator splits to itself. */
  lemma {:induction false} SplitNoSeparator(a: string, sep: char)
    requires sep !in a
    ensures Split(a, sep) == [a]
  {
    if |a| > 0 {
      SplitNoSeparator(a[1..], sep);
      assert [a[0]] + a[1..] == a;
    }
  }

  /** The first piece of `a + [sep] + b` is `a`, the rest is how `b` splits. */
  lemma {:induction false} SplitAfterPiece(a: string, b: string, sep: char)
    requires sep !in a
    ensures Split(a + [sep] + b, sep) == [a] + Split(b, sep)
    decreases |a|
  {
    var s := a + [sep] + b;
    if |a| == 0 {
      assert s[1..] == b;
    } else {
      assert s[1..] == a[1..] + [sep] + b;
      SplitAfterPiece(a[1..], b, sep);
      assert [a[0]] + a[1..] == a;
    }
  }

  /** Joining separator-free pieces and splitting again gives the pieces back. */
  lemma {:induction false} SplitJoin(parts: seq<string>, sep: char)
    requires |parts| >= 1
    requires forall i :: 0 <= i < |parts| ==> sep !in parts[i]
    ensures Split(Join(parts, sep), sep) == parts
  {
    if |parts| == 1 {
      SplitNoSeparator(parts[0], sep);
    } else {
      SplitJoin(parts[1..], sep);
      SplitAfterPiece(parts[0], Join(parts[1..], sep), sep);
      assert [parts[0]] + parts[1..] == parts;
    }
  }

  /** `lines.filter(line => line.trim())`: the non-blank lines, in order. */
  function NonBlank(lines: seq<string>): (r: seq<string>)
    ensures |r| <= |lines|
    ensures forall i :: 0 <= i < |r| ==> !IsBlank(r[i])
    ensures forall x :: x in r <==> x in lines && !IsBlank(x)
  {
    if lines == [] then []
    else if IsBlank(lines[0]) then NonBlank(lines[1..])
    else [lines[0]] + NonBlank(lines[1..])
  }

  /** `text.split('\n').filter(line => line.trim())`: every line it keeps is
      non-blank and holds no line feed; it keeps every non-blank line. */
  function NonBlankLines(text: string): (r: seq<string>)
    ensures forall i :: 0 <= i < |r| ==> !IsBlank(r[i]) && '\n' !in r[i]
    ensures forall x :: x in r <==> x in Split(text, '\n') && !IsBlank(x)
  {
    NonBlank(Split(text, '\n'))
  }

  /** Filtering lines that are all non-blank keeps them all. */
  lemma {:induction false} NonBlankKeepsAll(lines: seq<string>)
    requires forall i :: 0 <= i < |lines| ==> !IsBlank(lines[i])
    ensures NonBlank(lines) == lines
  {
    if lines != [] {
      NonBlankKeepsAll(lines[1..]);
      assert [lines[0]] + lines[1..] == lines;
    }
  }

  /** A text area that shows `lines.join('\n')` and re-parses its value with
      `NonBlankLines` gives back the very same list, provided the list was itself
      produced by that parser (non-blank lines, no line feeds). */
  lemma LinesRoundTrip(lines: seq<string>)
    requires forall i :: 0 <= i < |lines| ==> !IsBlank(lines[i]) && '\n' !in lines[i]
    ensures NonBlankLines(Join(lines, '\n')) == lines
  {
    if lines == [] {
      assert Split("", '\n') == [""];
      assert IsBlank("");
    } else {
      SplitJoin(lines, '\n');
      NonBlankKeepsAll(lines);
    }
  }

  /** Filtering distributes over concatenation. */
  lemma {:induction false} NonBlankAppend(a: seq<string>, b: seq<string>)
    ensures NonBlank(a + b) == NonBlank(a) + NonBlank(b)
  {
    if a == [] {
      assert a + b == b;
    } else {
      assert (a + b)[0] == a[0] && (a + b)[1..] == a[1..] + b;
      NonBlankAppend(a[1..], b);
    }
  }

  /** A line feed typed at the very end of a text area whose value is re-parsed
      on every change is lost: the parsed list, and so the text shown again, is
      what it was before the key was pressed. */
  lemma TrailingLineFeedDropped(lines: seq<string>)
    requires forall i :: 0 <= i < |lines| ==> !IsBlank(lines[i]) && '\n' !in lines[i]
    ensures NonBlankLines(Join(lines, '\n') + "\n") == lines
  {
    if lines == [] {
      SplitLoneSeparator('\n');
      assert Join(lines, '\n') + "\n" == ['\n'];
      EmptyLineDropped([""]);
      EmptyLineDropped([]);
      assert [""] + [""] == ["", ""];
    } else {
      SplitTrailing(lines, '\n');
      EmptyLineDropped(lines);
      NonBlankKeepsAll(lines);
    }
  }

  /** An empty last line is dropped by the filter. */
  lemma EmptyLineDropped(lines: seq<string>)
    ensures NonBlank(lines + [""]) == NonBlank(lines)
  {
    NonBlankAppend(lines, [""]);
    assert IsBlank("");
    assert NonBlank([""]) == [];
  }

  /** Separator-free pieces joined, with one more separator at the end, split
      into the pieces and an empty last one. */
  lemma SplitTrailing(lines: seq<string>, sep: char)
    requires |lines| >= 1
    requires forall i :: 0 <= i < |lines| ==> sep !in lines[i]
    ensures Split(Join(lines, sep) + [sep], sep) == lines + [""]
  {
    var padded := lines + [""];
    JoinAppendEmpty(lines, sep);
    assert forall i :: 0 <= i < |padded| ==> sep !in padded[i];
    SplitJoin(padded, sep);
  }

  /** A lone separator splits into two empty pieces. */
  lemma SplitLoneSeparator(sep: char)
    ensures Split([sep], sep) == ["", ""]
  {
    assert [sep][1..] == [];
  }

  /** Joining one more, empty, piece adds just the separator. */
  lemma {:induction false} JoinAppendEmpty(parts: seq<string>, sep: char)
    requires |parts| >= 1
    ensures Join(parts + [""], sep) == Join(parts, sep) + [sep]
  {
    var ps := parts + [""];
    assert ps[0] == parts[0] && ps[1..] == parts[1..] + [""];
    if |parts| == 1 {
      assert ps[1..] == [""];
    } else {
      JoinAppendEmpty(parts[1..], sep);
    }
  }
}
