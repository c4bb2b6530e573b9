/**
 * The string operations the server and the browser client rely on: Python's `str.strip()`,
 * JavaScript's `trim()`, `split("\n")`, `toLowerCase()` and `includes()`.
 */
module Text {

  /** The whitespace characters that both `str.strip()` and `String.prototype.trim()` remove. */
  predicate IsSpace(c: char) {
    c == ' ' || c == '\t' || c == '\n' || c == '\r' || c == '\U{0B}' || c == '\U{0C}'
  }

  /** A string made of whitespace only (the empty string included). */
  predicate Blank(s: string) {
    forall i :: 0 <= i < |s| ==> IsSpace(s[i])
  }

  function TrimStart(s: string): (r: string)
    ensures |r| <= |s| && r == s[|s| - |r|..]
    ensures Blank(s[..|s| - |r|])
    ensures r != [] ==> !IsSpace(r[0])
  {
    if s != [] && IsSpace(s[0]) then
      var r := TrimStart(s[1..]);
      var k := |s| - |r|;
      assert s[1..][k - 1..] == s[k..];
      assert s[..k] == [s[0]] + s[1..][..k - 1];
      r
    else s
  }

  function TrimEnd(s: string): (r: string)
    ensures |r| <= |s| && r == s[..|r|]
    ensures Blank(s[|r|..])
    ensures r != [] ==> !IsSpace(r[|r| - 1])
  {
    if s != [] && IsSpace(s[|s| - 1]) then
      var r := TrimEnd(s[..|s| - 1]);
      assert s[..|s| - 1][..|r|] == s[..|r|];
      assert s[|r|..] == s[..|s| - 1][|r|..] + [s[|s| - 1]];
      r
    else s
  }

  /** `s.strip()` in Python and `s.trim()` in JavaScript. */
  function Strip(s: string): (r: string)
    ensures r != [] ==> !IsSpace(r[0]) && !IsSpace(r[|r| - 1])
    ensures r == [] <==> Blank(s)
  {
    var t := TrimStart(s);
    assert t == [] ==> Blank(s) by {
      if t == [] { assert s[..|s| - |t|] == s; }
    }
    TrimEnd(t)
  }

  /** What `strip` keeps is one contiguous piece of its input, with only whitespace cut off either side. */
  lemma StripIsSlice(s: string) returns (i: nat)
    ensures i + |Strip(s)| <= |s| && Strip(s) == s[i..i + |Strip(s)|]
    ensures Blank(s[..i]) && Blank(s[i + |Strip(s)|..])
  {
    var t := TrimStart(s);
    i := |s| - |t|;
    assert t == s[i..] && Blank(s[..i]);
    assert Strip(s) == TrimEnd(t);
    TrimEndOfSuffix(s, i);
  }

  /** Trimming the end of `s[i..]` keeps a piece of `s` starting at `i`, followed by whitespace only. */
  lemma TrimEndOfSuffix(s: string, i: nat)
    requires i <= |s|
    ensures var r := TrimEnd(s[i..]);
      i + |r| <= |s| && r == s[i..i + |r|] && Blank(s[i + |r|..])
  {
    var r := TrimEnd(s[i..]);
    assert s[i..][..|r|] == s[i..i + |r|];
    assert s[i..][|r|..] == s[i + |r|..];
  }

  /** Stripping twice is stripping once. */
  lemma StripIdempotent(s: string)
    ensures Strip(Strip(s)) == Strip(s)
  {
    var r := Strip(s);
    if r != [] {
      assert TrimStart(r) == r;
      assert TrimEnd(r) == r;
    }
  }

  /** JavaScript's `s.split(sep)` for a one-character separator: the pieces between separators. */
  function Split(s: string, sep: char): (r: seq<string>)
    ensures |r| >= 1
    ensures forall k :: 0 <= k < |r| ==> sep !in r[k]
  {
    if s == [] then [""]
    else if s[0] == sep then [""] + Split(s[1..], sep)
    else
      var rest := Split(s[1..], sep);
      [[s[0]] + rest[0]] + rest[1..]
  }

  /** The inverse of `Split`: the pieces glued back with the separator between them. */
  function Join(parts: seq<string>, sep: char): string
  {
    if |parts| == 0 then ""
    else if |parts| == 1 then parts[0]
    else parts[0] + [sep] + Join(parts[1..], sep)
  }

  lemma {:induction false} JoinSplit(s: string, sep: char)
    ensures Join(Split(s, sep), sep) == s
  {
    if s == [] {
    } else if s[0] == sep {
      JoinSplit(s[1..], sep);
      var rest := Split(s[1..], sep);
      assert Split(s, sep) == [""] + rest;
      assert ([""] + rest)[1..] == rest;
    } else {
      JoinSplit(s[1..], sep);
      var rest := Split(s[1..], sep);
      var parts := [[s[0]] + rest[0]] + rest[1..];
      assert Split(s, sep) == parts;
      if |rest| == 1 {
        assert Join(parts, sep) == [s[0]] + rest[0];
      } else {
        assert parts[1..] == rest[1..];
        assert Join(rest, sep) == rest[0] + [sep] + Join(rest[1..], sep);
      }
    }
  }

  lemma {:induction false} SplitJoin(parts: seq<string>, sep: char)
    requires |parts| >= 1
    requires forall k :: 0 <= k < |parts| ==> sep !in parts[k]
    ensures Split(Join(parts, sep), sep) == parts
  {
    if |parts| == 1 {
      SplitPiece(parts[0], sep);
    } else {
      SplitJoin(parts[1..], sep);
      SplitAfterPiece(parts[0], Join(parts[1..], sep), sep);
      assert [parts[0]] + parts[1..] == parts;
    }
  }

  lemma {:induction false} SplitPiece(p: string, sep: char)
    requires sep !in p
    ensures Split(p, sep) == [p]
  {
    if p != [] {
      SplitPiece(p[1..], sep);
      assert [p[0]] + p[1..] == p;
    }
  }

  lemma {:induction false} SplitAfterPiece(p: string, tail: string, sep: char)
    requires sep !in p
    ensures Split(p + [sep] + tail, sep) == [p] + Split(tail, sep)
  {
    if p == [] {
      assert p + [sep] + tail == [sep] + tail;
      assert ([sep] + tail)[1..] == tail;
    } else {
      var s := p + [sep] + tail;
      assert s[1..] == p[1..] + [sep] + tail;
      SplitAfterPiece(p[1..], tail, sep);
      assert [p[0]] + p[1..] == p;
    }
  }

  /** Every piece stripped, the blank ones dropped, the rest kept in order. */
  function NonBlank(parts: seq<string>): seq<string>
  {
    if parts == [] then []
    else
      var t := Strip(parts[0]);
      if t == "" then NonBlank(parts[1..]) else [t] + NonBlank(parts[1..])
  }

  /** What is kept is no longer than the input, and each kept piece is non-empty and already stripped. */
  lemma {:induction false} NonBlankClean(parts: seq<string>)
    ensures var r := NonBlank(parts);
      && |r| <= |parts|
      && forall k :: 0 <= k < |r| ==> r[k] != "" && Strip(r[k]) == r[k]
  {
    if parts != [] {
      var t := Strip(parts[0]);
      var rest := NonBlank(parts[1..]);
      NonBlankClean(parts[1..]);
      if t != "" {
        StripIdempotent(parts[0]);
        var r := [t] + rest;
        assert NonBlank(parts) == r;
        forall k | 0 <= k < |r| ensures r[k] != "" && Strip(r[k]) == r[k] {
          if k > 0 {
            assert r[k] == rest[k - 1];
          }
        }
      }
    }
  }

  /** `text.split("\n").map(x => x.trim()).filter(x => x.length > 0)`. */
  function NonBlankLines(text: string): seq<string>
  {
    NonBlank(Split(text, '\n'))
  }

  lemma {:induction false} NonBlankEmpty(parts: seq<string>)
    ensures NonBlank(parts) == [] <==> forall k :: 0 <= k < |parts| ==> Blank(parts[k])
  {
    if parts != [] {
      NonBlankEmpty(parts[1..]);
      if Blank(parts[0]) {
        assert NonBlank(parts) == NonBlank(parts[1..]);
        forall k | 1 <= k < |parts| ensures parts[k] == parts[1..][k - 1] { }
      } else {
        assert NonBlank(parts) != [];
      }
    }
  }

  lemma {:induction false} JoinBlank(parts: seq<string>)
    requires forall k :: 0 <= k < |parts| ==> Blank(parts[k])
    ensures Blank(Join(parts, '\n'))
  {
    if |parts| > 1 {
      JoinBlank(parts[1..]);
    }
  }

  /** A text with anything but whitespace in it has at least one non-blank line. */
  lemma NonBlankLinesNonEmpty(text: string)
    requires !Blank(text)
    ensures NonBlankLines(text) != []
  {
    var parts := Split(text, '\n');
    JoinSplit(text, '\n');
    NonBlankEmpty(parts);
    if NonBlank(parts) == [] {
      JoinBlank(parts);
    }
  }

  /** A stripped, non-empty text has at least one line, and each is non-empty and stripped. */
  lemma NonBlankLinesClean(text: string)
    requires text != "" && Strip(text) == text
    ensures var r := NonBlankLines(text);
      && r != []
      && forall k :: 0 <= k < |r| ==> r[k] != "" && Strip(r[k]) == r[k]
  {
    assert !IsSpace(text[0]);
    NonBlankLinesNonEmpty(text);
    NonBlankClean(Split(text, '\n'));
  }

  /** The lines of a text with only whitespace in it are all blank. */
  lemma BlankTextNoLines(text: string)
    requires Blank(text)
    ensures NonBlankLines(text) == []
  {
    var parts := Split(text, '\n');
    forall k | 0 <= k < |parts| ensures Blank(parts[k]) {
      SplitPiecesBlank(text, k);
    }
    NonBlankEmpty(parts);
  }

  lemma {:induction false} SplitPiecesBlank(s: string, k: nat)
    requires Blank(s) && k < |Split(s, '\n')|
    ensures Blank(Split(s, '\n')[k])
  {
    if s != [] {
      var rest := Split(s[1..], '\n');
      if s[0] == '\n' {
        if k > 0 { SplitPiecesBlank(s[1..], k - 1); }
      } else {
        SplitPiecesBlank(s[1..], if k == 0 then 0 else k);
      }
    }
  }

  /** `c.toLowerCase()` on the ASCII letters. */
  function LowerChar(c: char): char
  {
    if 'A' <= c <= 'Z' then (c as int + 32) as char else c
  }

  function ToLower(s: string): string
  {
    seq(|s|, i requires 0 <= i < |s| => LowerChar(s[i]))
  }

  predicate IsPrefix(p: string, s: string) {
    |p| <= |s| && s[..|p|] == p
  }

  /** `hay.includes(needle)`. */
  predicate Contains(hay: string, needle: string)
  {
    IsPrefix(needle, hay) || (hay != [] && Contains(hay[1..], needle))
  }

  /** `needle` occurs in `hay` starting at index `i`. */
  predicate OccursAt(hay: string, needle: string, i: nat) {
    i + |needle| <= |hay| && hay[i..i + |needle|] == needle
  }

  /** `includes` holds exactly when the needle occurs at some index of the text. */
  lemma ContainsIff(hay: string, needle: string)
    ensures Contains(hay, needle) <==> exists i: nat :: OccursAt(hay, needle, i)
  {
    if Contains(hay, needle) {
      var i := ContainsFound(hay, needle);
      assert OccursAt(hay, needle, i);
    }
    if exists i: nat :: OccursAt(hay, needle, i) {
      var i: nat :| OccursAt(hay, needle, i);
      ContainsAt(hay, needle, i);
    }
  }

  lemma {:induction false} ContainsAt(hay: string, needle: string, i: nat)
    requires i + |needle| <= |hay| && hay[i..i + |needle|] == needle
    ensures Contains(hay, needle)
  {
    if i > 0 {
      assert hay[1..][i - 1..i - 1 + |needle|] == hay[i..i + |needle|];
      ContainsAt(hay[1..], needle, i - 1);
    }
  }

  lemma {:induction false} ContainsFound(hay: string, needle: string) returns (i: nat)
    requires Contains(hay, needle)
    ensures i + |needle| <= |hay| && hay[i..i + |needle|] == needle
  {
    if IsPrefix(needle, hay) {
      i := 0;
    } else {
      var j := ContainsFound(hay[1..], needle);
      i := j + 1;
      assert hay[1..][j..j + |needle|] == hay[i..i + |needle|];
    }
  }
}
