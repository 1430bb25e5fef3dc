/**
 * The three pieces of the Kotlin standard library the activity relies on:
 * `isNotBlank`, `equals(other, ignoreCase = true)` and `split(delimiter)`,
 * stated over `string` (a `seq<char>`).
 */
module KotlinText {

  /**
   * Kotlin's `Char.isWhitespace()` on the JVM: `Character.isWhitespace(c) ||
   * Character.isSpaceChar(c)`, that is, the ASCII controls TAB..CR and
   * U+001C..U+001F together with every space, line and paragraph separator.
   */
  predicate IsWhitespace(c: char)
    ensures ('0' <= c <= '9') || ('A' <= c <= 'Z') || ('a' <= c <= 'z') ==> !IsWhitespace(c)
    ensures c == ' ' || c == '\t' || c == '\n' || c == '\r' ==> IsWhitespace(c)
  {
    c == ' ' || ('\t' <= c <= '\r') || ('\U{1C}' <= c <= '\U{1F}') ||
    c == '\U{A0}' || c == '\U{1680}' || ('\U{2000}' <= c <= '\U{200A}') ||
    c == '\U{2028}' || c == '\U{2029}' || c == '\U{202F}' || c == '\U{205F}' ||
    c == '\U{3000}'
  }

  /** `CharSequence.isBlank()`: empty, or whitespace only. */
  predicate IsBlank(s: string)
    ensures IsBlank(s) <==> forall c | c in s :: IsWhitespace(c)
  {
    forall i :: 0 <= i < |s| ==> IsWhitespace(s[i])
  }

  /** `CharSequence.isNotBlank()`. */
  predicate IsNotBlank(s: string)
    ensures IsNotBlank(s) <==> exists i :: 0 <= i < |s| && !IsWhitespace(s[i])
  {
    !IsBlank(s)
  }

  /** The ASCII part of `Char.uppercaseChar()`: maps 'a'..'z' to 'A'..'Z'. */
  function AsciiUpper(c: char): (u: char)
    ensures 'a' <= c <= 'z' ==> 'A' <= u <= 'Z' && u as int == c as int - 32
    ensures !('a' <= c <= 'z') ==> u == c
  {
    if 'a' <= c <= 'z' then (c as int - 32) as char else c
  }

  /**
   * `String.equals(other, ignoreCase = true)` on ASCII letters: same length,
   * and the characters agree position by position once upper-cased.
   */
  predicate EqualsIgnoreCase(s: string, t: string)
    ensures EqualsIgnoreCase(s, t) ==> |s| == |t|
    ensures s == t ==> EqualsIgnoreCase(s, t)
  {
    |s| == |t| && forall i :: 0 <= i < |s| ==> AsciiUpper(s[i]) == AsciiUpper(t[i])
  }

  /**
   * `CharSequence.split(delimiter)` for a one-character delimiter and no limit:
   * the maximal delimiter-free pieces between delimiters, in order, keeping
   * empty pieces (also trailing ones), so `Split("", d) == [""]`.
   */
  function Split(s: string, delimiter: char): (parts: seq<string>)
    ensures |parts| >= 1
    ensures forall i :: 0 <= i < |parts| ==> delimiter !in parts[i]
    decreases |s|
  {
    if |s| == 0 then [""]
    else
      var rest := Split(s[1..], delimiter);
      if s[0] == delimiter then [""] + rest
      else [[s[0]] + rest[0]] + rest[1..]
  }

  /** `joinToString(delimiter)`: the pieces with one delimiter between neighbours. */
  function Join(parts: seq<string>, delimiter: char): (s: string)
    requires |parts| >= 1
    decreases |parts|
  {
    if |parts| == 1 then parts[0]
    else parts[0] + [delimiter] + Join(parts[1..], delimiter)
  }

  /** `line` is the text of `s` up to (not including) its first `delimiter`. */
  predicate UpToFirst(s: string, delimiter: char, line: string) {
    line <= s && delimiter !in line && (|line| == |s| || s[|line|] == delimiter)
  }

  /** Splitting loses nothing: joining the pieces gives the text back. */
  lemma {:induction false} JoinSplit(s: string, delimiter: char)
    ensures Join(Split(s, delimiter), delimiter) == s
    decreases |s|
  {
    if |s| > 0 {
      var rest := Split(s[1..], delimiter);
      JoinSplit(s[1..], delimiter);
      if s[0] == delimiter {
        assert Split(s, delimiter)[1..] == rest;
      } else if |rest| > 1 {
        var parts := Split(s, delimiter);
        assert parts[1..] == rest[1..];
        assert Join(rest, delimiter) == rest[0] + [delimiter] + Join(rest[1..], delimiter);
        assert s == [s[0]] + s[1..];
      } else {
        assert s == [s[0]] + s[1..];
      }
    }
  }

  /** A text without the delimiter is one piece, itself. */
  lemma {:induction false} SplitWithoutDelimiter(s: string, delimiter: char)
    requires delimiter !in s
    ensures Split(s, delimiter) == [s]
    decreases |s|
  {
    if |s| > 0 {
      assert delimiter !in s[1..];
      SplitWithoutDelimiter(s[1..], delimiter);
      assert s == [s[0]] + s[1..];
    }
  }

  /** A delimiter-free head followed by the delimiter splits off as the first piece. */
  lemma {:induction false} SplitAfterDelimiter(a: string, delimiter: char, b: string)
    requires delimiter !in a
    ensures Split(a + [delimiter] + b, delimiter) == [a] + Split(b, delimiter)
    decreases |a|
  {
    var s := a + [delimiter] + b;
    if |a| == 0 {
      assert s[1..] == b;
    } else {
      assert s[1..] == a[1..] + [delimiter] + b;
      assert delimiter !in a[1..];
      SplitAfterDelimiter(a[1..], delimiter, b);
      assert [a[0]] + a[1..] == a;
    }
  }

  /** Splitting undoes joining delimiter-free pieces. */
  lemma {:induction false} SplitJoin(parts: seq<string>, delimiter: char)
    requires |parts| >= 1
    requires forall i :: 0 <= i < |parts| ==> delimiter !in parts[i]
    ensures Split(Join(parts, delimiter), delimiter) == parts
    decreases |parts|
  {
    if |parts| == 1 {
      SplitWithoutDelimiter(parts[0], delimiter);
    } else {
      assert delimiter !in parts[0];
      SplitJoin(parts[1..], delimiter);
      SplitAfterDelimiter(parts[0], delimiter, Join(parts[1..], delimiter));
      assert [parts[0]] + parts[1..] == parts;
    }
  }

  /**
   * The first piece is the text up to the first delimiter; when there is a
   * second piece, the pieces after the first are those of the text after that
   * delimiter.
   */
  lemma {:induction false} SplitHead(s: string, delimiter: char)
    ensures UpToFirst(s, delimiter, Split(s, delimiter)[0])
    ensures |Split(s, delimiter)| == 1 <==> delimiter !in s
    ensures |Split(s, delimiter)| > 1 ==>
      var k := |Split(s, delimiter)[0]|;
      k < |s| && Split(s, delimiter)[1..] == Split(s[k + 1..], delimiter)
    decreases |s|
  {
    if |s| > 0 {
      SplitHead(s[1..], delimiter);
      var rest := Split(s[1..], delimiter);
      if s[0] == delimiter {
        assert s[0 + 1..] == s[1..];
        assert Split(s, delimiter)[1..] == rest;
      } else {
        assert Split(s, delimiter)[0] == [s[0]] + rest[0];
        assert s == [s[0]] + s[1..];
        if |rest| > 1 {
          var k := |rest[0]|;
          assert s[1..][k + 1..] == s[k + 2..];
          assert Split(s, delimiter)[1..] == rest[1..];
        }
      }
    }
  }
}
