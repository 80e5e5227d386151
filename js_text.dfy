/**
 * The JavaScript string operations the chat loop relies on:
 * `String.prototype.trim`, `String.prototype.toLowerCase` (over ASCII),
 * `Array.prototype.join`, and splitting a text into its lines, which is
 * the inverse of joining with a newline.
 */
module JsText {

  /** ECMAScript WhiteSpace and LineTerminator code points: what `trim` removes. */
  predicate IsJsSpace(c: char) {
    || c == '\t' || c == '\n' || c == '\U{B}' || c == '\U{C}' || c == '\r' || c == ' '
    || c == '\U{A0}' || c == '\U{1680}' || ('\U{2000}' <= c <= '\U{200A}')
    || c == '\U{2028}' || c == '\U{2029}' || c == '\U{202F}' || c == '\U{205F}'
    || c == '\U{3000}' || c == '\U{FEFF}'
  }

  predicate AllSpace(s: string) {
    forall k | 0 <= k < |s| :: IsJsSpace(s[k])
  }

  /** `s` without its leading white space: a suffix of `s`. */
  function TrimStart(s: string): (r: string)
    ensures |r| <= |s| && r == s[|s| - |r|..]
    ensures AllSpace(s[..|s| - |r|])
    ensures r == [] || !IsJsSpace(r[0])
  {
    if s != [] && IsJsSpace(s[0]) then TrimStart(s[1..]) else s
  }

  /** `s` without its trailing white space: a prefix of `s`. */
  function TrimEnd(s: string): (r: string)
    ensures |r| <= |s| && r == s[..|r|]
    ensures AllSpace(s[|r|..])
    ensures r == [] || !IsJsSpace(r[|r| - 1])
  {
    if s != [] && IsJsSpace(s[|s| - 1]) then TrimEnd(s[..|s| - 1]) else s
  }

  /**
   * `s.trim()`: the slice of `s` left once its leading and trailing white
   * space is dropped. It is empty exactly when `s` is all white space, and
   * otherwise starts and ends with a non-space.
   */
  function Trim(s: string): (r: string)
    ensures exists i, j | 0 <= i <= j <= |s| :: r == s[i..j] && AllSpace(s[..i]) && AllSpace(s[j..])
    ensures r == [] <==> AllSpace(s)
    ensures r != [] ==> !IsJsSpace(r[0]) && !IsJsSpace(r[|r| - 1])
  {
    var t := TrimStart(s);
    var r := TrimEnd(t);
    TrimmedSlice(s, t, r);
    r
  }

  /** Dropping leading white space, then trailing white space, leaves a middle slice. */
  lemma TrimmedSlice(s: string, t: string, r: string)
    requires |t| <= |s| && t == s[|s| - |t|..] && AllSpace(s[..|s| - |t|])
    requires |r| <= |t| && r == t[..|r|] && AllSpace(t[|r|..])
    requires r == [] || !IsJsSpace(r[0])
    ensures exists i, j | 0 <= i <= j <= |s| :: r == s[i..j] && AllSpace(s[..i]) && AllSpace(s[j..])
    ensures r == [] <==> AllSpace(s)
  {
    var i := |s| - |t|;
    var j := i + |r|;
    assert s[i..j] == t[..|r|];
    assert s[j..] == t[|r|..];
    assert r == s[i..j] && AllSpace(s[..i]) && AllSpace(s[j..]);
    SpaceAround(s, i, j);
  }

  /** Between two stretches of white space, a text is all white space exactly when its middle is. */
  lemma SpaceAround(s: string, i: nat, j: nat)
    requires i <= j <= |s| && AllSpace(s[..i]) && AllSpace(s[j..])
    ensures AllSpace(s) <==> AllSpace(s[i..j])
  {
    if AllSpace(s[i..j]) {
      forall k | 0 <= k < |s| ensures IsJsSpace(s[k]) {
        if k < i {
          assert s[k] == s[..i][k];
        } else if k < j {
          assert s[k] == s[i..j][k - i];
        } else {
          assert s[k] == s[j..][k - j];
        }
      }
    }
  }

  /** `toLowerCase` on one character, over ASCII. */
  function LowerChar(c: char): char {
    if 'A' <= c <= 'Z' then (c as int - 'A' as int + 'a' as int) as char else c
  }

  function UpperChar(c: char): char {
    if 'a' <= c <= 'z' then (c as int - 'a' as int + 'A' as int) as char else c
  }

  /** `s.toLowerCase()`: the same length, no upper-case ASCII letter left, every other character kept. */
  function ToLower(s: string): (r: string)
    ensures |r| == |s|
    ensures forall k | 0 <= k < |s| :: !('A' <= r[k] <= 'Z')
    ensures forall k | 0 <= k < |s| :: r[k] == s[k] || ('A' <= s[k] <= 'Z' && r[k] as int == s[k] as int + 32)
  {
    seq(|s|, k requires 0 <= k < |s| => LowerChar(s[k]))
  }

  /** A command word: lower-case ASCII letters only. */
  predicate IsLowerWord(w: string) {
    forall k | 0 <= k < |w| :: 'a' <= w[k] <= 'z'
  }

  /**
   * Comparing `s.toLowerCase()` with a lower-case word is an exact,
   * case-insensitive match: same length, and each character is the word's
   * letter in either case. No trimming takes place.
   */
  lemma MatchIgnoringCase(s: string, w: string)
    requires IsLowerWord(w)
    ensures ToLower(s) == w <==>
      |s| == |w| && forall k | 0 <= k < |w| :: s[k] == w[k] || s[k] == UpperChar(w[k])
  {
    if |s| == |w| && forall k | 0 <= k < |w| :: s[k] == w[k] || s[k] == UpperChar(w[k]) {
      forall k | 0 <= k < |w| ensures ToLower(s)[k] == w[k] {
        assert s[k] == w[k] || s[k] == UpperChar(w[k]);
      }
    }
    if ToLower(s) == w {
      forall k | 0 <= k < |w| ensures s[k] == w[k] || s[k] == UpperChar(w[k]) {
        assert LowerChar(s[k]) == w[k];
      }
    }
  }

  /** A line made only of white space is never a command word (nor empty one). */
  lemma BlankIsNoWord(s: string, w: string)
    requires AllSpace(s) && IsLowerWord(w) && w != []
    ensures ToLower(s) != w
  {
    if |s| == |w| {
      assert IsJsSpace(s[0]);
      assert ToLower(s)[0] == s[0];
    }
  }

  /**
   * `parts.join(sep)`: no parts give the empty string, and otherwise the
   * result starts with the first part.
   */
  function Join(parts: seq<string>, sep: string): (r: string)
    ensures parts == [] ==> r == ""
    ensures parts != [] ==> |r| >= |parts[0]| && r[..|parts[0]|] == parts[0]
  {
    if |parts| == 0 then ""
    else if |parts| == 1 then parts[0]
    else parts[0] + sep + Join(parts[1..], sep)
  }

  /** Appending one more part appends exactly one separator and that part. */
  lemma {:induction false} JoinAppend(parts: seq<string>, x: string, sep: string)
    requires parts != []
    ensures Join(parts + [x], sep) == Join(parts, sep) + sep + x
  {
    if |parts| == 1 {
      assert (parts + [x])[1..] == [x];
    } else {
      assert (parts + [x])[1..] == parts[1..] + [x];
      JoinAppend(parts[1..], x, sep);
    }
  }

  /** The lines of `s`: its pieces between newline characters (`s.split("\n")`). */
  function Lines(s: string): (r: seq<string>)
    ensures r != []
    ensures forall k | 0 <= k < |r| :: '\n' !in r[k]
  {
    if s == [] then [""]
    else if s[0] == '\n' then [""] + Lines(s[1..])
    else
      var rest := Lines(s[1..]);
      [[s[0]] + rest[0]] + rest[1..]
  }

  /** Splitting then joining with a newline gives back the text. */
  lemma {:induction false} JoinLines(s: string)
    ensures Join(Lines(s), "\n") == s
  {
    if s == [] {
    } else if s[0] == '\n' {
      JoinLines(s[1..]);
    } else {
      var rest := Lines(s[1..]);
      JoinLines(s[1..]);
      if |rest| == 1 {
      } else {
        assert ([[s[0]] + rest[0]] + rest[1..])[1..] == rest[1..];
        assert Join(rest, "\n") == rest[0] + "\n" + Join(rest[1..], "\n");
      }
    }
  }

  /** A text without newline is one line. */
  lemma {:induction false} LinesOfLine(s: string)
    requires '\n' !in s
    ensures Lines(s) == [s]
  {
    if s != [] {
      assert s[0] in s;
      assert forall c | c in s[1..] :: c in s;
      LinesOfLine(s[1..]);
      assert [s[0]] + s[1..] == s;
    }
  }

  /** The newline between two texts separates their lines. */
  lemma {:induction false} LinesConcat(a: string, b: string)
    ensures Lines(a + "\n" + b) == Lines(a) + Lines(b)
  {
    if a == [] {
      assert a + "\n" + b == "\n" + b;
      assert ("\n" + b)[1..] == b;
    } else {
      assert (a + "\n" + b)[0] == a[0];
      assert (a + "\n" + b)[1..] == a[1..] + "\n" + b;
      LinesConcat(a[1..], b);
    }
  }

  /** Joining newline-free parts with a newline, then splitting, gives back the parts. */
  lemma {:induction false} LinesJoin(parts: seq<string>)
    requires parts != []
    requires forall k | 0 <= k < |parts| :: '\n' !in parts[k]
    ensures Lines(Join(parts, "\n")) == parts
  {
    LinesOfLine(parts[0]);
    if |parts| > 1 {
      LinesJoin(parts[1..]);
      LinesConcat(parts[0], Join(parts[1..], "\n"));
      assert parts == [parts[0]] + parts[1..];
    }
  }
}
