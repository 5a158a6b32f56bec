/**
 * The few Kotlin string operations the chat screen relies on: `isBlank`,
 * `trim`, `split(delimiter)`, `joinToString(separator)` and the rendering of
 * a nullable value inside a string template.
 */
module Text {
  import opened Wrappers

  /**
   * Kotlin's `Char.isWhitespace` on the JVM: `Character.isWhitespace` or
   * `Character.isSpaceChar`. That is the controls U+0009..U+000D and
   * U+001C..U+001F, and every space, line and paragraph separator.
   */
  predicate IsWhitespace(c: char) {
    var n := c as int;
    || (0x09 <= n <= 0x0D)
    || (0x1C <= n <= 0x20)
    || n == 0xA0
    || n == 0x1680
    || (0x2000 <= n <= 0x200A)
    || n == 0x2028
    || n == 0x2029
    || n == 0x202F
    || n == 0x205F
    || n == 0x3000
  }

  /** `CharSequence.isBlank()`: empty, or whitespace only. */
  predicate IsBlank(s: string)
    ensures IsBlank(s) <==> SkipLeading(s, 0) == |s|
  {
    forall i :: 0 <= i < |s| ==> IsWhitespace(s[i])
  }

  /** The index of the first character at or after `i` that is not whitespace, or `|s|`. */
  function SkipLeading(s: string, i: nat): (k: nat)
    requires i <= |s|
    ensures i <= k <= |s|
    ensures forall j :: i <= j < k ==> IsWhitespace(s[j])
    ensures k == |s| || !IsWhitespace(s[k])
    decreases |s| - i
  {
    if i < |s| && IsWhitespace(s[i]) then SkipLeading(s, i + 1) else i
  }

  /** The end of `s[lo..e]` once its trailing whitespace is dropped. */
  function SkipTrailing(s: string, lo: nat, e: nat): (k: nat)
    requires lo <= e <= |s|
    ensures lo <= k <= e
    ensures forall j :: k <= j < e ==> IsWhitespace(s[j])
    ensures k == lo || !IsWhitespace(s[k - 1])
    decreases e
  {
    if lo < e && IsWhitespace(s[e - 1]) then SkipTrailing(s, lo, e - 1) else e
  }

  /**
   * `String.trim()`: the input without its leading and trailing
   * whitespace. It is empty exactly when the input is blank, and otherwise
   * starts and ends with a character that is not whitespace.
   */
  function Trim(s: string): (r: string)
    ensures r == [] <==> IsBlank(s)
    ensures r == [] || (!IsWhitespace(r[0]) && !IsWhitespace(r[|r| - 1]))
  {
    var k := SkipLeading(s, 0);
    var e := SkipTrailing(s, k, |s|);
    assert k < |s| ==> k < e;
    s[k..e]
  }

  /**
   * `Trim` cuts whitespace only: it keeps the slice of the input that
   * starts at its first character that is not whitespace, and everything
   * before and after that slice is whitespace.
   */
  lemma TrimCutsWhitespace(s: string)
    ensures var k := SkipLeading(s, 0); var r := Trim(s);
      && k + |r| <= |s|
      && r == s[k..k + |r|]
      && (forall i :: 0 <= i < k ==> IsWhitespace(s[i]))
      && (forall i :: k + |r| <= i < |s| ==> IsWhitespace(s[i]))
  {
    var k := SkipLeading(s, 0);
    var e := SkipTrailing(s, k, |s|);
    assert Trim(s) == s[k..e];
  }

  /** A string template's rendering of a nullable value: `null` prints as "null". */
  function Nullable(o: Option<string>): string {
    o.GetOr("null")
  }

  /** `joinToString(sep)`: the parts with one separator between neighbours. */
  function Join(parts: seq<string>, sep: char): string {
    if |parts| == 0 then ""
    else if |parts| == 1 then parts[0]
    else parts[0] + [sep] + Join(parts[1..], sep)
  }

  /**
   * Kotlin's `split(sep)` without a limit: every maximal run between
   * separators, empty runs (also trailing ones) included, so never empty.
   */
  function Split(s: string, sep: char): (r: seq<string>)
    ensures |r| >= 1
    ensures forall i :: 0 <= i < |r| ==> sep !in r[i]
  {
    if |s| == 0 then [""]
    else
      var rest := Split(s[1..], sep);
      if s[0] == sep then [""] + rest
      else [[s[0]] + rest[0]] + rest[1..]
  }

  /**
   * A join starts with its first part and ends with its last, and the first
   * part is followed by a separator when there are more.
   */
  lemma {:induction false} JoinEnds(parts: seq<string>, sep: char)
    requires |parts| >= 1
    ensures var r := Join(parts, sep); var l := parts[|parts| - 1];
      && parts[0] <= r
      && (|parts| >= 2 ==> |parts[0]| < |r| && r[|parts[0]|] == sep)
      && |l| <= |r| && r[|r| - |l|..] == l
  {
    if |parts| >= 2 {
      JoinEnds(parts[1..], sep);
      var rest := Join(parts[1..], sep);
      assert Join(parts, sep) == parts[0] + [sep] + rest;
    }
  }

  /** Joining the parts of a split gives the string back. */
  lemma {:induction false} JoinSplit(s: string, sep: char)
    ensures Join(Split(s, sep), sep) == s
  {
    if |s| > 0 {
      var rest := Split(s[1..], sep);
      JoinSplit(s[1..], sep);
      if s[0] == sep {
        assert Split(s, sep) == [""] + rest;
        assert ([""] + rest)[1..] == rest;
        assert s == [sep] + s[1..];
      } else if |rest| == 1 {
        assert s == [s[0]] + s[1..];
      } else {
        var parts := Split(s, sep);
        assert parts[1..] == rest[1..];
        assert s == [s[0]] + s[1..];
      }
    }
  }

  /** Splitting `a + t` where `a` holds no separator extends the first part. */
  lemma {:induction false} SplitPrefix(a: string, t: string, sep: char)
    requires sep !in a
    ensures Split(a + t, sep) == [a + Split(t, sep)[0]] + Split(t, sep)[1..]
  {
    if |a| > 0 {
      var p := Split(t, sep);
      assert (a + t)[0] == a[0] != sep;
      assert (a + t)[1..] == a[1..] + t;
      SplitPrefix(a[1..], t, sep);
      var rest := Split(a[1..] + t, sep);
      assert rest == [a[1..] + p[0]] + p[1..];
      assert rest[0] == a[1..] + p[0] && rest[1..] == p[1..];
      assert Split(a + t, sep) == [[a[0]] + rest[0]] + rest[1..];
      assert a == [a[0]] + a[1..];
      assert [a[0]] + (a[1..] + p[0]) == a + p[0];
    } else {
      var p := Split(t, sep);
      assert a + t == t && a + p[0] == p[0];
      assert p == [p[0]] + p[1..];
    }
  }

  /** Splitting a join of separator-free parts gives the parts back. */
  lemma {:induction false} SplitJoin(parts: seq<string>, sep: char)
    requires |parts| >= 1
    requires forall i :: 0 <= i < |parts| ==> sep !in parts[i]
    ensures Split(Join(parts, sep), sep) == parts
  {
    if |parts| == 1 {
      SplitPrefix(parts[0], "", sep);
      assert parts[0] + "" == parts[0];
    } else {
      var tail := Join(parts[1..], sep);
      SplitJoin(parts[1..], sep);
      assert ([sep] + tail)[1..] == tail;
      SplitPrefix(parts[0], [sep] + tail, sep);
      assert parts[0] + [sep] + tail == parts[0] + ([sep] + tail);
      assert Join(parts, sep) == parts[0] + ([sep] + tail);
      var st := Split([sep] + tail, sep);
      assert st == [""] + parts[1..];
      assert st[0] == "" && st[1..] == parts[1..];
      assert parts[0] + "" == parts[0];
      assert parts == [parts[0]] + parts[1..];
    }
  }

  /**
   * The last part of a split is the suffix of `s` after its last separator
   * (all of `s` when there is none).
   */
  lemma {:induction false} SplitLast(s: string, sep: char)
    ensures var r := Split(s, sep); var l := r[|r| - 1];
      && |l| <= |s|
      && l == s[|s| - |l|..]
      && sep !in l
      && (|l| < |s| ==> s[|s| - |l| - 1] == sep)
      && (|r| > 1 ==> |l| < |s|)
  {
    if |s| > 0 {
      var rest := Split(s[1..], sep);
      SplitLast(s[1..], sep);
      var r := Split(s, sep);
      if s[0] == sep {
        assert r[|r| - 1] == rest[|rest| - 1];
      } else if |rest| == 1 {
        JoinSplit(s[1..], sep);
        assert r == [[s[0]] + s[1..]];
        assert [s[0]] + s[1..] == s;
      } else {
        assert r == [[s[0]] + rest[0]] + rest[1..];
        assert r[|r| - 1] == rest[|rest| - 1];
      }
    }
  }
}
