/** The few JavaScript string primitives the client's rules are built from:
    `split` and `join` on a one-character separator, `trim`, `toLowerCase`
    (ASCII letters only) and `includes`; and the scans that say what the
    save-folder regular expression matches. */
module JsText {

  /** A JavaScript value that may be `null`. */
  datatype Option<T> = None | Some(value: T)

  /** JavaScript truthiness of a nullable string: `null` and "" are falsy. */
  predicate Truthy(s: Option<string>) {
    s.Some? && s.value != ""
  }

  /** ECMAScript `LineTerminator` code points: the characters a regular
      expression's `.` does not match. */
  const LineTerminators: set<char> := {'\n', '\r', '\U{2028}', '\U{2029}'}

  /** ECMAScript `WhiteSpace` and `LineTerminator` code points: exactly the
      characters `String.prototype.trim` removes. */
  const TrimmedChars: set<char> :=
    {'\t', '\U{000B}', '\U{000C}', ' ', '\U{00A0}', '\U{FEFF}', '\U{1680}',
     '\U{2000}', '\U{2001}', '\U{2002}', '\U{2003}', '\U{2004}', '\U{2005}',
     '\U{2006}', '\U{2007}', '\U{2008}', '\U{2009}', '\U{200A}',
     '\U{202F}', '\U{205F}', '\U{3000}'} + LineTerminators

  /** Membership in `TrimmedChars`, decided by code point ranges: U+0009
      through U+000D are tab, line feed, vertical tab, form feed and carriage
      return; U+2000 through U+200A are the typographic spaces. */
  predicate IsJsWhitespace(ch: char) {
    if ch <= ' ' then ch == ' ' || '\t' <= ch <= '\r'
    else if ch < '\U{2000}' then ch == '\U{00A0}' || ch == '\U{1680}'
    else if ch <= '\U{200A}' then true
    else ch in {'\U{2028}', '\U{2029}', '\U{202F}', '\U{205F}', '\U{3000}', '\U{FEFF}'}
  }

  /** The range test and the listed set agree on every character. */
  lemma WhitespaceIsTrimmedChars(ch: char)
    ensures IsJsWhitespace(ch) <==> ch in TrimmedChars
  {
  }

  predicate IsLineTerminator(ch: char) {
    ch in LineTerminators
  }

  predicate AllWhitespace(s: string) {
    forall k :: 0 <= k < |s| ==> IsJsWhitespace(s[k])
  }

  // ---------------------------------------------------------------------------
  // split / join on one separator character

  /** `s.split(sep)` for a one-character separator: the maximal runs between
      separators, so "" splits into [""] and "a," into ["a", ""]. */
  function Split(s: string, sep: char): (parts: seq<string>)
    ensures |parts| >= 1
    ensures forall k :: 0 <= k < |parts| ==> sep !in parts[k]
  {
    if s == [] then [""]
    else
      var rest := Split(s[1..], sep);
      if s[0] == sep then [""] + rest
      else [[s[0]] + rest[0]] + rest[1..]
  }

  /** `parts.join(sep)`. */
  function Join(parts: seq<string>, sep: char): string {
    if |parts| == 0 then ""
    else if |parts| == 1 then parts[0]
    else parts[0] + [sep] + Join(parts[1..], sep)
  }

  lemma {:induction false} JoinAfterFirst(x: char, parts: seq<string>, sep: char)
    requires |parts| >= 1
    ensures Join([[x] + parts[0]] + parts[1..], sep) == [x] + Join(parts, sep)
  {
    var p := [[x] + parts[0]] + parts[1..];
    assert p[1..] == parts[1..];
  }

  /** Joining the pieces of a split gives back the string. */
  lemma {:induction false} JoinSplit(s: string, sep: char)
    ensures Join(Split(s, sep), sep) == s
  {
    if s != [] {
      var rest := Split(s[1..], sep);
      JoinSplit(s[1..], sep);
      if s[0] == sep {
        assert ([""] + rest)[1..] == rest;
        assert [s[0]] + s[1..] == s;
      } else {
        JoinAfterFirst(s[0], rest, sep);
        assert [s[0]] + s[1..] == s;
      }
    }
  }

  lemma {:induction false} SplitAfterSeparatorFree(w: string, u: string, sep: char)
    requires sep !in w
    ensures Split(w + u, sep) == [w + Split(u, sep)[0]] + Split(u, sep)[1..]
  {
    if w != [] {
      var tail := Split(u, sep);
      SplitAfterSeparatorFree(w[1..], u, sep);
      assert (w + u)[1..] == w[1..] + u;
      var rest := Split(w[1..] + u, sep);
      assert rest == [w[1..] + tail[0]] + tail[1..];
      assert rest[1..] == tail[1..];
      assert [w[0]] + (w[1..] + tail[0]) == w + tail[0];
    } else {
      assert w + u == u;
      assert w + Split(u, sep)[0] == Split(u, sep)[0];
      assert [Split(u, sep)[0]] + Split(u, sep)[1..] == Split(u, sep);
    }
  }

  /** Splitting a join gives back the pieces, when none of them holds the
      separator. */
  lemma {:induction false} SplitJoin(parts: seq<string>, sep: char)
    requires |parts| >= 1
    requires forall k :: 0 <= k < |parts| ==> sep !in parts[k]
    ensures Split(Join(parts, sep), sep) == parts
  {
    if |parts| == 1 {
      SplitAfterSeparatorFree(parts[0], "", sep);
      assert parts[0] + "" == parts[0];
    } else {
      var rest := Join(parts[1..], sep);
      SplitJoin(parts[1..], sep);
      SplitAfterSeparatorFree(parts[0], [sep] + rest, sep);
      assert ([sep] + rest)[1..] == rest;
      assert Split([sep] + rest, sep) == [""] + Split(rest, sep);
      assert Join(parts, sep) == parts[0] + ([sep] + rest);
      assert parts[0] + "" == parts[0];
      assert [parts[0]] + parts[1..] == parts;
    }
  }

  /** The last piece of a split is the suffix of `s` after its last
      separator, or all of `s` when it holds none. */
  lemma {:induction false} SplitLastIsSuffix(s: string, sep: char)
    ensures var parts := Split(s, sep); var last := parts[|parts| - 1];
      && |last| <= |s| && last == s[|s| - |last|..]
      && (|parts| == 1 ==> last == s)
      && (|parts| > 1 ==> |last| < |s| && s[|s| - |last| - 1] == sep)
  {
    if s != [] {
      SplitLastIsSuffix(s[1..], sep);
      var rest := Split(s[1..], sep);
      if s[0] == sep {
        assert Split(s, sep)[|Split(s, sep)| - 1] == rest[|rest| - 1];
      } else if |rest| == 1 {
        assert Split(s, sep) == [[s[0]] + rest[0]];
        assert [s[0]] + s[1..] == s;
      } else {
        assert Split(s, sep)[|Split(s, sep)| - 1] == rest[|rest| - 1];
      }
    }
  }

  /** The last index holding `ch`, or -1 when there is none. The client
      never calls `lastIndexOf`; this states where the greedy `(.*)\/` of the
      save-folder pattern puts its `/`. */
  function LastIndexOf(s: string, ch: char): (i: int)
    ensures -1 <= i < |s|
    ensures i >= 0 ==> s[i] == ch
    ensures forall k :: i < k < |s| ==> s[k] != ch
  {
    if s == [] then -1
    else if s[|s| - 1] == ch then |s| - 1
    else LastIndexOf(s[..|s| - 1], ch)
  }

  /** The last index of a line terminator, or -1. */
  function LastLineBreak(s: string): (i: int)
    ensures -1 <= i < |s|
    ensures i >= 0 ==> IsLineTerminator(s[i])
    ensures forall k :: i < k < |s| ==> !IsLineTerminator(s[k])
  {
    if s == [] then -1
    else if IsLineTerminator(s[|s| - 1]) then |s| - 1
    else LastLineBreak(s[..|s| - 1])
  }

  // ---------------------------------------------------------------------------
  // trim

  /** The index of the first character at or after `i` that is not
      whitespace, or `|s|` when there is none. */
  function SkipWhitespace(s: string, i: int): (n: int)
    requires 0 <= i <= |s|
    ensures i <= n <= |s|
    ensures n == |s| || !IsJsWhitespace(s[n])
    ensures forall k :: i <= k < n ==> IsJsWhitespace(s[k])
    decreases |s| - i
  {
    if i < |s| && IsJsWhitespace(s[i]) then SkipWhitespace(s, i + 1) else i
  }

  /** The index just past the last character before `j` that is not
      whitespace, or `lo` when there is none from `lo` on. */
  function SkipWhitespaceBack(s: string, lo: int, j: int): (n: int)
    requires 0 <= lo <= j <= |s|
    ensures lo <= n <= j
    ensures n == lo || !IsJsWhitespace(s[n - 1])
    ensures forall k :: n <= k < j ==> IsJsWhitespace(s[k])
    decreases j - lo
  {
    if lo < j && IsJsWhitespace(s[j - 1]) then SkipWhitespaceBack(s, lo, j - 1) else j
  }

  /** `s.trim()`: the stretch between the leading and the trailing
      whitespace. The result has text at both ends, and is empty exactly when
      `s` is all whitespace. */
  function Trim(s: string): (r: string)
    ensures r == [] || (!IsJsWhitespace(r[0]) && !IsJsWhitespace(r[|r| - 1]))
    ensures r == [] <==> AllWhitespace(s)
  {
    var a := SkipWhitespace(s, 0);
    var b := SkipWhitespaceBack(s, a, |s|);
    assert a < |s| ==> !AllWhitespace(s);
    s[a..b]
  }

  /** `trim` keeps one contiguous stretch of the input, starting at its first
      character that is not whitespace: everything before the stretch and
      everything after it is whitespace. */
  lemma TrimIsSlice(s: string)
    ensures var a := SkipWhitespace(s, 0);
      && a + |Trim(s)| <= |s| && Trim(s) == s[a..a + |Trim(s)|]
      && (forall k :: 0 <= k < a ==> IsJsWhitespace(s[k]))
      && (forall k :: a + |Trim(s)| <= k < |s| ==> IsJsWhitespace(s[k]))
  {
    var a := SkipWhitespace(s, 0);
    var b := SkipWhitespaceBack(s, a, |s|);
    assert Trim(s) == s[a..b];
  }

  /** The stretch `trim` keeps is the only one with whitespace on both sides
      and text at both of its ends. */
  lemma TrimUnique(s: string, a: int, b: int)
    requires 0 <= a <= b <= |s|
    requires forall k :: 0 <= k < a ==> IsJsWhitespace(s[k])
    requires forall k :: b <= k < |s| ==> IsJsWhitespace(s[k])
    requires a == b || (!IsJsWhitespace(s[a]) && !IsJsWhitespace(s[b - 1]))
    ensures Trim(s) == s[a..b]
  {
    if a == b {
      assert AllWhitespace(s);
    } else {
      var a' := SkipWhitespace(s, 0);
      assert a' == a;
      var b' := SkipWhitespaceBack(s, a, |s|);
      assert b' == b;
    }
  }

  /** Trimming keeps only characters of the input. */
  lemma TrimKeepsCharacters(s: string)
    ensures forall k :: 0 <= k < |Trim(s)| ==> Trim(s)[k] in s
  {
    var a := SkipWhitespace(s, 0);
    var b := SkipWhitespaceBack(s, a, |s|);
    var r := Trim(s);
    assert r == s[a..b];
    forall k | 0 <= k < |r| ensures r[k] in s {
      assert r[k] == s[a + k];
    }
  }

  /** A string that neither starts nor ends with whitespace is its own trim. */
  lemma TrimOfTrimmed(s: string)
    requires s == [] || (!IsJsWhitespace(s[0]) && !IsJsWhitespace(s[|s| - 1]))
    ensures Trim(s) == s
  {
    if s != [] {
      TrimUnique(s, 0, |s|);
    }
  }

  /** Trimming twice is trimming once. */
  lemma TrimIdempotent(s: string)
    ensures Trim(Trim(s)) == Trim(s)
  {
    TrimOfTrimmed(Trim(s));
  }

  // ---------------------------------------------------------------------------
  // toLowerCase and includes

  function LowerChar(ch: char): (r: char)
    ensures 'A' <= ch <= 'Z' ==> 'a' <= r <= 'z' && r as int - 'a' as int == ch as int - 'A' as int
    ensures !('A' <= ch <= 'Z') ==> r == ch
  {
    if 'A' <= ch <= 'Z' then (ch as int + 32) as char else ch
  }

  /** `s.toLowerCase()` on ASCII letters. */
  function Lower(s: string): (r: string)
    ensures |r| == |s|
    ensures forall k :: 0 <= k < |s| ==> r[k] == LowerChar(s[k])
  {
    seq(|s|, k requires 0 <= k < |s| => LowerChar(s[k]))
  }

  lemma LowerIdempotent(s: string)
    ensures Lower(Lower(s)) == Lower(s)
  {
    assert forall k :: 0 <= k < |s| ==> LowerChar(LowerChar(s[k])) == LowerChar(s[k]);
  }

  /** `t` occurs in `s` starting at index `i`. */
  predicate OccursAt(s: string, t: string, i: int) {
    0 <= i && i + |t| <= |s| && s[i..i + |t|] == t
  }

  /** `s.includes(t)`. */
  function Includes(s: string, t: string): bool
    decreases |s|
  {
    t <= s || (s != [] && Includes(s[1..], t))
  }

  /** `includes` finds an occurrence at any position. */
  lemma {:induction false} IncludesAt(s: string, t: string, i: int)
    requires OccursAt(s, t, i)
    ensures Includes(s, t)
    decreases i
  {
    if i == 0 {
      assert s[..|t|] == t;
    } else {
      assert s[1..][i - 1..i - 1 + |t|] == s[i..i + |t|];
      IncludesAt(s[1..], t, i - 1);
    }
  }

  /** When `includes` holds, `t` occurs at some position. */
  lemma {:induction false} IncludesWitness(s: string, t: string)
    requires Includes(s, t)
    ensures exists i :: OccursAt(s, t, i)
    decreases |s|
  {
    if t <= s {
      assert OccursAt(s, t, 0);
    } else {
      IncludesWitness(s[1..], t);
      var i :| OccursAt(s[1..], t, i);
      assert s[1..][i..i + |t|] == s[i + 1..i + 1 + |t|];
      assert OccursAt(s, t, i + 1);
    }
  }

  /** `includes` holds exactly when `t` occurs somewhere in `s`. */
  lemma IncludesIff(s: string, t: string)
    ensures Includes(s, t) <==> exists i :: OccursAt(s, t, i)
  {
    if Includes(s, t) {
      IncludesWitness(s, t);
    }
    forall i | OccursAt(s, t, i) ensures Includes(s, t) {
      IncludesAt(s, t, i);
    }
  }
}
