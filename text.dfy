/**
 * The JavaScript string operations the application relies on: `trim`,
 * `toLowerCase`/`toUpperCase`, `startsWith`, `includes`, `replace` of the
 * first occurrence, `split`, `join`, and the global regular-expression
 * replacements used to strip Markdown code fences.
 *
 * Case mapping covers the ASCII letters only; `trim` removes the characters
 * that ECMAScript classifies as WhiteSpace or LineTerminator.
 */
module Text {
  import opened Wrappers

  /** JavaScript truthiness of an optional string: present and not empty. */
  predicate Truthy(o: Option<string>) {
    o.Some? && o.value != ""
  }

  /** JavaScript's `a || b` for an optional string and a string fallback. */
  function OrElse(a: Option<string>, b: string): string {
    if Truthy(a) then a.value else b
  }

  /** ECMAScript WhiteSpace and LineTerminator code points, as removed by `trim`. */
  predicate IsWhitespace(c: char) {
    c == ' ' || c == '\t' || c == '\n' || c == '\r' || c == '\U{B}' || c == '\U{C}'
    || c == '\U{A0}' || c == '\U{1680}' || ('\U{2000}' <= c <= '\U{200A}')
    || c == '\U{2028}' || c == '\U{2029}' || c == '\U{202F}' || c == '\U{205F}'
    || c == '\U{3000}' || c == '\U{FEFF}'
  }

  predicate AllWhitespace(s: string) {
    forall i :: 0 <= i < |s| ==> IsWhitespace(s[i])
  }

  /** Neither end of `s` is whitespace: what `trim` produces. */
  predicate IsTrimmed(s: string) {
    s == [] || (!IsWhitespace(s[0]) && !IsWhitespace(s[|s| - 1]))
  }

  /** `s` with its leading whitespace removed. */
  function TrimStart(s: string): string
  {
    if s != [] && IsWhitespace(s[0]) then TrimStart(s[1..]) else s
  }

  /** `TrimStart` cuts a whitespace-only prefix and leaves a non-whitespace first character. */
  lemma {:induction false} TrimStartShape(s: string)
    ensures |TrimStart(s)| <= |s| && TrimStart(s) == s[|s| - |TrimStart(s)|..]
    ensures AllWhitespace(s[..|s| - |TrimStart(s)|])
    ensures TrimStart(s) != [] ==> !IsWhitespace(TrimStart(s)[0])
    decreases |s|
  {
    if s != [] && IsWhitespace(s[0]) {
      var t := s[1..];
      TrimStartShape(t);
      var k := |t| - |TrimStart(t)|;
      assert TrimStart(s) == TrimStart(t) == t[k..] == s[k + 1..];
      assert s[..k + 1] == [s[0]] + t[..k];
    }
  }

  /** `s` with its trailing whitespace removed. */
  function TrimEnd(s: string): string
  {
    if s != [] && IsWhitespace(s[|s| - 1]) then TrimEnd(s[..|s| - 1]) else s
  }

  /** `TrimEnd` cuts a whitespace-only suffix and leaves a non-whitespace last character. */
  lemma {:induction false} TrimEndShape(s: string)
    ensures |TrimEnd(s)| <= |s| && TrimEnd(s) == s[..|TrimEnd(s)|]
    ensures AllWhitespace(s[|TrimEnd(s)|..])
    ensures TrimEnd(s) != [] ==> !IsWhitespace(TrimEnd(s)[|TrimEnd(s)| - 1])
    decreases |s|
  {
    if s != [] && IsWhitespace(s[|s| - 1]) {
      var t := s[..|s| - 1];
      TrimEndShape(t);
      var k := |TrimEnd(t)|;
      assert TrimEnd(s) == TrimEnd(t) == t[..k] == s[..k];
      assert s[k..] == t[k..] + [s[|s| - 1]];
    }
  }

  /** JavaScript's `s.trim()`: the longest slice of `s` with no whitespace at either end. */
  function Trim(s: string): (r: string)
    ensures IsTrimmed(r)
    ensures |r| <= |s|
  {
    var t := TrimStart(s);
    var r := TrimEnd(t);
    TrimStartShape(s);
    TrimEndShape(t);
    assert r != [] ==> r[0] == t[0];
    r
  }

  /** Trim gives a slice of its input, and cuts away only whitespace. */
  lemma TrimIsSlice(s: string) returns (k: nat)
    ensures k + |Trim(s)| <= |s|
    ensures Trim(s) == s[k..k + |Trim(s)|]
    ensures AllWhitespace(s[..k]) && AllWhitespace(s[k + |Trim(s)|..])
  {
    var t := TrimStart(s);
    TrimStartShape(s);
    k := |s| - |t|;
    var r := TrimEnd(t);
    TrimEndShape(t);
    assert t[|r|..] == s[k + |r|..];
  }

  lemma TrimOfTrimmed(s: string)
    requires IsTrimmed(s)
    ensures Trim(s) == s
  {
  }

  /** `trim` is idempotent. */
  lemma TrimIdempotent(s: string)
    ensures Trim(Trim(s)) == Trim(s)
  {
    TrimOfTrimmed(Trim(s));
  }

  /** Whitespace in front of a string does not survive `trim`. */
  lemma {:induction false} TrimAfterLeadingWhitespace(w: string, s: string)
    requires AllWhitespace(w)
    ensures Trim(w + s) == Trim(s)
  {
    TrimStartAfterWhitespace(w, s);
  }

  lemma {:induction false} TrimStartAfterWhitespace(w: string, s: string)
    requires AllWhitespace(w)
    ensures TrimStart(w + s) == TrimStart(s)
    decreases |w|
  {
    if w != [] {
      assert IsWhitespace((w + s)[0]);
      assert (w + s)[1..] == w[1..] + s;
      TrimStartAfterWhitespace(w[1..], s);
    } else {
      assert w + s == s;
    }
  }

  /** A whitespace character appended to a string does not survive `trim`. */
  lemma {:induction false} TrimBeforeTrailingWhitespace(s: string, c: char)
    requires IsWhitespace(c)
    ensures Trim(s + [c]) == Trim(s)
    decreases |s|
  {
    if s == [] {
    } else if IsWhitespace(s[0]) {
      assert (s + [c])[1..] == s[1..] + [c];
      TrimBeforeTrailingWhitespace(s[1..], c);
    } else {
      assert (s + [c])[..|s|] == s;
    }
  }

  // ----- ASCII case mapping -----

  function LowerChar(c: char): char {
    if 'A' <= c <= 'Z' then (c as int + 32) as char else c
  }

  function UpperChar(c: char): char {
    if 'a' <= c <= 'z' then (c as int - 32) as char else c
  }

  predicate HasNoUpper(s: string) {
    forall i :: 0 <= i < |s| ==> !('A' <= s[i] <= 'Z')
  }

  predicate HasNoLower(s: string) {
    forall i :: 0 <= i < |s| ==> !('a' <= s[i] <= 'z')
  }

  /** JavaScript's `toLowerCase` on ASCII letters. */
  function ToLower(s: string): (r: string)
    ensures |r| == |s| && HasNoUpper(r)
    ensures forall i :: 0 <= i < |s| ==> LowerChar(r[i]) == LowerChar(s[i])
  {
    seq(|s|, i requires 0 <= i < |s| => LowerChar(s[i]))
  }

  /** JavaScript's `toUpperCase` on ASCII letters. */
  function ToUpper(s: string): (r: string)
    ensures |r| == |s| && HasNoLower(r)
    ensures forall i :: 0 <= i < |s| ==> UpperChar(r[i]) == UpperChar(s[i])
  {
    seq(|s|, i requires 0 <= i < |s| => UpperChar(s[i]))
  }

  lemma ToUpperIdempotent(s: string)
    ensures ToUpper(ToUpper(s)) == ToUpper(s)
  {
  }

  lemma {:induction false} TrimStartLower(s: string)
    ensures TrimStart(ToLower(s)) == ToLower(TrimStart(s))
    decreases |s|
  {
    var l := ToLower(s);
    if s != [] && IsWhitespace(s[0]) {
      assert l[0] == LowerChar(s[0]);
      assert l[1..] == ToLower(s[1..]);
      TrimStartLower(s[1..]);
    } else if s != [] {
      assert l[0] == LowerChar(s[0]);
    }
  }

  lemma {:induction false} TrimEndLower(s: string)
    ensures TrimEnd(ToLower(s)) == ToLower(TrimEnd(s))
    decreases |s|
  {
    var l := ToLower(s);
    if s != [] && IsWhitespace(s[|s| - 1]) {
      assert l[|s| - 1] == LowerChar(s[|s| - 1]);
      assert l[..|s| - 1] == ToLower(s[..|s| - 1]);
      TrimEndLower(s[..|s| - 1]);
    } else if s != [] {
      assert l[|s| - 1] == LowerChar(s[|s| - 1]);
    }
  }

  /** `s.toLowerCase().trim()` and `s.trim().toLowerCase()` agree. */
  lemma TrimLowerCommute(s: string)
    ensures Trim(ToLower(s)) == ToLower(Trim(s))
  {
    TrimStartLower(s);
    TrimEndLower(TrimStart(s));
  }

  /** `s.trim().toLowerCase()`: the normal form under which search queries are compared. */
  function NormalizeQuery(s: string): (k: string)
    ensures IsTrimmed(k) && HasNoUpper(k)
  {
    TrimLowerCommute(s);
    ToLower(Trim(s))
  }

  // ----- searching and replacing -----

  /** JavaScript's `s.includes(t)`. */
  predicate Contains(s: string, t: string) {
    exists i :: 0 <= i <= |s| && t <= s[i..]
  }

  /** A pattern with a character that `s` lacks does not occur in `s`. */
  lemma MissingCharacter(s: string, t: string, c: char)
    requires c in t && c !in s
    ensures !Contains(s, t)
  {
    var j :| 0 <= j < |t| && t[j] == c;
    forall i | 0 <= i <= |s|
      ensures !(t <= s[i..])
    {
      if i + j < |s| {
        assert s[i..][j] == s[i + j];
      }
    }
  }

  /** The position of the first occurrence of `pat` in `s`, or -1 (`s.indexOf(pat)`). */
  function IndexOf(s: string, pat: string): (r: int)
    ensures -1 <= r <= |s|
    ensures r >= 0 ==> r + |pat| <= |s| && pat <= s[r..]
    ensures forall i :: 0 <= i < (if r < 0 then |s| + 1 else r) ==> !(pat <= s[i..])
    decreases |s|
  {
    if pat <= s then 0
    else if s == [] then -1
    else
      var k := IndexOf(s[1..], pat);
      assert forall i :: 1 <= i <= |s| ==> s[1..][i - 1..] == s[i..];
      if k < 0 then -1 else k + 1
  }

  /** JavaScript's `s.replace(pat, '')` with a string pattern: drops the first occurrence only. */
  function RemoveFirst(s: string, pat: string): (r: string)
  {
    var k := IndexOf(s, pat);
    if k < 0 then s else s[..k] + s[k + |pat|..]
  }

  /** JavaScript's `s.replace(/x/g, y)` for single characters. */
  function ReplaceChar(s: string, x: char, y: char): (r: string)
    ensures |r| == |s| && (x != y ==> x !in r)
    ensures forall i :: 0 <= i < |s| && s[i] != x ==> r[i] == s[i]
  {
    seq(|s|, i requires 0 <= i < |s| => if s[i] == x then y else s[i])
  }

  /**
   * JavaScript's `s.replace(/PAT\n?/g, '')`: scanning left to right, every
   * occurrence of `pat` is removed together with one newline that directly
   * follows it; the scan resumes after the removed text.
   */
  function StripAll(s: string, pat: string): (r: string)
    requires pat != []
    ensures |r| <= |s|
    decreases |s|
  {
    if s == [] then []
    else if pat <= s then
      var rest := s[|pat|..];
      if rest != [] && rest[0] == '\n' then StripAll(rest[1..], pat) else StripAll(rest, pat)
    else [s[0]] + StripAll(s[1..], pat)
  }

  /** Text whose characters cannot start `pat` passes through `StripAll` unchanged. */
  lemma {:induction false} StripAllPassThrough(a: string, t: string, pat: string)
    requires pat != [] && pat[0] !in a
    ensures StripAll(a + t, pat) == a + StripAll(t, pat)
    decreases |a|
  {
    if a != [] {
      assert a[0] in a;
      assert (a + t)[0] == a[0];
      assert (a + t)[1..] == a[1..] + t;
      StripAllPassThrough(a[1..], t, pat);
    } else {
      assert a + t == t;
    }
  }

  /** Occurrences of "```" never survive `StripAll(_, "```")`, not even across removed fences. */
  lemma {:induction false} StripAllLeavesNoFence(s: string)
    ensures !Contains(StripAll(s, "```"), "```")
    decreases |s|
  {
    if s == [] {
    } else if "```" <= s {
      var rest := s[3..];
      if rest != [] && rest[0] == '\n' {
        StripAllLeavesNoFence(rest[1..]);
      } else {
        StripAllLeavesNoFence(rest);
      }
    } else {
      var r := StripAll(s, "```");
      var x := StripAll(s[1..], "```");
      StripAllLeavesNoFence(s[1..]);
      assert r == [s[0]] + x;
      forall i | 0 <= i <= |r|
        ensures !("```" <= r[i..])
      {
        if i > 0 {
          assert r[i..] == x[i - 1..];
        } else {
          NoFenceAtStart(s);
        }
      }
    }
  }

  /** When `s` does not start with a fence, neither does what `StripAll` makes of it. */
  lemma NoFenceAtStart(s: string)
    requires s != [] && !("```" <= s)
    ensures !("```" <= StripAll(s, "```"))
  {
    var r := StripAll(s, "```");
    assert r == [s[0]] + StripAll(s[1..], "```");
    if s[0] != '`' || |s| == 1 {
    } else if s[1] != '`' {
      StripAllFirst(s[1..]);
    } else if |s| == 2 {
      assert r == "``";
    } else {
      assert s[2] != '`';
      assert !("```" <= s[1..]);
      assert StripAll(s[1..], "```") == [s[1]] + StripAll(s[2..], "```");
      StripAllFirst(s[2..]);
      assert r[2] == s[2];
    }
  }

  /** Unless `s` itself starts with a fence, `StripAll` keeps the first character. */
  lemma StripAllFirst(s: string)
    ensures s != [] && !("```" <= s) ==> StripAll(s, "```") != [] && StripAll(s, "```")[0] == s[0]
  {
  }

  // ----- split and join -----

  /** JavaScript's `s.split(sep)` for a one-character separator. */
  function Split(s: string, sep: char): (parts: seq<string>)
    ensures |parts| >= 1
    ensures forall p :: p in parts ==> sep !in p
    decreases |s|
  {
    if s == [] then [""]
    else
      var rest := Split(s[1..], sep);
      if s[0] == sep then [""] + rest else [[s[0]] + rest[0]] + rest[1..]
  }

  /** JavaScript's `parts.join(sep)`. */
  function Join(parts: seq<string>, sep: string): string
    decreases |parts|
  {
    if parts == [] then ""
    else if |parts| == 1 then parts[0]
    else parts[0] + sep + Join(parts[1..], sep)
  }

  lemma {:induction false} SplitWithoutSeparator(s: string, sep: char)
    requires sep !in s
    ensures Split(s, sep) == [s]
    decreases |s|
  {
    if s != [] {
      SplitWithoutSeparator(s[1..], sep);
      assert [s[0]] + s[1..] == s;
    }
  }

  /** A separator-free prefix becomes part of the first piece. */
  lemma {:induction false} SplitUnderPrefix(a: string, t: string, sep: char)
    requires sep !in a
    ensures Split(a + t, sep) == [a + Split(t, sep)[0]] + Split(t, sep)[1..]
    decreases |a|
  {
    if a != [] {
      assert a[0] in a;
      assert (a + t)[0] == a[0];
      assert (a + t)[1..] == a[1..] + t;
      SplitUnderPrefix(a[1..], t, sep);
      assert [a[0]] + (a[1..] + Split(t, sep)[0]) == a + Split(t, sep)[0];
    } else {
      assert a + t == t;
      assert a + Split(t, sep)[0] == Split(t, sep)[0];
      assert Split(t, sep) == [Split(t, sep)[0]] + Split(t, sep)[1..];
    }
  }
}
