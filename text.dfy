/**
 * The string operations the core relies on, with Python's meaning:
 * `str.startswith`, `in` on strings, `str.replace`, `str.split`, `str.join`,
 * `str.lower` (ASCII letters), and the `{{key}}` placeholder substitution loop
 * that both mail builders run over their variables.
 */
module Text {

  predicate StartsWith(s: string, prefix: string) {
    |prefix| <= |s| && s[..|prefix|] == prefix
  }

  /** `t in s` for strings: `t` occurs somewhere in `s`. */
  predicate Contains(s: string, t: string)
    decreases |s|
  {
    StartsWith(s, t) || (|s| > 0 && Contains(s[1..], t))
  }

  /**
   * `s.replace(pattern, replacement)`: scan left to right, replacing each
   * non-overlapping occurrence of `pattern`.
   */
  function ReplaceAll(s: string, pattern: string, replacement: string): (r: string)
    requires |pattern| > 0
    ensures replacement == pattern ==> r == s
    ensures |replacement| == |pattern| ==> |r| == |s|
    decreases |s|
  {
    if |s| < |pattern| then s
    else if s[..|pattern|] == pattern then replacement + ReplaceAll(s[|pattern|..], pattern, replacement)
    else [s[0]] + ReplaceAll(s[1..], pattern, replacement)
  }

  /** `s.split(sep)`: the pieces between non-overlapping occurrences of `sep`, scanned left to right. */
  function Split(s: string, sep: string): (parts: seq<string>)
    requires |sep| > 0
    ensures |parts| >= 1
    ensures Join(parts, sep) == s
    decreases |s|
  {
    if |s| < |sep| then [s]
    else if s[..|sep|] == sep then
      var rest := Split(s[|sep|..], sep);
      assert ([""] + rest)[1..] == rest;
      assert s == sep + s[|sep|..];
      [""] + rest
    else
      var rest := Split(s[1..], sep);
      var parts := [[s[0]] + rest[0]] + rest[1..];
      assert s == [s[0]] + s[1..];
      assert |rest| > 1 ==> parts[1..] == rest[1..] && Join(rest, sep) == rest[0] + sep + Join(rest[1..], sep);
      parts
  }

  /** `d.join(parts)`. */
  function Join(parts: seq<string>, d: string): string
    requires |parts| >= 1
    decreases |parts|
  {
    if |parts| == 1 then parts[0] else parts[0] + d + Join(parts[1..], d)
  }

  /** The prefix of `s` before the first `c` (all of `s` when there is none). */
  function TakeUntil(s: string, c: char): (r: string)
    ensures r <= s && c !in r
    ensures |r| < |s| ==> s[|r|] == c
  {
    if s == [] || s[0] == c then [] else [s[0]] + TakeUntil(s[1..], c)
  }

  function LowerChar(c: char): char {
    if 'A' <= c <= 'Z' then (c as int + 32) as char else c
  }

  /** `s.lower()` restricted to ASCII letters. */
  function Lower(s: string): (r: string)
    ensures |r| == |s|
    ensures forall i :: 0 <= i < |s| ==> r[i] == LowerChar(s[i])
  {
    if s == [] then [] else [LowerChar(s[0])] + Lower(s[1..])
  }

  /** The text `{{key}}` that a template variable named `key` replaces. */
  function Placeholder(key: string): (p: string)
    ensures |p| == |key| + 4 && StartsWith(p, "{{")
  {
    "{{" + key + "}}"
  }

  /**
   * The substitution loop: for each (key, value) pair in order, every
   * `{{key}}` in the current text becomes `value`.
   */
  function SubstituteAll(text: string, variables: seq<(string, string)>): string
    decreases |variables|
  {
    if variables == [] then text
    else SubstituteAll(ReplaceAll(text, Placeholder(variables[0].0), variables[0].1), variables[1..])
  }

  /** The loop itself, as both mail builders run it. */
  method Substitute(text: string, variables: seq<(string, string)>) returns (r: string)
    ensures r == SubstituteAll(text, variables)
  {
    r := text;
    for i := 0 to |variables|
      invariant SubstituteAll(r, variables[i..]) == SubstituteAll(text, variables)
    {
      assert variables[i..][1..] == variables[i + 1..];
      var (key, value) := variables[i];
      r := ReplaceAll(r, Placeholder(key), value);
    }
  }

  // ---------------------------------------------------------------------------
  // Lemmas

  /** `replace` agrees with its reference definition `replacement.join(s.split(pattern))`. */
  lemma {:induction false} ReplaceIsJoinOfSplit(s: string, pattern: string, replacement: string)
    requires |pattern| > 0
    ensures ReplaceAll(s, pattern, replacement) == Join(Split(s, pattern), replacement)
    decreases |s|
  {
    if |s| < |pattern| {
    } else if s[..|pattern|] == pattern {
      ReplaceIsJoinOfSplit(s[|pattern|..], pattern, replacement);
      var parts := Split(s[|pattern|..], pattern);
      assert Split(s, pattern) == [""] + parts;
      assert ([""] + parts)[1..] == parts;
    } else {
      ReplaceIsJoinOfSplit(s[1..], pattern, replacement);
      var rest := Split(s[1..], pattern);
      var parts := [[s[0]] + rest[0]] + rest[1..];
      assert Split(s, pattern) == parts;
      if |rest| == 1 {
        assert Join(rest, replacement) == rest[0];
      } else {
        assert parts[1..] == rest[1..];
        assert Join(rest, replacement) == rest[0] + replacement + Join(rest[1..], replacement);
        assert Join(parts, replacement) == [s[0]] + rest[0] + replacement + Join(rest[1..], replacement);
      }
    }
  }

  /** A text without any occurrence of the pattern is left as it is. */
  lemma {:induction false} NoOccurrenceUnchanged(s: string, pattern: string, replacement: string)
    requires |pattern| > 0
    requires !Contains(s, pattern)
    ensures ReplaceAll(s, pattern, replacement) == s
    decreases |s|
  {
    if |s| >= |pattern| {
      NoOccurrenceUnchanged(s[1..], pattern, replacement);
      assert [s[0]] + s[1..] == s;
    }
  }

  /** A text that contains `t` is at least as long as `t`. */
  lemma {:induction false} ContainsNoLonger(s: string, t: string)
    requires Contains(s, t)
    ensures |t| <= |s|
    decreases |s|
  {
    if !StartsWith(s, t) {
      ContainsNoLonger(s[1..], t);
    }
  }

  /** Once the pattern occurs, the replacement occurs in the result of `replace`. */
  lemma {:induction false} ReplaceInserts(s: string, pattern: string, replacement: string)
    requires |pattern| > 0 && Contains(s, pattern)
    ensures Contains(ReplaceAll(s, pattern, replacement), replacement)
    decreases |s|
  {
    ContainsNoLonger(s, pattern);
    var rest := ReplaceAll(s[|pattern|..], pattern, replacement);
    if s[..|pattern|] == pattern {
      ContainsInfix("", replacement, rest);
      assert "" + replacement + rest == replacement + rest;
    } else {
      ReplaceInserts(s[1..], pattern, replacement);
      var r := ReplaceAll(s, pattern, replacement);
      assert r[1..] == ReplaceAll(s[1..], pattern, replacement);
    }
  }

  /** Whatever is glued around `t` still contains `t`. */
  lemma {:induction false} ContainsInfix(a: string, t: string, b: string)
    ensures Contains(a + t + b, t)
    decreases |a|
  {
    if a == [] {
      assert (a + t + b)[..|t|] == t;
    } else {
      ContainsInfix(a[1..], t, b);
      assert (a + t + b)[1..] == a[1..] + t + b;
    }
  }

  /** An occurrence of `t` is an occurrence of every prefix of `t`. */
  lemma {:induction false} ContainsPrefixOf(s: string, t: string, u: string)
    requires Contains(s, t) && StartsWith(t, u)
    ensures Contains(s, u)
    decreases |s|
  {
    if StartsWith(s, t) {
      assert s[..|u|] == s[..|t|][..|u|];
    } else {
      ContainsPrefixOf(s[1..], t, u);
    }
  }

  /** A text with no `{{` has no placeholder, so substitution leaves it unchanged. */
  lemma {:induction false} NoPlaceholderUnchanged(text: string, variables: seq<(string, string)>)
    requires !Contains(text, "{{")
    ensures SubstituteAll(text, variables) == text
    decreases |variables|
  {
    if variables != [] {
      var p := Placeholder(variables[0].0);
      if Contains(text, p) {
        ContainsPrefixOf(text, p, "{{");
      }
      NoOccurrenceUnchanged(text, p, variables[0].1);
      NoPlaceholderUnchanged(text, variables[1..]);
    }
  }

  /** Splitting on one character: the first piece ends at the first separator. */
  lemma {:induction false} SplitHeadIsTakeUntil(s: string, c: char)
    ensures Split(s, [c])[0] == TakeUntil(s, c)
    decreases |s|
  {
    if s != [] && s[0] != c {
      SplitHeadIsTakeUntil(s[1..], c);
    }
  }

  /** Splitting `w + c + rest` on `c`, where `w` has no `c`, yields `w` and then the pieces of `rest`. */
  lemma {:induction false} SplitAtFirst(w: string, c: char, rest: string)
    requires c !in w
    ensures Split(w + [c] + rest, [c]) == [w] + Split(rest, [c])
    decreases |w|
  {
    var s := w + [c] + rest;
    if w == [] {
      assert s[..1] == [c];
      assert s[1..] == rest;
    } else {
      assert s[0] == w[0] && w[0] in w;
      assert s[..1] != [c];
      assert s[1..] == w[1..] + [c] + rest;
      SplitAtFirst(w[1..], c, rest);
      assert [w[0]] + w[1..] == w;
    }
  }

  /** Cutting at the first `c` only looks past a prefix that has no `c`. */
  lemma {:induction false} TakeUntilAppend(a: string, b: string, c: char)
    requires c !in a
    ensures TakeUntil(a + b, c) == a + TakeUntil(b, c)
    decreases |a|
  {
    if a == [] {
      assert a + b == b;
    } else {
      assert (a + b)[0] == a[0] && a[0] in a;
      assert (a + b)[1..] == a[1..] + b;
      assert c !in a[1..];
      TakeUntilAppend(a[1..], b, c);
      assert TakeUntil(a + b, c) == [a[0]] + TakeUntil(a[1..] + b, c);
      assert a == [a[0]] + a[1..];
    }
  }

  /** A string without the separator character comes back whole from `TakeUntil`. */
  lemma {:induction false} TakeUntilAbsent(s: string, c: char)
    requires c !in s
    ensures TakeUntil(s, c) == s
    decreases |s|
  {
    if s != [] {
      TakeUntilAbsent(s[1..], c);
    }
  }
}
