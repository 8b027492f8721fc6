/**
  The string primitives the application leans on: Python's `str.lower()`,
  `str.replace(a, b)` for single characters, the `in` substring test,
  `str.strip()`, `str.split()` without arguments and `" ".join(...)`.
  Strings are sequences of Unicode scalar values, as Python's `str` is.
 */
module Text {

  /** ASCII upper case letters map to lower case; every other character is kept. */
  function LowerChar(c: char): char
  {
    if 'A' <= c <= 'Z' then (c as int + 32) as char else c
  }

  /** `s.lower()`, restricted to ASCII case mapping. */
  function Lower(s: string): string
  {
    seq(|s|, i requires 0 <= i < |s| => LowerChar(s[i]))
  }

  /** Lower-casing commutes with taking a slice. */
  lemma LowerSlice(s: string, i: nat, j: nat)
    requires i <= j <= |s|
    ensures Lower(s)[i..j] == Lower(s[i..j])
  {
  }

  /** `s.replace(a, b)` for one-character `a` and `b`. */
  function ReplaceChar(s: string, a: char, b: char): string
  {
    seq(|s|, i requires 0 <= i < |s| => if s[i] == a then b else s[i])
  }

  /** `sub` occurs in `s` starting at index `i`. */
  predicate OccursAt(s: string, sub: string, i: nat)
  {
    i + |sub| <= |s| && s[i..i + |sub|] == sub
  }

  /** Python's `sub in s`. */
  predicate Contains(s: string, sub: string)
  {
    exists i: nat :: i <= |s| && OccursAt(s, sub, i)
  }

  /** The characters for which Python's `str.isspace()` holds; `str.split()` and
      `str.strip()` without arguments treat exactly these as whitespace. */
  predicate IsSpace(c: char)
  {
    || c == ' ' || c == '\t' || c == '\n' || c == '\r'
    || c == '\U{B}' || c == '\U{C}'
    || ('\U{1C}' <= c <= '\U{1F}')
    || c == '\U{85}' || c == '\U{A0}' || c == '\U{1680}'
    || ('\U{2000}' <= c <= '\U{200A}')
    || c == '\U{2028}' || c == '\U{2029}' || c == '\U{202F}' || c == '\U{205F}' || c == '\U{3000}'
  }

  /** A word as `str.split()` produces it: non-empty, no whitespace inside. */
  predicate IsWord(w: string)
  {
    |w| > 0 && forall i :: 0 <= i < |w| ==> !IsSpace(w[i])
  }

  /** The number of whitespace characters `s` starts with. */
  function LeadingSpaces(s: string): (n: nat)
    ensures n <= |s|
    ensures n < |s| ==> !IsSpace(s[n])
  {
    if s != [] && IsSpace(s[0]) then 1 + LeadingSpaces(s[1..]) else 0
  }

  /** The number of whitespace characters `s` ends with. */
  function TrailingSpaces(s: string): (n: nat)
    ensures n <= |s|
    ensures n < |s| ==> !IsSpace(s[|s| - 1 - n])
  {
    if s != [] && IsSpace(s[|s| - 1]) then 1 + TrailingSpaces(s[..|s| - 1]) else 0
  }

  /** `s.lstrip()`: the suffix left after dropping leading whitespace. */
  function TrimLeft(s: string): (r: string)
    ensures r == [] || !IsSpace(r[0])
  {
    s[LeadingSpaces(s)..]
  }

  /** `s.rstrip()`: the prefix left after dropping trailing whitespace. */
  function TrimRight(s: string): (r: string)
    ensures r == [] || !IsSpace(r[|r| - 1])
  {
    s[..|s| - TrailingSpaces(s)]
  }

  /** Everything `lstrip` drops is whitespace. */
  lemma {:induction false} TrimLeftDropsSpace(s: string)
    ensures forall i :: 0 <= i < LeadingSpaces(s) ==> IsSpace(s[i])
  {
    if s != [] && IsSpace(s[0]) {
      TrimLeftDropsSpace(s[1..]);
      forall i | 1 <= i < LeadingSpaces(s) ensures IsSpace(s[i]) {
        assert s[i] == s[1..][i - 1];
      }
    }
  }

  /** Everything `rstrip` drops is whitespace. */
  lemma {:induction false} TrimRightDropsSpace(s: string)
    ensures forall i :: |s| - TrailingSpaces(s) <= i < |s| ==> IsSpace(s[i])
  {
    if s != [] && IsSpace(s[|s| - 1]) {
      TrimRightDropsSpace(s[..|s| - 1]);
      forall i | |s| - TrailingSpaces(s) <= i < |s| - 1 ensures IsSpace(s[i]) {
        assert s[i] == s[..|s| - 1][i];
      }
    }
  }

  /** `s.strip()`. */
  function Strip(s: string): string
  {
    TrimRight(TrimLeft(s))
  }

  /** Length of the longest whitespace-free prefix of `t`. */
  function WordEnd(t: string): (n: nat)
    ensures n <= |t|
    ensures forall i :: 0 <= i < n ==> !IsSpace(t[i])
    ensures n < |t| ==> IsSpace(t[n])
  {
    if t == [] || IsSpace(t[0]) then 0 else 1 + WordEnd(t[1..])
  }

  /** `s.split()`: the maximal whitespace-free runs of `s`, in order. */
  function Words(s: string): (ws: seq<string>)
    ensures forall k :: 0 <= k < |ws| ==> IsWord(ws[k])
    decreases |s|
  {
    var t := TrimLeft(s);
    if t == [] then []
    else
      var n := WordEnd(t);
      assert !IsSpace(t[0]);
      assert n > 0;
      var w := t[..n];
      assert IsWord(w) by {
        forall i | 0 <= i < |w| ensures !IsSpace(w[i]) {
          assert w[i] == t[i];
        }
      }
      var rest := Words(t[n..]);
      assert forall k :: 0 <= k < |rest| ==> ([w] + rest)[k + 1] == rest[k];
      [w] + rest
  }

  /** `" ".join(ws)`. */
  function Join(ws: seq<string>): string
  {
    if |ws| == 0 then ""
    else if |ws| == 1 then ws[0]
    else ws[0] + " " + Join(ws[1..])
  }

  /** `" ".join(s.strip().split())`: trim, and collapse every whitespace run to one space. */
  function Normalize(s: string): string
  {
    Join(Words(Strip(s)))
  }

  lemma TrimLeftNoop(s: string)
    requires s == [] || !IsSpace(s[0])
    ensures TrimLeft(s) == s
  {
    assert LeadingSpaces(s) == 0;
  }

  lemma TrimRightNoop(s: string)
    requires s == [] || !IsSpace(s[|s| - 1])
    ensures TrimRight(s) == s
  {
    assert TrailingSpaces(s) == 0;
  }

  lemma {:induction false} TrimLeftIdempotent(s: string)
    ensures TrimLeft(TrimLeft(s)) == TrimLeft(s)
  {
    TrimLeftNoop(TrimLeft(s));
  }

  /** Stripping a stripped string changes nothing. */
  lemma StripIdempotent(s: string)
    ensures Strip(Strip(s)) == Strip(s)
  {
    var t := TrimLeft(s);
    var r := TrimRight(t);
    if r != [] {
      assert r[0] == t[0];
    }
    TrimLeftNoop(r);
    TrimRightNoop(r);
  }

  /** Leading whitespace does not change the words of a string. */
  lemma {:induction false} WordsIgnoreLeadingSpace(s: string)
    ensures Words(s) == Words(TrimLeft(s))
  {
    TrimLeftIdempotent(s);
  }

  /** A joined non-empty list of words starts with the first word's first
      character and ends with the last word's last character. */
  lemma {:induction false} JoinEnds(ws: seq<string>)
    requires |ws| > 0
    requires forall k :: 0 <= k < |ws| ==> IsWord(ws[k])
    ensures IsWord(ws[0]) && IsWord(ws[|ws| - 1])
    ensures |Join(ws)| > 0
    ensures Join(ws)[0] == ws[0][0]
    ensures Join(ws)[|Join(ws)| - 1] == ws[|ws| - 1][|ws[|ws| - 1]| - 1]
  {
    if |ws| > 1 {
      JoinEnds(ws[1..]);
    }
  }

  /** A word on its own splits into just that word. */
  lemma WordsOfWord(w: string)
    requires IsWord(w)
    ensures Words(w) == [w]
  {
    TrimLeftNoop(w);
    assert WordEnd(w) == |w|;
    assert w[..|w|] == w;
    assert w[|w|..] == [];
    assert Words([]) == [];
  }

  /** The first whitespace of `t`, after a run of non-whitespace, ends its first word. */
  lemma WordEndAt(t: string, n: nat)
    requires n < |t| && IsSpace(t[n])
    requires forall i :: 0 <= i < n ==> !IsSpace(t[i])
    ensures WordEnd(t) == n
  {
  }

  /** A string that starts without whitespace splits into its first word
      and the words of what follows it. */
  lemma WordsStep(t: string)
    requires t != [] && !IsSpace(t[0])
    ensures Words(t) == [t[..WordEnd(t)]] + Words(t[WordEnd(t)..])
  {
    TrimLeftNoop(t);
  }

  /** One leading space is dropped like any other leading whitespace. */
  lemma TrimLeftSpace(rest: string)
    ensures TrimLeft(" " + rest) == TrimLeft(rest)
  {
    var j := " " + rest;
    assert j[1..] == rest;
    assert LeadingSpaces(j) == 1 + LeadingSpaces(rest);
    assert j[LeadingSpaces(j)..] == rest[LeadingSpaces(rest)..];
  }

  /** A word followed by a space: the word's characters come first. */
  lemma WordThenSpace(w: string, rest: string)
    requires IsWord(w)
    ensures var j := w + " " + rest;
      |w| < |j| && j[|w|] == ' ' && j[..|w|] == w && j[|w|..] == " " + rest
      && forall i :: 0 <= i < |w| ==> !IsSpace(j[i])
  {
    var j := w + " " + rest;
    assert forall i :: 0 <= i < |w| ==> j[i] == w[i];
  }

  /** A word, one space and a string that starts without whitespace split
      into the word followed by the words of the rest. */
  lemma WordsOfCons(w: string, rest: string)
    requires IsWord(w)
    requires rest == [] || !IsSpace(rest[0])
    ensures Words(w + " " + rest) == [w] + Words(rest)
  {
    var j := w + " " + rest;
    WordThenSpace(w, rest);
    WordEndAt(j, |w|);
    WordsStep(j);
    assert Words(j) == [w] + Words(" " + rest);
    WordsIgnoreLeadingSpace(" " + rest);
    TrimLeftSpace(rest);
    TrimLeftNoop(rest);
  }

  /** The words after the first of a list of words are words too. */
  lemma TailWords(ws: seq<string>)
    requires |ws| > 0
    requires forall k :: 0 <= k < |ws| ==> IsWord(ws[k])
    ensures forall k :: 0 <= k < |ws| - 1 ==> IsWord(ws[1..][k])
  {
    forall k | 0 <= k < |ws| - 1 ensures IsWord(ws[1..][k]) {
      assert ws[1..][k] == ws[k + 1];
    }
  }

  /** Splitting what was joined from words gives the words back. */
  lemma {:induction false} WordsOfJoin(ws: seq<string>)
    requires forall k :: 0 <= k < |ws| ==> IsWord(ws[k])
    ensures Words(Join(ws)) == ws
  {
    if |ws| == 0 {
    } else if |ws| == 1 {
      WordsOfWord(ws[0]);
    } else {
      var tail := ws[1..];
      TailWords(ws);
      JoinEnds(tail);
      var rest := Join(tail);
      assert IsWord(tail[0]) && rest[0] == tail[0][0];
      assert !IsSpace(rest[0]);
      assert IsWord(ws[0]);
      WordsOfCons(ws[0], rest);
      WordsOfJoin(tail);
      assert Words(Join(ws)) == [ws[0]] + tail;
      assert ws == [ws[0]] + tail;
    }
  }

  /** Joined words carry no leading or trailing whitespace. */
  lemma StripJoin(ws: seq<string>)
    requires forall k :: 0 <= k < |ws| ==> IsWord(ws[k])
    ensures Strip(Join(ws)) == Join(ws)
  {
    if |ws| > 0 {
      JoinEnds(ws);
    }
    TrimLeftNoop(Join(ws));
    TrimRightNoop(Join(ws));
  }

  /** Normalising an already normalised string changes nothing. */
  lemma NormalizeIdempotent(s: string)
    ensures Normalize(Normalize(s)) == Normalize(s)
  {
    var ws := Words(Strip(s));
    StripJoin(ws);
    WordsOfJoin(ws);
  }

  /** `s.endswith(suffix)`. */
  predicate EndsWith(s: string, suffix: string)
  {
    |suffix| <= |s| && s[|s| - |suffix|..] == suffix
  }

  /** Whatever is appended last is what the result ends with. */
  lemma EndsWithConcat(a: string, b: string)
    ensures EndsWith(a + b, b)
  {
    assert (a + b)[|a|..] == b;
  }
}
