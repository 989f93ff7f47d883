/** The JavaScript string operations the pages use: case mapping, `includes`,
    `startsWith`, `split(" ")`, the initials of a name, and integer formatting. */
module Text {

  /** `toLowerCase` on one character; only the ASCII letters are mapped. */
  function LowerChar(c: char): char
  {
    if 'A' <= c <= 'Z' then (c as int - 'A' as int + 'a' as int) as char else c
  }

  /** `toUpperCase` on one character; only the ASCII letters are mapped. */
  function UpperChar(c: char): char
  {
    if 'a' <= c <= 'z' then (c as int - 'a' as int + 'A' as int) as char else c
  }

  function ToLower(s: string): (r: string)
    ensures |r| == |s|
    ensures forall i :: 0 <= i < |s| ==> r[i] == LowerChar(s[i])
  {
    if s == [] then [] else [LowerChar(s[0])] + ToLower(s[1..])
  }

  function ToUpper(s: string): (r: string)
    ensures |r| == |s|
    ensures forall i :: 0 <= i < |s| ==> r[i] == UpperChar(s[i])
  {
    if s == [] then [] else [UpperChar(s[0])] + ToUpper(s[1..])
  }

  /** Lower-casing twice equals lower-casing once. */
  lemma ToLowerIdempotent(s: string)
    ensures ToLower(ToLower(s)) == ToLower(s)
  {
    forall i | 0 <= i < |s| ensures ToLower(ToLower(s))[i] == ToLower(s)[i] {
      var c := s[i];
      if 'A' <= c <= 'Z' {
        assert 'a' <= LowerChar(c) <= 'z';
      }
    }
  }

  /** `s.startsWith(prefix)`: `s` begins with the characters of `prefix`, one by one. */
  predicate StartsWith(s: string, prefix: string)
    ensures StartsWith(s, prefix) <==> |prefix| <= |s| && forall i :: 0 <= i < |prefix| ==> s[i] == prefix[i]
  {
    |prefix| <= |s| && s[..|prefix|] == prefix
  }

  /** `s.includes(sub)`, scanning start positions from the left. */
  predicate Contains(s: string, sub: string)
    ensures Contains(s, sub) ==> |sub| <= |s|
    decreases |s|
  {
    StartsWith(s, sub) || (s != [] && Contains(s[1..], sub))
  }

  /** `sub` occurs in `s` at position `i`. */
  ghost predicate OccursAt(s: string, sub: string, i: int)
  {
    0 <= i <= |s| - |sub| && s[i..i + |sub|] == sub
  }

  /** `Contains` agrees with the textbook definition: some window of `s` equals `sub`. */
  lemma ContainsAt(s: string, sub: string)
    ensures Contains(s, sub) <==> exists i :: OccursAt(s, sub, i)
  {
    if Contains(s, sub) {
      var i := ContainsWitness(s, sub);
    }
    if exists i :: OccursAt(s, sub, i) {
      var i :| OccursAt(s, sub, i);
      OccursContains(s, sub, i);
    }
  }

  /** A successful scan finds an occurrence. */
  lemma {:induction false} ContainsWitness(s: string, sub: string) returns (i: int)
    requires Contains(s, sub)
    ensures OccursAt(s, sub, i)
    decreases |s|
  {
    if StartsWith(s, sub) {
      i := 0;
    } else {
      var j := ContainsWitness(s[1..], sub);
      i := j + 1;
      assert s[i..i + |sub|] == s[1..][j..j + |sub|];
    }
  }

  /** An occurrence is found by the scan. */
  lemma {:induction false} OccursContains(s: string, sub: string, i: int)
    requires OccursAt(s, sub, i)
    ensures Contains(s, sub)
    decreases |s|
  {
    if i == 0 {
      assert StartsWith(s, sub);
    } else {
      assert s[1..][i - 1..i - 1 + |sub|] == s[i..i + |sub|];
      OccursContains(s[1..], sub, i - 1);
    }
  }

  /** Every string includes the empty string: an empty search query matches everything. */
  lemma ContainsEmpty(s: string)
    ensures Contains(s, "")
  {
    assert StartsWith(s, "");
  }

  /** `s.split(" ")`: the maximal space-free pieces of `s`, including the empty
      pieces that leading, trailing or repeated spaces produce. */
  function SplitOnSpace(s: string): (words: seq<string>)
    ensures |words| >= 1
    ensures forall k :: 0 <= k < |words| ==> ' ' !in words[k]
    ensures Join(words, " ") == s
  {
    if s == [] then [""]
    else
      var rest := SplitOnSpace(s[1..]);
      JoinStep(s, rest);
      if s[0] == ' ' then [""] + rest
      else [[s[0]] + rest[0]] + rest[1..]
  }

  /** `words.join(sep)`. */
  function Join(words: seq<string>, sep: string): string
    requires |words| >= 1
    decreases |words|
  {
    if |words| == 1 then words[0] else words[0] + sep + Join(words[1..], sep)
  }

  /** Prepending one character to a joined split: a space starts a new empty
      piece, any other character extends the first piece. */
  lemma {:induction false} JoinStep(s: string, rest: seq<string>)
    requires s != [] && |rest| >= 1 && Join(rest, " ") == s[1..]
    ensures s[0] == ' ' ==> Join([""] + rest, " ") == s
    ensures s[0] != ' ' ==> Join([[s[0]] + rest[0]] + rest[1..], " ") == s
  {
    assert s == [s[0]] + s[1..];
    if s[0] == ' ' {
      assert ([""] + rest)[1..] == rest;
    } else {
      var w := [[s[0]] + rest[0]] + rest[1..];
      if |rest| > 1 {
        assert w[1..] == rest[1..];
      }
    }
  }

  /** `words.map(n => n[0]).join("")`: `n[0]` of an empty word is `undefined`,
      which `join` renders as nothing. */
  function FirstLetters(words: seq<string>): string
  {
    if words == [] then ""
    else (if words[0] == "" then "" else [words[0][0]]) + FirstLetters(words[1..])
  }

  /** `getInitials(name)`: one character per word at most, and never a space. */
  function Initials(name: string): (r: string)
    ensures |r| <= |SplitOnSpace(name)|
    ensures ' ' !in r
  {
    FirstLettersBound(SplitOnSpace(name));
    ToUpper(FirstLetters(SplitOnSpace(name)))
  }

  lemma {:induction false} FirstLettersBound(words: seq<string>)
    requires forall k :: 0 <= k < |words| ==> ' ' !in words[k]
    ensures |FirstLetters(words)| <= |words| && ' ' !in ToUpper(FirstLetters(words))
  {
    if words != [] {
      FirstLettersBound(words[1..]);
    }
  }

  /** Reference definition: the characters of `s` that are not spaces and start
      `s` or follow a space (`atStart` says whether the text before `s` ended a word). */
  function WordStarts(s: string, atStart: bool): (r: string)
    ensures |r| <= |s|
    ensures ' ' !in r
  {
    if s == [] then ""
    else (if atStart && s[0] != ' ' then [s[0]] else "") + WordStarts(s[1..], s[0] == ' ')
  }

  lemma {:induction false} FirstLettersOfSplit(s: string)
    ensures FirstLetters(SplitOnSpace(s)) == WordStarts(s, true)
    ensures FirstLetters(SplitOnSpace(s)[1..]) == WordStarts(s, false)
  {
    if s != [] {
      FirstLettersOfSplit(s[1..]);
      var rest := SplitOnSpace(s[1..]);
      if s[0] == ' ' {
        assert ([""] + rest)[1..] == rest;
      } else {
        var words := [[s[0]] + rest[0]] + rest[1..];
        assert words[1..] == rest[1..];
        assert words[0] != "" && words[0][0] == s[0];
      }
    }
  }

  /** The initials are the upper-cased first characters of the space-separated
      words of the name, in order: empty words contribute nothing. */
  lemma InitialsAreWordStarts(name: string)
    ensures Initials(name) == ToUpper(WordStarts(name, true))
    ensures |Initials(name)| <= |name|
    ensures Initials("") == ""
  {
    FirstLettersOfSplit(name);
  }

  // ---------------------------------------------------------------------------
  // Integer formatting: `n.toString()` and `padStart`.

  function DigitChar(d: nat): (c: char)
    requires d < 10
    ensures '0' <= c <= '9'
  {
    ('0' as int + d) as char
  }

  predicate IsDigits(s: string)
  {
    s != [] && forall i :: 0 <= i < |s| ==> '0' <= s[i] <= '9'
  }

  /** Decimal rendering of a natural number, without leading zeros. */
  function NatToString(n: nat): (s: string)
    ensures IsDigits(s)
    ensures n < 10 ==> |s| == 1
    ensures 10 <= n < 100 ==> |s| == 2
    ensures s[0] == '0' ==> n == 0
    decreases n
  {
    if n < 10 then [DigitChar(n)]
    else
      var high := NatToString(n / 10);
      assert (high + [DigitChar(n % 10)])[0] == high[0];
      high + [DigitChar(n % 10)]
  }

  /** `n.toString()` for an integer-valued number: the digits read back as `n`,
      after a minus sign when `n` is negative. */
  function IntToString(n: int): (s: string)
    ensures n >= 0 ==> IsDigits(s) && ParseDigits(s) == n && (s[0] == '0' ==> |s| == 1)
    ensures n < 0 ==> |s| >= 2 && s[0] == '-' && IsDigits(s[1..]) && ParseDigits(s[1..]) == -n
  {
    if n < 0 then
      NatToStringRoundTrip(-n);
      assert ("-" + NatToString(-n))[1..] == NatToString(-n);
      "-" + NatToString(-n)
    else
      NatToStringRoundTrip(n);
      NatToString(n)
  }

  /** `s.padStart(width, fill)`. */
  function PadStart(s: string, width: nat, fill: char): (r: string)
    ensures |r| == if |s| < width then width else |s|
    ensures r[|r| - |s|..] == s
    ensures forall i :: 0 <= i < |r| - |s| ==> r[i] == fill
  {
    if |s| < width then seq(width - |s|, _ => fill) + s else s
  }

  /** Reads a digit string back as a number. */
  function ParseDigits(s: string): nat
    requires forall i :: 0 <= i < |s| ==> '0' <= s[i] <= '9'
  {
    if s == [] then 0
    else ParseDigits(s[..|s| - 1]) * 10 + (s[|s| - 1] as int - '0' as int)
  }

  lemma {:induction false} NatToStringRoundTrip(n: nat)
    ensures ParseDigits(NatToString(n)) == n
    decreases n
  {
    if n >= 10 {
      NatToStringRoundTrip(n / 10);
      var s := NatToString(n);
      assert s[..|s| - 1] == NatToString(n / 10);
    }
  }
}
