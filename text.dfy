/**
 * The string operations of Python's `str` that the handlers rely on:
 * `strip`, `lower`, `in` (substring test), `count`, `join`, `replace` and
 * `title`, plus list reversal.
 */
module Text {

  /** The characters for which Python's `str.isspace()` is true. */
  predicate IsSpace(c: char) {
    || c == ' '
    || ('\U{9}' <= c <= '\U{D}')
    || ('\U{1C}' <= c <= '\U{1F}')
    || c == '\U{85}' || c == '\U{A0}' || c == '\U{1680}'
    || ('\U{2000}' <= c <= '\U{200A}')
    || c == '\U{2028}' || c == '\U{2029}' || c == '\U{202F}' || c == '\U{205F}' || c == '\U{3000}'
  }

  predicate AllSpace(s: string) {
    forall i | 0 <= i < |s| :: IsSpace(s[i])
  }

  /** `s.lstrip()`: drops the leading white space and nothing else. */
  function TrimLeft(s: string): (r: string)
    ensures |r| <= |s| && r == s[|s| - |r|..]
    ensures AllSpace(s[..|s| - |r|])
    ensures r == [] || !IsSpace(r[0])
  {
    if s != [] && IsSpace(s[0]) then
      var r := TrimLeft(s[1..]);
      assert forall i | 0 <= i < |s| - |r| :: s[i] == if i == 0 then s[0] else s[1..][i - 1];
      r
    else s
  }

  /** `s.rstrip()`: drops the trailing white space and nothing else. */
  function TrimRight(s: string): (r: string)
    ensures |r| <= |s| && r == s[..|r|]
    ensures AllSpace(s[|r|..])
    ensures r == [] || !IsSpace(r[|r| - 1])
  {
    if s != [] && IsSpace(s[|s| - 1]) then
      var r := TrimRight(s[..|s| - 1]);
      assert s[|r|..] == s[..|s| - 1][|r|..] + [s[|s| - 1]];
      assert s[..|r|] == s[..|s| - 1][..|r|];
      r
    else s
  }

  /** `s.strip()`. */
  function Strip(s: string): string {
    TrimRight(TrimLeft(s))
  }

  /** A string strips to "" exactly when it is all white space. */
  lemma StripEmptyIff(s: string)
    ensures Strip(s) == [] <==> AllSpace(s)
  {
    var l := TrimLeft(s);
    if Strip(s) == [] {
      assert s == s[..|s| - |l|] + l;
      assert AllSpace(l[|TrimRight(l)|..]);
    }
  }

  /** Stripping a stripped string changes nothing. */
  lemma StripIdempotent(s: string)
    ensures Strip(Strip(s)) == Strip(s)
  {
    var r := Strip(s);
    var l := TrimLeft(s);
    if r != [] {
      assert r == l[..|r|];
      assert !IsSpace(r[0]);
      assert TrimLeft(r) == r;
    }
  }

  /** Python's `str.lower()` on the letters this system meets: ASCII,
      Latin-1 and the Vietnamese letters of Latin Extended-A/B and
      Latin Extended Additional. Every other character is unchanged. */
  function LowerChar(c: char): char {
    if 'A' <= c <= 'Z' || ('\U{C0}' <= c <= '\U{DE}' && c != '\U{D7}') then
      (c as int + 32) as char
    else if || c == '\U{102}' || c == '\U{110}' || c == '\U{128}' || c == '\U{168}'
            || c == '\U{1A0}' || c == '\U{1AF}'
            || ('\U{1E00}' <= c <= '\U{1E94}' && c as int % 2 == 0)
            || ('\U{1EA0}' <= c <= '\U{1EFE}' && c as int % 2 == 0) then
      (c as int + 1) as char
    else
      c
  }

  function Lower(s: string): (r: string)
    ensures |r| == |s|
  {
    seq(|s|, i requires 0 <= i < |s| => LowerChar(s[i]))
  }

  /** Lower-casing twice is lower-casing once. */
  lemma LowerIdempotent(s: string)
    ensures Lower(Lower(s)) == Lower(s)
  {
    forall i | 0 <= i < |s| ensures LowerChar(LowerChar(s[i])) == LowerChar(s[i]) {
      var c := s[i];
      assert LowerChar(LowerChar(c)) == LowerChar(c);
    }
  }

  predicate StartsWith(s: string, prefix: string) {
    |prefix| <= |s| && s[..|prefix|] == prefix
  }

  /** Python's `sub in s`. */
  predicate Contains(s: string, sub: string)
    decreases |s|
  {
    StartsWith(s, sub) || (s != [] && Contains(s[1..], sub))
  }

  /** `sub` occurs in `s` starting at index `k`. */
  predicate OccursAt(s: string, sub: string, k: int) {
    0 <= k <= |s| - |sub| && s[k..k + |sub|] == sub
  }

  /** `Contains` agrees with the positional reading: `sub` occurs at some index. */
  lemma {:induction false} ContainsIff(s: string, sub: string)
    ensures Contains(s, sub) <==> exists k :: OccursAt(s, sub, k)
    decreases |s|
  {
    if Contains(s, sub) {
      if StartsWith(s, sub) {
        assert OccursAt(s, sub, 0);
      } else {
        ContainsIff(s[1..], sub);
        var k :| OccursAt(s[1..], sub, k);
        assert s[k + 1..k + 1 + |sub|] == s[1..][k..k + |sub|];
        assert OccursAt(s, sub, k + 1);
      }
    }
    if exists k :: OccursAt(s, sub, k) {
      var k :| OccursAt(s, sub, k);
      if k > 0 {
        assert s[1..][k - 1..k - 1 + |sub|] == s[k..k + |sub|];
        assert OccursAt(s[1..], sub, k - 1);
        ContainsIff(s[1..], sub);
      }
    }
  }

  /** Python's `s.count(sub)` for a non-empty `sub`: occurrences counted
      left to right, each one skipping past the matched text. */
  function Count(s: string, sub: string): (n: nat)
    requires sub != []
    ensures n * |sub| <= |s|
    decreases |s|
  {
    if |s| < |sub| then 0
    else if s[..|sub|] == sub then 1 + Count(s[|sub|..], sub)
    else Count(s[1..], sub)
  }

  /** A separator is counted at least once exactly when it occurs. */
  lemma {:induction false} CountPositiveIff(s: string, sub: string)
    requires sub != []
    ensures Count(s, sub) > 0 <==> Contains(s, sub)
    decreases |s|
  {
    if |s| < |sub| {
      NotContainsShort(s, sub);
    } else if s[..|sub|] != sub {
      CountPositiveIff(s[1..], sub);
    }
  }

  /** Two occurrences that do not overlap are both counted: the left-to-right
      scan takes the first match no later than the first of them, and the
      second still lies past its end. */
  lemma {:induction false} CountTwoDisjoint(s: string, sub: string, i: int, j: int)
    requires sub != []
    requires OccursAt(s, sub, i) && OccursAt(s, sub, j) && i + |sub| <= j
    ensures Count(s, sub) >= 2
    decreases |s|
  {
    if s[..|sub|] == sub {
      var rest := s[|sub|..];
      assert rest[j - |sub|..j] == s[j..j + |sub|];
      assert OccursAt(rest, sub, j - |sub|);
      ContainsIff(rest, sub);
      CountPositiveIff(rest, sub);
      assert Count(s, sub) == 1 + Count(rest, sub);
    } else {
      assert i != 0;
      var tail := s[1..];
      assert tail[i - 1..i - 1 + |sub|] == s[i..i + |sub|];
      assert tail[j - 1..j - 1 + |sub|] == s[j..j + |sub|];
      CountTwoDisjoint(tail, sub, i - 1, j - 1);
      assert Count(s, sub) == Count(tail, sub);
    }
  }

  lemma {:induction false} NotContainsShort(s: string, sub: string)
    requires |s| < |sub|
    ensures !Contains(s, sub)
    decreases |s|
  {
    if s != [] {
      NotContainsShort(s[1..], sub);
    }
  }

  /** Python's `sep.join(xs)`. */
  function Join(xs: seq<string>, sep: string): string
    decreases |xs|
  {
    if |xs| == 0 then ""
    else if |xs| == 1 then xs[0]
    else xs[0] + sep + Join(xs[1..], sep)
  }

  function TotalLength(xs: seq<string>): nat {
    if xs == [] then 0 else |xs[0]| + TotalLength(xs[1..])
  }

  /** The joined text holds every part and one separator between neighbours. */
  lemma {:induction false} JoinLength(xs: seq<string>, sep: string)
    requires xs != []
    ensures |Join(xs, sep)| == TotalLength(xs) + (|xs| - 1) * |sep|
    decreases |xs|
  {
    if |xs| > 1 {
      JoinLength(xs[1..], sep);
    }
  }

  /** Where part `k` starts in the joined text: after the earlier parts,
      each followed by one separator. */
  function PartOffset(xs: seq<string>, sep: string, k: nat): nat
    requires k <= |xs|
    decreases k
  {
    if k == 0 then 0 else |xs[0]| + |sep| + PartOffset(xs[1..], sep, k - 1)
  }

  /** The offset of part `k` is the length of the parts before it plus one
      separator for each of them. */
  lemma {:induction false} PartOffsetIsSum(xs: seq<string>, sep: string, k: nat)
    requires k <= |xs|
    ensures PartOffset(xs, sep, k) == TotalLength(xs[..k]) + k * |sep|
    decreases k
  {
    if k > 0 {
      PartOffsetIsSum(xs[1..], sep, k - 1);
      assert xs[..k][0] == xs[0] && xs[..k][1..] == xs[1..][..k - 1];
    }
  }

  /** Each part appears in the joined text at its offset, the separator
      lies between each part and the next, and the last part ends the text. */
  lemma JoinParts(xs: seq<string>, sep: string)
    requires xs != []
    ensures forall k | 0 <= k < |xs| :: PartOffset(xs, sep, k) + |xs[k]| <= |Join(xs, sep)|
    ensures forall k | 0 <= k < |xs| ::
      Join(xs, sep)[PartOffset(xs, sep, k)..PartOffset(xs, sep, k) + |xs[k]|] == xs[k]
    ensures forall k | 0 <= k < |xs| - 1 :: PartOffset(xs, sep, k) + |xs[k]| + |sep| <= |Join(xs, sep)|
    ensures forall k | 0 <= k < |xs| - 1 ::
      Join(xs, sep)[PartOffset(xs, sep, k) + |xs[k]|..PartOffset(xs, sep, k) + |xs[k]| + |sep|] == sep
    ensures PartOffset(xs, sep, |xs| - 1) + |xs[|xs| - 1]| == |Join(xs, sep)|
  {
    forall k | 0 <= k < |xs|
      ensures PartOffset(xs, sep, k) + |xs[k]| <= |Join(xs, sep)|
      ensures Join(xs, sep)[PartOffset(xs, sep, k)..PartOffset(xs, sep, k) + |xs[k]|] == xs[k]
    {
      JoinPartAt(xs, sep, k);
    }
    forall k | 0 <= k < |xs| - 1
      ensures PartOffset(xs, sep, k) + |xs[k]| + |sep| <= |Join(xs, sep)|
      ensures Join(xs, sep)[PartOffset(xs, sep, k) + |xs[k]|..PartOffset(xs, sep, k) + |xs[k]| + |sep|] == sep
    {
      JoinSeparatorAt(xs, sep, k);
    }
    JoinEnds(xs, sep);
  }

  lemma {:induction false} JoinPartAt(xs: seq<string>, sep: string, k: nat)
    requires k < |xs|
    ensures PartOffset(xs, sep, k) + |xs[k]| <= |Join(xs, sep)|
    ensures Join(xs, sep)[PartOffset(xs, sep, k)..PartOffset(xs, sep, k) + |xs[k]|] == xs[k]
    decreases |xs|
  {
    if |xs| > 1 {
      var j, r, h := Join(xs, sep), Join(xs[1..], sep), |xs[0]| + |sep|;
      assert j == xs[0] + sep + r;
      if k > 0 {
        JoinPartAt(xs[1..], sep, k - 1);
        var o := PartOffset(xs[1..], sep, k - 1);
        assert PartOffset(xs, sep, k) == h + o && xs[1..][k - 1] == xs[k];
        assert j[h + o..h + o + |xs[k]|] == r[o..o + |xs[k]|];
      } else {
        assert j[..|xs[0]|] == xs[0];
      }
    }
  }

  lemma {:induction false} JoinSeparatorAt(xs: seq<string>, sep: string, k: nat)
    requires k + 1 < |xs|
    ensures PartOffset(xs, sep, k) + |xs[k]| + |sep| <= |Join(xs, sep)|
    ensures Join(xs, sep)[PartOffset(xs, sep, k) + |xs[k]|..PartOffset(xs, sep, k) + |xs[k]| + |sep|] == sep
    decreases |xs|
  {
    var j, r, h := Join(xs, sep), Join(xs[1..], sep), |xs[0]| + |sep|;
    assert j == xs[0] + sep + r;
    if k > 0 {
      JoinSeparatorAt(xs[1..], sep, k - 1);
      var o, e := PartOffset(xs[1..], sep, k - 1), |xs[k]| + |sep|;
      assert PartOffset(xs, sep, k) == h + o && xs[1..][k - 1] == xs[k];
      assert j[h + o + |xs[k]|..h + o + e] == r[o + |xs[k]|..o + e];
    } else {
      assert j[|xs[0]|..h] == sep;
    }
  }

  lemma {:induction false} JoinEnds(xs: seq<string>, sep: string)
    requires xs != []
    ensures PartOffset(xs, sep, |xs| - 1) + |xs[|xs| - 1]| == |Join(xs, sep)|
    decreases |xs|
  {
    if |xs| > 1 {
      JoinEnds(xs[1..], sep);
      assert PartOffset(xs, sep, |xs| - 1) == |xs[0]| + |sep| + PartOffset(xs[1..], sep, |xs| - 2);
    }
  }

  /** `list.reverse()`, as a value. */
  function Reverse<T>(s: seq<T>): (r: seq<T>)
    ensures |r| == |s|
    ensures forall k | 0 <= k < |s| :: r[k] == s[|s| - 1 - k]
  {
    seq(|s|, i requires 0 <= i < |s| => s[|s| - 1 - i])
  }

  /** `s.replace(from, to)` for one-character arguments. */
  function ReplaceChar(s: string, from: char, to: char): (r: string)
    ensures |r| == |s|
    ensures forall i | 0 <= i < |s| :: r[i] == if s[i] == from then to else s[i]
  {
    seq(|s|, i requires 0 <= i < |s| => if s[i] == from then to else s[i])
  }

  predicate IsAsciiLetter(c: char) {
    'a' <= c <= 'z' || 'A' <= c <= 'Z'
  }

  function AsciiUpper(c: char): char {
    if 'a' <= c <= 'z' then (c as int - 32) as char else c
  }

  function AsciiLower(c: char): char {
    if 'A' <= c <= 'Z' then (c as int + 32) as char else c
  }

  /** Whether position `i` of `s` comes right after a letter; `afterLetter`
      says whether the text before `s` ended in one. */
  predicate FollowsLetter(s: string, i: int, afterLetter: bool)
    requires 0 <= i < |s|
  {
    if i == 0 then afterLetter else IsAsciiLetter(s[i - 1])
  }

  /** `s.title()` over ASCII: a letter that follows a letter is lower-cased,
      any other letter is upper-cased, and every non-letter is kept. */
  function TitleFrom(s: string, afterLetter: bool): (r: string)
    ensures |r| == |s|
    ensures forall i | 0 <= i < |s| :: !IsAsciiLetter(s[i]) ==> r[i] == s[i]
    ensures forall i | 0 <= i < |s| :: IsAsciiLetter(s[i]) ==> IsAsciiLetter(r[i])
    ensures forall i | 0 <= i < |s| && IsAsciiLetter(s[i]) ::
      r[i] == if FollowsLetter(s, i, afterLetter) then AsciiLower(s[i]) else AsciiUpper(s[i])
    decreases |s|
  {
    if s == [] then []
    else
      var c := s[0];
      var c' := if !IsAsciiLetter(c) then c else if afterLetter then AsciiLower(c) else AsciiUpper(c);
      var rest := TitleFrom(s[1..], IsAsciiLetter(c));
      var r := [c'] + rest;
      assert forall i | 1 <= i < |s| :: r[i] == rest[i - 1] && s[i] == s[1..][i - 1];
      assert forall i | 1 <= i < |s| :: FollowsLetter(s, i, afterLetter) == FollowsLetter(s[1..], i - 1, IsAsciiLetter(c));
      r
  }

  function Title(s: string): string {
    TitleFrom(s, false)
  }

  const Support: string := "support"
  const HoTro: string := "hỗ trợ"

  /** The support-form test of the chat and history handlers: the text,
      lower-cased, contains "support" or "hỗ trợ". */
  predicate MentionsSupport(text: string) {
    Contains(Lower(text), Support) || Contains(Lower(text), HoTro)
  }
}
