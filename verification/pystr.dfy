/**
 * The few pieces of Python's string behaviour the pipeline relies on:
 * `str()` of a non-negative int, truthiness of an optional string,
 * `str.strip()`, `str.replace()` of one character, `re.sub` of a character
 * class with "", and `str.split('\n\n')` with its inverse `'\n\n'.join`.
 */
module PyStr {
  import opened Wrappers

  /** Python truthiness of a value that is either missing/None or a string. */
  predicate Truthy(s: Option<string>) {
    s.Some? && s.value != ""
  }

  // ---------------------------------------------------------------------
  // Decimal rendering, as str(n) and f"{n}" for n >= 0

  function DigitChar(d: nat): (c: char)
    requires d < 10
    ensures '0' <= c <= '9'
  {
    (48 + d) as char
  }

  function Decimal(n: nat): (s: string)
    ensures 1 <= |s|
    ensures forall i :: 0 <= i < |s| ==> '0' <= s[i] <= '9'
    ensures n < 10 <==> |s| == 1
  {
    if n < 10 then [DigitChar(n)] else Decimal(n / 10) + [DigitChar(n % 10)]
  }

  /** `str(n)` for any int. */
  function IntText(n: int): (s: string)
    ensures |s| >= 1
    ensures s[0] == '-' <==> n < 0
  {
    if n >= 0 then Decimal(n) else "-" + Decimal(-n)
  }

  /** Different numbers never print alike: the chapter anchors are distinct. */
  lemma {:induction false} DecimalInjective(a: nat, b: nat)
    requires Decimal(a) == Decimal(b)
    ensures a == b
  {
    if a >= 10 && b >= 10 {
      var da, db := Decimal(a), Decimal(b);
      assert da[|da| - 1] == DigitChar(a % 10);
      assert db[|db| - 1] == DigitChar(b % 10);
      assert a % 10 == b % 10;
      assert Decimal(a / 10) == da[..|da| - 1] == db[..|db| - 1] == Decimal(b / 10);
      DecimalInjective(a / 10, b / 10);
    }
  }

  lemma {:induction false} IntTextInjective(a: int, b: int)
    requires IntText(a) == IntText(b)
    ensures a == b
  {
    if a >= 0 && b >= 0 {
      DecimalInjective(a, b);
    } else if a < 0 && b < 0 {
      assert Decimal(-a) == IntText(a)[1..];
      assert Decimal(-b) == IntText(b)[1..];
      DecimalInjective(-a, -b);
    }
  }

  // ---------------------------------------------------------------------
  // Slicing and paths

  /** `s[:n]` for n >= 0. */
  function Take<T>(s: seq<T>, n: nat): (r: seq<T>)
    ensures |r| == if |s| <= n then |s| else n
    ensures r == s[..|r|]
  {
    if |s| <= n then s else s[..n]
  }

  /** posixpath.join(dir, name) for two components. */
  function JoinPath(dir: string, name: string): (p: string)
    ensures |name| > 0 && name[0] == '/' ==> p == name
    ensures |p| >= |name|
    ensures !(|name| > 0 && name[0] == '/') ==> p[|p| - |name|..] == name
  {
    if |name| > 0 && name[0] == '/' then name
    else if dir == [] || dir[|dir| - 1] == '/' then dir + name
    else dir + "/" + name
  }

  // ---------------------------------------------------------------------
  // str.strip() with no argument: Python's str.isspace() set

  predicate IsSpace(c: char) {
    var n := c as int;
    n == 32 || 9 <= n <= 13 || 28 <= n <= 31 || n == 0x85 || n == 0xA0 || n == 0x1680
    || 0x2000 <= n <= 0x200A || n == 0x2028 || n == 0x2029 || n == 0x202F || n == 0x205F
    || n == 0x3000
  }

  function StripLeft(s: string): (r: string)
    ensures |r| <= |s| && r == s[|s| - |r|..]
    ensures r == [] || !IsSpace(r[0])
  {
    if |s| > 0 && IsSpace(s[0]) then StripLeft(s[1..]) else s
  }

  function StripRight(s: string): (r: string)
    ensures |r| <= |s| && r == s[..|r|]
    ensures r == [] || !IsSpace(r[|r| - 1])
  {
    if |s| > 0 && IsSpace(s[|s| - 1]) then StripRight(s[..|s| - 1]) else s
  }

  function Strip(s: string): (r: string)
    ensures |r| <= |s|
    ensures r == [] || (!IsSpace(r[0]) && !IsSpace(r[|r| - 1]))
    ensures forall c :: c in r ==> c in s
  {
    var l := StripLeft(s);
    var r := StripRight(l);
    assert r == [] || r[0] == l[0];
    r
  }

  /** Stripping a string that has no surrounding whitespace changes nothing. */
  lemma StripUnchanged(s: string)
    requires s == [] || (!IsSpace(s[0]) && !IsSpace(s[|s| - 1]))
    ensures Strip(s) == s
  {
  }

  // ---------------------------------------------------------------------
  // re.sub(r'[...]', "", s) and s.replace(' ', '_')

  function RemoveChars(s: string, bad: set<char>): (r: string)
    ensures |r| <= |s|
    ensures forall i :: 0 <= i < |r| ==> r[i] !in bad
    ensures (forall i :: 0 <= i < |s| ==> s[i] !in bad) ==> r == s
    ensures forall c :: c in r ==> c in s
  {
    if s == [] then []
    else if s[0] in bad then RemoveChars(s[1..], bad)
    else [s[0]] + RemoveChars(s[1..], bad)
  }

  function ReplaceChar(s: string, from: char, to: char): (r: string)
    ensures |r| == |s|
    ensures forall i :: 0 <= i < |s| ==> r[i] == if s[i] == from then to else s[i]
  {
    seq(|s|, i requires 0 <= i < |s| => if s[i] == from then to else s[i])
  }

  /** Replacing a character that does not occur leaves the text as it is. */
  lemma ReplaceAbsentChar(s: string, from: char, to: char)
    requires forall i :: 0 <= i < |s| ==> s[i] != from
    ensures ReplaceChar(s, from, to) == s
  {
    assert forall i :: 0 <= i < |s| ==> ReplaceChar(s, from, to)[i] == s[i];
  }

  // ---------------------------------------------------------------------
  // str.split('\n\n') and '\n\n'.join(...)

  const ParagraphBreak: string := "\n\n"

  /**
   * Python's `s.split('\n\n')`: cut at the leftmost occurrence of the
   * delimiter, repeatedly; always at least one piece.
   */
  function SplitParagraphs(s: string): (r: seq<string>)
    ensures |r| >= 1
    decreases |s|
  {
    if |s| < 2 then [s]
    else if s[..2] == ParagraphBreak then [""] + SplitParagraphs(s[2..])
    else
      var rest := SplitParagraphs(s[1..]);
      [[s[0]] + rest[0]] + rest[1..]
  }

  function JoinParagraphs(ps: seq<string>): string
    requires |ps| >= 1
  {
    if |ps| == 1 then ps[0] else ps[0] + ParagraphBreak + JoinParagraphs(ps[1..])
  }

  /** Joining the pieces of a split with the delimiter gives back the text. */
  lemma {:induction false} JoinSplitParagraphs(s: string)
    ensures JoinParagraphs(SplitParagraphs(s)) == s
    decreases |s|
  {
    if |s| < 2 {
    } else if s[..2] == ParagraphBreak {
      JoinSplitParagraphs(s[2..]);
      assert s == ParagraphBreak + s[2..];
    } else {
      var rest := SplitParagraphs(s[1..]);
      JoinSplitParagraphs(s[1..]);
      var r := [[s[0]] + rest[0]] + rest[1..];
      if |rest| == 1 {
        assert JoinParagraphs(r) == [s[0]] + rest[0];
      } else {
        assert r[1..] == rest[1..];
        assert JoinParagraphs(r) == [s[0]] + rest[0] + ParagraphBreak + JoinParagraphs(rest[1..]);
        assert JoinParagraphs(rest) == rest[0] + ParagraphBreak + JoinParagraphs(rest[1..]);
      }
      assert s == [s[0]] + s[1..];
    }
  }

  /** No piece of a split contains the delimiter. */
  lemma {:induction false} SplitPiecesHaveNoBreak(s: string, k: nat, i: nat)
    requires k < |SplitParagraphs(s)|
    requires i + 2 <= |SplitParagraphs(s)[k]|
    ensures SplitParagraphs(s)[k][i..i + 2] != ParagraphBreak
    decreases |s|
  {
    if |s| < 2 {
    } else if s[..2] == ParagraphBreak {
      SplitPiecesHaveNoBreak(s[2..], k - 1, i);
    } else {
      var rest := SplitParagraphs(s[1..]);
      if k == 0 {
        var p := [s[0]] + rest[0];
        if i == 0 {
          JoinSplitParagraphs(s[1..]);
          FirstPieceIsPrefix(s[1..]);
          assert p[..2] == s[..2];
        } else {
          SplitPiecesHaveNoBreak(s[1..], 0, i - 1);
          assert p[i..i + 2] == rest[0][i - 1..i + 1];
        }
      } else {
        SplitPiecesHaveNoBreak(s[1..], k, i);
      }
    }
  }

  /** The first piece of a split is a prefix of the text. */
  lemma {:induction false} FirstPieceIsPrefix(s: string)
    ensures |SplitParagraphs(s)[0]| <= |s|
    ensures SplitParagraphs(s)[0] == s[..|SplitParagraphs(s)[0]|]
    decreases |s|
  {
    if |s| >= 2 {
      if s[..2] == ParagraphBreak {
      } else {
        FirstPieceIsPrefix(s[1..]);
      }
    }
  }
}
