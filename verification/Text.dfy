/** Python's `str.strip`. */
module Text {

  /** `str.isspace` on one code point. */
  predicate IsSpace(c: char)
  {
    var n := c as int;
    || 0x09 <= n <= 0x0D || 0x1C <= n <= 0x20 || n == 0x85 || n == 0xA0 || n == 0x1680
    || 0x2000 <= n <= 0x200A || n == 0x2028 || n == 0x2029 || n == 0x202F || n == 0x205F || n == 0x3000
  }

  function StripLeft(s: string): string
  {
    if s != [] && IsSpace(s[0]) then StripLeft(s[1..]) else s
  }

  function StripRight(s: string): string
  {
    if s != [] && IsSpace(s[|s| - 1]) then StripRight(s[..|s| - 1]) else s
  }

  function Strip(s: string): string
  {
    StripRight(StripLeft(s))
  }

  predicate Blank(s: string)
  {
    forall i :: 0 <= i < |s| ==> IsSpace(s[i])
  }

  lemma {:induction false} StripLeftFacts(s: string)
    ensures StripLeft(s) == [] <==> Blank(s)
    ensures StripLeft(s) != [] ==> !IsSpace(StripLeft(s)[0])
    ensures Blank(StripLeft(s)) ==> StripLeft(s) == []
  {
    if s != [] && IsSpace(s[0]) {
      StripLeftFacts(s[1..]);
      assert s == [s[0]] + s[1..];
    }
  }

  lemma {:induction false} StripRightFacts(s: string)
    ensures StripRight(s) == [] <==> Blank(s)
    ensures StripRight(s) != [] ==> s != [] && StripRight(s)[0] == s[0] && !IsSpace(StripRight(s)[|StripRight(s)| - 1])
  {
    if s != [] && IsSpace(s[|s| - 1]) {
      StripRightFacts(s[..|s| - 1]);
      assert s == s[..|s| - 1] + [s[|s| - 1]];
    }
  }

  /** What is left has no space at either end, and nothing is left exactly of a blank string. */
  lemma StripFacts(s: string)
    ensures Strip(s) == [] <==> Blank(s)
    ensures Strip(s) != [] ==> !IsSpace(Strip(s)[0]) && !IsSpace(Strip(s)[|Strip(s)| - 1])
  {
    StripLeftFacts(s);
    StripRightFacts(StripLeft(s));
  }

  /** Stripping twice is stripping once. */
  lemma StripIdempotent(s: string)
    ensures Strip(Strip(s)) == Strip(s)
  {
    StripFacts(s);
    StripFacts(Strip(s));
  }

  lemma {:induction false} StripLeftExactly(s: string) returns (left: string)
    ensures Blank(left) && s == left + StripLeft(s)
  {
    left := "";
    if s != [] && IsSpace(s[0]) {
      var rest := StripLeftExactly(s[1..]);
      left := [s[0]] + rest;
    }
  }

  lemma {:induction false} StripRightExactly(s: string) returns (right: string)
    ensures Blank(right) && s == StripRight(s) + right
  {
    right := "";
    if s != [] && IsSpace(s[|s| - 1]) {
      var rest := StripRightExactly(s[..|s| - 1]);
      right := rest + [s[|s| - 1]];
    }
  }

  /** Only space is taken away, and only at the ends. */
  lemma StripExactly(s: string) returns (left: string, right: string)
    ensures Blank(left) && Blank(right) && s == left + Strip(s) + right
  {
    left := StripLeftExactly(s);
    right := StripRightExactly(StripLeft(s));
  }
}
