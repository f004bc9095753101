/** `str.strip`, and `str.lower` on ASCII letters. */
module Text {
  /** What `str.isspace` accepts: the characters `str.strip` removes. */
  predicate IsSpace(c: char) {
    || c == ' ' || '\t' <= c <= '\r' || '\U{1c}' <= c <= '\U{1f}'
    || c == '\U{85}' || c == '\U{a0}' || c == '\U{1680}' || '\U{2000}' <= c <= '\U{200a}'
    || c == '\U{2028}' || c == '\U{2029}' || c == '\U{202f}' || c == '\U{205f}' || c == '\U{3000}'
  }

  /** The code points of the spaces. */
  lemma SpacesAre(c: char)
    ensures IsSpace(c) <==> c as int in {
      9, 10, 11, 12, 13, 28, 29, 30, 31, 32, 133, 160, 5760, 8192, 8193, 8194, 8195, 8196, 8197, 8198, 8199, 8200,
      8201, 8202, 8232, 8233, 8239, 8287, 12288}
  {
  }

  /** The texts are alike but for capitals in the first that are small in the second. */
  ghost predicate SameButCase(s: string, t: string) {
    && |s| == |t|
    && forall i :: 0 <= i < |s| ==> t[i] == s[i] || ('A' <= s[i] <= 'Z' && t[i] as int == s[i] as int + 32)
  }

  function LowerChar(c: char): char {
    if 'A' <= c <= 'Z' then (c as int + 32) as char else c
  }

  /** Only capitals change, each to the small letter 32 places on, so that none is left. */
  function Lower(s: string): (t: string)
    ensures SameButCase(s, t)
    ensures forall i :: 0 <= i < |t| ==> !('A' <= t[i] <= 'Z')
  {
    seq(|s|, i requires 0 <= i < |s| => LowerChar(s[i]))
  }

  function StripLeft(s: string): string {
    if s != "" && IsSpace(s[0]) then StripLeft(s[1..]) else s
  }

  function StripRight(s: string): string {
    if s != "" && IsSpace(s[|s| - 1]) then StripRight(s[..|s| - 1]) else s
  }

  function Strip(s: string): string {
    StripRight(StripLeft(s))
  }

  /** No space at either end. */
  predicate Trimmed(s: string) {
    s == "" || (!IsSpace(s[0]) && !IsSpace(s[|s| - 1]))
  }

  lemma {:induction false} StripRightKeepsHead(s: string)
    ensures StripRight(s) == "" || (StripRight(s)[0] == s[0] && !IsSpace(StripRight(s)[|StripRight(s)| - 1]))
  {
    if s != "" && IsSpace(s[|s| - 1]) { StripRightKeepsHead(s[..|s| - 1]); }
  }

  lemma {:induction false} StripLeftTrims(s: string)
    ensures StripLeft(s) == "" || !IsSpace(StripLeft(s)[0])
  {
    if s != "" && IsSpace(s[0]) { StripLeftTrims(s[1..]); }
  }

  /** Stripping trims, and leaves alone exactly what is trimmed already. */
  lemma StripFixedIff(s: string)
    ensures Trimmed(Strip(s))
    ensures Strip(s) == s <==> Trimmed(s)
  {
    StripLeftTrims(s);
    StripRightKeepsHead(StripLeft(s));
  }

  ghost predicate AllSpaces(s: string) {
    forall i :: 0 <= i < |s| ==> IsSpace(s[i])
  }

  lemma {:induction false} StripLeftDrops(s: string) returns (left: string)
    ensures s == left + StripLeft(s) && AllSpaces(left)
  {
    if s != "" && IsSpace(s[0]) {
      left := StripLeftDrops(s[1..]);
      left := [s[0]] + left;
      assert s == [s[0]] + s[1..];
    } else {
      left := "";
    }
  }

  lemma {:induction false} StripRightDrops(s: string) returns (right: string)
    ensures s == StripRight(s) + right && AllSpaces(right)
  {
    if s != "" && IsSpace(s[|s| - 1]) {
      right := StripRightDrops(s[..|s| - 1]);
      right := right + [s[|s| - 1]];
      assert s == s[..|s| - 1] + [s[|s| - 1]];
    } else {
      right := "";
    }
  }

  /** Stripping takes spaces off both ends and nothing else. */
  lemma StripDropsSpaces(s: string) returns (left: string, right: string)
    ensures s == left + Strip(s) + right && AllSpaces(left) && AllSpaces(right)
    ensures Trimmed(Strip(s))
  {
    left := StripLeftDrops(s);
    right := StripRightDrops(StripLeft(s));
    StripFixedIff(s);
    assert left + (Strip(s) + right) == left + Strip(s) + right;
  }

  lemma {:induction false} StripRightOfPadded(s: string, right: string)
    requires AllSpaces(right) && Trimmed(s)
    ensures StripRight(s + right) == s
  {
    if right == "" {
      assert s + right == s;
    } else {
      assert (s + right)[..|s + right| - 1] == s + right[..|right| - 1];
      StripRightOfPadded(s, right[..|right| - 1]);
    }
  }

  lemma {:induction false} StripLeftOfSpaces(s: string)
    requires AllSpaces(s)
    ensures StripLeft(s) == ""
  {
    if s != "" { StripLeftOfSpaces(s[1..]); }
  }

  /** Padding comes off again, whatever spaces it is made of. */
  lemma StripOfPadded(left: string, s: string, right: string)
    requires AllSpaces(left) && AllSpaces(right) && Trimmed(s)
    ensures Strip(left + s + right) == s
  {
    if s == "" {
      assert left + s + right == left + right;
      StripLeftOfSpaces(left + right);
    } else {
      PaddedLeft(left, s, right);
      StripRightOfPadded(s, right);
    }
  }

  lemma {:induction false} PaddedLeft(left: string, s: string, right: string)
    requires AllSpaces(left) && s != "" && !IsSpace(s[0])
    ensures StripLeft(left + s + right) == s + right
  {
    if left == "" {
      assert left + s + right == s + right;
    } else {
      assert (left + s + right)[1..] == left[1..] + s + right;
      PaddedLeft(left[1..], s, right);
    }
  }

  lemma LowerKeepsSpaces(s: string)
    ensures Trimmed(Lower(s)) <==> Trimmed(s)
    ensures Lower(Lower(s)) == Lower(s)
  {
  }
}
