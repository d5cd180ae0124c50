/** The order and the characters of canonical JSON. */
module JsonText {
  import opened JsonCanonical

  /** The texts agree up to `i`, where `a` ends or has the smaller character. */
  ghost predicate SmallerAt(a: string, b: string, i: nat) {
    i <= |a| && i < |b| && a[..i] == b[..i] && (i == |a| || a[i] < b[i])
  }

  /** Keys are ordered by the first character in which they differ, and a prefix comes first. */
  lemma {:induction false} LessIff(a: string, b: string)
    ensures Less(a, b) <==> exists i: nat :: SmallerAt(a, b, i)
  {
    if b != "" && a != "" && a[0] == b[0] {
      LessIff(a[1..], b[1..]);
      if Less(a[1..], b[1..]) {
        var i: nat :| SmallerAt(a[1..], b[1..], i);
        assert a[..i + 1] == [a[0]] + a[1..][..i] && b[..i + 1] == [b[0]] + b[1..][..i];
        assert SmallerAt(a, b, i + 1);
      }
      if i: nat :| SmallerAt(a, b, i) {
        assert a[1..][..i - 1] == a[..i][1..] && b[1..][..i - 1] == b[..i][1..];
        assert SmallerAt(a[1..], b[1..], i - 1);
      }
    } else if Less(a, b) {
      assert SmallerAt(a, b, 0);
    } else if i: nat :| SmallerAt(a, b, i) {
      SmallerFront(a, b, i);
    }
  }

  lemma SmallerFront(a: string, b: string, i: nat)
    requires SmallerAt(a, b, i)
    ensures a == "" || a[0] <= b[0]
    ensures a != "" && a[0] == b[0] ==> i > 0
  {
    if i > 0 {
      assert a[..i][0] == b[..i][0];
    }
  }

  predicate LowerHex(c: char) {
    '0' <= c <= '9' || 'a' <= c <= 'f'
  }

  /** A character that may not stand for itself in a canonical text, quotes and backslashes aside. */
  predicate Unsafe(c: char) {
    c as int < 32 || c in {'<', '>', '&', '\U{2028}', '\U{2029}'}
  }

  /** How each character is written: two characters for the seven short forms, a code of four lower-case digits
      for the other unsafe ones, and itself otherwise. */
  lemma EscapeForm(c: char)
    ensures var r, short := EscapeChar(c), {'"', '\\', '\U{8}', '\U{C}', '\n', '\r', '\t'};
      if c in short then |r| == 2 && r[0] == '\\'
      else if Unsafe(c) then |r| == 6 && r[0] == '\\' && r[1] == 'u' && forall k | 2 <= k < 6 :: LowerHex(r[k])
      else r == [c]
  {
  }

  /** No unsafe character is left in an escaped text. */
  lemma {:induction false} EscapedIsSafe(s: string)
    ensures forall c | c in Escaped(s) :: !Unsafe(c)
  {
    hide EscapeChar;
    if s != "" {
      EscapedIsSafe(s[1..]);
      EscapeIsSafe(s[0]);
    }
  }

  lemma EscapeIsSafe(c: char)
    ensures forall k | k in EscapeChar(c) :: !Unsafe(k)
  {
    EscapeForm(c);
  }
}
