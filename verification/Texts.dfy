/** Text conventions shared by the models: trimming, and lowercase SHA-256 digests. */
module Texts {

  /** A value or its absence; usable with `:-`, where `None` stands for an aborted statement. */
  datatype Option<+T> = None | Some(value: T) {
    predicate IsFailure() { None? }
    function PropagateFailure<U>(): Option<U>
      requires None?
    {
      None
    }
    function Extract(): T
      requires Some?
    {
      value
    }
  }

  /** The characters that Python's `str.strip` removes. */
  predicate IsSpace(c: char) {
    var n := c as int;
    || 0x09 <= n <= 0x0d || 0x1c <= n <= 0x20 || n == 0x85 || n == 0xa0 || n == 0x1680
    || 0x2000 <= n <= 0x200a || 0x2028 <= n <= 0x2029 || n == 0x202f || n == 0x205f || n == 0x3000
  }

  /** They are 29 code points. */
  lemma SpacesAre(c: char)
    ensures IsSpace(c) <==> c as int in {
      9, 10, 11, 12, 13, 28, 29, 30, 31, 32, 133, 160, 5760, 8192, 8193, 8194, 8195, 8196, 8197, 8198, 8199, 8200, 8201,
      8202, 8232, 8233, 8239, 8287, 12288}
  {
  }

  function StripLeft(s: string): string {
    if s != "" && IsSpace(s[0]) then StripLeft(s[1..]) else s
  }

  function StripRight(s: string): string {
    if s != "" && IsSpace(s[|s| - 1]) then StripRight(s[..|s| - 1]) else s
  }

  function Strip(s: string): string {
    StripRight(StripLeft(s))
  }

  predicate Trimmed(s: string) {
    s != "" && !IsSpace(s[0]) && !IsSpace(s[|s| - 1])
  }

  predicate IsHex(c: char) {
    '0' <= c <= '9' || 'a' <= c <= 'f'
  }

  predicate IsSha256(s: string) {
    |s| == 64 && forall i :: 0 <= i < 64 ==> IsHex(s[i])
  }

  lemma HexIsLower(s: string)
    ensures IsSha256(s) <==> |s| == 64 && forall i :: 0 <= i < |s| ==> s[i] in "0123456789abcdef"
  {
    assert forall c: char :: c in "0123456789abcdef" <==> '0' <= c <= '9' || 'a' <= c <= 'f';
  }

  type Digest = s: string | IsSha256(s) witness seq(64, _ => '0')

  lemma TrimmedIsStripped(s: string)
    requires Trimmed(s)
    ensures Strip(s) == s
  {
  }

  lemma DigestIsTrimmed(s: string)
    requires IsSha256(s)
    ensures Trimmed(s) && Strip(s) == s
  {
    assert IsHex(s[0]) && IsHex(s[|s| - 1]);
  }

  /** What remains after trimming is either empty or trimmed. */
  lemma {:induction false} StripTrims(s: string)
    ensures Strip(s) == "" || Trimmed(Strip(s))
  {
    StripLeftTrims(s);
    StripRightTrims(StripLeft(s));
  }

  /** Stripping removes spaces at both ends, and nothing else. */
  lemma StripRemovesSpaces(s: string) returns (i: nat, j: nat)
    ensures i <= j <= |s| && Strip(s) == s[i..j]
    ensures forall k :: (0 <= k < i || j <= k < |s|) ==> IsSpace(s[k])
  {
    i := StripLeftDrops(s);
    var t := StripLeft(s);
    var n := StripRightDrops(t);
    j := i + n;
    assert t == s[i..] && t[..n] == s[i..j];
    forall k | j <= k < |s| ensures IsSpace(s[k]) {
      assert s[k] == t[k - i];
    }
  }

  lemma {:induction false} StripLeftDrops(s: string) returns (i: nat)
    ensures i <= |s| && StripLeft(s) == s[i..] && forall k :: 0 <= k < i ==> IsSpace(s[k])
    decreases |s|
  {
    if s != "" && IsSpace(s[0]) {
      var j := StripLeftDrops(s[1..]);
      i := j + 1;
      assert s[1..][j..] == s[i..];
      forall k | 0 <= k < i ensures IsSpace(s[k]) {
        if k > 0 {
          assert s[k] == s[1..][k - 1];
        }
      }
    } else {
      i := 0;
    }
  }

  lemma {:induction false} StripRightDrops(s: string) returns (n: nat)
    ensures n <= |s| && StripRight(s) == s[..n] && forall k :: n <= k < |s| ==> IsSpace(s[k])
    decreases |s|
  {
    n := |s|;
    if s != "" && IsSpace(s[|s| - 1]) {
      n := StripRightDrops(s[..|s| - 1]);
      forall k | n <= k < |s| ensures IsSpace(s[k]) {
        if k < |s| - 1 {
          assert s[k] == s[..|s| - 1][k];
        }
      }
    }
  }

  /** Trimming twice is trimming once. */
  lemma StripAgain(s: string)
    ensures Strip(Strip(s)) == Strip(s)
  {
    StripTrims(s);
    if Strip(s) != "" {
      TrimmedIsStripped(Strip(s));
    }
  }

  lemma {:induction false} StripLeftTrims(s: string)
    ensures StripLeft(s) == "" || !IsSpace(StripLeft(s)[0])
    decreases |s|
  {
    if s != "" && IsSpace(s[0]) {
      StripLeftTrims(s[1..]);
    }
  }

  lemma {:induction false} StripRightTrims(s: string)
    ensures StripRight(s) == "" || !IsSpace(StripRight(s)[|StripRight(s)| - 1])
    ensures StripRight(s) <= s
    decreases |s|
  {
    if s != "" && IsSpace(s[|s| - 1]) {
      StripRightTrims(s[..|s| - 1]);
    }
  }

  // ---- Decimal numerals ---------------------------------------------------------------------------------------------

  function Digits(n: nat): string {
    if n < 10 then ['0' + n as char] else Digits(n / 10) + ['0' + (n % 10) as char]
  }

  function Decimal(n: int): string {
    if n < 0 then "-" + Digits(-n) else Digits(n)
  }

  lemma DigitsNotEmpty(n: nat)
    ensures |Digits(n)| >= 1
  {
  }

  lemma {:induction false} DigitsInjective(m: nat, n: nat)
    requires Digits(m) == Digits(n)
    ensures m == n
    decreases m
  {
    if m >= 10 && n >= 10 {
      var s, t := Digits(m), Digits(n);
      assert s[..|s| - 1] == Digits(m / 10) && t[..|t| - 1] == Digits(n / 10);
      DigitsInjective(m / 10, n / 10);
    } else if m >= 10 {
      DigitsNotEmpty(m / 10);
    } else if n >= 10 {
      DigitsNotEmpty(n / 10);
    }
  }

  // ---- Order --------------------------------------------------------------------------------------------------------

  /** Code point order: the order of sorted keys, and of text columns that SQL compares. */
  predicate Before(a: string, b: string) {
    if b == "" then false else if a == "" then true else if a[0] == b[0] then Before(a[1..], b[1..]) else a[0] < b[0]
  }

  /** The texts agree up to place `n`, where the first ends or has the smaller character. */
  predicate LessAt(a: string, b: string, n: nat) {
    n <= |a| && n < |b| && a[..n] == b[..n] && (n == |a| || a[n] < b[n])
  }

  /** Code point order is decided at the first place where the texts differ, or by one of them ending. */
  lemma {:induction false} BeforeMeans(a: string, b: string)
    ensures Before(a, b) <==> exists n :: LessAt(a, b, n)
    decreases |a|
  {
    if a != "" && b != "" && a[0] == b[0] {
      BeforeMeans(a[1..], b[1..]);
      if n: nat :| LessAt(a[1..], b[1..], n) {
        assert a[..n + 1] == [a[0]] + a[1..][..n] && b[..n + 1] == [b[0]] + b[1..][..n];
        assert LessAt(a, b, n + 1);
      }
      if n: nat :| LessAt(a, b, n) {
        assert n > 0 && a[1..][..n - 1] == a[..n][1..] && b[1..][..n - 1] == b[..n][1..];
        assert LessAt(a[1..], b[1..], n - 1);
      }
    } else if Before(a, b) {
      assert LessAt(a, b, 0);
    } else {
      forall n: nat | LessAt(a, b, n) ensures n == 0 {
        SameStart(a, b, n);
      }
    }
  }

  lemma SameStart(a: string, b: string, n: nat)
    ensures LessAt(a, b, n) && n > 0 ==> a[0] == b[0]
  {
    if LessAt(a, b, n) && n > 0 {
      assert a[..n][0] == b[..n][0];
    }
  }

  lemma {:induction false} BeforeTotal(a: string, b: string)
    ensures a == b || Before(a, b) || Before(b, a)
    ensures !(Before(a, b) && (Before(b, a) || a == b))
    decreases |a|
  {
    if a != "" && b != "" && a[0] == b[0] {
      BeforeTotal(a[1..], b[1..]);
      assert a == [a[0]] + a[1..] && b == [b[0]] + b[1..];
    }
  }

  lemma {:induction false} BeforeTransitive(a: string, b: string, c: string)
    requires Before(a, b) && Before(b, c)
    ensures Before(a, c)
    decreases |a|
  {
    if a != "" && a[0] == b[0] == c[0] {
      BeforeTransitive(a[1..], b[1..], c[1..]);
    }
  }

  /** Texts of equal length are compared before what follows them. */
  lemma {:induction false} BeforeConcat(a: string, b: string, x: string, y: string)
    requires |a| == |b|
    ensures Before(a + x, b + y) <==> Before(a, b) || (a == b && Before(x, y))
    decreases |a|
  {
    if a == "" {
      assert a + x == x && b + y == y;
    } else {
      assert (a + x)[1..] == a[1..] + x && (b + y)[1..] == b[1..] + y;
      BeforeConcat(a[1..], b[1..], x, y);
      assert a == [a[0]] + a[1..] && b == [b[0]] + b[1..];
    }
  }
}
