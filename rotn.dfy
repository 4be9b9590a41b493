/**
 * The ROT-N substitution cipher: every ASCII letter is moved `displacement`
 * places forward in the alphabet, keeping its case; every other character is
 * copied unchanged.
 *
 * Java's `char` arithmetic is written out: the cipher subtracts 'a', adds the
 * displacement as an `int` (which can wrap around), takes Java's `%` (which
 * keeps the sign of the dividend), narrows to a 16-bit `char`, and adds 'a'
 * back.
 */
module RotNEncryption {
  import opened JavaInt

  predicate IsUpper(c: char) { 'A' <= c <= 'Z' }
  predicate IsLower(c: char) { 'a' <= c <= 'z' }
  predicate IsLetter(c: char) { IsUpper(c) || IsLower(c) }

  /** The largest displacement for which `index + displacement` cannot overflow an `int`. */
  const MaxDisplacement: int := MaxInt32 - 25

  function ToLower(c: char): (r: char)
    ensures IsLetter(c) ==> IsLower(r) && r as int - 'a' as int == if IsUpper(c) then c as int - 'A' as int else c as int - 'a' as int
    ensures !IsUpper(c) ==> r == c
  {
    if IsUpper(c) then (c as int + 32) as char else c
  }

  function ToUpper(c: char): (r: char)
    ensures IsLower(c) ==> IsUpper(r) && r as int - 'A' as int == c as int - 'a' as int
    ensures !IsLower(c) ==> r == c
  {
    if IsLower(c) then (c as int - 32) as char else c
  }

  /** Java's narrowing conversion of an `int` to `char`: keep the low 16 bits. */
  function ToChar16(x: int): (r: int)
    ensures 0 <= r < 0x1_0000
    ensures 0 <= x < 0x1_0000 ==> r == x
    ensures -0x1_0000 <= x < 0 ==> r == x + 0x1_0000
  {
    x % 0x1_0000
  }

  /** The position of a letter in the alphabet, 'a' and 'A' being 0. */
  function Index(c: char): (k: int)
    requires IsLetter(c)
    ensures 0 <= k < 26
  {
    ToLower(c) as int - 'a' as int
  }

  /** The letter at position `k` of the alphabet, in upper or lower case. */
  function Letter(upper: bool, k: int): (c: char)
    requires 0 <= k < 26
    ensures IsLetter(c) && IsUpper(c) == upper && Index(c) == k
  {
    if upper then ('A' as int + k) as char else ('a' as int + k) as char
  }

  /** Every letter is the letter at its own index, in its own case. */
  lemma LetterOfIndex(c: char)
    requires IsLetter(c)
    ensures Letter(IsUpper(c), Index(c)) == c
  {
  }

  /**
   * One character of the cipher. A non-letter is returned unchanged; for a
   * letter and a displacement that cannot overflow, the result is the letter
   * `displacement` places further on, modulo 26, in the same case.
   */
  function RotN(letter: char, displacement: int32): (r: char)
    ensures !IsLetter(letter) ==> r == letter
    ensures IsLetter(letter) && 0 <= displacement <= MaxDisplacement ==>
              r == Letter(IsUpper(letter), (Index(letter) + displacement) % 26)
  {
    if !IsLetter(letter) then letter
    else
      var isUpper := IsUpper(letter);
      var k := ToChar16(ToLower(letter) as int - 'a' as int);
      var rotated := ToChar16(Rem(Wrap32(k + displacement), 26));
      var code := ToChar16(rotated + 'a' as int);
      assert code == 'a' as int + Rem(Wrap32(k + displacement), 26);
      var lower := code as char;
      if isUpper then ToUpper(lower) else lower
  }

  /**
   * With a negative sum `index + displacement` that is not a multiple of 26,
   * Java's `%` is negative and a lower-case letter is sent below 'a': the
   * result is no longer a lower-case letter.
   */
  lemma NegativeDisplacementLeavesLowerCase(letter: char, displacement: int32)
    requires IsLower(letter)
    requires Index(letter) + displacement < 0
    requires Rem(Index(letter) + displacement, 26) != 0
    ensures RotN(letter, displacement) as int == 'a' as int + Rem(Index(letter) + displacement, 26)
    ensures !IsLower(RotN(letter, displacement))
  {
  }

  /** The cipher text: the characters of `s`, each rotated. */
  function Rotated(s: string, displacement: int32): string
  {
    if |s| == 0 then []
    else Rotated(s[..|s| - 1], displacement) + [RotN(s[|s| - 1], displacement)]
  }

  /**
   * `encrpyt`: appends the rotation of each character of `text` to a buffer,
   * in order.
   */
  method Encrypt(text: string, displacement: int32) returns (r: string)
    ensures r == Rotated(text, displacement)
    ensures |r| == |text|
    ensures forall i :: 0 <= i < |text| ==> r[i] == RotN(text[i], displacement)
  {
    var buffer := [];
    for i := 0 to |text|
      invariant buffer == Rotated(text[..i], displacement)
    {
      assert text[..i + 1][..i] == text[..i];
      buffer := buffer + [RotN(text[i], displacement)];
    }
    assert text[..|text|] == text;
    r := buffer;
    RotatedAt(text, displacement);
  }

  /** The cipher text has the length of the text, and position `i` holds the rotation of character `i`. */
  lemma {:induction false} RotatedAt(s: string, displacement: int32)
    ensures |Rotated(s, displacement)| == |s|
    ensures forall i :: 0 <= i < |s| ==> Rotated(s, displacement)[i] == RotN(s[i], displacement)
  {
    if |s| > 0 {
      RotatedAt(s[..|s| - 1], displacement);
    }
  }

  lemma ModAdd(x: nat, y: nat)
    ensures (x % 26 + y) % 26 == (x + y) % 26
  {
    var q := x / 26;
    assert x == 26 * q + x % 26;
    assert x + y == 26 * q + (x % 26 + y);
  }

  /** Rotating by `a` and then by `b` is rotating by `a + b`. */
  lemma RotNCompose(letter: char, a: int32, b: int32)
    requires 0 <= a && 0 <= b && a + b <= MaxDisplacement
    ensures RotN(RotN(letter, a), b) == RotN(letter, a + b)
  {
    if IsLetter(letter) {
      var k := Index(letter);
      ModAdd(k + a, b);
      assert k + a + b == k + (a + b);
    }
  }

  /** For a non-negative displacement only its remainder modulo 26 matters. */
  lemma RotNPeriodic(letter: char, d: int32, e: int32)
    requires 0 <= d <= MaxDisplacement && 0 <= e <= MaxDisplacement
    requires d % 26 == e % 26
    ensures RotN(letter, d) == RotN(letter, e)
  {
    if IsLetter(letter) {
      var k := Index(letter);
      ModAdd(d, k);
      ModAdd(e, k);
    }
  }

  /** A displacement that is a multiple of 26 (0 included) leaves every character as it was. */
  lemma RotNIdentity(letter: char, d: int32)
    requires 0 <= d <= MaxDisplacement && d % 26 == 0
    ensures RotN(letter, d) == letter
  {
    if IsLetter(letter) {
      RotNPeriodic(letter, d, 0);
      LetterOfIndex(letter);
    }
  }

  /** Rotating by `n` and then by `26 - n` restores the character. */
  lemma RotNRoundTrip(letter: char, n: int32)
    requires 0 <= n <= 26
    ensures RotN(RotN(letter, n), 26 - n) == letter
  {
    RotNCompose(letter, n, 26 - n);
    RotNIdentity(letter, 26);
  }

  /** Encrypting with `n` and then with `26 - n` restores the text. */
  lemma RotatedRoundTrip(s: string, n: int32)
    requires 0 <= n <= 26
    ensures Rotated(Rotated(s, n), 26 - n) == s
  {
    var once := Rotated(s, n);
    RotatedAt(s, n);
    RotatedAt(once, 26 - n);
    forall i | 0 <= i < |s|
      ensures Rotated(once, 26 - n)[i] == s[i]
    {
      RotNRoundTrip(s[i], n);
    }
  }

  /** Encrypting with `a` and then with `b` is encrypting with `a + b`. */
  lemma RotatedCompose(s: string, a: int32, b: int32)
    requires 0 <= a && 0 <= b && a + b <= MaxDisplacement
    ensures Rotated(Rotated(s, a), b) == Rotated(s, a + b)
  {
    var c: int32 := a + b;
    var once := Rotated(s, a);
    var twice := Rotated(once, b);
    var direct := Rotated(s, c);
    RotatedAt(s, a);
    RotatedAt(once, b);
    RotatedAt(s, c);
    forall i | 0 <= i < |s|
      ensures twice[i] == direct[i]
    {
      RotNCompose(s[i], a, b);
    }
  }
}
