/** Base16 text (section 8 of RFC 4648) as the core produces and reads it:
    `hashlib`'s `hexdigest()` writes two lower-case digits per byte, and
    CPython's `bytes.fromhex` reads pairs of digits of either case, skipping
    ASCII whitespace before each pair and raising ValueError on anything else. */
module Hex {
  import opened Base

  predicate IsHexDigit(c: char)
  {
    ('0' <= c <= '9') || ('a' <= c <= 'f') || ('A' <= c <= 'F')
  }

  /** A digit as `hexdigest()` writes it. */
  predicate IsLowerDigit(c: char)
  {
    ('0' <= c <= '9') || ('a' <= c <= 'f')
  }

  /** The characters CPython's `bytes.fromhex` skips between pairs. */
  predicate IsPySpace(c: char)
  {
    c == ' ' || c == '\t' || c == '\n' || c == '\r' || c == '\U{B}' || c == '\U{C}'
  }

  function DigitValue(c: char): (d: nat)
    requires IsHexDigit(c)
    ensures d < 16
  {
    if '0' <= c <= '9' then (c as int) - ('0' as int)
    else if 'a' <= c <= 'f' then (c as int) - ('a' as int) + 10
    else (c as int) - ('A' as int) + 10
  }

  /** The lower-case digit of a value below 16. */
  function Digit(d: nat): (c: char)
    requires d < 16
    ensures IsLowerDigit(c) && IsHexDigit(c) && DigitValue(c) == d
  {
    if d < 10 then (('0' as int) + d) as char else (('a' as int) + d - 10) as char
  }

  /** Every lower-case digit is the one `Digit` writes for its value. */
  lemma LowerDigitCanonical(c: char)
    requires IsLowerDigit(c)
    ensures IsHexDigit(c) && Digit(DigitValue(c)) == c
  {
  }

  /** `bytes.hex()` / `hexdigest()`: two lower-case digits per byte, high nibble first. */
  function HexEncode(b: seq<uint8>): string
  {
    if b == [] then []
    else [Digit(b[0] as nat / 16), Digit(b[0] as nat % 16)] + HexEncode(b[1..])
  }

  /** `bytes.fromhex(s)`. */
  function FromHex(s: string): Result<seq<uint8>>
    decreases |s|
  {
    if s == [] then Success([])
    else if IsPySpace(s[0]) then FromHex(s[1..])
    else if |s| < 2 || !IsHexDigit(s[0]) || !IsHexDigit(s[1]) then Failure(InvalidHex)
    else
      var rest :- FromHex(s[2..]);
      Success([PairValue(s[0], s[1])] + rest)
  }

  /** The byte a pair of digits stands for, high digit first. */
  function PairValue(hi: char, lo: char): (b: uint8)
    requires IsHexDigit(hi) && IsHexDigit(lo)
    ensures b as nat / 16 == DigitValue(hi) && b as nat % 16 == DigitValue(lo)
  {
    (16 * DigitValue(hi) + DigitValue(lo)) as uint8
  }

  /** One pair of digits read off the front of the text. */
  lemma PairStep(s: string)
    requires |s| >= 2 && IsHexDigit(s[0]) && IsHexDigit(s[1]) && !IsPySpace(s[0])
    ensures FromHex(s).Success? <==> FromHex(s[2..]).Success?
    ensures FromHex(s).Success? ==> FromHex(s).value == [PairValue(s[0], s[1])] + FromHex(s[2..]).value
  {
  }

  /** Text made only of lower-case hex digits, the form `hexdigest()` returns. */
  predicate IsLowerHex(s: string)
  {
    forall i :: 0 <= i < |s| ==> IsLowerDigit(s[i])
  }

  lemma {:induction false} HexEncodeShape(b: seq<uint8>)
    ensures |HexEncode(b)| == 2 * |b|
    ensures IsLowerHex(HexEncode(b))
  {
    if b != [] {
      HexEncodeShape(b[1..]);
      var s := HexEncode(b);
      assert s[2..] == HexEncode(b[1..]);
      forall i | 2 <= i < |s| ensures IsLowerDigit(s[i]) {
        assert s[i] == HexEncode(b[1..])[i - 2];
      }
    }
  }

  /** Decoding what `hexdigest()` wrote gives back the bytes. */
  lemma {:induction false} HexRoundTrip(b: seq<uint8>)
    ensures FromHex(HexEncode(b)) == Success(b)
  {
    if b != [] {
      HexRoundTrip(b[1..]);
      var s := HexEncode(b);
      var hi, lo := b[0] as nat / 16, b[0] as nat % 16;
      assert s[0] == Digit(hi) && s[1] == Digit(lo);
      assert s[2..] == HexEncode(b[1..]);
      assert !IsPySpace(s[0]);
      assert PairValue(s[0], s[1]) == b[0];
      assert [b[0]] + b[1..] == b;
    }
  }

  /** Lower-case hex text decodes exactly when its length is even, and then
      it is the `hexdigest()` of what it decodes to. */
  lemma {:induction false} LowerHexDecodes(s: string)
    requires IsLowerHex(s)
    ensures FromHex(s).Success? <==> |s| % 2 == 0
    ensures FromHex(s).Success? ==> HexEncode(FromHex(s).value) == s && 2 * |FromHex(s).value| == |s|
  {
    if |s| == 1 {
      assert IsLowerDigit(s[0]);
    } else if |s| >= 2 {
      var t := s[2..];
      LowerHexTail(s);
      LowerHexDecodes(t);
      PairStep(s);
      if FromHex(t).Success? {
        PairEncodes(s[0], s[1]);
        var bs := FromHex(s).value;
        assert bs[1..] == FromHex(t).value;
        assert HexEncode(bs) == [s[0], s[1]] + t;
      }
    }
  }

  lemma LowerHexTail(s: string)
    requires IsLowerHex(s) && |s| >= 2
    ensures IsLowerDigit(s[0]) && IsLowerDigit(s[1]) && !IsPySpace(s[0]) && IsLowerHex(s[2..])
  {
    assert IsLowerDigit(s[0]) && IsLowerDigit(s[1]);
    var t := s[2..];
    forall i | 0 <= i < |t| ensures IsLowerDigit(t[i]) {
      assert t[i] == s[i + 2];
    }
  }

  /** `hexdigest()` writes a pair of lower-case digits back as it was. */
  lemma PairEncodes(hi: char, lo: char)
    requires IsLowerDigit(hi) && IsLowerDigit(lo)
    ensures Digit(PairValue(hi, lo) as nat / 16) == hi && Digit(PairValue(hi, lo) as nat % 16) == lo
  {
    LowerDigitCanonical(hi);
    LowerDigitCanonical(lo);
  }

  /** Any character that is neither a hex digit nor whitespace makes
      `bytes.fromhex` raise ValueError. */
  lemma {:induction false} StrayCharacterFails(s: string, k: nat)
    requires k < |s| && !IsHexDigit(s[k]) && !IsPySpace(s[k])
    ensures FromHex(s) == Failure(InvalidHex)
  {
    if IsPySpace(s[0]) {
      StrayCharacterFails(s[1..], k - 1);
    } else if |s| >= 2 && IsHexDigit(s[0]) && IsHexDigit(s[1]) {
      StrayCharacterFails(s[2..], k - 2);
    }
  }

  /** Whitespace after any whole number of digit pairs is skipped: the text
      decodes as if the character were not there. */
  lemma {:induction false} SpaceBetweenPairs(a: string, c: char, b: string)
    requires IsLowerHex(a) && |a| % 2 == 0 && IsPySpace(c)
    ensures FromHex(a + [c] + b) == FromHex(a + b)
    decreases |a|
  {
    if a == [] {
      assert a + [c] + b == [c] + b && ([c] + b)[1..] == b && a + b == b;
    } else {
      var s := a + [c] + b;
      var t := a + b;
      assert IsLowerDigit(a[0]) && IsLowerDigit(a[1]);
      assert s[0] == t[0] == a[0] && s[1] == t[1] == a[1];
      assert s[2..] == a[2..] + [c] + b && t[2..] == a[2..] + b;
      assert IsLowerHex(a[2..]) by {
        forall i | 0 <= i < |a[2..]| ensures IsLowerDigit(a[2..][i]) {
          assert a[2..][i] == a[i + 2];
        }
      }
      SpaceBetweenPairs(a[2..], c, b);
    }
  }

  /** An example of the skip: "ab cd" decodes like "abcd". */
  lemma SpacedPairsDecode()
    ensures FromHex("ab cd") == FromHex("abcd") == Success([0xab as uint8, 0xcd as uint8])
  {
    assert PairValue('a', 'b') == 0xab;
    assert PairValue('c', 'd') == 0xcd;
    PairStep("cd");
    assert "cd"[2..] == [];
    assert FromHex([]) == Success([]);
    assert FromHex("cd").Success?;
    var cd: seq<uint8> := [PairValue('c', 'd')] + [];
    assert FromHex("cd").value == cd;
    assert cd == [0xcd as uint8];
    assert FromHex("cd") == Success([0xcd as uint8]);
    assert " cd"[1..] == "cd";
    assert FromHex(" cd") == FromHex("cd");
    PairStep("abcd");
    PairStep("ab cd");
    assert "abcd"[2..] == "cd" && "ab cd"[2..] == " cd";
    var abcd: seq<uint8> := [PairValue('a', 'b')] + cd;
    assert abcd == [0xab as uint8, 0xcd as uint8];
    assert FromHex("abcd").value == abcd;
    assert FromHex("ab cd").value == abcd;
  }

  /** A digest written by `hexdigest()` is 64 lower-case hex characters. */
  lemma DigestText(h: Hash32)
    ensures |HexEncode(h)| == 64 && IsLowerHex(HexEncode(h))
  {
    HexEncodeShape(h);
  }
}
