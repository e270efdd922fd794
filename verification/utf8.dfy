/** UTF-8 encoding of a string, as `getBytes(UTF_8)` produces it, and the
    gzip magic number that GZIPInputStream expects at the start of a stream. */
module Utf8 {

  type Byte = b: int | 0 <= b < 256

  /** The UTF-8 bytes of one Unicode scalar value. */
  function EncodeChar(c: char): (bytes: seq<Byte>)
    ensures 1 <= |bytes| <= 4
    ensures |bytes| == 1 <==> (c as int) < 0x80
  {
    var n := c as int;
    if n < 0x80 then [n]
    else if n < 0x800 then [0xC0 + n / 64, 0x80 + n % 64]
    else if n < 0x10000 then [0xE0 + n / 4096, 0x80 + (n / 64) % 64, 0x80 + n % 64]
    else [0xF0 + n / 262144, 0x80 + (n / 4096) % 64, 0x80 + (n / 64) % 64, 0x80 + n % 64]
  }

  /** The UTF-8 bytes of a string, character after character. */
  function Encode(s: string): (bytes: seq<Byte>)
    decreases |s|
  {
    if s == [] then [] else EncodeChar(s[0]) + Encode(s[1..])
  }

  /** Encoding distributes over concatenation, so a payload's bytes are the
      records' bytes one after another. */
  lemma {:induction false} EncodeAppend(a: string, b: string)
    ensures Encode(a + b) == Encode(a) + Encode(b)
    decreases |a|
  {
    if a == [] {
      assert a + b == b;
    } else {
      assert (a + b)[0] == a[0];
      assert (a + b)[1..] == a[1..] + b;
      EncodeAppend(a[1..], b);
    }
  }

  /** Every character takes at least one byte, and exactly one byte iff it is
      ASCII; so the byte length equals the character count iff the string
      is all ASCII. */
  lemma {:induction false} EncodeLength(s: string)
    ensures |Encode(s)| >= |s|
    ensures |Encode(s)| == |s| <==> forall k :: 0 <= k < |s| ==> (s[k] as int) < 0x80
    decreases |s|
  {
    if s != [] {
      EncodeLength(s[1..]);
      assert forall k :: 1 <= k < |s| ==> s[k] == s[1..][k - 1];
    }
  }

  /** The first byte of an encoded character is never a continuation byte
      (0x80 to 0xBF). */
  lemma LeadByte(c: char)
    ensures !(0x80 <= EncodeChar(c)[0] < 0xC0)
  {
  }

  /** GZIPInputStream's header check: the stream starts with 0x1f 0x8b. */
  predicate HasGzipMagic(bytes: seq<Byte>)
  {
    |bytes| >= 2 && bytes[0] == 0x1f && bytes[1] == 0x8b
  }

  /** No UTF-8 encoded text starts with the gzip magic number: 0x1f is a
      one-byte character, so the next byte leads a character and cannot be
      the continuation byte 0x8b. */
  lemma NoTextHasGzipMagic(s: string)
    ensures !HasGzipMagic(Encode(s))
  {
    if |s| == 1 {
      assert s[1..] == [];
      assert Encode(s) == EncodeChar(s[0]);
    } else if |s| >= 2 {
      var first := EncodeChar(s[0]);
      assert Encode(s[1..]) == EncodeChar(s[1]) + Encode(s[2..]) by {
        assert s[1..][0] == s[1] && s[1..][1..] == s[2..];
      }
      assert Encode(s) == first + EncodeChar(s[1]) + Encode(s[2..]);
      if first[0] == 0x1f {
        assert |first| == 1;
        assert Encode(s)[1] == EncodeChar(s[1])[0];
        LeadByte(s[1]);
      }
    }
  }
}
