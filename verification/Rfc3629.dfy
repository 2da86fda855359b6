/** UTF-8 decoding as section 3 of RFC 3629 defines it, and how the editor's encoder relates to it. */
module Rfc3629 {
  import opened Options
  import opened Passwords
  import opened Unicode
  import opened Sextets

  /** The code points that UTF-8 encodes: surrogates are excluded, and U+10FFFF is the last. */
  predicate Scalar(c: Code) {
    c <= 0x10ffff && !(0xd800 <= c <= 0xdfff)
  }

  /** Decoding the first character by the table of section 3, which forbids sequences longer than needed. */
  function DecodeFirst(s: seq<Byte>): Option<(Code, nat)> {
    if s == [] then None
    else
      var b := s[0] as int;
      if b < 0x80 then Some((b, 1))
      else if 0xc0 <= b < 0xe0 then Decoded(s, 2, b - 0xc0, 0x80)
      else if 0xe0 <= b < 0xf0 then Decoded(s, 3, b - 0xe0, 0x800)
      else if 0xf0 <= b < 0xf8 then Decoded(s, 4, b - 0xf0, 0x10000)
      else None
  }

  function Decoded(s: seq<Byte>, size: nat, high: nat, least: nat): Option<(Code, nat)>
    requires 2 <= size <= 4 && high < 0x20
  {
    if |s| < size || !(forall k :: 1 <= k < size ==> Continuation(s[k])) then None
    else
      var value := Joined(s, size, high);
      if least <= value && Scalar(value) then Some((value, size)) else None
  }

  /** Decoding gives back what was encoded exactly for the scalar values. */
  lemma DecodeEncode(ch: Code, rest: seq<Byte>)
    ensures DecodeFirst(Encode(ch) + rest) == Some((ch, ChSize(ch))) <==> Scalar(ch)
  {
    var s := Encode(ch) + rest;
    if ch < 0x80 {
    } else if ch < 0x800 {
      JoinedTwo(ch, s);
      hide Joined, Encode;
    } else if ch < 0x10000 {
      JoinedThree(ch, s);
      hide Joined, Encode;
    } else if ch < 0x200000 {
      JoinedFour(ch, s);
      hide Joined, Encode;
    }
  }

  /** Only what the encoder would have written is decoded. */
  lemma EncodeDecode(s: seq<Byte>)
    requires DecodeFirst(s).Some?
    ensures var (ch, n) := DecodeFirst(s).value;
            Scalar(ch) && n == ChSize(ch) && n <= |s| && s[..n] == Encode(ch)
  {
    var (ch, n) := DecodeFirst(s).value;
    if n == 1 {
      assert s[..1] == Encode(ch);
    } else {
      var high := s[0] as int - (if n == 2 then 0xc0 else if n == 3 then 0xe0 else 0xf0);
      assert ch == Joined(s, n, high);
      JoinedBelow(s, n, high);
      EncodeJoined(s, n, high);
    }
  }

  // ----- strings

  function Decode(s: seq<Byte>): Option<seq<Code>>
    decreases |s|
  {
    if s == [] then Some([])
    else if DecodeFirst(s).None? then None
    else
      var (ch, n) := DecodeFirst(s).value;
      if n == 0 || n > |s| then None
      else
        var rest := Decode(s[n..]);
        if rest.None? then None else Some([ch] + rest.value)
  }

  lemma NothingEncoded()
    ensures Decode(EncodeAll([])) == Some([])
  {
  }

  lemma EncodeSize(ch: Code)
    ensures |Encode(ch)| == ChSize(ch) > 0
  {
  }

  lemma DecodeMore(s: seq<Byte>, ch: Code, n: nat, rest: seq<Code>)
    requires 0 < n <= |s| && DecodeFirst(s) == Some((ch, n)) && Decode(s[n..]) == Some(rest)
    ensures Decode(s) == Some([ch] + rest)
  {
    hide DecodeFirst;
  }

  /** Different sequences of scalar values have different encodings, and each can be read back. */
  lemma {:induction false} DecodeEncodeAll(chars: seq<Code>)
    requires forall i :: 0 <= i < |chars| ==> Scalar(chars[i])
    ensures Decode(EncodeAll(chars)) == Some(chars)
  {
    hide Encode, EncodeAll, DecodeFirst, Scalar, ChSize, Decode;
    if chars == [] {
      NothingEncoded();
    } else {
      var rest := EncodeAll(chars[1..]);
      EncodeAllFirst(chars);
      EncodeSize(chars[0]);
      DecodeEncode(chars[0], rest);
      DecodeEncodeAll(chars[1..]);
      assert (Encode(chars[0]) + rest)[ChSize(chars[0])..] == rest;
      DecodeMore(Encode(chars[0]) + rest, chars[0], ChSize(chars[0]), chars[1..]);
      assert [chars[0]] + chars[1..] == chars;
    }
  }

  /** The same buffer never stands for two different strings of scalar values. */
  lemma HoldsUnique(buffer: seq<Byte>, len: nat, a: seq<Code>, b: seq<Code>)
    requires Holds(buffer, len, a) && Holds(buffer, len, b)
    requires forall i :: 0 <= i < |a| ==> Scalar(a[i])
    requires forall i :: 0 <= i < |b| ==> Scalar(b[i])
    ensures a == b
  {
    DecodeEncodeAll(a);
    DecodeEncodeAll(b);
    hide EncodeAll, Decode;
  }
}
