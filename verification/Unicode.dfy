/** UTF-8 as the password editor writes and scans it. Bytes and
    code points are numbers: `c & 0x3f` is `c % 0x40`, `c >> 6` is `c / 0x40`, and or-ing a marker onto
    bits it leaves free is addition. */
module Unicode {
  newtype Byte = x: int | 0 <= x < 0x100
  type Code = x: int | 0 <= x < 0x1_0000_0000

  /** `utf8_chsize()`. */
  function ChSize(ch: Code): nat {
    if ch < 0x80 then 1 else if ch < 0x800 then 2 else if ch < 0x10000 then 3 else 4
  }

  /** A byte that is not the first of its character: `(b & 0xc0) == 0x80`. */
  predicate Continuation(b: Byte) {
    b / 0x40 == 2
  }

  function Trail(ch: Code): (b: Byte)
    ensures Continuation(b)
  {
    (ch % 0x40 + 0x80) as Byte
  }

  /** The first byte, from what the shifts left of the code and the marker: or-ed, then cut to a byte. */
  function First(rest: Code, size: nat): (b: Byte)
    requires 1 <= size <= 4
    ensures !Continuation(b)
    ensures size == 1 && 0 < rest < 0x80 ==> b != 0
    ensures size > 1 ==> b != 0
  {
    if size == 1 then (rest % 0x80) as Byte
    else if size == 2 then (0xc0 + rest % 0x20) as Byte
    else if size == 3 then (0xe0 + rest % 0x10) as Byte
    else (0xf0 + rest % 0x10) as Byte
  }

  /** What `utf8_encode()` writes, for every 32-bit value. */
  function Encode(ch: Code): (s: seq<Byte>)
    ensures |s| == ChSize(ch)
  {
    if ch < 0x80 then [First(ch, 1)]
    else if ch < 0x800 then [First(ch / 0x40, 2), Trail(ch)]
    else if ch < 0x10000 then [First(ch / 0x1000, 3), Trail(ch / 0x40), Trail(ch)]
    else [First(ch / 0x40000, 4), Trail(ch / 0x1000), Trail(ch / 0x40), Trail(ch)]
  }

  // ----- the loop that writes it

  /** What `n` shifts by six leave of a code. */
  function Shifted(ch: Code, n: nat): Code {
    if n == 0 then ch else Shifted(ch, n - 1) / 0x40
  }

  lemma EncodeByShifts(ch: Code)
    ensures var n := ChSize(ch);
            && Encode(ch)[0] == First(Shifted(ch, n - 1), n)
            && forall k :: 0 < k < n ==> Encode(ch)[k] == Trail(Shifted(ch, n - 1 - k))
  {
    assert Shifted(ch, 1) == ch / 0x40;
    assert Shifted(ch, 2) == Shifted(ch, 1) / 0x40 == ch / 0x1000;
    assert Shifted(ch, 3) == Shifted(ch, 2) / 0x40 == ch / 0x40000;
  }

  /** `utf8_encode()`: from the last byte to the second, then the first. */
  method Utf8Encode(str: array<Byte>, at: nat, code: Code) returns (len: nat)
    requires at + ChSize(code) <= str.Length
    modifies str
    ensures len == ChSize(code)
    ensures str[at..at + len] == Encode(code)
    ensures forall k :: 0 <= k < str.Length && !(at <= k < at + len) ==> str[k] == old(str[k])
  {
    if code < 0x80 {
      len := 1;
    } else if code < 0x800 {
      len := 2;
    } else if code < 0x10000 {
      len := 3;
    } else {
      len := 4;
    }
    EncodeByShifts(code);
    ghost var bytes := Encode(code);
    assert len == ChSize(code);
    hide Trail, First, Encode, ChSize;
    var ch := code;
    var i := len - 1;
    while i > 0
      invariant 0 <= i < len && ch == Shifted(code, len - 1 - i)
      invariant forall k :: at + i < k < at + len ==> str[k] == bytes[k - at]
      invariant forall k :: 0 <= k < str.Length && !(at + i < k < at + len) ==> str[k] == old(str[k])
    {
      str[at + i] := Trail(ch);
      ch := ch / 0x40;
      i := i - 1;
    }
    str[at] := First(ch, len);
    assert str[at..at + len] == bytes;
  }

  // ----- strings

  function EncodeAll(chars: seq<Code>): seq<Byte> {
    if chars == [] then [] else EncodeAll(chars[..|chars| - 1]) + Encode(chars[|chars| - 1])
  }

  lemma EncodeAllLast(chars: seq<Code>, ch: Code)
    ensures EncodeAll(chars + [ch]) == EncodeAll(chars) + Encode(ch)
  {
    hide Encode;
    assert (chars + [ch])[..|chars|] == chars;
  }

  lemma {:induction false} EncodeAllFirst(chars: seq<Code>)
    requires chars != []
    ensures EncodeAll(chars) == Encode(chars[0]) + EncodeAll(chars[1..])
    decreases |chars|
  {
    var init, last := chars[..|chars| - 1], chars[|chars| - 1];
    var none: seq<Code> := [];
    assert EncodeAll(none) == [];
    hide Encode, EncodeAll;
    EncodeAllLast(init, last);
    assert chars == init + [last];
    if init == [] {
      assert chars[1..] == none;
    } else {
      EncodeAllFirst(init);
      EncodeAllLast(init[1..], last);
      assert chars[1..] == init[1..] + [last];
      Regroup(Encode(chars[0]), EncodeAll(init[1..]), Encode(last));
    }
  }

  lemma Regroup(a: seq<Byte>, b: seq<Byte>, c: seq<Byte>)
    ensures (a + b) + c == a + (b + c)
  {
  }

  lemma NoNul(ch: Code)
    requires ch != 0
    ensures 0 !in Encode(ch)
  {
  }

  lemma {:induction false} NoNuls(chars: seq<Code>)
    requires 0 !in chars
    ensures 0 !in EncodeAll(chars)
  {
    if chars != [] {
      NoNuls(chars[..|chars| - 1]);
      NoNul(chars[|chars| - 1]);
    }
  }

  // ----- finding the last character

  /** The length of the last character: back to the nearest byte that is no continuation, or 0. */
  function LastSize(s: seq<Byte>): (n: nat)
    ensures n <= |s|
  {
    if s == [] then 0
    else if !Continuation(s[|s| - 1]) then 1
    else
      var n := LastSize(s[..|s| - 1]);
      if n == 0 then 0 else n + 1
  }

  lemma LastSizeFound(s: seq<Byte>, n: nat)
    requires 0 < n <= |s| && !Continuation(s[|s| - n])
    requires forall k :: |s| - n < k < |s| ==> Continuation(s[k])
    ensures LastSize(s) == n
  {
    if n > 1 {
      LastSizeFound(s[..|s| - 1], n - 1);
    }
  }

  lemma LastSizeNone(s: seq<Byte>)
    requires forall k :: 0 <= k < |s| ==> Continuation(s[k])
    ensures LastSize(s) == 0
  {
  }

  lemma LastSizeEncode(s: seq<Byte>, ch: Code)
    ensures LastSize(s + Encode(ch)) == ChSize(ch)
  {
    LastSizeFound(s + Encode(ch), ChSize(ch));
  }

  /** What strchr() finds: the index of the first NUL, or the length if there is none. */
  function NulAt(s: seq<Byte>): (i: nat)
    ensures i <= |s| && (i < |s| ==> s[i] == 0)
    ensures forall k :: 0 <= k < i ==> s[k] != 0
  {
    if s == [] || s[0] == 0 then 0 else 1 + NulAt(s[1..])
  }

  /** `utf8_last_size()`: strchr() for the terminator, then back. */
  method Utf8LastSize(str: array<Byte>) returns (len: nat)
    requires 0 in str[..]
    ensures len == LastSize(str[..NulAt(str[..])])
  {
    ghost var end := NulAt(str[..]);
    assert end < str.Length by {
      var k :| 0 <= k < str.Length && str[..][k] == 0;
    }
    assert forall k :: 0 <= k < end ==> str[k] == str[..][k];
    hide NulAt;
    var pos := 0;
    while str[pos] != 0
      invariant pos <= end
      decreases end - pos
    {
      pos := pos + 1;
    }
    assert pos == end;
    len := 0;
    while pos > 0
      invariant pos + len == end
      invariant forall k :: pos <= k < end ==> Continuation(str[k])
    {
      pos, len := pos - 1, len + 1;
      if !Continuation(str[pos]) {
        LastSizeFound(str[..end], len);
        return;
      }
    }
    LastSizeNone(str[..end]);
    return 0;
  }
}
