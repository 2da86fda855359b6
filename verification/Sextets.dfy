/** The arithmetic of UTF-8's continuation bytes: six bits at a time. */
module Sextets {
  import opened Unicode

  /** Six more bits behind those read so far. */
  function Join(high: nat, b: Byte): (v: nat)
    ensures v / 0x40 == high && v % 0x40 == b as int % 0x40
  {
    high * 0x40 + b as int % 0x40
  }

  /** The six low bits of each continuation byte behind the bits of the first. */
  function Joined(s: seq<Byte>, size: nat, high: nat): (v: nat)
    requires 2 <= size <= 4 && size <= |s| && high < 0x20
    ensures v < 0x1_0000_0000
  {
    if size == 2 then Join(high, s[1])
    else if size == 3 then Join(Join(high, s[1]), s[2])
    else Join(Join(Join(high, s[1]), s[2]), s[3])
  }

  lemma JoinTrail(ch: Code)
    ensures Join(ch / 0x40, Trail(ch)) == ch
  {
  }

  lemma TrailJoin(high: nat, b: Byte)
    requires Continuation(b) && Join(high, b) < 0x1_0000_0000
    ensures Trail(Join(high, b)) == b
  {
  }

  lemma ShiftTwice(ch: Code)
    ensures ch / 0x40 / 0x40 == ch / 0x1000 && ch / 0x1000 / 0x40 == ch / 0x40000
  {
  }

  lemma JoinedTwo(ch: Code, s: seq<Byte>)
    requires Encode(ch) <= s && 0x80 <= ch < 0x800
    ensures |s| >= 2 && Continuation(s[1]) && s[0] as int == 0xc0 + ch / 0x40 && Joined(s, 2, ch / 0x40) == ch
  {
    assert s[0] == Encode(ch)[0] && s[1] == Encode(ch)[1];
    JoinTrail(ch);
    hide Trail, Join;
  }

  lemma JoinedThree(ch: Code, s: seq<Byte>)
    requires Encode(ch) <= s && 0x800 <= ch < 0x10000
    ensures |s| >= 3 && Continuation(s[1]) && Continuation(s[2])
    ensures s[0] as int == 0xe0 + ch / 0x1000 && Joined(s, 3, ch / 0x1000) == ch
  {
    hide Trail, Join;
    assert s[0] == First(ch / 0x1000, 3) && s[1] == Trail(ch / 0x40) && s[2] == Trail(ch);
    hide Encode;
    ShiftTwice(ch);
    JoinTrail(ch);
    JoinTrail(ch / 0x40);
  }

  lemma JoinedFour(ch: Code, s: seq<Byte>)
    requires Encode(ch) <= s && 0x10000 <= ch < 0x200000
    ensures |s| >= 4 && Continuation(s[1]) && Continuation(s[2]) && Continuation(s[3])
    ensures s[0] as int == 0xf0 + ch / 0x40000 && ch / 0x40000 < 8 && Joined(s, 4, ch / 0x40000) == ch
  {
    hide Trail, Join;
    assert s[0] == First(ch / 0x40000, 4) && s[1] == Trail(ch / 0x1000) && s[2] == Trail(ch / 0x40) && s[3] == Trail(ch);
    hide Encode;
    ShiftTwice(ch);
    JoinTrail(ch);
    JoinTrail(ch / 0x40);
    JoinTrail(ch / 0x1000);
  }

  /** Joined bytes are what the encoder writes for the joined value, if it is long enough. */
  lemma EncodeJoined(s: seq<Byte>, size: nat, high: nat)
    requires 2 <= size <= 4 && size <= |s| && high < 0x20
    requires forall k :: 1 <= k < size ==> Continuation(s[k])
    requires ChSize(Joined(s, size, high)) == size
    requires s[0] == First(high, size) && (size > 2 ==> high < 0x10)
    ensures s[..size] == Encode(Joined(s, size, high))
  {
    var ch := Joined(s, size, high);
    var v1 := Join(high, s[1]);
    TrailJoin(high, s[1]);
    ShiftTwice(ch);
    if size > 2 {
      var v2 := Join(v1, s[2]);
      TrailJoin(v1, s[2]);
      if size > 3 {
        TrailJoin(v2, s[3]);
      }
    }
    hide Trail, Join, First;
  }

  lemma JoinedBelow(s: seq<Byte>, size: nat, high: nat)
    requires 2 <= size <= 4 && size <= |s| && high < 0x20
    ensures size == 2 ==> Joined(s, size, high) < 0x800
    ensures size == 3 && high < 0x10 ==> Joined(s, size, high) < 0x10000
  {
  }
}
