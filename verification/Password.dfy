/** The password editor: a byte buffer edited in UTF-8 is a stack of code points. */
module Passwords {
  import opened Unicode

  // ----- the stack

  datatype Edit = Append(ch: Code) | Backspace | Clear

  /** Whether `append_ch()` accepts a character: two bytes of the buffer stay unused. */
  predicate Fits(chars: seq<Code>, ch: Code, capacity: nat) {
    |EncodeAll(chars)| + ChSize(ch) + 1 < capacity
  }

  function Edited(chars: seq<Code>, e: Edit, capacity: nat): seq<Code> {
    match e
    case Append(ch) => if Fits(chars, ch, capacity) then chars + [ch] else chars
    case Backspace => if chars == [] then [] else chars[..|chars| - 1]
    case Clear => []
  }

  function AfterEdits(edits: seq<Edit>, capacity: nat): seq<Code> {
    if edits == [] then [] else Edited(AfterEdits(edits[..|edits| - 1], capacity), edits[|edits| - 1], capacity)
  }

  // ----- the buffer

  /** A NUL-terminated UTF-8 string in a buffer; what lies behind the terminator is not specified. */
  predicate Holds(buffer: seq<Byte>, len: nat, chars: seq<Code>) {
    && len + 1 < |buffer|
    && buffer[..len] == EncodeAll(chars)
    && buffer[len] == 0
    && 0 !in chars
  }

  /** The terminator is the first NUL. */
  lemma FirstNul(buffer: seq<Byte>, len: nat, chars: seq<Code>)
    requires Holds(buffer, len, chars)
    ensures NulAt(buffer) == len && 0 in buffer
  {
    NoNuls(chars);
    assert forall k :: 0 <= k < len ==> buffer[k] == buffer[..len][k];
    assert buffer[len] == 0;
  }

  lemma HoldsAppend(before: seq<Byte>, len: nat, chars: seq<Code>, ch: Code, after: seq<Byte>)
    requires Holds(before, len, chars) && Fits(chars, ch, |before|) && ch != 0
    requires |after| == |before| && after[..len] == before[..len]
    requires after[len..len + ChSize(ch)] == Encode(ch) && after[len + ChSize(ch)] == 0
    ensures Holds(after, len + ChSize(ch), chars + [ch])
  {
    hide Encode, ChSize;
    assert (chars + [ch])[..|chars|] == chars;
    assert after[..len + ChSize(ch)] == after[..len] + after[len..len + ChSize(ch)];
    assert EncodeAll(chars + [ch]) == EncodeAll(chars) + Encode(ch);
  }

  lemma HoldsBackspace(buffer: seq<Byte>, len: nat, chars: seq<Code>)
    requires Holds(buffer, len, chars) && chars != []
    ensures LastSize(buffer[..len]) == ChSize(chars[|chars| - 1]) <= len
    ensures Holds(buffer[len - ChSize(chars[|chars| - 1]) := 0], len - ChSize(chars[|chars| - 1]), chars[..|chars| - 1])
  {
    hide Encode, ChSize;
    var init, last := chars[..|chars| - 1], chars[|chars| - 1];
    LastSizeEncode(EncodeAll(init), last);
    assert buffer[..len] == EncodeAll(init) + Encode(last);
    var cut := len - ChSize(last);
    assert buffer[cut := 0][..cut] == EncodeAll(init);
  }

  lemma HoldsEmpty(buffer: seq<Byte>, len: nat, chars: seq<Code>)
    requires Holds(buffer, len, chars)
    ensures len == 0 <==> chars == []
  {
    if chars != [] {
      assert |EncodeAll(chars)| >= |Encode(chars[|chars| - 1])|;
    }
  }

  /** `struct swaylock_password`, with the characters it stands for. */
  class Password {
    const buffer: array<Byte>
    var len: nat
    ghost var chars: seq<Code>

    ghost predicate Valid()
      reads this, buffer
    {
      Holds(buffer[..], len, chars)
    }

    constructor (size: nat)
      requires size >= 2
      ensures Valid() && chars == [] && buffer.Length == size && fresh(buffer)
    {
      buffer := new Byte[size](_ => 0);
      len, chars := 0, [];
    }

    /** `clear_buffer()`. */
    method ClearBuffer(size: nat)
      requires size <= buffer.Length
      modifies buffer
      ensures forall k :: 0 <= k < size ==> buffer[k] == 0
      ensures buffer[size..] == old(buffer[size..])
    {
      for i := 0 to size
        invariant forall k :: 0 <= k < i ==> buffer[k] == 0
        invariant buffer[size..] == old(buffer[size..])
      {
        buffer[i] := 0;
      }
    }

    /** Nothing of the password is left in memory. */
    method ClearPasswordBuffer()
      requires buffer.Length >= 2
      modifies this, buffer
      ensures Valid() && chars == [] && len == 0
      ensures forall k :: 0 <= k < buffer.Length ==> buffer[k] == 0
    {
      ClearBuffer(buffer.Length);
      len, chars := 0, [];
    }

    method AppendCh(codepoint: Code)
      requires Valid() && codepoint != 0
      modifies this, buffer
      ensures Valid() && chars == Edited(old(chars), Append(codepoint), buffer.Length)
      ensures chars == if old(len) + ChSize(codepoint) + 1 < buffer.Length then old(chars) + [codepoint] else old(chars)
    {
      var utf8Size := ChSize(codepoint);
      if len + utf8Size + 1 >= buffer.Length {
        return;
      }
      ghost var before := buffer[..];
      var _ := Utf8Encode(buffer, len, codepoint);
      buffer[len + utf8Size] := 0;
      assert buffer[..][..len] == before[..len];
      HoldsAppend(before, len, chars, codepoint, buffer[..]);
      hide Holds, Encode, EncodeAll, ChSize;
      len := len + utf8Size;
      chars := chars + [codepoint];
    }

    method BackspaceCh() returns (removed: bool)
      requires Valid()
      modifies this, buffer
      ensures Valid() && chars == Edited(old(chars), Backspace, buffer.Length)
      ensures chars == if old(chars) == [] then [] else old(chars)[..|old(chars)| - 1]
      ensures removed <==> old(chars) != []
    {
      hide Holds, EncodeAll, NulAt, LastSize;
      HoldsEmpty(buffer[..], len, chars);
      if len != 0 {
        FirstNul(buffer[..], len, chars);
        HoldsBackspace(buffer[..], len, chars);
        assert buffer[..][..len] == buffer[..len];
        var size := Utf8LastSize(buffer);
        ghost var cut := buffer[..][len - size := 0];
        len := len - size;
        buffer[len] := 0;
        assert buffer[..] == cut;
        chars := chars[..|chars| - 1];
        return true;
      }
      return false;
    }

    /** Any sequence of edits: the buffer stays a terminated UTF-8 string of exactly the stack's characters. */
    method Apply(edits: seq<Edit>)
      requires Valid() && chars == []
      requires forall i :: 0 <= i < |edits| && edits[i].Append? ==> edits[i].ch != 0
      modifies this, buffer
      ensures Valid() && chars == AfterEdits(edits, buffer.Length)
    {
      for i := 0 to |edits|
        invariant Valid() && chars == AfterEdits(edits[..i], buffer.Length)
      {
        assert edits[..i + 1][..i] == edits[..i];
        match edits[i]
        case Append(ch) => AppendCh(ch);
        case Backspace => var _ := BackspaceCh();
        case Clear => ClearPasswordBuffer();
      }
      assert edits[..|edits|] == edits;
    }
  }
}
