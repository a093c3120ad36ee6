/** Android's Parcel, reduced to the int values the action writes and reads: a
    buffer of ints and a data position. */
module Parcels {
  import opened Basics

  /** `data` with the values `vs` written from position `p` on, replacing what was
      there and growing the buffer where they run past its end. */
  function Overwrite(data: seq<int32>, p: nat, vs: seq<int32>): seq<int32>
    requires p <= |data|
  {
    data[..p] + vs + (if p + |vs| <= |data| then data[p + |vs|..] else [])
  }

  /** The int read at position `p`: reading past the end gives 0. */
  function IntAt(data: seq<int32>, p: nat): int32 {
    if p < |data| then data[p] else 0
  }

  /** The position after a read at `p`: a read past the end does not move. */
  function After(data: seq<int32>, p: nat): nat {
    if p < |data| then p + 1 else p
  }

  lemma OverwriteTwice(data: seq<int32>, p: nat, a: int32, b: int32)
    requires p <= |data|
    ensures p + 1 <= |Overwrite(data, p, [a])|
    ensures Overwrite(Overwrite(data, p, [a]), p + 1, [b]) == Overwrite(data, p, [a, b])
  {
  }

  class Parcel {
    var data: seq<int32>
    var position: nat

    ghost predicate Valid()
      reads this
    {
      position <= |data|
    }

    constructor ()
      ensures Valid() && data == [] && position == 0
    {
      data, position := [], 0;
    }

    method SetDataPosition(p: nat)
      requires p <= |data|
      modifies this
      ensures Valid() && data == old(data) && position == p
    {
      position := p;
    }

    method WriteInt(v: int32)
      requires Valid()
      modifies this
      ensures Valid()
      ensures data == Overwrite(old(data), old(position), [v])
      ensures position == old(position) + 1
    {
      data := Overwrite(data, position, [v]);
      position := position + 1;
    }

    method ReadInt() returns (v: int32)
      requires Valid()
      modifies this
      ensures Valid() && data == old(data)
      ensures v == IntAt(data, old(position)) && position == After(data, old(position))
    {
      if position < |data| {
        v := data[position];
        position := position + 1;
      } else {
        v := 0;
      }
    }
  }
}
