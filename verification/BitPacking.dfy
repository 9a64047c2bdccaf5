/**
 Byte-packed tables of the lock-order detector: the bitmap of free lock ids and the
 "taken after" matrix.  Both are arrays of bytes in which entry `i` lives in bit `i % 8` of byte
 `i / 8`.  Each class keeps a ghost set next to its bytes; `Valid()` says that bit `i` is
 set exactly for the members of that set, and every operation states its effect on the set alone.
 */
module BitPacking {

  /** The number of lock ids, a multiple of the byte width. */
  const MAX_LOCKS: nat := 4096

  /** The byte with only bit `j` set. */
  function Mask(j: nat): (m: bv8)
    requires j < 8
  {
    if j == 0 then 0x01 else if j == 1 then 0x02 else if j == 2 then 0x04 else if j == 3 then 0x08
    else if j == 4 then 0x10 else if j == 5 then 0x20 else if j == 6 then 0x40 else 0x80
  }

  predicate BitSet(b: bv8, j: nat)
    requires j < 8
  {
    b & Mask(j) != 0
  }

  /** The mask is the shifted bit that the byte tables are indexed with. */
  lemma MaskIsShift(j: nat)
    requires j < 8
    ensures Mask(j) == (1 as bv8) << j
  {
  }

  /** Or-ing a mask in sets that bit and changes no other. */
  lemma SetBitExact(b: bv8, j: nat)
    requires j < 8
    ensures forall k: nat | k < 8 :: BitSet(b | Mask(j), k) <==> k == j || BitSet(b, k)
  {
  }

  /** And-ing with 255 minus a mask clears that bit and changes no other. */
  lemma ClearBitExact(b: bv8, j: nat)
    requires j < 8
    ensures forall k: nat | k < 8 :: BitSet(b & (255 - Mask(j)), k) <==> k != j && BitSet(b, k)
  {
  }

  lemma FullAndEmptyByte()
    ensures forall k: nat | k < 8 :: BitSet(255, k) && !BitSet(0, k)
  {
  }

  /** byte | (1 << j) */
  method SetBit(b: bv8, j: nat) returns (r: bv8)
    requires j < 8
    ensures forall k: nat | k < 8 :: BitSet(r, k) <==> k == j || BitSet(b, k)
  {
    MaskIsShift(j);
    SetBitExact(b, j);
    r := b | (1 << j);
  }

  /** byte & (255 - (1 << j)) */
  method ClearBit(b: bv8, j: nat) returns (r: bv8)
    requires j < 8
    ensures forall k: nat | k < 8 :: BitSet(r, k) <==> k != j && BitSet(b, k)
  {
    MaskIsShift(j);
    ClearBitExact(b, j);
    r := b & (255 - (1 << j));
  }

  /** byte & (1 << j) */
  method TestBit(b: bv8, j: nat) returns (isSet: bool)
    requires j < 8
    ensures isSet <==> BitSet(b, j)
  {
    MaskIsShift(j);
    isSet := b & (1 << j) != 0;
  }

  predicate IsId(i: int) {
    0 <= i < MAX_LOCKS
  }

  /** All lock ids. */
  ghost function AllIds(): (ids: set<int>) {
    set i | 0 <= i < MAX_LOCKS && IsId(i)
  }

  /** Bitmap of lock ids: a set bit means that the id is free. */
  class IdBitmap {
    const bytes: array<bv8>
    ghost var free: set<int>

    predicate Bit(i: int)
      requires 0 <= i / 8 < bytes.Length
      reads bytes
    {
      BitSet(bytes[i / 8], i % 8)
    }

    ghost predicate Valid()
      reads this, bytes
    {
      && bytes.Length == MAX_LOCKS / 8
      && free <= AllIds()
      && forall i {:trigger Bit(i)} | 0 <= i < MAX_LOCKS :: i in free <==> Bit(i)
    }

    /** The static bitmap starts zeroed: no id is free until the first use fills it. */
    constructor ()
      ensures Valid() && free == {} && fresh(bytes)
    {
      bytes := new bv8[MAX_LOCKS / 8](_ => 0);
      free := {};
      new;
      FullAndEmptyByte();
    }

    method Fill()
      requires Valid()
      modifies this, bytes
      ensures Valid() && free == AllIds()
    {
      for i := 0 to bytes.Length
        invariant forall k | 0 <= k < i :: bytes[k] == 255
      {
        bytes[i] := 255;
      }
      free := AllIds();
      FullAndEmptyByte();
    }

    method Test(id: int) returns (isFree: bool)
      requires Valid() && 0 <= id < MAX_LOCKS
      ensures isFree <==> id in free
    {
      isFree := TestBit(bytes[id / 8], id % 8);
      assert isFree <==> Bit(id);
    }

    method Claim(id: int)
      requires Valid() && 0 <= id < MAX_LOCKS
      modifies this, bytes
      ensures Valid() && free == old(free) - {id}
    {
      var updated := ClearBit(bytes[id / 8], id % 8);
      bytes[id / 8] := updated;
      free := free - {id};
      forall i | 0 <= i < MAX_LOCKS
        ensures i in free <==> Bit(i)
      {
        assert i in old(free) <==> old(Bit(i));
        if i / 8 == id / 8 && i % 8 == id % 8 {
          assert i == id;
        }
      }
    }

    method Release(id: int)
      requires Valid() && 0 <= id < MAX_LOCKS
      modifies this, bytes
      ensures Valid() && free == old(free) + {id}
    {
      var updated := SetBit(bytes[id / 8], id % 8);
      bytes[id / 8] := updated;
      free := free + {id};
      forall i | 0 <= i < MAX_LOCKS
        ensures i in free <==> Bit(i)
      {
        assert i in old(free) <==> old(Bit(i));
        if i / 8 == id / 8 && i % 8 == id % 8 {
          assert i == id;
        }
      }
    }

    /** Byte by byte, bit by bit: claims the least free id, or answers -1 when none is free. */
    method ClaimLeast() returns (id: int)
      requires Valid()
      modifies this, bytes
      ensures Valid()
      ensures id == -1 <==> old(free) == {}
      ensures id != -1 ==> id in old(free) && forall k | k in old(free) :: id <= k
      ensures free == old(free) - {id}
    {
      for i := 0 to bytes.Length
        invariant Valid() && unchanged(this) && unchanged(bytes)
        invariant forall k | k in free :: 8 * i <= k
      {
        for j := 0 to 8
          invariant Valid() && unchanged(this) && unchanged(bytes)
          invariant forall k | k in free :: 8 * i + j <= k
        {
          assert (i * 8 + j) / 8 == i && (i * 8 + j) % 8 == j;
          assert i * 8 + j in free <==> Bit(i * 8 + j);
          var found := TestBit(bytes[i], j);
          if found {
            id := i * 8 + j;
            Claim(id);
            return;
          }
          assert i * 8 + j !in free;
        }
      }
      id := -1;
      if k :| k in free {
        assert false;
      }
    }
  }

  /** The relation matrix: bit (a, b) set means that b was taken while a was held. */
  class BitMatrix {
    const bytes: array2<bv8>
    ghost var edges: set<(int, int)>

    predicate Bit(a: int, b: int)
      requires 0 <= a < bytes.Length0 && 0 <= b / 8 < bytes.Length1
      reads bytes
    {
      BitSet(bytes[a, b / 8], b % 8)
    }

    ghost predicate Valid()
      reads this, bytes
    {
      && bytes.Length0 == MAX_LOCKS && bytes.Length1 == MAX_LOCKS / 8
      && (forall e | e in edges :: IsId(e.0) && IsId(e.1))
      && forall a, b {:trigger Bit(a, b)} | 0 <= a < MAX_LOCKS && 0 <= b < MAX_LOCKS :: (a, b) in edges <==> Bit(a, b)
    }

    constructor ()
      ensures Valid() && edges == {} && fresh(bytes)
    {
      bytes := new bv8[MAX_LOCKS, MAX_LOCKS / 8]((_, _) => 0);
      edges := {};
      new;
      FullAndEmptyByte();
    }

    method Test(a: int, b: int) returns (present: bool)
      requires Valid() && 0 <= a < MAX_LOCKS && 0 <= b < MAX_LOCKS
      ensures present <==> (a, b) in edges
    {
      present := TestBit(bytes[a, b / 8], b % 8);
      assert present <==> Bit(a, b);
    }

    method Add(a: int, b: int)
      requires Valid() && 0 <= a < MAX_LOCKS && 0 <= b < MAX_LOCKS
      modifies this, bytes
      ensures Valid() && edges == old(edges) + {(a, b)}
    {
      var updated := SetBit(bytes[a, b / 8], b % 8);
      bytes[a, b / 8] := updated;
      edges := edges + {(a, b)};
      forall x, y | 0 <= x < MAX_LOCKS && 0 <= y < MAX_LOCKS
        ensures (x, y) in edges <==> Bit(x, y)
      {
        assert (x, y) in old(edges) <==> old(Bit(x, y));
        if y / 8 == b / 8 && y % 8 == b % 8 {
          assert y == b;
        }
      }
    }

    method Remove(a: int, b: int)
      requires Valid() && 0 <= a < MAX_LOCKS && 0 <= b < MAX_LOCKS
      modifies this, bytes
      ensures Valid() && edges == old(edges) - {(a, b)}
    {
      var updated := ClearBit(bytes[a, b / 8], b % 8);
      bytes[a, b / 8] := updated;
      edges := edges - {(a, b)};
      forall x, y | 0 <= x < MAX_LOCKS && 0 <= y < MAX_LOCKS
        ensures (x, y) in edges <==> Bit(x, y)
      {
        assert (x, y) in old(edges) <==> old(Bit(x, y));
        if y / 8 == b / 8 && y % 8 == b % 8 {
          assert y == b;
        }
      }
    }

    /** Zeroes a whole row. */
    method WipeRow(a: int)
      requires Valid() && 0 <= a < MAX_LOCKS
      modifies this, bytes
      ensures Valid() && edges == set e | e in old(edges) && e.0 != a
    {
      for i := 0 to bytes.Length1
        invariant forall k | 0 <= k < i :: bytes[a, k] == 0
        invariant forall x, k | 0 <= x < MAX_LOCKS && 0 <= k < MAX_LOCKS / 8 && x != a ::
                    bytes[x, k] == old(bytes[x, k])
        invariant edges == old(edges)
      {
        bytes[a, i] := 0;
      }
      edges := set e | e in edges && e.0 != a;
      FullAndEmptyByte();
      forall x, y | 0 <= x < MAX_LOCKS && 0 <= y < MAX_LOCKS
        ensures (x, y) in edges <==> Bit(x, y)
      {
        assert (x, y) in old(edges) <==> old(Bit(x, y));
      }
    }
  }
}
