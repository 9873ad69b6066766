/** The packed word of common/tagged_pointers/tagged.c: 48 bits of pointer, 16 bits of count. */
module TaggedPointer {
  const MASK_PTR: bv64 := 0xffff_ffff_ffff
  const MASK_CNT: bv64 := 0xffff_0000_0000_0000

  function GetPtr(w: bv64): bv64 { w & MASK_PTR }

  function GetCount(w: bv64): bv64 { w >> 48 }

  function Create(ptr: bv64, count: bv64): bv64 { (ptr & MASK_PTR) | (count << 48) }

  method SetPtr(word: array<bv64>, ptr: bv64)
    requires word.Length == 1
    modifies word
    ensures GetPtr(word[0]) == ptr & MASK_PTR && GetCount(word[0]) == GetCount(old(word[0]))
  {
    word[0] := (word[0] & MASK_CNT) | (ptr & MASK_PTR);
  }

  /** The pointer is the lower 48 bits of the word as a number, the count the upper 16. */
  lemma PartsAre(w: bv64)
    ensures w == GetCount(w) * 0x1_0000_0000_0000 + GetPtr(w)
    ensures GetPtr(w) < 0x1_0000_0000_0000 && GetCount(w) < 0x1_0000
    ensures GetPtr(0x1234_5678_9abc_def0) == 0x5678_9abc_def0 && GetCount(0x1234_5678_9abc_def0) == 0x1234
  {
  }

  /** A word is what its two parts make, and the parts come back from what they make. */
  lemma RoundTrip(w: bv64, ptr: bv64, count: bv64)
    ensures Create(GetPtr(w), GetCount(w)) == w
    ensures GetPtr(Create(ptr, count)) == ptr & MASK_PTR
    ensures GetCount(Create(ptr, count)) == count & 0xffff
  {
  }

  lemma CreateMasked(ptr: bv64, count: bv64)
    ensures Create(ptr, count) == Create(ptr & MASK_PTR, count & 0xffff)
  {
  }

  lemma SameParts(p: bv64, c: bv64, p': bv64, c': bv64)
    requires p & MASK_PTR == p' & MASK_PTR && c & 0xffff == c' & 0xffff
    ensures Create(p, c) == Create(p', c')
  {
    hide *;
    CreateMasked(p, c);
    CreateMasked(p', c');
  }

  lemma PartsSame(p: bv64, c: bv64, p': bv64, c': bv64)
    requires Create(p, c) == Create(p', c')
    ensures p & MASK_PTR == p' & MASK_PTR && c & 0xffff == c' & 0xffff
  {
    hide *;
    RoundTrip(0, p, c);
    RoundTrip(0, p', c');
  }

  /** Two packed words are equal exactly when pointers and counts agree in the bits they keep. */
  lemma EqualIff(p: bv64, c: bv64, p': bv64, c': bv64)
    ensures Create(p, c) == Create(p', c') <==> p & MASK_PTR == p' & MASK_PTR && c & 0xffff == c' & 0xffff
  {
    hide *;
    if Create(p, c) == Create(p', c') {
      PartsSame(p, c, p', c');
    }
    if p & MASK_PTR == p' & MASK_PTR && c & 0xffff == c' & 0xffff {
      SameParts(p, c, p', c');
    }
  }

  /** Counting on in a packed word wraps at 2^16. */
  lemma CountWraps(w: bv64, ptr: bv64)
    ensures GetCount(w) <= 0xffff
    ensures GetCount(Create(ptr, GetCount(w) + 1)) == if GetCount(w) == 0xffff then 0 else GetCount(w) + 1
  {
  }
}
