/**
 Size-class arithmetic of the memory pool (AlignHelper in utilis.h).

 Sizes are `size_t`: sums wrap modulo 2^64, and the masks and shifts of the source are
 written as division by the power of two they stand for.
 */
module SizeClasses {

  const WORD: nat := 0x1_0000_0000_0000_0000
  const PAGE_BYTES: nat := 4096
  const MAX_BYTES: nat := 262144
  const BUCKETS: nat := 208

  // Each branch is _roundUp(bytes, align) = (bytes + align - 1) & ~(align - 1).
  function RoundUp(bytes: nat): nat {
    if bytes <= 128 then (bytes + 7) / 8 * 8
    else if bytes <= 1024 then (bytes + 15) / 16 * 16
    else if bytes <= 8192 then (bytes + 127) / 128 * 128
    else if bytes <= 65536 then (bytes + 1023) / 1024 * 1024
    else if bytes <= MAX_BYTES then (bytes + 8191) / 8192 * 8192
    else (bytes + 4095) % WORD / PAGE_BYTES * PAGE_BYTES
  }

  // Each branch adds the buckets of the groups below to
  // _index(bytes, shift) = ((bytes + (1 << shift) - 1) >> shift) - 1.
  function Index(bytes: nat): nat
    requires bytes <= MAX_BYTES
  {
    if bytes <= 128 then ((bytes + 7) / 8 + WORD - 1) % WORD
    else if bytes <= 1024 then (bytes - 128 + 15) / 16 - 1 + 16
    else if bytes <= 8192 then (bytes - 1024 + 127) / 128 - 1 + 72
    else if bytes <= 65536 then (bytes - 8192 + 1023) / 1024 - 1 + 128
    else (bytes - 65536 + 8191) / 8192 - 1 + 184
  }

  // How many objects CentralCache hands out at most in one go.
  function NumMoveSize(size: nat): nat
    requires size > 0
  {
    var num := MAX_BYTES / size;
    if num < 2 then 2 else if num > 512 then 512 else num
  }

  // How many pages CentralCache asks PageCache for.
  function NumMovePage(size: nat): nat
    requires size > 0
  {
    var npage := NumMoveSize(size) * size / PAGE_BYTES;
    if npage == 0 then 1 else npage
  }

  // The sizes that RoundUp produces for requests of at most 256 KB.
  predicate IsClass(size: nat) {
    1 <= size <= MAX_BYTES && RoundUp(size) == size
  }

  // The block size served from bucket i, stated without RoundUp or Index.
  function ClassSize(i: nat): nat
    requires i < BUCKETS
  {
    if i < 16 then 8 * (i + 1)
    else if i < 72 then 128 + 16 * (i - 15)
    else if i < 128 then 1024 + 128 * (i - 71)
    else if i < 184 then 8192 + 1024 * (i - 127)
    else 65536 + 8192 * (i - 183)
  }

  lemma ClassOfIndex(i: nat)
    requires i < BUCKETS
    ensures IsClass(ClassSize(i)) && Index(ClassSize(i)) == i
  {
  }

  lemma SmallClassOfIndex(bytes: nat)
    requires 1 <= bytes <= 1024
    ensures Index(bytes) < BUCKETS && RoundUp(bytes) == ClassSize(Index(bytes))
  {
    if bytes <= 128 {
      assert 1 <= (bytes + 7) / 8 <= 16;
    } else {
      assert (bytes + 15) / 16 == (bytes - 128 + 15) / 16 + 8 && 1 <= (bytes - 128 + 15) / 16 <= 56;
    }
  }

  lemma MiddleClassOfIndex(bytes: nat)
    requires 1024 < bytes <= 65536
    ensures Index(bytes) < BUCKETS && RoundUp(bytes) == ClassSize(Index(bytes))
  {
    if bytes <= 8192 {
      assert (bytes + 127) / 128 == (bytes - 1024 + 127) / 128 + 8 && 1 <= (bytes - 1024 + 127) / 128 <= 56;
    } else {
      assert (bytes + 1023) / 1024 == (bytes - 8192 + 1023) / 1024 + 8 && 1 <= (bytes - 8192 + 1023) / 1024 <= 56;
    }
  }

  // Index and RoundUp agree: the bucket of a request holds blocks of its rounded size.
  lemma RoundUpIsClassOfIndex(bytes: nat)
    requires 1 <= bytes <= MAX_BYTES
    ensures Index(bytes) < BUCKETS && RoundUp(bytes) == ClassSize(Index(bytes))
  {
    if bytes <= 1024 {
      SmallClassOfIndex(bytes);
    } else if bytes <= 65536 {
      MiddleClassOfIndex(bytes);
    } else {
      assert (bytes + 8191) / 8192 == (bytes - 65536 + 8191) / 8192 + 8 && 1 <= (bytes - 65536 + 8191) / 8192 <= 24;
    }
  }

  lemma ClassSizeIsMonotone(i: nat, j: nat)
    requires i <= j < BUCKETS
    ensures ClassSize(i) <= ClassSize(j)
    ensures ClassSize(i) % 8 == 0
  {
  }

  lemma IndexIsMonotone(a: nat, b: nat)
    requires 1 <= a <= b <= MAX_BYTES
    ensures Index(a) <= Index(b)
  {
    RoundUpIsClassOfIndex(a);
    RoundUpIsClassOfIndex(b);
  }

  // A block of the class serving a request is large enough, and no smaller class is.
  lemma RoundUpIsLeastClass(bytes: nat, other: nat)
    requires 1 <= bytes <= MAX_BYTES
    ensures bytes <= RoundUp(bytes) && IsClass(RoundUp(bytes)) && RoundUp(bytes) % 8 == 0
    ensures Index(RoundUp(bytes)) == Index(bytes)
    ensures IsClass(other) && bytes <= other ==> RoundUp(bytes) <= other
  {
    RoundUpIsClassOfIndex(bytes);
    ClassOfIndex(Index(bytes));
    ClassSizeIsMonotone(Index(bytes), Index(bytes));
    if IsClass(other) && bytes <= other {
      RoundUpIsClassOfIndex(other);
      IndexIsMonotone(bytes, other);
      ClassSizeIsMonotone(Index(bytes), Index(other));
    }
  }

  /** Rounding wastes at most 7 bytes up to 128 bytes, and less than an eighth of what is asked
      for above. */
  lemma WasteIsBounded(bytes: nat)
    requires 1 <= bytes <= MAX_BYTES
    ensures bytes <= RoundUp(bytes)
    ensures if bytes <= 128 then RoundUp(bytes) - bytes < 8 else 8 * (RoundUp(bytes) - bytes) < bytes
  {
    RoundUpIsLeastClass(bytes, bytes);
  }

  /** A request over 256 KB is rounded to the least number of whole pages that hold it. */
  lemma RoundUpIsLeastPages(bytes: nat)
    requires MAX_BYTES < bytes <= WORD - PAGE_BYTES
    ensures RoundUp(bytes) % PAGE_BYTES == 0 && bytes <= RoundUp(bytes) < bytes + PAGE_BYTES
  {
  }

  /** The sum wraps around, and the request is for no page, exactly in the last 4095 sizes. */
  lemma RoundsToNoPageIff(bytes: nat)
    requires MAX_BYTES < bytes < WORD
    ensures RoundUp(bytes) / PAGE_BYTES == 0 <==> bytes > WORD - PAGE_BYTES
  {
    if bytes > WORD - PAGE_BYTES {
      assert (bytes + 4095) % WORD == bytes + 4095 - WORD;
    } else {
      RoundUpIsLeastPages(bytes);
    }
  }

  // The bucket index separates exactly the rounded sizes.
  lemma IndexSeparatesClasses(a: nat, b: nat)
    requires 1 <= a <= MAX_BYTES && 1 <= b <= MAX_BYTES
    ensures Index(a) == Index(b) <==> RoundUp(a) == RoundUp(b)
  {
    RoundUpIsClassOfIndex(a);
    RoundUpIsClassOfIndex(b);
    ClassOfIndex(Index(a));
    ClassOfIndex(Index(b));
  }

  // A request for zero bytes has no bucket: its index wraps around to 2^64 - 1.
  lemma BucketExistsIffNonzero(bytes: nat)
    requires bytes <= MAX_BYTES
    ensures Index(bytes) < BUCKETS <==> bytes != 0
    ensures bytes == 0 ==> Index(bytes) == WORD - 1
  {
  }

  lemma MulMono(a: nat, b: nat, d: nat)
    requires a <= b
    ensures a * d <= b * d
  {
  }

  // How many bytes numMoveSize blocks take.
  lemma MoveBytes(size: nat)
    requires 8 <= size <= MAX_BYTES
    ensures var bytes := NumMoveSize(size) * size;
      && (size <= 512 ==> bytes == 512 * size)
      && (size > 512 ==> MAX_BYTES / 2 <= bytes <= 2 * MAX_BYTES && 2 * size <= bytes)
  {
    var num := MAX_BYTES / size;
    assert num * size <= MAX_BYTES < num * size + size && (num + 1) * size == num * size + size;
    if size <= 512 {
      if num < 512 { MulMono(num + 1, 512, size); }
    } else {
      if num >= 512 { MulMono(512, num, size); }
      if num >= 2 {
        MulMono(2, num, size);
      } else {
        MulMono(num + 1, 2, size);
      }
    }
  }

  /** numMoveSize is the largest number of blocks that 256 KB hold, kept between 2 and 512. */
  lemma NumMoveSizeIsLargest(size: nat)
    requires 1 <= size <= MAX_BYTES
    ensures var n := NumMoveSize(size);
      && 2 <= n <= 512 && (n == 2 || n * size <= MAX_BYTES) && (n == 512 || (n + 1) * size > MAX_BYTES)
  {
    var num := MAX_BYTES / size;
    assert num * size <= MAX_BYTES < num * size + size && (num + 1) * size == num * size + size;
    if num < 2 {
      MulMono(num + 1, 3, size);
    } else if num > 512 {
      MulMono(512, num, size);
    }
  }

  /** CentralCache asks for as many whole pages as these blocks fill, and for one at least. */
  lemma NumMovePageFills(size: nat)
    requires IsClass(size)
    ensures var bytes := NumMoveSize(size) * size;
      NumMovePage(size) * PAGE_BYTES <= bytes < NumMovePage(size) * PAGE_BYTES + PAGE_BYTES
  {
    hide NumMoveSize, RoundUp, Index;
    RoundUpIsLeastClass(size, size);
    MoveBytes(size);
    var bytes := NumMoveSize(size) * size;
    assert size <= 512 ==> bytes == 512 * size && size % 8 == 0;
    assert bytes >= PAGE_BYTES;
  }

  /** CentralCache asks PageCache for 1 to 128 pages, enough for at least one block, and for
      classes up to 512 bytes the span is filled exactly by 512 blocks. */
  lemma NumMovePageInRange(size: nat)
    requires IsClass(size)
    ensures 1 <= NumMovePage(size) <= 128
    ensures size <= NumMovePage(size) * PAGE_BYTES
    ensures size <= 512 ==> NumMovePage(size) * PAGE_BYTES == 512 * size
  {
    hide NumMoveSize, RoundUp, Index;
    RoundUpIsLeastClass(size, size);
    MoveBytes(size);
  }
}
