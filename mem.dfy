/** The word-at-a-time memory routines of src/mem.rs. Memory is one byte array whose index
    is the address, so the alignment arithmetic on pointers is kept; `PTR_SIZE` is the size
    of a 32-bit `c_int`. A word store `*(p as *mut c_int) = w` writes four bytes at once,
    and a word load reads four bytes before anything is written. */
module Mem {
  import opened Bits

  const PTR_SIZE: nat := 4

  /** The number of `c_int` words `memset3` writes per pass of its unrolled loop. */
  const LOOPS: nat := 64
  const LOOP_SIZE: nat := 256  // LOOPS * PTR_SIZE

  /** The chunk sizes `memset` walks its aligned words with. */
  const CHUNK_SIZES: seq<nat> := [64, 32, 16, 8, 4, 2, 1]

  /** `(x as usize).wrapping_neg()`. */
  function WrappingNeg(x: int): (r: u32)
    requires 0 <= x < U32_LIMIT
    ensures (x + r) % U32_LIMIT == 0
  {
    Wrap32(-x)
  }

  /** Bytes to skip from address `x` to the next word boundary:
      `x.wrapping_neg() % PTR_SIZE`. */
  function BytesToAlign(x: int): (r: nat)
    requires 0 <= x < U32_LIMIT
    ensures r < PTR_SIZE && (x + r) % PTR_SIZE == 0
  {
    WrappingNeg(x) % PTR_SIZE
  }

  /** Memory `m` after the `n` bytes at `src` are copied to `dst`, as if through a
      temporary buffer. */
  ghost function Copy(m: seq<u8>, dst: nat, src: nat, n: nat): (r: seq<u8>)
    requires dst + n <= |m| && src + n <= |m|
  {
    seq(|m|, a requires 0 <= a < |m| => CopiedByte(m, dst, src, n, a))
  }

  /** The byte at address `a` after the copy. */
  ghost function CopiedByte(m: seq<u8>, dst: nat, src: nat, n: nat, a: nat): u8
    requires dst + n <= |m| && src + n <= |m| && a < |m|
  {
    if dst <= a < dst + n then m[a - dst + src] else m[a]
  }

  /** The destination holds the source bytes and no other byte changes. */
  lemma CopyMeaning(m: seq<u8>, dst: nat, src: nat, n: nat)
    requires dst + n <= |m| && src + n <= |m|
    ensures |Copy(m, dst, src, n)| == |m|
    ensures Copy(m, dst, src, n)[dst..dst + n] == m[src..src + n]
    ensures forall a :: 0 <= a < |m| && !(dst <= a < dst + n) ==> Copy(m, dst, src, n)[a] == m[a]
  {
  }

  /** Memory `m` after the `n` bytes at `s` are set to `b`. */
  ghost function Fill(m: seq<u8>, s: nat, n: nat, b: u8): (r: seq<u8>)
    requires s + n <= |m|
  {
    seq(|m|, a requires 0 <= a < |m| => FilledByte(m, s, n, b, a))
  }

  /** The byte at address `a` after the fill. */
  ghost function FilledByte(m: seq<u8>, s: nat, n: nat, b: u8, a: nat): u8
    requires a < |m|
  {
    if s <= a < s + n then b else m[a]
  }

  /** The `n` bytes from `s` hold `b` and no other byte changes. */
  lemma FillMeaning(m: seq<u8>, s: nat, n: nat, b: u8)
    requires s + n <= |m|
    ensures |Fill(m, s, n, b)| == |m|
    ensures forall a :: s <= a < s + n ==> Fill(m, s, n, b)[a] == b
    ensures forall a :: 0 <= a < |m| && !(s <= a < s + n) ==> Fill(m, s, n, b)[a] == m[a]
  {
  }

  /** Copying nothing changes nothing. */
  lemma CopyNothing(m: seq<u8>, dst: nat, src: nat)
    requires dst <= |m| && src <= |m|
    ensures Copy(m, dst, src, 0) == m
  {
  }

  /** Storing the byte at `s` into `d` is a one-byte copy. */
  lemma CopyOne(m: seq<u8>, d: nat, s: nat)
    requires d < |m| && s < |m|
    ensures m[d := m[s]] == Copy(m, d, s, 1)
  {
  }

  /** Copying `k` more bytes upwards, after the first `i`, extends the copy, provided the
      bytes still to be read were not overwritten: the source does not start below the
      destination, or ends before it. */
  lemma CopyUpExtends(m: seq<u8>, dst: nat, src: nat, i: nat, k: nat)
    requires dst + i + k <= |m| && src + i + k <= |m|
    requires dst <= src || src + i + k <= dst
    ensures Copy(Copy(m, dst, src, i), dst + i, src + i, k) == Copy(m, dst, src, i + k)
  {
    var l := Copy(Copy(m, dst, src, i), dst + i, src + i, k);
    var r := Copy(m, dst, src, i + k);
    forall a | 0 <= a < |m| ensures l[a] == r[a] {
      if dst + i <= a < dst + i + k {
        assert !(dst <= a - dst + src < dst + i);
      }
    }
  }

  /** Copying `k` more bytes downwards, below the `j` already copied, extends the copy,
      provided the source does not start above the destination, or starts after its end. */
  lemma CopyDownExtends(m: seq<u8>, d: nat, s: nat, k: nat, j: nat)
    requires d + k + j <= |m| && s + k + j <= |m|
    requires s <= d || d + k + j <= s
    ensures Copy(Copy(m, d + k, s + k, j), d, s, k) == Copy(m, d, s, k + j)
  {
    var l := Copy(Copy(m, d + k, s + k, j), d, s, k);
    var r := Copy(m, d, s, k + j);
    forall a | 0 <= a < |m| ensures l[a] == r[a] {
      if d <= a < d + k {
        assert !(d + k <= a - d + s < d + k + j);
      }
    }
  }

  /** Filling nothing changes nothing. */
  lemma FillNothing(m: seq<u8>, s: nat, b: u8)
    requires s <= |m|
    ensures Fill(m, s, 0, b) == m
  {
  }

  /** Storing `b` at `p` is a one-byte fill. */
  lemma FillOne(m: seq<u8>, p: nat, b: u8)
    requires p < |m|
    ensures m[p := b] == Fill(m, p, 1, b)
  {
  }

  /** Filling the `k` bytes after the first `i` extends the fill. */
  lemma FillExtends(m: seq<u8>, s: nat, i: nat, k: nat, b: u8)
    requires s + i + k <= |m|
    ensures Fill(Fill(m, s, i, b), s + i, k, b) == Fill(m, s, i + k, b)
  {
  }

  /** `*(d as *mut c_int) = *(s as *const c_int)`: one word loaded, then stored. */
  method CopyWord(mem: array<u8>, ghost m: seq<u8>, d: nat, s: nat)
    requires d + PTR_SIZE <= mem.Length && s + PTR_SIZE <= mem.Length && mem[..] == m
    modifies mem
    ensures mem[..] == Copy(m, d, s, PTR_SIZE)
  {
    var w0, w1, w2, w3 := mem[s], mem[s + 1], mem[s + 2], mem[s + 3];
    mem[d], mem[d + 1], mem[d + 2], mem[d + 3] := w0, w1, w2, w3;
    assert forall a :: 0 <= a < mem.Length ==> mem[..][a] == Copy(m, d, s, PTR_SIZE)[a];
  }

  /** `*(p as *mut c_int) = c_int::from_ne_bytes([b; PTR_SIZE])`. */
  method FillWord(mem: array<u8>, p: nat, b: u8)
    requires p + PTR_SIZE <= mem.Length
    modifies mem
    ensures mem[..] == Fill(old(mem[..]), p, PTR_SIZE, b)
  {
    mem[p], mem[p + 1], mem[p + 2], mem[p + 3] := b, b, b, b;
    assert forall a :: 0 <= a < mem.Length ==> mem[..][a] == Fill(old(mem[..]), p, PTR_SIZE, b)[a];
  }

  /** `*dst.offset(i) = *src.offset(i)`, as a step of an upward copy. */
  method StoreCopyUpByte(mem: array<u8>, ghost m0: seq<u8>, dst: nat, src: nat, i: nat, ghost n: nat)
    requires dst + n <= mem.Length && src + n <= mem.Length && i < n && |m0| == mem.Length
    requires dst <= src || src + n <= dst
    requires mem[..] == Copy(m0, dst, src, i)
    modifies mem
    ensures mem[..] == Copy(m0, dst, src, i + 1)
  {
    CopyOne(mem[..], dst + i, src + i);
    CopyUpExtends(m0, dst, src, i, 1);
    mem[dst + i] := mem[src + i];
  }

  /** A word load and store, as a step of an upward copy. */
  method StoreCopyUpWord(mem: array<u8>, ghost m0: seq<u8>, dst: nat, src: nat, i: nat)
    requires dst + i + PTR_SIZE <= mem.Length && src + i + PTR_SIZE <= mem.Length
    requires |m0| == mem.Length && (dst <= src || src + i + PTR_SIZE <= dst)
    requires mem[..] == Copy(m0, dst, src, i)
    modifies mem
    ensures mem[..] == Copy(m0, dst, src, i + PTR_SIZE)
  {
    CopyUpExtends(m0, dst, src, i, PTR_SIZE);
    CopyWord(mem, Copy(m0, dst, src, i), dst + i, src + i);
  }

  /** `*dst.offset(i) = *src.offset(i)`, as a step of a downward copy of `[i + 1, n)`. */
  method StoreCopyDownByte(mem: array<u8>, ghost m0: seq<u8>, dst: nat, src: nat, i: nat, n: nat)
    requires dst + n <= mem.Length && src + n <= mem.Length && i < n && |m0| == mem.Length
    requires src <= dst || dst + n <= src
    requires mem[..] == Copy(m0, dst + i + 1, src + i + 1, n - i - 1)
    modifies mem
    ensures mem[..] == Copy(m0, dst + i, src + i, n - i)
  {
    CopyOne(mem[..], dst + i, src + i);
    CopyDownExtends(m0, dst + i, src + i, 1, n - i - 1);
    mem[dst + i] := mem[src + i];
  }

  /** A word load and store, as a step of a downward copy of `[i + PTR_SIZE, n)`. */
  method StoreCopyDownWord(mem: array<u8>, ghost m0: seq<u8>, dst: nat, src: nat, i: nat, n: nat)
    requires dst + n <= mem.Length && src + n <= mem.Length && i + PTR_SIZE <= n
    requires |m0| == mem.Length && (src <= dst || dst + n <= src)
    requires mem[..] == Copy(m0, dst + i + PTR_SIZE, src + i + PTR_SIZE, n - i - PTR_SIZE)
    modifies mem
    ensures mem[..] == Copy(m0, dst + i, src + i, n - i)
  {
    CopyDownExtends(m0, dst + i, src + i, PTR_SIZE, n - i - PTR_SIZE);
    CopyWord(mem, Copy(m0, dst + i + PTR_SIZE, src + i + PTR_SIZE, n - i - PTR_SIZE), dst + i, src + i);
  }

  /** The last byte loop of `memcpy`: `while i < n` the byte at offset `i` is copied. */
  method CopyUpBytes(mem: array<u8>, ghost m0: seq<u8>, dst: nat, src: nat, i0: nat, n: nat)
    returns (i: nat)
    requires dst + n <= mem.Length && src + n <= mem.Length && i0 <= n && |m0| == mem.Length
    requires dst <= src || src + n <= dst
    requires mem[..] == Copy(m0, dst, src, i0)
    modifies mem
    ensures i == n && mem[..] == Copy(m0, dst, src, n)
  {
    i := i0;
    while i < n
      invariant i0 <= i <= n && mem[..] == Copy(m0, dst, src, i)
    {
      StoreCopyUpByte(mem, m0, dst, src, i, n);
      i := i + 1;
    }
  }

  /** The word loop of `memcpy`: `while i <= n - PTR_SIZE` the word at offset `i` is copied. */
  method CopyUpWords(mem: array<u8>, ghost m0: seq<u8>, dst: nat, src: nat, i0: nat, n: nat)
    returns (i: nat)
    requires dst + n <= mem.Length && src + n <= mem.Length && i0 <= n && PTR_SIZE <= n
    requires |m0| == mem.Length && (dst <= src || src + n <= dst)
    requires mem[..] == Copy(m0, dst, src, i0)
    modifies mem
    ensures i <= n && mem[..] == Copy(m0, dst, src, i)
  {
    i := i0;
    while i <= n - PTR_SIZE
      invariant i0 <= i <= n && mem[..] == Copy(m0, dst, src, i)
    {
      StoreCopyUpWord(mem, m0, dst, src, i);
      i := i + PTR_SIZE;
    }
  }

  /** `memcpy`: copies upwards, first bytes until either pointer is word aligned, then
      words while a whole word remains, then the remaining bytes. Copying upwards is exact
      when the source does not start below the destination or the buffers are disjoint. */
  method Memcpy(mem: array<u8>, dst: nat, src: nat, n: nat) returns (r: nat)
    requires dst + n <= mem.Length && src + n <= mem.Length && mem.Length < U32_LIMIT
    requires dst <= src || src + n <= dst
    modifies mem
    ensures r == dst
    ensures mem[..] == Copy(old(mem[..]), dst, src, n)
  {
    ghost var m0 := mem[..];
    var i := 0;
    CopyNothing(m0, dst, src);
    if n > PTR_SIZE {
      var startBytesDst := BytesToAlign(dst);
      var startBytesSrc := BytesToAlign(src);
      while i < n && i < startBytesDst && i < startBytesSrc
        invariant i <= n && mem[..] == Copy(m0, dst, src, i)
      {
        StoreCopyUpByte(mem, m0, dst, src, i, n);
        i := i + 1;
      }
      i := CopyUpWords(mem, m0, dst, src, i, n);
    }
    i := CopyUpBytes(mem, m0, dst, src, i, n);
    r := dst;
  }

  /** The last byte loop of `memcpy_reverse`: `while i != 0` the byte at offset `i - 1` is
      copied. */
  method CopyDownBytes(mem: array<u8>, ghost m0: seq<u8>, dst: nat, src: nat, i0: nat, n: nat)
    requires dst + n <= mem.Length && src + n <= mem.Length && i0 <= n && |m0| == mem.Length
    requires src <= dst || dst + n <= src
    requires mem[..] == Copy(m0, dst + i0, src + i0, n - i0)
    modifies mem
    ensures mem[..] == Copy(m0, dst, src, n)
  {
    var i: nat := i0;
    while i != 0
      invariant i <= n && mem[..] == Copy(m0, dst + i, src + i, n - i)
    {
      i := i - 1;
      StoreCopyDownByte(mem, m0, dst, src, i, n);
    }
  }

  /** The word loop of `memcpy_reverse`: `while i >= PTR_SIZE` the word below offset `i` is
      copied. */
  method CopyDownWords(mem: array<u8>, ghost m0: seq<u8>, dst: nat, src: nat, i0: nat, n: nat)
    returns (i: nat)
    requires dst + n <= mem.Length && src + n <= mem.Length && i0 <= n && |m0| == mem.Length
    requires src <= dst || dst + n <= src
    requires mem[..] == Copy(m0, dst + i0, src + i0, n - i0)
    modifies mem
    ensures i <= n && mem[..] == Copy(m0, dst + i, src + i, n - i)
  {
    i := i0;
    while i >= PTR_SIZE
      invariant i <= n && mem[..] == Copy(m0, dst + i, src + i, n - i)
    {
      i := i - PTR_SIZE;
      StoreCopyDownWord(mem, m0, dst, src, i, n);
    }
  }

  /** `memcpy_reverse`: copies downwards from the end, first bytes until either end address
      is word aligned, then words, then the remaining bytes. Copying downwards is exact when
      the source does not start above the destination or the buffers are disjoint. */
  method MemcpyReverse(mem: array<u8>, dst: nat, src: nat, n: nat) returns (r: nat)
    requires dst + n <= mem.Length && src + n <= mem.Length && mem.Length < U32_LIMIT
    requires src <= dst || dst + n <= src
    modifies mem
    ensures r == dst
    ensures mem[..] == Copy(old(mem[..]), dst, src, n)
  {
    ghost var m0 := mem[..];
    var i: nat := n;
    CopyNothing(m0, dst + n, src + n);
    if n > PTR_SIZE {
      var endByteDst := n - (dst + n) % PTR_SIZE;
      var endByteSrc := n - (src + n) % PTR_SIZE;
      while i != 0 && i > endByteDst && i > endByteSrc
        invariant i <= n && mem[..] == Copy(m0, dst + i, src + i, n - i)
      {
        i := i - 1;
        StoreCopyDownByte(mem, m0, dst, src, i, n);
      }
      i := CopyDownWords(mem, m0, dst, src, i, n);
    }
    CopyDownBytes(mem, m0, dst, src, i, n);
    r := dst;
  }

  /** `memmove`: copies downwards when the source lies below the destination and upwards
      otherwise, so it is exact for every overlap. */
  method Memmove(mem: array<u8>, dst: nat, src: nat, n: nat) returns (r: nat)
    requires dst + n <= mem.Length && src + n <= mem.Length && mem.Length < U32_LIMIT
    modifies mem
    ensures r == dst
    ensures mem[..] == Copy(old(mem[..]), dst, src, n)
  {
    if src < dst {
      r := MemcpyReverse(mem, dst, src, n);
    } else {
      r := Memcpy(mem, dst, src, n);
    }
  }

  /** `*p = b`, as a step of a fill of the `i` bytes from `s`. */
  method StoreFillByte(mem: array<u8>, ghost m0: seq<u8>, s: nat, i: nat, b: u8)
    requires s + i < mem.Length && |m0| == mem.Length && mem[..] == Fill(m0, s, i, b)
    modifies mem
    ensures mem[..] == Fill(m0, s, i + 1, b)
  {
    FillOne(mem[..], s + i, b);
    FillExtends(m0, s, i, 1, b);
    mem[s + i] := b;
  }

  /** A word store, as a step of a fill of the `i` bytes from `s`. */
  method StoreFillWord(mem: array<u8>, ghost m0: seq<u8>, s: nat, i: nat, b: u8)
    requires s + i + PTR_SIZE <= mem.Length && |m0| == mem.Length
    requires mem[..] == Fill(m0, s, i, b)
    modifies mem
    ensures mem[..] == Fill(m0, s, i + PTR_SIZE, b)
  {
    FillWord(mem, s + i, b);
    FillExtends(m0, s, i, PTR_SIZE, b);
  }

  /** Byte stores `*s.offset(i) = c as u8` while `i < end`, as the tail of a fill. */
  method FillBytes(mem: array<u8>, ghost m0: seq<u8>, s: nat, i0: nat, end: nat, b: u8)
    returns (i: nat)
    requires i0 <= end && s + end <= mem.Length && |m0| == mem.Length
    requires mem[..] == Fill(m0, s, i0, b)
    modifies mem
    ensures i == end && mem[..] == Fill(m0, s, end, b)
  {
    i := i0;
    while i < end
      invariant i0 <= i <= end && mem[..] == Fill(m0, s, i, b)
    {
      StoreFillByte(mem, m0, s, i, b);
      i := i + 1;
    }
  }

  /** Word stores at `s.offset(i)` while `i < end`, `end - i` being a whole number of words. */
  method FillWords(mem: array<u8>, ghost m0: seq<u8>, s: nat, i0: nat, end: nat, b: u8)
    returns (i: nat)
    requires i0 <= end && (end - i0) % PTR_SIZE == 0 && s + end <= mem.Length
    requires |m0| == mem.Length && mem[..] == Fill(m0, s, i0, b)
    modifies mem
    ensures i == end && mem[..] == Fill(m0, s, end, b)
  {
    i := i0;
    while i < end
      invariant i0 <= i <= end && (end - i) % PTR_SIZE == 0 && mem[..] == Fill(m0, s, i, b)
    {
      StoreFillWord(mem, m0, s, i, b);
      i := i + PTR_SIZE;
    }
  }

  /** `k` consecutive word stores from offset `i`: one chunk of `memset`, or one pass of
      `memset3`'s unrolled loop. */
  method StoreFillChunk(mem: array<u8>, ghost m0: seq<u8>, s: nat, i: nat, k: nat, b: u8)
    requires s + i + PTR_SIZE * k <= mem.Length && |m0| == mem.Length
    requires mem[..] == Fill(m0, s, i, b)
    modifies mem
    ensures mem[..] == Fill(m0, s, i + PTR_SIZE * k, b)
  {
    for j := 0 to k
      invariant mem[..] == Fill(m0, s, i + PTR_SIZE * j, b)
    {
      StoreFillWord(mem, m0, s, i + PTR_SIZE * j, b);
    }
  }

  /** `memset2`: bytes until the pointer is word aligned, then aligned words up to the last
      word boundary inside the buffer, then the remaining bytes. */
  method Memset2(mem: array<u8>, s: nat, c: int, n: nat) returns (r: nat)
    requires s + n <= mem.Length < U32_LIMIT
    modifies mem
    ensures r == s
    ensures mem[..] == Fill(old(mem[..]), s, n, Wrap8(c))
  {
    ghost var m0 := mem[..];
    var b := Wrap8(c);
    var startBytes := BytesToAlign(s);
    var i := 0;
    FillNothing(m0, s, b);
    while i < startBytes && i < n
      invariant i <= n && i <= startBytes && mem[..] == Fill(m0, s, i, b)
    {
      StoreFillByte(mem, m0, s, i, b);
      i := i + 1;
    }
    if i < n {
      var endCInt := n - (s + n) % PTR_SIZE;
      assert i <= endCInt && (endCInt - i) % PTR_SIZE == 0 by {
        assert (s + i) % PTR_SIZE == 0;
      }
      i := FillWords(mem, m0, s, i, endCInt, b);
      i := FillBytes(mem, m0, s, i, n, b);
    }
    r := s;
  }

  /** `memset3`: bytes until the pointer is aligned to a 256-byte pass, then passes of 64
      aligned words while a whole pass fits, then the remaining bytes. It returns the
      advanced pointer, which is the end of the buffer. `end.sub(LOOP_SIZE)` must not
      leave the address space, which holds for every non-null `s`. */
  method Memset3(mem: array<u8>, s: nat, c: int, n: nat) returns (r: nat)
    requires 0 < s && s + n <= mem.Length < U32_LIMIT
    modifies mem
    ensures r == s + n
    ensures mem[..] == Fill(old(mem[..]), s, n, Wrap8(c))
  {
    ghost var m0 := mem[..];
    var b := Wrap8(c);
    var end := s + n;
    var p := s;
    FillNothing(m0, s, b);
    while p < end && p % LOOP_SIZE != 0
      invariant s <= p <= end && mem[..] == Fill(m0, s, p - s, b)
    {
      StoreFillByte(mem, m0, s, p - s, b);
      p := p + 1;
    }
    if p < end {
      assert p >= LOOP_SIZE;
      while p <= end - LOOP_SIZE
        decreases end - p
        invariant s <= p <= end && mem[..] == Fill(m0, s, p - s, b)
      {
        StoreFillChunk(mem, m0, s, p - s, LOOPS, b);
        p := p + LOOP_SIZE;
      }
      var i := FillBytes(mem, m0, s, p - s, n, b);
      p := s + i;
    }
    r := p;
  }

  /** The split of `align_to_mut::<c_int>`: a byte prefix up to the first word boundary (the
      whole buffer when it holds no boundary), the aligned words, and a byte postfix. */
  function AlignTo(s: nat, n: nat): (r: (nat, nat, nat))
    requires s < U32_LIMIT
    ensures r.0 + PTR_SIZE * r.1 + r.2 == n
    ensures r.0 < n ==> (s + r.0) % PTR_SIZE == 0
    ensures r.2 < PTR_SIZE
  {
    var prefix := if n < BytesToAlign(s) then n else BytesToAlign(s);
    var words := (n - prefix) / PTR_SIZE;
    (prefix, words, n - prefix - PTR_SIZE * words)
  }

  /** `chunks_exact_mut(size)` over the `remaining` words at offset `i`: every whole chunk
      filled, the pointer and the remainder advanced past them. */
  method FillChunks(mem: array<u8>, ghost m0: seq<u8>, s: nat, i0: nat, remaining0: nat,
                    size: nat, b: u8)
    returns (i: nat, remaining: nat)
    requires size > 0 && s + i0 + PTR_SIZE * remaining0 <= mem.Length && |m0| == mem.Length
    requires mem[..] == Fill(m0, s, i0, b)
    modifies mem
    ensures remaining < size && i + PTR_SIZE * remaining == i0 + PTR_SIZE * remaining0
    ensures remaining <= remaining0 && mem[..] == Fill(m0, s, i, b)
  {
    i, remaining := i0, remaining0;
    while remaining >= size
      invariant i + PTR_SIZE * remaining == i0 + PTR_SIZE * remaining0
      invariant i0 <= i && remaining <= remaining0 && mem[..] == Fill(m0, s, i, b)
    {
      StoreFillChunk(mem, m0, s, i, size, b);
      i, remaining := i + PTR_SIZE * size, remaining - size;
    }
  }

  /** `memset`: the prefix bytes, then the aligned words in exact chunks of 64, 32, ..., 1
      words, each size taking what the previous sizes left over, then the postfix bytes. */
  method Memset(mem: array<u8>, s: nat, c: int, n: nat) returns (r: nat)
    requires s + n <= mem.Length < U32_LIMIT
    modifies mem
    ensures r == s
    ensures mem[..] == Fill(old(mem[..]), s, n, Wrap8(c))
  {
    ghost var m0 := mem[..];
    var b := Wrap8(c);
    var (prefix, words, postfix) := AlignTo(s, n);
    FillNothing(m0, s, b);
    var i := FillBytes(mem, m0, s, 0, prefix, b);
    var remaining := words;
    for t := 0 to |CHUNK_SIZES|
      invariant prefix <= i && i + PTR_SIZE * remaining == prefix + PTR_SIZE * words
      invariant t > 0 ==> remaining < CHUNK_SIZES[t - 1]
      invariant mem[..] == Fill(m0, s, i, b)
    {
      i, remaining := FillChunks(mem, m0, s, i, remaining, CHUNK_SIZES[t], b);
    }
    assert remaining == 0;
    i := FillBytes(mem, m0, s, i, n, b);
    r := s;
  }

  /** The C comparison of two byte strings: the difference of the first pair of bytes that
      differ, or 0 when there is none. */
  function Compare(x: seq<u8>, y: seq<u8>): (r: int)
    requires |x| == |y|
    ensures -255 <= r <= 255
  {
    if x == [] then 0
    else if x[0] != y[0] then x[0] as int - y[0] as int
    else Compare(x[1..], y[1..])
  }

  /** The comparison is 0 exactly when the strings are equal. */
  lemma {:induction false} CompareZeroIffEqual(x: seq<u8>, y: seq<u8>)
    requires |x| == |y|
    ensures Compare(x, y) == 0 <==> x == y
  {
    if x != [] && x[0] == y[0] {
      CompareZeroIffEqual(x[1..], y[1..]);
      assert x == [x[0]] + x[1..] && y == [y[0]] + y[1..];
    }
  }

  /** Equal prefixes are skipped: the result is decided by the first difference. */
  lemma {:induction false} CompareSkipsEqualPrefix(x: seq<u8>, y: seq<u8>, i: nat)
    requires |x| == |y| && i <= |x| && x[..i] == y[..i]
    ensures Compare(x, y) == Compare(x[i..], y[i..])
  {
    if i > 0 {
      assert x[0] == x[..i][0] && y[0] == y[..i][0];
      assert x[1..][..i - 1] == x[1..i] && y[1..][..i - 1] == y[1..i];
      assert x[1..i] == x[..i][1..];
      assert y[1..i] == y[..i][1..];
      CompareSkipsEqualPrefix(x[1..], y[1..], i - 1);
      assert x[1..][i - 1..] == x[i..] && y[1..][i - 1..] == y[i..];
    }
  }

  /** The result is the difference at the first index where the strings differ. */
  lemma CompareAtFirstDifference(x: seq<u8>, y: seq<u8>, i: nat)
    requires |x| == |y| && i < |x| && x[..i] == y[..i] && x[i] != y[i]
    ensures Compare(x, y) == x[i] as int - y[i] as int
  {
    CompareSkipsEqualPrefix(x, y, i);
  }

  /** Swapping the operands negates the result. */
  lemma {:induction false} CompareAntisymmetric(x: seq<u8>, y: seq<u8>)
    requires |x| == |y|
    ensures Compare(y, x) == -Compare(x, y)
  {
    if x != [] && x[0] == y[0] {
      CompareAntisymmetric(x[1..], y[1..]);
    }
  }

  /** An equal prefix grows by one when the next bytes agree. */
  lemma PrefixExtends(x: seq<u8>, y: seq<u8>, i: nat)
    requires i < |x| && i < |y| && x[..i] == y[..i] && x[i] == y[i]
    ensures x[..i + 1] == y[..i + 1]
  {
    assert x[..i + 1] == x[..i] + [x[i]] && y[..i + 1] == y[..i] + [y[i]];
  }

  /** A slice of a slice is a slice of the whole. */
  lemma SliceOfSlice(m: seq<u8>, p: nat, n: nat, i: nat, k: nat)
    requires p + n <= |m| && i + k <= n
    ensures m[p..p + n][i..i + k] == m[p + i..p + i + k]
  {
    var l, r := m[p..p + n][i..i + k], m[p + i..p + i + k];
    forall j | 0 <= j < k ensures l[j] == r[j] {
      assert l[j] == m[p + i + j];
    }
  }

  /** One word of `memcmp`: the four bytes `a` and `b` loaded from offset `i` of the
      strings `x` and `y`, compared in address order. Either a difference is found, and its
      value is the comparison of the whole strings, or the equal prefix grows by a word. */
  method CompareWord(a: seq<u8>, b: seq<u8>, ghost x: seq<u8>, ghost y: seq<u8>, ghost i: nat)
    returns (found: bool, r: int)
    requires |x| == |y| && i + PTR_SIZE <= |x|
    requires a == x[i..i + PTR_SIZE] && b == y[i..i + PTR_SIZE] && x[..i] == y[..i]
    ensures found ==> r == Compare(x, y)
    ensures !found ==> x[..i + PTR_SIZE] == y[..i + PTR_SIZE]
  {
    for k := 0 to 4
      invariant x[..i + k] == y[..i + k]
    {
      assert a[k] == x[i + k] && b[k] == y[i + k];
      if a[k] != b[k] {
        CompareAtFirstDifference(x, y, i + k);
        return true, a[k] as int - b[k] as int;
      }
      PrefixExtends(x, y, i + k);
    }
    return false, 0;
  }

  /** The byte loop of `memcmp`, from offset `i0` on, the bytes before it being equal. */
  method CompareBytes(mem: array<u8>, s1: nat, s2: nat, n: nat, i0: nat) returns (r: int)
    requires s1 + n <= mem.Length && s2 + n <= mem.Length && i0 <= n
    requires mem[s1..s1 + n][..i0] == mem[s2..s2 + n][..i0]
    ensures r == Compare(mem[s1..s1 + n], mem[s2..s2 + n])
  {
    ghost var x, y := mem[s1..s1 + n], mem[s2..s2 + n];
    var i := i0;
    while i < n
      invariant i <= n && x[..i] == y[..i]
    {
      var a := mem[s1 + i];
      var b := mem[s2 + i];
      assert a == x[i] && b == y[i];
      if a != b {
        CompareAtFirstDifference(x, y, i);
        return a as int - b as int;
      }
      PrefixExtends(x, y, i);
      i := i + 1;
    }
    assert x == x[..n] && y == y[..n];
    CompareZeroIffEqual(x, y);
    r := 0;
  }

  /** `memcmp`: four bytes at a time while a whole word remains, each word compared byte by
      byte in address order, then the remaining bytes. */
  method Memcmp(mem: array<u8>, s1: nat, s2: nat, n: nat) returns (r: int)
    requires s1 + n <= mem.Length && s2 + n <= mem.Length
    ensures r == Compare(mem[s1..s1 + n], mem[s2..s2 + n])
  {
    ghost var x, y := mem[s1..s1 + n], mem[s2..s2 + n];
    var i := 0;
    while i + PTR_SIZE <= n
      invariant i <= n && x[..i] == y[..i]
    {
      var a := mem[s1 + i..s1 + i + PTR_SIZE];
      var b := mem[s2 + i..s2 + i + PTR_SIZE];
      SliceOfSlice(mem[..], s1, n, i, PTR_SIZE);
      SliceOfSlice(mem[..], s2, n, i, PTR_SIZE);
      var found, d := CompareWord(a, b, x, y, i);
      if found {
        return d;
      }
      i := i + PTR_SIZE;
    }
    r := CompareBytes(mem, s1, s2, n, i);
  }

  /** `bcmp`: `memcmp` under another name. */
  method Bcmp(mem: array<u8>, s1: nat, s2: nat, n: nat) returns (r: int)
    requires s1 + n <= mem.Length && s2 + n <= mem.Length
    ensures r == 0 <==> mem[s1..s1 + n] == mem[s2..s2 + n]
    ensures r == Compare(mem[s1..s1 + n], mem[s2..s2 + n])
  {
    r := Memcmp(mem, s1, s2, n);
    CompareZeroIffEqual(mem[s1..s1 + n], mem[s2..s2 + n]);
  }
}
