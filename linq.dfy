/** The LINQ operators and the C# `int` arithmetic the pagination uses. */
module Linq {

  function Min(a: int, b: int): int { if a <= b then a else b }
  function Max(a: int, b: int): int { if a <= b then b else a }

  /** `Enumerable.Take(n)`: the first `n` elements, none when `n <= 0`,
      all of them when `n` reaches past the end. */
  function Take<T>(xs: seq<T>, n: int): (r: seq<T>)
    ensures r <= xs
    ensures |r| == if n <= 0 then 0 else Min(n, |xs|)
  {
    if n <= 0 then [] else if n < |xs| then xs[..n] else xs
  }

  /** `Enumerable.Skip(n)`: everything after the first `n` elements; a
      negative `n` skips nothing. */
  function Skip<T>(xs: seq<T>, n: int): (r: seq<T>)
    ensures |r| == |xs| - Min(Max(n, 0), |xs|)
    ensures r == xs[|xs| - |r|..]
  {
    if n <= 0 then xs else if n < |xs| then xs[n..] else []
  }

  const Int32Min: int := -0x8000_0000
  const Int32Max: int := 0x7fff_ffff
  const Int32Span: int := 0x1_0000_0000

  /** The values of the C# type `int`. */
  predicate IsInt32(x: int) {
    Int32Min <= x <= Int32Max
  }

  /** Unchecked C# `int` arithmetic: the mathematical result reduced to the
      32-bit two's-complement range. */
  function Wrap32(x: int): (r: int)
    ensures IsInt32(r)
    ensures (x - r) % Int32Span == 0
    ensures IsInt32(x) ==> r == x
  {
    (x - Int32Min) % Int32Span + Int32Min
  }

  /** `(page - 1) * pageSize` evaluated in unchecked `int` arithmetic. */
  function PageOffset(page: int, pageSize: int): (r: int)
    requires IsInt32(page) && IsInt32(pageSize)
    ensures IsInt32(r)
    ensures IsInt32((page - 1) * pageSize) ==> r == (page - 1) * pageSize
  {
    assert page == Int32Min && pageSize != 0 ==> !IsInt32((page - 1) * pageSize) by {
      // `page - 1` itself wraps there; only `pageSize == 0` keeps the product in range
      if page == Int32Min && pageSize > 0 {
        assert (page - 1) * pageSize <= page - 1;
      } else if page == Int32Min && pageSize < 0 {
        assert (page - 1) * pageSize >= -(page - 1);
      }
    }
    Wrap32(Wrap32(page - 1) * pageSize)
  }

  /** `xs.Skip((page - 1) * pageSize).Take(pageSize)`. */
  function Paginate<T>(xs: seq<T>, page: int, pageSize: int): (r: seq<T>)
    requires IsInt32(page) && IsInt32(pageSize)
    ensures |r| <= Max(pageSize, 0)
    ensures |r| <= |xs|
  {
    Take(Skip(xs, PageOffset(page, pageSize)), pageSize)
  }

  /** Without overflow, a page is the contiguous slice of `xs` that starts at
      `(page - 1) * pageSize` and holds up to `pageSize` elements: page 2 of
      size 10 is elements 11 to 20, or fewer when `xs` runs out. */
  lemma PageIsSlice<T>(xs: seq<T>, page: int, pageSize: int)
    requires IsInt32(page) && IsInt32(pageSize)
    requires page >= 1 && pageSize >= 0 && IsInt32((page - 1) * pageSize)
    ensures var start := Min((page - 1) * pageSize, |xs|);
            Paginate(xs, page, pageSize) == xs[start..Min(start + pageSize, |xs|)]
  {
    var offset := (page - 1) * pageSize;
    assert offset >= 0 by {
      NonNegativeProduct(page - 1, pageSize);
    }
    assert PageOffset(page, pageSize) == offset;
    var rest := Skip(xs, offset);
    assert rest == xs[Min(offset, |xs|)..];
  }

  lemma NonNegativeProduct(a: int, b: int)
    requires a >= 0 && b >= 0
    ensures a * b >= 0
  {
  }

  /** The first page is the prefix of `xs` of length `pageSize`. */
  lemma FirstPageIsPrefix<T>(xs: seq<T>, pageSize: int)
    requires IsInt32(pageSize)
    ensures Paginate(xs, 1, pageSize) == Take(xs, pageSize)
    ensures Paginate(xs, 1, pageSize) <= xs
  {
  }
}
