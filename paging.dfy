/** Offset pagination as the list pages request it: page `page` of size `size` starts at
    `skip = (page - 1) * size` and holds `limit = size` records. */
module Paging {

  function Skip(page: int, size: int): int {
    (page - 1) * size
  }

  /** The first page starts at the first record. */
  lemma FirstPageStartsAtZero(size: int)
    ensures Skip(1, size) == 0
  {
  }

  /** Each page starts where the one before it ends. */
  lemma PagesAreContiguous(page: int, size: int)
    ensures Skip(page + 1, size) == Skip(page, size) + size
  {
  }

  /** Multiplying by a positive size keeps the order of page numbers. */
  lemma ScaleMonotone(a: int, b: int, size: int)
    requires a < b && size > 0
    ensures a * size + size <= b * size
  {
    assert b * size - a * size == (b - a) * size;
    assert (b - a) * size >= size by {
      assert (b - a) * size == (b - a - 1) * size + size;
      assert (b - a - 1) * size >= 0;
    }
  }

  /** With a positive size, every record index lies on exactly one page (counting from 1). */
  lemma PageOfIndex(i: nat, size: int)
    requires size > 0
    ensures var p := i / size + 1; p >= 1 && Skip(p, size) <= i < Skip(p, size) + size
    ensures forall p :: p >= 1 && Skip(p, size) <= i < Skip(p, size) + size ==> p == i / size + 1
  {
    var q := i / size;
    assert i == q * size + i % size;
    assert q >= 0;
    forall p | p >= 1 && Skip(p, size) <= i < Skip(p, size) + size
      ensures p == q + 1
    {
      if p - 1 < q {
        ScaleMonotone(p - 1, q, size);
      } else if p - 1 > q {
        ScaleMonotone(q, p - 1, size);
      }
    }
  }
}
