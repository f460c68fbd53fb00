/** Limit/offset pagination of a query result, the query seen as the sequence of rows
    it returns. */
module Pagination {

  import opened Common

  function Min(a: int, b: int): int { if a <= b then a else b }

  /** The offset of a page: pages are numbered from 1. */
  function Offset(page: int, size: int): int
  {
    (page - 1) * size
  }

  /** The rows of one page: `LIMIT size OFFSET offset` over the whole result. */
  function PageRows<T>(q: seq<T>, page: int, size: int): seq<T>
    requires size >= 0 && Offset(page, size) >= 0
  {
    var offset := Offset(page, size);
    q[Min(offset, |q|)..Min(offset + size, |q|)]
  }

  /** `paginate(query, page, size)`: the rows of the page and the length of the whole
      result. The database refuses a negative `LIMIT` or `OFFSET`. */
  function Paginate<T>(q: seq<T>, page: int, size: int): (r: Result<(seq<T>, nat)>)
    ensures r.Ok? <==> size >= 0 && Offset(page, size) >= 0
    ensures r.Ok? ==> r.value.1 == |q|
    ensures r.Ok? ==> |r.value.0| <= size
    ensures r.Ok? ==> |r.value.0| == if Offset(page, size) >= |q| then 0 else Min(size, |q| - Offset(page, size))
    ensures r.Ok? ==> forall k :: 0 <= k < |r.value.0| ==> r.value.0[k] == q[Offset(page, size) + k]
    ensures r.Err? ==> r.error == DataError
  {
    if size < 0 || Offset(page, size) < 0 then Err(DataError)
    else Ok((PageRows(q, page, size), |q|))
  }

  /** A page number from 1 on is accepted for every non-negative size. */
  lemma PagesFromOneAccepted<T>(q: seq<T>, page: int, size: int)
    requires page >= 1 && size >= 0
    ensures Paginate(q, page, size).Ok?
  {
    assert Offset(page, size) >= 0 by {
      assert page - 1 >= 0;
    }
  }

  /** Page 1 starts at the first row. */
  lemma FirstPage<T>(q: seq<T>, size: nat)
    ensures Paginate(q, 1, size) == Ok((q[..Min(size, |q|)], |q|))
  {
  }

  /** Pages `p` and `p + 1` are adjacent slices of the result: together they are the
      rows from offset `(p - 1) * size` up to offset `(p + 1) * size`. */
  lemma PagesAdjacent<T>(q: seq<T>, p: int, size: nat)
    requires p >= 1
    ensures PageRows(q, p, size) + PageRows(q, p + 1, size) ==
      q[Min(Offset(p, size), |q|)..Min(Offset(p + 1, size) + size, |q|)]
  {
    var a := Offset(p, size);
    assert Offset(p + 1, size) == a + size by {
      assert p * size == (p - 1) * size + size;
    }
    assert a >= 0 by { assert p - 1 >= 0; }
    var i, j, k := Min(a, |q|), Min(a + size, |q|), Min(a + size + size, |q|);
    assert q[i..j] + q[j..k] == q[i..k];
  }

  /** Pages 1 to `count`, one after the other. */
  function PagesUpTo<T>(q: seq<T>, size: nat, count: nat): seq<T>
    decreases count
  {
    if count == 0 then [] else PagesUpTo(q, size, count - 1) + PageRows(q, count, size)
  }

  /** The first `count` pages are the first `count * size` rows. */
  lemma {:induction false} PagesUpToPrefix<T>(q: seq<T>, size: nat, count: nat)
    ensures PagesUpTo(q, size, count) == q[..Min(count * size, |q|)]
    decreases count
  {
    if count > 0 {
      PagesUpToPrefix(q, size, count - 1);
      assert Offset(count, size) == (count - 1) * size;
      assert count * size == (count - 1) * size + size;
    }
  }

  /** Concatenating pages 1 to ceil(total / size) gives the whole result in order. */
  lemma AllPages<T>(q: seq<T>, size: nat)
    requires size > 0
    ensures PagesUpTo(q, size, (|q| + size - 1) / size) == q
  {
    var c := (|q| + size - 1) / size;
    assert c * size >= |q| by {
      assert (|q| + size - 1) - c * size < size;
    }
    PagesUpToPrefix(q, size, c);
  }
}
