/**
 Pagination parameters of package appcore_model: getters that write their
 defaults back into the struct, and the row offset computed from them.

 Go's int is 64 bits wide here; its wrap-around on overflow is written out
 with Wrap64.
 */
module AppcoreModel {

  const MinInt64: int := -0x8000_0000_0000_0000
  const MaxInt64: int := 0x7fff_ffff_ffff_ffff
  const Modulus64: int := 0x1_0000_0000_0000_0000

  /** Go's int on a 64-bit platform. */
  type Int64 = x: int | MinInt64 <= x <= MaxInt64

  /** Two's-complement wrap-around: the Int64 congruent to x modulo 2^64. */
  function Wrap64(x: int): (r: Int64)
    ensures (x - r) % Modulus64 == 0
    ensures MinInt64 <= x <= MaxInt64 ==> r == x
  {
    var m := x % Modulus64;
    if m > MaxInt64 then m - Modulus64 else m
  }

  const DefaultLimit: Int64 := 10
  const DefaultPage: Int64 := 1
  const DefaultSort: string := "id desc"

  /** The limit after defaulting: only 0 is replaced, by 10. */
  function LimitOrDefault(limit: Int64): (r: Int64)
    ensures r != 0
    ensures limit != 0 ==> r == limit
    ensures limit == 0 ==> r == DefaultLimit
  {
    if limit == 0 then DefaultLimit else limit
  }

  /** The page after defaulting: only 0 is replaced, by 1. */
  function PageOrDefault(page: Int64): (r: Int64)
    ensures r != 0
    ensures page != 0 ==> r == page
    ensures page == 0 ==> r == DefaultPage
  {
    if page == 0 then DefaultPage else page
  }

  /** The sort order after defaulting: only "" is replaced, by "id desc". */
  function SortOrDefault(sort: string): (r: string)
    ensures r != ""
    ensures sort != "" ==> r == sort
    ensures sort == "" ==> r == DefaultSort
  {
    if sort == "" then DefaultSort else sort
  }

  /**
   The offset Go computes, (page - 1) * limit on the defaulted values, each
   operation wrapping. It is the Int64 congruent to the exact product modulo
   2^64, which determines it (see Int64Congruent).
   */
  function Offset(page: Int64, limit: Int64): (r: Int64)
    ensures (r - (PageOrDefault(page) as int - 1) * LimitOrDefault(limit)) % Modulus64 == 0
  {
    var p := PageOrDefault(page) as int - 1;
    var l := LimitOrDefault(limit) as int;
    WrapTwiceCongruent(p, l);
    Wrap64(Wrap64(p) * l)
  }

  /** Wrapping p, multiplying by l and wrapping again stays congruent to p * l modulo 2^64. */
  lemma WrapTwiceCongruent(p: int, l: int)
    ensures (Wrap64(Wrap64(p) * l) - p * l) % Modulus64 == 0
  {
    var w := Wrap64(p);
    MulCongruent(w, p, l);
    var wl, pl := w * l, p * l;
    SameClass(Wrap64(wl), wl, pl);
  }

  /** If b is congruent to both a and c modulo 2^64, so are a and c. */
  lemma SameClass(a: int, b: int, c: int)
    requires (b - a) % Modulus64 == 0 && (b - c) % Modulus64 == 0
    ensures (a - c) % Modulus64 == 0
  {
    var k1, k2 := (b - a) / Modulus64, (b - c) / Modulus64;
    assert b - a == Modulus64 * k1 && b - c == Modulus64 * k2;
    assert a - c == Modulus64 * (k2 - k1);
  }

  /** Multiplying two numbers congruent modulo 2^64 by the same factor keeps them congruent. */
  lemma MulCongruent(x: int, y: int, b: int)
    requires (x - y) % Modulus64 == 0
    ensures (x * b - y * b) % Modulus64 == 0
  {
    var k := (x - y) / Modulus64;
    assert x - y == Modulus64 * k;
    assert x * b - y * b == (x - y) * b;
    assert x * b - y * b == Modulus64 * (k * b);
  }

  /** Two Int64 values congruent modulo 2^64 are equal, so congruence pins down a wrapped result. */
  lemma Int64Congruent(a: Int64, b: Int64)
    requires (a - b) % Modulus64 == 0
    ensures a == b
  {
  }

  /** Pagination[T]: the query parameters and the page of rows. */
  class Pagination<T> {
    var Limit: Int64
    var Page: Int64
    var Sort: string
    var TotalRows: Int64
    var TotalPages: Int64
    var Rows: seq<T>

    constructor (limit: Int64, page: Int64, sort: string)
      ensures Limit == limit && Page == page && Sort == sort
      ensures TotalRows == 0 && TotalPages == 0 && Rows == []
    {
      Limit, Page, Sort := limit, page, sort;
      TotalRows, TotalPages, Rows := 0, 0, [];
    }

    /** GetLimit: a Limit of 0 becomes 10; the (new) Limit is returned. Only Limit may change. */
    method GetLimit() returns (limit: Int64)
      modifies this`Limit
      ensures Limit == LimitOrDefault(old(Limit))
      ensures limit == Limit
    {
      if Limit == 0 {
        Limit := DefaultLimit;
      }
      limit := Limit;
    }

    /** GetPage: a Page of 0 becomes 1; the (new) Page is returned. Only Page may change. */
    method GetPage() returns (page: Int64)
      modifies this`Page
      ensures Page == PageOrDefault(old(Page))
      ensures page == Page
    {
      if Page == 0 {
        Page := DefaultPage;
      }
      page := Page;
    }

    /** GetSort: an empty Sort becomes "id desc"; the (new) Sort is returned. Only Sort may change. */
    method GetSort() returns (sort: string)
      modifies this`Sort
      ensures Sort == SortOrDefault(old(Sort))
      ensures sort == Sort
    {
      if Sort == "" {
        Sort := DefaultSort;
      }
      sort := Sort;
    }

    /** GetOffset: (GetPage() - 1) * GetLimit(), page first; both defaults are written back. */
    method GetOffset() returns (offset: Int64)
      modifies this`Page, this`Limit
      ensures Page == PageOrDefault(old(Page)) && Limit == LimitOrDefault(old(Limit))
      ensures offset == Offset(old(Page), old(Limit))
      ensures offset == Wrap64(Wrap64(Page as int - 1) * Limit)
    {
      var page := GetPage();
      var limit := GetLimit();
      offset := Wrap64(Wrap64(page as int - 1) * limit);
    }

    /**
     The arguments of the scope Paginate returns, evaluated left to right:
     Offset(GetOffset()), Limit(GetLimit()), Order(GetSort()). The limit
     passed on is the one the offset was computed with.
     */
    method ScopeArguments() returns (offset: Int64, limit: Int64, sort: string)
      modifies this`Page, this`Limit, this`Sort
      ensures Page == PageOrDefault(old(Page)) && Limit == LimitOrDefault(old(Limit))
      ensures Sort == SortOrDefault(old(Sort))
      ensures offset == Offset(old(Page), old(Limit))
      ensures limit == LimitOrDefault(old(Limit)) && sort == SortOrDefault(old(Sort))
      ensures offset == Wrap64(Wrap64(Page as int - 1) * limit)
    {
      offset := GetOffset();
      limit := GetLimit();
      sort := GetSort();
    }
  }

  /** The getters are idempotent: defaulting a defaulted value changes nothing. */
  lemma DefaultsIdempotent(limit: Int64, page: Int64, sort: string)
    ensures LimitOrDefault(LimitOrDefault(limit)) == LimitOrDefault(limit)
    ensures PageOrDefault(PageOrDefault(page)) == PageOrDefault(page)
    ensures SortOrDefault(SortOrDefault(sort)) == SortOrDefault(sort)
  {
  }

  /** A zero-valued Pagination starts at offset 0. */
  lemma ZeroPaginationOffset()
    ensures Offset(0, 0) == 0
    ensures LimitOrDefault(0) == 10 && PageOrDefault(0) == 1 && SortOrDefault("") == "id desc"
  {
  }

  /** Without overflow the offset is exactly (page - 1) * limit: the rows of the earlier pages. */
  lemma OffsetWithoutOverflow(page: Int64, limit: Int64)
    requires page >= 1 && limit >= 1
    requires (page - 1) * limit <= MaxInt64
    ensures Offset(page, limit) == (page - 1) * limit
    ensures Offset(page, limit) >= 0
  {
    var p := page - 1;
    assert p * limit >= 0 by {
      assert p >= 0;
    }
  }

  /** Without overflow consecutive pages start exactly limit rows apart, so pages do not overlap or leave gaps. */
  lemma ConsecutivePages(page: Int64, limit: Int64)
    requires page >= 1 && limit >= 1 && page < MaxInt64
    requires page * limit <= MaxInt64
    ensures Offset(page + 1, limit) == Offset(page, limit) + limit
  {
    assert page * limit == (page - 1) * limit + limit;
    OffsetWithoutOverflow(page, limit);
    OffsetWithoutOverflow(page + 1, limit);
  }

  /** Negative values are not defaults: Page -1 with Limit 10 gives offset -20. */
  lemma NegativePageOffset()
    ensures Offset(-1, 10) == -20
    ensures PageOrDefault(-1) == -1 && LimitOrDefault(-5) == -5
  {
  }

  /** A page beyond 2^62 with limit 4 wraps: the offset comes back as 0. */
  lemma OffsetWrapsAround()
    ensures Offset(0x4000_0000_0000_0001, 4) == 0
  {
    assert (0x4000_0000_0000_0001 - 1) * 4 == Modulus64;
  }
}
