/**
 * Page arithmetic of `DBSelectBuilder+Paginate.swift`: the clamped page
 * request, its offset, the page count of the metadata and `Page.map`.
 */
module Pages {
  import opened Fragments

  /** `PageRequest`: a page number and a page size. */
  datatype PageRequest = PageRequest(page: int, per: int)

  /** `PageRequest.offset`: the number of rows before the page. */
  function Offset(r: PageRequest): int {
    (r.page - 1) * r.per
  }

  /**
   * The request `paginate` builds: the page defaults to 1 and is at least 1;
   * the size defaults to 100 and is clamped to 1 ... 100.
   */
  function Clamp(page: Option<int>, per: Option<int>): (r: PageRequest)
    ensures r.page >= 1 && 1 <= r.per <= 100
    ensures r.page == (if page.Some? && page.value >= 1 then page.value else 1)
    ensures per.None? ==> r.per == 100
    ensures per.Some? ==> r.per == (if per.value < 1 then 1 else if per.value > 100 then 100 else per.value)
  {
    var p := if page.Some? then page.value else 1;
    var n := if per.Some? then per.value else 100;
    PageRequest(if p > 1 then p else 1, if (if n < 100 then n else 100) > 1 then (if n < 100 then n else 100) else 1)
  }

  /**
   * After clamping the offset is never negative, the first page starts at
   * row 0, and each page starts where the one before it ends.
   */
  lemma ClampedOffset(page: Option<int>, per: Option<int>)
    ensures Offset(Clamp(page, per)) >= 0
    ensures Clamp(page, per).page == 1 ==> Offset(Clamp(page, per)) == 0
    ensures Offset(PageRequest(Clamp(page, per).page + 1, Clamp(page, per).per))
         == Offset(Clamp(page, per)) + Clamp(page, per).per
  {
    var r := Clamp(page, per);
    assert (r.page - 1) * r.per >= 0 by {
      MulNonNegative(r.page - 1, r.per);
    }
    assert r.page * r.per == (r.page - 1) * r.per + r.per;
  }

  lemma MulNonNegative(a: int, b: int)
    requires a >= 0 && b >= 0
    ensures a * b >= 0
  {
  }

  /** `PageMetadata`: the page number, the page size and the total number of rows. */
  datatype PageMetadata = PageMetadata(page: int, per: int, total: int)

  /** The ceiling of `a / b`. */
  function CeilDiv(a: int, b: int): (q: int)
    requires b != 0
    ensures b > 0 ==> b * (q - 1) < a <= b * q
    ensures b < 0 ==> b * q <= a < b * (q - 1)
  {
    if b > 0 then
      var q := (a + b - 1) / b;
      assert a + b - 1 == b * q + (a + b - 1) % b;
      q
    else
      var q := (-a + (-b) - 1) / (-b);
      assert -a + (-b) - 1 == (-b) * q + (-a + (-b) - 1) % (-b);
      q
  }

  /**
   * `pageCount`: the total divided by the page size, rounded up, and at
   * least 1.  A page size of 0 makes the rounded quotient infinite or not a
   * number, and its conversion to `Int` traps.
   */
  function PageCount(m: PageMetadata): int
    requires m.per != 0
  {
    var count := CeilDiv(m.total, m.per);
    if count < 1 then 1 else count
  }

  /**
   * For a positive page size, `PageCount` pages of that size hold every row
   * and one page fewer would not; with no rows there is one page.
   */
  lemma PageCountFits(m: PageMetadata)
    requires m.per > 0
    ensures PageCount(m) >= 1
    ensures m.total <= PageCount(m) * m.per
    ensures m.total > 0 ==> (PageCount(m) - 1) * m.per < m.total
    ensures m.total <= 0 ==> PageCount(m) == 1
  {
    var q := CeilDiv(m.total, m.per);
    if q < 1 {
      assert m.total <= m.per * q;
      assert m.per * q <= 0 by {
        MulNonNegative(m.per, -q);
      }
      assert m.total <= m.per;
    }
    if m.total > 0 {
      assert q >= 1 by {
        if q < 1 {
          MulNonNegative(m.per, -q);
        }
      }
    } else if q >= 1 {
      assert q - 1 >= 0;
      MulNonNegative(m.per, q - 1);
      assert false;
    }
  }

  /** `Page`: the items of one page and the metadata. */
  datatype Page<T> = Page(items: seq<T>, metadata: PageMetadata)

  /** `Page.map`: every item transformed, in order, the metadata kept. */
  function MapPage<T, U>(p: Page<T>, f: T -> U): Page<U> {
    Page(seq(|p.items|, i requires 0 <= i < |p.items| => f(p.items[i])), p.metadata)
  }

  /** Mapping by the identity gives the page back. */
  lemma {:induction false} MapPageIdentity<T>(p: Page<T>)
    ensures MapPage(p, x => x) == p
  {
    assert MapPage(p, x => x).items == p.items;
  }

  /** Mapping twice is mapping once by the composition. */
  lemma MapPageCompose<T, U, V>(p: Page<T>, f: T -> U, g: U -> V)
    ensures MapPage(MapPage(p, f), g) == MapPage(p, x => g(f(x)))
  {
    var a, b := MapPage(MapPage(p, f), g), MapPage(p, x => g(f(x)));
    assert a.items == b.items;
  }

  /** The page `paginate` returns: the fetched items, the clamped request and the counted total. */
  function PageOf<T>(items: seq<T>, request: PageRequest, total: int): Page<T> {
    Page(items, PageMetadata(request.page, request.per, total))
  }
}
