/** Page requests: from the query texts to LIMIT and OFFSET, and what a client that walks the pages receives. */
module Pagination {
  import opened Tables
  import opened Codec

  const DEFAULT_PAGE_SIZE := 10
  const MAX_PAGE_SIZE := 100
  const DEFAULT_PAGE_INDEX := 1
  const ATOI_CUTOFF := 0x8000_0000_0000_0000

  datatype PaginationParams = PaginationParams(limit: int, offset: int, pageIndex: int, pageSize: int)

  /** Conversion to a signed integer of the width whose range is -half <= x < half. */
  function Wrap(x: int, half: int): int
    requires half > 0
  {
    (x + half) % (2 * half) - half
  }

  function Wrap32(x: int): int {
    Wrap(x, 0x8000_0000)
  }

  // ---- Reading the query ----

  /** The page size a text asks for. */
  function PageSizeOf(text: string): nat {
    match ParseInt(text, ATOI_CUTOFF)
    case Some(v) => if v <= 0 then DEFAULT_PAGE_SIZE else if v > MAX_PAGE_SIZE then MAX_PAGE_SIZE else v
    case None => DEFAULT_PAGE_SIZE
  }

  function PageIndexOf(text: string): nat {
    match ParseInt(text, ATOI_CUTOFF)
    case Some(v) => if v >= 1 then v else DEFAULT_PAGE_INDEX
    case None => DEFAULT_PAGE_INDEX
  }

  method ParsePaginationParams(pageSizeText: string, pageIndexText: string) returns (p: PaginationParams)
    ensures 1 <= p.pageSize <= MAX_PAGE_SIZE && p.limit == p.pageSize
    ensures p.pageSize == PageSizeOf(pageSizeText)
    ensures p.pageIndex == Wrap32(PageIndexOf(pageIndexText))
    ensures p.offset == Wrap32((PageIndexOf(pageIndexText) - 1) * PageSizeOf(pageSizeText))
  {
    var pageSize, pageIndex := DEFAULT_PAGE_SIZE, DEFAULT_PAGE_INDEX;
    if pageSizeText != "" {
      var parsed := ParseInt(pageSizeText, ATOI_CUTOFF);
      if parsed.Some? && parsed.value > 0 {
        pageSize := parsed.value;
        if pageSize > MAX_PAGE_SIZE {
          pageSize := MAX_PAGE_SIZE;
        }
      }
    }
    if pageIndexText != "" {
      var parsed := ParseInt(pageIndexText, ATOI_CUTOFF);
      if parsed.Some? && parsed.value >= 1 {
        pageIndex := parsed.value;
      }
    }
    var offset := Wrap((pageIndex - 1) * pageSize, ATOI_CUTOFF);    // a 64-bit product
    Wrap64Then32((pageIndex - 1) * pageSize);
    Wrap32Fixes(pageSize);
    return PaginationParams(Wrap32(pageSize), Wrap32(offset), Wrap32(pageIndex), Wrap32(pageSize));
  }

  lemma Wrap32Fixes(x: int)
    ensures InInt32(Wrap32(x)) && (Wrap32(x) == x <==> InInt32(x))
  {}

  /** Cutting to 64 bits first does not change the 32-bit result. */
  lemma Wrap64Then32(x: int)
    ensures Wrap32(Wrap(x, ATOI_CUTOFF)) == Wrap32(x)
  {
    var w := Wrap(x, ATOI_CUTOFF);
    var q := (x + ATOI_CUTOFF) / (2 * ATOI_CUTOFF);
    assert x == w + q * 0x1_0000_0000 * 0x1_0000_0000;
    SameRemainder(w + 0x8000_0000, q * 0x1_0000_0000, 0x1_0000_0000);
  }

  lemma SameRemainder(x: int, q: int, d: int)
    requires d > 0
    ensures (x + q * d) % d == x % d
  {
    var r := x % d;
    var a := x / d;
    assert x + q * d == (a + q) * d + r;
    DivisionIsUnique(x + q * d, a + q, r, d);
  }

  lemma MultipleIsFar(k: int, d: int)
    requires d > 0
    ensures k >= 1 ==> k * d >= d
    ensures k <= -1 ==> k * d <= -d
  {}

  lemma DivisionIsUnique(x: int, q: int, r: int, d: int)
    requires d > 0 && 0 <= r < d && x == q * d + r
    ensures x % d == r && x / d == q
  {
    var k := x / d - q;
    assert k * d == r - x % d;
    MultipleIsFar(k, d);
  }

  /** The size and index a request gets, in terms of the numerals its texts spell. */
  lemma RequestMeaning(text: string, v: int)
    requires Spells(text, v) && -ATOI_CUTOFF <= v < ATOI_CUTOFF
    ensures PageSizeOf(text) == if v <= 0 then 10 else if v <= 100 then v else 100
    ensures PageIndexOf(text) == if v <= 0 then 1 else v
  {
    ParseIntMeaning(text, ATOI_CUTOFF, v);
  }

  lemma MalformedRequest(text: string)
    requires forall v | -ATOI_CUTOFF <= v < ATOI_CUTOFF :: !Spells(text, v)
    ensures PageSizeOf(text) == 10 && PageIndexOf(text) == 1
  {
    if ParseInt(text, ATOI_CUTOFF).Some? {
      ParseIntMeaning(text, ATOI_CUTOFF, ParseInt(text, ATOI_CUTOFF).value);
    }
  }

  // ---- What the database returns ----

  /** LIMIT and OFFSET over rows in a fixed order; a negative offset is an error. */
  function Select<T>(rows: seq<T>, limit: nat, offset: int): Option<seq<T>> {
    if offset < 0 then None else
      var start := Min(offset, |rows|);
      Some(rows[start..Min(start + limit, |rows|)])
  }

  /** The rows of page i, counted from 1, of the given size. */
  function Page<T>(rows: seq<T>, size: nat, i: nat): seq<T>
    requires i >= 1
  {
    if (i - 1) * size >= |rows| then [] else rows[(i - 1) * size..Min((i - 1) * size + size, |rows|)]
  }

  function TotalPages(count: nat, size: nat): nat
    requires size > 0
  {
    (count + size - 1) / size
  }

  function RequestOffset(i: nat, size: nat): int
    requires i >= 1
  {
    Wrap32((i - 1) * size)
  }

  /** A request for page i is answered with page i of every list exactly when its offset fits in 32 bits. */
  lemma RequestIsExact(i: nat, size: nat)
    requires i >= 1 && size >= 1
    ensures (forall rows: seq<nat> :: Select(rows, size, RequestOffset(i, size)) == Some(Page(rows, size, i)))
            <==> (i - 1) * size < 0x8000_0000
  {
    var exact := (i - 1) * size;
    Wrap32Fixes(exact);
    if exact < 0x8000_0000 {
      forall rows: seq<nat> ensures Select(rows, size, RequestOffset(i, size)) == Some(Page(rows, size, i)) {
        SelectIsPage(rows, size, i);
      }
    } else {
      var got := RequestOffset(i, size);
      var rows: seq<nat> := seq(if got < 0 then 0 else got + 1, k => 0);
      assert Select(rows, size, got) != Some(Page(rows, size, i)) by {
        if got >= 0 { assert Page(rows, size, i) == [] && |Select(rows, size, got).value| == 1; }
      }
    }
  }

  lemma SelectIsPage<T>(rows: seq<T>, size: nat, i: nat)
    requires i >= 1 && 0 <= (i - 1) * size < 0x8000_0000
    ensures Select(rows, size, RequestOffset(i, size)) == Some(Page(rows, size, i))
  {
    var first := (i - 1) * size;
    Wrap32Fixes(first);
    assert first >= |rows| ==> rows[|rows|..|rows|] == [];
  }

  /** A request whose offset does not fit: page 42949674 in pages of 100 starts again at row 4. */
  lemma FarPageStartsAgain(rows: seq<nat>)
    requires |rows| == 5
    ensures Select(rows, 100, RequestOffset(42949674, 100)) == Some([rows[4]])
    ensures Page(rows, 100, 42949674) == []
  {
    assert RequestOffset(42949674, 100) == 4 && rows[4..5] == [rows[4]];
  }

  /** What a client holds after asking for pages 1..k; None as soon as one request fails. */
  function Walk<T>(rows: seq<T>, size: nat, k: nat): Option<seq<T>> {
    if k == 0 then Some([]) else
      match Walk(rows, size, k - 1)
      case None => None
      case Some(before) =>
        match Select(rows, size, RequestOffset(k, size))
        case None => None
        case Some(page) => Some(before + page)
  }

  lemma NextPage<T>(rows: seq<T>, size: nat, k: nat)
    requires k >= 1
    ensures k * size == (k - 1) * size + size
    ensures k > 1 ==> 0 <= (k - 2) * size <= (k - 1) * size
    ensures rows[..Min((k - 1) * size, |rows|)] + Page(rows, size, k) == rows[..Min(k * size, |rows|)]
  {
    var before := (k - 1) * size;
    assert k * size == before + size;
  }

  lemma {:induction false} WalkIsPrefix<T>(rows: seq<T>, size: nat, k: nat)
    requires size >= 1 && (k == 0 || (k - 1) * size < 0x8000_0000)
    ensures Walk(rows, size, k) == Some(rows[..Min(k * size, |rows|)])
  {
    if k > 0 {
      var before := (k - 1) * size;
      NextPage(rows, size, k);
      WalkIsPrefix(rows, size, k - 1);
      SelectIsPage(rows, size, k);
      assert Some(rows[..Min(before, |rows|)] + Page(rows, size, k)) == Walk(rows, size, k);
    }
  }

  /** The number of pages is the least that holds all rows. */
  lemma TotalPagesIsLeast(count: nat, size: nat, k: nat)
    requires size > 0
    ensures TotalPages(count, size) <= k <==> count <= k * size
  {
    var t := TotalPages(count, size);
    assert count <= t * size < count + size;
    if t <= k {
      assert t * size <= k * size;
    } else {
      assert (k + 1) * size <= t * size;
    }
  }

  /** Pages 1..total_pages, one after the other, are the list, each row exactly once. */
  lemma PagesPartition<T>(rows: seq<T>, size: nat)
    requires 1 <= size <= MAX_PAGE_SIZE
    requires (TotalPages(|rows|, size) - 1) * size < 0x8000_0000
    ensures Walk(rows, size, TotalPages(|rows|, size)) == Some(rows)
  {
    var t := TotalPages(|rows|, size);
    TotalPagesIsLeast(|rows|, size, t);
    WalkIsPrefix(rows, size, t);
    assert rows[..|rows|] == rows;
  }

  /** A page is empty exactly when it comes after the last. */
  lemma LaterPagesEmpty<T>(rows: seq<T>, size: nat, i: nat)
    requires 1 <= size <= MAX_PAGE_SIZE && i >= 1 && (i - 1) * size < 0x8000_0000
    ensures Select(rows, size, RequestOffset(i, size)) == Some([]) <==> i > TotalPages(|rows|, size)
  {
    TotalPagesIsLeast(|rows|, size, i - 1);
    SelectIsPage(rows, size, i);
    var first := (i - 1) * size;
    assert Page(rows, size, i) == [] <==> first >= |rows|;
  }
}
