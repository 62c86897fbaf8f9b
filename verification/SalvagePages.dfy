/**
 The page container of a scrollback database: an SQLite image cut into pages,
 each compressed on its own.  Writing, reading back and rebuilding the image,
 with the page-count rule of section 1.3.7 of the SQLite file format.
 */
module SalvagePages {
  import opened CBytes
  import opened Wrappers

  datatype Method = Raw | Zstd | ZstdDict

  /** `decompress` is None for data the library refuses. */
  datatype Codec = Codec(compress: seq<byte> -> seq<byte>, decompress: seq<byte> -> Option<seq<byte>>)

  ghost predicate Lossless(c: Codec) {
    forall p: seq<byte> :: c.decompress(c.compress(p)) == Some(p)
  }

  /** The compressor without a dictionary, and the one a dictionary makes. */
  datatype Library = Library(plain: Codec, withDict: seq<byte> -> Codec)

  ghost predicate AllLossless(z: Library) {
    Lossless(z.plain) && forall d: seq<byte> :: Lossless(z.withDict(d))
  }

  datatype Stored = Stored(pgno: nat, data: seq<byte>, how: Method)

  /** The outer database: its page rows in page order, and its dictionary. */
  datatype Outer = Outer(rows: seq<Stored>, dict: Option<seq<byte>>)

  /** What read_outer returns. */
  datatype Contents = Contents(pageSize: nat, headerCount: nat, trusted: bool, pages: map<nat, seq<byte>>,
                               dict: Option<seq<byte>>)

  // ----- the header -----

  function PadTo(s: seq<byte>, n: nat): (r: seq<byte>)
    ensures |r| >= n && s <= r
  {
    if |s| >= n then s else s + seq(n - |s|, _ => 0)
  }

  function U32(h: seq<byte>, at: nat): nat
    requires at + 4 <= |h|
  {
    ((h[at] as int * 256 + h[at + 1]) * 256 + h[at + 2]) * 256 + h[at + 3]
  }

  /** Bytes 16 and 17; the value 1 means 65536. */
  function PageSize(h: seq<byte>): nat
    requires |h| >= 18
  {
    var ps: int := h[16] as int * 256 + h[17];
    if ps == 1 then 65536 else ps
  }

  function HeaderCount(h: seq<byte>): nat
    requires |h| >= 100
  {
    U32(h, 28)
  }

  /** The in-header page count counts only while the change counter equals the
      version-valid-for number. */
  predicate Trusted(h: seq<byte>)
    requires |h| >= 100
  {
    U32(h, 24) == U32(h, 92)
  }

  // ----- writing -----

  function PageAt(image: seq<byte>, ps: nat, i: nat): seq<byte>
    requires (i + 1) * ps <= |image|
  {
    PageBounds(i, ps);
    image[i * ps..(i + 1) * ps]
  }

  lemma PageBounds(i: nat, ps: nat)
    ensures i * ps <= (i + 1) * ps && (i + 1) * ps - i * ps == ps
  {
  }

  /** An empty dictionary counts as none. */
  predicate HasDict(dict: Option<seq<byte>>) {
    dict.Some? && dict.value != []
  }

  /** The dictionary the outer database is given: none when it is empty. */
  function Kept(dict: Option<seq<byte>>): Option<seq<byte>> {
    if HasDict(dict) then dict else None
  }

  function StorePage(z: Library, dict: Option<seq<byte>>, pgno: nat, page: seq<byte>, ps: nat): Stored {
    if pgno == 1 then Stored(pgno, page, Raw)
    else
      var comp := if HasDict(dict) then z.withDict(dict.value).compress(page) else z.plain.compress(page);
      if |comp| >= ps then Stored(pgno, page, Raw)
      else Stored(pgno, comp, if HasDict(dict) then ZstdDict else Zstd)
  }

  /** The rows of pages `i` and up. */
  function StoreFrom(z: Library, dict: Option<seq<byte>>, image: seq<byte>, ps: nat, i: nat, n: nat): seq<Stored>
    requires i <= n && n * ps == |image|
    decreases n - i
  {
    if i == n then []
    else
      PagesFit(i, n, ps);
      [StorePage(z, dict, i + 1, PageAt(image, ps, i), ps)] + StoreFrom(z, dict, image, ps, i + 1, n)
  }

  lemma PagesFit(i: nat, n: nat, ps: nat)
    requires i < n
    ensures (i + 1) * ps <= n * ps
  {
    assert (n - (i + 1)) * ps >= 0;
    assert n * ps == (i + 1) * ps + (n - (i + 1)) * ps;
  }

  /** A page size that divides the image; the program stops with an error otherwise. */
  predicate Writable(image: seq<byte>) {
    |image| >= 18 && PageSize(image) > 0 && |image| % PageSize(image) == 0
  }

  function PageTotal(image: seq<byte>): (n: nat)
    requires Writable(image)
    ensures n * PageSize(image) == |image|
  {
    var ps := PageSize(image);
    assert |image| == ps * (|image| / ps) + |image| % ps;
    |image| / ps
  }

  function Write(z: Library, image: seq<byte>, dict: Option<seq<byte>>): Option<Outer> {
    if !Writable(image) then None
    else Some(Outer(StoreFrom(z, Kept(dict), image, PageSize(image), 0, PageTotal(image)), Kept(dict)))
  }

  /** write_outer. */
  method WriteOuter(z: Library, image: seq<byte>, dict: Option<seq<byte>>) returns (outer: Option<Outer>)
    ensures outer == Write(z, image, dict)
  {
    hide StorePage;
    if |image| < 18 {
      return None;
    }
    var ps := PageSize(image);
    if ps == 0 || |image| % ps != 0 {
      return None;
    }
    var n := PageTotal(image);
    var kept := if dict.Some? && dict.value != [] then dict else None;
    var rows: seq<Stored> := [];
    var i := 0;
    while i < n
      invariant 0 <= i <= n
      invariant StoreFrom(z, kept, image, ps, 0, n) == rows + StoreFrom(z, kept, image, ps, i, n)
    {
      PagesFit(i, n, ps);
      var row := StorePage(z, kept, i + 1, PageAt(image, ps, i), ps);
      assert StoreFrom(z, kept, image, ps, i, n) == [row] + StoreFrom(z, kept, image, ps, i + 1, n);
      assert rows + ([row] + StoreFrom(z, kept, image, ps, i + 1, n)) == rows + [row] + StoreFrom(z, kept, image, ps, i + 1, n);
      rows := rows + [row];
      i := i + 1;
    }
    assert rows + [] == rows;
    outer := Some(Outer(rows, kept));
  }

  lemma {:induction false} StoreFromAt(z: Library, dict: Option<seq<byte>>, image: seq<byte>, ps: nat, i: nat, n: nat, k: nat)
    requires i <= k < n && n * ps == |image|
    ensures (k + 1) * ps <= |image|
    ensures var rows := StoreFrom(z, dict, image, ps, i, n);
      |rows| == n - i && rows[k - i] == StorePage(z, dict, k + 1, PageAt(image, ps, k), ps)
    decreases n - i
  {
    hide StorePage, PageAt;
    PagesFit(k, n, ps);
    if i < n {
      StoreFromLength(z, dict, image, ps, i, n);
      if k > i {
        StoreFromAt(z, dict, image, ps, i + 1, n, k);
      }
    }
  }

  lemma {:induction false} StoreFromLength(z: Library, dict: Option<seq<byte>>, image: seq<byte>, ps: nat, i: nat, n: nat)
    requires i <= n && n * ps == |image|
    ensures |StoreFrom(z, dict, image, ps, i, n)| == n - i
    decreases n - i
  {
    hide StorePage, PageAt;
    if i < n {
      StoreFromLength(z, dict, image, ps, i + 1, n);
    }
  }

  lemma IsAPage(k: nat, n: nat, ps: nat)
    requires ps > 0 && (k + 1) * ps <= n * ps
    ensures k < n
  {
    if k >= n {
      PagesFit(n, k + 1, ps);
    }
  }

  /** What is stored.  Every page has its row, in order.  The first one, and a page
      that compressing does not make smaller, is stored as it is; any other one
      compressed, with the dictionary if there is one that is not empty. */
  lemma RowsAre(z: Library, image: seq<byte>, dict: Option<seq<byte>>, k: nat)
    requires Writable(image) && (k + 1) * PageSize(image) <= |image|
    ensures var outer := Write(z, image, dict); var ps := PageSize(image);
      outer.Some? && |outer.value.rows| * ps == |image| && k < |outer.value.rows| &&
      var row := outer.value.rows[k]; var page := PageAt(image, ps, k);
      var withDict := dict.Some? && dict.value != [];
      var packed := (if withDict then z.withDict(dict.value) else z.plain).compress(page);
      row == if k == 0 || |packed| >= ps then Stored(k + 1, page, Raw)
             else Stored(k + 1, packed, if withDict then ZstdDict else Zstd)
  {
    var n, ps := PageTotal(image), PageSize(image);
    IsAPage(k, n, ps);
    hide StoreFrom, PageSize, PageAt;
    StoreFromAt(z, Kept(dict), image, ps, 0, n, k);
  }

  // ----- reading -----

  /** One stored page as it is read; None stands for every error the program raises. */
  function LoadPage(z: Library, dict: Option<seq<byte>>, row: Stored, ps: nat): Option<seq<byte>> {
    var img := match row.how
      case Raw => Some(PadTo(row.data, ps))
      case Zstd => z.plain.decompress(row.data)
      case ZstdDict => if HasDict(dict) then z.withDict(dict.value).decompress(row.data) else None;
    if img.Some? && |img.value| == ps then img else None
  }

  function LoadAll(z: Library, dict: Option<seq<byte>>, rows: seq<Stored>, ps: nat, pages: map<nat, seq<byte>>): Option<map<nat, seq<byte>>>
    decreases |rows|
  {
    if rows == [] then Some(pages)
    else
      var img := LoadPage(z, dict, rows[0], ps);
      if img.None? then None else LoadAll(z, dict, rows[1..], ps, pages[rows[0].pgno := img.value])
  }

  function Read(z: Library, outer: Outer): Option<Contents> {
    if outer.rows == [] || outer.rows[0].pgno != 1 || outer.rows[0].how != Raw then None
    else
      var hdr := PadTo(outer.rows[0].data, 100);
      var ps := PageSize(hdr);
      var pages := LoadAll(z, outer.dict, outer.rows, ps, map[]);
      if pages.None? then None else Some(Contents(ps, HeaderCount(hdr), Trusted(hdr), pages.value, outer.dict))
  }

  /** read_outer, on the rows as the query returns them. */
  method ReadOuter(z: Library, outer: Outer) returns (c: Option<Contents>)
    ensures c == Read(z, outer)
  {
    hide LoadPage;
    var rows := outer.rows;
    if |rows| == 0 || rows[0].pgno != 1 || rows[0].how != Raw {
      return None;
    }
    var hdr := PadTo(rows[0].data, 100);
    var ps := PageSize(hdr);
    var pages: map<nat, seq<byte>> := map[];
    var i := 0;
    while i < |rows|
      invariant 0 <= i <= |rows|
      invariant LoadAll(z, outer.dict, rows, ps, map[]) == LoadAll(z, outer.dict, rows[i..], ps, pages)
    {
      assert rows[i..][0] == rows[i] && rows[i..][1..] == rows[i + 1..];
      var img := LoadPage(z, outer.dict, rows[i], ps);
      if img.None? {
        return None;
      }
      pages := pages[rows[i].pgno := img.value];
      i := i + 1;
    }
    c := Some(Contents(ps, HeaderCount(hdr), Trusted(hdr), pages, outer.dict));
  }

  /** Byte `i` of the header; one that is cut short reads as zeros. */
  function HeaderByte(data: seq<byte>, i: nat): byte {
    if i < |data| then data[i] else 0
  }

  predicate IsWhole(img: Option<seq<byte>>, ps: nat) {
    img.Some? && |img.value| == ps
  }

  /** The row is a page: raw and no longer than one, or compressed in a way that
      can be undone here, to exactly one. */
  predicate IsPage(z: Library, dict: Option<seq<byte>>, row: Stored, ps: nat) {
    match row.how
    case Raw => |row.data| <= ps
    case Zstd => IsWhole(z.plain.decompress(row.data), ps)
    case ZstdDict => dict.Some? && dict.value != [] && IsWhole(z.withDict(dict.value).decompress(row.data), ps)
  }

  lemma LoadsIff(z: Library, dict: Option<seq<byte>>, row: Stored, ps: nat)
    ensures LoadPage(z, dict, row, ps).Some? <==> IsPage(z, dict, row, ps)
  {
  }

  lemma {:induction false} LoadAllIff(z: Library, dict: Option<seq<byte>>, rows: seq<Stored>, ps: nat, pages: map<nat, seq<byte>>)
    ensures LoadAll(z, dict, rows, ps, pages).Some? <==> forall row <- rows :: IsPage(z, dict, row, ps)
    decreases |rows|
  {
    hide LoadPage, IsPage;
    if rows != [] {
      LoadsIff(z, dict, rows[0], ps);
      assert forall row :: row in rows <==> row == rows[0] || row in rows[1..];
      if LoadPage(z, dict, rows[0], ps).Some? {
        LoadAllIff(z, dict, rows[1..], ps, pages[rows[0].pgno := LoadPage(z, dict, rows[0], ps).value]);
      }
    }
  }

  /** Reading succeeds exactly when the first row is page 1 as it is and every row
      is a page of the size that the header gives, in two bytes where 1 stands
      for 65536.  The header's page count is its bytes 28 to 31, and counts
      exactly while bytes 24 to 27 are the same as bytes 92 to 95. */
  lemma ReadIff(z: Library, outer: Outer)
    requires outer.rows != []
    ensures var h := outer.rows[0].data; var c := Read(z, outer);
      var size := HeaderByte(h, 16) as int * 256 + HeaderByte(h, 17);
      var ps := if size == 1 then 65536 else size;
      (c.Some? <==>
        outer.rows[0].pgno == 1 && outer.rows[0].how == Raw && forall row <- outer.rows :: IsPage(z, outer.dict, row, ps)) &&
      (c.Some? ==>
        c.value.pageSize == ps && c.value.dict == outer.dict &&
        c.value.headerCount == ((HeaderByte(h, 28) as int * 256 + HeaderByte(h, 29)) * 256 + HeaderByte(h, 30)) * 256 + HeaderByte(h, 31) &&
        (c.value.trusted <==> forall i | 24 <= i < 28 :: HeaderByte(h, i) == HeaderByte(h, i + 68)))
  {
    var hdr := PadTo(outer.rows[0].data, 100);
    assert forall i: nat | i < 100 :: hdr[i] == HeaderByte(outer.rows[0].data, i);
    LoadAllIff(z, outer.dict, outer.rows, PageSize(hdr), map[]);
    TrustedIff(hdr);
    hide LoadAll, Trusted, IsPage;
  }

  lemma TrustedIff(h: seq<byte>)
    requires |h| >= 100
    ensures Trusted(h) <==> h[24] == h[92] && h[25] == h[93] && h[26] == h[94] && h[27] == h[95]
  {
  }

  // ----- rebuilding -----

  function MaxPage(pages: set<nat>): (m: nat)
    requires pages != {}
    ensures m in pages && forall p <- pages :: p <= m
    decreases |pages|
  {
    HasMax(pages);
    var m :| m in pages && forall p <- pages :: p <= m;
    m
  }

  lemma HasMax(pages: set<nat>)
    requires pages != {}
    ensures exists m :: m in pages && forall p <- pages :: p <= m
    decreases |pages|
  {
    var x :| x in pages;
    if pages != {x} {
      var rest := pages - {x};
      assert rest != {};
      HasMax(rest);
      var m :| m in rest && forall p <- rest :: p <= m;
      var top := if m < x then x else m;
      forall p <- pages ensures p <= top {
        assert p == x || p in rest;
      }
      assert top in pages && forall p <- pages :: p <= top;
    }
  }

  /** How many pages the image has: the header's count when it can be trusted
      and is there, but never more than the pages table holds. */
  function CountPages(c: Contents): nat
    requires c.pages.Keys != {}
  {
    var max := MaxPage(c.pages.Keys);
    if c.trusted && c.headerCount != 0 then (if c.headerCount < max then c.headerCount else max) else max
  }

  predicate Complete(c: Contents, count: nat) {
    forall p | 1 <= p <= count :: p in c.pages
  }

  /** Pages 1 to `count`, one after the other. */
  function Assemble(pages: map<nat, seq<byte>>, count: nat): seq<byte>
    requires forall p | 1 <= p <= count :: p in pages
  {
    if count == 0 then [] else Assemble(pages, count - 1) + pages[count]
  }

  function Rebuild(z: Library, outer: Outer): Option<seq<byte>> {
    var c := Read(z, outer);
    if c.None? || c.value.pages.Keys == {} then None
    else
      var count := CountPages(c.value);
      if Complete(c.value, count) then Some(Assemble(c.value.pages, count)) else None
  }

  /** reconstruct, up to the integrity check. */
  method Reconstruct(z: Library, outer: Outer) returns (image: Option<seq<byte>>)
    ensures image == Rebuild(z, outer)
  {
    hide Read;
    var c := ReadOuter(z, outer);
    if c.None? || |c.value.pages| == 0 {
      return None;
    }
    var count := CountPages(c.value);
    var written: seq<byte> := [];
    var p := 1;
    while p <= count
      invariant 1 <= p <= count + 1
      invariant forall q | 1 <= q < p :: q in c.value.pages
      invariant written == Assemble(c.value.pages, p - 1)
    {
      if p !in c.value.pages {
        return None;
      }
      written := written + c.value.pages[p];
      p := p + 1;
    }
    return Some(written);
  }

  // ----- the round trip -----

  /** A stored page is read back as it was. */
  lemma LoadUndoesStore(z: Library, dict: Option<seq<byte>>, pgno: nat, page: seq<byte>)
    requires AllLossless(z)
    ensures LoadPage(z, dict, StorePage(z, dict, pgno, page, |page|), |page|) == Some(page)
    ensures StorePage(z, dict, pgno, page, |page|).pgno == pgno
  {
    assert dict.Some? ==> Lossless(z.withDict(dict.value));
  }

  /** The pages of an image as read_outer returns them. */
  function PagesOf(image: seq<byte>, ps: nat, n: nat): map<nat, seq<byte>>
    requires n * ps <= |image|
  {
    if n == 0 then map[]
    else
      PagesFit(n - 1, n, ps);
      PagesOf(image, ps, n - 1)[n := PageAt(image, ps, n - 1)]
  }

  lemma {:induction false} PagesOfKeys(image: seq<byte>, ps: nat, n: nat)
    requires n * ps <= |image|
    ensures forall p: nat :: p in PagesOf(image, ps, n) <==> 1 <= p <= n
  {
    if n > 0 {
      PagesFit(n - 1, n, ps);
      PagesOfKeys(image, ps, n - 1);
    }
  }

  lemma {:induction false} LoadAllUndoesStore(z: Library, dict: Option<seq<byte>>, image: seq<byte>, ps: nat, i: nat, n: nat)
    requires AllLossless(z) && i <= n && n * ps == |image| && i * ps <= |image|
    ensures LoadAll(z, dict, StoreFrom(z, dict, image, ps, i, n), ps, PagesOf(image, ps, i)) == Some(PagesOf(image, ps, n))
    decreases n - i
  {
    hide AllLossless, StorePage, LoadPage;
    if i < n {
      PagesFit(i, n, ps);
      var page := PageAt(image, ps, i);
      PageBounds(i, ps);
      assert |page| == ps;
      LoadUndoesStore(z, dict, i + 1, page);
      var row := StorePage(z, dict, i + 1, page, ps);
      var rest := StoreFrom(z, dict, image, ps, i + 1, n);
      assert StoreFrom(z, dict, image, ps, i, n) == [row] + rest && ([row] + rest)[1..] == rest;
      LoadAllUndoesStore(z, dict, image, ps, i + 1, n);
    }
  }

  lemma {:induction false} PagesOfAt(image: seq<byte>, ps: nat, n: nat, i: nat)
    requires n * ps <= |image| && i < n
    ensures (i + 1) * ps <= |image| && i + 1 in PagesOf(image, ps, n) && PagesOf(image, ps, n)[i + 1] == PageAt(image, ps, i)
  {
    PagesFit(i, n, ps);
    PagesFit(n - 1, n, ps);
    if i < n - 1 {
      PagesOfAt(image, ps, n - 1, i);
    }
  }

  lemma {:induction false} AssemblePages(image: seq<byte>, ps: nat, n: nat, count: nat)
    requires n * ps == |image| && count <= n && count * ps <= |image|
    ensures forall p | 1 <= p <= count :: p in PagesOf(image, ps, n)
    ensures Assemble(PagesOf(image, ps, n), count) == image[..count * ps]
    decreases count
  {
    hide PagesOf, PageAt;
    PagesOfKeys(image, ps, n);
    if count > 0 {
      var before := (count - 1) * ps;
      PageBounds(count - 1, ps);
      AssemblePages(image, ps, n, count - 1);
      PagesOfAt(image, ps, n, count - 1);
      PageIs(image, ps, count - 1);
      assert image[..before] + image[before..count * ps] == image[..count * ps];
    } else {
      assert count * ps == 0 && image[..0] == [];
    }
  }

  lemma PageIs(image: seq<byte>, ps: nat, i: nat)
    requires (i + 1) * ps <= |image|
    ensures i * ps <= (i + 1) * ps && PageAt(image, ps, i) == image[i * ps..(i + 1) * ps]
  {
    PageBounds(i, ps);
  }

  /** An SQLite image: at least one page, of at least 512 bytes (section 1.3.2). */
  predicate IsImage(image: seq<byte>) {
    Writable(image) && PageSize(image) >= 512 && PageTotal(image) >= 1
  }

  /** The image's header as its first stored page shows it. */
  lemma HeaderSurvives(image: seq<byte>)
    requires IsImage(image)
    ensures |image| >= 512
    ensures var ps := PageSize(image);
      ps <= |image| && var hdr := PadTo(image[..ps], 100);
      PageSize(hdr) == ps && HeaderCount(hdr) == HeaderCount(image) && Trusted(hdr) == Trusted(image)
  {
    var ps, n := PageSize(image), PageTotal(image);
    PagesFit(0, n, ps);
    assert PadTo(image[..ps], 100) == image[..ps];
  }

  lemma FirstRow(z: Library, image: seq<byte>, dict: Option<seq<byte>>)
    requires IsImage(image)
    ensures PageSize(image) <= |image|
    ensures var rows := StoreFrom(z, dict, image, PageSize(image), 0, PageTotal(image));
      rows != [] && rows[0] == Stored(1, image[..PageSize(image)], Raw)
  {
    hide PageSize;
    var ps, n := PageSize(image), PageTotal(image);
    PagesFit(0, n, ps);
    assert PageAt(image, ps, 0) == image[..ps];
  }

  /** Reading undoes writing, page for page; an empty dictionary is not kept. */
  lemma ReadUndoesWrite(z: Library, image: seq<byte>, dict: Option<seq<byte>>)
    requires AllLossless(z) && IsImage(image)
    ensures |image| >= 512
    ensures var outer := Write(z, image, dict);
      outer.Some? &&
      Read(z, outer.value) ==
      Some(Contents(PageSize(image), HeaderCount(image), Trusted(image),
                    PagesOf(image, PageSize(image), PageTotal(image)), Kept(dict)))
  {
    hide AllLossless, LoadPage, LoadAll, StoreFrom, PageSize, HeaderCount, Trusted;
    HeaderSurvives(image);
    FirstRow(z, image, Kept(dict));
    LoadAllUndoesStore(z, Kept(dict), image, PageSize(image), 0, PageTotal(image));
    assert PagesOf(image, PageSize(image), 0) == map[];
  }

  /** How many of the pages written come back. */
  function Survivors(image: seq<byte>): nat
    requires IsImage(image) && |image| >= 512
  {
    var n := PageTotal(image);
    if Trusted(image) && HeaderCount(image) != 0 && HeaderCount(image) < n then HeaderCount(image) else n
  }

  lemma CountIs(image: seq<byte>, dict: Option<seq<byte>>)
    requires IsImage(image) && |image| >= 512
    ensures var ps, n := PageSize(image), PageTotal(image);
      var c := Contents(ps, HeaderCount(image), Trusted(image), PagesOf(image, ps, n), dict);
      c.pages.Keys != {} && CountPages(c) == Survivors(image) && Complete(c, CountPages(c))
  {
    hide PageSize, HeaderCount, Trusted, PagesOf;
    var ps, n := PageSize(image), PageTotal(image);
    PagesOfKeys(image, ps, n);
    assert n in PagesOf(image, ps, n).Keys;
  }

  lemma SomeSize(image: seq<byte>)
    requires IsImage(image)
    ensures PageSize(image) >= 512
  {
  }

  lemma PartFits(count: nat, n: nat, ps: nat)
    requires count <= n && ps > 0
    ensures count * ps <= n * ps && (count < n ==> count * ps < n * ps)
  {
    if count < n {
      PagesFit(count, n, ps);
      assert (count + 1) * ps == count * ps + ps;
    }
  }

  function SurvivingPart(image: seq<byte>): seq<byte>
    requires IsImage(image) && |image| >= 512
  {
    PartFits(Survivors(image), PageTotal(image), PageSize(image));
    image[..Survivors(image) * PageSize(image)]
  }

  /** Rebuilding what was written gives the image up to the header's own page
      count, and the whole image exactly when the header's count is stale,
      missing or no smaller than the image. */
  lemma RebuildUndoesWrite(z: Library, image: seq<byte>, dict: Option<seq<byte>>)
    requires AllLossless(z) && IsImage(image)
    ensures |image| >= 512
    ensures var outer := Write(z, image, dict);
      outer.Some? && Rebuild(z, outer.value) == Some(SurvivingPart(image)) &&
      (Rebuild(z, outer.value) == Some(image) <==>
       (!Trusted(image) || HeaderCount(image) == 0 || HeaderCount(image) >= PageTotal(image)))
  {
    hide AllLossless, PageSize, HeaderCount, Trusted, PagesOf, Read, Write, Assemble, CountPages;
    ReadUndoesWrite(z, image, dict);
    CountIs(image, Kept(dict));
    var ps, n := PageSize(image), PageTotal(image);
    var count := Survivors(image);
    SomeSize(image);
    PartFits(count, n, ps);
    PagesOfKeys(image, ps, n);
    AssemblePages(image, ps, n, count);
    assert count == n ==> image[..n * ps] == image;
  }
}
