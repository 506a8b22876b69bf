/** The byte buffer behind in-memory files: a length and a vector of pages that may hold
    stale bytes past it. Allocation always succeeds here. */
module PagedBuffer {
  import opened Basics

  const PAGE: nat := 0x1000

  type Page = p: seq<Byte> | |p| == PAGE witness seq(PAGE, _ => 0)

  function DivCeil(n: nat): nat {
    (n + PAGE - 1) / PAGE
  }

  function SaturatingSub(a: nat, b: nat): nat {
    if a < b then 0 else a - b
  }

  // ----- the flat byte string -----

  function Padded(content: seq<Byte>, n: nat): seq<Byte> {
    content + Zeros(SaturatingSub(n, |content|))
  }

  /** A write splices; a gap before it reads as zeros; an empty write changes nothing. */
  function Written(content: seq<Byte>, offset: nat, bytes: seq<Byte>): seq<Byte> {
    if bytes == [] then content
    else
      var base := Padded(content, offset);
      base[..offset] + bytes + (if offset + |bytes| <= |base| then base[offset + |bytes|..] else [])
  }

  function TruncatedTo(content: seq<Byte>, n: nat): seq<Byte> {
    Padded(content, n)[..n]
  }

  /** One page of the string, zero past its end. */
  function PageOf(content: seq<Byte>, index: nat): seq<Byte> {
    Padded(content, (index + 1) * PAGE)[index * PAGE..(index + 1) * PAGE]
  }

  /** Every byte after a write: the new bytes, zeros in a gap, the old bytes elsewhere. */
  lemma WrittenAt(content: seq<Byte>, offset: nat, bytes: seq<Byte>, k: nat)
    requires bytes != [] && k < Max(|content|, offset + |bytes|)
    ensures |Written(content, offset, bytes)| == Max(|content|, offset + |bytes|)
    ensures Written(content, offset, bytes)[k]
            == if offset <= k < offset + |bytes| then bytes[k - offset] else if k < |content| then content[k] else 0
  {
  }

  /** A region given up by shrinking reads as zeros when it comes back. */
  lemma RegrownIsZero(content: seq<Byte>, n: nat, m: nat, bytes: seq<Byte>, k: nat)
    requires n <= k < m && bytes != []
    ensures TruncatedTo(TruncatedTo(content, n), m)[k] == 0
    ensures Written(TruncatedTo(content, n), m, bytes)[k] == 0
  {
  }

  datatype Op =
    | WriteOp(offset: nat, bytes: seq<Byte>)
    | TruncateOp(length: nat)
    | ReadOp(offset: nat, count: nat)
    | GetPageOp(index: nat)

  /** What a caller sees of an operation. */
  datatype Seen = Wrote(count: nat) | Truncated | Bytes(bytes: seq<Byte>) | PageSeen(page: seq<Byte>) | Refused

  /** The flat string and how many pages are stored behind it, which is all that decides
      whether a page can be had. */
  datatype FlatFile = FlatFile(content: seq<Byte>, stored: nat)

  /** Pages stored after room for `additional` zero bytes was made behind `length` bytes. */
  function Stored(stored: nat, length: nat, additional: nat): nat {
    if additional == 0 then stored else DivCeil(length + additional)
  }

  function StoredByWrite(stored: nat, length: nat, offset: nat, count: nat): nat {
    var zeroed := Stored(stored, length, SaturatingSub(offset, length));
    if count == 0 || offset + count <= length then zeroed else Max(zeroed, DivCeil(offset + count))
  }

  function ReadBytes(content: seq<Byte>, offset: nat, count: nat): seq<Byte> {
    if offset < |content| then content[offset..offset + Min(|content| - offset, count)] else []
  }

  function FlatAfter(f: FlatFile, op: Op): FlatFile {
    match op
    case WriteOp(offset, bytes) =>
      FlatFile(Written(f.content, offset, bytes), StoredByWrite(f.stored, |f.content|, offset, |bytes|))
    case TruncateOp(n) => FlatFile(TruncatedTo(f.content, n), Stored(f.stored, |f.content|, SaturatingSub(n, |f.content|)))
    case ReadOp(_, _) => f
    case GetPageOp(i) =>
      if i >= f.stored then f
      else f.(stored := Stored(f.stored, |f.content|, SaturatingSub((i + 1) * PAGE, |f.content|)))
  }

  function FlatSeen(f: FlatFile, op: Op): Seen {
    match op
    case WriteOp(_, bytes) => Wrote(|bytes|)
    case TruncateOp(_) => Truncated
    case ReadOp(offset, count) => Bytes(ReadBytes(f.content, offset, count))
    case GetPageOp(i) => if i < f.stored then PageSeen(PageOf(f.content, i)) else Refused
  }

  function FlatAll(f: FlatFile, ops: seq<Op>): FlatFile {
    if ops == [] then f else FlatAfter(FlatAll(f, ops[..|ops| - 1]), ops[|ops| - 1])
  }

  function SeenAll(f: FlatFile, ops: seq<Op>): seq<Seen> {
    if ops == [] then []
    else SeenAll(f, ops[..|ops| - 1]) + [FlatSeen(FlatAll(f, ops[..|ops| - 1]), ops[|ops| - 1])]
  }

  // ----- bytes in pages -----

  function At(pages: seq<Page>, k: nat): Byte
    requires k < |pages| * PAGE
  {
    pages[k / PAGE][k % PAGE]
  }

  ghost predicate ZeroAt(pages: seq<Page>, k: nat) {
    k < |pages| * PAGE ==> At(pages, k) == 0
  }

  /** The first `n` bytes. */
  ghost function Flat(pages: seq<Page>, n: nat): (r: seq<Byte>)
    requires n <= |pages| * PAGE
    ensures |r| == n && forall k: nat {:trigger At(pages, k)} | k < n :: r[k] == At(pages, k)
  {
    seq(n, k requires 0 <= k < n => At(pages, k))
  }

  /** Between `from` and `to` the bytes come from `bytes`, which starts at `start`. */
  ghost predicate PatchedAt(before: seq<Page>, after: seq<Page>, start: nat, to: nat, bytes: seq<Byte>, k: nat) {
    k < |before| * PAGE && k < |after| * PAGE ==>
      At(after, k) == if start <= k < to && k - start < |bytes| then bytes[k - start] else At(before, k)
  }

  ghost predicate Patched(before: seq<Page>, after: seq<Page>, start: nat, to: nat, bytes: seq<Byte>) {
    && |after| == |before|
    && forall k: nat {:trigger PatchedAt(before, after, start, to, bytes, k)} :: PatchedAt(before, after, start, to, bytes, k)
  }

  /** The page after one iteration of the write loop. */
  function Patch(page: Page, i: nat, start: nat, bytes: seq<Byte>): Page
    requires start < (i + 1) * PAGE && i * PAGE < start + |bytes| && bytes != []
  {
    var copyStart := Max(i * PAGE, start);
    var copyEnd := Min((i + 1) * PAGE - 1, start + |bytes| - 1);
    page[..copyStart - i * PAGE] + bytes[copyStart - start..copyEnd + 1 - start] + page[copyEnd + 1 - i * PAGE..]
  }

  lemma PatchAt(page: Page, i: nat, start: nat, bytes: seq<Byte>, x: nat)
    requires start < (i + 1) * PAGE && i * PAGE < start + |bytes| && bytes != [] && x < PAGE
    ensures Patch(page, i, start, bytes)[x]
            == if start <= i * PAGE + x < start + |bytes| then bytes[i * PAGE + x - start] else page[x]
  {
  }

  lemma PatchKeeps(before: seq<Page>, mid: seq<Page>, i: nat, start: nat, bytes: seq<Byte>)
    requires i < |mid| && start < (i + 1) * PAGE && i * PAGE < start + |bytes| && bytes != []
    requires Patched(before, mid, start, i * PAGE, bytes)
    ensures Patched(before, mid[i := Patch(mid[i], i, start, bytes)], start, (i + 1) * PAGE, bytes)
  {
    var after, to := mid[i := Patch(mid[i], i, start, bytes)], (i + 1) * PAGE;
    forall k: nat ensures PatchedAt(before, after, start, to, bytes, k) {
      assert PatchedAt(before, mid, start, i * PAGE, bytes, k);
      if k < |mid| * PAGE && k / PAGE == i {
        PatchAt(mid[i], i, start, bytes, k % PAGE);
      }
    }
  }

  /** Reserved bytes, then the patch, make the splice. */
  lemma SpliceExact(content: seq<Byte>, reserved: seq<Page>, after: seq<Page>, offset: nat, bytes: seq<Byte>, to: nat)
    requires bytes != [] && |content| <= |reserved| * PAGE && offset + |bytes| <= |reserved| * PAGE
    requires Flat(reserved, |content|) == content
    requires forall k: nat {:trigger ZeroAt(reserved, k)} | |content| <= k < offset :: ZeroAt(reserved, k)
    requires offset + |bytes| <= to && Patched(reserved, after, offset, to, bytes)
    ensures Flat(after, Max(|content|, offset + |bytes|)) == Written(content, offset, bytes)
  {
    var n := Max(|content|, offset + |bytes|);
    var written := Written(content, offset, bytes);
    assert |written| == n;
    forall k: nat | k < n ensures Flat(after, n)[k] == written[k] {
      assert PatchedAt(reserved, after, offset, to, bytes, k);
      WrittenAt(content, offset, bytes, k);
      if k < |content| {
        assert At(reserved, k) == content[k];
      } else if k < offset {
        assert ZeroAt(reserved, k);
      }
    }
  }

  lemma PageOfAt(content: seq<Byte>, index: nat, x: nat)
    requires x < PAGE
    ensures |PageOf(content, index)| == PAGE
    ensures PageOf(content, index)[x] == if index * PAGE + x < |content| then content[index * PAGE + x] else 0
  {
  }

  lemma AtPage(pages: seq<Page>, index: nat, x: nat)
    requires index < |pages| && x < PAGE
    ensures index * PAGE + x < |pages| * PAGE && At(pages, index * PAGE + x) == pages[index][x]
  {
  }

  /** With zeros past the length, or no end inside it, a stored page is the flat page. */
  lemma PageExact(pages: seq<Page>, len: nat, index: nat)
    requires index < |pages| && len <= |pages| * PAGE
    requires len < (index + 1) * PAGE ==> forall k: nat {:trigger ZeroAt(pages, k)} | len <= k :: ZeroAt(pages, k)
    ensures pages[index] == PageOf(Flat(pages, len), index)
  {
    var flat := Flat(pages, len);
    PageOfAt(flat, index, 0);
    forall x: nat | x < PAGE ensures pages[index][x] == PageOf(flat, index)[x] {
      PageOfAt(flat, index, x);
      AtPage(pages, index, x);
      assert ZeroAt(pages, index * PAGE + x) || index * PAGE + x < len;
    }
  }

  class Buffer {
    var len: nat
    var pages: seq<Page>

    ghost predicate Valid()
      reads this
    {
      len <= |pages| * PAGE
    }

    ghost function Content(): (r: seq<Byte>)
      requires Valid()
      reads this
    {
      Flat(pages, len)
    }

    ghost function View(): FlatFile
      requires Valid()
      reads this
    {
      FlatFile(Content(), |pages|)
    }

    constructor ()
      ensures Valid() && View() == FlatFile([], 0)
    {
      len, pages := 0, [];
    }

    /** `reserve`: new pages are zero, old ones stay. */
    method Reserve(additional: nat)
      requires Valid()
      modifies this`pages
      ensures Valid() && (additional > 0 ==> len + additional <= |pages| * PAGE)
      ensures old(pages) <= pages
      ensures forall i | |old(pages)| <= i < |pages| :: pages[i] == Zeros(PAGE)
      ensures additional == 0 ==> pages == old(pages)
      ensures additional > 0 ==> |pages| == Max(|old(pages)|, DivCeil(len + additional))
    {
      if additional == 0 {
        return;
      }
      var numPages := DivCeil(len + additional);
      var newPages := SaturatingSub(numPages, |pages|);
      pages := pages + seq(newPages, _ => Zeros(PAGE));
    }

    /** `reserve_zeroed`: afterwards every byte past the length is zero. */
    method ReserveZeroed(additional: nat)
      requires Valid()
      modifies this`pages
      ensures Valid() && Content() == old(Content())
      ensures additional == 0 ==> pages == old(pages)
      ensures additional > 0 ==>
                && |pages| == DivCeil(len + additional)
                && len + additional <= |pages| * PAGE
                && forall k: nat {:trigger ZeroAt(pages, k)} | len <= k :: ZeroAt(pages, k)
    {
      if additional == 0 {
        return;
      }
      ghost var before := pages;
      if len % PAGE != 0 {
        var start, idx := len % PAGE, len / PAGE;
        pages := pages[idx := pages[idx][..start] + Zeros(PAGE - start)];
      }
      pages := pages[..DivCeil(len)];
      ghost var kept := pages;
      Reserve(additional);
      forall k: nat | len <= k ensures ZeroAt(pages, k) {
        if k < |pages| * PAGE {
          assert k / PAGE < |kept| ==> pages[k / PAGE] == kept[k / PAGE];
        }
      }
      assert Flat(pages, len) == Flat(before, len) by {
        forall k: nat | k < len ensures At(pages, k) == At(before, k) {
        }
      }
    }

    /** The loop of `write` over the pages it touches. */
    method PatchPages(offset: nat, bytes: seq<Byte>)
      requires bytes != [] && DivCeil(offset + |bytes|) <= |pages|
      modifies this`pages
      ensures |pages| == |old(pages)|
      ensures Patched(old(pages), pages, offset, DivCeil(offset + |bytes|) * PAGE, bytes)
    {
      var end := offset + |bytes| - 1;
      var i, endPage := offset / PAGE, DivCeil(end + 1);
      while i < endPage
        invariant offset / PAGE <= i <= endPage <= |old(pages)| == |pages|
        invariant Patched(old(pages), pages, offset, i * PAGE, bytes)
      {
        PatchKeeps(old(pages), pages, i, offset, bytes);
        pages := pages[i := Patch(pages[i], i, offset, bytes)];
        i := i + 1;
      }
    }

    /** `write`. */
    method Write(offset: nat, bytes: seq<Byte>) returns (n: nat)
      requires Valid()
      modifies this
      ensures Valid() && Content() == Written(old(Content()), offset, bytes)
      ensures n == |bytes| && |pages| == StoredByWrite(|old(pages)|, old(len), offset, |bytes|)
    {
      ghost var content := Content();
      ReserveZeroed(SaturatingSub(offset, len));
      if bytes == [] {
        return 0;
      }
      ghost var zeroed := pages;
      Reserve(SaturatingSub(offset + |bytes|, len));
      ghost var reserved := pages;
      GrownKeeps(zeroed, reserved, len, offset);
      PatchPages(offset, bytes);
      SpliceExact(content, reserved, pages, offset, bytes, DivCeil(offset + |bytes|) * PAGE);
      len := Max(len, offset + |bytes|);
      n := |bytes|;
    }

    /** `truncate`. */
    method Truncate(n: nat)
      requires Valid()
      modifies this
      ensures Valid() && Content() == TruncatedTo(old(Content()), n)
      ensures |pages| == Stored(|old(pages)|, old(len), SaturatingSub(n, old(len)))
    {
      ghost var content := Content();
      ReserveZeroed(SaturatingSub(n, len));
      forall k: nat | k < n ensures At(pages, k) == TruncatedTo(content, n)[k] {
        if k < len {
          assert Flat(pages, len)[k] == content[k];
        } else {
          assert ZeroAt(pages, k);
        }
      }
      len := n;
      assert Content() == TruncatedTo(content, n);
    }

    /** `read` into a caller's buffer. */
    method Read(offset: nat, buf: array<Byte>) returns (n: nat)
      requires Valid()
      modifies buf
      ensures n == Min(SaturatingSub(len, offset), buf.Length)
      ensures n > 0 ==> buf[..n] == Content()[offset..offset + n]
      ensures buf[n..] == old(buf[n..])
    {
      n := Min(SaturatingSub(len, offset), buf.Length);
      if n == 0 {
        return;
      }
      var end := offset + n - 1;
      var i, endPage := offset / PAGE, DivCeil(end + 1);
      while i < endPage
        invariant offset / PAGE <= i <= endPage <= |pages|
        invariant forall k: nat {:trigger buf[k]} | k < n && offset + k < i * PAGE :: buf[k] == At(pages, offset + k)
        invariant forall k {:trigger buf[k]} | n <= k < buf.Length :: buf[k] == old(buf[k])
      {
        var copyStart := Max(i * PAGE, offset);
        var copyEnd := Min((i + 1) * PAGE - 1, end);
        CopyPage(buf, copyStart - offset, pages[i], copyStart - i * PAGE, copyEnd - copyStart + 1);
        i := i + 1;
      }
    }

    /** `get_page`: refused past the stored pages, otherwise the flat page; the content
        stays as it is. */
    method GetPage(index: nat) returns (r: Option<Page>)
      requires Valid()
      modifies this`pages
      ensures Valid() && Content() == old(Content())
      ensures r.None? <==> index >= |old(pages)|
      ensures |pages| == if r.None? then |old(pages)|
                         else Stored(|old(pages)|, len, SaturatingSub((index + 1) * PAGE, len))
      ensures r.Some? ==> r.value == PageOf(Content(), index)
    {
      if index >= |pages| {
        return None;
      }
      ReserveZeroed(SaturatingSub((index + 1) * PAGE, len));
      PageExact(pages, len, index);
      r := Some(pages[index]);
    }
  }

  /** One operation on the pages. */
  method RunOp(b: Buffer, op: Op) returns (seen: Seen)
    requires b.Valid()
    modifies b
    ensures b.Valid() && b.View() == FlatAfter(old(b.View()), op) && seen == FlatSeen(old(b.View()), op)
  {
    match op {
      case WriteOp(offset, bytes) =>
        var n := b.Write(offset, bytes);
        seen := Wrote(n);
      case TruncateOp(n) =>
        b.Truncate(n);
        seen := Truncated;
      case ReadOp(offset, count) =>
        var buf := new Byte[count];
        var n := b.Read(offset, buf);
        seen := Bytes(buf[..n]);
      case GetPageOp(index) =>
        var page := b.GetPage(index);
        seen := if page.Some? then PageSeen(page.value) else Refused;
    }
  }

  /** Over any sequence of operations the pages behave as the flat string does, and callers
      see what it gives, whatever stale bytes the pages hold. */
  method RunAll(b: Buffer, ops: seq<Op>) returns (seen: seq<Seen>)
    requires b.Valid()
    modifies b
    ensures b.Valid() && b.View() == FlatAll(old(b.View()), ops)
    ensures seen == SeenAll(old(b.View()), ops)
  {
    seen := [];
    var i := 0;
    while i < |ops|
      invariant i <= |ops| && b.Valid() && b.View() == FlatAll(old(b.View()), ops[..i])
      invariant seen == SeenAll(old(b.View()), ops[..i])
    {
      assert ops[..i + 1][..i] == ops[..i];
      var one := RunOp(b, ops[i]);
      seen := seen + [one];
      i := i + 1;
    }
    assert ops[..i] == ops;
  }

  /** The copy of one page's bytes. */
  method CopyPage(buf: array<Byte>, at: nat, page: Page, from: nat, count: nat)
    requires at + count <= buf.Length && from + count <= PAGE
    modifies buf
    ensures forall k | 0 <= k < buf.Length :: buf[k] == if at <= k < at + count then page[from + k - at] else old(buf[k])
  {
    var i := 0;
    while i < count
      invariant i <= count
      invariant forall k | 0 <= k < buf.Length :: buf[k] == if at <= k < at + i then page[from + k - at] else old(buf[k])
    {
      buf[at + i] := page[from + i];
      i := i + 1;
    }
  }

  /** Reserving more keeps the zeros of a gap. */
  lemma GrownKeeps(before: seq<Page>, after: seq<Page>, len: nat, offset: nat)
    requires before <= after && len <= |before| * PAGE
    requires forall i | |before| <= i < |after| :: after[i] == Zeros(PAGE)
    requires offset > len ==> forall k: nat {:trigger ZeroAt(before, k)} | len <= k :: ZeroAt(before, k)
    ensures Flat(after, len) == Flat(before, len)
    ensures forall k: nat {:trigger ZeroAt(after, k)} | len <= k < offset :: ZeroAt(after, k)
  {
    forall k: nat | k < len ensures At(after, k) == At(before, k) {
      assert k / PAGE < |before|;
    }
    forall k: nat | len <= k < offset ensures ZeroAt(after, k) {
      assert ZeroAt(before, k);
    }
  }
}
