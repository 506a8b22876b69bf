/** The four programs that handle the input chain: the host's loader, the offline
    computation of the expected hash, the supervisor's verification and the kernel's
    copy into a file. */
module InputLoad {
  import opened Basics
  import opened InputChain
  import PagedBuffer

  // ----- the loader -----

  /** The reversed pass over the inputs that computes their headers. */
  method ChainHeaders(h: Hashes, inputs: seq<Input>) returns (headers: seq<Header>, first: Header)
    requires Sized(h) && Slices(inputs)
    ensures |headers| == |inputs| && first == Chain(h, inputs)
    ensures forall k | 0 <= k < |headers| :: headers[k] == Chain(h, inputs[k..])
  {
    headers, first := [], End();
    var i := |inputs|;
    while i > 0
      invariant 0 <= i <= |inputs| && first == Chain(h, inputs[i..]) && HeadersFrom(h, inputs, i, headers)
    {
      i := i - 1;
      first := PrependTo(h, inputs, i, first);
      HeadersCons(h, inputs, i, headers);
      headers := [first] + headers;
    }
    assert inputs[0..] == inputs;
  }

  ghost predicate HeadersFrom(h: Hashes, inputs: seq<Input>, i: nat, headers: seq<Header>)
    requires Sized(h) && Slices(inputs) && i <= |inputs|
  {
    |headers| == |inputs| - i && forall k | 0 <= k < |headers| :: headers[k] == Chain(h, inputs[i + k..])
  }

  lemma HeadersCons(h: Hashes, inputs: seq<Input>, i: nat, headers: seq<Header>)
    requires Sized(h) && Slices(inputs) && i < |inputs| && HeadersFrom(h, inputs, i + 1, headers)
    ensures HeadersFrom(h, inputs, i, [Chain(h, inputs[i..])] + headers)
  {
    var all := [Chain(h, inputs[i..])] + headers;
    forall k | 0 <= k < |all| ensures all[k] == Chain(h, inputs[i + k..]) {
      if k > 0 {
        assert all[k] == headers[k - 1] && i + k == (i + 1) + (k - 1);
      }
    }
  }

  /** One turn of the reversed pass. */
  method PrependTo(h: Hashes, inputs: seq<Input>, i: nat, next: Header) returns (d: Header)
    requires Sized(h) && Slices(inputs) && i < |inputs| && next == Chain(h, inputs[i + 1..])
    ensures d == Chain(h, inputs[i..])
  {
    assert inputs[i..][1..] == inputs[i + 1..];
    var input := inputs[i];
    d := Header(|input.bytes|, input.hashType, DataHash(h, input.hashType, input.bytes), HeaderHash(h, next));
  }

  lemma LaidOut(h: Hashes, inputs: seq<Input>, i: nat, pages: seq<Page>, all: seq<Page>)
    requires Sized(h) && Slices(inputs) && i < |inputs| && pages + ChainPages(h, inputs[i..]) == all
    ensures (pages + LinkPages(h, inputs[i..])) + ChainPages(h, inputs[i + 1..]) == all
  {
    assert inputs[i..][1..] == inputs[i + 1..];
    Regroup(pages, LinkPages(h, inputs[i..]), ChainPages(h, inputs[i + 1..]));
  }

  /** `load_input`: the pages that fit, and the hash the guest is launched with. */
  method LoadInput(h: Hashes, inputs: seq<Input>) returns (pages: seq<Page>, hash: seq<Byte>)
    requires Sized(h) && Slices(inputs)
    ensures pages == Loaded(h, inputs) && hash == ChainHash(h, inputs)
  {
    var headers, first := ChainHeaders(h, inputs);
    ghost var all := ChainPages(h, inputs);
    pages := [];
    var i := 0;
    assert inputs[0..] == inputs;
    while i < |inputs|
      invariant i <= |inputs|
      invariant pages + ChainPages(h, inputs[i..]) == all
    {
      LaidOut(h, inputs, i, pages, all);
      pages := pages + ([HeaderPage(headers[i])] + DataPages(inputs[i].bytes));
      i := i + 1;
    }
    pages := pages + [HeaderPage(End())];
    hash := HeaderHash(h, first);
    if |pages| > INPUT_FRAMES {
      pages := pages[..INPUT_FRAMES];
    }
  }

  // ----- the offline hash -----

  datatype HashedInput = HashedInput(inputLen: nat, hashType: HashType, hash: seq<Byte>)

  function HashInput(h: Hashes, input: Input): HashedInput {
    HashedInput(|input.bytes|, input.hashType, DataHash(h, input.hashType, input.bytes))
  }

  /** `InputHash::new` on hashed inputs alone equals the loader's hash of the inputs. */
  method InputHash(h: Hashes, hashed: seq<HashedInput>, ghost inputs: seq<Input>) returns (hash: seq<Byte>)
    requires Sized(h) && Slices(inputs) && |hashed| == |inputs|
    requires forall k | 0 <= k < |hashed| :: hashed[k] == HashInput(h, inputs[k])
    ensures hash == ChainHash(h, inputs)
  {
    var header := End();
    var i := |hashed|;
    while i > 0
      invariant 0 <= i <= |hashed| && header == Chain(h, inputs[i..])
    {
      i := i - 1;
      assert inputs[i..][1..] == inputs[i + 1..];
      var next := hashed[i];
      header := Header(next.inputLen, next.hashType, next.hash, HeaderHash(h, header));
    }
    assert inputs[0..] == inputs;
    hash := HeaderHash(h, header);
  }

  // ----- the supervisor -----

  ghost function AfterBytes(bytes: seq<Byte>, rest: Option<seq<Byte>>): Option<seq<Byte>> {
    if bytes == [] then rest else if rest.Some? then Some(bytes + rest.value) else None
  }

  lemma AfterWholePage(data: seq<Byte>, pages: seq<Page>, len: nat)
    requires pages != [] && len >= PAGE
    ensures AfterBytes(data, ReadData(pages, len)) == AfterBytes(data + pages[0], ReadData(pages[1..], len - PAGE))
  {
    var rest := ReadData(pages[1..], len - PAGE);
    if rest.Some? {
      var tail: seq<Byte> := rest.value;
      assert (data + pages[0]) + tail == data + (pages[0] + tail);
      assert data == [] ==> data + pages[0] == pages[0];
    }
  }

  /** The two inner steps of the supervisor's loop: whole pages, then the rest. */
  method ReadInput(pages: seq<Page>, start: nat, len: nat) returns (ok: bool, data: seq<Byte>, next: nat)
    requires start <= |pages|
    ensures ok <==> ReadData(pages[start..], len).Some?
    ensures ok ==> data == ReadData(pages[start..], len).value && next == start + PageCount(len) <= |pages|
  {
    data, next := [], start;
    var remaining: nat := len;
    while remaining >= PAGE
      invariant next <= |pages| && next + PageCount(remaining) == start + PageCount(len)
      invariant ReadData(pages[start..], len) == AfterBytes(data, ReadData(pages[next..], remaining))
    {
      if next == |pages| {
        return false, data, next;
      }
      assert pages[next..][1..] == pages[next + 1..];
      AfterWholePage(data, pages[next..], remaining);
      data := data + pages[next];
      next := next + 1;
      remaining := remaining - PAGE;
    }
    if remaining > 0 {
      if next == |pages| {
        return false, data, next;
      }
      var page := pages[next];
      if page[remaining..] != Zeros(PAGE - remaining) {
        return false, data, next;
      }
      data := data + page[..remaining];
      next := next + 1;
    }
    ok := true;
  }

  /** One round of the supervisor's loop. */
  method ReadLink(h: Hashes, pages: seq<Page>, index: nat, hash: seq<Byte>) returns (link: Link)
    requires index <= |pages|
    ensures link == FirstLink(h, pages[index..], hash)
  {
    if index == |pages| {
      return Broken;
    }
    var bytes := pages[index][..HEADER_SIZE];
    assert pages[index..][1..] == pages[index + 1..];
    var decoded := DecodeHeader(bytes);
    if decoded.None? || h.sha256(bytes) != hash {
      return Broken;
    }
    var header := decoded.value;
    if header == End() {
      return Last;
    }
    var ok, data, next := ReadInput(pages, index + 1, header.inputLen);
    if !ok || DataHash(h, header.hashType, data) != header.hash {
      return Broken;
    }
    return Carries(Input(data, header.hashType), next - index, header.nextHash);
  }

  ghost predicate Passes(h: Hashes, pages: seq<Page>, index: nat, hash: seq<Byte>)
    requires index <= |pages|
  {
    Verified(h, pages[index..], hash).Some?
  }

  lemma LinkPasses(h: Hashes, pages: seq<Page>, index: nat, hash: seq<Byte>, link: Link)
    requires index <= |pages| && link == FirstLink(h, pages[index..], hash)
    ensures !link.Carries? ==> Passes(h, pages, index, hash) == link.Last?
    ensures link.Carries? ==> Passes(h, pages, index, hash) == Passes(h, pages, index + link.count, link.nextHash)
  {
    if link.Carries? {
      assert pages[index..][link.count..] == pages[index + link.count..];
    }
  }

  /** What a round means for the whole chain: `ends` says how it ends, if it does. */
  method VerifyLink(h: Hashes, pages: seq<Page>, index: nat, hash: seq<Byte>, ghost passes: bool)
    returns (ends: bool, ok: bool, next: nat, nextHash: seq<Byte>)
    requires index <= |pages| && passes == Passes(h, pages, index, hash)
    ensures ends ==> ok == passes
    ensures !ends ==> index < next <= |pages| && passes == Passes(h, pages, next, nextHash)
  {
    var link := ReadLink(h, pages, index, hash);
    LinkPasses(h, pages, index, hash, link);
    if !link.Carries? {
      return true, link.Last?, index, hash;
    }
    return false, false, index + link.count, link.nextHash;
  }

  /** `verify_and_load`: accepts exactly the layouts that carry a verified chain. */
  method VerifyAndLoad(h: Hashes, pages: seq<Page>, hostHash: seq<Byte>) returns (ok: bool)
    ensures ok <==> Verified(h, pages, hostHash).Some?
  {
    ghost var passes := Verified(h, pages, hostHash).Some?;
    var index, nextHash, ends := 0, hostHash, false;
    assert pages[0..] == pages;
    ok := false;
    while !ends
      invariant ends ==> ok == passes
      invariant !ends ==> index <= |pages| && passes == Passes(h, pages, index, nextHash)
      decreases !ends, |pages| - index
    {
      ends, ok, index, nextHash := VerifyLink(h, pages, index, nextHash, passes);
    }
  }

  // ----- the kernel -----

  /** The inputs end to end. */
  ghost function Flatten(inputs: seq<Input>): seq<Byte> {
    if inputs == [] then [] else inputs[0].bytes + Flatten(inputs[1..])
  }

  /** One page of `copy_to` on a file already grown to its new length. */
  lemma CopiedPage(content: seq<Byte>, before: seq<Byte>, data: seq<Byte>, i: nat, size: nat)
    requires 0 < size && i + size <= |data| && |content| == |before| + |data| && content[..|before| + i] == before + data[..i]
    ensures |PagedBuffer.Written(content, |before| + i, data[i..i + size])| == |content|
    ensures PagedBuffer.Written(content, |before| + i, data[i..i + size])[..|before| + (i + size)] == before + data[..i + size]
  {
  }

  lemma Grown(file: seq<Byte>, offset: nat, len: nat)
    requires offset <= |file|
    ensures |PagedBuffer.TruncatedTo(file, offset + len)| == offset + len
    ensures PagedBuffer.TruncatedTo(file, offset + len)[..offset] == file[..offset]
  {
  }

  /** The next page of a readable input. */
  lemma NextPage(pages: seq<Page>, data: seq<Byte>)
    requires data != [] && ReadData(pages, |data|) == Some(data)
    ensures pages != []
    ensures |data| >= PAGE ==> pages[0] == data[..PAGE] && ReadData(pages[1..], |data| - PAGE) == Some(data[PAGE..])
    ensures |data| < PAGE ==> pages[0][..|data|] == data
  {
    if |data| >= PAGE {
      var rest: seq<Byte> := ReadData(pages[1..], |data| - PAGE).value;
      assert data == pages[0] + rest;
      assert data[..PAGE] == pages[0] && data[PAGE..] == rest;
    }
  }

  /** From page `next` on follow the bytes of the input from `i` on, up to page `end`. */
  ghost predicate Ahead(pages: seq<Page>, next: nat, end: nat, data: seq<Byte>, i: nat) {
    && next <= |pages| && i <= |data| && next + PageCount(|data| - i) == end
    && ReadData(pages[next..], |data| - i) == Some(data[i..])
  }

  lemma PageAhead(pages: seq<Page>, next: nat, end: nat, data: seq<Byte>, i: nat, size: nat)
    requires Ahead(pages, next, end, data, i) && i < |data|
    requires size == if |data| - i < PAGE then |data| - i else PAGE
    ensures next < |pages| && pages[next][..size] == data[i..i + size]
    ensures Ahead(pages, next + 1, end, data, i + size)
  {
    NextPage(pages[next..], data[i..]);
    assert pages[next..][1..] == pages[next + 1..];
    assert data[i..][size..] == data[i + size..] && data[i..][..size] == data[i..i + size];
  }

  /** The file has its final size and holds the first `i` bytes of the input. */
  ghost predicate CopiedTo(content: seq<Byte>, before: seq<Byte>, data: seq<Byte>, i: nat) {
    && |content| == |before| + |data| && i <= |data|
    && content[..|before| + i] == before + data[..i]
  }

  lemma CopiedAll(content: seq<Byte>, before: seq<Byte>, data: seq<Byte>)
    requires CopiedTo(content, before, data, |data|)
    ensures content == before + data
  {
    assert content == content[..|before| + |data|];
    assert data[..|data|] == data;
  }

  /** One write of `copy_to`: the next piece of the input lands behind the earlier ones. */
  method WritePiece(
    file: PagedBuffer.Buffer, offset: nat, i: nat, piece: seq<Byte>, ghost before: seq<Byte>, ghost data: seq<Byte>)
    requires file.Valid() && |before| == offset
    requires piece != [] && i + |piece| <= |data| && piece == data[i..i + |piece|]
    requires CopiedTo(file.Content(), before, data, i)
    modifies file
    ensures file.Valid() && CopiedTo(file.Content(), before, data, i + |piece|)
  {
    CopiedPage(file.Content(), before, data, i, |piece|);
    var written := file.Write(offset + i, piece);
  }

  method GrowFor(file: PagedBuffer.Buffer, offset: nat, len: nat, ghost data: seq<Byte>)
    requires file.Valid() && offset <= |file.Content()| && |data| == len
    modifies file
    ensures file.Valid() && CopiedTo(file.Content(), old(file.Content())[..offset], data, 0)
  {
    Grown(file.Content(), offset, len);
    file.Truncate(offset + len);
  }

  /** One input of `copy_to`: the file is resized to hold it, then written page by page. */
  method CopyInput(pages: seq<Page>, start: nat, len: nat, file: PagedBuffer.Buffer, offset: nat, ghost data: seq<Byte>)
    returns (next: nat)
    requires file.Valid() && offset <= |file.Content()|
    requires start <= |pages| && ReadData(pages[start..], len) == Some(data)
    modifies file
    ensures file.Valid() && file.Content() == old(file.Content())[..offset] + data
    ensures next == start + PageCount(len) <= |pages|
  {
    ghost var before := file.Content()[..offset];
    GrowFor(file, offset, len, data);
    next := start;
    var i := 0;
    ghost var end := start + PageCount(len);
    assert data[0..] == data;
    while i < len
      invariant file.Valid() && i <= len && CopiedTo(file.Content(), before, data, i)
      invariant Ahead(pages, next, end, data, i)
    {
      var size := if len - i < PAGE then len - i else PAGE;
      PageAhead(pages, next, end, data, i, size);
      WritePiece(file, offset, i, pages[next][..size], before, data);
      i := i + size;
      next := next + 1;
    }
    CopiedAll(file.Content(), before, data);
  }

  /** The length the kernel reads from a header page. */
  function LengthAt(page: Page): nat {
    FromLittleEndian(page[..8])
  }

  /** One input with its header, at one page. */
  ghost predicate CarriedAt(pages: seq<Page>, index: nat, data: seq<Byte>) {
    && index < |pages|
    && |data| == LengthAt(pages[index]) != NO_LENGTH
    && ReadData(pages[index + 1..], |data|) == Some(data)
    && index + 1 + PageCount(|data|) <= |pages|
  }

  /** The kernel's view of a verified layout: from this page on it carries `inputs`. */
  ghost predicate Carried(pages: seq<Page>, index: nat, inputs: seq<Input>)
    decreases |inputs|
  {
    if inputs == [] then index < |pages| && LengthAt(pages[index]) == NO_LENGTH
    else
      && CarriedAt(pages, index, inputs[0].bytes)
      && Carried(pages, index + 1 + PageCount(|inputs[0].bytes|), inputs[1..])
  }

  /** In the reserved frames only the end header has the length that ends the file. */
  lemma LinkLength(h: Hashes, pages: seq<Page>, hash: seq<Byte>)
    requires 0 < |pages| <= INPUT_FRAMES
    ensures FirstLink(h, pages, hash).Last? ==> LengthAt(pages[0]) == NO_LENGTH
    ensures FirstLink(h, pages, hash).Carries? ==>
              var link := FirstLink(h, pages, hash);
              && |link.input.bytes| == LengthAt(pages[0]) != NO_LENGTH
              && link.count == 1 + PageCount(|link.input.bytes|)
              && ReadData(pages[1..], |link.input.bytes|) == Some(link.input.bytes)
  {
    assert pages[0][..HEADER_SIZE][..8] == pages[0][..8];
  }

  /** The first input of a verified layout, and the layout behind it. */
  ghost predicate PassesFrom(h: Hashes, pages: seq<Page>, index: nat, hash: seq<Byte>, inputs: seq<Input>) {
    index <= |pages| <= INPUT_FRAMES && Verified(h, pages[index..], hash) == Some(inputs)
  }

  lemma VerifiedStep(h: Hashes, pages: seq<Page>, index: nat, hash: seq<Byte>, inputs: seq<Input>) returns (nextHash: seq<Byte>)
    requires PassesFrom(h, pages, index, hash, inputs)
    ensures inputs == [] ==> Carried(pages, index, inputs)
    ensures inputs != [] ==>
              && CarriedAt(pages, index, inputs[0].bytes)
              && PassesFrom(h, pages, index + 1 + PageCount(|inputs[0].bytes|), nextHash, inputs[1..])
  {
    var link := FirstLink(h, pages[index..], hash);
    LinkLength(h, pages[index..], hash);
    nextHash := [];
    if link.Carries? {
      assert inputs[0] == link.input;
      assert pages[index..][1..] == pages[index + 1..];
      assert pages[index..][link.count..] == pages[index + link.count..];
      nextHash := link.nextHash;
    }
  }

  lemma CarriedStep(pages: seq<Page>, index: nat, inputs: seq<Input>)
    requires inputs != [] && CarriedAt(pages, index, inputs[0].bytes)
    requires Carried(pages, index + 1 + PageCount(|inputs[0].bytes|), inputs[1..])
    ensures Carried(pages, index, inputs)
  {
  }

  /** What the supervisor verified is what the kernel sees. */
  lemma {:induction false} VerifiedCarried(h: Hashes, pages: seq<Page>, index: nat, hash: seq<Byte>, inputs: seq<Input>)
    requires PassesFrom(h, pages, index, hash, inputs)
    ensures Carried(pages, index, inputs)
    decreases |inputs|
  {
    var nextHash := VerifiedStep(h, pages, index, hash, inputs);
    if inputs != [] {
      VerifiedCarried(h, pages, index + 1 + PageCount(|inputs[0].bytes|), nextHash, inputs[1..]);
      CarriedStep(pages, index, inputs);
    }
  }

  /** One round of `copy_to` on what the kernel sees; `none` ends the loop. */
  method CopyNext(pages: seq<Page>, index: nat, file: PagedBuffer.Buffer, len: nat, ghost inputs: seq<Input>)
    returns (none: bool, next: nat, newLen: nat)
    requires file.Valid() && len <= |file.Content()| && Carried(pages, index, inputs)
    modifies file
    ensures file.Valid() && (none <==> inputs == [])
    ensures none ==> file.Content() == old(file.Content())
    ensures !none ==>
              && Carried(pages, next, inputs[1..]) && newLen == |file.Content()|
              && file.Content() == old(file.Content())[..len] + inputs[0].bytes
  {
    var chunk := LengthAt(pages[index]);
    if chunk == NO_LENGTH {
      return true, index, len;
    }
    none, newLen := false, len + chunk;
    next := CopyInput(pages, index + 1, chunk, file, len, inputs[0].bytes);
  }

  lemma FlattenStep(before: seq<Byte>, inputs: seq<Input>, all: seq<Byte>)
    requires inputs != [] && before + Flatten(inputs) == all
    ensures (before + inputs[0].bytes) + Flatten(inputs[1..]) == all
  {
    Regroup(before, inputs[0].bytes, Flatten(inputs[1..]));
  }

  /** The loop of `copy_to`; `len` is the length written so far. */
  method CopyInputs(pages: seq<Page>, file: PagedBuffer.Buffer, ghost inputs: seq<Input>)
    requires file.Valid() && Carried(pages, 0, inputs)
    modifies file
    ensures file.Valid() && file.Content() == if inputs == [] then old(file.Content()) else Flatten(inputs)
  {
    ghost var left, all, started := inputs, Flatten(inputs), false;
    var index: nat, len: nat := 0, 0;
    while true
      invariant file.Valid() && Carried(pages, index, left)
      invariant !started ==> len == 0 && file.Content() == old(file.Content()) && left == inputs
      invariant started ==> len == |file.Content()| && inputs != []
      invariant len <= |file.Content()| && file.Content()[..len] + Flatten(left) == all
      decreases |left|
    {
      ghost var before := file.Content()[..len];
      var none, next, newLen := CopyNext(pages, index, file, len, left);
      if none {
        assert started ==> file.Content() == before;
        break;
      }
      FlattenStep(before, left, all);
      index, len := next, newLen;
      assert file.Content()[..len] == file.Content();
      left, started := left[1..], true;
    }
  }

  /** `copy_to`: on every layout that passed verification the file ends up holding the
      inputs end to end; without inputs the file is left as it was. */
  method CopyTo(h: Hashes, pages: seq<Page>, ghost hash: seq<Byte>, file: PagedBuffer.Buffer)
    requires file.Valid() && |pages| <= INPUT_FRAMES && Verified(h, pages, hash).Some?
    modifies file
    ensures file.Valid()
    ensures file.Content() == if Verified(h, pages, hash).value == [] then old(file.Content())
                              else Flatten(Verified(h, pages, hash).value)
  {
    ghost var inputs := Verified(h, pages, hash).value;
    assert Carried(pages, 0, inputs) by {
      assert pages[0..] == pages;
      VerifiedCarried(h, pages, 0, hash, inputs);
    }
    CopyInputs(pages, file, inputs);
  }
}
