/** The input chain: headers that hash an input and the next header, the pages that
    carry them, and what it takes for pages to pass the supervisor's verification. The
    hash functions are parameters. */
module InputChain {
  import opened Basics

  const PAGE: nat := 0x1000
  const HEADER_SIZE: nat := 8 + 8 + 48 + 32
  /** Frames reserved for the input: 64 GiB. */
  const INPUT_FRAMES: nat := 0x100_0000
  const NO_LENGTH: nat := 0xffff_ffff_ffff_ffff
  /** No byte slice is longer. */
  const MAX_SLICE: nat := 0x7fff_ffff_ffff_ffff

  datatype HashType = Sha256 | Sha384

  datatype Input = Input(bytes: seq<Byte>, hashType: HashType)

  datatype Header = Header(inputLen: nat, hashType: HashType, hash: seq<Byte>, nextHash: seq<Byte>)

  datatype Hashes = Hashes(sha256: seq<Byte> -> seq<Byte>, sha384: seq<Byte> -> seq<Byte>)

  ghost predicate Sized(h: Hashes) {
    && (forall x {:trigger h.sha256(x)} :: |h.sha256(x)| == 32)
    && (forall x {:trigger h.sha384(x)} :: |h.sha384(x)| == 48)
  }

  predicate ValidHeader(d: Header) {
    d.inputLen <= NO_LENGTH && |d.hash| == 48 && |d.nextHash| == 32
  }

  function End(): Header {
    Header(NO_LENGTH, Sha256, Zeros(48), Zeros(32))
  }

  // ----- header bytes -----

  function Pow256(k: nat): nat {
    if k == 0 then 1 else 256 * Pow256(k - 1)
  }

  function LittleEndian(n: nat, k: nat): (r: seq<Byte>)
    ensures |r| == k
  {
    if k == 0 then [] else [n % 256] + LittleEndian(n / 256, k - 1)
  }

  function FromLittleEndian(bytes: seq<Byte>): nat {
    if bytes == [] then 0 else bytes[0] as nat + 256 * FromLittleEndian(bytes[1..])
  }

  lemma {:induction false} LittleEndianRoundTrip(n: nat, k: nat)
    requires n < Pow256(k)
    ensures FromLittleEndian(LittleEndian(n, k)) == n
  {
    if k > 0 {
      LittleEndianRoundTrip(n / 256, k - 1);
      assert LittleEndian(n, k)[1..] == LittleEndian(n / 256, k - 1);
    }
  }

  lemma Pow256Of8()
    ensures Pow256(8) == NO_LENGTH + 1
  {
    assert Pow256(2) == 0x1_0000;
    assert Pow256(4) == 0x1_0000_0000;
    assert Pow256(6) == 0x1_0000_0000_0000;
  }

  function EncodeHeader(d: Header): (r: seq<Byte>)
    requires ValidHeader(d)
    ensures |r| == HEADER_SIZE
  {
    LittleEndian(d.inputLen, 8) + LittleEndian(if d.hashType.Sha256? then 0 else 1, 8) + d.hash + d.nextHash
  }

  /** Reading a header fails on an unknown hash type. */
  function DecodeHeader(bytes: seq<Byte>): (r: Option<Header>)
    requires |bytes| == HEADER_SIZE
    ensures r.Some? ==> |r.value.hash| == 48 && |r.value.nextHash| == 32
  {
    var kind := FromLittleEndian(bytes[8..16]);
    if kind > 1 then None
    else Some(Header(FromLittleEndian(bytes[..8]), if kind == 0 then Sha256 else Sha384, bytes[16..64], bytes[64..]))
  }

  lemma HeaderRoundTrip(d: Header)
    requires ValidHeader(d)
    ensures DecodeHeader(EncodeHeader(d)) == Some(d)
  {
    var kind: nat := if d.hashType.Sha256? then 0 else 1;
    Pow256Of8();
    LittleEndianRoundTrip(d.inputLen, 8);
    LittleEndianRoundTrip(kind, 8);
    var bytes := EncodeHeader(d);
    assert bytes[..8] == LittleEndian(d.inputLen, 8);
    assert bytes[8..16] == LittleEndian(kind, 8);
    assert bytes[16..64] == d.hash;
    assert bytes[64..] == d.nextHash;
  }

  // ----- the chain -----

  function DataHash(h: Hashes, kind: HashType, data: seq<Byte>): seq<Byte> {
    if kind.Sha256? then h.sha256(data) + Zeros(16) else h.sha384(data)
  }

  function HeaderHash(h: Hashes, d: Header): seq<Byte>
    requires ValidHeader(d)
  {
    h.sha256(EncodeHeader(d))
  }

  predicate Slices(inputs: seq<Input>) {
    forall i | 0 <= i < |inputs| :: |inputs[i].bytes| <= MAX_SLICE
  }

  /** The header in front of the given inputs. */
  ghost function Chain(h: Hashes, inputs: seq<Input>): (d: Header)
    requires Sized(h) && Slices(inputs)
    ensures ValidHeader(d)
  {
    if inputs == [] then End()
    else
      var first := inputs[0];
      Header(|first.bytes|, first.hashType, DataHash(h, first.hashType, first.bytes), HeaderHash(h, Chain(h, inputs[1..])))
  }

  /** The hash an attestation report commits to. */
  ghost function ChainHash(h: Hashes, inputs: seq<Input>): seq<Byte>
    requires Sized(h) && Slices(inputs)
  {
    HeaderHash(h, Chain(h, inputs))
  }

  /** All strings SHA-256 is applied to for these inputs. */
  ghost function Strings256(h: Hashes, inputs: seq<Input>): set<seq<Byte>>
    requires Sized(h) && Slices(inputs)
  {
    {EncodeHeader(Chain(h, inputs))} +
    if inputs == [] then {}
    else (if inputs[0].hashType.Sha256? then {inputs[0].bytes} else {}) + Strings256(h, inputs[1..])
  }

  ghost function Strings384(inputs: seq<Input>): set<seq<Byte>> {
    if inputs == [] then {}
    else (if inputs[0].hashType.Sha384? then {inputs[0].bytes} else {}) + Strings384(inputs[1..])
  }

  ghost predicate CollisionFree(f: seq<Byte> -> seq<Byte>, strings: set<seq<Byte>>) {
    forall x, y {:trigger f(x), f(y)} :: x in strings && y in strings && f(x) == f(y) ==> x == y
  }

  lemma SameData(h: Hashes, kind: HashType, a: seq<Byte>, b: seq<Byte>)
    requires Sized(h) && DataHash(h, kind, a) == DataHash(h, kind, b)
    requires kind.Sha256? ==> CollisionFree(h.sha256, {a, b})
    requires kind.Sha384? ==> CollisionFree(h.sha384, {a, b})
    ensures a == b
  {
    if kind.Sha256? {
      assert (h.sha256(a) + Zeros(16))[..32] == h.sha256(a);
      assert (h.sha256(b) + Zeros(16))[..32] == h.sha256(b);
    }
  }

  lemma SameHeader(h: Hashes, a: Header, b: Header)
    requires ValidHeader(a) && ValidHeader(b) && HeaderHash(h, a) == HeaderHash(h, b)
    requires CollisionFree(h.sha256, {EncodeHeader(a), EncodeHeader(b)})
    ensures a == b
  {
    HeaderRoundTrip(a);
    HeaderRoundTrip(b);
  }

  lemma HeadsAgree(h: Hashes, a: seq<Input>, b: seq<Input>)
    requires Sized(h) && Slices(a) && Slices(b) && ChainHash(h, a) == ChainHash(h, b)
    requires CollisionFree(h.sha256, Strings256(h, a) + Strings256(h, b))
    requires CollisionFree(h.sha384, Strings384(a) + Strings384(b))
    ensures a == [] <==> b == []
    ensures a != [] ==> a[0] == b[0] && ChainHash(h, a[1..]) == ChainHash(h, b[1..])
  {
    SameHeader(h, Chain(h, a), Chain(h, b));
    if a != [] && b != [] {
      SameData(h, a[0].hashType, a[0].bytes, b[0].bytes);
    }
  }

  /** One hash, one list of inputs: as long as no two different strings hashed for the
      two lists collide. */
  lemma {:induction false} ChainInjective(h: Hashes, a: seq<Input>, b: seq<Input>)
    requires Sized(h) && Slices(a) && Slices(b) && ChainHash(h, a) == ChainHash(h, b)
    requires CollisionFree(h.sha256, Strings256(h, a) + Strings256(h, b))
    requires CollisionFree(h.sha384, Strings384(a) + Strings384(b))
    ensures a == b
    decreases |a|
  {
    HeadsAgree(h, a, b);
    if a != [] {
      ChainInjective(h, a[1..], b[1..]);
      assert a == [a[0]] + a[1..] && b == [b[0]] + b[1..];
    }
  }

  // ----- pages -----

  type Page = p: seq<Byte> | |p| == PAGE witness Zeros(PAGE)

  function PageCount(len: nat): (r: nat)
    ensures len <= PAGE * r
  {
    if len == 0 then 0 else if len >= PAGE then 1 + PageCount(len - PAGE) else 1
  }

  /** The pages of one input, the last padded with zeros. */
  function DataPages(bytes: seq<Byte>): (r: seq<Page>)
    ensures |r| == PageCount(|bytes|)
  {
    if bytes == [] then []
    else if |bytes| >= PAGE then [bytes[..PAGE]] + DataPages(bytes[PAGE..])
    else [bytes + Zeros(PAGE - |bytes|)]
  }

  function HeaderPage(d: Header): Page
    requires ValidHeader(d)
  {
    EncodeHeader(d) + Zeros(PAGE - HEADER_SIZE)
  }

  /** The header page and the pages of the first input. */
  ghost function LinkPages(h: Hashes, inputs: seq<Input>): seq<Page>
    requires Sized(h) && Slices(inputs) && inputs != []
  {
    [HeaderPage(Chain(h, inputs))] + DataPages(inputs[0].bytes)
  }

  /** Everything the loader lays out. */
  ghost function ChainPages(h: Hashes, inputs: seq<Input>): seq<Page>
    requires Sized(h) && Slices(inputs)
  {
    if inputs == [] then [HeaderPage(End())] else LinkPages(h, inputs) + ChainPages(h, inputs[1..])
  }

  /** The input read from pages: whole pages, then a rest that must be padded with zeros.
      `None` is a failed assertion or a read past the input frames. */
  ghost function ReadData(pages: seq<Page>, len: nat): (r: Option<seq<Byte>>)
    ensures r.Some? ==> |r.value| == len && PageCount(len) <= |pages|
    decreases len
  {
    if len == 0 then Some([])
    else if pages == [] then None
    else if len >= PAGE then
      match ReadData(pages[1..], len - PAGE)
      case Some(rest) => Some(pages[0] + rest)
      case None => None
    else if pages[0][len..] == Zeros(PAGE - len) then Some(pages[0][..len])
    else None
  }

  /** What the pages at hand start with: nothing acceptable, the end of the chain, or an
      input that takes `count` pages. */
  datatype Link = Broken | Last | Carries(input: Input, count: nat, nextHash: seq<Byte>)

  ghost function FirstLink(h: Hashes, pages: seq<Page>, hash: seq<Byte>): (r: Link)
    ensures r.Carries? ==> 1 <= r.count <= |pages| && |r.input.bytes| <= PAGE * |pages|
  {
    if pages == [] then Broken
    else
      match DecodeHeader(pages[0][..HEADER_SIZE])
      case None => Broken
      case Some(d) =>
        if h.sha256(pages[0][..HEADER_SIZE]) != hash then Broken
        else if d == End() then Last
        else
          match ReadData(pages[1..], d.inputLen)
          case None => Broken
          case Some(data) =>
            if DataHash(h, d.hashType, data) != d.hash then Broken
            else Carries(Input(data, d.hashType), 1 + PageCount(d.inputLen), d.nextHash)
  }

  /** The inputs that pages carry if they pass verification against a hash. */
  ghost function Verified(h: Hashes, pages: seq<Page>, hash: seq<Byte>): (r: Option<seq<Input>>)
    ensures r.Some? && |pages| <= INPUT_FRAMES ==> Slices(r.value)
    decreases |pages|
  {
    match FirstLink(h, pages, hash)
    case Broken => None
    case Last => Some([])
    case Carries(input, count, nextHash) =>
      match Verified(h, pages[count..], nextHash)
      case None => None
      case Some(rest) => Some([input] + rest)
  }

  ghost function After(inputs: seq<Input>, rest: Option<seq<Input>>): Option<seq<Input>> {
    if rest.Some? then Some(inputs + rest.value) else None
  }

  // ----- header bytes determine the header and back -----

  lemma {:induction false} FromLittleEndianBound(bytes: seq<Byte>)
    ensures FromLittleEndian(bytes) < Pow256(|bytes|)
    ensures LittleEndian(FromLittleEndian(bytes), |bytes|) == bytes
    decreases |bytes|
  {
    if bytes != [] {
      FromLittleEndianBound(bytes[1..]);
      assert FromLittleEndian(bytes) / 256 == FromLittleEndian(bytes[1..]);
      assert bytes == [bytes[0]] + bytes[1..];
    }
  }

  lemma HeaderBytes(bytes: seq<Byte>)
    requires |bytes| == HEADER_SIZE && DecodeHeader(bytes).Some?
    ensures ValidHeader(DecodeHeader(bytes).value) && EncodeHeader(DecodeHeader(bytes).value) == bytes
  {
    Pow256Of8();
    FromLittleEndianBound(bytes[..8]);
    FromLittleEndianBound(bytes[8..16]);
    InFour(bytes);
  }

  lemma InFour(bytes: seq<Byte>)
    requires |bytes| == HEADER_SIZE
    ensures bytes[..8] + bytes[8..16] + bytes[16..64] + bytes[64..] == bytes
  {
  }

  // ----- the theorems -----

  /** The header behind a link is the chain header of its input and what follows. */
  lemma LinkHeader(h: Hashes, pages: seq<Page>, hash: seq<Byte>, rest: seq<Input>)
    requires Sized(h) && FirstLink(h, pages, hash).Carries? && |pages| <= INPUT_FRAMES && Slices(rest)
    requires ChainHash(h, rest) == FirstLink(h, pages, hash).nextHash
    ensures ChainHash(h, [FirstLink(h, pages, hash).input] + rest) == hash
  {
    HeaderBytes(pages[0][..HEADER_SIZE]);
    var inputs := [FirstLink(h, pages, hash).input] + rest;
    assert inputs[1..] == rest;
    assert Chain(h, inputs) == DecodeHeader(pages[0][..HEADER_SIZE]).value;
  }

  /** Whatever passes verification commits to exactly the inputs it carries: the hash it
      passed against is the chain hash of those inputs. */
  lemma {:induction false} VerifiedHash(h: Hashes, pages: seq<Page>, hash: seq<Byte>)
    requires Sized(h) && |pages| <= INPUT_FRAMES && Verified(h, pages, hash).Some?
    ensures ChainHash(h, Verified(h, pages, hash).value) == hash
    decreases |pages|
  {
    var link := FirstLink(h, pages, hash);
    if link.Carries? {
      VerifiedHash(h, pages[link.count..], link.nextHash);
      LinkHeader(h, pages, hash, Verified(h, pages[link.count..], link.nextHash).value);
    } else {
      HeaderBytes(pages[0][..HEADER_SIZE]);
    }
  }

  /** Any two page layouts that pass against the same hash carry the same inputs, as long
      as no two different strings hashed for them collide. */
  lemma SameHashSameInputs(h: Hashes, a: seq<Page>, b: seq<Page>, hash: seq<Byte>)
    requires Sized(h) && |a| <= INPUT_FRAMES && |b| <= INPUT_FRAMES
    requires Verified(h, a, hash).Some? && Verified(h, b, hash).Some?
    requires CollisionFree(h.sha256, Strings256(h, Verified(h, a, hash).value) + Strings256(h, Verified(h, b, hash).value))
    requires CollisionFree(h.sha384, Strings384(Verified(h, a, hash).value) + Strings384(Verified(h, b, hash).value))
    ensures Verified(h, a, hash) == Verified(h, b, hash)
  {
    VerifiedHash(h, a, hash);
    VerifiedHash(h, b, hash);
    ChainInjective(h, Verified(h, a, hash).value, Verified(h, b, hash).value);
  }

  lemma {:induction false} ReadBack(bytes: seq<Byte>, more: seq<Page>)
    ensures ReadData(DataPages(bytes) + more, |bytes|) == Some(bytes)
    decreases |bytes|
  {
    var pages := DataPages(bytes) + more;
    if |bytes| >= PAGE {
      assert pages[1..] == DataPages(bytes[PAGE..]) + more;
      ReadBack(bytes[PAGE..], more);
      assert bytes == bytes[..PAGE] + bytes[PAGE..];
    } else if bytes != [] {
      assert pages[0] == bytes + Zeros(PAGE - |bytes|);
      assert pages[0][|bytes|..] == Zeros(PAGE - |bytes|);
      assert pages[0][..|bytes|] == bytes;
    }
  }

  /** Too few pages are noticed. */
  lemma {:induction false} ReadShort(pages: seq<Page>, len: nat)
    requires |pages| < PageCount(len)
    ensures ReadData(pages, len).None?
    decreases len
  {
    if len >= PAGE && pages != [] {
      ReadShort(pages[1..], len - PAGE);
    }
  }

  lemma HeaderPageReads(d: Header)
    requires ValidHeader(d)
    ensures HeaderPage(d)[..HEADER_SIZE] == EncodeHeader(d)
    ensures DecodeHeader(HeaderPage(d)[..HEADER_SIZE]) == Some(d)
  {
    HeaderRoundTrip(d);
    assert HeaderPage(d)[..HEADER_SIZE] == EncodeHeader(d);
  }

  lemma LinkReads(h: Hashes, pages: seq<Page>, d: Header, data: seq<Byte>)
    requires pages != [] && DecodeHeader(pages[0][..HEADER_SIZE]) == Some(d) && d.inputLen != NO_LENGTH
    requires ReadData(pages[1..], d.inputLen) == Some(data) && DataHash(h, d.hashType, data) == d.hash
    ensures FirstLink(h, pages, h.sha256(pages[0][..HEADER_SIZE]))
            == Carries(Input(data, d.hashType), 1 + PageCount(d.inputLen), d.nextHash)
  {
  }

  /** The loader's first pages, followed by anything, are the link to its first input. */
  lemma LoaderLink(h: Hashes, inputs: seq<Input>, more: seq<Page>)
    requires Sized(h) && Slices(inputs) && inputs != []
    ensures FirstLink(h, LinkPages(h, inputs) + more, ChainHash(h, inputs))
            == Carries(inputs[0], |LinkPages(h, inputs)|, ChainHash(h, inputs[1..]))
  {
    var d := Chain(h, inputs);
    var pages := LinkPages(h, inputs) + more;
    HeaderPageReads(d);
    assert pages[0] == HeaderPage(d);
    assert pages[1..] == DataPages(inputs[0].bytes) + more;
    ReadBack(inputs[0].bytes, more);
    LinkReads(h, pages, d, inputs[0].bytes);
  }

  lemma LoaderStep(h: Hashes, inputs: seq<Input>, more: seq<Page>)
    requires Sized(h) && Slices(inputs) && inputs != []
    ensures Verified(h, LinkPages(h, inputs) + more, ChainHash(h, inputs))
            == After([inputs[0]], Verified(h, more, ChainHash(h, inputs[1..])))
  {
    LoaderLink(h, inputs, more);
    assert (LinkPages(h, inputs) + more)[|LinkPages(h, inputs)|..] == more;
  }

  lemma LoaderEnd(h: Hashes)
    requires Sized(h)
    ensures Verified(h, ChainPages(h, []), ChainHash(h, [])) == Some([])
  {
    HeaderRoundTrip(End());
    assert HeaderPage(End())[..HEADER_SIZE] == EncodeHeader(End());
  }

  lemma LoaderPassesStep(h: Hashes, inputs: seq<Input>, more: seq<Page>)
    requires Sized(h) && Slices(inputs) && inputs != []
    requires Verified(h, more, ChainHash(h, inputs[1..])) == Some(inputs[1..])
    ensures Verified(h, LinkPages(h, inputs) + more, ChainHash(h, inputs)) == Some(inputs)
  {
    LoaderStep(h, inputs, more);
    assert [inputs[0]] + inputs[1..] == inputs;
  }

  /** The loader's pages, whole, pass and carry its inputs. */
  lemma {:induction false} LoaderPasses(h: Hashes, inputs: seq<Input>)
    requires Sized(h) && Slices(inputs)
    ensures Verified(h, ChainPages(h, inputs), ChainHash(h, inputs)) == Some(inputs)
    decreases |inputs|
  {
    if inputs == [] {
      LoaderEnd(h);
    } else {
      LoaderPasses(h, inputs[1..]);
      LoaderPassesStep(h, inputs, ChainPages(h, inputs[1..]));
    }
  }

  /** A cut inside the first input is noticed. */
  lemma CutLinkFails(h: Hashes, inputs: seq<Input>, n: nat)
    requires Sized(h) && Slices(inputs) && inputs != [] && 0 < n < 1 + PageCount(|inputs[0].bytes|)
    ensures Verified(h, LinkPages(h, inputs)[..n], ChainHash(h, inputs)).None?
  {
    var d := Chain(h, inputs);
    var pages := LinkPages(h, inputs)[..n];
    HeaderPageReads(d);
    assert pages[0] == HeaderPage(d);
    ReadShort(pages[1..], |inputs[0].bytes|);
  }

  /** The first `n` of the loader's pages do not pass. */
  ghost predicate CutFails(h: Hashes, inputs: seq<Input>, n: nat)
    requires Sized(h) && Slices(inputs) && n <= |ChainPages(h, inputs)|
  {
    Verified(h, ChainPages(h, inputs)[..n], ChainHash(h, inputs)).None?
  }

  lemma CutInside(h: Hashes, inputs: seq<Input>, n: nat)
    requires Sized(h) && Slices(inputs) && inputs != [] && 0 < n < |LinkPages(h, inputs)|
    ensures CutFails(h, inputs, n)
  {
    CutLinkFails(h, inputs, n);
    assert (LinkPages(h, inputs) + ChainPages(h, inputs[1..]))[..n] == LinkPages(h, inputs)[..n];
  }

  /** A cut behind the first input is the cut of what follows it. */
  lemma CutBehind(h: Hashes, inputs: seq<Input>, n: nat)
    requires Sized(h) && Slices(inputs) && inputs != [] && |LinkPages(h, inputs)| <= n <= |ChainPages(h, inputs)|
    requires CutFails(h, inputs[1..], n - |LinkPages(h, inputs)|)
    ensures CutFails(h, inputs, n)
  {
    var front, more := LinkPages(h, inputs), ChainPages(h, inputs[1..]);
    var cut := more[..n - |front|];
    assert (front + more)[..n] == front + cut;
    LoaderStep(h, inputs, cut);
  }

  /** Cut short anywhere, the loader's pages do not pass. */
  lemma {:induction false} LoaderCutFails(h: Hashes, inputs: seq<Input>, n: nat)
    requires Sized(h) && Slices(inputs) && n < |ChainPages(h, inputs)|
    ensures CutFails(h, inputs, n)
    decreases |inputs|
  {
    if n == 0 {
      assert ChainPages(h, inputs)[..n] == [];
    } else if inputs != [] {
      if n < |LinkPages(h, inputs)| {
        CutInside(h, inputs, n);
      } else {
        LoaderCutFails(h, inputs[1..], n - |LinkPages(h, inputs)|);
        CutBehind(h, inputs, n);
      }
    }
  }

  /** What fits in the frames reserved for the input. */
  ghost function Loaded(h: Hashes, inputs: seq<Input>): seq<Page>
    requires Sized(h) && Slices(inputs)
  {
    var pages := ChainPages(h, inputs);
    if |pages| <= INPUT_FRAMES then pages else pages[..INPUT_FRAMES]
  }

  /** Loaded inputs pass verification if and only if they fit. */
  lemma LoadedPassesExactly(h: Hashes, inputs: seq<Input>)
    requires Sized(h) && Slices(inputs)
    ensures Verified(h, Loaded(h, inputs), ChainHash(h, inputs)).Some? <==> |ChainPages(h, inputs)| <= INPUT_FRAMES
    ensures |ChainPages(h, inputs)| <= INPUT_FRAMES ==>
              Verified(h, Loaded(h, inputs), ChainHash(h, inputs)) == Some(inputs)
  {
    LoaderPasses(h, inputs);
    if |ChainPages(h, inputs)| > INPUT_FRAMES {
      LoaderCutFails(h, inputs, INPUT_FRAMES);
    }
  }
}
