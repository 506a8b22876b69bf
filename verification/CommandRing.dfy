/** The command ring between the kernel and the supervisor: command encodings, and the
    ring as a state machine in which one writer and one reader interleave byte by
    byte. */
module CommandRing {
  import opened Basics

  const COMMAND_BUFFER_SIZE: nat := 0x4000 - 2 * 2
  const CHUNK: nat := 0x1000

  datatype Command =
    | StartNextAp
    | AllocateMemory
    | DeallocateMemory(slot: nat)
    | UpdateOutput(chunk: seq<Byte>)
    | FinishOutput
    | FailOutput

  /** What the kernel can put in a command: a 16-bit slot, a chunk of at most a page. */
  predicate Valid(c: Command) {
    (c.DeallocateMemory? ==> c.slot < 0x10000) && (c.UpdateOutput? ==> |c.chunk| <= CHUNK)
  }

  function Id(c: Command): Byte {
    match c
    case StartNextAp => 0
    case AllocateMemory => 1
    case DeallocateMemory(_) => 2
    case UpdateOutput(_) => 3
    case FinishOutput => 4
    case FailOutput => 5
  }

  function PayloadSize(id: Byte): nat {
    if id == 2 then 2 else if id == 3 then 2 + CHUNK else 0
  }

  function Payload(c: Command): (bytes: seq<Byte>)
    requires Valid(c)
    ensures |bytes| == PayloadSize(Id(c))
  {
    match c
    case DeallocateMemory(slot) => [slot % 256, slot / 256]
    case UpdateOutput(chunk) => [|chunk| % 256, |chunk| / 256] + (chunk + Zeros(CHUNK - |chunk|))
    case _ => []
  }

  function Encode(c: Command): (bytes: seq<Byte>)
    requires Valid(c)
    ensures |bytes| == 1 + PayloadSize(Id(c)) && bytes[0] == Id(c)
  {
    [Id(c)] + Payload(c)
  }

  /** A 16-bit little-endian word. */
  function Word(low: nat, high: nat): nat {
    low + 256 * high
  }

  /** What the reader makes of an id and its payload; `None` is a panic. */
  function Decode(bytes: seq<Byte>): (c: Option<Command>)
    requires |bytes| > 0 && |bytes| == 1 + PayloadSize(bytes[0])
    ensures c.Some? ==> Valid(c.value)
  {
    match bytes[0]
    case 0 => Some(StartNextAp)
    case 1 => Some(AllocateMemory)
    case 2 => Some(DeallocateMemory(Word(bytes[1], bytes[2])))
    case 3 =>
      var size := Word(bytes[1], bytes[2]);
      if size <= CHUNK then Some(UpdateOutput(bytes[3..][..size])) else None
    case 4 => Some(FinishOutput)
    case 5 => Some(FailOutput)
    case _ => None
  }

  lemma DecodeEncode(c: Command)
    requires Valid(c)
    ensures Decode(Encode(c)) == Some(c)
  {
    var bytes := Encode(c);
    if c.UpdateOutput? {
      assert bytes[1] == |c.chunk| % 256 && bytes[2] == |c.chunk| / 256;
      assert bytes[3..] == c.chunk + Zeros(CHUNK - |c.chunk|);
      assert bytes[3..][..|c.chunk|] == c.chunk;
    }
  }

  /** Byte strings laid end to end. */
  ghost function Concat(parts: seq<seq<Byte>>): seq<Byte> {
    if parts == [] then [] else Concat(parts[..|parts| - 1]) + parts[|parts| - 1]
  }

  lemma {:induction false} ConcatSplit(parts: seq<seq<Byte>>, i: nat)
    requires i <= |parts|
    ensures Concat(parts) == Concat(parts[..i]) + Concat(parts[i..])
    decreases |parts|
  {
    if i == |parts| {
      assert parts[..i] == parts;
    } else {
      var front := parts[..|parts| - 1];
      ConcatSplit(front, i);
      assert front[..i] == parts[..i];
      assert parts[i..][..|parts[i..]| - 1] == front[i..];
    }
  }

  /** The part at position `i` occupies the bytes that follow its predecessors. */
  lemma PartAt(parts: seq<seq<Byte>>, i: nat)
    requires i < |parts|
    ensures Concat(parts[..i + 1]) == Concat(parts[..i]) + parts[i]
    ensures Concat(parts[..i + 1]) <= Concat(parts)
  {
    assert parts[..i + 1][..i] == parts[..i];
    ConcatSplit(parts, i + 1);
  }

  // ----- the ring -----

  datatype Writer = WriterIdle | Storing(command: Command, bytes: seq<Byte>, count: nat, index: nat)

  datatype Reader =
    | ReaderIdle
    | Fetching(got: seq<Byte>, index: nat)
    | Dispatched(index: nat)
    | Panicked

  /** `pushed`, `frames`, `dispatched`, `done`, `stream` and `read` are history: the
      commands published, their encodings, the commands handed to the handler, how many
      the reader has completed, all bytes published, and how many the reader released. */
  datatype State = State(
    completed: nat,
    pending: nat,
    buffer: seq<Byte>,
    writer: Writer,
    reader: Reader,
    pushed: seq<Command>,
    frames: seq<seq<Byte>>,
    dispatched: seq<Command>,
    done: nat,
    stream: seq<Byte>,
    read: nat)

  datatype Action =
    | Push(command: Command)
    | Store
    | Publish
    | Begin
    | Fetch
    | Dispatch
    | Complete

  function Next(index: nat): nat {
    if index + 1 == COMMAND_BUFFER_SIZE then 0 else index + 1
  }

  /** The capacity computed by `push`. */
  function Available(completed: nat, pending: nat): int {
    if completed <= pending then completed + (COMMAND_BUFFER_SIZE - 1 - pending) else completed - pending - 1
  }

  /** The next byte belongs to the command being fetched. */
  predicate WantsMore(got: seq<Byte>) {
    got == [] || |got| < 1 + PayloadSize(got[0])
  }

  predicate Enabled(s: State, a: Action) {
    match a
    case Push(c) => s.writer.WriterIdle? && Valid(c)
    case Store => s.writer.Storing? && s.writer.count < |s.writer.bytes| && s.writer.index < |s.buffer|
    case Publish => s.writer.Storing? && s.writer.count == |s.writer.bytes|
    case Begin => s.reader.ReaderIdle?
    case Fetch => s.reader.Fetching? && WantsMore(s.reader.got) && s.reader.index < |s.buffer|
    case Dispatch => s.reader.Fetching? && !WantsMore(s.reader.got)
    case Complete => s.reader.Dispatched?
  }

  function DoPush(s: State, c: Command): State
    requires Valid(c)
  {
    if Available(s.completed, s.pending) < |Encode(c)| then s
    else s.(writer := Storing(c, Encode(c), 0, s.pending))
  }

  function DoStore(s: State): State
    requires Enabled(s, Store)
  {
    var w := s.writer;
    s.(buffer := s.buffer[w.index := w.bytes[w.count]],
       writer := w.(count := w.count + 1, index := Next(w.index)))
  }

  function DoPublish(s: State): State
    requires Enabled(s, Publish)
  {
    var w := s.writer;
    s.(pending := w.index, writer := WriterIdle,
       pushed := s.pushed + [w.command], frames := s.frames + [w.bytes], stream := s.stream + w.bytes)
  }

  function DoBegin(s: State): State {
    if s.pending == s.completed then s else s.(reader := Fetching([], s.completed))
  }

  function DoFetch(s: State): State
    requires Enabled(s, Fetch)
  {
    var r := s.reader;
    s.(reader := Fetching(r.got + [s.buffer[r.index]], Next(r.index)))
  }

  function DoDispatch(s: State): State
    requires Enabled(s, Dispatch)
  {
    var r := s.reader;
    if |r.got| != 1 + PayloadSize(r.got[0]) then s.(reader := Panicked)
    else
      match Decode(r.got)
      case Some(c) => s.(reader := Dispatched(r.index), dispatched := s.dispatched + [c])
      case None => s.(reader := Panicked)
  }

  function DoComplete(s: State): State
    requires Enabled(s, Complete)
  {
    s.(completed := s.reader.index, reader := ReaderIdle, done := s.done + 1,
       read := if s.done < |s.frames| then s.read + |s.frames[s.done]| else s.read)
  }

  function Apply(s: State, a: Action): State
    requires Enabled(s, a)
  {
    match a
    case Push(c) => DoPush(s, c)
    case Store => DoStore(s)
    case Publish => DoPublish(s)
    case Begin => DoBegin(s)
    case Fetch => DoFetch(s)
    case Dispatch => DoDispatch(s)
    case Complete => DoComplete(s)
  }

  ghost predicate Initial(s: State) {
    && s.completed == 0 && s.pending == 0 && |s.buffer| == COMMAND_BUFFER_SIZE
    && s.writer.WriterIdle? && s.reader.ReaderIdle?
    && s.pushed == [] && s.frames == [] && s.dispatched == [] && s.done == 0 && s.stream == [] && s.read == 0
  }

  ghost predicate Run(s: State, actions: seq<Action>, t: State)
    decreases |actions|
  {
    if actions == [] then s == t
    else Enabled(s, actions[0]) && Run(Apply(s, actions[0]), actions[1..], t)
  }

  // ----- the invariant -----

  /** The slot of the k-th byte ever published. */
  function Slot(k: nat): (n: nat)
    ensures n < COMMAND_BUFFER_SIZE
  {
    if k < COMMAND_BUFFER_SIZE then k else Slot(k - COMMAND_BUFFER_SIZE)
  }

  lemma {:induction false} SlotNext(k: nat)
    ensures Slot(k + 1) == Next(Slot(k))
  {
    if k >= COMMAND_BUFFER_SIZE { SlotNext(k - COMMAND_BUFFER_SIZE); }
  }

  lemma {:induction false} SlotsDiffer(j: nat, k: nat)
    requires j < k < j + COMMAND_BUFFER_SIZE
    ensures Slot(j) != Slot(k)
  {
    if j >= COMMAND_BUFFER_SIZE { SlotsDiffer(j - COMMAND_BUFFER_SIZE, k - COMMAND_BUFFER_SIZE); }
  }

  lemma {:induction false} AvailableIsRoom(read: nat, written: nat)
    requires read <= written < read + COMMAND_BUFFER_SIZE
    ensures Available(Slot(read), Slot(written)) == COMMAND_BUFFER_SIZE - 1 - (written - read)
  {
    if read >= COMMAND_BUFFER_SIZE { AvailableIsRoom(read - COMMAND_BUFFER_SIZE, written - COMMAND_BUFFER_SIZE); }
  }

  ghost predicate FrameOk(s: State, i: nat) {
    i < |s.pushed| && i < |s.frames| ==> Valid(s.pushed[i]) && s.frames[i] == Encode(s.pushed[i])
  }

  /** The stream is the published commands laid end to end, cut at `read`. */
  ghost predicate Laid(s: State) {
    && |s.frames| == |s.pushed| && s.done <= |s.pushed|
    && (forall i: nat {:trigger FrameOk(s, i)} :: FrameOk(s, i))
    && s.stream == Concat(s.frames)
    && s.read == |Concat(s.frames[..s.done])|
  }

  /** An unread byte is in its slot. */
  ghost predicate Kept(s: State, k: nat) {
    s.read <= k < |s.stream| && Slot(k) < |s.buffer| ==> s.buffer[Slot(k)] == s.stream[k]
  }

  ghost predicate Shape(s: State) {
    && |s.buffer| == COMMAND_BUFFER_SIZE
    && s.read <= |s.stream| < s.read + COMMAND_BUFFER_SIZE
    && s.completed == Slot(s.read) && s.pending == Slot(|s.stream|)
    && (forall k: nat {:trigger Kept(s, k)} :: Kept(s, k))
  }

  ghost predicate StoredAt(s: State, k: nat) {
    s.writer.Storing? && k < s.writer.count && k < |s.writer.bytes| && Slot(|s.stream| + k) < |s.buffer| ==>
      s.buffer[Slot(|s.stream| + k)] == s.writer.bytes[k]
  }

  ghost predicate WriterOk(s: State) {
    s.writer.Storing? ==>
      && Valid(s.writer.command) && s.writer.bytes == Encode(s.writer.command)
      && s.writer.count <= |s.writer.bytes|
      && |s.stream| + |s.writer.bytes| < s.read + COMMAND_BUFFER_SIZE
      && s.writer.index == Slot(|s.stream| + s.writer.count)
      && (forall k: nat {:trigger StoredAt(s, k)} :: StoredAt(s, k))
  }

  ghost predicate ReaderOk(s: State)
    requires Laid(s)
  {
    match s.reader
    case ReaderIdle => s.dispatched == s.pushed[..s.done]
    case Fetching(got, index) =>
      && s.dispatched == s.pushed[..s.done] && s.done < |s.pushed|
      && got <= s.frames[s.done]
      && index == Slot(s.read + |got|)
    case Dispatched(index) =>
      && s.done < |s.pushed| && s.dispatched == s.pushed[..s.done + 1]
      && index == Slot(s.read + |s.frames[s.done]|)
    case Panicked => false
  }

  ghost predicate Inv(s: State) {
    Laid(s) && Shape(s) && WriterOk(s) && ReaderOk(s)
  }

  lemma ByteAt(s: State, j: nat)
    requires Laid(s) && s.done < |s.frames| && j < |s.frames[s.done]|
    ensures s.read + j < |s.stream| && s.stream[s.read + j] == s.frames[s.done][j]
  {
    PartAt(s.frames, s.done);
  }

  /** A push is refused exactly when the command does not fit beside the unread bytes. */
  lemma PushExact(s: State, c: Command)
    requires Shape(s) && Enabled(s, Push(c))
    ensures DoPush(s, c) == s <==> |s.stream| + |Encode(c)| >= s.read + COMMAND_BUFFER_SIZE
  {
    AvailableIsRoom(s.read, |s.stream|);
  }

  lemma SameLaid(s: State, r: State)
    requires Laid(s) && r.frames == s.frames && r.pushed == s.pushed && r.done == s.done
    requires r.stream == s.stream && r.read == s.read
    ensures Laid(r)
  {
    forall i: nat ensures FrameOk(r, i) {
      assert FrameOk(s, i);
    }
  }

  lemma SameShape(s: State, r: State)
    requires Shape(s) && r.buffer == s.buffer && r.completed == s.completed && r.pending == s.pending
    requires r.stream == s.stream && r.read == s.read
    ensures Shape(r)
  {
    forall k: nat ensures Kept(r, k) {
      assert Kept(s, k);
    }
  }

  lemma SameWriter(s: State, r: State)
    requires WriterOk(s) && r.writer == s.writer && r.buffer == s.buffer && r.stream == s.stream && r.read >= s.read
    ensures WriterOk(r)
  {
    forall k: nat ensures StoredAt(r, k) {
      assert StoredAt(s, k);
    }
  }

  lemma PushKeeps(s: State, c: Command)
    requires Inv(s) && Enabled(s, Push(c))
    ensures Inv(DoPush(s, c))
  {
    var r := DoPush(s, c);
    SameLaid(s, r);
    SameShape(s, r);
    PushExact(s, c);
    assert WriterOk(r) by {
      forall k: nat ensures StoredAt(r, k) {
        assert StoredAt(s, k);
      }
    }
  }

  /** A store goes to a slot that holds no unread byte. */
  lemma StoreMisses(s: State, k: nat)
    requires Shape(s) && WriterOk(s) && Enabled(s, Store) && s.read <= k < |s.stream| + s.writer.count
    ensures s.writer.index != Slot(k)
  {
    SlotsDiffer(k, |s.stream| + s.writer.count);
  }

  lemma StoreShape(s: State)
    requires Shape(s) && WriterOk(s) && Enabled(s, Store)
    ensures Shape(DoStore(s))
  {
    var r := DoStore(s);
    forall k: nat ensures Kept(r, k) {
      assert Kept(s, k);
      if s.read <= k < |s.stream| {
        StoreMisses(s, k);
      }
    }
  }

  lemma StoreWriter(s: State)
    requires Shape(s) && WriterOk(s) && Enabled(s, Store)
    ensures WriterOk(DoStore(s))
  {
    SlotNext(|s.stream| + s.writer.count);
    forall k: nat ensures StoredAt(DoStore(s), k) {
      if k < s.writer.count {
        StoreMisses(s, |s.stream| + k);
      }
      assert StoredAt(s, k);
      StoreStored(s, k);
    }
  }

  lemma StoreStored(s: State, k: nat)
    requires Enabled(s, Store) && StoredAt(s, k) && s.writer.index == Slot(|s.stream| + s.writer.count)
    requires k < s.writer.count ==> s.writer.index != Slot(|s.stream| + k)
    ensures StoredAt(DoStore(s), k)
  {
  }

  lemma StoreKeeps(s: State)
    requires Inv(s) && Enabled(s, Store)
    ensures Inv(DoStore(s))
  {
    SameLaid(s, DoStore(s));
    StoreShape(s);
    StoreWriter(s);
  }

  lemma PublishShape(s: State)
    requires Shape(s) && WriterOk(s) && Enabled(s, Publish)
    ensures Shape(DoPublish(s))
  {
    forall k: nat ensures Kept(DoPublish(s), k) {
      assert Kept(s, k);
      assert k >= |s.stream| ==> StoredAt(s, k - |s.stream|);
      PublishKept(s, k);
    }
  }

  /** A published byte is where it was stored. */
  lemma PublishKept(s: State, k: nat)
    requires Enabled(s, Publish) && Kept(s, k) && (k >= |s.stream| ==> StoredAt(s, k - |s.stream|))
    ensures Kept(DoPublish(s), k)
  {
  }

  lemma PublishLaid(s: State)
    requires Laid(s) && WriterOk(s) && Enabled(s, Publish)
    ensures Laid(DoPublish(s))
  {
    var r := DoPublish(s);
    assert r.frames[..|r.frames| - 1] == s.frames;
    assert r.frames[..s.done] == s.frames[..s.done];
    forall i: nat ensures FrameOk(r, i) {
      assert FrameOk(s, i);
    }
  }

  lemma PublishKeeps(s: State)
    requires Inv(s) && Enabled(s, Publish)
    ensures Inv(DoPublish(s))
  {
    PublishLaid(s);
    PublishShape(s);
    PublishReader(s);
  }

  lemma PublishReader(s: State)
    requires Laid(s) && ReaderOk(s) && Enabled(s, Publish) && Laid(DoPublish(s))
    ensures ReaderOk(DoPublish(s))
  {
    var r := DoPublish(s);
    assert r.pushed[..s.done] == s.pushed[..s.done];
    assert s.done < |s.pushed| ==> r.pushed[..s.done + 1] == s.pushed[..s.done + 1] && r.frames[s.done] == s.frames[s.done];
  }

  lemma BeginKeeps(s: State)
    requires Inv(s) && Enabled(s, Begin)
    ensures Inv(DoBegin(s))
  {
    var r := DoBegin(s);
    SameLaid(s, r);
    SameShape(s, r);
    SameWriter(s, r);
    if s.done == |s.pushed| {
      assert s.frames[..s.done] == s.frames;
    }
  }

  lemma FetchKeeps(s: State)
    requires Inv(s) && Enabled(s, Fetch)
    ensures Inv(DoFetch(s))
  {
    SameLaid(s, DoFetch(s));
    SameShape(s, DoFetch(s));
    SameWriter(s, DoFetch(s));
    FetchReader(s);
  }

  /** A command that has begun with its frame's first byte is as long as its frame. */
  lemma WantsFrame(s: State, got: seq<Byte>)
    requires Laid(s) && s.done < |s.pushed| && got <= s.frames[s.done] && WantsMore(got)
    ensures |got| < |s.frames[s.done]|
  {
    assert FrameOk(s, s.done);
  }

  lemma FetchedByte(s: State, j: nat)
    requires Laid(s) && Shape(s) && s.done < |s.pushed| && j < |s.frames[s.done]|
    ensures s.buffer[Slot(s.read + j)] == s.frames[s.done][j]
  {
    ByteAt(s, j);
    assert Kept(s, s.read + j);
  }

  lemma PrefixGrows(got: seq<Byte>, frame: seq<Byte>, b: Byte)
    requires got <= frame && |got| < |frame| && frame[|got|] == b
    ensures got + [b] <= frame
  {
  }

  lemma FetchReader(s: State)
    requires Laid(s) && Shape(s) && ReaderOk(s) && Enabled(s, Fetch) && Laid(DoFetch(s))
    ensures ReaderOk(DoFetch(s))
  {
    var got := s.reader.got;
    WantsFrame(s, got);
    FetchedByte(s, |got|);
    PrefixGrows(got, s.frames[s.done], s.buffer[s.reader.index]);
    SlotNext(s.read + |got|);
  }

  lemma DispatchKeeps(s: State)
    requires Inv(s) && Enabled(s, Dispatch)
    ensures Inv(DoDispatch(s))
  {
    var r := DoDispatch(s);
    SameLaid(s, r);
    SameShape(s, r);
    SameWriter(s, r);
    DispatchReader(s);
  }

  lemma FetchedWhole(s: State)
    requires Laid(s) && ReaderOk(s) && Enabled(s, Dispatch)
    ensures s.done < |s.pushed| && Valid(s.pushed[s.done]) && s.reader.got == Encode(s.pushed[s.done]) == s.frames[s.done]
  {
    assert FrameOk(s, s.done);
  }

  lemma DispatchReader(s: State)
    requires Laid(s) && ReaderOk(s) && Enabled(s, Dispatch) && Laid(DoDispatch(s))
    ensures ReaderOk(DoDispatch(s))
  {
    FetchedWhole(s);
    DecodeEncode(s.pushed[s.done]);
    assert s.pushed[..s.done + 1] == s.pushed[..s.done] + [s.pushed[s.done]];
  }

  lemma CompleteKeeps(s: State)
    requires Inv(s) && Enabled(s, Complete)
    ensures Inv(DoComplete(s))
  {
    var r := DoComplete(s);
    PartAt(s.frames, s.done);
    assert Laid(r) by {
      forall i: nat ensures FrameOk(r, i) {
        assert FrameOk(s, i);
      }
    }
    forall k: nat ensures Kept(r, k) {
      assert Kept(s, k);
    }
    SameWriter(s, r);
  }

  lemma StepKeeps(s: State, a: Action)
    requires Inv(s) && Enabled(s, a)
    ensures Inv(Apply(s, a))
  {
    match a
    case Push(c) => PushKeeps(s, c);
    case Store => StoreKeeps(s);
    case Publish => PublishKeeps(s);
    case Begin => BeginKeeps(s);
    case Fetch => FetchKeeps(s);
    case Dispatch => DispatchKeeps(s);
    case Complete => CompleteKeeps(s);
  }

  lemma {:induction false} RunKeeps(s: State, actions: seq<Action>, t: State)
    requires Inv(s) && Run(s, actions, t)
    ensures Inv(t)
    decreases |actions|
  {
    if actions != [] {
      StepKeeps(s, actions[0]);
      RunKeeps(Apply(s, actions[0]), actions[1..], t);
    }
  }

  ghost predicate Reachable(t: State) {
    exists s, actions :: Initial(s) && Run(s, actions, t)
  }

  lemma InitialInv(s: State)
    requires Initial(s)
    ensures Inv(s)
  {
    assert s.frames[..s.done] == [];
  }

  lemma ReachableInv(t: State)
    requires Reachable(t)
    ensures Inv(t)
  {
    var s, actions :| Initial(s) && Run(s, actions, t);
    InitialInv(s);
    RunKeeps(s, actions, t);
  }

  // ----- the theorems -----

  /** The reader never panics, and what it has dispatched is a prefix of what was pushed. */
  lemma DispatchedInOrder(s: State)
    requires Reachable(s)
    ensures !s.reader.Panicked? && s.dispatched <= s.pushed
  {
    ReachableInv(s);
  }

  /** The history keeps the encodings of the published commands. */
  lemma FramesAreEncodings(s: State, i: nat)
    requires Reachable(s) && i < |s.pushed|
    ensures |s.frames| == |s.pushed| && Valid(s.pushed[i]) && s.frames[i] == Encode(s.pushed[i])
  {
    ReachableInv(s);
    assert FrameOk(s, i);
  }

  lemma UnreadStream(s: State)
    requires Laid(s)
    ensures s.read <= |s.stream| && s.stream[s.read..] == Concat(s.frames[s.done..])
  {
    ConcatSplit(s.frames, s.done);
  }

  lemma UnreadSlots(s: State, unread: seq<Byte>, k: nat)
    requires Shape(s) && unread == s.stream[s.read..] && k < |unread|
    ensures s.buffer[Slot(s.read + k)] == unread[k]
  {
    assert Kept(s, s.read + k);
  }

  /** The unread part of the ring is a concatenation of whole commands: the encodings of
      those pushed and not yet completed, each byte in its slot. */
  lemma UnreadIsWholeCommands(s: State, k: nat)
    requires Reachable(s)
    ensures |s.buffer| == COMMAND_BUFFER_SIZE && s.done <= |s.frames|
    ensures s.completed == Slot(s.read) && s.pending == Slot(s.read + |Concat(s.frames[s.done..])|)
    ensures k < |Concat(s.frames[s.done..])| ==> s.buffer[Slot(s.read + k)] == Concat(s.frames[s.done..])[k]
  {
    ReachableInv(s);
    UnreadStream(s);
    var unread := Concat(s.frames[s.done..]);
    assert s.read + |unread| == |s.stream|;
    if k < |unread| {
      UnreadSlots(s, unread, k);
    }
  }

  /** No store of the writer overwrites a byte the reader has not released. */
  lemma UnreadNeverOverwritten(s: State, k: nat)
    requires Reachable(s) && Enabled(s, Store) && s.read <= k < |s.stream|
    ensures |s.buffer| == COMMAND_BUFFER_SIZE
    ensures DoStore(s).buffer[Slot(k)] == s.buffer[Slot(k)] == s.stream[k]
  {
    ReachableInv(s);
    StoreMisses(s, k);
    assert Kept(s, k);
  }
}
