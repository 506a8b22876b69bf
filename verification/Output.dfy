/** The output path: the kernel cuts output into commands, the supervisor hashes each
    chunk and passes it to the host through a shared page and a register write, and the
    host appends what it decodes. */
module Output {
  import opened Basics
  import opened CommandRing

  const PAGE: nat := 0x1000

  function ChunkOf(c: Command): seq<Byte> {
    if c.UpdateOutput? then c.chunk else []
  }

  /** The output carried by a list of commands. */
  function OutputOf(cs: seq<Command>): seq<Byte> {
    if cs == [] then [] else OutputOf(cs[..|cs| - 1]) + ChunkOf(cs[|cs| - 1])
  }

  lemma {:induction false} OutputOfAppend(a: seq<Command>, b: seq<Command>)
    ensures OutputOf(a + b) == OutputOf(a) + OutputOf(b)
    decreases |b|
  {
    if b == [] {
      assert a + b == a;
    } else {
      var front := b[..|b| - 1];
      OutputOfAppend(a, front);
      assert (a + b)[..|a + b| - 1] == a + front;
      assert OutputOf(a + b) == (OutputOf(a) + OutputOf(front)) + ChunkOf(b[|b| - 1]);
    }
  }

  /** The kernel's `output`: one command for each page-sized chunk. */
  method Output(bytes: seq<Byte>) returns (commands: seq<Command>)
    ensures OutputOf(commands) == bytes
    ensures forall i | 0 <= i < |commands| :: Valid(commands[i]) && commands[i].UpdateOutput? && commands[i].chunk != []
    ensures |commands| == (|bytes| + CHUNK - 1) / CHUNK
  {
    commands := [];
    var done := 0;
    while done < |bytes|
      invariant done <= |bytes| && OutputOf(commands) == bytes[..done]
      invariant forall i | 0 <= i < |commands| :: Valid(commands[i]) && commands[i].UpdateOutput? && commands[i].chunk != []
      invariant done == |commands| * CHUNK || (done == |bytes| && |commands| == (|bytes| + CHUNK - 1) / CHUNK)
    {
      var end := if |bytes| - done < CHUNK then |bytes| else done + CHUNK;
      var command := UpdateOutput(bytes[done..end]);
      assert (commands + [command])[..|commands|] == commands;
      commands := commands + [command];
      done := end;
    }
  }

  /** The register value the supervisor writes: the page address with the length minus
      one in its low bits. */
  function UpdateValue(frame: nat, length: nat): nat
    requires 0 < length <= PAGE
  {
    frame + (length - 1)
  }

  /** The host's reading of the register value. */
  function DecodeFrame(value: nat): nat {
    value - value % PAGE
  }

  function DecodeLength(value: nat): nat {
    value % PAGE + 1
  }

  lemma UpdateValueRoundTrip(frame: nat, length: nat)
    requires frame % PAGE == 0 && 0 < length <= PAGE
    ensures DecodeFrame(UpdateValue(frame, length)) == frame
    ensures DecodeLength(UpdateValue(frame, length)) == length
  {
  }

  /** What has become of the supervisor: the report covers `digested` and `length`. */
  datatype Ending = Running | Reported(digested: seq<Byte>, length: nat) | Discarded

  predicate Ends(c: Command) {
    c.FinishOutput? || c.FailOutput?
  }

  /** The position of the first command that ends the supervisor. */
  function FirstEnd(cs: seq<Command>): (n: nat)
    ensures n <= |cs| && (forall i | 0 <= i < n :: !Ends(cs[i])) && (n < |cs| ==> Ends(cs[n]))
  {
    if cs == [] then 0 else if Ends(cs[0]) then 0 else 1 + FirstEnd(cs[1..])
  }

  /** The supervisor's output state and the host's record. `hashed` is what the running
      hash has absorbed. */
  class OutputChannel {
    var hashed: seq<Byte>
    var length: nat
    var finished: bool
    var shared: seq<Byte>
    var recorded: seq<Byte>
    const frame: nat

    ghost predicate Valid()
      reads this
    {
      |shared| == PAGE && frame % PAGE == 0 && length == |hashed|
    }

    constructor (frame: nat)
      requires frame % PAGE == 0
      ensures Valid() && hashed == [] && recorded == [] && !finished
    {
      this.frame := frame;
      hashed, length, finished, recorded := [], 0, false, [];
      shared := Zeros(PAGE);
    }

    /** The host's side of a register write: it appends the bytes the supervisor meant. */
    method Record(value: nat)
      requires Valid() && DecodeFrame(value) == frame
      modifies this`recorded
      ensures forall n | 0 < n <= PAGE && UpdateValue(frame, n) == value :: recorded == old(recorded) + shared[..n]
    {
      forall n | 0 < n <= PAGE && UpdateValue(frame, n) == value ensures n == DecodeLength(value) {
        UpdateValueRoundTrip(frame, n);
      }
      recorded := recorded + shared[..DecodeLength(value)];
    }

    /** `update_output`; panics exactly when the output was already finished. */
    method Update(bytes: seq<Byte>) returns (ok: bool)
      requires Valid()
      modifies this
      ensures Valid() && finished == old(finished) && ok == !finished
      ensures ok ==> hashed == old(hashed) + bytes && recorded == old(recorded) + bytes
      ensures !ok ==> hashed == old(hashed) && recorded == old(recorded)
    {
      if finished {
        return false;
      }
      hashed := hashed + bytes;
      length := length + |bytes|;
      var done := 0;
      while done < |bytes|
        invariant done <= |bytes| && Valid()
        invariant hashed == old(hashed) + bytes && finished == old(finished)
        invariant recorded == old(recorded) + bytes[..done]
      {
        var end := if |bytes| - done < PAGE then |bytes| else done + PAGE;
        var chunk := bytes[done..end];
        shared := chunk + shared[|chunk|..];
        UpdateValueRoundTrip(frame, |chunk|);
        Record(UpdateValue(frame, |chunk|));
        assert shared[..|chunk|] == chunk;
        done := end;
      }
      return true;
    }

    /** `finish`: the digest input and the length that go into the report. */
    method Finish() returns (digested: seq<Byte>, total: nat, ok: bool)
      requires Valid()
      modifies this`finished
      ensures Valid() && finished && ok == !old(finished)
      ensures ok ==> digested == hashed && total == |hashed|
    {
      ok := !finished;
      digested, total := hashed, length;
      finished := true;
    }

    /** The handler on a command that does not end the supervisor. */
    method Forward(c: Command)
      requires Valid() && !finished && !Ends(c)
      modifies this
      ensures Valid() && !finished
      ensures hashed == old(hashed) + ChunkOf(c) && recorded == old(recorded) + ChunkOf(c)
    {
      if c.UpdateOutput? {
        var ok := Update(c.chunk);
      }
    }

    /** The handler on a list of commands; nothing after the first `FinishOutput` or
        `FailOutput` is handled, because neither handler returns. */
    method HandleAll(cs: seq<Command>) returns (r: Ending)
      requires Valid() && !finished
      modifies this
      ensures Valid()
      ensures hashed == old(hashed) + OutputOf(cs[..FirstEnd(cs)])
      ensures recorded == old(recorded) + OutputOf(cs[..FirstEnd(cs)])
      ensures r == if FirstEnd(cs) == |cs| then Running
                   else if cs[FirstEnd(cs)].FinishOutput? then Reported(hashed, |hashed|)
                   else Discarded
    {
      var i := 0;
      while i < |cs|
        invariant i <= FirstEnd(cs) && Valid() && !finished
        invariant hashed == old(hashed) + OutputOf(cs[..i])
        invariant recorded == old(recorded) + OutputOf(cs[..i])
      {
        if cs[i].FinishOutput? {
          var digested, total, ok := Finish();
          return Reported(digested, total);
        }
        if cs[i].FailOutput? {
          return Discarded;
        }
        Forward(cs[i]);
        assert cs[..i + 1][..i] == cs[..i];
        i := i + 1;
      }
      return Running;
    }
  }

  /** In every run of the ring, the output handed to the supervisor is a prefix of the
      output pushed; once everything is dispatched they are equal. */
  lemma OutputInOrder(s: State)
    requires Reachable(s)
    ensures OutputOf(s.dispatched) <= OutputOf(s.pushed)
    ensures |s.dispatched| == |s.pushed| ==> OutputOf(s.dispatched) == OutputOf(s.pushed)
  {
    DispatchedInOrder(s);
    var rest := s.pushed[|s.dispatched|..];
    assert s.pushed == s.dispatched + rest;
    OutputOfAppend(s.dispatched, rest);
  }

  /** When the finish command is dispatched, exactly the output pushed before it has been
      handed over. */
  lemma FinishSeesAllOutput(s: State, i: nat)
    requires Reachable(s) && i < |s.dispatched| && s.dispatched[i].FinishOutput?
    ensures i < |s.pushed| && s.pushed[i].FinishOutput? && OutputOf(s.dispatched[..i]) == OutputOf(s.pushed[..i])
  {
    DispatchedInOrder(s);
    assert s.dispatched[..i] == s.pushed[..i];
  }

  /** The whole path, for every run of the ring: what the host has recorded is the output
      pushed before the first command that ends the supervisor. A report exists exactly
      when that command is `FinishOutput`, and covers exactly this record. */
  method Supervise(ghost s: State, commands: seq<Command>, frame: nat) returns (r: Ending, record: seq<Byte>)
    requires Reachable(s) && commands == s.dispatched && frame % PAGE == 0
    ensures var n := FirstEnd(commands);
            && n <= |s.pushed| && record == OutputOf(s.pushed[..n])
            && (n == |commands| ==> r == Running)
            && (n < |commands| ==>
                  n < |s.pushed| && r == if s.pushed[n].FinishOutput? then Reported(record, |record|) else Discarded)
  {
    DispatchedInOrder(s);
    var channel := new OutputChannel(frame);
    r := channel.HandleAll(commands);
    record := channel.recorded;
    assert commands[..FirstEnd(commands)] == s.pushed[..FirstEnd(commands)];
  }
}
