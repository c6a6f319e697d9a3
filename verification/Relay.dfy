/**
  Worker::start and Worker::pump of packages/php/src/Worker.php for one run: a
  child process that prints and ends on its own, and the worker that relays
  what it printed, tick by tick, and reports its exit once.

  The child may print, or end, between any two statements of a tick: Progress
  stands for that, and the contracts hold whatever it does.
 */
module Relay {
  import opened Pieces
  import L = Lines
  import opened Sequences

  datatype Stream = Stdout | Stderr

  /** How an ended child exited: its code (None: none is known), and whether Run::skip() left its file. */
  datatype Ending = Ending(code: int, hasCode: bool, skipped: bool)

  datatype Message =
    | Output(stream: Stream, item: Item)
    | Exit(code: int, skipped: bool)

  function Outputs(stream: Stream, items: seq<Item>): (ms: seq<Message>)
    ensures |ms| == |items|
  {
    if items == [] then [] else [Output(stream, items[0])] + Outputs(stream, items[1..])
  }

  /** The items sent for one stream, in order. */
  function ItemsOf(stream: Stream, ms: seq<Message>): seq<Item> {
    if ms == [] then []
    else
      (if ms[0].Output? && ms[0].stream == stream then [ms[0].item] else []) + ItemsOf(stream, ms[1..])
  }

  predicate OnlyOutput(ms: seq<Message>) {
    forall m :: m in ms ==> m.Output?
  }

  /** The exit message of a child that ended so. */
  function ExitOf(ending: Ending): Message {
    if ending.skipped then Exit(0, true) else Exit(if ending.hasCode then ending.code else -1, false)
  }

  /** Symfony's Process, as far as the worker uses it. */
  class Process {
    /** All the child has printed so far, and how much of it was read. */
    var stdout: Text
    var stderr: Text
    var readOut: nat
    var readErr: nat
    var ended: bool
    const ending: Ending

    ghost predicate Valid()
      reads this
    {
      readOut <= |stdout| && readErr <= |stderr|
    }

    constructor (ending: Ending)
      ensures Valid() && !ended && this.ending == ending
      ensures stdout == [] && stderr == []
    {
      stdout, stderr, readOut, readErr, ended := [], [], 0, 0, false;
      this.ending := ending;
    }

    /** The child's own doing since the last statement: it may print until it ends, and end. */
    method Progress(moreOut: Text, moreErr: Text, ends: bool)
      requires Valid()
      modifies this
      ensures Valid() && readOut == old(readOut) && readErr == old(readErr)
      ensures old(stdout) <= stdout && old(stderr) <= stderr
      ensures old(ended) ==> ended && stdout == old(stdout) && stderr == old(stderr)
    {
      if !ended {
        stdout, stderr, ended := stdout + moreOut, stderr + moreErr, ends;
      }
    }

    method IsRunning() returns (running: bool)
      ensures running == !ended
    {
      running := !ended;
    }

    method GetIncrementalOutput() returns (text: Text)
      requires Valid()
      modifies this`readOut
      ensures Valid() && text == stdout[old(readOut)..] && readOut == |stdout|
    {
      text := stdout[readOut..];
      readOut := |stdout|;
    }

    method GetIncrementalErrorOutput() returns (text: Text)
      requires Valid()
      modifies this`readErr
      ensures Valid() && text == stderr[old(readErr)..] && readErr == |stderr|
    {
      text := stderr[readErr..];
      readErr := |stderr|;
    }
  }

  /** What the relay of one stream keeps: the log and the held text are what was read. */
  ghost predicate InStep(stream: Stream, sent: seq<Message>, held: Text, read: Text) {
    ItemsOf(stream, sent) == Emitted(Bytes, read) && held == Held(Bytes, read)
  }

  class Run {
    const process: Process
    const stdout: L.Lines
    const stderr: L.Lines
    /** The messages sent on the run's session, which stays open. */
    var sent: seq<Message>
    /** Whether the worker still lists the run. */
    var listed: bool

    ghost predicate Distinct() {
      stdout != stderr
    }

    /**
      While listed: no exit yet, and what was read is logged or held. Once
      taken off: the child has ended, all it ever printed is logged to the
      byte, and its one exit comes last.
     */
    ghost predicate Valid()
      reads this, process, stdout, stderr
    {
      && Distinct()
      && process.Valid()
      && if listed then
           && OnlyOutput(sent)
           && InStep(Stdout, sent, stdout.rest, process.stdout[..process.readOut])
           && InStep(Stderr, sent, stderr.rest, process.stderr[..process.readErr])
         else Finished()
    }

    ghost predicate Finished()
      reads this, process
    {
      && process.ended
      && ItemsOf(Stdout, sent) == L.AllItems(process.stdout)
      && ItemsOf(Stderr, sent) == L.AllItems(process.stderr)
      && sent != []
      && OnlyOutput(sent[..|sent| - 1])
      && sent[|sent| - 1] == ExitOf(process.ending)
    }

    constructor (ending: Ending)
      ensures Valid() && listed && sent == []
      ensures fresh(process) && fresh(stdout) && fresh(stderr)
      ensures !process.ended && process.ending == ending
    {
      process := new Process(ending);
      stdout := new L.Lines();
      stderr := new L.Lines();
      sent := [];
      listed := true;
    }

    method Relay(stream: Stream, items: seq<Item>)
      modifies this`sent
      ensures sent == old(sent) + Outputs(stream, items)
    {
      var i := 0;
      while i < |items|
        invariant 0 <= i <= |items|
        invariant sent + Outputs(stream, items[i..]) == old(sent) + Outputs(stream, items)
      {
        assert items[i..][1..] == items[i + 1..];
        Assoc(sent, [Output(stream, items[i])], Outputs(stream, items[i + 1..]));
        sent := sent + [Output(stream, items[i])];
        i := i + 1;
      }
      assert sent + [] == sent;
    }

    /**
      One turn of the worker's loop for this run. The text the child prints
      between the statements is given, so that any timing is covered: a is
      printed before the run is looked at, b after, c before stderr is read.
     */
    method Pump(a: (Text, Text, bool), b: (Text, Text, bool), c: (Text, Text, bool))
      requires Valid() && listed
      modifies this, process, stdout, stderr
      ensures Valid()
      ensures old(sent) <= sent
      ensures old(process.ended) ==> !listed
      ensures !listed ==> process.ended
    {
      Meanwhile(a);
      var running := process.IsRunning();
      Meanwhile(b);
      PumpStdout();
      Meanwhile(c);
      PumpStderr();
      if running {
        return;
      }
      Finish();
    }

    /** The child goes on between two statements of the worker. */
    method Meanwhile(doing: (Text, Text, bool))
      requires Valid() && listed
      modifies process
      ensures Valid()
      ensures old(process.ended) ==> process.ended && process.stdout == old(process.stdout) && process.stderr == old(process.stderr)
      ensures process.readOut == old(process.readOut) && process.readErr == old(process.readErr)
    {
      ghost var out, err := process.stdout, process.stderr;
      process.Progress(doing.0, doing.1, doing.2);
      assert process.stdout[..process.readOut] == out[..process.readOut];
      assert process.stderr[..process.readErr] == err[..process.readErr];
    }

    /** Relays what stdout printed since it was last read. */
    method PumpStdout()
      requires Valid() && listed
      modifies this`sent, process`readOut, stdout
      ensures Valid() && old(sent) <= sent && process.readOut == |process.stdout|
    {
      ghost var read, all := process.stdout[..process.readOut], process.stdout;
      var text := process.GetIncrementalOutput();
      assert read + text == all == process.stdout[..process.readOut];
      var items := stdout.Push(text);
      ghost var before := sent;
      Relay(Stdout, items);
      Relayed(Stdout, before, items);
      Relayed(Stderr, before, items);
      ChunkingIndependence(Bytes, read, text);
    }

    method PumpStderr()
      requires Valid() && listed
      modifies this`sent, process`readErr, stderr
      ensures Valid() && old(sent) <= sent && process.readErr == |process.stderr|
    {
      ghost var read, all := process.stderr[..process.readErr], process.stderr;
      var text := process.GetIncrementalErrorOutput();
      assert read + text == all == process.stderr[..process.readErr];
      var items := stderr.Push(text);
      ghost var before := sent;
      Relay(Stderr, items);
      RelayedErr(Stdout, before, items);
      RelayedErr(Stderr, before, items);
      ChunkingIndependence(Bytes, read, text);
    }

    /** The child had ended before its output was read for the last time: reports the rest and the exit. */
    method Finish()
      requires Valid() && listed && process.ended
      requires process.readOut == |process.stdout| && process.readErr == |process.stderr|
      modifies this, stdout, stderr
      ensures Valid() && !listed && old(sent) <= sent
    {
      ghost var before := sent;
      assert process.stdout[..process.readOut] == process.stdout;
      assert process.stderr[..process.readErr] == process.stderr;
      FinishedLog(before, process.stdout, process.stderr, ExitOf(process.ending));
      var restOut := stdout.Flush();
      Relay(Stdout, restOut);
      var restErr := stderr.Flush();
      Relay(Stderr, restErr);
      assert sent == LastOutputs(before, process.stdout, process.stderr);
      sent := sent + [ExitOf(process.ending)];
      listed := false;
    }
  }

  // ----- The end of a run -----

  /** The messages of an ended run before its exit: before, then what both streams still held. */
  function LastOutputs(before: seq<Message>, out: Text, err: Text): seq<Message> {
    before + Outputs(Stdout, L.LastPiece(Held(Bytes, out))) + Outputs(Stderr, L.LastPiece(Held(Bytes, err)))
  }

  lemma FinishedLog(before: seq<Message>, out: Text, err: Text, exit: Message)
    requires OnlyOutput(before) && exit.Exit?
    requires ItemsOf(Stdout, before) == Emitted(Bytes, out)
    requires ItemsOf(Stderr, before) == Emitted(Bytes, err)
    ensures var last := LastOutputs(before, out, err);
            && OnlyOutput(last)
            && ItemsOf(Stdout, last + [exit]) == L.AllItems(out) && Logged(L.AllItems(out)) == out
            && ItemsOf(Stderr, last + [exit]) == L.AllItems(err) && Logged(L.AllItems(err)) == err
  {
    var restOut, restErr := L.LastPiece(Held(Bytes, out)), L.LastPiece(Held(Bytes, err));
    var middle, last := before + Outputs(Stdout, restOut), LastOutputs(before, out, err);
    Relayed(Stdout, before, restOut);
    Relayed(Stderr, before, restOut);
    RelayedErr(Stdout, middle, restErr);
    RelayedErr(Stderr, middle, restErr);
    ExitIsNoOutput(Stdout, last, exit);
    ExitIsNoOutput(Stderr, last, exit);
    FlushCompletes(out);
    FlushCompletes(err);
  }

  // ----- Bookkeeping of sent messages -----

  lemma {:induction false} ItemsOfConcat(stream: Stream, a: seq<Message>, b: seq<Message>)
    ensures ItemsOf(stream, a + b) == ItemsOf(stream, a) + ItemsOf(stream, b)
  {
    if a == [] {
      assert a + b == b;
    } else {
      assert (a + b)[1..] == a[1..] + b;
      ItemsOfConcat(stream, a[1..], b);
    }
  }

  lemma {:induction false} ItemsOfOutputs(stream: Stream, other: Stream, items: seq<Item>)
    ensures ItemsOf(stream, Outputs(other, items)) == if stream == other then items else []
    ensures OnlyOutput(Outputs(other, items))
  {
    if items != [] {
      assert Outputs(other, items)[1..] == Outputs(other, items[1..]);
      ItemsOfOutputs(stream, other, items[1..]);
    }
  }

  lemma Relayed(stream: Stream, before: seq<Message>, items: seq<Item>)
    ensures ItemsOf(stream, before + Outputs(Stdout, items))
         == if stream == Stdout then ItemsOf(stream, before) + items else ItemsOf(stream, before)
    ensures OnlyOutput(before) ==> OnlyOutput(before + Outputs(Stdout, items))
  {
    ItemsOfConcat(stream, before, Outputs(Stdout, items));
    ItemsOfOutputs(stream, Stdout, items);
    assert ItemsOf(stream, before) + [] == ItemsOf(stream, before);
  }

  lemma RelayedErr(stream: Stream, before: seq<Message>, items: seq<Item>)
    ensures ItemsOf(stream, before + Outputs(Stderr, items))
         == if stream == Stderr then ItemsOf(stream, before) + items else ItemsOf(stream, before)
    ensures OnlyOutput(before) ==> OnlyOutput(before + Outputs(Stderr, items))
  {
    ItemsOfConcat(stream, before, Outputs(Stderr, items));
    ItemsOfOutputs(stream, Stderr, items);
    assert ItemsOf(stream, before) + [] == ItemsOf(stream, before);
  }

  lemma ExitIsNoOutput(stream: Stream, outputs: seq<Message>, exit: Message)
    requires exit.Exit?
    ensures ItemsOf(stream, outputs + [exit]) == ItemsOf(stream, outputs)
  {
    ItemsOfConcat(stream, outputs, [exit]);
    assert ItemsOf(stream, [exit]) == [];
    assert ItemsOf(stream, outputs) + [] == ItemsOf(stream, outputs);
  }

  /** Once flushed, a stream's log is its text to the byte: the last line gets no newline it didn't have. */
  lemma FlushCompletes(s: Text)
    ensures Logged(Emitted(Bytes, s) + L.LastPiece(Held(Bytes, s))) == s
  {
    var held := Held(Bytes, s);
    LoggedConcat(Emitted(Bytes, s), L.LastPiece(held));
    Reassembly(Bytes, s);
    if held != [] {
      LoggedOne(Item(held, true));
    }
  }
}
