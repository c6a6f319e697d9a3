/**
  packages/js/src/capture.ts: the text a run's callback writes, cut into the
  calls its sink gets. Text is UTF-16 units; the patching of console and of the
  process streams is not part of the model.
 */
module Capture {
  import opened Pieces
  import opened Sequences

  datatype Stream = Stdout | Stderr

  /** One call of the sink. */
  datatype Call = Call(stream: Stream, item: Item)

  // ----- Specification -----

  function OnStream(stream: Stream, items: seq<Item>): (calls: seq<Call>)
    ensures |calls| == |items|
    ensures forall i :: 0 <= i < |items| ==> calls[i] == Call(stream, items[i])
  {
    if items == [] then [] else [Call(stream, items[0])] + OnStream(stream, items[1..])
  }

  /** The items of one stream, in order. */
  function ItemsOf(stream: Stream, calls: seq<Call>): seq<Item> {
    if calls == [] then []
    else (if calls[0].stream == stream then [calls[0].item] else []) + ItemsOf(stream, calls[1..])
  }

  /** What a capture holds per stream, and every call its sink got. */
  datatype State = State(partial: map<Stream, Text>, sent: seq<Call>) {
    predicate Valid() {
      forall stream: Stream :: stream in partial
    }
  }

  const FRESH := State(map[Stdout := [], Stderr := []], [])

  lemma FreshIsValid()
    ensures FRESH.Valid()
  {
    forall stream: Stream ensures stream in FRESH.partial {
      match stream case Stdout => case Stderr =>
    }
  }

  /** One write to a stream. */
  datatype Write = Write(stream: Stream, text: Text)

  function Pushed(st: State, w: Write): (next: State)
    requires st.Valid()
    ensures next.Valid()
  {
    var s := st.partial[w.stream] + w.text;
    State(st.partial[w.stream := Held(Utf16, s)], st.sent + OnStream(w.stream, Emitted(Utf16, s)))
  }

  function AfterWrites(writes: seq<Write>): (st: State)
    ensures st.Valid()
  {
    if writes == [] then
      FreshIsValid();
      FRESH
    else Pushed(AfterWrites(writes[..|writes| - 1]), writes[|writes| - 1])
  }

  /** Everything written to one stream. */
  function Written(stream: Stream, writes: seq<Write>): Text {
    if writes == [] then []
    else
      var last := writes[|writes| - 1];
      Written(stream, writes[..|writes| - 1]) + (if last.stream == stream then last.text else [])
  }

  /** Whatever is held at the end is sent, not marked partial. */
  function LastLine(held: Text): seq<Item> {
    if held == [] then [] else [Item(held, false)]
  }

  function Flushed(st: State): State
    requires st.Valid()
  {
    State(st.partial[Stdout := []][Stderr := []],
          st.sent + OnStream(Stdout, LastLine(st.partial[Stdout])) + OnStream(Stderr, LastLine(st.partial[Stderr])))
  }

  // ----- The loops -----

  /** The stretches between newlines: one more than there are newlines. */
  function SplitLines(s: Text): (lines: seq<Text>)
    ensures lines != []
    decreases |s|
  {
    var k := FirstNewline(s);
    if k == |s| then [s] else [s[..k]] + SplitLines(s[k + 1..])
  }

  /** The calls for the lines of a split, the last one still without its newline. */
  function LinesSent(lines: seq<Text>): seq<Item>
    requires lines != []
  {
    if |lines| == 1 then LinePieces(Utf16, lines[0])
    else WholeLine(Utf16, lines[0]) + LinesSent(lines[1..])
  }

  lemma {:induction false} SplitSends(s: Text)
    ensures LinesSent(SplitLines(s)) == Emitted(Utf16, s)
    ensures LineTail(Utf16, SplitLines(s)[|SplitLines(s)| - 1]) == Held(Utf16, s)
    decreases |s|
  {
    var k := FirstNewline(s);
    if k == |s| {
      assert SplitLines(s) == [s];
    } else {
      var later := SplitLines(s[k + 1..]);
      SplitSends(s[k + 1..]);
      EmittedLine(Utf16, s);
      assert SplitLines(s) == [s[..k]] + later && SplitLines(s)[1..] == later;
    }
  }

  lemma {:induction false} OnStreamConcat(stream: Stream, a: seq<Item>, b: seq<Item>)
    ensures OnStream(stream, a + b) == OnStream(stream, a) + OnStream(stream, b)
  {
  }

  /** The calls for line i of a split, put before those for the lines after it. */
  lemma LineSent(stream: Stream, before: seq<Call>, lines: seq<Text>, i: nat)
    requires i < |lines| - 1
    ensures before + OnStream(stream, LinesSent(lines[i..]))
         == before + OnStream(stream, LinePieces(Utf16, lines[i]))
            + [Call(stream, Item(LineTail(Utf16, lines[i]), false))]
            + OnStream(stream, LinesSent(lines[i + 1..]))
  {
    var pieces, tail, later := LinePieces(Utf16, lines[i]), [Item(LineTail(Utf16, lines[i]), false)], LinesSent(lines[i + 1..]);
    assert lines[i..][1..] == lines[i + 1..];
    assert LinesSent(lines[i..]) == pieces + tail + later;
    OnStreamConcat(stream, pieces + tail, later);
    OnStreamConcat(stream, pieces, tail);
    var p, t, l := OnStream(stream, pieces), OnStream(stream, tail), OnStream(stream, later);
    Assoc(before, p + t, l);
    Assoc(before, p, t);
  }

  class Capture {
    var partial: map<Stream, Text>
    var sent: seq<Call>

    ghost function View(): State
      reads this
    {
      State(partial, sent)
    }

    ghost predicate Valid()
      reads this
    {
      View().Valid()
    }

    constructor ()
      ensures View() == FRESH
    {
      partial := map[Stdout := [], Stderr := []];
      sent := [];
    }

    method Sink(stream: Stream, item: Item)
      modifies this`sent
      ensures sent == old(sent) + [Call(stream, item)]
    {
      sent := sent + [Call(stream, item)];
    }

    method SendPieces(stream: Stream, text: Text) returns (rest: Text)
      modifies this`sent
      ensures sent == old(sent) + OnStream(stream, LinePieces(Utf16, text))
      ensures rest == LineTail(Utf16, text)
    {
      rest := text;
      while MAX_PIECE < |rest|
        invariant sent + OnStream(stream, LinePieces(Utf16, rest))
               == old(sent) + OnStream(stream, LinePieces(Utf16, text))
        invariant LineTail(Utf16, rest) == LineTail(Utf16, text)
        decreases |rest|
      {
        var end := PieceEnd(Utf16, rest);
        ghost var before := sent;
        OnStreamConcat(stream, [Item(rest[..end], true)], LinePieces(Utf16, rest[end..]));
        Assoc(before, [Call(stream, Item(rest[..end], true))], OnStream(stream, LinePieces(Utf16, rest[end..])));
        Sink(stream, Item(rest[..end], true));
        rest := rest[end..];
      }
      assert sent + [] == sent;
    }

    method Push(stream: Stream, text: Text)
      requires Valid()
      modifies this
      ensures Valid() && View() == Pushed(old(View()), Write(stream, text))
    {
      ghost var s := partial[stream] + text;
      var lines := SplitLines(partial[stream] + text);
      SplitSends(s);
      var rest := lines[|lines| - 1];
      var i := 0;
      while i < |lines| - 1
        invariant 0 <= i < |lines|
        invariant partial == old(partial)
        invariant sent + OnStream(stream, LinesSent(lines[i..])) == old(sent) + OnStream(stream, LinesSent(lines))
      {
        LineSent(stream, sent, lines, i);
        var tail := SendPieces(stream, lines[i]);
        Sink(stream, Item(tail, false));
        i := i + 1;
      }
      assert lines[i..] == [rest];
      var tail := SendPieces(stream, rest);
      partial := partial[stream := tail];
    }

    method Flush()
      requires Valid()
      modifies this
      ensures Valid() && View() == Flushed(old(View()))
    {
      var streams := [Stdout, Stderr];
      ghost var p := partial;
      for i := 0 to 2
        invariant Valid()
        invariant partial == if i == 0 then p else if i == 1 then p[Stdout := []] else p[Stdout := []][Stderr := []]
        invariant sent == if i == 0 then old(sent)
                          else if i == 1 then old(sent) + OnStream(Stdout, LastLine(p[Stdout]))
                          else old(sent) + OnStream(Stdout, LastLine(p[Stdout])) + OnStream(Stderr, LastLine(p[Stderr]))
      {
        var stream := streams[i];
        if partial[stream] != [] {
          Sink(stream, Item(partial[stream], false));
        }
        partial := partial[stream := []];
      }
    }
  }

  // ----- Whole runs -----

  lemma {:induction false} ItemsOfConcat(stream: Stream, a: seq<Call>, b: seq<Call>)
    ensures ItemsOf(stream, a + b) == ItemsOf(stream, a) + ItemsOf(stream, b)
  {
    if a == [] {
      assert a + b == b;
    } else {
      assert (a + b)[1..] == a[1..] + b;
      ItemsOfConcat(stream, a[1..], b);
    }
  }

  lemma {:induction false} ItemsOfOnStream(stream: Stream, other: Stream, items: seq<Item>)
    ensures ItemsOf(stream, OnStream(other, items)) == if stream == other then items else []
  {
    if items != [] {
      assert OnStream(other, items)[1..] == OnStream(other, items[1..]);
      ItemsOfOnStream(stream, other, items[1..]);
    }
  }

  /**
    After any writes, in any chunks and however the two streams interleave,
    what a stream sent and still holds depends only on all it was written.
   */
  lemma {:induction false} ChunksDontMatter(stream: Stream, writes: seq<Write>)
    ensures ItemsOf(stream, AfterWrites(writes).sent) == Emitted(Utf16, Written(stream, writes))
    ensures AfterWrites(writes).partial[stream] == Held(Utf16, Written(stream, writes))
  {
    if writes != [] {
      var before, w := writes[..|writes| - 1], writes[|writes| - 1];
      ChunksDontMatter(stream, before);
      PushedItems(stream, AfterWrites(before), w);
      if stream == w.stream {
        ChunkingIndependence(Utf16, Written(stream, before), w.text);
      } else {
        assert Written(stream, before) + [] == Written(stream, before);
      }
    }
  }

  lemma PushedItems(stream: Stream, st: State, w: Write)
    requires st.Valid()
    ensures ItemsOf(stream, Pushed(st, w).sent)
         == ItemsOf(stream, st.sent) + if stream == w.stream then Emitted(Utf16, st.partial[w.stream] + w.text) else []
  {
    var items := Emitted(Utf16, st.partial[w.stream] + w.text);
    ItemsOfConcat(stream, st.sent, OnStream(w.stream, items));
    ItemsOfOnStream(stream, w.stream, items);
  }

  /** A last line that had no newline gets one when flushed; nothing else is added. */
  function ClosingNewline(s: Text): Text {
    if s != [] && s[|s| - 1] != NEWLINE then [NEWLINE] else []
  }

  /** The items of a text and its held rest, sent as a line, log the text. */
  lemma FlushedText(s: Text)
    ensures Logged(Emitted(Utf16, s) + LastLine(Held(Utf16, s))) == s + ClosingNewline(s)
  {
    var held := Held(Utf16, s);
    LoggedConcat(Emitted(Utf16, s), LastLine(held));
    Reassembly(Utf16, s);
    NothingHeld(Utf16, s);
    if held != [] {
      LoggedOne(Item(held, false));
      Assoc(Logged(Emitted(Utf16, s)), held, [NEWLINE]);
    }
  }

  /** The log of a whole run, flushed at its end, is what it wrote. */
  lemma RunIsLogged(stream: Stream, writes: seq<Write>)
    ensures var s := Written(stream, writes);
            Logged(ItemsOf(stream, Flushed(AfterWrites(writes)).sent)) == s + ClosingNewline(s)
  {
    FlushedItems(stream, AfterWrites(writes));
    ChunksDontMatter(stream, writes);
    FlushedText(Written(stream, writes));
  }

  lemma FlushedItems(stream: Stream, st: State)
    requires st.Valid()
    ensures ItemsOf(stream, Flushed(st).sent) == ItemsOf(stream, st.sent) + LastLine(st.partial[stream])
  {
    var out, err := LastLine(st.partial[Stdout]), LastLine(st.partial[Stderr]);
    ItemsOfConcat(stream, st.sent + OnStream(Stdout, out), OnStream(Stderr, err));
    ItemsOfConcat(stream, st.sent, OnStream(Stdout, out));
    ItemsOfOnStream(stream, Stdout, out);
    ItemsOfOnStream(stream, Stderr, err);
  }

  /** No piece a run sent, in any chunks, ends inside a surrogate pair of what it wrote. */
  lemma RunKeepsPairs(stream: Stream, writes: seq<Write>)
    ensures BoundariesKeepPairs(ItemsOf(stream, AfterWrites(writes).sent), Written(stream, writes))
  {
    ChunksDontMatter(stream, writes);
    Boundaries(Written(stream, writes));
  }

  /** Pieces are full-sized, lines and the held text are newline-free and at most a piece long. */
  lemma RunIsWellCut(stream: Stream, writes: seq<Write>)
    ensures forall item :: item in ItemsOf(stream, AfterWrites(writes).sent) ==> WellCut(Utf16, item)
    ensures var held := AfterWrites(writes).partial[stream]; NEWLINE !in held && |held| <= MAX_PIECE
  {
    ChunksDontMatter(stream, writes);
    Sizes(Utf16, Written(stream, writes));
  }
}
