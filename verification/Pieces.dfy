/**
  How a run's output is cut into log lines, as both SDKs do it: a line goes out
  whole when its newline arrives, and a line longer than MAX_PIECE goes out in
  partial pieces that the next item of the same stream continues.

  The two SDKs differ only in their text units and in where a piece may end, so
  the cutting is specified once, by the functions Emitted and Held over the text
  seen so far, and each SDK's loops are proved against it.
 */
module Pieces {
  import opened Sequences

  /** A UTF-16 code unit (JavaScript) or a byte (PHP). */
  type Unit = nat

  type Text = seq<Unit>

  datatype Coding = Utf16 | Bytes

  /** A text for the log; the log ends it with a newline unless it is partial. */
  datatype Item = Item(text: Text, partial: bool)

  const NEWLINE: Unit := 10

  const MAX_PIECE: nat := 0x1_0000

  // ----- Where a piece may end -----

  predicate IsHighSurrogate(u: Unit) {
    0xd800 <= u <= 0xdbff
  }

  predicate IsLowSurrogate(u: Unit) {
    0xdc00 <= u <= 0xdfff
  }

  /** Two units are a surrogate pair exactly when they encode a code point above 0xffff. */
  lemma PairsEncode(high: Unit, low: Unit)
    ensures IsHighSurrogate(high) && IsLowSurrogate(low) <==>
              exists c :: 0x10000 <= c <= 0x10ffff && high == 0xd800 + (c - 0x10000) / 0x400 && low == 0xdc00 + c % 0x400
  {
    if IsHighSurrogate(high) && IsLowSurrogate(low) {
      var c := 0x10000 + (high - 0xd800) * 0x400 + (low - 0xdc00);
      assert high == 0xd800 + (c - 0x10000) / 0x400 && low == 0xdc00 + c % 0x400;
    }
  }

  /** The units on both sides of index at are a surrogate pair. */
  predicate SplitsPair(text: Text, at: int) {
    0 < at < |text| && IsHighSurrogate(text[at - 1]) && IsLowSurrogate(text[at])
  }

  /** Where the first piece of an overlong text ends. */
  function PieceEnd(coding: Coding, text: Text): (end: nat)
    requires MAX_PIECE < |text|
    ensures MAX_PIECE - 1 <= end <= MAX_PIECE
    ensures end < MAX_PIECE <==> coding == Utf16 && IsHighSurrogate(text[MAX_PIECE - 1])
    ensures coding == Utf16 ==> !SplitsPair(text, end)
  {
    if coding == Utf16 && IsHighSurrogate(text[MAX_PIECE - 1]) then MAX_PIECE - 1 else MAX_PIECE
  }

  // ----- Cutting one line -----

  /** The partial pieces an overlong line goes out in before its tail. */
  function LinePieces(coding: Coding, line: Text): seq<Item> {
    if |line| <= MAX_PIECE then []
    else
      var end := PieceEnd(coding, line);
      [Item(line[..end], true)] + LinePieces(coding, line[end..])
  }

  /** What is left of a line after its pieces. */
  function LineTail(coding: Coding, line: Text): Text {
    if |line| <= MAX_PIECE then line
    else LineTail(coding, line[PieceEnd(coding, line)..])
  }

  /** A line whose newline has arrived. */
  function WholeLine(coding: Coding, line: Text): seq<Item> {
    LinePieces(coding, line) + [Item(LineTail(coding, line), false)]
  }

  // ----- Cutting a stream -----

  /** Index of the first newline in s, or |s| when it has none. */
  function FirstNewline(s: Text): (k: nat)
    ensures k <= |s|
    ensures NEWLINE !in s[..k]
    ensures k < |s| ==> s[k] == NEWLINE
  {
    if s == [] || s[0] == NEWLINE then 0
    else
      var k := FirstNewline(s[1..]);
      assert s[..k + 1] == [s[0]] + s[1..][..k];
      k + 1
  }

  /** What has been sent once s was seen: whole lines, and pieces of an overlong last one. */
  function Emitted(coding: Coding, s: Text): seq<Item>
    decreases |s|
  {
    var k := FirstNewline(s);
    if k == |s| then LinePieces(coding, s)
    else WholeLine(coding, s[..k]) + Emitted(coding, s[k + 1..])
  }

  /** What is still held back once s was seen. */
  function Held(coding: Coding, s: Text): Text
    decreases |s|
  {
    var k := FirstNewline(s);
    if k == |s| then LineTail(coding, s) else Held(coding, s[k + 1..])
  }

  /** The text the daemon logs for items: a newline after each one that isn't partial. */
  function Logged(items: seq<Item>): Text {
    if items == [] then [] else ItemText(items[0]) + Logged(items[1..])
  }

  function ItemText(item: Item): Text {
    if item.partial then item.text else item.text + [NEWLINE]
  }

  // ----- Basic facts -----

  lemma LoggedCons(item: Item, rest: seq<Item>)
    ensures Logged([item] + rest) == ItemText(item) + Logged(rest)
  {
    assert ([item] + rest)[1..] == rest;
  }

  lemma LoggedOne(item: Item)
    ensures Logged([item]) == ItemText(item)
  {
    LoggedCons(item, []);
    assert [item] + [] == [item];
  }

  lemma {:induction false} LoggedConcat(a: seq<Item>, b: seq<Item>)
    ensures Logged(a + b) == Logged(a) + Logged(b)
  {
    if a == [] {
      assert a + b == b;
    } else {
      assert (a + b)[1..] == a[1..] + b;
      LoggedConcat(a[1..], b);
    }
  }

  /** A newline is found where it first is, whatever follows. */
  lemma {:induction false} FirstNewlineAt(s: Text, k: nat)
    requires k < |s| && s[k] == NEWLINE && NEWLINE !in s[..k]
    ensures FirstNewline(s) == k
  {
    if k != 0 {
      assert s[0] == s[..k][0];
      assert s[1..][..k - 1] == s[..k][1..];
      FirstNewlineAt(s[1..], k - 1);
    }
  }

  lemma {:induction false} NoNewline(s: Text)
    requires NEWLINE !in s
    ensures FirstNewline(s) == |s|
  {
  }

  /** A text without a newline puts any newline behind it. */
  lemma FirstNewlineAfter(s: Text, b: Text)
    requires NEWLINE !in s
    ensures FirstNewline(s + b) == |s| + FirstNewline(b)
  {
    var k := FirstNewline(b);
    if k < |b| {
      assert (s + b)[..|s| + k] == s + b[..k];
      FirstNewlineAt(s + b, |s| + k);
    } else {
      assert b == b[..k];
      NoNewline(s + b);
    }
  }

  lemma KeptStep(front: Text, back: Text, pieces: seq<Item>, tail: Text)
    requires Logged(pieces) + tail == back
    ensures Logged([Item(front, true)] + pieces) + tail == front + back
  {
    LoggedCons(Item(front, true), pieces);
    Assoc(front, Logged(pieces), tail);
  }

  lemma Halves(line: Text, end: nat)
    requires end <= |line|
    ensures line[..end] + line[end..] == line
  {
  }

  /** The pieces and the tail of a line are the line. */
  lemma {:induction false} LineKept(coding: Coding, line: Text)
    ensures Logged(LinePieces(coding, line)) + LineTail(coding, line) == line
    decreases |line|
  {
    if |line| <= MAX_PIECE {
      assert LinePieces(coding, line) == [] && Logged([]) == [];
    } else {
      var end := PieceEnd(coding, line);
      LineKept(coding, line[end..]);
      KeptStep(line[..end], line[end..], LinePieces(coding, line[end..]), LineTail(coding, line[end..]));
      Halves(line, end);
    }
  }

  /** A line that went out in pieces leaves a non-empty tail, and no tail is longer than a piece. */
  lemma {:induction false} TailSize(coding: Coding, line: Text)
    ensures |LineTail(coding, line)| <= MAX_PIECE
    ensures LinePieces(coding, line) != [] ==> LineTail(coding, line) != []
    decreases |line|
  {
    if MAX_PIECE < |line| {
      TailSize(coding, line[PieceEnd(coding, line)..]);
    }
  }

  /** Nothing is held back exactly when the text is empty or ended its last line. */
  lemma {:induction false} NothingHeld(coding: Coding, s: Text)
    ensures Held(coding, s) == [] <==> s == [] || s[|s| - 1] == NEWLINE
    decreases |s|
  {
    var k := FirstNewline(s);
    if k == |s| {
      TailSize(coding, s);
    } else {
      NothingHeld(coding, s[k + 1..]);
    }
  }

  /** How s + b splits at its first newline when that is in b. */
  lemma FirstLine(s: Text, b: Text)
    requires NEWLINE !in s && FirstNewline(b) < |b|
    ensures var k := FirstNewline(b);
            && FirstNewline(s + b) == |s| + k
            && (s + b)[..|s| + k] == s + b[..k]
            && (s + b)[|s| + k + 1..] == b[k + 1..]
  {
    FirstNewlineAfter(s, b);
  }

  lemma EmittedLine(coding: Coding, s: Text)
    requires FirstNewline(s) < |s|
    ensures var k := FirstNewline(s);
            && Emitted(coding, s) == WholeLine(coding, s[..k]) + Emitted(coding, s[k + 1..])
            && Held(coding, s) == Held(coding, s[k + 1..])
  {
  }

  /** With a newline in b, the first line of s + b is s and the start of b. */
  lemma FirstLineSent(coding: Coding, s: Text, b: Text)
    requires NEWLINE !in s && FirstNewline(b) < |b|
    ensures var k := FirstNewline(b);
            && Emitted(coding, s + b) == WholeLine(coding, s + b[..k]) + Emitted(coding, b[k + 1..])
            && Held(coding, s + b) == Held(coding, b[k + 1..])
  {
    FirstLine(s, b);
    EmittedLine(coding, s + b);
  }

  lemma {:induction false} WholeLinePiece(coding: Coding, line: Text)
    requires MAX_PIECE < |line|
    ensures var end := PieceEnd(coding, line);
            WholeLine(coding, line) == [Item(line[..end], true)] + WholeLine(coding, line[end..])
  {
    var end := PieceEnd(coding, line);
    Assoc([Item(line[..end], true)], LinePieces(coding, line[end..]), [Item(LineTail(coding, line), false)]);
  }

  /** With more text behind it, an overlong newline-free text starts with the same piece. */
  lemma {:induction false} FirstPiece(coding: Coding, s: Text, b: Text)
    requires MAX_PIECE < |s| && NEWLINE !in s
    ensures var end := PieceEnd(coding, s);
            && Emitted(coding, s + b) == [Item(s[..end], true)] + Emitted(coding, s[end..] + b)
            && Held(coding, s + b) == Held(coding, s[end..] + b)
  {
    var end := PieceEnd(coding, s);
    var first, rest := [Item(s[..end], true)], s[end..];
    var k := FirstNewline(b);
    if k < |b| {
      FirstLineSent(coding, s, b);
      FirstLineSent(coding, rest, b);
      Split(s, end, b[..k]);
      WholeLinePiece(coding, s + b[..k]);
      Assoc(first, WholeLine(coding, rest + b[..k]), Emitted(coding, b[k + 1..]));
    } else {
      Split(s, end, b);
      FirstNewlineAfter(s, b);
      FirstNewlineAfter(rest, b);
    }
  }

  lemma Split(s: Text, end: nat, b: Text)
    requires end <= |s|
    ensures (s + b)[end..] == s[end..] + b && (s + b)[..end] == s[..end]
  {
  }

  // ----- Chunking independence -----

  /** Pushing b onto what is held after s gives what s + b gives, for a text without a newline. */
  lemma {:induction false} PushOntoLine(coding: Coding, s: Text, b: Text)
    requires NEWLINE !in s
    ensures LinePieces(coding, s) + Emitted(coding, LineTail(coding, s) + b) == Emitted(coding, s + b)
    ensures Held(coding, LineTail(coding, s) + b) == Held(coding, s + b)
    decreases |s|
  {
    if |s| <= MAX_PIECE {
      assert [] + Emitted(coding, s + b) == Emitted(coding, s + b);
    } else {
      var end := PieceEnd(coding, s);
      FirstPiece(coding, s, b);
      PushOntoLine(coding, s[end..], b);
      Assoc([Item(s[..end], true)], LinePieces(coding, s[end..]), Emitted(coding, LineTail(coding, s) + b));
    }
  }

  /**
    What goes out, and what is held, depends on the text only, not on how it
    was chunked: pushing b after s is pushing s + b.
   */
  lemma {:induction false} ChunkingIndependence(coding: Coding, s: Text, b: Text)
    ensures Emitted(coding, s) + Emitted(coding, Held(coding, s) + b) == Emitted(coding, s + b)
    ensures Held(coding, Held(coding, s) + b) == Held(coding, s + b)
    decreases |s|
  {
    var k := FirstNewline(s);
    if k == |s| {
      assert s == s[..k];
      PushOntoLine(coding, s, b);
    } else {
      var rest := s[k + 1..];
      ChunkingIndependence(coding, rest, b);
      EmittedLine(coding, s);
      EmittedBefore(coding, s, b);
      Assoc(WholeLine(coding, s[..k]), Emitted(coding, rest), Emitted(coding, Held(coding, rest) + b));
    }
  }

  /** The first line of a text is the first of any that begins with it. */
  lemma EmittedBefore(coding: Coding, s: Text, b: Text)
    requires FirstNewline(s) < |s|
    ensures var k := FirstNewline(s);
            && Emitted(coding, s + b) == WholeLine(coding, s[..k]) + Emitted(coding, s[k + 1..] + b)
            && Held(coding, s + b) == Held(coding, s[k + 1..] + b)
  {
    var k := FirstNewline(s);
    Split(s, k, b);
    Split(s, k + 1, b);
    FirstNewlineAt(s + b, k);
    EmittedLine(coding, s + b);
  }

  // ----- Nothing is lost -----

  /** The log and the held text together are the input, unit for unit. */
  lemma {:induction false} Reassembly(coding: Coding, s: Text)
    ensures Logged(Emitted(coding, s)) + Held(coding, s) == s
    decreases |s|
  {
    var k := FirstNewline(s);
    if k == |s| {
      LineKept(coding, s);
    } else {
      var line, rest := s[..k], s[k + 1..];
      var later, held := Emitted(coding, rest), Held(coding, rest);
      Reassembly(coding, rest);
      LoggedLine(coding, line);
      LoggedConcat(WholeLine(coding, line), later);
      Assoc(line + [NEWLINE], Logged(later), held);
      AtNewline(s, k);
    }
  }

  lemma AtNewline(s: Text, k: nat)
    requires k < |s| && s[k] == NEWLINE
    ensures s == s[..k] + [NEWLINE] + s[k + 1..]
  {
  }

  lemma LoggedLine(coding: Coding, line: Text)
    ensures Logged(WholeLine(coding, line)) == line + [NEWLINE]
  {
    var pieces, tail := LinePieces(coding, line), Item(LineTail(coding, line), false);
    LineKept(coding, line);
    LoggedConcat(pieces, [tail]);
    LoggedOne(tail);
    Assoc(Logged(pieces), tail.text, [NEWLINE]);
  }

  // ----- Sizes -----

  predicate PieceSize(coding: Coding, n: nat) {
    n == MAX_PIECE || (coding == Utf16 && n == MAX_PIECE - 1)
  }

  /** Newline-free items; pieces of full size; lines of at most a piece. */
  predicate WellCut(coding: Coding, item: Item) {
    && NEWLINE !in item.text
    && (if item.partial then PieceSize(coding, |item.text|) else |item.text| <= MAX_PIECE)
  }

  lemma {:induction false} LineSizes(coding: Coding, line: Text)
    requires NEWLINE !in line
    ensures forall item :: item in LinePieces(coding, line) ==> WellCut(coding, item)
    ensures NEWLINE !in LineTail(coding, line)
    decreases |line|
  {
    if MAX_PIECE < |line| {
      LineSizes(coding, line[PieceEnd(coding, line)..]);
    }
  }

  lemma WholeLineSizes(coding: Coding, line: Text)
    requires NEWLINE !in line
    ensures forall item :: item in WholeLine(coding, line) ==> WellCut(coding, item)
  {
    LineSizes(coding, line);
    TailSize(coding, line);
  }

  lemma {:induction false} Sizes(coding: Coding, s: Text)
    ensures forall item :: item in Emitted(coding, s) ==> WellCut(coding, item)
    ensures NEWLINE !in Held(coding, s) && |Held(coding, s)| <= MAX_PIECE
    decreases |s|
  {
    var k := FirstNewline(s);
    if k == |s| {
      assert s == s[..k];
      LineSizes(coding, s);
      TailSize(coding, s);
    } else {
      WholeLineSizes(coding, s[..k]);
      Sizes(coding, s[k + 1..]);
      EmittedLine(coding, s);
    }
  }

  // ----- Boundaries -----

  /**
    The boundary after each partial item of items, as a position in the text s
    they were cut from, is inside s and splits no pair.
   */
  ghost predicate BoundariesKeepPairs(items: seq<Item>, s: Text) {
    forall i :: 0 <= i < |items| && items[i].partial ==>
      var at := |Logged(items[..i + 1])|;
      0 < at < |s| && !SplitsPair(s, at)
  }

  /** Boundaries of a front part and of the rest are those of the whole, when the front fills text. */
  lemma {:induction false} BoundariesConcat(a: seq<Item>, b: seq<Item>, front: Text, back: Text)
    requires Logged(a) == front
    requires forall i :: 0 <= i < |a| && a[i].partial ==>
      var at := |Logged(a[..i + 1])|;
      0 < at < |front + back| && !SplitsPair(front + back, at)
    requires BoundariesKeepPairs(b, back)
    ensures BoundariesKeepPairs(a + b, front + back)
  {
    var items, s := a + b, front + back;
    forall i | 0 <= i < |items| && items[i].partial
      ensures var at := |Logged(items[..i + 1])|;
              0 < at < |s| && !SplitsPair(s, at)
    {
      if i < |a| {
        assert items[..i + 1] == a[..i + 1];
      } else {
        assert items[..i + 1] == a + b[..i - |a| + 1];
        LoggedConcat(a, b[..i - |a| + 1]);
        var at := |Logged(b[..i - |a| + 1])|;
        assert b[i - |a|].partial;
        assert |Logged(items[..i + 1])| == |front| + at;
        assert s[|front| + at] == back[at] && s[|front| + at - 1] == back[at - 1];
      }
    }
  }

  /** The pieces of one line, followed by whatever comes after the line. */
  lemma {:induction false} LineBoundaries(line: Text, after: Text)
    ensures BoundariesKeepPairs(LinePieces(Utf16, line), line + after)
    decreases |line|
  {
    if MAX_PIECE < |line| {
      var end := PieceEnd(Utf16, line);
      var first, rest := [Item(line[..end], true)], LinePieces(Utf16, line[end..]);
      LineBoundaries(line[end..], after);
      assert first[1..] == [] && Logged(first) == line[..end];
      assert first[..1] == first;
      assert line + after == line[..end] + (line[end..] + after);
      assert !SplitsPair(line + after, end);
      BoundariesConcat(first, rest, line[..end], line[end..] + after);
    }
  }

  lemma {:induction false} FirstLineBoundaries(s: Text)
    requires FirstNewline(s) < |s|
    ensures BoundariesKeepPairs(Emitted(Utf16, s), s)
    decreases |s|, 0
  {
    var k := FirstNewline(s);
    var line, rest := s[..k], s[k + 1..];
    Boundaries(rest);
    LoggedLine(Utf16, line);
    WholeLineBoundaries(line, rest);
    EmittedLine(Utf16, s);
    AtNewline(s, k);
    BoundariesConcat(WholeLine(Utf16, line), Emitted(Utf16, rest), line + [NEWLINE], rest);
  }

  /** No piece boundary falls inside a surrogate pair, for any text, well-formed or not. */
  lemma {:induction false} Boundaries(s: Text)
    ensures BoundariesKeepPairs(Emitted(Utf16, s), s)
    decreases |s|, 1
  {
    if FirstNewline(s) < |s| {
      FirstLineBoundaries(s);
    } else {
      OneLineBoundaries(s);
    }
  }

  lemma OneLineBoundaries(s: Text)
    requires FirstNewline(s) == |s|
    ensures BoundariesKeepPairs(Emitted(Utf16, s), s)
  {
    LineBoundaries(s, []);
    assert s + [] == s;
  }

  lemma WholeLineBoundaries(line: Text, rest: Text)
    ensures BoundariesKeepPairs(WholeLine(Utf16, line), line + [NEWLINE] + rest)
  {
    var pieces, items := LinePieces(Utf16, line), WholeLine(Utf16, line);
    var s := line + [NEWLINE] + rest;
    LineBoundaries(line, [NEWLINE] + rest);
    assert s == line + ([NEWLINE] + rest);
    forall i | 0 <= i < |items| && items[i].partial
      ensures var at := |Logged(items[..i + 1])|;
              0 < at < |s| && !SplitsPair(s, at)
    {
      assert i < |pieces| && items[..i + 1] == pieces[..i + 1];
    }
  }
}
