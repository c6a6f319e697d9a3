/**
  packages/php/src/Lines.php: one output stream of a PHP run, cut into
  items for the log. Text is bytes.
 */
module Lines {
  import opened Pieces
  import opened Sequences

  /** The items that flushing the held text gives: itself, marked partial, unless it is empty. */
  function LastPiece(held: Text): seq<Item> {
    if held == [] then [] else [Item(held, true)]
  }

  /** All items of an ended stream: what was sent, and what was still held. */
  function AllItems(s: Text): seq<Item> {
    Emitted(Bytes, s) + LastPiece(Held(Bytes, s))
  }

  class Lines {
    var rest: Text

    constructor ()
      ensures rest == []
    {
      rest := [];
    }

    /** The cutting loop: pieces are appended to out until the remaining text may be held. */
    static method Cut(line: Text, out: seq<Item>) returns (left: Text, pieces: seq<Item>)
      ensures left == LineTail(Bytes, line)
      ensures pieces == out + LinePieces(Bytes, line)
    {
      left, pieces := line, out;
      while MAX_PIECE < |left|
        invariant LineTail(Bytes, left) == LineTail(Bytes, line)
        invariant pieces + LinePieces(Bytes, left) == out + LinePieces(Bytes, line)
        decreases |left|
      {
        var piece := Item(left[..MAX_PIECE], true);
        Assoc(pieces, [piece], LinePieces(Bytes, left[MAX_PIECE..]));
        pieces := pieces + [piece];
        left := left[MAX_PIECE..];
      }
      assert pieces + [] == pieces;
    }

    method Push(text: Text) returns (out: seq<Item>)
      modifies this
      ensures out == Emitted(Bytes, old(rest) + text)
      ensures rest == Held(Bytes, old(rest) + text)
    {
      out := [];
      var left := rest + text;
      ghost var s := left;
      var end := FirstNewline(left);
      while end < |left|
        invariant end == FirstNewline(left)
        invariant out + Emitted(Bytes, left) == Emitted(Bytes, s)
        invariant Held(Bytes, left) == Held(Bytes, s)
        decreases |left|
      {
        ghost var before := out;
        var line := left[..end];
        left := left[end + 1..];
        var tail;
        tail, out := Cut(line, out);
        out := out + [Item(tail, false)];
        Assoc(before, LinePieces(Bytes, line), [Item(tail, false)]);
        Assoc(before, WholeLine(Bytes, line), Emitted(Bytes, left));
        end := FirstNewline(left);
      }
      left, out := Cut(left, out);
      rest := left;
    }

    method Flush() returns (out: seq<Item>)
      modifies this
      ensures out == LastPiece(old(rest)) && rest == []
    {
      out := if rest == [] then [] else [Item(rest, true)];
      rest := [];
    }
  }
}
