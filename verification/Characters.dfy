/**
  Where packages/php/src/Lines.php cuts inside a character: its pieces are
  65536 bytes whatever they are, and packages/php/src/Session.php replaces what
  is not valid UTF-8 in each message. UTF-8 is that of section 4 of RFC 3629.
 */
module Characters {
  import opened Pieces
  import L = Lines

  // ----- UTF-8 -----

  predicate IsContinuation(u: Unit) {
    0x80 <= u <= 0xbf
  }

  /** What may follow the first byte of a sequence of three or four. */
  predicate IsSecond(first: Unit, u: Unit) {
    && IsContinuation(u)
    && (first == 0xe0 ==> 0xa0 <= u) && (first == 0xed ==> u <= 0x9f)
    && (first == 0xf0 ==> 0x90 <= u) && (first == 0xf4 ==> u <= 0x8f)
  }

  /** The length of the character s starts with, 0 when it starts with none. */
  function CharLength(s: Text): (n: nat)
    ensures n <= |s| && (s == [] ==> n == 0)
    ensures n > 0 ==> !IsContinuation(s[0])
    ensures forall i :: 0 < i < n ==> IsContinuation(s[i])
  {
    if s == [] then 0
    else if s[0] <= 0x7f then 1
    else if 0xc2 <= s[0] <= 0xdf && |s| > 1 && IsContinuation(s[1]) then 2
    else if 0xe0 <= s[0] <= 0xef && |s| > 2 && IsSecond(s[0], s[1]) && IsContinuation(s[2]) then 3
    else if 0xf0 <= s[0] <= 0xf4 && |s| > 3 && IsSecond(s[0], s[1]) && IsContinuation(s[2]) && IsContinuation(s[3]) then 4
    else 0
  }

  predicate Valid(s: Text)
    decreases |s|
  {
    s == [] || (CharLength(s) > 0 && Valid(s[CharLength(s)..]))
  }

  lemma CharOfFront(a: Text, b: Text)
    requires CharLength(a) > 0
    ensures CharLength(a + b) == CharLength(a)
  {
  }

  lemma CharAlone(s: Text)
    ensures CharLength(s[..CharLength(s)]) == CharLength(s)
  {
  }

  lemma {:induction false} ValidConcat(a: Text, b: Text)
    requires Valid(a)
    ensures Valid(a + b) <==> Valid(b)
    decreases |a|
  {
    if a == [] {
      assert a + b == b;
    } else {
      var n := CharLength(a);
      CharOfFront(a, b);
      assert (a + b)[n..] == a[n..] + b;
      ValidConcat(a[n..], b);
    }
  }

  /** A valid text may be cut before any byte that continues no character. */
  lemma {:induction false} ValidFront(s: Text, n: nat)
    requires Valid(s) && n <= |s| && (n < |s| ==> !IsContinuation(s[n]))
    ensures Valid(s[..n])
    decreases |s|
  {
    if n > 0 {
      var c := CharLength(s);
      assert c <= n;
      ValidFront(s[c..], n - c);
      CharAlone(s);
      assert Valid(s[..c]) by {
        assert s[..c][c..] == [];
      }
      ValidConcat(s[..c], s[c..][..n - c]);
      assert s[..n] == s[..c] + s[c..][..n - c];
    }
  }

  /** Cutting a valid text leaves both parts valid, or neither: by the byte after the cut. */
  lemma CutExactly(s: Text, n: nat)
    requires Valid(s) && n < |s|
    ensures Valid(s[..n]) <==> !IsContinuation(s[n])
    ensures Valid(s[..n]) ==> Valid(s[n..])
  {
    assert s == s[..n] + s[n..];
    if Valid(s[..n]) {
      ValidConcat(s[..n], s[n..]);
    }
    if !IsContinuation(s[n]) {
      ValidFront(s, n);
    }
  }

  // ----- One line -----

  predicate Intact(items: seq<Item>) {
    forall item :: item in items ==> Valid(item.text)
  }

  /** No byte at a multiple of a piece's length continues a character. */
  predicate LineAligned(line: Text) {
    forall at :: 0 <= at < |line| && at % MAX_PIECE == 0 ==> !IsContinuation(line[at])
  }

  lemma AlignedRest(line: Text)
    requires Valid(line) && MAX_PIECE < |line|
    ensures LineAligned(line) <==> !IsContinuation(line[MAX_PIECE]) && LineAligned(line[MAX_PIECE..])
  {
    var rest := line[MAX_PIECE..];
    if LineAligned(line) {
      forall at | 0 <= at < |rest| && at % MAX_PIECE == 0 ensures !IsContinuation(rest[at]) {
        assert (at + MAX_PIECE) % MAX_PIECE == 0;
        assert rest[at] == line[at + MAX_PIECE];
      }
    }
    if LineAligned(rest) {
      forall at | 0 <= at < |line| && at % MAX_PIECE == 0 ensures !IsContinuation(line[at]) {
        if at >= MAX_PIECE {
          assert (at - MAX_PIECE) % MAX_PIECE == 0;
          assert line[at] == rest[at - MAX_PIECE];
        }
      }
    }
  }

  lemma {:induction false} LineIntactExactly(line: Text)
    requires Valid(line)
    ensures Intact(LinePieces(Bytes, line)) && Valid(LineTail(Bytes, line)) <==> LineAligned(line)
    decreases |line|
  {
    if |line| <= MAX_PIECE {
      assert LinePieces(Bytes, line) == [];
    } else {
      var first, rest := Item(line[..MAX_PIECE], true), line[MAX_PIECE..];
      CutExactly(line, MAX_PIECE);
      AlignedRest(line);
      assert LinePieces(Bytes, line) == [first] + LinePieces(Bytes, rest);
      if Valid(first.text) {
        LineIntactExactly(rest);
      } else {
        assert first in LinePieces(Bytes, line);
      }
    }
  }

  // ----- A whole stream -----

  /** How many bytes of its line come before a byte. */
  function Column(s: Text, at: nat): nat
    requires at <= |s|
  {
    if at == 0 || s[at - 1] == NEWLINE then 0 else Column(s, at - 1) + 1
  }

  /** No byte a whole number of pieces into its line continues a character. */
  predicate Aligned(s: Text) {
    forall at :: 0 <= at < |s| && Column(s, at) % MAX_PIECE == 0 ==> !IsContinuation(s[at])
  }

  lemma {:induction false} ColumnInFirst(s: Text, at: nat)
    requires at <= |s| && NEWLINE !in s[..at]
    ensures Column(s, at) == at
  {
    if at > 0 {
      assert s[at - 1] == s[..at][at - 1];
      assert s[..at - 1] == s[..at][..at - 1];
      ColumnInFirst(s, at - 1);
    }
  }

  lemma {:induction false} ColumnAfter(s: Text, k: nat, at: nat)
    requires k < at <= |s| && s[k] == NEWLINE
    ensures Column(s, at) == Column(s[k + 1..], at - k - 1)
  {
    if at > k + 1 {
      ColumnAfter(s, k, at - 1);
    }
  }

  /** The columns of the first line are its indices. */
  lemma FirstAligned(s: Text, k: nat)
    requires k <= |s| && NEWLINE !in s[..k] && (k < |s| ==> s[k] == NEWLINE)
    ensures Aligned(s) ==> LineAligned(s[..k])
    ensures k == |s| && LineAligned(s[..k]) ==> Aligned(s)
  {
    forall at | 0 <= at <= k ensures Column(s, at) == at {
      assert NEWLINE !in s[..at] by {
        assert s[..at] == s[..k][..at];
      }
      ColumnInFirst(s, at);
    }
  }

  lemma AlignedLines(s: Text, k: nat)
    requires k < |s| && NEWLINE !in s[..k] && s[k] == NEWLINE
    ensures Aligned(s) <==> LineAligned(s[..k]) && Aligned(s[k + 1..])
  {
    var rest := s[k + 1..];
    FirstAligned(s, k);
    if Aligned(s) {
      forall at | 0 <= at < |rest| && Column(rest, at) % MAX_PIECE == 0 ensures !IsContinuation(rest[at]) {
        ColumnAfter(s, k, at + k + 1);
        assert rest[at] == s[at + k + 1];
      }
    }
    if LineAligned(s[..k]) && Aligned(rest) {
      forall at | 0 <= at < |s| && Column(s, at) % MAX_PIECE == 0 ensures !IsContinuation(s[at]) {
        if at < k {
          assert s[..at] == s[..k][..at];
          ColumnInFirst(s, at);
          assert s[at] == s[..k][at];
        } else if at > k {
          ColumnAfter(s, k, at);
          assert s[at] == rest[at - k - 1];
        }
      }
    }
  }

  /** A newline is a character of its own. */
  lemma ValidLines(s: Text, k: nat)
    requires Valid(s) && k < |s| && s[k] == NEWLINE
    ensures Valid(s[..k]) && Valid(s[k + 1..])
  {
    CutExactly(s, k);
    assert s[k..][1..] == s[k + 1..];
  }

  lemma IntactConcat(a: seq<Item>, b: seq<Item>)
    ensures Intact(a + b) <==> Intact(a) && Intact(b)
  {
    if Intact(a + b) {
      forall item | item in a ensures Valid(item.text) { assert item in a + b; }
      forall item | item in b ensures Valid(item.text) { assert item in a + b; }
    }
  }

  lemma {:induction false} StreamIntactExactly(s: Text)
    requires Valid(s)
    ensures Intact(Emitted(Bytes, s)) && Valid(Held(Bytes, s)) <==> Aligned(s)
    decreases |s|
  {
    var k := FirstNewline(s);
    if k == |s| {
      assert s[..k] == s;
      FirstAligned(s, k);
      LineIntactExactly(s);
    } else {
      var line, rest := s[..k], s[k + 1..];
      ValidLines(s, k);
      AlignedLines(s, k);
      LineIntactExactly(line);
      StreamIntactExactly(rest);
      EmittedLine(Bytes, s);
      IntactConcat(WholeLine(Bytes, line), Emitted(Bytes, rest));
      IntactConcat(LinePieces(Bytes, line), [Item(LineTail(Bytes, line), false)]);
    }
  }

  /**
    In whatever chunks it came: each item of a valid text is valid, and so
    reaches the daemon as it is, exactly when no byte a whole number of pieces
    into its line continues a character.
   */
  lemma IntactExactly(s: Text)
    requires Valid(s)
    ensures Intact(L.AllItems(s)) <==> Aligned(s)
  {
    var held := Held(Bytes, s);
    StreamIntactExactly(s);
    IntactConcat(Emitted(Bytes, s), L.LastPiece(held));
    assert Intact(L.LastPiece(held)) <==> Valid(held) by {
      if held != [] {
        assert Item(held, true) in L.LastPiece(held);
      }
    }
  }

  // ----- A character that is cut -----

  /** n times the letter a. */
  function Letters(n: nat): (s: Text)
    ensures |s| == n && forall i :: 0 <= i < n ==> s[i] == 97
  {
    if n == 0 then [] else [97] + Letters(n - 1)
  }

  lemma {:induction false} LettersValid(n: nat)
    ensures Valid(Letters(n))
  {
    if n > 0 {
      LettersValid(n - 1);
      assert Letters(n)[1..] == Letters(n - 1);
    }
  }

  /** A letter of two bytes that starts with a piece's last byte: a valid text, of which neither item is valid. */
  lemma CharacterCut()
    ensures var s := Letters(MAX_PIECE - 1) + [0xc3, 0xa9];
            && Valid(s)
            && L.AllItems(s) == [Item(s[..MAX_PIECE], true), Item([0xa9], true)]
            && !Valid(s[..MAX_PIECE]) && !Valid([0xa9])
  {
    var a := Letters(MAX_PIECE - 1);
    var s := a + [0xc3, 0xa9];
    LettersValid(MAX_PIECE - 1);
    assert CharLength([0xc3, 0xa9]) == 2 && [0xc3, 0xa9][2..] == [];
    ValidConcat(a, [0xc3, 0xa9]);
    CutExactly(s, MAX_PIECE);
    NoNewline(s);
    assert s[MAX_PIECE..] == [0xa9];
    assert LinePieces(Bytes, s) == [Item(s[..MAX_PIECE], true)] + LinePieces(Bytes, [0xa9]);
    assert LineTail(Bytes, s) == LineTail(Bytes, [0xa9]) == [0xa9];
  }
}
