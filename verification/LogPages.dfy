/**
  apps/runwisp/cmd/runwisp/cmd_logs.go: printing a run's log page by page while
  the run may still write, and rotate, it.
 */
module LogPages {
  import opened Sequences

  /** apps/runwisp/internal/server/logs.go:34 */
  const PAGE_MAX := 10000

  /** A run's log as one request finds it: the lowest line still on disk, and how many lines were written. */
  datatype Log = Log(first: nat, total: nat)

  datatype Line = Line(n: nat, text: string)

  datatype Page = Page(lines: seq<Line>, first: nat, total: nat)

  /** What logs selects: the first lines, the last lines, or all for a negative number. */
  datatype Options = Options(head: bool, lines: int)

  /** The requests of one command: the log each finds, and whether it fails. text never changes. */
  datatype Server = Server(text: nat -> string, log: nat -> Log, fails: nat -> bool)

  /** A log grows and rotates. */
  ghost predicate Grows(server: Server) {
    && (forall k :: server.log(k).first <= server.log(k).total)
    && (forall j, k :: 0 <= j <= k ==> server.log(j).first <= server.log(k).first && server.log(j).total <= server.log(k).total)
  }

  function Stretch(text: nat -> string, from: nat, until: nat): (lines: seq<Line>)
    requires from <= until
    ensures |lines| == until - from
    ensures forall i :: 0 <= i < |lines| ==> lines[i] == Line(from + i, text(from + i))
  {
    seq(until - from, (i: nat) => Line(from + i, text(from + i)))
  }

  function Min(a: int, b: int): int {
    if a < b then a else b
  }

  function Max(a: int, b: int): int {
    if a < b then b else a
  }

  /** logutil.ResolveStartLine: a negative number counts from the end. */
  function StartLine(from: int, log: Log): nat {
    Max(if from < 0 then log.total + from else from, log.first)
  }

  /** logutil.ReadLineRange from a line that is still on disk. */
  function LinesAt(text: nat -> string, log: Log, start: nat, limit: nat): seq<Line> {
    if log.total <= log.first || start >= log.total then [] else Stretch(text, start, Min(start + limit, log.total))
  }

  function PageOf(text: nat -> string, log: Log, from: int, limit: nat): Page {
    Page(LinesAt(text, log, StartLine(from, log), limit), log.first, log.total)
  }

  predicate Tail(opts: Options) {
    !opts.head && opts.lines > 0
  }

  function FirstFrom(opts: Options): int {
    if Tail(opts) then -opts.lines else 0
  }

  function FirstLimit(opts: Options): int {
    if !Tail(opts) && opts.head then Min(opts.lines, PAGE_MAX) else PAGE_MAX
  }

  function WindowStart(opts: Options, log: Log): nat {
    if Tail(opts) then Max(log.total - opts.lines, 0) else 0
  }

  function WindowEnd(opts: Options, log: Log): int {
    if !Tail(opts) && opts.head then Min(log.total, log.first + opts.lines) else log.total
  }

  /** What the selection means for a log: the last lines, the first ones there still are, or all of them. */
  function Selected(opts: Options, log: Log): (range: (nat, nat))
    requires log.first <= log.total && (opts.head ==> opts.lines >= 0)
    ensures log.first <= range.0 <= range.1 <= log.total
    ensures opts.lines >= 0 ==> range.1 - range.0 == if opts.lines < log.total - log.first then opts.lines else log.total - log.first
    ensures opts.lines < 0 ==> range == (log.first, log.total)
    ensures opts.lines >= 0 ==> if opts.head then range.0 == log.first else range.1 == log.total
  {
    if opts.lines < 0 then (log.first, log.total)
    else if opts.head then (log.first, Min(log.total, log.first + opts.lines))
    else (Max(log.total - opts.lines, log.first), log.total)
  }

  /** The first page asks for the lines wanted, and never for more than the server gives. */
  lemma FirstPageExactly(opts: Options)
    requires opts.head ==> opts.lines >= 0
    ensures FirstLimit(opts) <= PAGE_MAX && (opts.head ==> FirstLimit(opts) <= opts.lines)
    ensures FirstLimit(opts) < PAGE_MAX ==> opts.head && FirstLimit(opts) == opts.lines
  {
  }

  // ----- Printing -----

  /** The lines before the first one numbered end or more. */
  function Below(lines: seq<Line>, end: int): (out: seq<Line>)
    ensures out <= lines && forall l :: l in out ==> l.n < end
  {
    if lines == [] || lines[0].n >= end then [] else [lines[0]] + Below(lines[1..], end)
  }

  lemma BelowPlus(lines: seq<Line>, i: nat, end: int)
    requires i < |lines|
    ensures Below(lines[i..], end) == if lines[i].n >= end then [] else [lines[i]] + Below(lines[i + 1..], end)
  {
    assert lines[i..][1..] == lines[i + 1..] && lines[i..][0] == lines[i];
  }

  /** What the first i lines of a page gave, all below end. */
  ghost predicate Sinking(lines: seq<Line>, end: int, i: nat, out: seq<Line>) {
    i <= |lines| && |out| == i && Below(lines, end) == out + Below(lines[i..], end)
  }

  lemma SinkingStep(lines: seq<Line>, end: int, i: nat, out: seq<Line>)
    requires Sinking(lines, end, i, out)
    ensures i == |lines| || lines[i].n >= end ==> out == Below(lines, end)
    ensures i < |lines| && lines[i].n < end ==> Sinking(lines, end, i + 1, out + [lines[i]])
  {
    if i < |lines| {
      BelowPlus(lines, i, end);
      Assoc(out, [lines[i]], Below(lines[i + 1..], end));
    }
    assert out + [] == out;
  }

  /** One page through the sink: what of it is output, and where the following page begins. */
  method SinkLines(lines: seq<Line>, end: int) returns (out: seq<Line>, next: int)
    requires lines != []
    ensures out == Below(lines, end) && next == NextLine(lines, end)
  {
    out := [];
    assert lines[0..] == lines;
    for i := 0 to |lines|
      invariant Sinking(lines, end, i, out)
    {
      SinkingStep(lines, end, i, out);
      if lines[i].n >= end {
        return out, end;
      }
      out := out + [lines[i]];
    }
    SinkingStep(lines, end, |lines|, out);
    next := lines[|lines| - 1].n + 1;
  }

  function NextLine(lines: seq<Line>, end: int): int
    requires lines != []
  {
    if |Below(lines, end)| < |lines| then end else lines[|lines| - 1].n + 1
  }

  /** What a command printed, the request it made last, and whether all its requests worked. */
  datatype Print = Print(lines: seq<Line>, last: nat, ok: bool)

  /** Everything printed from the answer to request k on, which starts at a line on disk. */
  function PrintedAt(server: Server, k: nat, start: nat, limit: nat, end: int): Print
    requires limit > 0
    decreases end - start
  {
    var lines := LinesAt(server.text, server.log(k), start, limit);
    if lines == [] then Print([], k, true)
    else
      var out, next := Below(lines, end), NextLine(lines, end);
      if next >= end then Print(out, k, true)
      else if server.fails(k + 1) then Print(out, k + 1, false)
      else
        var rest := PrintedAt(server, k + 1, StartLine(next, server.log(k + 1)), Min(end - next, PAGE_MAX), end);
        Print(out + rest.lines, rest.last, rest.ok)
  }

  /** The whole of printLogLines, once its first request worked. */
  function Printed(server: Server, opts: Options): Print
    requires opts.head ==> opts.lines > 0
  {
    var log := server.log(0);
    PrintedAt(server, 0, StartLine(FirstFrom(opts), log), FirstLimit(opts), WindowEnd(opts, log))
  }

  method PrintLogLines(server: Server, opts: Options) returns (printed: Print, rotated: bool)
    requires Grows(server) && opts.lines != 0 && (opts.head ==> opts.lines > 0)
    ensures server.fails(0) ==> printed == Print([], 0, false)
    ensures !server.fails(0) ==>
              printed == Printed(server, opts) && (rotated <==> server.log(0).first > WindowStart(opts, server.log(0)))
  {
    if server.fails(0) {
      return Print([], 0, false), false;
    }
    var page := PageOf(server.text, server.log(0), FirstFrom(opts), FirstLimit(opts));
    var end := WindowEnd(opts, server.log(0));
    rotated := page.first > WindowStart(opts, server.log(0));
    var lines, k := [], 0;
    ghost var whole := Printed(server, opts);
    ghost var start := StartLine(FirstFrom(opts), server.log(0));
    ghost var limit: nat := FirstLimit(opts);
    while |page.lines| > 0
      invariant limit > 0 && page.lines == LinesAt(server.text, server.log(k), start, limit)
      invariant Printing(server, whole, lines, k, start, limit, end)
      decreases end - start
    {
      var out, next := SinkLines(page.lines, end);
      PageStep(server, whole, lines, k, start, limit, end, out, next);
      lines, k := lines + out, k + 1;
      if next >= end {
        return Print(lines, k - 1, true), rotated;
      }
      if server.fails(k) {
        return Print(lines, k, false), rotated;
      }
      start, limit := StartLine(next, server.log(k)), Min(end - next, PAGE_MAX);
      page := PageOf(server.text, server.log(k), next, Min(end - next, PAGE_MAX));
    }
    assert lines + [] == lines;
    printed := Print(lines, k, true);
  }

  /** What the loop has printed, against the whole it is printing. */
  ghost predicate Printing(server: Server, whole: Print, lines: seq<Line>, k: nat, start: nat, limit: nat, end: int) {
    && limit > 0
    && var rest := PrintedAt(server, k, start, limit, end);
       whole == Print(lines + rest.lines, rest.last, rest.ok)
  }

  lemma PageStep(server: Server, whole: Print, lines: seq<Line>, k: nat, start: nat, limit: nat, end: int,
                 out: seq<Line>, next: int)
    requires Printing(server, whole, lines, k, start, limit, end)
    requires var page := LinesAt(server.text, server.log(k), start, limit);
             page != [] && out == Below(page, end) && next == NextLine(page, end)
    ensures next >= end ==> whole == Print(lines + out, k, true)
    ensures next < end && server.fails(k + 1) ==> whole == Print(lines + out, k + 1, false)
    ensures next < end && !server.fails(k + 1) ==>
              && Printing(server, whole, lines + out, k + 1, StartLine(next, server.log(k + 1)), Min(end - next, PAGE_MAX), end)
              && start < StartLine(next, server.log(k + 1)) && start < end
  {
    if next < end && !server.fails(k + 1) {
      Assoc(lines, out, PrintedAt(server, k + 1, StartLine(next, server.log(k + 1)), Min(end - next, PAGE_MAX), end).lines);
    }
  }

  /** From the answer to request k on, the requests before the last one worked, and ok is whether that one did. */
  ghost predicate FailsRightly(server: Server, k: nat, printed: Print) {
    && printed.last >= k && (forall j :: k < j < printed.last ==> !server.fails(j))
    && (printed.ok <==> printed.last == k || !server.fails(printed.last))
  }

  // ----- What is printed -----

  /** Ascending lines of the log from lo up to hi. */
  ghost predicate FromLog(text: nat -> string, lines: seq<Line>, lo: int, hi: int) {
    && (forall i :: 0 <= i < |lines| ==> lo <= lines[i].n < hi && lines[i].text == text(lines[i].n))
    && (forall i, j :: 0 <= i < j < |lines| ==> lines[i].n < lines[j].n)
  }

  predicate Has(lines: seq<Line>, n: nat) {
    exists i :: 0 <= i < |lines| && lines[i].n == n
  }

  /** Every line from lo to hi was printed, or is below the first one still on disk. */
  ghost predicate Covers(lines: seq<Line>, lo: int, hi: int, first: nat) {
    forall n: nat :: lo <= n < hi && first <= n ==> Has(lines, n)
  }

  lemma StretchStarts(text: nat -> string, start: nat, until: nat)
    requires start < until
    ensures Stretch(text, start, until) == [Line(start, text(start))] + Stretch(text, start + 1, until)
  {
  }

  lemma {:induction false} BelowIsStretch(text: nat -> string, start: nat, until: nat, end: int)
    requires start < until
    ensures Below(Stretch(text, start, until), end) == Stretch(text, start, Max(start, Min(until, end)))
    decreases until - start
  {
    var lines := Stretch(text, start, until);
    assert lines[0] == Line(start, text(start));
    if start < end {
      StretchStarts(text, start, until);
      StretchStarts(text, start, Min(until, end));
      if start + 1 < until {
        BelowIsStretch(text, start + 1, until, end);
      }
    }
  }

  lemma NextOfStretch(text: nat -> string, start: nat, until: nat, end: int)
    requires start < until
    ensures NextLine(Stretch(text, start, until), end) == (if until - 1 >= end then end else until)
  {
    BelowIsStretch(text, start, until, end);
    assert Stretch(text, start, until)[until - start - 1].n == until - 1;
  }

  lemma StretchFits(text: nat -> string, lo: int, start: nat, hi: nat, first: nat)
    requires lo <= start <= hi && (lo == start || start <= first)
    ensures FromLog(text, Stretch(text, start, hi), lo, hi)
    ensures Covers(Stretch(text, start, hi), lo, hi, first)
  {
    forall n: nat | lo <= n < hi && first <= n ensures Has(Stretch(text, start, hi), n) {
      assert Stretch(text, start, hi)[n - start].n == n;
    }
  }

  lemma JoinedInOrder(text: nat -> string, a: seq<Line>, b: seq<Line>, lo: int, mid: int, hi: int)
    requires lo <= mid <= hi && FromLog(text, a, lo, mid) && FromLog(text, b, mid, hi)
    ensures FromLog(text, a + b, lo, hi)
  {
  }

  lemma Joined(text: nat -> string, a: seq<Line>, b: seq<Line>, lo: int, mid: int, hi: int, first: nat)
    requires lo <= mid <= hi
    requires FromLog(text, a, lo, mid) && Covers(a, lo, mid, first)
    requires FromLog(text, b, mid, hi) && Covers(b, mid, hi, first)
    ensures Covers(a + b, lo, hi, first)
  {
    forall n: nat | lo <= n < hi && first <= n ensures Has(a + b, n) {
      if n < mid {
        assert Has(a, n);
        var i :| 0 <= i < |a| && a[i].n == n;
        assert (a + b)[i].n == n;
      } else {
        assert Has(b, n);
        var i :| 0 <= i < |b| && b[i].n == n;
        assert (a + b)[|a| + i].n == n;
      }
    }
  }

  /** What a command that printed from request k on is worth, for the lines from lo up to end. */
  ghost predicate Fits(server: Server, printed: Print, k: nat, lo: nat, end: int) {
    && k <= printed.last && FromLog(server.text, printed.lines, lo, end)
    && (printed.ok ==> Covers(printed.lines, lo, end, server.log(printed.last).first))
  }

  function Until(log: Log, start: nat, limit: nat): nat {
    Min(start + limit, log.total)
  }

  /** The page in hand holds all that is left to print. */
  lemma LastPage(server: Server, k: nat, lo: nat, limit: nat, end: int)
    requires limit > 0 && lo <= end <= server.log(k).total
    requires var log, start := server.log(k), StartLine(lo, server.log(k));
             log.total <= log.first || log.total <= start || end <= Until(log, start, limit)
    ensures Fits(server, PrintedAt(server, k, StartLine(lo, server.log(k)), limit, end), k, lo, end)
  {
    var log := server.log(k);
    var start := StartLine(lo, log);
    if log.first < log.total && start < log.total {
      BelowIsStretch(server.text, start, Until(log, start, limit), end);
      NextOfStretch(server.text, start, Until(log, start, limit), end);
      if start < end {
        StretchFits(server.text, lo, start, end, log.first);
      }
    }
  }

  lemma OnePage(server: Server, k: nat, start: nat, limit: nat, end: int)
    requires limit > 0 && server.log(k).first <= start < server.log(k).total && Until(server.log(k), start, limit) < end
    ensures var until := Until(server.log(k), start, limit);
            var page := Stretch(server.text, start, until);
            PrintedAt(server, k, start, limit, end) ==
              if server.fails(k + 1) then Print(page, k + 1, false)
              else Then(page, PrintedAt(server, k + 1, StartLine(until, server.log(k + 1)), Min(end - until, PAGE_MAX), end))
  {
    var until := Until(server.log(k), start, limit);
    BelowIsStretch(server.text, start, until, end);
    NextOfStretch(server.text, start, until, end);
  }

  function Then(page: seq<Line>, rest: Print): Print {
    Print(page + rest.lines, rest.last, rest.ok)
  }

  lemma CutFits(server: Server, k: nat, lo: nat, start: nat, until: nat, end: int)
    requires start < until < end && lo <= start
    ensures Fits(server, Print(Stretch(server.text, start, until), k + 1, false), k, lo, end)
  {
  }

  lemma ThenFits(server: Server, k: nat, lo: nat, start: nat, until: nat, end: int, rest: Print)
    requires start < until < end && start == StartLine(lo, server.log(k))
    requires Fits(server, rest, k + 1, until, end) && server.log(k).first <= server.log(rest.last).first
    ensures Fits(server, Then(Stretch(server.text, start, until), rest), k, lo, end)
  {
    var page, first := Stretch(server.text, start, until), server.log(rest.last).first;
    StretchFits(server.text, lo, start, until, first);
    JoinedInOrder(server.text, page, rest.lines, lo, until, end);
    if rest.ok {
      Joined(server.text, page, rest.lines, lo, until, end, first);
    }
  }

  lemma {:induction false} PrintedFits(server: Server, k: nat, lo: nat, limit: nat, end: int)
    requires Grows(server) && limit > 0 && lo <= end <= server.log(k).total
    ensures Fits(server, PrintedAt(server, k, StartLine(lo, server.log(k)), limit, end), k, lo, end)
    decreases end - lo
  {
    var log := server.log(k);
    var start := StartLine(lo, log);
    var until := Until(log, start, limit);
    if log.total <= start || end <= until {
      LastPage(server, k, lo, limit, end);
      return;
    }
    OnePage(server, k, start, limit, end);
    if server.fails(k + 1) {
      CutFits(server, k, lo, start, until, end);
      return;
    }
    PrintedFits(server, k + 1, until, Min(end - until, PAGE_MAX), end);
    ThenFits(server, k, lo, start, until, end,
             PrintedAt(server, k + 1, StartLine(until, server.log(k + 1)), Min(end - until, PAGE_MAX), end));
  }

  lemma LastPageWorks(server: Server, k: nat, start: nat, limit: nat, end: int)
    requires limit > 0 && (server.log(k).total <= start || end <= Until(server.log(k), start, limit))
    ensures FailsRightly(server, k, PrintedAt(server, k, start, limit, end))
  {
    var log := server.log(k);
    if log.first < log.total && start < log.total {
      BelowIsStretch(server.text, start, Until(log, start, limit), end);
      NextOfStretch(server.text, start, Until(log, start, limit), end);
    }
  }

  lemma OnePageWorks(server: Server, k: nat, start: nat, limit: nat, end: int)
    requires limit > 0 && server.log(k).first <= start < server.log(k).total && Until(server.log(k), start, limit) < end
    requires var until := Until(server.log(k), start, limit);
             !server.fails(k + 1) ==>
               FailsRightly(server, k + 1,
                            PrintedAt(server, k + 1, StartLine(until, server.log(k + 1)), Min(end - until, PAGE_MAX), end))
    ensures FailsRightly(server, k, PrintedAt(server, k, start, limit, end))
  {
    var until := Until(server.log(k), start, limit);
    OnePage(server, k, start, limit, end);
    OnePageFails(server, k, Stretch(server.text, start, until));
    if !server.fails(k + 1) {
      FailsStep(server, k, Stretch(server.text, start, until),
                PrintedAt(server, k + 1, StartLine(until, server.log(k + 1)), Min(end - until, PAGE_MAX), end));
    }
  }

  lemma OnePageFails(server: Server, k: nat, page: seq<Line>)
    ensures server.fails(k + 1) ==> FailsRightly(server, k, Print(page, k + 1, false))
  {
  }

  lemma FailsStep(server: Server, k: nat, page: seq<Line>, rest: Print)
    requires FailsRightly(server, k + 1, rest) && !server.fails(k + 1)
    ensures FailsRightly(server, k, Then(page, rest))
  {
  }

  /** Printing ends at the first request that fails, and then says so. */
  lemma {:induction false} FailsExactly(server: Server, k: nat, lo: nat, limit: nat, end: int)
    requires Grows(server) && limit > 0 && lo <= end <= server.log(k).total
    ensures FailsRightly(server, k, PrintedAt(server, k, StartLine(lo, server.log(k)), limit, end))
    decreases end - lo
  {
    var log := server.log(k);
    var start := StartLine(lo, log);
    var until := Until(log, start, limit);
    if log.total <= start || end <= until {
      LastPageWorks(server, k, start, limit, end);
      return;
    }
    if !server.fails(k + 1) {
      FailsExactly(server, k + 1, until, Min(end - until, PAGE_MAX), end);
    }
    OnePageWorks(server, k, start, limit, end);
  }

  /**
    However the run goes on writing and rotating its log: what is printed is in
    ascending order, of the selection the first page saw, and of that leaves out
    only lines that were gone from disk by the last request.
   */
  lemma PrintsTheSelection(server: Server, opts: Options)
    requires Grows(server) && opts.lines != 0 && (opts.head ==> opts.lines > 0)
    ensures Fits(server, Printed(server, opts), 0, WindowStart(opts, server.log(0)), WindowEnd(opts, server.log(0)))
  {
    assert StartLine(FirstFrom(opts), server.log(0)) == StartLine(WindowStart(opts, server.log(0)), server.log(0));
    PrintedFits(server, 0, WindowStart(opts, server.log(0)), FirstLimit(opts), WindowEnd(opts, server.log(0)));
  }

  /** Of lines that cover a range, the first is the range's, and the rest cover the rest. */
  lemma CoveredRest(text: nat -> string, lines: seq<Line>, lo: nat, hi: nat, first: nat)
    requires FromLog(text, lines, lo, hi) && Covers(lines, lo, hi, first) && first <= lo < hi
    ensures lines != [] && lines[0] == Line(lo, text(lo))
    ensures FromLog(text, lines[1..], lo + 1, hi) && Covers(lines[1..], lo + 1, hi, first)
  {
    assert Has(lines, lo);
    var i :| 0 <= i < |lines| && lines[i].n == lo;
    assert lo <= lines[0].n <= lines[i].n;
    var rest := lines[1..];
    forall n: nat | lo + 1 <= n < hi && first <= n ensures Has(rest, n) {
      assert Has(lines, n);
      var k :| 0 <= k < |lines| && lines[k].n == n;
      assert rest[k - 1].n == n;
    }
  }

  lemma {:induction false} CoveredIsStretch(text: nat -> string, lines: seq<Line>, lo: nat, hi: nat, first: nat)
    requires FromLog(text, lines, lo, hi) && Covers(lines, lo, hi, first) && first <= lo <= hi
    ensures lines == Stretch(text, lo, hi)
    decreases hi - lo
  {
    if lo < hi {
      CoveredRest(text, lines, lo, hi, first);
      CoveredIsStretch(text, lines[1..], lo + 1, hi, first);
      assert lines == [lines[0]] + lines[1..];
    }
  }

  /** No line before a request's first one is printed from it on. */
  lemma {:induction false} PrintedFromStart(server: Server, k: nat, start: nat, limit: nat, end: int)
    requires limit > 0
    ensures forall i :: 0 <= i < |PrintedAt(server, k, start, limit, end).lines| ==>
                          PrintedAt(server, k, start, limit, end).lines[i].n >= start
    decreases end - start
  {
    var lines := LinesAt(server.text, server.log(k), start, limit);
    if lines != [] && NextLine(lines, end) < end && !server.fails(k + 1) {
      var next := NextLine(lines, end);
      PrintedFromStart(server, k + 1, StartLine(next, server.log(k + 1)), Min(end - next, PAGE_MAX), end);
    }
  }

  /** Without rotation, exactly the selection is printed: the last or first lines there are, or all of them. */
  lemma PrintsExactly(server: Server, opts: Options)
    requires Grows(server) && opts.lines != 0 && (opts.head ==> opts.lines > 0)
    requires forall k :: server.log(k).first == server.log(0).first
    requires Printed(server, opts).ok
    ensures var range := Selected(opts, server.log(0));
            Printed(server, opts).lines == Stretch(server.text, range.0, range.1)
  {
    var log, end, printed := server.log(0), WindowEnd(opts, server.log(0)), Printed(server, opts);
    var range := Selected(opts, log);
    PrintsTheSelection(server, opts);
    PrintedFromStart(server, 0, StartLine(FirstFrom(opts), log), FirstLimit(opts), end);
    assert server.log(printed.last).first == log.first;
    if range.0 < range.1 {
      assert FromLog(server.text, printed.lines, range.0, range.1);
      CoveredIsStretch(server.text, printed.lines, range.0, range.1, log.first);
    }
  }
}
