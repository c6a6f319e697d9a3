/**
  packages/js/src/cron.ts: the cache of a schedule's next firings, against the
  `runwisp sdk-cron` it asks. Times are in milliseconds.
 */
module CronCache {
  import opened Wrappers

  /** How many firings one ask fetches at least. */
  const BATCH := 60
  /** apps/runwisp/cmd/runwisp/cmd_sdk_cron.go:114 */
  const MAX_COUNT := 1000

  // ----- What the oracle answers -----

  /** The first n firings after a time: all of them when there are fewer than n. */
  ghost predicate IsAnswer(fires: int -> bool, after: int, n: nat, list: seq<int>) {
    && |list| <= n
    && (forall i, j :: 0 <= i < j < |list| ==> list[i] < list[j])
    && (forall t :: t in list ==> after < t && fires(t))
    && (forall t :: after < t && fires(t) && t !in list ==> |list| == n && (n > 0 ==> list[n - 1] < t))
  }

  /** A schedule of whole seconds, and what the command answers about it. */
  datatype Oracle = Oracle(fires: int -> bool, ask: (int, nat) -> seq<int>)

  ghost predicate Faithful(o: Oracle) {
    && (forall t :: o.fires(t) ==> t % 1000 == 0)
    && (forall after, n :: IsAnswer(o.fires, after, n, o.ask(after, n)))
  }

  ghost predicate SameUpTo(a: seq<int>, b: seq<int>, k: nat) {
    k <= |a| && k <= |b| && forall i :: 0 <= i < k ==> a[i] == b[i]
  }

  lemma NotBefore(fires: int -> bool, after: int, n: nat, a: seq<int>, b: seq<int>, k: nat)
    requires IsAnswer(fires, after, n, a) && IsAnswer(fires, after, n, b)
    requires SameUpTo(a, b, k) && k < |a| && k < |b|
    ensures b[k] <= a[k]
  {
    assert a[k] in a;
    assert forall i :: 0 <= i < k ==> b[i] < a[k];
    if a[k] in b {
      var j :| 0 <= j < |b| && b[j] == a[k];
      assert k <= j;
    }
  }

  lemma {:induction false} Agree(fires: int -> bool, after: int, n: nat, a: seq<int>, b: seq<int>, k: nat)
    requires IsAnswer(fires, after, n, a) && IsAnswer(fires, after, n, b)
    requires k <= |a| && k <= |b|
    ensures SameUpTo(a, b, k)
  {
    if k > 0 {
      Agree(fires, after, n, a, b, k - 1);
      NotBefore(fires, after, n, a, b, k - 1);
      NotBefore(fires, after, n, b, a, k - 1);
    }
  }

  lemma NotLonger(fires: int -> bool, after: int, n: nat, a: seq<int>, b: seq<int>)
    requires IsAnswer(fires, after, n, a) && IsAnswer(fires, after, n, b)
    requires SameUpTo(a, b, if |a| <= |b| then |a| else |b|)
    ensures |b| <= |a|
  {
    var next := if |a| < |b| then b[|a|] else after;
    assert next == after || next in b;
  }

  /** There is one right answer. */
  lemma AnswerUnique(fires: int -> bool, after: int, n: nat, a: seq<int>, b: seq<int>)
    requires IsAnswer(fires, after, n, a) && IsAnswer(fires, after, n, b)
    ensures a == b
  {
    Agree(fires, after, n, a, b, if |a| <= |b| then |a| else |b|);
    Agree(fires, after, n, b, a, if |a| <= |b| then |a| else |b|);
    NotLonger(fires, after, n, a, b);
    NotLonger(fires, after, n, b, a);
  }

  // ----- What is read from a cached answer -----

  /** The cached instants that still lie ahead. */
  function Left(list: seq<int>, now: int): seq<int> {
    if list == [] then [] else if list[0] > now then [list[0]] + Left(list[1..], now) else Left(list[1..], now)
  }

  /** The first count instants; a negative count leaves that many out at the end. */
  function Slice(list: seq<int>, count: int): seq<int> {
    if count > |list| then list
    else if count >= 0 then list[..count]
    else if |list| + count > 0 then list[..|list| + count]
    else []
  }

  /** Of an ascending list, what is left is its end. */
  lemma {:induction false} LeftIsEnd(list: seq<int>, now: int) returns (k: nat)
    requires forall i, j :: 0 <= i < j < |list| ==> list[i] < list[j]
    ensures k <= |list| && Left(list, now) == list[k..]
    ensures forall i :: 0 <= i < k ==> list[i] <= now
    ensures forall i :: k <= i < |list| ==> list[i] > now
  {
    if list == [] {
      k := 0;
    } else if list[0] > now {
      LeftAll(list, now);
      k := 0;
    } else {
      k := LeftIsEnd(list[1..], now);
      assert list[k + 1..] == list[1..][k..];
      k := k + 1;
    }
  }

  lemma {:induction false} LeftAll(list: seq<int>, now: int)
    requires forall i :: 0 <= i < |list| ==> list[i] > now
    ensures Left(list, now) == list
  {
    if list != [] {
      LeftAll(list[1..], now);
      assert list == [list[0]] + list[1..];
    }
  }

  /** A stretch of an answer answers for the time between its first firing and the one before it. */
  lemma StretchAnswers(fires: int -> bool, from: int, m: nat, list: seq<int>, now: int, k: nat, count: nat)
    requires IsAnswer(fires, from, m, list) && from <= now && k + count <= |list|
    requires (forall i :: 0 <= i < k ==> list[i] <= now) && (forall i :: k <= i < |list| ==> list[i] > now)
    ensures IsAnswer(fires, now, count, list[k..k + count])
  {
    var read := list[k..k + count];
    assert forall j :: k <= j < k + count ==> read[j - k] == list[j];
    forall t | now < t && fires(t) && t !in read ensures count > 0 ==> read[count - 1] < t {
      if t in list {
        var j: nat :| j < |list| && list[j] == t;
        Among(list, k, count, j);
      }
    }
  }

  lemma Among(list: seq<int>, k: nat, count: nat, j: nat)
    requires k + count <= |list| && j < |list|
    ensures list[j] in list[k..k + count] || j < k || k + count <= j
  {
    if k <= j < k + count {
      assert list[k..k + count][j - k] == list[j];
    }
  }

  /** A cached answer that still has enough firings left answers for a later time as the oracle would. */
  lemma LeftAnswers(fires: int -> bool, from: int, m: nat, list: seq<int>, now: int, count: nat)
    requires IsAnswer(fires, from, m, list) && from <= now && count <= |Left(list, now)|
    ensures IsAnswer(fires, now, count, Left(list, now)[..count])
  {
    var k := LeftIsEnd(list, now);
    StretchAnswers(fires, from, m, list, now, k, count);
    assert Left(list, now)[..count] == list[k..k + count];
  }

  /** The start of an answer answers for fewer. */
  lemma SliceAnswers(fires: int -> bool, after: int, m: nat, list: seq<int>, count: nat)
    requires IsAnswer(fires, after, m, list) && count <= m
    ensures IsAnswer(fires, after, count, Slice(list, count))
  {
    if count < |list| {
      assert forall i :: 0 <= i < |list| ==> list[i] in list;
      StretchAnswers(fires, after, m, list, after, 0, count);
      assert list[0..0 + count] == list[..count];
    }
  }

  // ----- The cache of one schedule -----

  /** When a list was asked for, and the firings after that. */
  datatype Upcoming = Upcoming(from: int, next: seq<int>)

  /** An entry is an answer to an ask the command accepts, of at least a batch. */
  ghost predicate EntrySound(o: Oracle, entry: Option<Upcoming>) {
    entry.Some? ==>
      exists m :: BATCH <= m <= MAX_COUNT && IsAnswer(o.fires, entry.value.from, m, entry.value.next)
  }

  /** What a call returns, None when the command refuses the count, and the entry it leaves. */
  datatype Call = Call(answer: Option<seq<int>>, entry: Option<Upcoming>)

  predicate Hit(entry: Option<Upcoming>, count: int, now: int) {
    entry.Some? && entry.value.from <= now && |Left(entry.value.next, now)| >= count
  }

  function NextCall(o: Oracle, entry: Option<Upcoming>, count: int, now: int): Call {
    var asked := if count > BATCH then count else BATCH;
    if Hit(entry, count, now) then Call(Some(Slice(Left(entry.value.next, now), count)), entry)
    else if asked > MAX_COUNT then Call(None, entry)
    else Call(Some(Slice(o.ask(now, asked), count)), Some(Upcoming(now, o.ask(now, asked))))
  }

  function SecondOf(date: int): int {
    date / 1000 * 1000
  }

  predicate Covers(entry: Option<Upcoming>, second: int) {
    && entry.Some? && entry.value.next != []
    && entry.value.from < second <= entry.value.next[|entry.value.next| - 1]
  }

  function MatchCall(o: Oracle, entry: Option<Upcoming>, date: int): bool {
    var second := SecondOf(date);
    if Covers(entry, second) then second in entry.value.next
    else
      var next := o.ask(second - 1000, 1);
      next != [] && next[0] == second
  }

  /** A count the command accepts gets what it would answer itself now; a greater one is refused. */
  lemma NextIsFresh(o: Oracle, entry: Option<Upcoming>, count: nat, now: int)
    requires Faithful(o) && EntrySound(o, entry)
    ensures NextCall(o, entry, count, now).answer == if count <= MAX_COUNT then Some(o.ask(now, count)) else None
  {
    if Hit(entry, count, now) {
      var m :| BATCH <= m <= MAX_COUNT && IsAnswer(o.fires, entry.value.from, m, entry.value.next);
      var k := LeftIsEnd(entry.value.next, now);
      LeftAnswers(o.fires, entry.value.from, m, entry.value.next, now, count);
      AnswerUnique(o.fires, now, count, Left(entry.value.next, now)[..count], o.ask(now, count));
    } else if count <= MAX_COUNT {
      var asked := if count > BATCH then count else BATCH;
      SliceAnswers(o.fires, now, asked, o.ask(now, asked), count);
      AnswerUnique(o.fires, now, count, Slice(o.ask(now, asked), count), o.ask(now, count));
    }
  }

  lemma EntryStaysSound(o: Oracle, entry: Option<Upcoming>, count: int, now: int)
    requires Faithful(o) && EntrySound(o, entry)
    ensures EntrySound(o, NextCall(o, entry, count, now).entry)
  {
    var asked := if count > BATCH then count else BATCH;
    assert asked <= MAX_COUNT ==> IsAnswer(o.fires, now, asked, o.ask(now, asked));
  }

  /** A date matches exactly when the schedule fires in its second. */
  lemma MatchIsExact(o: Oracle, entry: Option<Upcoming>, date: int)
    requires Faithful(o) && EntrySound(o, entry)
    ensures MatchCall(o, entry, date) <==> o.fires(SecondOf(date))
  {
    var second := SecondOf(date);
    if Covers(entry, second) {
      var m :| BATCH <= m <= MAX_COUNT && IsAnswer(o.fires, entry.value.from, m, entry.value.next);
    } else {
      var next := o.ask(second - 1000, 1);
      assert IsAnswer(o.fires, second - 1000, 1, next);
      if next != [] {
        assert next[0] in next;
        assert next[0] >= second;
      }
    }
  }

  /** The command is asked, for a batch at least, exactly when fewer firings are left in the cache than wanted. */
  lemma AsksExactly(o: Oracle, entry: Option<Upcoming>, count: int, now: int)
    ensures var enough := entry.Some? && entry.value.from <= now && |Left(entry.value.next, now)| >= count;
            NextCall(o, entry, count, now).entry
              == if enough || count > MAX_COUNT then entry
                 else Some(Upcoming(now, o.ask(now, if count > 60 then count else 60)))
  {
  }

  /** Once a list was asked for, later calls are answered from it until fewer firings are left than they want. */
  lemma ServedFromCache(o: Oracle, entry: Option<Upcoming>, count: nat, now: int, wanted: nat, later: int, k: nat)
    requires Faithful(o) && EntrySound(o, entry) && entry.Some? && entry.value.from <= now <= later
    requires k <= |entry.value.next| && wanted <= |entry.value.next| - k
    requires forall i :: k <= i < |entry.value.next| ==> entry.value.next[i] > later
    ensures NextCall(o, entry, wanted, later).entry == entry
  {
    var m :| BATCH <= m <= MAX_COUNT && IsAnswer(o.fires, entry.value.from, m, entry.value.next);
    var j := LeftIsEnd(entry.value.next, later);
    if k < |entry.value.next| {
      assert entry.value.next[k] > later;
    }
    assert |Left(entry.value.next, later)| == |entry.value.next| - j;
  }

  // ----- Negative counts -----

  ghost predicate CacheInvisible(o: Oracle, count: int) {
    forall entry, now :: EntrySound(o, entry) ==>
                           NextCall(o, entry, count, now).answer == NextCall(o, None, count, now).answer
  }

  /** A schedule that fires every second. */
  function EverySecond(): Oracle {
    Oracle((t: int) => t % 1000 == 0,
           (after: int, n: nat) => seq(n, (i: nat) => SecondOf(after) + (i + 1) * 1000))
  }

  lemma EverySecondIsFaithful()
    ensures Faithful(EverySecond())
  {
    var o := EverySecond();
    forall after: int, n: nat ensures IsAnswer(o.fires, after, n, o.ask(after, n)) {
      var list := o.ask(after, n);
      forall t | after < t && o.fires(t) && t !in list ensures n > 0 ==> list[n - 1] < t {
        if t <= SecondOf(after) + n * 1000 {
          AmongSeconds(after, n, t);
        }
      }
    }
  }

  lemma AmongSeconds(after: int, n: nat, t: int)
    requires after < t <= SecondOf(after) + n * 1000 && t % 1000 == 0
    ensures t in EverySecond().ask(after, n)
  {
    assert EverySecond().ask(after, n)[(t - SecondOf(after)) / 1000 - 1] == t;
  }

  /**
    What a call answers never depends on what was cached, unless the count is
    negative and above -1000: a negative count drops firings from the end of
    whatever list there is.
   */
  lemma CacheInvisibleExactly(count: int)
    ensures (forall o :: Faithful(o) ==> CacheInvisible(o, count)) <==> (count >= 0 || count <= -MAX_COUNT)
  {
    if count >= 0 {
      forall o, entry, now | Faithful(o) && EntrySound(o, entry)
        ensures NextCall(o, entry, count, now).answer == NextCall(o, None, count, now).answer
      {
        NextIsFresh(o, entry, count, now);
        NextIsFresh(o, None, count, now);
      }
    } else if count <= -MAX_COUNT {
      forall o, entry, now | Faithful(o) && EntrySound(o, entry)
        ensures NextCall(o, entry, count, now).answer == NextCall(o, None, count, now).answer
      {
        NothingLeft(o, entry, count, now);
        NothingLeft(o, None, count, now);
      }
    } else {
      LongListShows(count);
    }
  }

  lemma NothingLeft(o: Oracle, entry: Option<Upcoming>, count: int, now: int)
    requires Faithful(o) && EntrySound(o, entry) && count <= -MAX_COUNT
    ensures NextCall(o, entry, count, now).answer == Some([])
  {
    if entry.Some? && entry.value.from <= now {
      var m :| BATCH <= m <= MAX_COUNT && IsAnswer(o.fires, entry.value.from, m, entry.value.next);
      var k := LeftIsEnd(entry.value.next, now);
    } else {
      assert IsAnswer(o.fires, now, BATCH, o.ask(now, BATCH));
    }
  }

  lemma LongListShows(count: int)
    requires -MAX_COUNT < count < 0
    ensures Faithful(EverySecond()) && !CacheInvisible(EverySecond(), count)
  {
    var o := EverySecond();
    EverySecondIsFaithful();
    var entry := Some(Upcoming(0, o.ask(0, MAX_COUNT)));
    assert IsAnswer(o.fires, 0, MAX_COUNT, o.ask(0, MAX_COUNT));
    var k := LeftIsEnd(o.ask(0, MAX_COUNT), 0);
    assert k == 0;
    assert |NextCall(o, entry, count, 0).answer.value| == MAX_COUNT + count;
    assert |NextCall(o, None, count, 0).answer.value| <= BATCH;
    assert |NextCall(o, None, count, 0).answer.value| == if BATCH + count > 0 then BATCH + count else 0;
    assert EntrySound(o, entry);
  }

  // ----- The cache of every schedule -----

  /** Upcoming answers are kept by time zone and expression. */
  function Key(timezone: string, expression: string): string {
    timezone + "\n" + expression
  }

  /** A zone's name has no newline, so two questions share a key only if they are the same. */
  lemma {:induction false} KeysDiffer(zone: string, expression: string, otherZone: string, other: string)
    requires '\n' !in zone && '\n' !in otherZone
    requires Key(zone, expression) == Key(otherZone, other)
    ensures zone == otherZone && expression == other
  {
    var key := Key(zone, expression);
    assert key[|zone|] == '\n' && key[|otherZone|] == '\n';
    assert forall i :: 0 <= i < |zone| ==> key[i] == zone[i] && zone[i] in zone;
    assert forall i :: 0 <= i < |otherZone| ==> key[i] == otherZone[i] && otherZone[i] in otherZone;
    assert |zone| == |otherZone|;
    assert zone == key[..|zone|] && expression == key[|zone| + 1..];
    assert otherZone == key[..|zone|] && other == key[|zone| + 1..];
  }

  function Entry(upcoming: map<string, Upcoming>, key: string): Option<Upcoming> {
    if key in upcoming then Some(upcoming[key]) else None
  }

  /** A key finds what was stored under it last, and nothing else. */
  lemma EntryIsRemembered(upcoming: map<string, Upcoming>, key: string, other: string, list: Upcoming)
    ensures Entry(upcoming[key := list], other) == if other == key then Some(list) else Entry(upcoming, other)
    ensures Entry(map[], key).None?
  {
  }

  /** The cache, and the binary it asks: the oracle of each time zone and expression. */
  class CronAnswers {
    const binary: (string, string) -> Oracle
    var upcoming: map<string, Upcoming>

    ghost predicate Valid()
      reads this
    {
      forall zone, expression :: '\n' !in zone ==>
        && Faithful(binary(zone, expression))
        && EntrySound(binary(zone, expression), Entry(upcoming, Key(zone, expression)))
    }

    constructor (binary: (string, string) -> Oracle)
      requires forall zone, expression :: Faithful(binary(zone, expression))
      ensures Valid() && this.binary == binary && upcoming == map[]
    {
      this.binary := binary;
      upcoming := map[];
    }

    /** None: the command refused the count. Other schedules' entries are left alone. */
    method Next(expression: string, timezone: string, count: int, now: int) returns (answer: Option<seq<int>>)
      requires Valid() && '\n' !in timezone
      modifies this
      ensures Valid()
      ensures count >= 0 ==>
                answer == if count <= MAX_COUNT then Some(binary(timezone, expression).ask(now, count)) else None
      ensures var call := NextCall(binary(timezone, expression), Entry(old(upcoming), Key(timezone, expression)), count, now);
              && answer == call.answer
              && call.entry == Entry(upcoming, Key(timezone, expression))
              && upcoming - {Key(timezone, expression)} == old(upcoming) - {Key(timezone, expression)}
    {
      var key := Key(timezone, expression);
      var o := binary(timezone, expression);
      EntryStaysSound(o, Entry(upcoming, key), count, now);
      if count >= 0 {
        NextIsFresh(o, Entry(upcoming, key), count, now);
      }
      if key in upcoming && upcoming[key].from <= now {
        var left := Left(upcoming[key].next, now);
        if |left| >= count {
          return Some(Slice(left, count));
        }
      }
      var asked := if count > BATCH then count else BATCH;
      if asked > MAX_COUNT {
        return None;
      }
      var next := o.ask(now, asked);
      ghost var before := upcoming;
      upcoming := upcoming[key := Upcoming(now, next)];
      OthersKeep(before, upcoming, timezone, expression);
      return Some(Slice(next, count));
    }

    ghost predicate SoundIn(cache: map<string, Upcoming>) {
      forall zone, expression :: '\n' !in zone ==>
        EntrySound(binary(zone, expression), Entry(cache, Key(zone, expression)))
    }

    lemma OthersKeep(before: map<string, Upcoming>, after: map<string, Upcoming>, timezone: string, expression: string)
      requires SoundIn(before) && '\n' !in timezone && Key(timezone, expression) in after
      requires EntrySound(binary(timezone, expression), Entry(after, Key(timezone, expression)))
      requires after == before[Key(timezone, expression) := after[Key(timezone, expression)]]
      ensures SoundIn(after)
    {
      forall zone, other | '\n' !in zone
        ensures EntrySound(binary(zone, other), Entry(after, Key(zone, other)))
      {
        if Key(zone, other) == Key(timezone, expression) {
          KeysDiffer(zone, other, timezone, expression);
        }
      }
    }

    method Match(expression: string, timezone: string, date: int) returns (matches: bool)
      requires Valid() && '\n' !in timezone
      ensures matches <==> binary(timezone, expression).fires(SecondOf(date))
    {
      var second := SecondOf(date);
      var o := binary(timezone, expression);
      var entry := Entry(upcoming, Key(timezone, expression));
      MatchIsExact(o, entry, date);
      if entry.Some? && entry.value.next != [] && entry.value.from < second
         && second <= entry.value.next[|entry.value.next| - 1] {
        return second in entry.value.next;
      }
      var next := o.ask(second - 1000, 1);
      return next != [] && next[0] == second;
    }
  }
}
