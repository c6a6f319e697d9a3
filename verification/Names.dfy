/**
  packages/php/src/Names.php: task names for scheduled entries, each given out
  once.
 */
module Names {

  const MAX_LENGTH := 100

  predicate Allowed(c: char) {
    'a' <= c <= 'z' || 'A' <= c <= 'Z' || '0' <= c <= '9' || c == '.' || c == '_' || c == ':' || c == '-'
  }

  predicate AllAllowed(s: string) {
    forall c :: c in s ==> Allowed(c)
  }

  predicate Valid(raw: string) {
    1 <= |raw| <= MAX_LENGTH && AllAllowed(raw)
  }

  /** What follows a run of characters that are not allowed. */
  function AfterRun(raw: string): (rest: string)
    ensures |rest| <= |raw|
  {
    if raw == [] || Allowed(raw[0]) then raw else AfterRun(raw[1..])
  }

  /** preg_replace: each run of characters that are not allowed becomes one "-". */
  function Replaced(raw: string): (name: string)
    ensures AllAllowed(name)
    decreases |raw|
  {
    if raw == [] then []
    else if Allowed(raw[0]) then [raw[0]] + Replaced(raw[1..])
    else ['-'] + Replaced(AfterRun(raw[1..]))
  }

  /** The name without the dashes at both ends. */
  function Trimmed(name: string): (t: string)
    ensures AllAllowed(name) ==> AllAllowed(t)
    ensures |t| <= |name|
    ensures t != [] ==> t[0] != '-' && t[|t| - 1] != '-'
  {
    if name != [] && name[0] == '-' then Trimmed(name[1..])
    else if name != [] && name[|name| - 1] == '-' then Trimmed(name[..|name| - 1])
    else name
  }

  /** The first length characters; a negative length leaves that many out at the end. */
  function Substr(s: string, length: int): string {
    if length >= |s| then s
    else if length >= 0 then s[..length]
    else if |s| + length > 0 then s[..|s| + length]
    else []
  }

  function Slug(raw: string): (name: string)
    ensures Valid(name)
  {
    var name := Trimmed(Replaced(raw));
    if name == "" then "task" else Substr(name, MAX_LENGTH)
  }

  lemma {:induction false} AllowedStays(raw: string)
    requires AllAllowed(raw)
    ensures Replaced(raw) == raw
  {
    if raw != [] {
      assert raw[0] in raw;
      AllowedStays(raw[1..]);
      assert raw == [raw[0]] + raw[1..];
    }
  }

  /** A name is its own slug exactly when it is valid and has no "-" at either end. */
  lemma SlugIsItself(raw: string)
    ensures Slug(raw) == raw <==> Valid(raw) && raw[0] != '-' && raw[|raw| - 1] != '-'
  {
    if AllAllowed(raw) {
      AllowedStays(raw);
      if raw != [] && raw[|raw| - 1] == '-' && raw[0] != '-' {
        assert Trimmed(raw) == Trimmed(raw[..|raw| - 1]);
      }
    }
  }

  const LOWER := "abcdefghijklmnopqrstuvwxyz"
  const UPPER := "ABCDEFGHIJKLMNOPQRSTUVWXYZ"
  const DIGITS := "0123456789"

  lemma InLower(c: char)
    ensures 'a' <= c <= 'z' <==> c in LOWER
  {
    if 'a' <= c <= 'z' {
      assert LOWER[c as int - 'a' as int] == c;
    }
  }

  lemma InUpper(c: char)
    ensures 'A' <= c <= 'Z' <==> c in UPPER
  {
    if 'A' <= c <= 'Z' {
      assert UPPER[c as int - 'A' as int] == c;
    }
  }

  lemma InDigits(c: char)
    ensures '0' <= c <= '9' <==> c in DIGITS
  {
    if '0' <= c <= '9' {
      assert DIGITS[c as int - '0' as int] == c;
    }
  }

  /** The characters of a name, one by one. */
  lemma AllowedExactly(c: char)
    ensures Allowed(c) <==> c in LOWER || c in UPPER || c in DIGITS || c in "._:-"
  {
    InLower(c);
    InUpper(c);
    InDigits(c);
  }

  /** Each run of characters that are not allowed becomes one dash, and the others stay. */
  lemma {:induction false} RunIsOneDash(before: string, run: string, after: string)
    requires AllAllowed(before) && run != [] && (forall c :: c in run ==> !Allowed(c)) && (after == [] || Allowed(after[0]))
    ensures Replaced(before + run + after) == before + "-" + Replaced(after)
    decreases |before|
  {
    var raw := before + run + after;
    if before == [] {
      assert raw[0] == run[0] && run[0] in run && raw[1..] == run[1..] + after;
      RunEnds(run[1..], after);
      assert before + "-" == "-";
    } else {
      assert before[0] in before && raw[0] == before[0] && raw[1..] == before[1..] + run + after;
      RunIsOneDash(before[1..], run, after);
      assert before == [before[0]] + before[1..];
      assert [before[0]] + (before[1..] + "-" + Replaced(after)) == before + "-" + Replaced(after);
    }
  }

  lemma {:induction false} RunEnds(run: string, after: string)
    requires (forall c :: c in run ==> !Allowed(c)) && (after == [] || Allowed(after[0]))
    ensures AfterRun(run + after) == after
  {
    if run == [] {
      assert run + after == after;
    } else {
      assert run[0] in run && (run + after)[1..] == run[1..] + after;
      RunEnds(run[1..], after);
    }
  }

  // ----- Candidates -----

  function Digit(k: nat): (c: char)
    requires k < 10
    ensures '0' <= c <= '9' && c as int - '0' as int == k
  {
    ('0' as int + k) as char
  }

  function Decimal(n: nat): (d: string)
    ensures d != [] && forall c :: c in d ==> '0' <= c <= '9'
  {
    (if n < 10 then [] else Decimal(n / 10)) + [Digit(n % 10)]
  }

  function NumberOf(d: string): int {
    if d == [] then 0 else NumberOf(d[..|d| - 1]) * 10 + (d[|d| - 1] as int - '0' as int)
  }

  lemma {:induction false} DecimalReads(n: nat)
    ensures NumberOf(Decimal(n)) == n
  {
    var d := Decimal(n);
    assert d[|d| - 1] == Digit(n % 10);
    if n < 10 {
      assert d[..|d| - 1] == [] && NumberOf([]) == 0;
    } else {
      DecimalReads(n / 10);
      assert d[..|d| - 1] == Decimal(n / 10);
    }
  }

  function Pow10(k: nat): nat {
    if k == 0 then 1 else 10 * Pow10(k - 1)
  }

  lemma {:induction false} DecimalLength(n: nat, k: nat)
    requires k >= 1 && n < Pow10(k)
    ensures |Decimal(n)| <= k
  {
    if n >= 10 {
      assert Pow10(0) == 1 && Pow10(1) == 10;
      DecimalLength(n / 10, k - 1);
    }
  }

  function Suffix(n: nat): string {
    "-" + Decimal(n)
  }

  function Candidate(base: string, n: nat): string {
    Substr(base, MAX_LENGTH - |Suffix(n)|) + Suffix(n)
  }

  lemma CandidateEnds(base: string, n: nat)
    ensures var c, d := Candidate(base, n), Decimal(n);
            && |c| > |d| && c[|c| - |d|..] == d && c[|c| - |d| - 1] == '-'
            && forall i :: |c| - |d| <= i < |c| ==> c[i] != '-'
  {
    var c, d := Candidate(base, n), Decimal(n);
    forall i | |c| - |d| <= i < |c| ensures c[i] != '-' {
      assert c[i] == d[i - (|c| - |d|)];
      assert d[i - (|c| - |d|)] in d;
    }
  }

  /** Every number gives another name, whatever is cut off the base. */
  lemma CandidatesDiffer(base: string, n: nat, m: nat)
    requires Candidate(base, n) == Candidate(base, m)
    ensures n == m
  {
    CandidateEnds(base, n);
    CandidateEnds(base, m);
    var c := Candidate(base, n);
    assert |Decimal(n)| == |Decimal(m)|;
    DecimalReads(n);
    DecimalReads(m);
  }

  /** A number of up to 99 digits leaves the name valid; a longer one cannot. */
  lemma CandidateValid(base: string, n: nat)
    requires Valid(base)
    ensures Valid(Candidate(base, n)) <==> |Decimal(n)| <= MAX_LENGTH - 1
  {
    CandidateEnds(base, n);
    var start := Substr(base, MAX_LENGTH - |Suffix(n)|);
    assert forall c :: c in start ==> c in base;
  }

  /** A candidate is the name, cut as far as the number needs room, and the number behind a dash. */
  lemma CandidateKeepsBase(base: string, n: nat)
    requires |Decimal(n)| <= MAX_LENGTH - 1
    ensures var room := MAX_LENGTH - 1 - |Decimal(n)|;
            Candidate(base, n) == (if |base| <= room then base else base[..room]) + "-" + Decimal(n)
  {
  }

  // ----- A free name -----

  ghost predicate AllTaken(taken: set<string>, base: string, n: nat) {
    forall m :: 2 <= m < n ==> Candidate(base, m) in taken
  }

  ghost function Candidates(base: string, n: nat): set<string> {
    if n <= 2 then {} else Candidates(base, n - 1) + {Candidate(base, n - 1)}
  }

  lemma {:induction false} CandidatesCount(base: string, n: nat)
    requires n >= 2
    ensures |Candidates(base, n)| == n - 2
    ensures forall c :: c in Candidates(base, n) ==> exists m :: 2 <= m < n && c == Candidate(base, m)
  {
    if n > 2 {
      CandidatesCount(base, n - 1);
      if Candidate(base, n - 1) in Candidates(base, n - 1) {
        var m :| 2 <= m < n - 1 && Candidate(base, n - 1) == Candidate(base, m);
        CandidatesDiffer(base, n - 1, m);
      }
    }
  }

  lemma {:induction false} SubsetSize(a: set<string>, b: set<string>)
    requires a <= b
    ensures |a| <= |b|
  {
    if a != {} {
      var x :| x in a;
      SubsetSize(a - {x}, b - {x});
    }
  }

  /** Only so many numbers can be taken. */
  lemma TakenAtLeast(taken: set<string>, base: string, n: nat)
    requires n >= 2 && AllTaken(taken, base, n)
    ensures n - 2 <= |taken|
  {
    CandidatesCount(base, n);
    SubsetSize(Candidates(base, n), taken);
  }

  /** The first number, from n on, whose name is free. */
  ghost function FirstFree(taken: set<string>, base: string, n: nat): (free: nat)
    requires n >= 2 && AllTaken(taken, base, n)
    ensures 2 <= free <= |taken| + 2 && Candidate(base, free) !in taken && AllTaken(taken, base, free)
    decreases |taken| + 2 - n
  {
    TakenAtLeast(taken, base, n);
    if Candidate(base, n) !in taken then n
    else
      assert AllTaken(taken, base, n + 1);
      TakenAtLeast(taken, base, n + 1);
      FirstFree(taken, base, n + 1)
  }

  ghost function Claimed(taken: set<string>, raw: string): string {
    if Slug(raw) !in taken then Slug(raw) else Candidate(Slug(raw), FirstFree(taken, Slug(raw), 2))
  }

  /** Before a candidate is looked up, the numbers below its own were taken. */
  function Tried(n: nat): nat {
    if n <= 2 then 2 else n - 1
  }

  class Registry {
    var taken: set<string>

    constructor ()
      ensures taken == {}
    {
      taken := {};
    }

    method Claim(raw: string) returns (name: string)
      modifies this
      ensures name == Claimed(old(taken), raw)
      ensures taken == old(taken) + {name}
    {
      name := Slug(raw);
      var base := name;
      var n := 2;
      while name in taken
        invariant taken == old(taken)
        invariant n >= 2 && AllTaken(taken, base, Tried(n))
        invariant name == if n == 2 then base else Candidate(base, n - 1)
        invariant n > 2 ==> base in taken
        invariant FirstFree(taken, base, 2) == FirstFree(taken, base, Tried(n))
        decreases |taken| + 3 - n
      {
        assert AllTaken(taken, base, n);
        TakenAtLeast(taken, base, n);
        name := Substr(base, MAX_LENGTH - |Suffix(n)|) + Suffix(n);
        n := n + 1;
      }
      taken := taken + {name};
    }
  }

  // ----- A history of claims -----

  /** The names given to entries, in the order they are claimed. */
  ghost function Claims(raws: seq<string>): seq<string> {
    if raws == [] then []
    else
      var before := Claims(raws[..|raws| - 1]);
      before + [Claimed(Members(before), raws[|raws| - 1])]
  }

  ghost function Members(names: seq<string>): set<string> {
    set i | 0 <= i < |names| :: names[i]
  }

  lemma {:induction false} MembersCount(names: seq<string>)
    ensures |Members(names)| <= |names|
  {
    if names != [] {
      var before := names[..|names| - 1];
      MembersCount(before);
      assert Members(names) <= Members(before) + {names[|names| - 1]};
      SubsetSize(Members(names), Members(before) + {names[|names| - 1]});
    }
  }

  lemma ClaimedIsNew(taken: set<string>, raw: string)
    ensures Claimed(taken, raw) !in taken
    ensures |taken| + 2 < Pow10(MAX_LENGTH - 1) ==> Valid(Claimed(taken, raw))
  {
    if Slug(raw) in taken && |taken| + 2 < Pow10(MAX_LENGTH - 1) {
      var n := FirstFree(taken, Slug(raw), 2);
      DecimalLength(n, MAX_LENGTH - 1);
      CandidateValid(Slug(raw), n);
    }
  }

  /**
    Whatever entries ask for, no name is given twice, and each has 1 to 100
    allowed characters as long as fewer than 10^99 - 2 were given before.
   */
  lemma {:induction false} NamesAreDistinct(raws: seq<string>)
    ensures |Claims(raws)| == |raws|
    ensures forall i, j :: 0 <= i < j < |raws| ==> Claims(raws)[i] != Claims(raws)[j]
    ensures |raws| + 1 < Pow10(MAX_LENGTH - 1) ==> forall i :: 0 <= i < |raws| ==> Valid(Claims(raws)[i])
  {
    if raws != [] {
      var before := Claims(raws[..|raws| - 1]);
      NamesAreDistinct(raws[..|raws| - 1]);
      MembersCount(before);
      ClaimedIsNew(Members(before), raws[|raws| - 1]);
    }
  }
}
