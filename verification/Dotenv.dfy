/**
  apps/runwisp/cmd/runwisp/cmd_station.go: the RUNWISP_ assignments of a dotenv
  file. What a value's quotes protect comes back unchanged.
 */
module Dotenv {
  import opened Sequences
  import opened Wrappers

  /** unicode.IsSpace */
  predicate Space(c: char) {
    var u := c as int;
    9 <= u <= 13 || u == 32 || u == 0x85 || u == 0xA0 || u == 0x1680 || 0x2000 <= u <= 0x200A
    || u == 0x2028 || u == 0x2029 || u == 0x202F || u == 0x205F || u == 0x3000
  }

  /** strings.TrimSpace */
  function TrimSpace(s: string): (t: string)
    ensures |t| <= |s|
  {
    if s != [] && Space(s[0]) then TrimSpace(s[1..])
    else if s != [] && Space(s[|s| - 1]) then TrimSpace(s[..|s| - 1])
    else s
  }

  function TrimPrefix(s: string, prefix: string): string {
    if prefix <= s then s[|prefix|..] else s
  }

  /** strings.IndexByte, the length when there is none. */
  function IndexOf(s: string, c: char): (k: nat)
    ensures k <= |s| && c !in s[..k]
    ensures k < |s| ==> s[k] == c
  {
    if s == [] || s[0] == c then 0
    else
      var k := IndexOf(s[1..], c);
      assert s[..k + 1] == [s[0]] + s[1..][..k];
      k + 1
  }

  // ----- What trimming leaves -----

  predicate AllSpace(s: string) {
    forall c :: c in s ==> Space(c)
  }

  lemma Untrimmed(s: string)
    requires s == [] || (!Space(s[0]) && !Space(s[|s| - 1]))
    ensures TrimSpace(s) == s
  {
  }

  /** Trimming takes all the space at both ends, and nothing else. */
  lemma {:induction false} TrimsExactly(before: string, s: string, after: string)
    requires AllSpace(before) && AllSpace(after) && (s == [] || (!Space(s[0]) && !Space(s[|s| - 1])))
    ensures TrimSpace(before + s + after) == s
    decreases |before| + 2 * |after|
  {
    var text := before + s + after;
    if before != [] {
      assert text[0] == before[0] && before[0] in before && text[1..] == before[1..] + s + after;
      TrimsExactly(before[1..], s, after);
    } else if after == [] {
      assert text == s;
      Untrimmed(s);
    } else if s == [] {
      TrimsExactly(after, [], []);
      assert text == after + [] + [];
    } else {
      var last := |after| - 1;
      assert text[|text| - 1] == after[last] && after[last] in after && text[0] == s[0];
      assert text[..|text| - 1] == before + s + after[..last];
      TrimsExactly(before, s, after[..last]);
    }
  }

  // ----- One value -----

  /** The rest of a quoted value from i, after b: None when the quote never closes. */
  function UnquotedFrom(v: string, i: nat, b: string): Option<string>
    requires v != []
    decreases |v| - i
  {
    if i >= |v| then None
    else if v[i] == v[0] then Some(b)
    else if v[i] == '\\' && v[0] == '"' && i + 1 < |v| then
      UnquotedFrom(v, i + 2, b + [if v[i + 1] == 'n' then '\n' else v[i + 1]])
    else UnquotedFrom(v, i + 1, b + [v[i]])
  }

  function Unquoted(v: string): Option<string> {
    if v == [] || (v[0] != '"' && v[0] != '\'') then None else UnquotedFrom(v, 1, [])
  }

  method DotenvUnquote(v: string) returns (quoted: Option<string>)
    ensures quoted == Unquoted(v)
  {
    if v == [] || (v[0] != '"' && v[0] != '\'') {
      return None;
    }
    var b, i := [], 1;
    while i < |v|
      invariant 1 <= i
      invariant UnquotedFrom(v, i, b) == UnquotedFrom(v, 1, [])
      decreases |v| - i
    {
      var c := v[i];
      if c == v[0] {
        return Some(b);
      }
      if c == '\\' && v[0] == '"' && i + 1 < |v| {
        i := i + 1;
        c := v[i];
        if c == 'n' {
          c := '\n';
        }
      }
      b := b + [c];
      i := i + 1;
    }
    return None;
  }

  /** Where an unquoted value's comment starts, from i on. */
  function CommentFrom(v: string, i: nat): (k: nat)
    requires i <= |v|
    ensures i <= k <= |v|
    decreases |v| - i
  {
    if i == |v| || (v[i] == '#' && (i == 0 || v[i - 1] == ' ' || v[i - 1] == '\t')) then i else CommentFrom(v, i + 1)
  }

  function ValueOf(v: string): string {
    if Unquoted(v).Some? then Unquoted(v).value else TrimSpace(v[..CommentFrom(v, 0)])
  }

  method DotenvValue(v: string) returns (value: string)
    ensures value == ValueOf(v)
  {
    var quoted := DotenvUnquote(v);
    if quoted.Some? {
      return quoted.value;
    }
    var i := 0;
    while i < |v| && !(v[i] == '#' && (i == 0 || v[i - 1] == ' ' || v[i - 1] == '\t'))
      invariant 0 <= i <= |v|
      invariant CommentFrom(v, i) == CommentFrom(v, 0)
    {
      i := i + 1;
    }
    value := TrimSpace(v[..i]);
  }

  // ----- The file -----

  predicate Skipped(key: string) {
    !("RUNWISP_" <= key) || ' ' in key || '\t' in key
  }

  /** A line without the blanks around it and the export before it. */
  function Bare(line: string): string {
    TrimSpace(TrimPrefix(TrimSpace(line), "export "))
  }

  /** The assignment a line makes, if it is one of RunWisp's. */
  function Assignment(line: string): Option<(string, string)> {
    AssignmentOf(Bare(line))
  }

  function AssignmentOf(text: string): Option<(string, string)> {
    var k := IndexOf(text, '=');
    var key := TrimSpace(text[..k]);
    if k == |text| || Skipped(key) then None
    else Some((key, ValueOf(TrimSpace(text[k + 1..]))))
  }

  function Added(out: map<string, string>, assignment: Option<(string, string)>): map<string, string> {
    if assignment.None? then out else out[assignment.value.0 := assignment.value.1]
  }

  /** strings.Lines: each line with the newline that ends it. */
  function FirstLine(data: string): (line: string)
    ensures line <= data && (data != [] ==> line != [])
  {
    var k := IndexOf(data, '\n');
    if k < |data| then data[..k + 1] else data
  }

  function ParsedAfter(data: string, out: map<string, string>): map<string, string>
    decreases |data|
  {
    if data == [] then out
    else ParsedAfter(data[|FirstLine(data)|..], Added(out, Assignment(FirstLine(data))))
  }

  method ParseRunwispDotenv(data: string) returns (out: map<string, string>)
    ensures out == ParsedAfter(data, map[])
  {
    out := map[];
    var rest := data;
    while rest != []
      invariant ParsedAfter(rest, out) == ParsedAfter(data, map[])
      decreases |rest|
    {
      var line := FirstLine(rest);
      rest := rest[|line|..];
      var text := Bare(line);
      var k := IndexOf(text, '=');
      var key := TrimSpace(text[..k]);
      if k == |text| || Skipped(key) {
        continue;
      }
      var value := DotenvValue(TrimSpace(text[k + 1..]));
      out := out[key := value];
    }
  }

  // ----- Writing what is read back -----

  function EscapedChar(c: char): string {
    if c == '\n' then "\\n" else if c == '"' || c == '\\' then ['\\', c] else [c]
  }

  function Escaped(v: string): (e: string)
    ensures '\n' !in e
  {
    if v == [] then [] else EscapedChar(v[0]) + Escaped(v[1..])
  }

  function Quoted(v: string): string {
    "\"" + Escaped(v) + "\""
  }

  lemma ReadsOne(text: string, i: nat, c: char, b: string)
    requires text != [] && text[0] == '"' && i + |EscapedChar(c)| < |text|
    requires text[i..i + |EscapedChar(c)|] == EscapedChar(c)
    ensures UnquotedFrom(text, i, b) == UnquotedFrom(text, i + |EscapedChar(c)|, b + [c])
  {
    assert text[i..i + |EscapedChar(c)|][0] == text[i];
    if |EscapedChar(c)| == 2 {
      assert text[i..i + 2][1] == text[i + 1];
    }
  }

  lemma Between(before: string, middle: string, after: string)
    ensures (before + middle + after)[|before|..|before| + |middle|] == middle
  {
  }

  lemma ReadsFirst(before: string, c: char, rest: string, b: string)
    requires before != [] && before[0] == '"' && rest != []
    ensures var text := before + EscapedChar(c) + rest;
            UnquotedFrom(text, |before|, b) == UnquotedFrom(text, |before + EscapedChar(c)|, b + [c])
  {
    Between(before, EscapedChar(c), rest);
    ReadsOne(before + EscapedChar(c) + rest, |before|, c, b);
  }

  /** Reading an escaped text gives the text back, whatever comes after it. */
  lemma {:induction false} ReadsEscaped(before: string, v: string, rest: string, b: string)
    requires before != [] && before[0] == '"' && rest != []
    ensures var text := before + Escaped(v) + rest;
            UnquotedFrom(text, |before|, b) == UnquotedFrom(text, |before + Escaped(v)|, b + v)
    decreases |v|
  {
    if v == [] {
      assert b + v == b && before + Escaped(v) == before;
    } else {
      var first, later := EscapedChar(v[0]), Escaped(v[1..]);
      ReadsFirst(before, v[0], later + rest, b);
      ReadsEscaped(before + first, v[1..], rest, b + [v[0]]);
      Regroup(before, first, later, rest);
      Assoc(b, [v[0]], v[1..]);
      assert v == [v[0]] + v[1..];
    }
  }

  lemma Regroup(a: string, b: string, c: string, d: string)
    ensures a + b + (c + d) == a + (b + c) + d == (a + b) + c + d && a + (b + c) == (a + b) + c
  {
  }

  /** Whatever follows the closing quote, and whatever the value holds. */
  lemma UnquoteUndoes(v: string, rest: string)
    ensures Unquoted(Quoted(v) + rest) == Some(v)
  {
    var text := "\"" + Escaped(v) + ("\"" + rest);
    ReadsEscaped("\"", v, "\"" + rest, []);
    assert Quoted(v) + rest == text && text[1 + |Escaped(v)|] == '"';
    assert [] + v == v;
  }

  lemma {:induction false} SingleFrom(v: string, i: nat, rest: string)
    requires '\'' !in v && i <= |v|
    ensures UnquotedFrom("'" + v + "'" + rest, i + 1, v[..i]) == Some(v)
    decreases |v| - i
  {
    var text := "'" + v + "'" + rest;
    if i < |v| {
      SingleFrom(v, i + 1, rest);
      assert text[i + 1] == v[i] && v[..i] + [v[i]] == v[..i + 1];
    } else {
      assert text[i + 1] == '\'' && v[..i] == v;
    }
  }

  /** Single quotes take everything but themselves as it is. */
  lemma SingleQuotesKeep(v: string, rest: string)
    requires '\'' !in v
    ensures Unquoted("'" + v + "'" + rest) == Some(v)
  {
    SingleFrom(v, 0, rest);
    assert v[..0] == [];
  }

  // ----- Values without quotes -----

  predicate Blank(c: char) {
    c == ' ' || c == '\t'
  }

  /** A comment starts at index i: at the start of the value or behind a blank. */
  predicate StartsComment(v: string, i: int) {
    0 <= i < |v| && v[i] == '#' && (i == 0 || Blank(v[i - 1]))
  }

  lemma {:induction false} CommentIsFirst(v: string, i: nat, k: nat)
    requires i <= k <= |v| && (k < |v| ==> StartsComment(v, k))
    requires forall j :: i <= j < k ==> !StartsComment(v, j)
    ensures CommentFrom(v, i) == k
    decreases k - i
  {
    if i < k {
      assert !StartsComment(v, i);
      CommentIsFirst(v, i + 1, k);
    }
  }

  lemma BlanksGo(v: string, blanks: string)
    requires v != [] && !Space(v[0]) && !Space(v[|v| - 1]) && forall c :: c in blanks ==> Blank(c)
    ensures TrimSpace(v + blanks) == v
  {
    TrimsExactly([], v, blanks);
    assert [] + v + blanks == v + blanks;
  }

  /** A value that needs no quotes: no blanks around it, no quote before it, and no comment in it. */
  ghost predicate Plain(v: string) {
    && v != [] && !Space(v[0]) && !Space(v[|v| - 1]) && v[0] != '"' && v[0] != '\''
    && forall i :: 0 <= i < |v| ==> !StartsComment(v, i)
  }

  /** A value without quotes is read as it stands, up to a comment behind a blank. */
  lemma PlainKeeps(v: string, blanks: string, comment: string)
    requires Plain(v) && blanks != [] && forall c :: c in blanks ==> Blank(c)
    ensures ValueOf(v) == v && ValueOf(v + blanks + "#" + comment) == v
    ensures ValueOf("#" + comment) == []
  {
    CommentIsFirst(v, 0, |v|);
    assert v[..|v|] == v;
    BlanksGo(v, []);
    assert v + [] == v;
    var text, k := v + blanks + "#" + comment, |v| + |blanks|;
    assert text[k] == '#' && text[k - 1] == blanks[|blanks| - 1] && blanks[|blanks| - 1] in blanks;
    forall j | 0 <= j < k ensures !StartsComment(text, j) {
      if j < |v| {
        assert !StartsComment(v, j);
      } else {
        assert text[j] == blanks[j - |v|] && blanks[j - |v|] in blanks;
      }
    }
    CommentIsFirst(text, 0, k);
    assert text[..k] == v + blanks;
    BlanksGo(v, blanks);
    CommentIsFirst("#" + comment, 0, 0);
  }

  /** What follows the closing quote is left out, and a quote that never closes is none. */
  lemma QuotesDecide(v: string, rest: string)
    ensures ValueOf(Quoted(v) + rest) == v
    ensures '\'' !in v ==> ValueOf("'" + v + "'" + rest) == v
    ensures forall q :: q == '"' || q == '\'' ==>
              q !in v && '#' !in v && '\\' !in v && (v != [] ==> !Space(v[|v| - 1])) ==> ValueOf([q] + v) == [q] + v
  {
    UnquoteUndoes(v, rest);
    if '\'' !in v {
      SingleQuotesKeep(v, rest);
    }
    forall q | (q == '"' || q == '\'') && q !in v && '#' !in v && '\\' !in v && (v != [] ==> !Space(v[|v| - 1]))
      ensures ValueOf([q] + v) == [q] + v
    {
      var text := [q] + v;
      NeverCloses(text, 1, []);
      forall j | 0 <= j < |text| ensures !StartsComment(text, j) {
        assert j > 0 ==> text[j] in v;
      }
      CommentIsFirst(text, 0, |text|);
      assert text[..|text|] == text;
      BlanksGo(text, []);
      assert text + [] == text;
    }
  }

  /** An escaped quote does not close, not even as the last one. */
  lemma EscapedQuoteStays(v: string)
    ensures Unquoted("\"" + Escaped(v) + "\\\"").None?
  {
    var text := "\"" + Escaped(v) + "\\\"";
    ReadsEscaped("\"", v, "\\\"", []);
    assert text[1 + |Escaped(v)|] == '\\' && |text| == |Escaped(v)| + 3;
  }

  lemma {:induction false} NeverCloses(text: string, i: nat, b: string)
    requires 1 <= i && text != [] && forall j :: 1 <= j < |text| ==> text[j] != text[0] && text[j] != '\\'
    ensures UnquotedFrom(text, i, b).None?
    decreases |text| - i
  {
    if i < |text| {
      NeverCloses(text, i + 1, b + [text[i]]);
    }
  }

  /** A key RunWisp reads: its prefix, and neither a space nor an equals sign. */
  ghost predicate GoodKey(key: string) {
    "RUNWISP_" <= key && '=' !in key && forall c :: c in key ==> !Space(c)
  }

  function LineFor(key: string, value: string): string {
    key + "=" + Quoted(value) + "\n"
  }

  lemma {:induction false} IndexAfter(key: string, rest: string, c: char)
    requires c !in key
    ensures IndexOf(key + [c] + rest, c) == |key|
  {
    if key != [] {
      assert key[0] in key;
      IndexAfter(key[1..], rest, c);
      assert (key + [c] + rest)[1..] == key[1..] + [c] + rest;
    }
  }

  lemma LineIsAssignment(key: string, value: string)
    requires GoodKey(key)
    ensures Assignment(LineFor(key, value)) == Some((key, value))
  {
    var line, text := LineFor(key, value), key + "=" + Quoted(value);
    TrimmedLine(key, value);
    assert text[0] == 'R' && "export "[0] == 'e';
    IndexAfter(key, Quoted(value), '=');
    assert text == key + ['='] + Quoted(value);
    assert text[..|key|] == key && text[|key| + 1..] == Quoted(value);
    KeyStays(key);
    Untrimmed(Quoted(value));
    UnquoteUndoes(value, "");
    assert Quoted(value) + "" == Quoted(value);
  }

  lemma KeyStays(key: string)
    requires GoodKey(key)
    ensures TrimSpace(key) == key && !Skipped(key)
  {
    assert key[0] in key && key[|key| - 1] in key;
    Untrimmed(key);
  }

  lemma TrimmedLine(key: string, value: string)
    requires GoodKey(key)
    ensures TrimSpace(LineFor(key, value)) == key + "=" + Quoted(value)
    ensures TrimSpace(key + "=" + Quoted(value)) == key + "=" + Quoted(value)
    ensures (key + "=" + Quoted(value))[0] == 'R'
  {
    var line, text := LineFor(key, value), key + "=" + Quoted(value);
    assert text[0] == key[0] && key[0] == "RUNWISP_"[0] && text[|text| - 1] == '"';
    Untrimmed(text);
    assert line[..|line| - 1] == text && line[0] == text[0];
    assert TrimSpace(line) == TrimSpace(text);
  }

  // ----- Which lines count -----

  /** Space around a line changes nothing. */
  lemma SpaceGoes(before: string, text: string, after: string)
    requires AllSpace(before) && AllSpace(after)
    requires text != [] && !Space(text[0]) && !Space(text[|text| - 1]) && !("export " <= text)
    ensures Bare(before + text + after) == text
  {
    TrimsExactly(before, text, after);
    Untrimmed(text);
  }

  /** Nor does "export " before it, nor the space behind that. */
  lemma ExportGoes(before: string, between: string, text: string, after: string)
    requires AllSpace(before) && AllSpace(between) && AllSpace(after)
    requires text != [] && !Space(text[0]) && !Space(text[|text| - 1])
    ensures Bare(before + ("export " + between + text) + after) == text
  {
    var exported := "export " + between + text;
    TrimsExactly(before, exported, after);
    assert exported[7..] == between + text + [] && "export " <= exported;
    TrimsExactly(between, text, []);
  }

  /** A line with an equals sign counts exactly when its key has RunWisp's prefix and no blank. */
  lemma CountsExactly(key: string, between: string, rest: string)
    requires '=' !in key && key != [] && !Space(key[0]) && !Space(key[|key| - 1]) && AllSpace(between)
    ensures AssignmentOf(key + between + "=" + rest)
         == if "RUNWISP_" <= key && ' ' !in key && '\t' !in key then Some((key, ValueOf(TrimSpace(rest)))) else None
  {
    var text, left := key + between + "=" + rest, key + between;
    assert '=' !in left by {
      assert !Space('=');
    }
    IndexAfter(left, rest, '=');
    assert text == left + ['='] + rest && text[..|left|] == left && text[|left| + 1..] == rest;
    TrimsExactly([], key, between);
    assert [] + key + between == left;
  }

  /** A line without an equals sign does not count. */
  lemma NoEqualsCountsNot(line: string)
    requires '=' !in line
    ensures Assignment(line).None?
  {
    TrimmedOf(line, '=');
    var trimmed := TrimSpace(line);
    var text := TrimPrefix(trimmed, "export ");
    assert forall i :: 0 <= i < |text| ==> text[i] == trimmed[|trimmed| - |text| + i];
    TrimmedOf(text, '=');
  }

  lemma {:induction false} TrimmedOf(s: string, c: char)
    requires c !in s
    ensures c !in TrimSpace(s)
    decreases |s|
  {
    if s != [] && Space(s[0]) {
      TrimmedOf(s[1..], c);
    } else if s != [] && Space(s[|s| - 1]) {
      TrimmedOf(s[..|s| - 1], c);
    }
  }

  // ----- A whole file -----

  /** A line of the file: an assignment, or anything else on one line that is none. */
  datatype Entry = Variable(key: string, value: string) | Other(line: string)

  ghost predicate GoodEntry(e: Entry) {
    match e
    case Variable(key, _) => GoodKey(key)
    case Other(line) => '\n' !in line && Assignment(line + "\n").None?
  }

  function TextOf(es: seq<Entry>): string {
    if es == [] then [] else EntryText(es[0]) + TextOf(es[1..])
  }

  function EntryText(e: Entry): string {
    match e
    case Variable(key, value) => LineFor(key, value)
    case Other(line) => line + "\n"
  }

  /** The variables, a later line for a key over an earlier one. */
  function Variables(es: seq<Entry>, out: map<string, string>): map<string, string> {
    if es == [] then out
    else Variables(es[1..], if es[0].Variable? then out[es[0].key := es[0].value] else out)
  }

  lemma OneLine(e: Entry)
    requires GoodEntry(e)
    ensures exists body :: '\n' !in body && EntryText(e) == body + "\n"
    ensures Assignment(EntryText(e)) == if e.Variable? then Some((e.key, e.value)) else None
  {
    if e.Variable? {
      LineIsAssignment(e.key, e.value);
      var body := e.key + "=" + Quoted(e.value);
      assert EntryText(e) == body + "\n";
      assert Space('\n');
    } else {
      assert EntryText(e) == e.line + "\n";
    }
  }

  lemma FirstLineIs(body: string, rest: string)
    requires '\n' !in body
    ensures FirstLine(body + "\n" + rest) == body + "\n"
  {
    IndexAfter(body, rest, '\n');
    assert body + "\n" + rest == body + ['\n'] + rest;
  }

  /** A file of quoted values, and of lines that are not RunWisp's, is read back as the variables it was written from. */
  lemma {:induction false} FileRoundTrips(es: seq<Entry>, out: map<string, string>)
    requires forall e :: e in es ==> GoodEntry(e)
    ensures ParsedAfter(TextOf(es), out) == Variables(es, out)
  {
    if es != [] {
      var e, rest := es[0], TextOf(es[1..]);
      OneLine(e);
      var body :| '\n' !in body && EntryText(e) == body + "\n";
      FirstLineIs(body, rest);
      var text := TextOf(es);
      assert text == body + "\n" + rest && text[|FirstLine(text)|..] == rest;
      FileRoundTrips(es[1..], Added(out, Assignment(FirstLine(text))));
    }
  }
}
