/**
  A worker and the daemon it is connected to, as one system of steps: what they
  agree on in every state any run reaches.

  The daemon's side is apps/runwisp/internal/apphost/host.go: it reads one
  message at a time, applies configs one by one in the order they came and only
  while their sender is active, and writes each answer before the next config
  is looked at. Answers carry no id. What the daemon says besides (roles,
  reload requests), and when, is left open, and so are other copies of the app,
  a connection that breaks, and the outcome of each reload.
 */
module Agreement {
  import opened Wrappers
  import opened Documents
  import opened Worker
  import opened Sequences

  /** The daemon's decision on one config. */
  datatype Verdict = Verdict(doc: Document, ok: bool)

  /**
    up, down: written and not read. batch: read by the worker, not handled.
    active, left: whether the daemon runs this copy's units, and whether it
    heard this copy leave. chain: configs read, not decided. ready: an answer
    not yet written. applied: the document RunWisp runs.

    History, which no step looks at: decided: verdicts whose answer the worker
    has not handled; last: the last verdict on this session; asked, given,
    stray: the reload ids heard on this session, answered on it, and joined to
    a reload of an earlier session.
   */
  datatype System = System(
    w: State,
    up: seq<ToDaemon>,
    down: seq<FromDaemon>,
    batch: seq<FromDaemon>,
    active: bool,
    left: bool,
    chain: seq<Document>,
    ready: seq<FromDaemon>,
    applied: Option<Document>,
    decided: seq<Verdict>,
    last: Option<Verdict>,
    asked: seq<string>,
    given: seq<string>,
    stray: seq<string>)
  {
    /** This copy's session is open at both ends. */
    predicate Open() {
      w.attached && !w.conn.closed
    }
  }

  datatype Event =
    | DaemonReads
    | DaemonDecides(accepts: bool, restart: bool)
    | DaemonAnswers
    | DaemonSays(m: FromDaemon)
    | BecomesActive
    | OtherCopyApplies(doc: Document)
    | Breaks
    | WorkerReads(n: nat)
    | WorkerHandles(starts: bool)
    | TickEnds
    | ReloadEnds(read: Option<Definition>)
    | Signalled
    | Attaches(stale: bool, active: bool, applied: Option<Document>)

  predicate IsAnswer(m: FromDaemon) {
    m == ConfigOk || m.ConfigError?
  }

  predicate Initial(s: System) {
    && DocumentOf(s.w.now).Some?
    && s == System(
         State(s.w.now, false, None, [], false, false, false, Conn(0, false, false, true), None),
         [], [], [], false, false, [], [], s.applied, [], None, [], [], [])
  }

  predicate Enabled(s: System, e: Event) {
    match e
    case DaemonReads => s.up != []
    case DaemonDecides(_, _) => s.chain != [] && s.ready == []
    case DaemonAnswers => s.ready != []
    case DaemonSays(m) => !IsAnswer(m)
    // A copy that left is out of the line for good; one that is active stays so.
    case BecomesActive => !s.left
    case OtherCopyApplies(_) => !s.active
    case Breaks => true
    case WorkerReads(n) => s.w.attached && s.batch == [] && n <= |s.down|
    case WorkerHandles(_) => s.batch != [] && DocumentOf(s.w.now).Some?
    case TickEnds => s.batch == [] && s.w.attached && s.w.conn.closed
    case ReloadEnds(_) => s.batch == [] && s.w.reloading.Some?
    case Signalled => !s.w.leaving
    case Attaches(_, _, _) => !s.w.attached && s.batch == [] && !s.w.leaving
  }

  /** The reload ids that messages answer. */
  function IdsOf(ms: seq<ToDaemon>): seq<string> {
    if ms == [] then []
    else
      (match ms[0]
       case Push(_, Some(id)) => [id]
       case ReloadError(id) => [id]
       case _ => []) + IdsOf(ms[1..])
  }

  /** The worker did something and gave its session messages to send. */
  function WorkerDid(s: System, effect: Effect): System {
    var written := Written(s.w.conn, effect.sent);
    s.(w := effect.state, up := s.up + written, given := s.given + IdsOf(written))
  }

  function Handled(s: System, starts: bool): System
    requires Enabled(s, WorkerHandles(starts))
  {
    var m := s.batch[0];
    var next := WorkerDid(s.(batch := s.batch[1..]), Received(s.w, m, starts));
    if !s.Open() then next
    else if IsAnswer(m) then next.(decided := if s.decided == [] then [] else s.decided[1..])
    else if m.Reload? then
      next.(asked := s.asked + [m.id],
            stray := if s.w.reloading.Some? && s.w.reloading.value.session != s.w.conn.id then s.stray + [m.id] else s.stray)
    else next
  }

  function Do(s: System, e: Event): System
    requires Enabled(s, e)
  {
    match e
    case DaemonReads =>
      var rest := s.(up := s.up[1..]);
      (match s.up[0]
       case Push(doc, _) => rest.(chain := s.chain + [doc])
       case ReloadError(_) => rest
       case Leave => rest.(left := true, active := false))
    case DaemonDecides(accepts, restart) =>
      var v := Verdict(s.chain[0], s.active && accepts);
      s.(chain := s.chain[1..],
         applied := if v.ok then Some(v.doc) else s.applied,
         ready := [if v.ok then ConfigOk else ConfigError(restart)],
         decided := s.decided + [v],
         last := Some(v))
    case DaemonAnswers => s.(down := s.down + s.ready, ready := [])
    case DaemonSays(m) => s.(down := s.down + [m])
    case BecomesActive => s.(active := true)
    case OtherCopyApplies(doc) => s.(applied := Some(doc))
    case Breaks => s.(w := s.w.(conn := s.w.conn.(closed := true)))
    case WorkerReads(n) =>
      s.(w := s.w.(conn := Parsed(s.w.conn, s.down[..n])), batch := s.down[..n], down := s.down[n..])
    case WorkerHandles(starts) => Handled(s, starts)
    case TickEnds => s.(w := Disconnected(s.w))
    case ReloadEnds(read) => WorkerDid(s, ReloadFinished(s.w, read))
    case Signalled => WorkerDid(s, Left(s.w))
    case Attaches(stale, active, applied) =>
      System(Attached(s.w, stale), [], [], [], active, false, [], [], applied, [], None, [], [], [])
  }

  // ----- What every state keeps -----

  function DocOf(now: Definition, p: Option<Definition>): Option<Document> {
    DocumentOf(if p.Some? then p.value else now)
  }

  function Docs(now: Definition, pending: seq<Option<Definition>>): seq<Option<Document>> {
    if pending == [] then [] else [DocOf(now, pending[0])] + Docs(now, pending[1..])
  }

  function Somes(docs: seq<Document>): (r: seq<Option<Document>>)
    ensures |r| == |docs|
    ensures forall i :: 0 <= i < |docs| ==> r[i] == Some(docs[i])
  {
    if docs == [] then [] else [Some(docs[0])] + Somes(docs[1..])
  }

  function Pushes(ms: seq<ToDaemon>): seq<Document> {
    if ms == [] then [] else (if ms[0].Push? then [ms[0].doc] else []) + Pushes(ms[1..])
  }

  function Decided(vs: seq<Verdict>): (docs: seq<Document>)
    ensures |docs| == |vs|
    ensures forall i :: 0 <= i < |vs| ==> docs[i] == vs[i].doc
  {
    if vs == [] then [] else [vs[0].doc] + Decided(vs[1..])
  }

  function Oks(vs: seq<Verdict>): (oks: seq<bool>)
    ensures |oks| == |vs|
    ensures forall i :: 0 <= i < |vs| ==> oks[i] == vs[i].ok
  {
    if vs == [] then [] else [vs[0].ok] + Oks(vs[1..])
  }

  /** The answers among messages, in order: whether each accepts. */
  function AnswersIn(ms: seq<FromDaemon>): seq<bool> {
    if ms == [] then [] else (if IsAnswer(ms[0]) then [ms[0] == ConfigOk] else []) + AnswersIn(ms[1..])
  }

  /** This copy's own config is only ever the oldest unanswered one, and no document ever fails to build. */
  predicate Shape(w: State) {
    && DocumentOf(w.now).Some?
    && (forall i :: 0 < i < |w.pending| ==> w.pending[i].Some?)
    && (forall i :: 0 <= i < |w.pending| ==> DocOf(w.now, w.pending[i]).Some?)
    && (!w.attached ==> w.conn.closed)
    && (w.reloading.Some? ==> w.reloading.value.session <= w.conn.id)
  }

  /** pushed is the document of what this copy will run once all its configs are answered. */
  predicate PushedIsLatest(w: State) {
    w.pushed.Some? ==>
      w.pushed == if w.pending == [] then DocumentOf(w.now) else DocOf(w.now, w.pending[|w.pending| - 1])
  }

  /** The unanswered configs, from the oldest: decided, being decided, and on their way. */
  function OnTheWire(s: System): seq<Document> {
    Decided(s.decided) + s.chain + Pushes(s.up)
  }

  /** pending matches the unanswered configs one for one and in order. */
  predicate ConfigsMatch(s: System) {
    Docs(s.w.now, s.w.pending) == Somes(OnTheWire(s))
  }

  /** The answers on their way are those of the configs decided, in order. */
  predicate AnswersMatch(s: System) {
    && AnswersIn(s.batch + s.down + s.ready) == Oks(s.decided)
    && |s.ready| <= 1
  }

  predicate LastVerdict(s: System) {
    && (s.decided != [] ==> s.last == Some(s.decided[|s.decided| - 1]))
    && (s.w.pending == [] && s.w.pushed.Some? ==> s.last == Some(Verdict(s.w.pushed.value, true)))
  }

  /** The config last accepted from this copy is what runs, until this copy leaves. */
  predicate AppliedIsLast(s: System) {
    && (s.left || Leave in s.up ==> s.w.leaving)
    && (s.last.Some? && s.last.value.ok && !s.left ==> s.active && s.applied == Some(s.last.value.doc))
  }

  function Waiting(w: State): seq<string> {
    if w.reloading.Some? && w.reloading.value.session == w.conn.id then w.reloading.value.ids else []
  }

  /** Every reload id heard is answered once, waits for its reload, or joined an earlier session's. */
  predicate IdsAccounted(s: System) {
    multiset(s.asked) == multiset(s.given) + multiset(Waiting(s.w)) + multiset(s.stray)
  }

  predicate Inv(s: System) {
    && Shape(s.w)
    && PushedIsLatest(s.w)
    && (s.Open() ==>
          && ConfigsMatch(s)
          && AnswersMatch(s)
          && LastVerdict(s)
          && AppliedIsLast(s)
          && IdsAccounted(s))
  }

  // ----- Sequences -----

  lemma {:induction false} DocsConcat(now: Definition, a: seq<Option<Definition>>, b: seq<Option<Definition>>)
    ensures Docs(now, a + b) == Docs(now, a) + Docs(now, b)
  {
    if a == [] {
      assert a + b == b;
    } else {
      assert (a + b)[1..] == a[1..] + b;
      DocsConcat(now, a[1..], b);
    }
  }

  /** A reload's document is its own, whatever this copy runs now. */
  lemma {:induction false} DocsOfReloads(now: Definition, other: Definition, ps: seq<Option<Definition>>)
    requires forall i :: 0 <= i < |ps| ==> ps[i].Some?
    ensures Docs(now, ps) == Docs(other, ps)
  {
    if ps != [] {
      DocsOfReloads(now, other, ps[1..]);
    }
  }

  lemma {:induction false} PushesConcat(a: seq<ToDaemon>, b: seq<ToDaemon>)
    ensures Pushes(a + b) == Pushes(a) + Pushes(b)
  {
    if a == [] {
      assert a + b == b;
    } else {
      assert (a + b)[0] == a[0] && (a + b)[1..] == a[1..] + b;
      PushesConcat(a[1..], b);
      Assoc((if a[0].Push? then [a[0].doc] else []), Pushes(a[1..]), Pushes(b));
    }
  }

  lemma {:induction false} AnswersConcat(a: seq<FromDaemon>, b: seq<FromDaemon>)
    ensures AnswersIn(a + b) == AnswersIn(a) + AnswersIn(b)
  {
    if a == [] {
      assert a + b == b;
    } else {
      assert (a + b)[0] == a[0] && (a + b)[1..] == a[1..] + b;
      AnswersConcat(a[1..], b);
      Assoc((if IsAnswer(a[0]) then [a[0] == ConfigOk] else []), AnswersIn(a[1..]), AnswersIn(b));
    }
  }

  lemma SomesConcat(a: seq<Document>, b: seq<Document>)
    ensures Somes(a + b) == Somes(a) + Somes(b)
  {
  }

  // ----- The daemon's steps keep it -----

  /** What the daemon reads leaves the queue for the chain. */
  lemma ReadKeepsConfigs(s: System)
    requires ConfigsMatch(s) && s.up != []
    ensures ConfigsMatch(Do(s, DaemonReads))
  {
    ReadMoves(s);
    ReadKeepsWire(Decided(s.decided), s.chain, s.up[0], s.up[1..]);
    assert s.up == [s.up[0]] + s.up[1..];
  }

  lemma ReadMoves(s: System)
    requires s.up != []
    ensures var t := Do(s, DaemonReads);
            && t.w == s.w && t.up == s.up[1..] && t.decided == s.decided
            && t.chain == if s.up[0].Push? then s.chain + [s.up[0].doc] else s.chain
  {
  }

  lemma ReadKeepsApplied(s: System)
    requires AppliedIsLast(s) && s.up != []
    ensures AppliedIsLast(Do(s, DaemonReads))
  {
  }

  lemma DaemonReadsKeeps(s: System)
    requires Inv(s) && Enabled(s, DaemonReads)
    ensures Inv(Do(s, DaemonReads))
  {
    var t := Do(s, DaemonReads);
    assert t == s.(up := t.up, chain := t.chain, left := t.left, active := t.active);
    if s.Open() {
      ReadKeepsConfigs(s);
      ReadKeepsApplied(s);
    }
  }

  lemma ReadKeepsWire(decided: seq<Document>, chain: seq<Document>, m: ToDaemon, rest: seq<ToDaemon>)
    ensures decided + (if m.Push? then chain + [m.doc] else chain) + Pushes(rest) == decided + chain + Pushes([m] + rest)
  {
    assert ([m] + rest)[1..] == rest;
    if m.Push? {
      Assoc(decided, chain, [m.doc]);
      Assoc(decided + chain, [m.doc], Pushes(rest));
    } else {
      assert [] + Pushes(rest) == Pushes(rest);
    }
  }

  lemma DecidedKeepsWire(decided: seq<Verdict>, v: Verdict, chain: seq<Document>)
    requires chain != [] && chain[0] == v.doc
    ensures Decided(decided + [v]) + chain[1..] == Decided(decided) + chain
    ensures Oks(decided + [v]) == Oks(decided) + [v.ok]
  {
  }

  lemma DaemonDecidesKeeps(s: System, accepts: bool, restart: bool)
    requires Inv(s) && Enabled(s, DaemonDecides(accepts, restart))
    ensures Inv(Do(s, DaemonDecides(accepts, restart)))
  {
    var t := Do(s, DaemonDecides(accepts, restart));
    if s.Open() {
      DecidedKeepsWire(s.decided, t.last.value, s.chain);
      AnswersConcat(s.batch + s.down, t.ready);
      assert s.batch + s.down + s.ready == s.batch + s.down;
      assert AnswersIn(t.ready) == [t.last.value.ok];
      NotAllAnswered(s);
    }
  }

  /** A config being decided is still awaited. */
  lemma NotAllAnswered(s: System)
    requires ConfigsMatch(s) && s.chain != []
    ensures s.w.pending != []
  {
    assert |OnTheWire(s)| > 0;
  }

  lemma DaemonAnswersKeeps(s: System)
    requires Inv(s) && Enabled(s, DaemonAnswers)
    ensures Inv(Do(s, DaemonAnswers))
  {
    assert s.batch + (s.down + s.ready) + [] == s.batch + s.down + s.ready;
  }

  lemma DaemonSaysKeeps(s: System, m: FromDaemon)
    requires Inv(s) && Enabled(s, DaemonSays(m))
    ensures Inv(Do(s, DaemonSays(m)))
  {
    NoAnswerMore(s.batch, s.down, m, s.ready);
    assert Do(s, DaemonSays(m)) == s.(down := s.down + [m]);
    assert OnTheWire(Do(s, DaemonSays(m))) == OnTheWire(s);
  }

  lemma NoAnswerMore(batch: seq<FromDaemon>, down: seq<FromDaemon>, m: FromDaemon, ready: seq<FromDaemon>)
    requires !IsAnswer(m)
    ensures AnswersIn(batch + (down + [m]) + ready) == AnswersIn(batch + down + ready)
  {
    AnswersConcat(batch + down, ready);
    AnswersConcat(batch + down, [m]);
    AnswersConcat(batch + (down + [m]), ready);
    Assoc(batch, down, [m]);
    assert [m][1..] == [] && AnswersIn([m]) == [] + AnswersIn([]) == [];
    assert AnswersIn(batch + down) + [] == AnswersIn(batch + down);
  }

  // ----- The worker's steps keep it -----

  lemma {:induction false} ParsedKeeps(conn: Conn, ms: seq<FromDaemon>)
    ensures Parsed(conn, ms).id == conn.id && Parsed(conn, ms).closed == conn.closed
  {
    if ms != [] {
      ParsedKeeps(conn, ms[..|ms| - 1]);
    }
  }

  lemma SameShape(w: State, conn: Conn)
    requires Shape(w) && PushedIsLatest(w) && conn.id == w.conn.id && conn.closed == w.conn.closed
    ensures Shape(w.(conn := conn)) && PushedIsLatest(w.(conn := conn))
    ensures Waiting(w.(conn := conn)) == Waiting(w)
  {
  }

  lemma Halves(ms: seq<FromDaemon>, n: nat)
    requires n <= |ms|
    ensures ms[..n] + ms[n..] == ms
  {
  }

  lemma WorkerReadsKeeps(s: System, n: nat)
    requires Inv(s) && Enabled(s, WorkerReads(n))
    ensures Inv(Do(s, WorkerReads(n)))
  {
    var t := Do(s, WorkerReads(n));
    ParsedKeeps(s.w.conn, s.down[..n]);
    SameShape(s.w, t.w.conn);
    if s.Open() {
      Halves(s.down, n);
      assert s.batch == [] && s.batch + s.down == s.down && t.batch + t.down == s.down;
    }
  }

  /** An effect that leaves this copy's state in order, with added at the end of pending. */
  predicate OrderlyState(w: State, next: State, added: seq<Option<Definition>>) {
    && Shape(next) && PushedIsLatest(next)
    && next.now == w.now && next.pending == w.pending + added
    && (next.attached ==> w.attached && next.conn == w.conn)
    && (next.pending == [] && next.pushed.Some? ==> next.pushed == w.pushed)
  }

  /** Its messages send the configs added, and answer the reload ids no longer waited for. */
  predicate OrderlySent(w: State, effect: Effect, added: seq<Option<Definition>>) {
    && Docs(w.now, added) == Somes(Pushes(effect.sent))
    && (w.leaving || Leave in effect.sent ==> effect.state.leaving)
    && multiset(Waiting(w)) == multiset(IdsOf(effect.sent)) + multiset(Waiting(effect.state))
  }

  lemma OrderlyKeeps(s: System, effect: Effect, added: seq<Option<Definition>>)
    requires Inv(s) && OrderlyState(s.w, effect.state, added)
    requires s.Open() ==> OrderlySent(s.w, effect, added)
    ensures Inv(WorkerDid(s, effect))
  {
    if WorkerDid(s, effect).Open() {
      OrderlyKeepsConfigs(s, effect, added);
      OrderlyKeepsIds(s, effect, added);
    }
  }

  lemma OrderlyKeepsConfigs(s: System, effect: Effect, added: seq<Option<Definition>>)
    requires s.Open() && ConfigsMatch(s) && OrderlyState(s.w, effect.state, added) && OrderlySent(s.w, effect, added)
    ensures ConfigsMatch(WorkerDid(s, effect))
  {
    DocsConcat(s.w.now, s.w.pending, added);
    PushesConcat(s.up, effect.sent);
    Assoc(Decided(s.decided) + s.chain, Pushes(s.up), Pushes(effect.sent));
    SomesConcat(OnTheWire(s), Pushes(effect.sent));
  }

  lemma OrderlyKeepsIds(s: System, effect: Effect, added: seq<Option<Definition>>)
    requires s.Open() && IdsAccounted(s) && OrderlyState(s.w, effect.state, added) && OrderlySent(s.w, effect, added)
    ensures IdsAccounted(WorkerDid(s, effect))
  {
  }

  /** What apply and role add to pending: this copy's own config, if they send it. */
  function OwnIfSent(effect: Effect): seq<Option<Definition>> {
    if effect.sent == [] then [] else [None]
  }

  lemma AppliedInOrder(w: State)
    requires Shape(w) && PushedIsLatest(w)
    ensures OrderlyState(w, Applied(w).state, OwnIfSent(Applied(w)))
  {
    var effect := Applied(w);
    assert w.pending + [] == w.pending;
    assert effect.sent == [] ==> effect.state.pending == w.pending && effect.state.pushed == w.pushed;
  }

  lemma AppliedSent(w: State)
    requires Shape(w)
    ensures OrderlySent(w, Applied(w), OwnIfSent(Applied(w)))
  {
    var effect := Applied(w);
    if effect.sent != [] {
      assert Pushes(effect.sent) == [DocumentOf(w.now).value];
      assert Docs(w.now, [None]) == [DocumentOf(w.now)];
    }
  }

  lemma RoleInOrder(w: State)
    requires Shape(w) && PushedIsLatest(w)
    ensures OrderlyState(w, RoleTaken(w).state, OwnIfSent(RoleTaken(w)))
  {
    if w.conn.active {
      AppliedInOrder(w.(standby := false, pushed := None));
    } else {
      assert w.pending + [] == w.pending;
    }
  }

  lemma RoleSent(w: State)
    requires Shape(w)
    ensures OrderlySent(w, RoleTaken(w), OwnIfSent(RoleTaken(w)))
  {
    if w.conn.active {
      AppliedSent(w.(standby := false, pushed := None));
    } else {
      NothingSent(w, RoleTaken(w));
    }
  }

  lemma NothingSent(w: State, effect: Effect)
    requires effect.sent == [] && Waiting(effect.state) == Waiting(w) && (w.leaving ==> effect.state.leaving)
    ensures OrderlySent(w, effect, OwnIfSent(effect))
  {
  }

  lemma {:induction false} AnswersGoToIds(ids: seq<string>, read: Option<Definition>)
    ensures IdsOf(Answers(ids, read)) == ids
    ensures Leave !in Answers(ids, read)
  {
    if ids != [] {
      AnswersGoToIds(ids[1..], read);
      AnswersStart(ids, read);
      assert ids == [ids[0]] + ids[1..];
    }
  }

  lemma AnswersStart(ids: seq<string>, read: Option<Definition>)
    requires ids != []
    ensures Answers(ids, read)[0] == Answer(ids[0], read) && Answers(ids, read)[1..] == Answers(ids[1..], read)
  {
  }

  lemma {:induction false} AwaitedDocs(now: Definition, n: nat, read: Option<Definition>)
    requires ReadDocument(read).Some?
    ensures Docs(now, Awaited(n, read)) == seq(n, _ => ReadDocument(read))
  {
    if n > 0 {
      AwaitedDocs(now, n - 1, read);
      assert Awaited(n, read)[0] == read && Awaited(n, read)[1..] == Awaited(n - 1, read);
    }
  }

  lemma {:induction false} AnswersPush(ids: seq<string>, read: Option<Definition>)
    ensures Pushes(Answers(ids, read)) == if ReadDocument(read).Some? then seq(|ids|, _ => ReadDocument(read).value) else []
  {
    if ids != [] {
      AnswersPush(ids[1..], read);
      AnswersStart(ids, read);
    }
  }

  lemma AnswersAreAwaited(now: Definition, ids: seq<string>, read: Option<Definition>)
    ensures Docs(now, Awaited(|ids|, read)) == Somes(Pushes(Answers(ids, read)))
    ensures IdsOf(Answers(ids, read)) == ids
    ensures Leave !in Answers(ids, read)
  {
    AnswersGoToIds(ids, read);
    AnswersPush(ids, read);
    if ReadDocument(read).Some? {
      AwaitedDocs(now, |ids|, read);
    }
  }

  function AwaitedIfAsked(w: State, read: Option<Definition>): seq<Option<Definition>>
    requires w.reloading.Some?
  {
    if w.attached && w.reloading.value.session == w.conn.id then Awaited(|w.reloading.value.ids|, read) else []
  }

  lemma ReloadFinishedInOrder(w: State, read: Option<Definition>)
    requires Shape(w) && PushedIsLatest(w) && w.reloading.Some?
    ensures OrderlyState(w, ReloadFinished(w, read).state, AwaitedIfAsked(w, read))
  {
    var next, added := ReloadFinished(w, read).state, AwaitedIfAsked(w, read);
    if added == [] {
      assert next == w.(reloading := None, pending := w.pending + []);
      assert w.pending + [] == w.pending;
    } else {
      assert next == w.(reloading := None, pending := w.pending + added, pushed := DocumentOf(read.value));
      AddedInOrder(w, next, added, read);
    }
  }

  lemma AddedInOrder(w: State, next: State, added: seq<Option<Definition>>, read: Option<Definition>)
    requires Shape(w) && ReadDocument(read).Some? && added != []
    requires forall i :: 0 <= i < |added| ==> added[i] == read
    requires next == w.(reloading := None, pending := w.pending + added, pushed := DocumentOf(read.value))
    ensures OrderlyState(w, next, added)
  {
  }

  lemma ReloadFinishedSent(w: State, read: Option<Definition>)
    requires Shape(w) && w.reloading.Some? && w.attached
    ensures OrderlySent(w, ReloadFinished(w, read), AwaitedIfAsked(w, read))
  {
    if w.reloading.value.session == w.conn.id {
      AnswersAreAwaited(w.now, w.reloading.value.ids, read);
      assert ReloadFinished(w, read).sent == Answers(w.reloading.value.ids, read);
      assert Waiting(w) == w.reloading.value.ids && Waiting(ReloadFinished(w, read).state) == [];
    } else {
      assert ReloadFinished(w, read) == Effect(w.(reloading := None), []);
      assert AwaitedIfAsked(w, read) == [];
    }
  }

  // ----- Handling one message keeps it -----

  /** A message that answers no config leaves the answers on their way as they are. */
  lemma DropMessage(s: System)
    requires Inv(s) && s.batch != [] && !IsAnswer(s.batch[0])
    ensures Inv(s.(batch := s.batch[1..]))
  {
    NoAnswerDropped(s.batch, s.down, s.ready);
    assert OnTheWire(s.(batch := s.batch[1..])) == OnTheWire(s);
  }

  lemma NoAnswerDropped(batch: seq<FromDaemon>, down: seq<FromDaemon>, ready: seq<FromDaemon>)
    requires batch != [] && !IsAnswer(batch[0])
    ensures AnswersIn(batch[1..] + down + ready) == AnswersIn(batch + down + ready)
  {
    var rest := batch[1..] + down + ready;
    assert batch + down + ready == [batch[0]] + rest;
    AnswersConcat([batch[0]], rest);
    assert AnswersIn([batch[0]]) == [] && [] + AnswersIn(rest) == AnswersIn(rest);
  }

  lemma HandledRoleKeeps(s: System, starts: bool)
    requires Inv(s) && Enabled(s, WorkerHandles(starts)) && (s.batch[0].Role? || s.batch[0].Alone?)
    ensures Inv(Handled(s, starts))
  {
    var dropped := s.(batch := s.batch[1..]);
    DropMessage(s);
    if s.batch[0].Role? {
      RoleInOrder(s.w);
      RoleSent(s.w);
      OrderlyKeeps(dropped, RoleTaken(s.w), OwnIfSent(RoleTaken(s.w)));
    } else {
      AppliedInOrder(s.w);
      AppliedSent(s.w);
      OrderlyKeeps(dropped, Applied(s.w), OwnIfSent(Applied(s.w)));
    }
  }

  lemma HandledReloadKeeps(s: System, starts: bool)
    requires Inv(s) && Enabled(s, WorkerHandles(starts)) && s.batch[0].Reload?
    ensures Inv(Handled(s, starts))
  {
    DropMessage(s);
    ReloadKeepsState(s, starts);
    if s.Open() {
      ReloadKeepsWire(s, starts);
      ReloadAccounted(s, s.batch[0].id, starts);
    }
  }

  lemma ReloadKeepsState(s: System, starts: bool)
    requires Inv(s) && Enabled(s, WorkerHandles(starts)) && s.batch[0].Reload?
    ensures var t := Handled(s, starts);
            && t.w == s.w.(reloading := t.w.reloading) && Shape(t.w)
            && t.Open() == s.Open()
            && t.(w := s.w, up := s.up, asked := s.asked, given := s.given, stray := s.stray) == s.(batch := s.batch[1..])
  {
    ReloadKeepsShape(s.w, s.batch[0].id, starts);
    assert Handled(s, starts).w == ReloadStarted(s.w, s.batch[0].id, starts).state;
  }

  lemma ReloadKeepsShape(w: State, id: string, starts: bool)
    requires Shape(w)
    ensures var next := ReloadStarted(w, id, starts).state; next == w.(reloading := next.reloading) && Shape(next)
  {
  }

  lemma ReloadKeepsWire(s: System, starts: bool)
    requires Enabled(s, WorkerHandles(starts)) && s.batch[0].Reload?
    ensures OnTheWire(Handled(s, starts)) == OnTheWire(s)
    ensures Leave in Handled(s, starts).up ==> Leave in s.up
  {
    var sent := Written(s.w.conn, ReloadStarted(s.w, s.batch[0].id, starts).sent);
    assert Pushes(sent) == [];
    PushesConcat(s.up, sent);
    assert Pushes(s.up) + [] == Pushes(s.up);
  }

  /** One more id heard, and one more answered, waiting or joined elsewhere. */
  lemma OneMoreId(asked: seq<string>, given: seq<string>, waiting: seq<string>, stray: seq<string>, id: string)
    requires multiset(asked) == multiset(given) + multiset(waiting) + multiset(stray)
    ensures multiset(asked + [id]) == multiset(given + [id]) + multiset(waiting) + multiset(stray)
    ensures multiset(asked + [id]) == multiset(given) + multiset(waiting + [id]) + multiset(stray)
    ensures multiset(asked + [id]) == multiset(given) + multiset(waiting) + multiset(stray + [id])
  {
  }

  predicate Strays(w: State) {
    w.reloading.Some? && w.reloading.value.session != w.conn.id
  }

  lemma ReloadWaits(w: State, id: string, starts: bool)
    ensures var effect := ReloadStarted(w, id, starts);
            if effect.sent == [] then Waiting(effect.state) == if Strays(w) then Waiting(w) else Waiting(w) + [id]
            else effect == Effect(w, [ReloadError(id)]) && !Strays(w) && IdsOf(effect.sent) == [id]
  {
    assert [ReloadError(id)][1..] == [] && IdsOf([ReloadError(id)]) == [id] + [];
  }

  lemma ReloadAccounted(s: System, id: string, starts: bool)
    requires s.Open() && IdsAccounted(s) && Enabled(s, WorkerHandles(starts)) && s.batch[0] == Reload(id)
    ensures IdsAccounted(Handled(s, starts))
  {
    var effect, t := ReloadStarted(s.w, id, starts), Handled(s, starts);
    OneMoreId(s.asked, s.given, Waiting(s.w), s.stray, id);
    ReloadWaits(s.w, id, starts);
    assert t.w == effect.state && t.asked == s.asked + [id] && t.given == s.given + IdsOf(effect.sent);
    assert t.stray == if Strays(s.w) then s.stray + [id] else s.stray;
    assert s.given + [] == s.given;
  }

  /** An answer on an open session answers the oldest unanswered config, with that config's verdict. */
  lemma AnswerMatches(s: System)
    requires s.Open() && ConfigsMatch(s) && AnswersMatch(s) && s.batch != [] && IsAnswer(s.batch[0])
    ensures s.decided != [] && s.w.pending != []
    ensures s.decided[0].ok == (s.batch[0] == ConfigOk)
    ensures Some(s.decided[0].doc) == DocOf(s.w.now, s.w.pending[0])
    ensures |s.w.pending| == |s.decided| + |s.chain| + |Pushes(s.up)|
    ensures AnswersIn(s.batch[1..] + s.down + s.ready) == Oks(s.decided[1..])
  {
    var rest := s.batch[1..] + s.down + s.ready;
    assert s.batch + s.down + s.ready == [s.batch[0]] + rest;
    AnswersConcat([s.batch[0]], rest);
    assert AnswersIn([s.batch[0]]) == [s.batch[0] == ConfigOk];
    assert AnswersIn(rest) == Oks(s.decided)[1..];
    DocsLength(s.w.now, s.w.pending);
    assert Docs(s.w.now, s.w.pending)[0] == Somes(OnTheWire(s))[0];
  }

  lemma {:induction false} DocsLength(now: Definition, ps: seq<Option<Definition>>)
    ensures |Docs(now, ps)| == |ps|
  {
    if ps != [] {
      DocsLength(now, ps[1..]);
    }
  }

  /** The state after the oldest config was answered, before what a rejection adds. */
  function Answered(w: State, ok: bool): State {
    if w.pending == [] then (if ok then w else w.(pushed := None))
    else if ok then
      w.(pending := w.pending[1..], now := if w.pending[0].Some? then w.pending[0].value else w.now)
    else w.(pending := w.pending[1..], pushed := None)
  }

  lemma AnsweredInOrder(w: State, ok: bool)
    requires Shape(w) && PushedIsLatest(w)
    ensures Shape(Answered(w, ok)) && PushedIsLatest(Answered(w, ok))
  {
  }

  /** The system after an answer was handled, the session still this copy's. */
  function AfterAnswer(s: System): System
    requires s.batch != [] && s.decided != []
  {
    s.(w := Answered(s.w, s.batch[0] == ConfigOk), batch := s.batch[1..], decided := s.decided[1..])
  }

  lemma AnswerKeepsConfigs(s: System)
    requires s.Open() && Shape(s.w) && ConfigsMatch(s) && AnswersMatch(s) && s.batch != [] && IsAnswer(s.batch[0])
    ensures s.decided != [] && ConfigsMatch(AfterAnswer(s)) && AnswersMatch(AfterAnswer(s))
  {
    AnswerMatches(s);
    var t := AfterAnswer(s);
    DocsOfReloads(s.w.now, t.w.now, s.w.pending[1..]);
    assert OnTheWire(t) == OnTheWire(s)[1..];
    assert Somes(OnTheWire(t)) == Somes(OnTheWire(s))[1..];
  }

  lemma AnswerKeepsLast(s: System)
    requires s.Open() && Shape(s.w) && PushedIsLatest(s.w) && ConfigsMatch(s) && AnswersMatch(s) && LastVerdict(s)
    requires s.batch != [] && IsAnswer(s.batch[0])
    ensures s.decided != [] && LastVerdict(AfterAnswer(s))
  {
    AnswerMatches(s);
  }

  lemma AnswerKeepsRest(s: System)
    requires AppliedIsLast(s) && IdsAccounted(s) && s.batch != [] && s.decided != []
    ensures AppliedIsLast(AfterAnswer(s)) && IdsAccounted(AfterAnswer(s))
  {
    assert AfterAnswer(s).w.reloading == s.w.reloading && AfterAnswer(s).w.conn == s.w.conn;
  }

  lemma HandledAnswerIs(s: System, starts: bool)
    requires Enabled(s, WorkerHandles(starts)) && IsAnswer(s.batch[0])
    ensures var t, w := Handled(s, starts), Answered(s.w, s.batch[0] == ConfigOk);
            && (t.w == w || t.w == Restarted(w))
            && (t.Open() && s.decided != [] ==> t == AfterAnswer(s))
  {
    assert s.up + [] == s.up && s.given + [] == s.given;
  }

  lemma HandledAnswerKeeps(s: System, starts: bool)
    requires Inv(s) && Enabled(s, WorkerHandles(starts)) && IsAnswer(s.batch[0])
    ensures Inv(Handled(s, starts))
  {
    HandledAnswerIs(s, starts);
    AnsweredInOrder(s.w, s.batch[0] == ConfigOk);
    var t := Handled(s, starts);
    if t.Open() {
      AnswerKeepsConfigs(s);
      AnswerKeepsLast(s);
      AnswerKeepsRest(s);
      assert t == AfterAnswer(s);
    }
  }

  // ----- Every run -----

  lemma ReloadEndsKeeps(s: System, read: Option<Definition>)
    requires Inv(s) && Enabled(s, ReloadEnds(read))
    ensures Inv(Do(s, ReloadEnds(read)))
  {
    ReloadFinishedInOrder(s.w, read);
    if s.Open() {
      ReloadFinishedSent(s.w, read);
    }
    OrderlyKeeps(s, ReloadFinished(s.w, read), AwaitedIfAsked(s.w, read));
  }

  lemma SignalledKeeps(s: System)
    requires Inv(s) && Enabled(s, Signalled)
    ensures Inv(Do(s, Signalled))
  {
    LeftInOrder(s.w);
    OrderlyKeeps(s, Left(s.w), []);
  }

  lemma LeftInOrder(w: State)
    requires Shape(w) && PushedIsLatest(w)
    ensures OrderlyState(w, Left(w).state, []) && OrderlySent(w, Left(w), [])
  {
    assert w.pending + [] == w.pending;
    LeaveAnswersNothing();
  }

  lemma LeaveAnswersNothing()
    ensures Pushes([Leave]) == [] && IdsOf([Leave]) == []
  {
    assert [Leave][1..] == [] && [] + Pushes([]) == [] && [] + IdsOf([]) == [];
  }

  lemma AttachesKeeps(s: System, stale: bool, active: bool, applied: Option<Document>)
    requires Inv(s) && Enabled(s, Attaches(stale, active, applied))
    ensures Inv(Do(s, Attaches(stale, active, applied)))
  {
  }

  lemma ElsewhereKeeps(s: System, e: Event)
    requires Inv(s) && Enabled(s, e) && (e.BecomesActive? || e.OtherCopyApplies?)
    ensures Inv(Do(s, e))
  {
    assert OnTheWire(Do(s, e)) == OnTheWire(s);
  }

  lemma ClosingKeeps(s: System, e: Event)
    requires Inv(s) && Enabled(s, e) && (e.Breaks? || e.TickEnds?)
    ensures Inv(Do(s, e))
  {
    assert !Do(s, e).Open();
  }

  lemma HandledKeeps(s: System, starts: bool)
    requires Inv(s) && Enabled(s, WorkerHandles(starts))
    ensures Inv(Handled(s, starts))
  {
    if IsAnswer(s.batch[0]) {
      HandledAnswerKeeps(s, starts);
    } else if s.batch[0].Reload? {
      HandledReloadKeeps(s, starts);
    } else {
      HandledRoleKeeps(s, starts);
    }
  }

  lemma StepKeeps(s: System, e: Event)
    requires Inv(s) && Enabled(s, e)
    ensures Inv(Do(s, e))
  {
    match e {
      case DaemonReads => DaemonReadsKeeps(s);
      case DaemonDecides(accepts, restart) => DaemonDecidesKeeps(s, accepts, restart);
      case DaemonAnswers => DaemonAnswersKeeps(s);
      case DaemonSays(m) => DaemonSaysKeeps(s, m);
      case WorkerReads(n) => WorkerReadsKeeps(s, n);
      case WorkerHandles(starts) => HandledKeeps(s, starts);
      case ReloadEnds(read) => ReloadEndsKeeps(s, read);
      case Signalled => SignalledKeeps(s);
      case Attaches(stale, active, applied) => AttachesKeeps(s, stale, active, applied);
      case BecomesActive => ElsewhereKeeps(s, e);
      case OtherCopyApplies(_) => ElsewhereKeeps(s, e);
      case _ => ClosingKeeps(s, e);
    }
  }

  /** A run: the state after each event, from an initial one. */
  predicate IsRun(states: seq<System>, events: seq<Event>) {
    && |states| == |events| + 1
    && Initial(states[0])
    && forall i :: 0 <= i < |events| ==> Enabled(states[i], events[i]) && states[i + 1] == Do(states[i], events[i])
  }

  lemma {:induction false} RunKeeps(states: seq<System>, events: seq<Event>)
    requires IsRun(states, events)
    ensures Inv(states[|events|])
    decreases |events|
  {
    if events != [] {
      var n := |events| - 1;
      RunKeeps(states[..n + 1], events[..n]);
      StepKeeps(states[n], events[n]);
    }
  }

  // ----- What runs guarantee -----

  /**
    While this copy's session is open and it hasn't left: once every config it
    sent was answered, the document it takes for pushed is the one of the tasks
    it runs, and the one RunWisp runs.
   */
  lemma ConfigsAgree(states: seq<System>, events: seq<Event>)
    requires IsRun(states, events)
    ensures var s := states[|events|];
            s.Open() && !s.w.leaving && s.w.pending == [] && s.w.pushed.Some? ==>
              s.w.pushed == DocumentOf(s.w.now) && s.applied == s.w.pushed && s.active
  {
    RunKeeps(states, events);
  }

  /** Answers carry no id, and yet each one meets the config it answers: pending is what is on the wire, in order. */
  lemma AnswersMeetTheirConfigs(states: seq<System>, events: seq<Event>)
    requires IsRun(states, events)
    ensures var s := states[|events|];
            s.Open() ==>
              && Docs(s.w.now, s.w.pending) == Somes(OnTheWire(s))
              && AnswersIn(s.batch + s.down + s.ready) == Oks(s.decided)
  {
    RunKeeps(states, events);
  }

  /** This copy's own config is only ever the oldest unanswered one, so two of its own are never under way. */
  lemma OwnConfigIsOldest(states: seq<System>, events: seq<Event>)
    requires IsRun(states, events)
    ensures var pending := states[|events|].w.pending;
            forall i :: 0 < i < |pending| ==> pending[i].Some?
  {
    RunKeeps(states, events);
  }

  /** Building the document never throws once the worker runs: a reload is refused before it could make it. */
  lemma DocumentNeverThrows(states: seq<System>, events: seq<Event>)
    requires IsRun(states, events)
    ensures DocumentOf(states[|events|].w.now).Some?
  {
    RunKeeps(states, events);
  }

  /**
    The tasks change in one way only: by an acceptance, to what a reload read,
    and on an open session to a definition whose document the daemon accepted.
    Any other step, a rejection above all, leaves them as they were.
   */
  lemma TasksChangeOnlyByAcceptance(states: seq<System>, events: seq<Event>, e: Event)
    requires IsRun(states, events) && Enabled(states[|events|], e)
    requires Do(states[|events|], e).w.now != states[|events|].w.now
    ensures var s, now := states[|events|], Do(states[|events|], e).w.now;
            && e.WorkerHandles? && s.batch[0] == ConfigOk
            && s.w.pending != [] && s.w.pending[0] == Some(now)
            && (s.Open() ==> s.decided != [] && Some(s.decided[0].doc) == DocumentOf(now) && s.decided[0].ok)
  {
    var s := states[|events|];
    RunKeeps(states, events);
    OnlyHandlingChangesTasks(s, e);
    if s.Open() {
      AnswerMatches(s);
    }
  }

  lemma OnlyAcceptanceChangesTasks(w: State, m: FromDaemon, starts: bool)
    requires DocumentOf(w.now).Some?
    ensures var now := Received(w, m, starts).state.now;
            now != w.now ==> m == ConfigOk && w.pending != [] && w.pending[0] == Some(now)
  {
  }

  lemma OnlyHandlingChangesTasks(s: System, e: Event)
    requires Enabled(s, e) && Do(s, e).w.now != s.w.now
    ensures e.WorkerHandles? && s.batch[0] == ConfigOk
    ensures s.w.pending != [] && s.w.pending[0] == Some(Do(s, e).w.now)
  {
    if e.WorkerHandles? {
      OnlyAcceptanceChangesTasks(s.w, s.batch[0], e.starts);
      assert Do(s, e).w == Received(s.w, s.batch[0], e.starts).state;
    }
  }

  /**
    With no reload under way, every reload id heard on the open session was
    answered exactly once if and only if none of them came while a reload of an
    earlier session was still running, the case startReload lets join that one.
   */
  lemma ReloadsAnsweredOnce(states: seq<System>, events: seq<Event>)
    requires IsRun(states, events)
    requires states[|events|].Open() && states[|events|].w.reloading == None
    ensures var s := states[|events|];
            multiset(s.asked) == multiset(s.given) <==> s.stray == []
  {
    var s := states[|events|];
    RunKeeps(states, events);
    assert multiset(s.asked) == multiset(s.given) + multiset(s.stray);
    if s.stray != [] {
      assert s.stray[0] in multiset(s.stray);
      assert multiset(s.asked)[s.stray[0]] > multiset(s.given)[s.stray[0]];
    }
  }

  /** The state after events that are each enabled in turn. */
  function After(s: System, events: seq<Event>): Option<System>
    decreases |events|
  {
    if events == [] then Some(s)
    else if Enabled(s, events[0]) then After(Do(s, events[0]), events[1..])
    else None
  }

  lemma {:induction false} RunOf(s: System, events: seq<Event>) returns (states: seq<System>)
    requires After(s, events).Some?
    ensures |states| == |events| + 1 && states[0] == s && Some(states[|events|]) == After(s, events)
    ensures forall i :: 0 <= i < |events| ==> Enabled(states[i], events[i]) && states[i + 1] == Do(states[i], events[i])
    decreases |events|
  {
    if events == [] {
      states := [s];
    } else {
      var rest := RunOf(Do(s, events[0]), events[1..]);
      states := [s] + rest;
    }
  }

  lemma {:induction false} AfterConcat(s: System, a: seq<Event>, b: seq<Event>)
    requires After(s, a).Some?
    ensures After(s, a + b) == After(After(s, a).value, b)
    decreases |a|
  {
    if a == [] {
      assert a + b == b;
    } else {
      assert (a + b)[0] == a[0] && (a + b)[1..] == a[1..] + b;
      AfterConcat(Do(s, a[0]), a[1..], b);
    }
  }

  /** A session opens, and the daemon asks for a reload on it. */
  function AsksReload(id: string): seq<Event> {
    [Attaches(false, true, None), DaemonSays(Reload(id)), WorkerReads(1), WorkerHandles(true)]
  }

  lemma AfterOne(s: System, e: Event, rest: seq<Event>)
    requires Enabled(s, e)
    ensures After(s, [e] + rest) == After(Do(s, e), rest)
  {
    assert ([e] + rest)[0] == e && ([e] + rest)[1..] == rest;
  }

  /** The state once the daemon asked for a reload on the session that opened. */
  function Joined(t: System, id: string): System
    requires DocumentOf(t.w.now).Some?
  {
    t.(w := ReloadStarted(t.w, id, true).state, asked := t.asked + [id],
       stray := if t.w.reloading.Some? && t.w.reloading.value.session != t.w.conn.id then t.stray + [id] else t.stray)
  }

  lemma AfterAsking(s: System, id: string)
    requires Enabled(s, Attaches(false, true, None)) && DocumentOf(s.w.now).Some?
    ensures var t := Do(s, Attaches(false, true, None));
            DocumentOf(t.w.now).Some? && After(s, AsksReload(id)) == Some(Joined(t, id))
  {
    var t := Do(s, Attaches(false, true, None));
    HearsReload(t, id);
    var said := Do(t, DaemonSays(Reload(id)));
    var read := Do(said, WorkerReads(1));
    var asks := [DaemonSays(Reload(id))] + ([WorkerReads(1)] + ([WorkerHandles(true)] + []));
    AfterOne(read, WorkerHandles(true), []);
    AfterOne(said, WorkerReads(1), [WorkerHandles(true)] + []);
    AfterOne(t, DaemonSays(Reload(id)), [WorkerReads(1)] + ([WorkerHandles(true)] + []));
    AfterOne(s, Attaches(false, true, None), asks);
    assert AsksReload(id) == [Attaches(false, true, None)] + asks;
  }

  /** Hearing a reload request on an otherwise quiet session. */
  lemma HearsReload(s: System, id: string)
    requires s.Open() && s.down == [] && s.batch == [] && DocumentOf(s.w.now).Some?
    ensures var said := Do(s, DaemonSays(Reload(id)));
            && Enabled(said, WorkerReads(1))
            && var read := Do(said, WorkerReads(1));
            && Enabled(read, WorkerHandles(true))
            && Do(read, WorkerHandles(true)) == Joined(s, id)
  {
    assert [Reload(id)][..1] == [Reload(id)];
    assert Parsed(s.w.conn, [Reload(id)]) == s.w.conn;
    assert s.up + [] == s.up && s.given + [] == s.given;
  }

  /** The session breaks while its reload runs, the next one asks again, then the reload ends. */
  function SecondReload(id: string, read: Definition): seq<Event> {
    AsksReload("1") + ([Breaks, TickEnds] + (AsksReload(id) + [ReloadEnds(Some(read))]))
  }

  lemma AfterBreaking(s: System)
    requires s.Open() && s.batch == []
    ensures After(s, [Breaks, TickEnds]) == Some(s.(w := s.w.(attached := false, conn := s.w.conn.(closed := true))))
  {
    var broken := Do(s, Breaks);
    assert After(broken, [TickEnds]) == Some(Do(broken, TickEnds));
    assert [Breaks, TickEnds][1..] == [TickEnds];
  }

  /** A reload of an earlier session runs when the next one asks, and ends. */
  lemma JoinsAndEnds(s: System, id: string, read: Definition)
    requires Enabled(s, Attaches(false, true, None)) && DocumentOf(s.w.now).Some?
    requires s.w.reloading.Some? && s.w.reloading.value.session != s.w.conn.id + 1
    ensures var t := After(s, AsksReload(id) + [ReloadEnds(Some(read))]);
            t.Some? && t.value.Open() && t.value.w.reloading == None && t.value.asked == [id] && t.value.given == []
  {
    var ends := [ReloadEnds(Some(read))];
    AfterAsking(s, id);
    var joined := After(s, AsksReload(id)).value;
    AfterConcat(s, AsksReload(id), ends);
    assert After(joined, ends) == Some(Do(joined, ends[0]));
  }

  lemma LosesTheReload(s: System, id: string, read: Definition)
    requires Initial(s)
    ensures var t := After(s, SecondReload(id, read));
            t.Some? && t.value.Open() && t.value.w.reloading == None && t.value.asked == [id] && t.value.given == []
  {
    var later := AsksReload(id) + [ReloadEnds(Some(read))];
    AfterAsking(s, "1");
    var asked := After(s, AsksReload("1")).value;
    AfterConcat(s, AsksReload("1"), [Breaks, TickEnds] + later);
    AfterBreaking(asked);
    AfterConcat(asked, [Breaks, TickEnds], later);
    JoinsAndEnds(After(asked, [Breaks, TickEnds]).value, id, read);
  }

  /** A reload id that is never answered: it joined the reload of a session that is gone. */
  lemma ReloadLost(s: System, id: string, read: Definition) returns (states: seq<System>)
    requires Initial(s)
    ensures var events := SecondReload(id, read);
            IsRun(states, events) && var t := states[|events|];
            t.Open() && t.w.reloading == None && t.asked == [id] && t.given == []
  {
    LosesTheReload(s, id, read);
    states := RunOf(s, SecondReload(id, read));
  }
}
