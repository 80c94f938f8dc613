/** The embedded server's fan-out: one broadcast log, and per connection a
    subscription table, a receive cursor that may lag, and the messages written. */
module Fanout {
  import opened Text
  import opened Matcher
  import opened Order
  import opened Utf8
  import opened Wire

  // -------------------------------------------------------------------- router

  predicate Hit(subs: map<string, string>, subject: string, sid: string) {
    sid in subs && Matches(subs[sid], subject)
  }

  /** The matching sids, each once, in table order. */
  ghost predicate IsMatching(sids: seq<string>, subs: map<string, string>, subject: string) {
    Ascending(sids) && forall sid :: sid in sids <==> Hit(subs, subject, sid)
  }

  lemma MatchingUnique(a: seq<string>, b: seq<string>, subs: map<string, string>, subject: string)
    requires IsMatching(a, subs, subject) && IsMatching(b, subs, subject)
    ensures a == b
  {
    AscendingUnique(a, b);
  }

  class Router {
    var subscriptions: map<string, string>

    constructor ()
      ensures subscriptions == map[]
    {
      subscriptions := map[];
    }

    method Add(sid: string, pattern: string)
      modifies this
      ensures subscriptions == old(subscriptions)[sid := pattern]
    {
      subscriptions := subscriptions[sid := pattern];
    }

    method Remove(sid: string)
      modifies this
      ensures subscriptions == old(subscriptions) - {sid}
    {
      subscriptions := subscriptions - {sid};
    }

    /** Walk the table in key order, keeping the sids whose pattern matches. */
    method Matching(subject: string) returns (sids: seq<string>)
      ensures IsMatching(sids, subscriptions, subject)
    {
      sids := [];
      var todo := subscriptions.Keys;
      while todo != {}
        invariant todo <= subscriptions.Keys
        invariant Ascending(sids)
        invariant forall sid :: sid in sids <==> Hit(subscriptions, subject, sid) && sid !in todo
        invariant forall i, sid :: 0 <= i < |sids| && sid in todo ==> Less(sids[i], sid)
        decreases |todo|
      {
        HasFirst(todo);
        var sid :| First(sid, todo);
        var hit := MatchLoop(subscriptions[sid], subject);
        if hit {
          sids := sids + [sid];
        }
        todo := todo - {sid};
      }
    }
  }

  // ---------------------------------------------------- connections and the log

  const CAPACITY := 1024

  /** A MSG frame written: which publication, to which sid. */
  datatype Sent = Sent(index: nat, sid: string)

  datatype Client = Client(subs: map<string, string>, cursor: nat, written: seq<Sent>, open: bool)

  datatype Server = Server(log: seq<Delivery>, clients: map<nat, Client>)

  datatype Event =
    | Accept(c: nat)
    | Message(c: nat, msg: ClientMsg)
    | Receive(c: nat, sids: seq<string>)
    | WriteError(c: nat, sids: seq<string>)
    | Hangup(c: nat)

  function Marks(index: nat, sids: seq<string>): (r: seq<Sent>)
    ensures |r| == |sids| && forall i :: 0 <= i < |r| ==> r[i] == Sent(index, sids[i])
  {
    seq(|sids|, i requires 0 <= i < |sids| => Sent(index, sids[i]))
  }

  /** What a client message does to its own connection. */
  function OnMessage(k: Client, msg: ClientMsg): Client {
    match msg
    case Sub(subject, _, sid) => k.(subs := k.subs[sid := subject])
    case Unsub(sid, _) => k.(subs := k.subs - {sid})
    case _ => k
  }

  function OnPublish(log: seq<Delivery>, msg: ClientMsg): seq<Delivery> {
    if msg.Pub? then log + [Delivery(msg.subject, msg.reply, msg.payload)] else log
  }

  /** The receiver has fallen out of the channel's buffer. */
  predicate Lagging(k: Client, log: seq<Delivery>) { |log| > k.cursor + CAPACITY }

  /** One receive: skip to the oldest buffered publication, or write the frames. */
  function OnReceive(k: Client, log: seq<Delivery>, sids: seq<string>): Client {
    if Lagging(k, log) then k.(cursor := |log| - CAPACITY)
    else k.(cursor := k.cursor + 1, written := k.written + Marks(k.cursor, sids))
  }

  /** A receive that has something to receive, and writes to the matching sids. */
  ghost predicate Receives(k: Client, log: seq<Delivery>, sids: seq<string>) {
    k.open && k.cursor < |log| && (!Lagging(k, log) ==> IsMatching(sids, k.subs, log[k.cursor].subject))
  }

  ghost predicate Step(s: Server, e: Event, t: Server) {
    match e
    case Accept(c) => c !in s.clients && t == s.(clients := s.clients[c := Client(map[], |s.log|, [], true)])
    case Message(c, msg) =>
      c in s.clients && s.clients[c].open
      && t == Server(OnPublish(s.log, msg), s.clients[c := OnMessage(s.clients[c], msg)])
    case Receive(c, sids) =>
      c in s.clients && Receives(s.clients[c], s.log, sids)
      && t == s.(clients := s.clients[c := OnReceive(s.clients[c], s.log, sids)])
    case WriteError(c, sids) =>
      // a write fails after the frames for `sids`, a prefix of the matching ones
      c in s.clients && !Lagging(s.clients[c], s.log)
      && (exists all :: Receives(s.clients[c], s.log, all) && sids <= all)
      && t == s.(clients := s.clients[c := OnReceive(s.clients[c], s.log, sids).(open := false)])
    case Hangup(c) =>
      c in s.clients && t == s.(clients := s.clients[c := s.clients[c].(open := false)])
  }

  ghost predicate StepAt(states: seq<Server>, events: seq<Event>, i: nat)
    requires i < |events| && |states| == |events| + 1
  {
    Step(states[i], events[i], states[i + 1])
  }

  ghost predicate Run(states: seq<Server>, events: seq<Event>) {
    |states| == |events| + 1 && forall i :: 0 <= i < |events| ==> StepAt(states, events, i)
  }

  // ----------------------------------------------------------- what a step does

  lemma LogGrows(s: Server, e: Event, t: Server)
    requires Step(s, e, t)
    ensures s.log <= t.log
    ensures forall c :: c in s.clients ==> c in t.clients
  {
  }

  /** The publication index and sid of each frame rise through the output. */
  predicate Before(a: Sent, b: Sent) { a.index < b.index || (a.index == b.index && Less(a.sid, b.sid)) }

  predicate InOrder(w: seq<Sent>) { forall i, j :: 0 <= i < j < |w| ==> Before(w[i], w[j]) }

  predicate Sane(k: Client, log: seq<Delivery>) {
    k.cursor <= |log| && InOrder(k.written) && forall i :: 0 <= i < |k.written| ==> k.written[i].index < k.cursor
  }

  predicate AllSane(s: Server) { forall c :: c in s.clients ==> Sane(s.clients[c], s.log) }

  lemma ReceiveSane(k: Client, log: seq<Delivery>, sids: seq<string>)
    requires Sane(k, log) && k.cursor < |log| && (Lagging(k, log) || Ascending(sids))
    ensures Sane(OnReceive(k, log, sids), log)
  {
  }

  lemma StepSane(s: Server, e: Event, t: Server)
    requires Step(s, e, t) && AllSane(s)
    ensures AllSane(t)
  {
    match e
    case Receive(c, sids) => ReceiveSane(s.clients[c], s.log, sids);
    case WriteError(c, sids) => ReceiveSane(s.clients[c], s.log, sids);
    case _ =>
  }

  lemma {:induction false} RunSane(states: seq<Server>, events: seq<Event>, n: nat)
    requires Run(states, events) && AllSane(states[0]) && n < |states|
    ensures AllSane(states[n])
  {
    if n > 0 {
      RunSane(states, events, n - 1);
      assert StepAt(states, events, n - 1);
      StepSane(states[n - 1], events[n - 1], states[n]);
    }
  }

  // ---------------------------------------------------------- one sid's messages

  /** The publications written for a sid, in the order written. */
  function For(w: seq<Sent>, sid: string): (r: seq<nat>)
    ensures forall i :: i in r ==> Sent(i, sid) in w
  {
    if w == [] then []
    else
      var last := w[|w| - 1];
      For(w[..|w| - 1], sid) + (if last.sid == sid then [last.index] else [])
  }

  predicate Rising(r: seq<nat>) { forall i, j :: 0 <= i < j < |r| ==> r[i] < r[j] }

  lemma {:induction false} InOrderRises(w: seq<Sent>, sid: string)
    requires InOrder(w)
    ensures Rising(For(w, sid))
  {
    if w != [] {
      var front, last := w[..|w| - 1], w[|w| - 1];
      InOrderRises(front, sid);
      if last.sid == sid {
        var r := For(front, sid);
        forall i | 0 <= i < |r| ensures r[i] < last.index {
          assert r[i] in r;
          var at :| 0 <= at < |front| && front[at] == Sent(r[i], sid);
          assert Before(w[at], w[|w| - 1]);
          LessTotal(sid, sid);
        }
      }
    }
  }

  /** FAN-OUT ORDER. In every interleaving, each sid's messages are a subsequence
      of the global publish order, each publication at most once. */
  lemma WrittenInPublishOrder(states: seq<Server>, events: seq<Event>, n: nat, c: nat, sid: string)
    requires Run(states, events) && states[0] == Server([], map[]) && n < |states| && c in states[n].clients
    ensures var r := For(states[n].clients[c].written, sid);
      Rising(r) && forall i :: 0 <= i < |r| ==> r[i] < |states[n].log|
  {
    RunSane(states, events, n);
    var w := states[n].clients[c].written;
    InOrderRises(w, sid);
    var r := For(w, sid);
    forall i | 0 <= i < |r| ensures r[i] < |states[n].log| {
      assert r[i] in r;
      assert Sent(r[i], sid) in w;
    }
  }

  lemma {:induction false} ForMarks(w: seq<Sent>, index: nat, sids: seq<string>, sid: string)
    requires Ascending(sids)
    ensures For(w + Marks(index, sids), sid) == For(w, sid) + (if sid in sids then [index] else [])
  {
    var all := w + Marks(index, sids);
    if sids == [] {
      assert all == w;
    } else {
      var front, last := sids[..|sids| - 1], sids[|sids| - 1];
      assert all[..|all| - 1] == w + Marks(index, front);
      assert all[|all| - 1] == Sent(index, last);
      ForMarks(w, index, front, sid);
      assert sids == front + [last];
      LessTotal(sid, sid);
    }
  }

  // ------------------------------------------------ what happens to one sid when

  /** The event may touch the client's subscription under this sid. */
  predicate Touches(e: Event, c: nat, sid: string) {
    e.Message? && e.c == c && ((e.msg.Sub? && e.msg.sid == sid) || (e.msg.Unsub? && e.msg.sid == sid))
  }

  predicate Subscribes(e: Event, c: nat, sid: string) { e.Message? && e.c == c && e.msg.Sub? && e.msg.sid == sid }

  lemma MatchingHas(sids: seq<string>, subs: map<string, string>, subject: string, sid: string)
    requires IsMatching(sids, subs, subject)
    ensures sid in sids <==> Hit(subs, subject, sid)
  {
  }

  lemma PrefixAscending(sids: seq<string>, all: seq<string>)
    requires sids <= all && Ascending(all)
    ensures Ascending(sids) && forall x :: x in sids ==> x in all
  {
  }

  /** A step adds a message for a sid only where its live pattern matches the
      publication at the cursor. */
  lemma StepWrites(s: Server, e: Event, t: Server, c: nat, sid: string)
    requires Step(s, e, t) && c in s.clients
    ensures var k, m := s.clients[c], t.clients[c];
      For(m.written, sid) == For(k.written, sid)
      || (k.cursor < |s.log| && Hit(k.subs, s.log[k.cursor].subject, sid)
          && For(m.written, sid) == For(k.written, sid) + [k.cursor] && m.cursor == k.cursor + 1)
  {
    var k := s.clients[c];
    if e.c == c && e.Receive? && !Lagging(k, s.log) {
      ForMarks(k.written, k.cursor, e.sids, sid);
      MatchingHas(e.sids, k.subs, s.log[k.cursor].subject, sid);
    } else if e.c == c && e.WriteError? {
      var all :| Receives(k, s.log, all) && e.sids <= all;
      PrefixAscending(e.sids, all);
      ForMarks(k.written, k.cursor, e.sids, sid);
      MatchingHas(all, k.subs, s.log[k.cursor].subject, sid);
    }
  }

  lemma Appears(s: Server, e: Event, t: Server, c: nat)
    requires Step(s, e, t) && c in t.clients && t.clients[c].written != []
    ensures c in s.clients
  {
  }

  /** At most one message is added to a sid by one step, so a written message has
      one step that wrote it; there its pattern was live and matched. */
  lemma {:induction false} WrittenMatched(states: seq<Server>, events: seq<Event>, n: nat, c: nat, sid: string, x: nat)
      returns (i: nat)
    requires Run(states, events) && states[0] == Server([], map[]) && n < |states| && c in states[n].clients
    requires x in For(states[n].clients[c].written, sid)
    ensures i < n && c in states[i].clients && c in states[i + 1].clients
    ensures states[i].clients[c].cursor == x < |states[i].log|
    ensures Hit(states[i].clients[c].subs, states[i].log[x].subject, sid)
    ensures states[i].log <= states[n].log
    ensures For(states[i + 1].clients[c].written, sid) == For(states[i].clients[c].written, sid) + [x]
  {
    assert n > 0;
    assert StepAt(states, events, n - 1);
    var wrote := StepWrote(states[n - 1], events[n - 1], states[n], c, sid, x);
    if wrote {
      i := n - 1;
    } else {
      i := WrittenMatched(states, events, n - 1, c, sid, x);
    }
  }

  /** A message written by the end of a step was written before it, or by it. */
  lemma StepWrote(s: Server, e: Event, t: Server, c: nat, sid: string, x: nat) returns (wrote: bool)
    requires Step(s, e, t) && c in t.clients && x in For(t.clients[c].written, sid)
    ensures c in s.clients && s.log <= t.log
    ensures !wrote ==> x in For(s.clients[c].written, sid)
    ensures wrote ==> s.clients[c].cursor == x < |s.log| && Hit(s.clients[c].subs, s.log[x].subject, sid)
    ensures wrote ==> For(t.clients[c].written, sid) == For(s.clients[c].written, sid) + [x]
  {
    Appears(s, e, t, c);
    LogGrows(s, e, t);
    StepWrites(s, e, t, c, sid);
    wrote := x !in For(s.clients[c].written, sid);
  }

  lemma StepUnsubscribed(s: Server, e: Event, t: Server, c: nat, sid: string)
    requires Step(s, e, t) && c in s.clients && sid !in s.clients[c].subs && !Subscribes(e, c, sid)
    ensures sid !in t.clients[c].subs && For(t.clients[c].written, sid) == For(s.clients[c].written, sid)
  {
    StepWrites(s, e, t, c, sid);
  }

  /** UNSUB IS FINAL. From a state without the subscription, nothing more is
      written for the sid until the client subscribes it again. */
  lemma {:induction false} SilentUntilSub(states: seq<Server>, events: seq<Event>, i: nat, j: nat, c: nat, sid: string)
    requires Run(states, events) && i <= j < |states| && c in states[i].clients
    requires sid !in states[i].clients[c].subs
    requires forall n :: i <= n < j ==> !Subscribes(events[n], c, sid)
    ensures c in states[j].clients && sid !in states[j].clients[c].subs
    ensures For(states[j].clients[c].written, sid) == For(states[i].clients[c].written, sid)
  {
    if i < j {
      SilentUntilSub(states, events, i, j - 1, c, sid);
      assert StepAt(states, events, j - 1);
      LogGrows(states[j - 1], events[j - 1], states[j]);
      StepUnsubscribed(states[j - 1], events[j - 1], states[j], c, sid);
    }
  }

  /** After an UNSUB, whatever maximum it names, nothing is written for the sid
      until a new SUB. */
  lemma UnsubSilences(states: seq<Server>, events: seq<Event>, i: nat, j: nat, c: nat, sid: string, max: Option<nat>)
    requires Run(states, events) && i < j < |states| && events[i] == Message(c, Unsub(sid, max))
    requires forall n :: i < n < j ==> !Subscribes(events[n], c, sid)
    ensures c in states[i].clients && c in states[j].clients
    ensures For(states[j].clients[c].written, sid) == For(states[i].clients[c].written, sid)
  {
    assert StepAt(states, events, i);
    SilentUntilSub(states, events, i + 1, j, c, sid);
  }

  // ------------------------------------------------------------- exact delivery

  /** The publications from `a` to `b` that a pattern matches. */
  function Due(log: seq<Delivery>, pattern: string, a: nat, b: nat): seq<nat>
    requires a <= b <= |log|
    decreases b - a
  {
    if a == b then [] else Due(log, pattern, a, b - 1) + (if Matches(pattern, log[b - 1].subject) then [b - 1] else [])
  }

  lemma {:induction false} DuePrefix(log: seq<Delivery>, more: seq<Delivery>, pattern: string, a: nat, b: nat)
    requires a <= b <= |log| && log <= more
    ensures Due(log, pattern, a, b) == Due(more, pattern, a, b)
    decreases b - a
  {
    if a < b {
      DuePrefix(log, more, pattern, a, b - 1);
    }
  }

  /** Neither lag nor a write error strikes the client at this step. */
  predicate Smooth(s: Server, e: Event, c: nat) {
    e.c == c ==> !e.WriteError? && (e.Receive? && c in s.clients ==> !Lagging(s.clients[c], s.log))
  }

  lemma StepDelivers(s: Server, e: Event, t: Server, c: nat, sid: string, pattern: string)
    requires Step(s, e, t) && c in s.clients && Smooth(s, e, c) && !Touches(e, c, sid)
    requires sid in s.clients[c].subs && s.clients[c].subs[sid] == pattern
    requires s.clients[c].cursor <= |s.log|
    ensures var k, m := s.clients[c], t.clients[c];
      sid in m.subs && m.subs[sid] == pattern && k.cursor <= m.cursor <= k.cursor + 1 && m.cursor <= |t.log|
      && For(m.written, sid) == For(k.written, sid)
        + (if m.cursor > k.cursor && Matches(pattern, t.log[k.cursor].subject) then [k.cursor] else [])
  {
    var k := s.clients[c];
    if e.c == c && e.Receive? {
      ForMarks(k.written, k.cursor, e.sids, sid);
      MatchingHas(e.sids, k.subs, s.log[k.cursor].subject, sid);
    }
  }

  /** EXACT DELIVERY. While a subscription stands and the client neither lags nor
      fails, its new messages are exactly the matching publications between the
      two cursor positions, in publish order, with none lost. */
  lemma {:induction false} DeliveredExactly(states: seq<Server>, events: seq<Event>, i: nat, j: nat, c: nat, sid: string)
    requires Run(states, events) && i <= j < |states| && c in states[i].clients
    requires sid in states[i].clients[c].subs && states[i].clients[c].cursor <= |states[i].log|
    requires forall n :: i <= n < j ==> !Touches(events[n], c, sid) && Smooth(states[n], events[n], c)
    ensures c in states[j].clients
    ensures var k, m := states[i].clients[c], states[j].clients[c];
      && k.cursor <= m.cursor <= |states[j].log|
      && sid in m.subs && m.subs[sid] == k.subs[sid]
      && For(m.written, sid) == For(k.written, sid) + Due(states[j].log, k.subs[sid], k.cursor, m.cursor)
  {
    if i < j {
      DeliveredExactly(states, events, i, j - 1, c, sid);
      assert StepAt(states, events, j - 1);
      DeliverMore(states[i].clients[c], states[j - 1], events[j - 1], states[j], c, sid);
    }
  }

  lemma DeliverMore(k: Client, s: Server, e: Event, t: Server, c: nat, sid: string)
    requires Step(s, e, t) && c in s.clients && Smooth(s, e, c) && !Touches(e, c, sid) && sid in k.subs
    requires k.cursor <= s.clients[c].cursor <= |s.log|
    requires sid in s.clients[c].subs && s.clients[c].subs[sid] == k.subs[sid]
    requires For(s.clients[c].written, sid) == For(k.written, sid) + Due(s.log, k.subs[sid], k.cursor, s.clients[c].cursor)
    ensures c in t.clients && k.cursor <= t.clients[c].cursor <= |t.log|
    ensures sid in t.clients[c].subs && t.clients[c].subs[sid] == k.subs[sid]
    ensures For(t.clients[c].written, sid) == For(k.written, sid) + Due(t.log, k.subs[sid], k.cursor, t.clients[c].cursor)
  {
    var p, from, to := k.subs[sid], s.clients[c].cursor, t.clients[c].cursor;
    LogGrows(s, e, t);
    StepDelivers(s, e, t, c, sid, p);
    DuePrefix(s.log, t.log, p, k.cursor, from);
    DueStep(t.log, p, k.cursor, from, to);
    Regrouped(For(k.written, sid), Due(t.log, p, k.cursor, from),
      if to > from && Matches(p, t.log[from].subject) then [from] else []);
  }

  lemma DueStep(log: seq<Delivery>, p: string, a: nat, b: nat, to: nat)
    requires a <= b <= to <= b + 1 && to <= |log|
    ensures Due(log, p, a, to) == Due(log, p, a, b) + (if to > b && Matches(p, log[b].subject) then [b] else [])
  {
  }

  lemma Regrouped(a: seq<nat>, b: seq<nat>, c: seq<nat>)
    ensures a + b + c == a + (b + c)
  {
  }

  /** The cursor passes a publication only by writing it or by lagging past it. */
  lemma StepPasses(s: Server, e: Event, t: Server, c: nat, sid: string, x: nat)
    requires Step(s, e, t) && c in s.clients && !(e.WriteError? && e.c == c)
    requires s.clients[c].cursor <= x < t.clients[c].cursor && x < |s.log|
    requires Hit(s.clients[c].subs, s.log[x].subject, sid)
    ensures x in For(t.clients[c].written, sid) || |s.log| > x + CAPACITY
  {
    var k := s.clients[c];
    if !Lagging(k, s.log) {
      ForMarks(k.written, k.cursor, e.sids, sid);
      MatchingHas(e.sids, k.subs, s.log[x].subject, sid);
    }
  }

  lemma StandingStep(s: Server, e: Event, t: Server, c: nat, sid: string)
    requires Step(s, e, t) && c in s.clients && !Touches(e, c, sid) && sid in s.clients[c].subs
    ensures sid in t.clients[c].subs && t.clients[c].subs[sid] == s.clients[c].subs[sid]
  {
  }

  lemma {:induction false} Standing(states: seq<Server>, events: seq<Event>, i: nat, j: nat, c: nat, sid: string)
    requires Run(states, events) && i <= j < |states| && c in states[i].clients && sid in states[i].clients[c].subs
    requires forall n :: i <= n < j ==> !Touches(events[n], c, sid)
    ensures c in states[j].clients && sid in states[j].clients[c].subs
    ensures states[j].clients[c].subs[sid] == states[i].clients[c].subs[sid]
  {
    if i < j {
      Standing(states, events, i, j - 1, c, sid);
      assert StepAt(states, events, j - 1);
      LogGrows(states[j - 1], events[j - 1], states[j]);
      StandingStep(states[j - 1], events[j - 1], states[j], c, sid);
    }
  }

  /** LOSS IS LAG. With lag allowed: a matching publication the cursor passed while
      the subscription stood is missing from the output only if, while the cursor
      had not passed it, more than 1024 publications had followed it. */
  lemma {:induction false} MissedMeansLagged(
      states: seq<Server>, events: seq<Event>, i: nat, j: nat, c: nat, sid: string, x: nat) returns (n: nat)
    requires Run(states, events) && AllSane(states[0]) && i <= j < |states| && c in states[i].clients
    requires sid in states[i].clients[c].subs
    requires forall n :: i <= n < j ==> !Touches(events[n], c, sid) && !(events[n].WriteError? && events[n].c == c)
    requires c in states[j].clients && states[i].clients[c].cursor <= x < states[j].clients[c].cursor
    requires x < |states[j].log| && Matches(states[i].clients[c].subs[sid], states[j].log[x].subject)
    requires x !in For(states[j].clients[c].written, sid)
    ensures i <= n < j && c in states[n].clients && states[n].clients[c].cursor <= x
    ensures |states[n].log| > x + 1024
    decreases j
  {
    var s, e, t := states[j - 1], events[j - 1], states[j];
    assert StepAt(states, events, j - 1);
    Standing(states, events, i, j - 1, c, sid);
    RunSane(states, events, j - 1);
    LogGrows(s, e, t);
    StepWrites(s, e, t, c, sid);
    if s.clients[c].cursor > x {
      n := MissedMeansLagged(states, events, i, j - 1, c, sid, x);
    } else {
      assert x < |s.log|;
      StepPasses(s, e, t, c, sid, x);
      n := j - 1;
    }
  }

  // ---------------------------------------------------------- the program itself

  class Channel {
    var log: seq<Delivery>

    constructor ()
      ensures log == []
    {
      log := [];
    }

    method Send(d: Delivery)
      modifies this
      ensures log == old(log) + [d]
    {
      log := log + [d];
    }
  }

  /** The MSG frames of one publication, in the order of the sids. */
  function Frames(d: Delivery, sids: seq<string>): seq<byte> {
    if sids == [] then [] else Frames(d, sids[..|sids| - 1]) + MsgFrame(d, sids[|sids| - 1])
  }

  class Connection {
    const router: Router
    var cursor: nat
    var written: seq<Sent>
    var out: seq<byte>
    var open: bool

    ghost function View(): Client
      reads this, router
    {
      Client(router.subscriptions, cursor, written, open)
    }

    /** A connection subscribes to the channel when it is accepted. */
    constructor (channel: Channel)
      ensures View() == Client(map[], |channel.log|, [], true) && out == [] && fresh(router)
    {
      router := new Router();
      cursor := |channel.log|;
      written := [];
      out := [];
      open := true;
    }

    /** The arm of the loop that has read a client message. */
    method HandleMessage(msg: ClientMsg, channel: Channel)
      modifies this, router, channel
      ensures View() == OnMessage(old(View()), msg)
      ensures channel.log == OnPublish(old(channel.log), msg)
      ensures out == old(out) + (if msg.Ping? then [80, 79, 78, 71, 13, 10] else [])
    {
      match msg {
        case Connect(_) =>
        case Pong =>
        case Ping => out := out + [80, 79, 78, 71, 13, 10];
        case Sub(subject, _, sid) => router.Add(sid, subject);
        case Unsub(sid, _) => router.Remove(sid);
        case Pub(subject, reply, _, payload) => channel.Send(Delivery(subject, reply, payload));
      }
    }

    /** The arm of the loop that has something to receive. The connection fails
        after `failAfter` frames, if it has that many to write. */
    method HandleDelivery(channel: Channel, failAfter: Option<nat>) returns (sids: seq<string>)
      requires open && cursor < |channel.log|
      modifies this
      ensures Receives(old(View()), channel.log, sids)
      ensures View() == AfterWrites(old(View()), channel.log, sids, failAfter)
      ensures out == old(out)
        + (if Lagging(old(View()), channel.log) then [] else Frames(channel.log[old(cursor)], Written(sids, failAfter)))
    {
      if |channel.log| > cursor + CAPACITY {
        cursor := |channel.log| - CAPACITY;
        return [];
      }
      var d := channel.log[cursor];
      sids := router.Matching(d.subject);
      open := WriteAll(d, sids, failAfter);
      cursor := cursor + 1;
    }

    method WriteOne(d: Delivery, sid: string)
      modifies this`written, this`out
      ensures written == old(written) + [Sent(cursor, sid)] && out == old(out) + MsgFrame(d, sid)
    {
      var frame := WriteMsg(d, sid);
      written := written + [Sent(cursor, sid)];
      out := out + frame;
    }

    /** One frame per sid, until the socket fails. */
    method WriteAll(d: Delivery, sids: seq<string>, failAfter: Option<nat>) returns (ok: bool)
      modifies this`written, this`out
      ensures ok == !Fails(sids, failAfter)
      ensures written == old(written) + Marks(cursor, Written(sids, failAfter)) && out == old(out) + Frames(d, Written(sids, failAfter))
    {
      for i := 0 to |sids|
        invariant failAfter.Some? ==> i <= failAfter.value
        invariant written == old(written) + Marks(cursor, sids[..i])
        invariant out == old(out) + Frames(d, sids[..i])
      {
        if failAfter == Some(i) {
          return false;
        }
        FramesStep(old(out), d, sids, i);
        MarksStep(old(written), cursor, sids, i);
        WriteOne(d, sids[i]);
      }
      assert sids[..|sids|] == sids;
      return true;
    }
  }

  /** The socket fails before the last frame. */
  predicate Fails(sids: seq<string>, failAfter: Option<nat>) { failAfter.Some? && failAfter.value < |sids| }

  function Written(sids: seq<string>, failAfter: Option<nat>): seq<string> {
    if Fails(sids, failAfter) then sids[..failAfter.value] else sids
  }

  function AfterWrites(k: Client, log: seq<Delivery>, sids: seq<string>, failAfter: Option<nat>): Client {
    var m := OnReceive(k, log, Written(sids, failAfter));
    if !Lagging(k, log) && Fails(sids, failAfter) then m.(open := false) else m
  }

  /** Receiving, whether or not the socket fails midway, is a step of the server. */
  lemma DeliveryIsStep(s: Server, c: nat, sids: seq<string>, failAfter: Option<nat>)
    requires c in s.clients && Receives(s.clients[c], s.log, sids)
    ensures var t := s.(clients := s.clients[c := AfterWrites(s.clients[c], s.log, sids, failAfter)]);
      Step(s, Receive(c, sids), t) || Step(s, WriteError(c, Written(sids, failAfter)), t)
  {
    assert Written(sids, failAfter) <= sids;
  }

  lemma FramesStep(out: seq<byte>, d: Delivery, sids: seq<string>, i: nat)
    requires i < |sids|
    ensures out + Frames(d, sids[..i]) + MsgFrame(d, sids[i]) == out + Frames(d, sids[..i + 1])
  {
    assert sids[..i + 1][..i] == sids[..i];
    Regroup(out, Frames(d, sids[..i]), MsgFrame(d, sids[i]));
  }

  lemma MarksStep(written: seq<Sent>, index: nat, sids: seq<string>, i: nat)
    requires i < |sids|
    ensures written + Marks(index, sids[..i]) + [Sent(index, sids[i])] == written + Marks(index, sids[..i + 1])
  {
    assert Marks(index, sids[..i + 1]) == Marks(index, sids[..i]) + [Sent(index, sids[i])];
  }

  // ------------------------------------------------- what each step does, in numbers

  /** A receiver more than 1024 publications behind writes nothing and is put 1024
      behind; any other writes its publication and moves on by one. */
  lemma ReceiveExactly(k: Client, log: seq<Delivery>, sids: seq<string>)
    requires k.cursor < |log|
    ensures var m := OnReceive(k, log, sids);
      && m.subs == k.subs && m.open == k.open
      && (if |log| - k.cursor > 1024 then m.cursor == |log| - 1024 && m.written == k.written
          else
            && m.cursor == k.cursor + 1 && |m.written| == |k.written| + |sids| && m.written[..|k.written|] == k.written
            && forall i :: 0 <= i < |sids| ==> m.written[|k.written| + i] == Sent(k.cursor, sids[i]))
  {
  }

  /** SUB sets the pattern of its sid, UNSUB removes it, and no other message touches the
      table; PUB alone appends to the log. */
  lemma MessageExactly(k: Client, log: seq<Delivery>, msg: ClientMsg, sid: string)
    ensures var subs := OnMessage(k, msg).subs;
      && (msg.Sub? && msg.sid == sid ==> sid in subs && subs[sid] == msg.subject)
      && (msg.Unsub? && msg.sid == sid ==> sid !in subs)
      && (!(msg.Sub? && msg.sid == sid) && !(msg.Unsub? && msg.sid == sid) ==> (sid in subs <==> sid in k.subs) && (sid in subs ==> subs[sid] == k.subs[sid]))
    ensures OnMessage(k, msg) == k.(subs := OnMessage(k, msg).subs)
    ensures OnPublish(log, msg) == if msg.Pub? then log + [Delivery(msg.subject, msg.reply, msg.payload)] else log
  {
  }

  /** END TO END. What a subscriber reads back from the frame of a publication is the
      publisher's subject, reply and payload. */
  lemma PublishedIsReadBack(log: seq<Delivery>, msg: ClientMsg, sid: string, rest: seq<byte>)
    requires msg.Pub? && Sendable(msg) && Word(sid)
    ensures var after := OnPublish(log, msg);
      |after| == |log| + 1 && ReadMsg(MsgFrame(after[|log|], sid) + rest) == Some((Delivery(msg.subject, msg.reply, msg.payload), sid, rest))
  {
    MsgReadBack(Delivery(msg.subject, msg.reply, msg.payload), sid, rest);
  }

  /** A connection hears nothing published before it was accepted. */
  predicate SinceOnly(k: Client, start: nat) { k.cursor >= start && forall i :: 0 <= i < |k.written| ==> k.written[i].index >= start }

  lemma StepSince(s: Server, e: Event, t: Server, c: nat, start: nat)
    requires Step(s, e, t) && c in s.clients && SinceOnly(s.clients[c], start)
    ensures c in t.clients && SinceOnly(t.clients[c], start)
  {
  }

  lemma {:induction false} HearsOnlyLater(states: seq<Server>, events: seq<Event>, i: nat, j: nat, c: nat)
    requires Run(states, events) && i < j < |states| && events[i] == Accept(c)
    ensures c in states[j].clients && SinceOnly(states[j].clients[c], |states[i].log|)
  {
    if j == i + 1 {
      assert StepAt(states, events, i);
    } else {
      HearsOnlyLater(states, events, i, j - 1, c);
      assert StepAt(states, events, j - 1);
      StepSince(states[j - 1], events[j - 1], states[j], c, |states[i].log|);
    }
  }
}
