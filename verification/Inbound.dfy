/** The inbound bridge: the relay thread enqueues routed actions, the worker takes
    the whole queue and runs each action in its own transaction, replying to each. */
module Inbound {
  import opened Text
  import opened Utf8
  import Door

  const MAX_QUEUE := 1000

  datatype Action = Action(kernel: string, verb: string, payload: seq<byte>,
                           reply: string, headers: seq<(string, string)>, identity: Option<string>)

  // ---------------------------------------------------------- session settings

  /** A custom PostgreSQL setting inside a transaction: its present value, the value
      the session keeps if the transaction commits, and whether it was assigned. */
  datatype Setting = Setting(current: Option<string>, kept: Option<string>, touched: bool)

  datatype Session = Session(requester: Option<string>, project: Option<string>)

  datatype Txn = Txn(requester: Setting, project: Setting)

  function Enter(v: Option<string>): Setting { Setting(v, v, false) }

  function Begin(s: Session): Txn { Txn(Enter(s.requester), Enter(s.project)) }

  /** `set_config(_, v, true)`: until the end of the transaction. */
  function SetLocal(x: Setting, v: string): Setting { Setting(Some(v), x.kept, true) }

  /** `set_config(_, v, false)`: beyond the transaction, if it commits. */
  function SetSession(x: Setting, v: string): Setting { Setting(Some(v), Some(v), true) }

  /** A setting nobody had set reads as the empty text once it has been assigned. */
  function Leave(x: Setting): Option<string> {
    if x.kept.None? && x.touched then Some("") else x.kept
  }

  function Commit(t: Txn): Session { Session(Leave(t.requester), Leave(t.project)) }

  // --------------------------------------------------------------- one dispatch

  /** How the transaction's SQL ends: the dispatcher's result; a refusal caught by
      the wrapper, whose subtransaction is rolled back; or an SPI error before the
      requester (0), the project (1), the call (2) or the result (3). */
  datatype Outcome = Returned(json: Option<string>) | Refused(report: string) | Failed(stage: nat, error: string)

  /** What `ckp.dispatch` reads: the requester, and the project it then writes. */
  datatype Seen = Seen(requester: Option<string>, project: string)

  function WithRequester(t: Txn, a: Action): Txn {
    if a.identity.Some? then t.(requester := SetLocal(t.requester, a.identity.value)) else t
  }

  function WithProject(t: Txn, a: Action): Txn {
    if a.kernel != "" then t.(project := SetLocal(t.project, a.kernel)) else t
  }

  function Prepared(s: Session, a: Action): Txn { WithProject(WithRequester(Begin(s), a), a) }

  function ReadProject(t: Txn): string {
    if t.project.current.Some? then t.project.current.value else "demo"
  }

  function Sees(s: Session, a: Action): Seen {
    var t := Prepared(s, a);
    Seen(t.requester.current, ReadProject(t))
  }

  /** The dispatcher itself writes the project session-wide. */
  function Dispatched(t: Txn): Txn { t.(project := SetSession(t.project, ReadProject(t))) }

  predicate Ran(o: Outcome) { !o.Failed? || o.stage >= 3 }

  function SessionAfter(s: Session, a: Action, o: Outcome): Session {
    match o
    case Returned(_) => Commit(Dispatched(Prepared(s, a)))
    case Refused(_) => Commit(Prepared(s, a))
    case Failed(stage, _) =>
      if stage == 0 then Commit(Begin(s))
      else if stage == 1 then Commit(WithRequester(Begin(s), a))
      else if stage == 2 then Commit(Prepared(s, a))
      else Commit(Dispatched(Prepared(s, a)))
  }

  function Requoted(e: string): (r: string)
    ensures |r| == |e| && Free(r, '"') && forall i :: 0 <= i < |e| && e[i] != '"' ==> r[i] == e[i]
  {
    seq(|e|, i requires 0 <= i < |e| => if e[i] == '"' then '\'' else e[i])
  }

  function ReplyText(o: Outcome): string {
    match o
    case Returned(Some(json)) => json
    case Returned(None) => "{\"ok\":false,\"error\":\"dispatch returned null\"}"
    case Refused(report) => report
    case Failed(_, e) => "{\"ok\":false,\"error\":\"dispatch failed: " + Requoted(e) + "\"}"
  }

  // ------------------------------------------------------------------ the bridge

  datatype Reply = Reply(subject: string, body: string, headers: seq<(string, string)>)

  datatype Done = Done(action: Action, outcome: Outcome, seen: Option<Seen>)

  datatype Bridge = Bridge(
    queue: seq<Action>, batch: seq<Action>, session: Session, alive: bool,
    accepted: seq<Action>, done: seq<Done>, replies: seq<Reply>)

  const START := Bridge([], [], Session(None, None), true, [], [], [])

  datatype Event =
    | Arrive(subject: string, payload: seq<byte>, headers: seq<(string, string)>)
    | TakeAll
    | Dispatch(outcome: Outcome)

  function Routed(e: Event): Option<Action>
    requires e.Arrive?
  {
    var r := Door.RouteInbound(e.subject);
    if r.None? then None
    else Some(Action(r.value.kernel, r.value.verb, e.payload, r.value.reply, e.headers, r.value.identity))
  }

  /** The tail is dropped when the queue is full. */
  function Enqueued(b: Bridge, a: Action): Bridge {
    if |b.queue| < MAX_QUEUE then b.(queue := b.queue + [a], accepted := b.accepted + [a]) else b
  }

  /** The payload is cast to jsonb in the calling statement, outside the wrapper's
      handler: where the call is reached, a payload that is not JSON ends the worker. */
  predicate Kills(json: seq<byte> -> bool, a: Action, o: Outcome) {
    !json(a.payload) && Ran(o)
  }

  function DispatchNext(json: seq<byte> -> bool, b: Bridge, o: Outcome): Bridge
    requires b.batch != []
  {
    var a := b.batch[0];
    if Kills(json, a, o) then b.(alive := false)
    else b.(batch := b.batch[1..],
            session := SessionAfter(b.session, a, o),
            done := b.done + [Done(a, o, if Ran(o) then Some(Sees(b.session, a)) else None)],
            replies := b.replies + [Reply(a.reply, ReplyText(o), a.headers)])
  }

  /** One step of either thread; a step that is not enabled changes nothing. */
  function Step(json: seq<byte> -> bool, b: Bridge, e: Event): Bridge {
    if !b.alive then b
    else match e
      case Arrive(_, _, _) => var a := Routed(e); if a.None? then b else Enqueued(b, a.value)
      case TakeAll => if b.batch != [] then b else b.(batch := b.queue, queue := [])
      case Dispatch(o) => if b.batch == [] then b else DispatchNext(json, b, o)
  }

  function Play(json: seq<byte> -> bool, b: Bridge, events: seq<Event>): Bridge
    decreases |events|
  {
    if events == [] then b else Step(json, Play(json, b, events[..|events| - 1]), events[|events| - 1])
  }

  // ------------------------------------------------------------------- isolation

  /** No identity is left in the session. */
  predicate Nobody(r: Option<string>) { r.None? || r.value == "" }

  /** A dispatch reads its own kernel exactly when the kernel is non-empty or the
      session happens to hold the empty project: an action without a kernel would
      run under whatever project the last one left behind. */
  lemma OwnProjectExactly(s: Session, a: Action)
    ensures Sees(s, a).project == a.kernel <==> a.kernel != "" || s.project == Some("")
  {
  }

  /** The session-wide write does leak: after a returned dispatch, an action that
      carried no kernel of its own would read the previous action's, while one that
      does carry a kernel reads its own. */
  lemma ProjectLeaks(s: Session, a: Action, o: Outcome, next: Action)
    requires a.kernel != "" && o.Returned?
    ensures Sees(SessionAfter(s, a, o), next).project == if next.kernel == "" then a.kernel else next.kernel
  {
  }

  /** A refused dispatch leaks nothing: the next action without a kernel reads what the
      session held before it, or the empty text where it held nothing. */
  lemma RefusedLeaksNothing(s: Session, a: Action, o: Outcome, next: Action)
    requires a.kernel != "" && o.Refused?
    ensures Sees(SessionAfter(s, a, o), next).project ==
      if next.kernel != "" then next.kernel else if s.project.Some? then s.project.value else ""
  {
  }

  lemma SessionStaysAnonymous(s: Session, a: Action, o: Outcome)
    requires Nobody(s.requester)
    ensures Nobody(SessionAfter(s, a, o).requester)
  {
  }

  ghost predicate FromSubject(a: Action) {
    exists subject: string :: Door.RouteInbound(subject) == Some(Door.Routed(a.kernel, a.identity, a.verb, a.reply))
  }

  lemma RoutedAction(e: Event)
    requires e.Arrive? && Routed(e).Some?
    ensures FromSubject(Routed(e).value) && WellAddressed(Routed(e).value)
  {
    Door.RouteSound(e.subject);
    var r := Door.RouteInbound(e.subject).value;
    assert r == Door.Routed(r.kernel, r.identity, r.verb, r.reply);
  }

  predicate WellAddressed(a: Action) {
    && Door.Token(a.kernel) && (a.identity.Some? ==> Door.Token(a.identity.value)) && a.verb != ""
    && a.reply == Door.ReplySubject(a.kernel, a.verb)
  }

  /** The dispatch ran, if it ran, under its own kernel and its own identity. */
  predicate Isolated(d: Done) {
    d.seen.Some? ==>
      && d.seen.value.project == d.action.kernel
      && (if d.action.identity.Some? then d.seen.value.requester == d.action.identity else Nobody(d.seen.value.requester))
  }

  lemma DispatchIsolated(s: Session, a: Action, o: Outcome)
    requires Nobody(s.requester) && WellAddressed(a)
    ensures Isolated(Done(a, o, if Ran(o) then Some(Sees(s, a)) else None))
  {
    OwnProjectExactly(s, a);
  }

  // ---------------------------------------------------------------- conservation

  function Actions(done: seq<Done>): (r: seq<Action>)
    ensures |r| == |done| && forall i :: 0 <= i < |r| ==> r[i] == done[i].action
  {
    seq(|done|, i requires 0 <= i < |done| => done[i].action)
  }

  predicate Answers(d: Done, r: Reply) {
    r.subject == d.action.reply && r.headers == d.action.headers && r.body == ReplyText(d.outcome)
  }

  predicate Conserved(b: Bridge) {
    b.accepted == Actions(b.done) + b.batch + b.queue
  }

  /** Each dispatch was isolated and answered, and got past the jsonb cast. */
  predicate Served(json: seq<byte> -> bool, done: seq<Done>, replies: seq<Reply>) {
    && |replies| == |done|
    && forall i :: 0 <= i < |done| ==>
      Isolated(done[i]) && Answers(done[i], replies[i]) && (json(done[i].action.payload) || !Ran(done[i].outcome))
  }

  lemma ServedMore(json: seq<byte> -> bool, done: seq<Done>, replies: seq<Reply>, d: Done, r: Reply)
    requires Served(json, done, replies) && Isolated(d) && Answers(d, r) && (json(d.action.payload) || !Ran(d.outcome))
    ensures Served(json, done + [d], replies + [r])
  {
  }

  ghost predicate Sound(json: seq<byte> -> bool, b: Bridge) {
    && |b.queue| <= MAX_QUEUE && |b.batch| <= MAX_QUEUE
    && Conserved(b)
    && Nobody(b.session.requester)
    && (forall i :: 0 <= i < |b.accepted| ==> WellAddressed(b.accepted[i]) && FromSubject(b.accepted[i]))
    && Served(json, b.done, b.replies)
    && (!b.alive ==> b.batch != [] && !json(b.batch[0].payload))
  }

  lemma EnqueueSound(json: seq<byte> -> bool, b: Bridge, a: Action)
    requires Sound(json, b) && WellAddressed(a) && FromSubject(a)
    ensures Sound(json, Enqueued(b, a))
  {
    assert Conserved(Enqueued(b, a));
  }

  lemma NextConserved(json: seq<byte> -> bool, b: Bridge, o: Outcome)
    requires Conserved(b) && b.batch != []
    ensures Conserved(DispatchNext(json, b, o))
  {
    var t := DispatchNext(json, b, o);
    if !Kills(json, b.batch[0], o) {
      assert b.batch == [b.batch[0]] + t.batch;
      assert Actions(t.done) == Actions(b.done) + [b.batch[0]];
    }
  }

  lemma NextServed(json: seq<byte> -> bool, b: Bridge, o: Outcome)
    requires Served(json, b.done, b.replies) && b.batch != [] && Nobody(b.session.requester) && WellAddressed(b.batch[0])
    ensures var t := DispatchNext(json, b, o); Served(json, t.done, t.replies) && Nobody(t.session.requester)
  {
    var a := b.batch[0];
    SessionStaysAnonymous(b.session, a, o);
    DispatchIsolated(b.session, a, o);
    if !Kills(json, a, o) {
      ServedMore(json, b.done, b.replies,
        Done(a, o, if Ran(o) then Some(Sees(b.session, a)) else None), Reply(a.reply, ReplyText(o), a.headers));
    }
  }

  lemma NextSound(json: seq<byte> -> bool, b: Bridge, o: Outcome)
    requires Sound(json, b) && b.alive && b.batch != []
    ensures Sound(json, DispatchNext(json, b, o))
  {
    assert b.batch[0] == b.accepted[|b.done|];
    NextConserved(json, b, o);
    NextServed(json, b, o);
  }

  lemma StepSound(json: seq<byte> -> bool, b: Bridge, e: Event)
    requires Sound(json, b)
    ensures Sound(json, Step(json, b, e))
  {
    match e
    case Arrive(_, _, _) =>
      if Routed(e).Some? {
        RoutedAction(e);
        EnqueueSound(json, b, Routed(e).value);
      }
    case TakeAll =>
      if b.batch == [] {
        assert Actions(b.done) + b.batch + b.queue == Actions(b.done) + b.queue + [];
      }
    case Dispatch(o) =>
      if b.alive && b.batch != [] {
        NextSound(json, b, o);
      }
  }

  /** INBOUND BRIDGE. Under every interleaving of relay and worker steps: the queue
      stays within its bound; accepted actions are dispatched once each in arrival
      order, in flight, or queued; each has one reply; and each ran under its own
      kernel and its own identity or none. */
  lemma {:induction false} RunSound(json: seq<byte> -> bool, events: seq<Event>)
    ensures Sound(json, Play(json, START, events))
    decreases |events|
  {
    if events != [] {
      var front := events[..|events| - 1];
      RunSound(json, front);
      StepSound(json, Play(json, START, front), events[|events| - 1]);
    }
  }

  /** The i-th dispatch is the i-th accepted action, it read the kernel and identity
      that its own subject carries, and its reply goes to that subject's reply. */
  lemma DispatchMatchesSubject(json: seq<byte> -> bool, events: seq<Event>, i: nat) returns (subject: string)
    requires i < |Play(json, START, events).done|
    ensures i < |Play(json, START, events).accepted| && i < |Play(json, START, events).replies|
    ensures var b := Play(json, START, events);
      var a := b.accepted[i];
      && b.done[i].action == a
      && subject == Door.Address(a.kernel, a.identity, a.verb)
      && Door.RouteInbound(subject) == Some(Door.Routed(a.kernel, a.identity, a.verb, b.replies[i].subject))
      && Isolated(b.done[i])
  {
    RunSound(json, events);
    var b := Play(json, START, events);
    var a := b.accepted[i];
    assert a == Actions(b.done)[i];
    assert FromSubject(a) && Isolated(b.done[i]) && Answers(b.done[i], b.replies[i]);
    subject :| Door.RouteInbound(subject) == Some(Door.Routed(a.kernel, a.identity, a.verb, a.reply));
    Door.RouteSound(subject);
  }

  // ------------------------------------------------------------ who gets answered

  /** A payload that is not JSON ends the worker, with the rest of its batch and the
      queue unanswered. */
  lemma BadPayloadSilences(json: seq<byte> -> bool, b: Bridge, o: Outcome, more: seq<Event>)
    requires b.alive && b.batch != [] && !json(b.batch[0].payload) && Ran(o)
    ensures var t := Play(json, Step(json, b, Dispatch(o)), more);
      t.replies == b.replies && t.accepted == b.accepted && !t.alive
  {
    DeadStays(json, Step(json, b, Dispatch(o)), more);
  }

  lemma {:induction false} DeadStays(json: seq<byte> -> bool, b: Bridge, events: seq<Event>)
    requires !b.alive
    ensures Play(json, b, events) == b
    decreases |events|
  {
    if events != [] {
      DeadStays(json, b, events[..|events| - 1]);
    }
  }

  /** A concrete run: a well-addressed action with an empty payload, which is not
      JSON, is accepted and never answered. */
  lemma EmptyPayloadNeverAnswered(json: seq<byte> -> bool, o: Outcome, more: seq<Event>)
    requires !json([]) && Ran(o)
    ensures var b := Play(json, START, [Arrive("input.kernel.k.action.v", [], []), TakeAll, Dispatch(o)]);
      |b.accepted| == 1 && Play(json, b, more).replies == []
  {
    var arrive := Arrive("input.kernel.k.action.v", [], []);
    Door.AddressRoutes("k", None, "v");
    assert Door.Address("k", None, "v") == "input.kernel.k.action.v";
    var a := Action("k", "v", [], Door.ReplySubject("k", "v"), [], None);
    assert Routed(arrive) == Some(a);
    PlayThree(json, START, arrive, TakeAll, Dispatch(o));
    KillRun(json, arrive, a, o);
    DeadStays(json, Play(json, START, [arrive, TakeAll, Dispatch(o)]), more);
  }

  lemma KillRun(json: seq<byte> -> bool, e: Event, a: Action, o: Outcome)
    requires e.Arrive? && Routed(e) == Some(a) && Kills(json, a, o)
    ensures var t := Step(json, Step(json, Step(json, START, e), TakeAll), Dispatch(o));
      !t.alive && t.accepted == [a] && t.replies == []
  {
    var one := START.(queue := [a], accepted := [a]);
    assert Step(json, START, e) == one;
    assert Step(json, one, TakeAll) == one.(batch := [a], queue := []);
  }

  lemma PlayThree(json: seq<byte> -> bool, b: Bridge, e: Event, f: Event, g: Event)
    ensures Play(json, b, [e, f, g]) == Step(json, Step(json, Step(json, b, e), f), g)
  {
    PlayTwo(json, b, e, f);
    assert [e, f, g][..2] == [e, f];
  }

  /** Every accepted payload up to the p-th is JSON. */
  predicate AllJson(json: seq<byte> -> bool, b: Bridge, p: nat) {
    forall i :: 0 <= i <= p && i < |b.accepted| ==> json(b.accepted[i].payload)
  }

  predicate AllRan(b: Bridge) { forall i :: 0 <= i < |b.done| ==> Ran(b.done[i].outcome) }

  /** Where no SPI error intervened, only JSON payloads, in an unbroken prefix of
      arrivals, were ever answered. */
  lemma AnsweredOnlyIfJson(json: seq<byte> -> bool, events: seq<Event>, p: nat)
    requires var b := Play(json, START, events); p < |b.replies| && AllRan(b)
    ensures AllJson(json, Play(json, START, events), p)
  {
    RunSound(json, events);
    var b := Play(json, START, events);
    forall i | 0 <= i <= p && i < |b.accepted| ensures json(b.accepted[i].payload) {
      assert b.accepted[i] == Actions(b.done)[i];
    }
  }

  /** The worker's schedule that serves the next accepted action. */
  function ServeOne(b: Bridge): seq<Event> {
    if b.batch != [] then [Dispatch(Returned(None))] else [TakeAll, Dispatch(Returned(None))]
  }

  lemma {:induction false} PlayConcat(json: seq<byte> -> bool, b: Bridge, xs: seq<Event>, ys: seq<Event>)
    ensures Play(json, b, xs + ys) == Play(json, Play(json, b, xs), ys)
    decreases |ys|
  {
    if ys == [] {
      assert xs + ys == xs;
    } else {
      var all := xs + ys;
      assert all[..|all| - 1] == xs + ys[..|ys| - 1];
      PlayConcat(json, b, xs, ys[..|ys| - 1]);
    }
  }

  lemma PlayTwo(json: seq<byte> -> bool, b: Bridge, e: Event, f: Event)
    ensures Play(json, b, [e]) == Step(json, b, e)
    ensures Play(json, b, [e, f]) == Step(json, Step(json, b, e), f)
  {
    assert [e][..0] == [] && [e, f][..1] == [e];
    assert Play(json, b, []) == b;
    assert Play(json, b, [e]) == Step(json, b, e);
  }

  lemma TakeKeeps(json: seq<byte> -> bool, b: Bridge)
    requires Sound(json, b) && b.alive && b.batch == [] && |b.done| < |b.accepted|
    ensures var t := Step(json, b, TakeAll);
      Sound(json, t) && t.alive && t.batch != [] && t.accepted == b.accepted && t.done == b.done
  {
    StepSound(json, b, TakeAll);
  }

  lemma DispatchServes(json: seq<byte> -> bool, b: Bridge)
    requires Sound(json, b) && b.alive && b.batch != [] && json(b.accepted[|b.done|].payload)
    ensures var t := Step(json, b, Dispatch(Returned(None)));
      Sound(json, t) && t.alive && |t.done| == |b.done| + 1 && t.accepted == b.accepted
  {
    assert b.batch[0] == b.accepted[|b.done|];
    StepSound(json, b, Dispatch(Returned(None)));
  }

  lemma ServeOneServes(json: seq<byte> -> bool, b: Bridge)
    requires Sound(json, b) && b.alive && |b.done| < |b.accepted| && json(b.accepted[|b.done|].payload)
    ensures var t := Play(json, b, ServeOne(b));
      Sound(json, t) && t.alive && |t.done| == |b.done| + 1 && t.accepted == b.accepted
  {
    PlayTwo(json, b, Dispatch(Returned(None)), TakeAll);
    PlayTwo(json, b, TakeAll, Dispatch(Returned(None)));
    if b.batch != [] {
      DispatchServes(json, b);
    } else {
      TakeKeeps(json, b);
      DispatchServes(json, Step(json, b, TakeAll));
    }
  }

  lemma {:induction false} ServeUpTo(json: seq<byte> -> bool, b: Bridge, p: nat) returns (more: seq<Event>)
    requires Sound(json, b) && b.alive && p < |b.accepted| && AllJson(json, b, p)
    ensures var t := Play(json, b, more); t.alive && p < |t.replies| && t.accepted == b.accepted
    decreases p + 1 - |b.done|
  {
    if |b.done| > p {
      more := [];
    } else {
      ServeOneServes(json, b);
      var t := Play(json, b, ServeOne(b));
      var rest := ServeUpTo(json, t, p);
      PlayConcat(json, b, ServeOne(b), rest);
      more := ServeOne(b) + rest;
    }
  }

  /** An accepted action can still be answered when it and every arrival before it
      are JSON: some continuation of the run answers it. */
  lemma JsonIsAnswered(json: seq<byte> -> bool, events: seq<Event>, p: nat) returns (more: seq<Event>)
    requires var b := Play(json, START, events); p < |b.accepted| && AllJson(json, b, p)
    ensures p < |Play(json, START, events + more).replies|
  {
    RunSound(json, events);
    var b := Play(json, START, events);
    if b.alive {
      more := ServeUpTo(json, b, p);
      PlayConcat(json, START, events, more);
    } else {
      assert b.batch[0] == b.accepted[|b.done|];
      more := [];
      assert events + more == events;
    }
  }

  /** With JSON payloads alone the worker never dies. */
  lemma JsonKeepsAlive(json: seq<byte> -> bool, events: seq<Event>)
    requires var b := Play(json, START, events); AllJson(json, b, |b.accepted|)
    ensures Play(json, START, events).alive
  {
    RunSound(json, events);
    var b := Play(json, START, events);
    assert b.batch != [] ==> b.batch[0] == b.accepted[|b.done|];
  }

  // ----------------------------------------------------------- the program itself

  /** The shared queue and the worker that drains it. */
  class Worker {
    const json: seq<byte> -> bool
    var b: Bridge

    constructor (json: seq<byte> -> bool)
      ensures this.json == json && b == START
    {
      this.json := json;
      b := START;
    }

    /** The relay's half: route, then push unless full. */
    method Enqueue(e: Event)
      requires e.Arrive?
      modifies this
      ensures b == Step(json, old(b), e)
    {
      if b.alive {
        var r := Door.RouteInbound(e.subject);
        if r.Some? && |b.queue| < MAX_QUEUE {
          var a := Action(r.value.kernel, r.value.verb, e.payload, r.value.reply, e.headers, r.value.identity);
          b := b.(queue := b.queue + [a], accepted := b.accepted + [a]);
        }
      }
    }

    /** One action in its own transaction, setting by setting. */
    method DispatchOne(a: Action, o: Outcome) returns (reply: string, session: Session, seen: Option<Seen>)
      requires !Kills(json, a, o)
      ensures reply == ReplyText(o) && session == SessionAfter(b.session, a, o)
      ensures seen == if Ran(o) then Some(Sees(b.session, a)) else None
    {
      reply, seen := ReplyText(o), None;
      var t := Begin(b.session);
      if o.Failed? && o.stage == 0 {
        return reply, Commit(t), seen;
      }
      if a.identity.Some? {
        t := t.(requester := SetLocal(t.requester, a.identity.value));
      }
      if o.Failed? && o.stage == 1 {
        return reply, Commit(t), seen;
      }
      if a.kernel != "" {
        t := t.(project := SetLocal(t.project, a.kernel));
      }
      if o.Failed? && o.stage == 2 {
        return reply, Commit(t), seen;
      }
      var savepoint := t;
      var project := if t.project.current.Some? then t.project.current.value else "demo";
      seen := Some(Seen(t.requester.current, project));
      t := t.(project := SetSession(t.project, project));
      if o.Refused? {
        t := savepoint;
      }
      return reply, Commit(t), seen;
    }

    /** Take everything queued, then dispatch and reply to each in turn. */
    method DrainAndDispatch(outcomes: nat -> Outcome) returns (n: nat)
      requires b.batch == [] && b.alive
      modifies this
      ensures b == Play(json, old(b), [TakeAll] + Dispatches(outcomes, n))
      ensures n <= |old(b).queue| && (b.alive ==> n == |old(b).queue| && b.batch == [] && b.queue == [])
    {
      n := 0;
      b := b.(batch := b.queue, queue := []);
      PlayTwo(json, old(b), TakeAll, TakeAll);
      assert [TakeAll] + Dispatches(outcomes, 0) == [TakeAll];
      while b.alive && b.batch != []
        invariant n <= |old(b).queue| && (b.alive ==> n + |b.batch| == |old(b).queue|)
        invariant b == Play(json, old(b), [TakeAll] + Dispatches(outcomes, n)) && b.queue == []
        decreases b.alive, |b.batch|
      {
        PlayNext(json, old(b), outcomes, n);
        ServeNext(outcomes(n));
        n := n + 1;
      }
    }

    /** The body of the drain loop: run the action, publish its reply. */
    method ServeNext(o: Outcome)
      requires b.batch != []
      modifies this
      ensures b == DispatchNext(json, old(b), o)
    {
      var a := b.batch[0];
      if !json(a.payload) && Ran(o) {
        b := b.(alive := false);
      } else {
        var reply, session, seen := DispatchOne(a, o);
        b := b.(batch := b.batch[1..], session := session, done := b.done + [Done(a, o, seen)],
                replies := b.replies + [Reply(a.reply, reply, a.headers)]);
      }
    }
  }

  function Dispatches(outcomes: nat -> Outcome, n: nat): (r: seq<Event>)
    ensures |r| == n
  {
    seq(n, i requires 0 <= i < n => Dispatch(outcomes(i)))
  }

  lemma PlayNext(json: seq<byte> -> bool, b: Bridge, outcomes: nat -> Outcome, n: nat)
    ensures var t := Play(json, b, [TakeAll] + Dispatches(outcomes, n));
      Play(json, b, [TakeAll] + Dispatches(outcomes, n + 1)) == Step(json, t, Dispatch(outcomes(n)))
  {
    var more := [TakeAll] + Dispatches(outcomes, n + 1);
    assert more[..n + 1] == [TakeAll] + Dispatches(outcomes, n);
  }

  // ------------------------------------------------------- what is accepted and said

  /** ACCEPTED, EXACTLY. A message adds one action to the accepted ones if and only if
      the worker lives, fewer than 1000 wait, and its subject addresses a kernel and a
      verb; the action carries that kernel, verb and identity, the message's payload and
      headers, and the reply subject of its kernel and verb. */
  lemma AcceptedExactly(json: seq<byte> -> bool, b: Bridge, payload: seq<byte>, headers: seq<(string, string)>,
                        kernel: string, identity: Option<string>, verb: string)
    requires Door.Token(kernel) && (identity.Some? ==> Door.Token(identity.value)) && verb != ""
    ensures var t := Step(json, b, Arrive(Door.Address(kernel, identity, verb), payload, headers));
      if b.alive && |b.queue| < 1000
      then
        var a := Action(kernel, verb, payload, "result.kernel." + kernel + "." + verb, headers, identity);
        t == b.(queue := b.queue + [a], accepted := b.accepted + [a])
      else t == b
  {
    Door.AddressRoutes(kernel, identity, verb);
  }

  lemma UnroutedIgnored(json: seq<byte> -> bool, b: Bridge, subject: string, payload: seq<byte>, headers: seq<(string, string)>)
    requires forall kernel, identity, verb :: subject == Door.Address(kernel, identity, verb) ==>
      !(Door.Token(kernel) && (identity.Some? ==> Door.Token(identity.value)) && verb != "")
    ensures Step(json, b, Arrive(subject, payload, headers)) == b
  {
    Door.RouteSound(subject);
  }

  /** What is replied: the dispatcher's own text, and for a missing result or an SPI
      error a JSON object that says so, whose error text cannot end its string early. */
  lemma ReplySays(o: Outcome)
    ensures forall j :: o == Returned(Some(j)) ==> ReplyText(o) == j
    ensures forall j :: o == Refused(j) ==> ReplyText(o) == j
    ensures o == Returned(None) ==> ReplyText(o) == "{\"ok\":false,\"error\":\"dispatch returned null\"}"
    ensures o.Failed? ==> exists said: string ::
      ReplyText(o) == "{\"ok\":false,\"error\":\"dispatch failed: " + said + "\"}" && |said| == |o.error| && Free(said, '"')
  {
    if o.Failed? {
      var said := Requoted(o.error);
      assert ReplyText(o) == "{\"ok\":false,\"error\":\"dispatch failed: " + said + "\"}";
    }
  }
}
