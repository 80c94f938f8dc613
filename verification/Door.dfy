/** The subject door: the grants a connection is minted, the relay's
    subscriptions, and the route an inbound subject takes. */
module Door {
  import opened Text
  import opened Matcher

  // ------------------------------------------------------------------ admission

  datatype Admission = Verified(sub: string) | Anonymous

  datatype Permissions = Permissions(pub: seq<string>, sub: seq<string>)

  predicate TokenChar(c: char) {
    'a' <= c <= 'z' || 'A' <= c <= 'Z' || '0' <= c <= '9' || c == '_' || c == '-'
  }

  /** A verified `sub` as one subject token. */
  function SubjectToken(sub: string): (t: string)
    ensures t != "" && forall i :: 0 <= i < |t| ==> TokenChar(t[i])
  {
    if sub == "" then "-"
    else seq(|sub|, i requires 0 <= i < |sub| => if TokenChar(sub[i]) then sub[i] else '-')
  }

  function EventSubject(k: string): string { "event.kernel." + k + ".>" }

  function ResultSubject(k: string): string { "result.kernel." + k + ".>" }

  function InputSubject(k: string, token: string): string { "input.kernel." + k + ".id." + token + ".action.>" }

  const INBOX := "_INBOX.>"

  function PubGrants(kernels: seq<string>, token: string): seq<string> {
    seq(|kernels|, i requires 0 <= i < |kernels| => InputSubject(kernels[i], token))
  }

  function ReadGrants(kernels: seq<string>): seq<string> {
    if kernels == [] then []
    else
      var n := |kernels| - 1;
      ReadGrants(kernels[..n]) + [EventSubject(kernels[n]), ResultSubject(kernels[n])]
  }

  function Granted(a: Admission, kernels: seq<string>): Permissions {
    match a
    case Verified(sub) => Permissions(PubGrants(kernels, SubjectToken(sub)), ReadGrants(kernels) + [INBOX])
    case Anonymous => Permissions([], seq(|kernels|, i requires 0 <= i < |kernels| => EventSubject(kernels[i])))
  }

  method PermissionsFor(a: Admission, kernels: seq<string>) returns (p: Permissions)
    ensures p == Granted(a, kernels)
  {
    match a {
      case Verified(sub) =>
        var token := SubjectToken(sub);
        var pub, read := [], [];
        for i := 0 to |kernels|
          invariant pub == PubGrants(kernels, token)[..i]
          invariant read == ReadGrants(kernels[..i])
        {
          assert kernels[..i + 1][..i] == kernels[..i];
          pub := pub + [InputSubject(kernels[i], token)];
          read := read + [EventSubject(kernels[i])];
          read := read + [ResultSubject(kernels[i])];
        }
        assert kernels[..|kernels|] == kernels;
        p := Permissions(pub, read + [INBOX]);
      case Anonymous =>
        p := Permissions([], seq(|kernels|, i requires 0 <= i < |kernels| => EventSubject(kernels[i])));
    }
  }

  // -------------------------------------------------------------------- routing

  const RELAY_IN := "input.kernel.*.action.>"
  const RELAY_ID := "input.kernel.*.id.*.action.>"

  datatype Routed = Routed(kernel: string, identity: Option<string>, verb: string, reply: string)

  function ReplySubject(kernel: string, verb: string): string { "result.kernel." + kernel + "." + verb }

  /** After the kernel token: the identity scope, if any, and the verb. */
  function Scope(after: string): Option<(Option<string>, string)> {
    var scoped := StripPrefix(after, "id.");
    if scoped.Some? then
      var cut := SplitOnce(scoped.value, DOT);
      if cut.None? || cut.value.0 == "" then None
      else
        var verb := StripPrefix(cut.value.1, "action.");
        if verb.None? then None else Some((Some(cut.value.0), verb.value))
    else
      var verb := StripPrefix(after, "action.");
      if verb.None? then None else Some((None, verb.value))
  }

  /** `route_inbound`. */
  function RouteInbound(subject: string): Option<Routed> {
    var rest := StripPrefix(subject, "input.kernel.");
    if rest.None? then None
    else
      var cut := SplitOnce(rest.value, DOT);
      if cut.None? || cut.value.0 == "" then None
      else
        var scope := Scope(cut.value.1);
        if scope.None? || scope.value.1 == "" then None
        else Some(Routed(cut.value.0, scope.value.0, scope.value.1, ReplySubject(cut.value.0, scope.value.1)))
  }

  /** The subject that addresses a kernel and verb, with or without identity. */
  function Address(kernel: string, identity: Option<string>, verb: string): string {
    "input.kernel." + kernel + "." + AfterKernel(identity, verb)
  }

  predicate Token(t: string) { t != "" && Free(t, DOT) }

  lemma ScopeOf(identity: Option<string>, verb: string)
    requires identity.Some? ==> Token(identity.value)
    ensures Scope(AfterKernel(identity, verb)) == Some((identity, verb))
  {
    StripPrefixOf("action.", verb);
    if identity.Some? {
      var tail := identity.value + "." + ("action." + verb);
      StripPrefixOf("id.", tail);
      SplitOnceOf(identity.value, "action." + verb, DOT);
    } else {
      assert ("action." + verb)[0] == 'a';
    }
  }

  lemma ScopeSound(after: string)
    ensures var r := Scope(after);
      r.Some? ==>
        && (r.value.0.Some? ==> Token(r.value.0.value))
        && after == AfterKernel(r.value.0, r.value.1)
  {
    var scoped := StripPrefix(after, "id.");
    if scoped.Some? {
      SplitOnceSound(scoped.value, DOT);
    }
  }

  function AfterKernel(identity: Option<string>, verb: string): string {
    if identity.Some? then "id." + (identity.value + "." + ("action." + verb)) else "action." + verb
  }

  lemma AddressRoutes(kernel: string, identity: Option<string>, verb: string)
    requires Token(kernel) && (identity.Some? ==> Token(identity.value))
    ensures RouteInbound(Address(kernel, identity, verb)) ==
      if verb == "" then None else Some(Routed(kernel, identity, verb, ReplySubject(kernel, verb)))
  {
    var after := AfterKernel(identity, verb);
    ScopeOf(identity, verb);
    assert Address(kernel, identity, verb) == "input.kernel." + (kernel + "." + after);
    StripPrefixOf("input.kernel.", kernel + "." + after);
    SplitOnceOf(kernel, after, DOT);
  }

  lemma RouteSound(subject: string)
    ensures var r := RouteInbound(subject);
      r.Some? ==>
        && Token(r.value.kernel) && (r.value.identity.Some? ==> Token(r.value.identity.value)) && r.value.verb != ""
        && subject == Address(r.value.kernel, r.value.identity, r.value.verb)
        && r.value.reply == ReplySubject(r.value.kernel, r.value.verb)
  {
    var rest := StripPrefix(subject, "input.kernel.");
    if rest.Some? {
      assert subject == "input.kernel." + rest.value;
      SplitOnceSound(rest.value, DOT);
      var cut := SplitOnce(rest.value, DOT);
      if cut.Some? {
        ScopeSound(cut.value.1);
      }
    }
  }

  /** Routing is exactly the inverse of addressing: a subject routes to (kernel,
      identity, verb) if and only if it is their address. */
  lemma RouteIffAddress(subject: string, kernel: string, identity: Option<string>, verb: string)
    ensures RouteInbound(subject) == Some(Routed(kernel, identity, verb, ReplySubject(kernel, verb)))
       <==> Token(kernel) && (identity.Some? ==> Token(identity.value)) && verb != "" && subject == Address(kernel, identity, verb)
  {
    if Token(kernel) && (identity.Some? ==> Token(identity.value)) {
      AddressRoutes(kernel, identity, verb);
    }
    RouteSound(subject);
  }

  // -------------------------------------------------------- grants and routes agree

  /** What the kernel-name filter lets through: one literal token. */
  predicate KernelName(k: string) {
    k != "" && forall i :: 0 <= i < |k| ==> k[i] !in ".*> \t\r\n"
  }

  lemma JoinCons(t: string, ts: seq<string>)
    requires |ts| >= 1
    ensures Join([t] + ts, DOT) == t + "." + Join(ts, DOT)
  {
    assert ([t] + ts)[1..] == ts;
  }

  lemma Regroup(a: string, b: string, rest: string)
    ensures a + "." + (b + "." + rest) == (a + "." + b + ".") + rest
  {
  }

  /** `input.kernel.<rest>`, token by token. */
  lemma InputPrefix(rest: seq<string>)
    requires |rest| >= 1
    ensures Join(["input"] + (["kernel"] + rest), DOT) == "input.kernel." + Join(rest, DOT)
  {
    JoinTwo("input", "kernel", rest);
    InputDots();
  }

  lemma InputDots()
    ensures "input" + "." + "kernel" + "." == "input.kernel."
  {
  }

  lemma JoinTwo(a: string, b: string, rest: seq<string>)
    requires |rest| >= 1
    ensures Join([a] + ([b] + rest), DOT) == (a + "." + b + ".") + Join(rest, DOT)
  {
    JoinCons(b, rest);
    JoinCons(a, [b] + rest);
    Regroup(a, b, Join(rest, DOT));
  }

  lemma JoinThree(a: string, b: string, c: string, rest: seq<string>)
    requires |rest| >= 1
    ensures Join([a] + ([b] + ([c] + rest)), DOT) == a + "." + (b + "." + (c + "." + Join(rest, DOT)))
  {
    JoinCons(c, rest);
    JoinCons(b, [c] + rest);
    JoinCons(a, [b] + ([c] + rest));
  }

  lemma ScopeText(token: string, j: string)
    ensures "id" + "." + (token + "." + ("action" + "." + j)) == "id." + (token + "." + ("action." + j))
  {
    assert "action" + "." == "action.";
    assert "action" + "." + j == "action." + j;
    assert "id" + "." == "id.";
  }

  /** `id.<token>.action.<rest>`, token by token. */
  lemma ScopePrefix(token: string, rest: seq<string>)
    requires |rest| >= 1
    ensures Join(["id"] + ([token] + (["action"] + rest)), DOT) == "id." + (token + "." + ("action." + Join(rest, DOT)))
  {
    JoinThree("id", token, "action", rest);
    ScopeText(token, Join(rest, DOT));
  }

  /** The tokens of an identity-scoped input subject. */
  function ScopedTokens(k: string, token: string, rest: seq<string>): seq<string> {
    ["input"] + (["kernel"] + ([k] + (["id"] + ([token] + (["action"] + rest)))))
  }

  lemma InputText(k: string, i: string)
    ensures "input" + "." + ("kernel" + "." + (k + "." + i)) == "input.kernel." + k + "." + i
  {
    Regroup("input", "kernel", k + "." + i);
    InputDots();
    assert "input.kernel." + (k + "." + i) == "input.kernel." + k + "." + i;
  }

  lemma InputPrefixed(k: string, inner: seq<string>)
    requires |inner| >= 1
    ensures Join(["input"] + (["kernel"] + ([k] + inner)), DOT) == "input.kernel." + k + "." + Join(inner, DOT)
  {
    JoinThree("input", "kernel", k, inner);
    InputText(k, Join(inner, DOT));
  }

  lemma ScopedJoin(k: string, token: string, rest: seq<string>)
    requires |rest| >= 1
    ensures Join(ScopedTokens(k, token, rest), DOT) == Address(k, Some(token), Join(rest, DOT))
  {
    ScopePrefix(token, rest);
    InputPrefixed(k, ["id"] + ([token] + (["action"] + rest)));
  }

  lemma InputIsAddress(k: string, token: string)
    ensures InputSubject(k, token) == Address(k, Some(token), ">")
  {
    assert "action." + ">" == "action.>";
    var t := token + "." + "action.>";
    assert token + ".action.>" == t;
    assert k + ".id." + token + ".action.>" == k + "." + ("id." + t);
  }

  lemma InputTokens(k: string, token: string)
    requires Free(k, DOT) && Free(token, DOT)
    ensures Tokens(InputSubject(k, token)) == ScopedTokens(k, token, [">"])
  {
    InputIsAddress(k, token);
    ScopedJoin(k, token, [">"]);
    assert Free("input", DOT) && Free("kernel", DOT) && Free("id", DOT) && Free("action", DOT) && Free(">", DOT);
    SplitJoin(ScopedTokens(k, token, [">"]), DOT);
  }

  lemma ResultTokens(k: string, tail: string)
    requires Free(k, DOT)
    ensures Tokens("result.kernel." + k + "." + tail) == ["result"] + (["kernel"] + ([k] + Tokens(tail)))
  {
    var t2 := k + "." + tail;
    SplitCons(k, tail, DOT);
    assert Free("kernel", DOT) && Free("result", DOT);
    SplitCons("kernel", t2, DOT);
    SplitCons("result", "kernel" + "." + t2, DOT);
    Regroup("result", "kernel", t2);
    assert "result" + "." + "kernel" + "." == "result.kernel.";
    assert "result.kernel." + t2 == "result.kernel." + k + "." + tail;
  }

  function PlainTokens(): seq<string> { ["input"] + (["kernel"] + (["*"] + (["action"] + [">"]))) }

  lemma RelayTokens()
    ensures Tokens(RELAY_IN) == PlainTokens()
    ensures Tokens(RELAY_ID) == ScopedTokens("*", "*", [">"])
  {
    assert Free("*", DOT);
    InputTokens("*", "*");
    assert RELAY_ID == InputSubject("*", "*");
    PlainRelay();
  }

  lemma PlainRelay()
    ensures Tokens(RELAY_IN) == PlainTokens()
  {
    var rest := ["*"] + (["action"] + [">"]);
    InputPrefix(rest);
    JoinCons("action", [">"]);
    JoinCons("*", ["action"] + [">"]);
    assert "input.kernel." + ("*" + "." + ("action" + "." + ">")) == RELAY_IN;
    assert Free("input", DOT) && Free("kernel", DOT) && Free("*", DOT) && Free("action", DOT) && Free(">", DOT);
    SplitJoin(PlainTokens(), DOT);
  }

  /** The tokens a scoped pattern asks for. */
  predicate ScopedAs(ts: seq<string>, k: string, token: string) {
    && |ts| > 6 && ts[0] == "input" && ts[1] == "kernel" && (k == "*" || ts[2] == k)
    && ts[3] == "id" && (token == "*" || ts[4] == token) && ts[5] == "action"
  }

  lemma CoversStep(t: string, p: seq<string>, ts: seq<string>)
    requires t != ">"
    ensures Covers([t] + p, ts) <==> ts != [] && (t == "*" || t == ts[0]) && Covers(p, ts[1..])
  {
    assert ([t] + p)[1..] == p;
  }

  lemma ScopedCovers(k: string, token: string, ts: seq<string>)
    requires k != ">" && token != ">"
    ensures Covers(ScopedTokens(k, token, [">"]), ts) <==> ScopedAs(ts, k, token)
  {
    var p5 := ["action"] + [">"];
    var p4 := [token] + p5;
    var p3 := ["id"] + p4;
    var p2 := [k] + p3;
    var p1 := ["kernel"] + p2;
    CoversStep("input", p1, ts);
    if |ts| > 6 {
      CoversStep("kernel", p2, ts[1..]);
      CoversStep(k, p3, ts[2..]);
      CoversStep("id", p4, ts[3..]);
      CoversStep(token, p5, ts[4..]);
      CoversStep("action", [">"], ts[5..]);
      assert ts[1..][1..] == ts[2..] && ts[2..][1..] == ts[3..] && ts[3..][1..] == ts[4..];
      assert ts[4..][1..] == ts[5..] && ts[5..][1..] == ts[6..];
    } else {
      CoversLength(ScopedTokens(k, token, [">"]), ts);
    }
  }

  /** A pattern needs at least one subject token per pattern token. */
  lemma {:induction false} CoversLength(p: seq<string>, ts: seq<string>)
    ensures Covers(p, ts) ==> |ts| >= |p|
  {
    if p != [] && p[0] != ">" && ts != [] {
      CoversLength(p[1..], ts[1..]);
    }
  }

  lemma PlainCovers(ts: seq<string>)
    requires Covers(PlainTokens(), ts)
    ensures |ts| > 4 && ts[3] == "action"
  {
    var p2 := ["*"] + (["action"] + [">"]);
    CoversLength(PlainTokens(), ts);
    CoversStep("input", ["kernel"] + p2, ts);
    CoversStep("kernel", p2, ts[1..]);
    CoversStep("*", ["action"] + [">"], ts[1..][1..]);
    CoversStep("action", [">"], ts[1..][1..][1..]);
  }

  /** A subject whose tokens start like an identity-scoped input is the address of
      that kernel, identity and the rest. */
  lemma ScopedSubject(subject: string, k: string, token: string)
    requires ScopedAs(Tokens(subject), k, token) && k != "*" && token != "*"
    ensures subject == Address(k, Some(token), VerbOf(subject))
  {
    var ts := Tokens(subject);
    var rest := ts[6..];
    assert ts == ScopedTokens(k, token, rest);
    ScopedJoin(k, token, rest);
    JoinSplit(subject, DOT);
  }

  /** Everything from the seventh token on. */
  function VerbOf(subject: string): string {
    if |Tokens(subject)| > 6 then Join(Tokens(subject)[6..], DOT) else ""
  }

  lemma TokenSubjectIsLiteral(sub: string)
    ensures var t := SubjectToken(sub); Token(t) && t != "*" && t != ">"
  {
    var t := SubjectToken(sub);
    assert TokenChar(t[0]);
  }

  lemma KernelNameIsLiteral(k: string)
    requires KernelName(k)
    ensures Token(k) && k != "*" && k != ">"
  {
    assert k[0] !in ".*> \t\r\n";
  }

  /** What a publish grant admits. */
  lemma GrantScoped(subject: string, k: string, sub: string)
    requires KernelName(k)
    ensures Matches(InputSubject(k, SubjectToken(sub)), subject) <==> ScopedAs(Tokens(subject), k, SubjectToken(sub))
  {
    KernelNameIsLiteral(k);
    TokenSubjectIsLiteral(sub);
    InputTokens(k, SubjectToken(sub));
    ScopedCovers(k, SubjectToken(sub), Tokens(subject));
  }

  /** Exactly one relay subscription hears a granted subject: the scoped one. */
  lemma OneRelayHears(subject: string, k: string, sub: string)
    requires KernelName(k) && Matches(InputSubject(k, SubjectToken(sub)), subject)
    ensures Matches(RELAY_ID, subject) && !Matches(RELAY_IN, subject)
  {
    GrantScoped(subject, k, sub);
    RelayTokens();
    var ts := Tokens(subject);
    ScopedCovers("*", "*", ts);
    assert ts[3] == "id" != "action";
    if Covers(PlainTokens(), ts) {
      PlainCovers(ts);
    }
  }

  /** The route of a granted subject: its own identity, the granted kernel, and a
      reply subject the connection may read. Only an empty verb is not routed. */
  lemma GrantedRoute(subject: string, k: string, sub: string)
    requires KernelName(k) && Matches(InputSubject(k, SubjectToken(sub)), subject)
    ensures var verb := VerbOf(subject);
      && (verb == "" <==> RouteInbound(subject).None?)
      && (verb != "" ==>
           && RouteInbound(subject) == Some(Routed(k, Some(SubjectToken(sub)), verb, ReplySubject(k, verb)))
           && Matches(ResultSubject(k), ReplySubject(k, verb)))
  {
    GrantScoped(subject, k, sub);
    KernelNameIsLiteral(k);
    TokenSubjectIsLiteral(sub);
    ScopedSubject(subject, k, SubjectToken(sub));
    var verb := VerbOf(subject);
    AddressRoutes(k, Some(SubjectToken(sub)), verb);
    ReplyReadable(k, verb);
  }

  lemma ReplyReadable(k: string, verb: string)
    requires Token(k) && k != "*" && k != ">"
    ensures Matches(ResultSubject(k), ReplySubject(k, verb))
  {
    ResultTokens(k, verb);
    ResultTokens(k, ">");
    SplitFree(">", DOT);
    assert ResultSubject(k) == "result.kernel." + k + "." + ">";
    var ts := Tokens(ReplySubject(k, verb));
    assert ts[1..] == ["kernel"] + ([k] + Tokens(verb)) && ts[1..][1..] == [k] + Tokens(verb) && ts[1..][1..][1..] == Tokens(verb);
    CoversStep("result", ["kernel"] + ([k] + [">"]), ts);
    CoversStep("kernel", [k] + [">"], ts[1..]);
    CoversStep(k, [">"], ts[1..][1..]);
  }

  predicate Admits(grants: seq<string>, subject: string) {
    exists i :: 0 <= i < |grants| && Matches(grants[i], subject)
  }

  lemma {:induction false} ReadGrantsResult(kernels: seq<string>, i: nat)
    requires i < |kernels|
    ensures ResultSubject(kernels[i]) in ReadGrants(kernels)
  {
    var n := |kernels| - 1;
    if i < n {
      ReadGrantsResult(kernels[..n], i);
    }
  }

  /** GRANT-TO-ROUTE AGREEMENT. Whatever a minted connection may publish is heard
      by exactly one relay subscription and, if its verb is not empty, routed to
      the connection's own identity on a granted kernel, with a reply subject the
      same connection may read. */
  lemma GrantsAgreeWithRoutes(a: Admission, kernels: seq<string>, subject: string)
    requires forall k :: k in kernels ==> KernelName(k)
    requires Admits(Granted(a, kernels).pub, subject)
    ensures a.Verified? && Matches(RELAY_ID, subject) && !Matches(RELAY_IN, subject)
    ensures var r := RouteInbound(subject);
      r.Some? ==>
        && r.value.identity == Some(SubjectToken(a.sub)) && r.value.kernel in kernels && r.value.verb != ""
        && r.value.reply == ReplySubject(r.value.kernel, r.value.verb)
        && Admits(Granted(a, kernels).sub, r.value.reply)
    ensures RouteInbound(subject).None? <==> VerbOf(subject) == ""
  {
    var grants := Granted(a, kernels).pub;
    var i :| 0 <= i < |grants| && Matches(grants[i], subject);
    var k := kernels[i];
    assert grants[i] == InputSubject(k, SubjectToken(a.sub));
    OneRelayHears(subject, k, a.sub);
    GrantedRoute(subject, k, a.sub);
    ReplyAdmitted(a.sub, kernels, i, VerbOf(subject));
  }

  lemma ReplyAdmitted(sub: string, kernels: seq<string>, i: nat, verb: string)
    requires i < |kernels| && KernelName(kernels[i])
    ensures Admits(Granted(Verified(sub), kernels).sub, ReplySubject(kernels[i], verb))
  {
    KernelNameIsLiteral(kernels[i]);
    ReplyReadable(kernels[i], verb);
    ReadGrantsResult(kernels, i);
    var subs := Granted(Verified(sub), kernels).sub;
    assert ResultSubject(kernels[i]) in subs;
    var j :| 0 <= j < |subs| && subs[j] == ResultSubject(kernels[i]);
    assert Matches(subs[j], ReplySubject(kernels[i], verb));
  }

  /** Connections whose identities differ as tokens never share a subject. */
  lemma PublishSetsDisjoint(sub1: string, sub2: string, kernels1: seq<string>, kernels2: seq<string>, subject: string)
    requires forall k :: k in kernels1 || k in kernels2 ==> KernelName(k)
    requires SubjectToken(sub1) != SubjectToken(sub2)
    requires Admits(Granted(Verified(sub1), kernels1).pub, subject)
    ensures !Admits(Granted(Verified(sub2), kernels2).pub, subject)
  {
    var g1, g2 := Granted(Verified(sub1), kernels1).pub, Granted(Verified(sub2), kernels2).pub;
    var i :| 0 <= i < |g1| && Matches(g1[i], subject);
    TokenAt4(subject, kernels1[i], sub1);
    forall j | 0 <= j < |g2| ensures !Matches(g2[j], subject) {
      if Matches(InputSubject(kernels2[j], SubjectToken(sub2)), subject) {
        TokenAt4(subject, kernels2[j], sub2);
      }
    }
  }

  lemma TokenAt4(subject: string, k: string, sub: string)
    requires KernelName(k) && Matches(InputSubject(k, SubjectToken(sub)), subject)
    ensures |Tokens(subject)| > 4 && Tokens(subject)[4] == SubjectToken(sub)
  {
    GrantScoped(subject, k, sub);
    TokenSubjectIsLiteral(sub);
  }
}
