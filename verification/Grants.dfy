/** What a minted connection may say and hear, exactly. */
module Grants {
  import opened Text
  import opened Matcher
  import opened Door

  // ------------------------------------------------------------------ tokens and names

  predicate Clean(c: char) { 'a' <= c <= 'z' || 'A' <= c <= 'Z' || '0' <= c <= '9' || c == '_' || c == '-' }

  /** A token is its sub with every other character dashed, and a dash for none. */
  lemma TokenExactly(sub: string, t: string)
    ensures SubjectToken(sub) == t <==>
      (sub == "" && t == "-")
      || (sub != "" && |t| == |sub| && forall i :: 0 <= i < |sub| ==> t[i] == (if Clean(sub[i]) then sub[i] else '-'))
  {
    var u := SubjectToken(sub);
    assert sub != "" ==> |u| == |sub| && forall i :: 0 <= i < |sub| ==> u[i] == (if Clean(sub[i]) then sub[i] else '-');
  }

  /** Clean subs, such as UUIDs, pass unchanged, and so never share a token. */
  lemma CleanSubsKept(sub: string)
    requires sub != "" && forall i :: 0 <= i < |sub| ==> Clean(sub[i])
    ensures SubjectToken(sub) == sub
  {
    TokenExactly(sub, sub);
  }

  /** The kernel-name filter admits exactly the non-empty texts without a dot, a
      wildcard or a blank. */
  lemma KernelNameExactly(k: string)
    ensures KernelName(k) <==>
      && k != "" && Free(k, '.') && Free(k, '*') && Free(k, '>')
      && Free(k, ' ') && Free(k, '\t') && Free(k, '\r') && Free(k, '\n')
  {
  }

  // ------------------------------------------------------------------------- saying

  lemma ScopedFree(k: string, token: string, rest: seq<string>)
    requires Free(k, DOT) && Free(token, DOT) && forall p :: p in rest ==> Free(p, DOT)
    ensures forall p :: p in ScopedTokens(k, token, rest) ==> Free(p, DOT)
  {
    assert Free("input", DOT) && Free("kernel", DOT) && Free("id", DOT) && Free("action", DOT);
  }

  lemma AddressTokens(k: string, token: string, verb: string)
    requires Free(k, DOT) && Free(token, DOT)
    ensures Tokens(Address(k, Some(token), verb)) == ScopedTokens(k, token, Tokens(verb))
  {
    SplitPieces(verb);
    ScopedFree(k, token, Tokens(verb));
    ScopedJoin(k, token, Tokens(verb));
    JoinSplit(verb, DOT);
    SplitJoin(ScopedTokens(k, token, Tokens(verb)), DOT);
  }

  lemma GrantAdmitsVerb(k: string, sub: string, verb: string)
    requires KernelName(k)
    ensures Matches(InputSubject(k, SubjectToken(sub)), Address(k, Some(SubjectToken(sub)), verb))
  {
    var token := SubjectToken(sub);
    KernelNameIsLiteral(k);
    TokenSubjectIsLiteral(sub);
    AddressTokens(k, token, verb);
    ScopedShape(k, token, Tokens(verb));
    GrantScoped(Address(k, Some(token), verb), k, sub);
  }

  lemma ScopedShape(k: string, token: string, rest: seq<string>)
    requires rest != []
    ensures ScopedAs(ScopedTokens(k, token, rest), k, token)
  {
  }

  /** Every piece of a split is free of the separator. */
  lemma {:induction false} SplitPieces(s: string)
    ensures forall p :: p in Split(s, DOT) ==> Free(p, DOT)
  {
    if s != "" {
      SplitPieces(s[1..]);
      var rest := Split(s[1..], DOT);
      assert Free(rest[0], DOT);
    }
  }

  /** PUBLISHING, EXACTLY: a verified connection may publish the addresses of its own
      token on its kernels, with any verb, and nothing else; an anonymous one nothing. */
  lemma MayPublish(a: Admission, kernels: seq<string>, subject: string)
    requires forall k :: k in kernels ==> KernelName(k)
    ensures Admits(Granted(a, kernels).pub, subject) <==>
      a.Verified? && exists k, verb :: k in kernels && subject == Address(k, Some(SubjectToken(a.sub)), verb)
  {
    var grants := Granted(a, kernels).pub;
    if Admits(grants, subject) {
      var i :| 0 <= i < |grants| && Matches(grants[i], subject);
      var k := kernels[i];
      assert grants[i] == InputSubject(k, SubjectToken(a.sub));
      GrantScoped(subject, k, a.sub);
      KernelNameIsLiteral(k);
      TokenSubjectIsLiteral(a.sub);
      ScopedSubject(subject, k, SubjectToken(a.sub));
    }
    if a.Verified? && exists k, verb :: k in kernels && subject == Address(k, Some(SubjectToken(a.sub)), verb) {
      var k, verb :| k in kernels && subject == Address(k, Some(SubjectToken(a.sub)), verb);
      GrantAdmitsVerb(k, a.sub, verb);
      var i :| 0 <= i < |kernels| && kernels[i] == k;
      assert grants[i] == InputSubject(k, SubjectToken(a.sub));
      assert Matches(grants[i], subject);
    }
  }

  // ------------------------------------------------------------------------ hearing

  /** A subject of one family and kernel. */
  function Family(f: string, k: string, tail: string): string { f + ['.'] + ("kernel" + ['.'] + (k + ['.'] + tail)) }

  lemma FamilyTokens(f: string, k: string, tail: string)
    requires Free(f, DOT) && Free(k, DOT)
    ensures Tokens(Family(f, k, tail)) == [f] + (["kernel"] + ([k] + Tokens(tail)))
  {
    SplitCons(f, "kernel" + ['.'] + (k + ['.'] + tail), DOT);
    SplitCons("kernel", k + ['.'] + tail, DOT);
    SplitCons(k, tail, DOT);
  }

  lemma Spelled(k: string, tail: string)
    ensures EventSubject(k) == Family("event", k, ">") && ResultSubject(k) == Family("result", k, ">")
    ensures "event.kernel." + k + "." + tail == Family("event", k, tail)
    ensures "result.kernel." + k + "." + tail == Family("result", k, tail)
  {
    SpelledOne("event", k, tail);
    SpelledOne("result", k, tail);
    SpelledOne("event", k, ">");
    SpelledOne("result", k, ">");
    assert "event" + ".kernel." == "event.kernel." && "result" + ".kernel." == "result.kernel.";
    assert EventSubject(k) == "event.kernel." + k + "." + ">" && ResultSubject(k) == "result.kernel." + k + "." + ">";
  }

  lemma SpelledOne(f: string, k: string, tail: string)
    ensures (f + ".kernel.") + k + "." + tail == Family(f, k, tail)
  {
    assert ".kernel." == ['.'] + "kernel" + ['.'];
  }

  predicate Literal(t: string) { t != "*" && t != ">" && Free(t, DOT) }

  /** A grant on one family and kernel matches exactly the subjects of both. */
  lemma FamilyMatches(f: string, k: string, f': string, p: string, tail: string)
    requires Literal(f) && Literal(k) && Free(f', DOT) && Free(p, DOT)
    ensures Matches(Family(f, k, ">"), Family(f', p, tail)) <==> f == f' && k == p
  {
    FamilyTokens(f, k, ">");
    FamilyTokens(f', p, tail);
    SplitFree(">", DOT);
    FamilyCovers(f, k, f', p, Tokens(tail));
  }

  lemma FamilyCovers(f: string, k: string, f': string, p: string, rest: seq<string>)
    requires rest != [] && k != "*" && k != ">" && f != "*" && f != ">"
    ensures Covers([f] + (["kernel"] + ([k] + [">"])), [f'] + (["kernel"] + ([p] + rest))) <==> f == f' && k == p
  {
    var t := [f'] + (["kernel"] + ([p] + rest));
    CoversStep(f, ["kernel"] + ([k] + [">"]), t);
    assert t[1..] == ["kernel"] + ([p] + rest);
    CoversStep("kernel", [k] + [">"], t[1..]);
    assert t[1..][1..] == [p] + rest;
    CoversStep(k, [">"], t[1..][1..]);
    assert t[1..][1..][1..] == rest;
  }

  lemma InboxElsewhere(f: string, p: string, tail: string)
    requires Free(f, DOT) && Free(p, DOT) && f != "_INBOX"
    ensures !Matches(INBOX, Family(f, p, tail))
  {
    assert INBOX == "_INBOX" + ['.'] + ">";
    assert Free("_INBOX", DOT);
    SplitCons("_INBOX", ">", DOT);
    SplitFree(">", DOT);
    FamilyTokens(f, p, tail);
  }

  /** The read grants of a verified connection, one by one. */
  lemma {:induction false} ReadGrantsAre(kernels: seq<string>, grant: string)
    ensures grant in ReadGrants(kernels) <==> exists i :: 0 <= i < |kernels| && (grant == EventSubject(kernels[i]) || grant == ResultSubject(kernels[i]))
  {
    if kernels != [] {
      var n := |kernels| - 1;
      ReadGrantsAre(kernels[..n], grant);
      assert forall i :: 0 <= i < n ==> kernels[..n][i] == kernels[i];
    }
  }

  lemma MemberAdmits(grants: seq<string>, subject: string)
    ensures Admits(grants, subject) <==> exists grant :: grant in grants && Matches(grant, subject)
  {
    if Admits(grants, subject) {
      var i :| 0 <= i < |grants| && Matches(grants[i], subject);
      assert grants[i] in grants;
    }
  }

  /** HEARING, EXACTLY. Events of a kernel reach every connection minted for it; results
      reach the verified ones; and an inbox is for the verified alone. */
  lemma MayHear(a: Admission, kernels: seq<string>, p: string, tail: string)
    requires (forall k :: k in kernels ==> KernelName(k)) && KernelName(p)
    ensures Admits(Granted(a, kernels).sub, "event.kernel." + p + "." + tail) <==> p in kernels
    ensures Admits(Granted(a, kernels).sub, "result.kernel." + p + "." + tail) <==> a.Verified? && p in kernels
  {
    Spelled(p, tail);
    HearFamily(a, kernels, "event", p, tail);
    HearFamily(a, kernels, "result", p, tail);
  }

  lemma HearFamily(a: Admission, kernels: seq<string>, f: string, p: string, tail: string)
    requires (forall k :: k in kernels ==> KernelName(k)) && KernelName(p) && (f == "event" || f == "result")
    ensures Admits(Granted(a, kernels).sub, Family(f, p, tail)) <==> p in kernels && (f == "result" ==> a.Verified?)
  {
    var grants, subject := Granted(a, kernels).sub, Family(f, p, tail);
    MemberAdmits(grants, subject);
    KernelNameIsLiteral(p);
    InboxElsewhere(f, p, tail);
    forall grant ensures grant in grants && Matches(grant, subject) ==> p in kernels && (f == "result" ==> a.Verified?) {
      if grant in grants && Matches(grant, subject) {
        GrantFamily(a, kernels, grant, f, p, tail);
      }
    }
    if p in kernels && (f == "result" ==> a.Verified?) {
      var i :| 0 <= i < |kernels| && kernels[i] == p;
      Spelled(p, tail);
      FamilyMatches(f, p, f, p, tail);
      HasGrant(a, kernels, i, f);
      assert Family(f, p, ">") in grants && Matches(Family(f, p, ">"), subject);
    }
  }

  lemma HasGrant(a: Admission, kernels: seq<string>, i: nat, f: string)
    requires i < |kernels| && (f == "event" || (f == "result" && a.Verified?))
    ensures Family(f, kernels[i], ">") in Granted(a, kernels).sub
  {
    Spelled(kernels[i], "");
    if a.Verified? {
      ReadGrantsAre(kernels, Family(f, kernels[i], ">"));
    } else {
      assert Granted(a, kernels).sub[i] == EventSubject(kernels[i]);
    }
  }

  lemma GrantFamily(a: Admission, kernels: seq<string>, grant: string, f: string, p: string, tail: string)
    requires (forall k :: k in kernels ==> KernelName(k)) && Free(p, DOT) && (f == "event" || f == "result")
    requires grant in Granted(a, kernels).sub && Matches(grant, Family(f, p, tail))
    ensures p in kernels && (f == "result" ==> a.Verified?)
  {
    if a.Verified? {
      VerifiedFamily(kernels, grant, f, p, tail);
    } else {
      AnonymousFamily(kernels, grant, f, p, tail);
    }
  }

  lemma VerifiedFamily(kernels: seq<string>, grant: string, f: string, p: string, tail: string)
    requires (forall k :: k in kernels ==> KernelName(k)) && Free(p, DOT) && Free(f, DOT) && f != "_INBOX"
    requires grant in ReadGrants(kernels) + [INBOX] && Matches(grant, Family(f, p, tail))
    ensures p in kernels
  {
    InboxElsewhere(f, p, tail);
    ReadGrantsAre(kernels, grant);
    var i :| 0 <= i < |kernels| && (grant == EventSubject(kernels[i]) || grant == ResultSubject(kernels[i]));
    OneGrant(kernels[i], f, p, tail);
  }

  lemma AnonymousFamily(kernels: seq<string>, grant: string, f: string, p: string, tail: string)
    requires (forall k :: k in kernels ==> KernelName(k)) && Free(p, DOT) && Free(f, DOT)
    requires grant in Granted(Admission.Anonymous, kernels).sub && Matches(grant, Family(f, p, tail))
    ensures p in kernels && f == "event"
  {
    var i :| 0 <= i < |kernels| && grant == EventSubject(kernels[i]);
    OneGrant(kernels[i], f, p, tail);
  }

  lemma OneGrant(k: string, f: string, p: string, tail: string)
    requires KernelName(k) && Free(p, DOT) && Free(f, DOT)
    ensures Matches(EventSubject(k), Family(f, p, tail)) <==> f == "event" && k == p
    ensures Matches(ResultSubject(k), Family(f, p, tail)) <==> f == "result" && k == p
  {
    Spelled(k, "");
    KernelNameIsLiteral(k);
    FamilyMatches("event", k, f, p, tail);
    FamilyMatches("result", k, f, p, tail);
  }

  lemma InboxTokens(tail: string)
    ensures Tokens("_INBOX." + tail) == ["_INBOX"] + Tokens(tail)
  {
    assert "_INBOX." + tail == "_INBOX" + ['.'] + tail && Free("_INBOX", DOT);
    SplitCons("_INBOX", tail, DOT);
  }

  lemma InboxMatches(tail: string)
    ensures Matches(INBOX, "_INBOX." + tail)
  {
    assert INBOX == "_INBOX." + ">";
    InboxTokens(">");
    InboxTokens(tail);
    SplitFree(">", DOT);
    CoversStep("_INBOX", [">"], Tokens("_INBOX." + tail));
    assert Tokens("_INBOX." + tail)[1..] == Tokens(tail);
  }

  lemma EventIsNoInbox(k: string, tail: string)
    requires KernelName(k)
    ensures !Matches(EventSubject(k), "_INBOX." + tail)
  {
    Spelled(k, "");
    KernelNameIsLiteral(k);
    FamilyTokens("event", k, ">");
    InboxTokens(tail);
  }

  lemma InboxHeard(a: Admission, kernels: seq<string>, tail: string)
    requires forall k :: k in kernels ==> KernelName(k)
    ensures Admits(Granted(a, kernels).sub, "_INBOX." + tail) <==> a.Verified?
  {
    var grants, subject := Granted(a, kernels).sub, "_INBOX." + tail;
    MemberAdmits(grants, subject);
    if a.Verified? {
      InboxMatches(tail);
      assert INBOX in grants;
    } else {
      forall grant | grant in grants ensures !Matches(grant, subject) {
        var i :| 0 <= i < |kernels| && grant == EventSubject(kernels[i]);
        EventIsNoInbox(kernels[i], tail);
      }
    }
  }
}
