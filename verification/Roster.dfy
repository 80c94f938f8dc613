/** The kernel roster behind the grants: the configured names and the sealed
    kernels, both filtered, united without loss or repeat. */
module Roster {
  import opened Text
  import opened Matcher
  import opened Door

  function TrimAll(names: seq<string>): seq<string> {
    seq(|names|, i requires 0 <= i < |names| => Trim(names[i], IsWhite))
  }

  function OnlyNames(ts: seq<string>): seq<string> {
    if ts == [] then []
    else
      var n := |ts| - 1;
      OnlyNames(ts[..n]) + (if KernelName(ts[n]) then [ts[n]] else [])
  }

  /** Trim each name and keep the ones that are a single literal token. */
  function Kept(names: seq<string>): seq<string> {
    OnlyNames(TrimAll(names))
  }

  /** `pgck.kernels`: comma-separated, absent reads as empty. */
  function Configured(guc: Option<string>): seq<string> {
    Kept(Split(if guc.Some? then guc.value else "", ','))
  }

  /** The configured names first, then each sealed name not yet present. */
  function Union(base: seq<string>, ledger: seq<string>): seq<string> {
    if ledger == [] then base
    else
      var n := |ledger| - 1;
      var u := Union(base, ledger[..n]);
      if ledger[n] in u then u else u + [ledger[n]]
  }

  /** The two cached values the callout responder reads. */
  class CalloutPolicy {
    var ledgerKernels: seq<string>
    var policy: Option<(bool, seq<string>)>

    constructor ()
      ensures ledgerKernels == [] && policy == None
    {
      ledgerKernels, policy := [], None;
    }

    /** Cache the sealed names: a name is cached exactly when it is a given name,
        trimmed, and one literal token; the given order is kept. */
    method SetLedgerKernels(kernels: seq<string>)
      modifies this`ledgerKernels
      ensures forall k :: k in ledgerKernels <==> KernelName(k) && exists i :: 0 <= i < |kernels| && Trim(kernels[i], IsWhite) == k
      ensures ledgerKernels == Kept(kernels)
    {
      ledgerKernels := Kept(kernels);
      forall k ensures k in ledgerKernels <==> KernelName(k) && exists i :: 0 <= i < |kernels| && Trim(kernels[i], IsWhite) == k {
        OnlyNamesExactly(TrimAll(kernels), k);
        TrimAllMembers(kernels, k);
      }
    }

    method Refresh(guc: Option<string>, admitAnonymous: bool)
      modifies this`policy
      ensures policy == Some((admitAnonymous, Union(Configured(guc), ledgerKernels)))
    {
      var base := Configured(guc);
      var kernels := base;
      for i := 0 to |ledgerKernels|
        invariant kernels == Union(base, ledgerKernels[..i])
      {
        assert ledgerKernels[..i + 1][..i] == ledgerKernels[..i];
        if ledgerKernels[i] !in kernels {
          kernels := kernels + [ledgerKernels[i]];
        }
      }
      assert ledgerKernels[..|ledgerKernels|] == ledgerKernels;
      policy := Some((admitAnonymous, kernels));
    }

    /** Before the first refresh: admit, on the canonical default kernel. */
    method Current() returns (p: (bool, seq<string>))
      ensures p == if policy.Some? then policy.value else (true, ["pgck"])
    {
      p := if policy.Some? then policy.value else (true, ["pgck"]);
    }
  }

  lemma TrimAllMembers(names: seq<string>, k: string)
    ensures k in TrimAll(names) <==> exists i :: 0 <= i < |names| && Trim(names[i], IsWhite) == k
  {
    assert forall i :: 0 <= i < |names| ==> TrimAll(names)[i] == Trim(names[i], IsWhite);
  }

  /** What the filter keeps: exactly the trimmed names that are one token. */
  lemma {:induction false} OnlyNamesExactly(ts: seq<string>, k: string)
    ensures k in OnlyNames(ts) <==> KernelName(k) && k in ts
  {
    if ts != [] {
      OnlyNamesExactly(ts[..|ts| - 1], k);
      assert k in ts <==> k in ts[..|ts| - 1] || k == ts[|ts| - 1];
    }
  }

  /** The setting names a kernel exactly when one of its comma-separated pieces,
      trimmed, is that one token; an absent setting names none. */
  lemma ConfiguredExactly(pieces: seq<string>, k: string)
    requires |pieces| >= 1 && forall p :: p in pieces ==> Free(p, ',')
    ensures k in Configured(Some(Join(pieces, ','))) <==> KernelName(k) && exists i :: 0 <= i < |pieces| && Trim(pieces[i], IsWhite) == k
    ensures k !in Configured(None)
  {
    SplitJoin(pieces, ',');
    OnlyNamesExactly(TrimAll(pieces), k);
    TrimAllMembers(pieces, k);
    OnlyNamesExactly(TrimAll([""]), k);
    TrimAllMembers([""], k);
  }

  /** The union keeps the configured names, in order, in front; holds exactly the
      names of both halves; and appends no name twice. */
  lemma {:induction false} UnionExactly(base: seq<string>, ledger: seq<string>, k: string)
    ensures var u := Union(base, ledger);
      && base <= u
      && (k in u <==> k in base || k in ledger)
      && (forall i, j :: |base| <= j < |u| && 0 <= i < j ==> u[i] != u[j])
  {
    if ledger != [] {
      var n := |ledger| - 1;
      UnionExactly(base, ledger[..n], k);
      assert k in ledger <==> k in ledger[..n] || k == ledger[n];
    }
  }

  /** Whatever the setting and the ledger say, every name in the roster passes the
      filter, so the grants minted over it agree with the routes. */
  lemma RosterIsFiltered(guc: Option<string>, names: seq<string>)
    ensures forall k :: k in Union(Configured(guc), Kept(names)) ==> KernelName(k)
  {
    forall k | k in Union(Configured(guc), Kept(names)) ensures KernelName(k) {
      UnionExactly(Configured(guc), Kept(names), k);
      OnlyNamesExactly(TrimAll(Split(if guc.Some? then guc.value else "", ',')), k);
      OnlyNamesExactly(TrimAll(names), k);
    }
  }

  /** End to end: setting and ledger in, agreement of grants and routes out. */
  lemma RosterGrantsAgree(guc: Option<string>, names: seq<string>, a: Admission, subject: string)
    requires Admits(Granted(a, Union(Configured(guc), Kept(names))).pub, subject)
    ensures a.Verified? && Matches(RELAY_ID, subject) && !Matches(RELAY_IN, subject)
    ensures var r := RouteInbound(subject);
      && (r.None? <==> VerbOf(subject) == "")
      && (r.Some? ==>
           && r.value.identity == Some(SubjectToken(a.sub))
           && (r.value.kernel in Configured(guc) || r.value.kernel in Kept(names))
           && Admits(Granted(a, Union(Configured(guc), Kept(names))).sub, r.value.reply))
  {
    RosterIsFiltered(guc, names);
    GrantsAgreeWithRoutes(a, Union(Configured(guc), Kept(names)), subject);
    var r := RouteInbound(subject);
    if r.Some? {
      UnionExactly(Configured(guc), Kept(names), r.value.kernel);
    }
  }
}
