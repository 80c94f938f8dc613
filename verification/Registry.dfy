/** The affordance registry: rebuilt from sealed facts, keyed by the kernel and
    verb their input topic names. */
module Registry {
  import opened Text
  import opened Matcher
  import opened Door

  datatype Fact = Fact(iri: string, inTopic: string, outTopic: Option<string>, inShape: Option<string>,
                       plane: Option<string>, epoch: Option<string>, delegate: Option<string>)

  datatype Row = Row(iri: string, inTopic: string, outTopic: Option<string>, inShape: Option<string>,
                     plane: string, epoch: int, delegate: bool)

  type Index = map<(string, string), Row>

  /** The text casts the database performs; None is a raise. */
  datatype Casts = Casts(toInt: string -> Option<int>, toBool: string -> Option<bool>)

  /** The longest dot-free prefix: `[^.]+` before a dot. */
  function Run(s: string): (n: nat)
    ensures n <= |s| && Free(s[..n], DOT) && (n < |s| ==> s[n] == DOT)
  {
    if s == "" || s[0] == DOT then 0
    else
      var n := 1 + Run(s[1..]);
      assert s[..n] == [s[0]] + s[1..][..n - 1];
      n
  }

  /** `^input\\.kernel\\.([^.]+)\\.action\\.(.*)$` with a non-empty rest. */
  function Derive(topic: string): Option<(string, string)> {
    var rest := StripPrefix(topic, "input.kernel.");
    if rest.None? then None else DeriveRest(rest.value)
  }

  lemma RunOf(k: string, rest: string)
    requires Free(k, DOT) && rest != "" && rest[0] == DOT
    ensures Run(k + rest) == |k|
  {
    var n := Run(k + rest);
    var s := k + rest;
    assert s[|k|] == DOT && forall i :: 0 <= i < |k| ==> s[i] == k[i];
    assert forall i :: 0 <= i < n ==> s[..n][i] == s[i];
  }

  lemma PlainAddress(k: string, v: string)
    ensures Address(k, None, v) == "input.kernel." + (k + (".action." + v))
  {
    assert "." + ("action." + v) == ".action." + v;
    assert k + "." + ("action." + v) == k + (".action." + v);
  }

  /** The part of the pattern after the prefix. */
  function DeriveRest(rest: string): Option<(string, string)> {
    var n := Run(rest);
    if n == 0 || !(".action." <= rest[n..]) || rest[n..] == ".action." then None
    else Some((rest[..n], rest[n..][|".action."|..]))
  }

  lemma DeriveRestOf(k: string, v: string)
    requires Token(k) && v != ""
    ensures DeriveRest(k + (".action." + v)) == Some((k, v))
  {
    var tail := ".action." + v;
    var rest := k + tail;
    RunOf(k, tail);
    assert rest[|k|..] == tail && rest[..|k|] == k;
    assert tail[|".action."|..] == v;
    assert |tail| > |".action."|;
  }

  lemma DeriveRestSound(rest: string)
    ensures var r := DeriveRest(rest);
      r.Some? ==> Token(r.value.0) && r.value.1 != "" && rest == r.value.0 + (".action." + r.value.1)
  {
    var n := Run(rest);
    assert rest == rest[..n] + rest[n..];
    if ".action." <= rest[n..] {
      assert rest[n..] == ".action." + rest[n..][|".action."|..];
    }
  }

  lemma DeriveIffAddress(topic: string, k: string, v: string)
    ensures Derive(topic) == Some((k, v)) <==> Token(k) && v != "" && topic == Address(k, None, v)
  {
    PlainAddress(k, v);
    if Token(k) && v != "" {
      DeriveRestOf(k, v);
      StripPrefixOf("input.kernel.", k + (".action." + v));
    }
    var rest := StripPrefix(topic, "input.kernel.");
    if rest.Some? {
      DeriveRestSound(rest.value);
      assert topic == "input.kernel." + rest.value;
    }
  }

  /** REGISTRY AGREES WITH ROUTING: a topic is registered under (kernel, verb)
      exactly when an anonymous message on it is routed to them. */
  lemma RegistryAgreesWithRoute(topic: string, k: string, v: string)
    ensures Derive(topic) == Some((k, v)) <==> RouteInbound(topic) == Some(Routed(k, None, v, ReplySubject(k, v)))
  {
    DeriveIffAddress(topic, k, v);
    RouteIffAddress(topic, k, None, v);
  }

  // ------------------------------------------------------------------- refresh

  /** `NULLIF(split_part(COALESCE(x, ''), '^', 1), '')`. */
  function Untyped(t: Option<string>): Option<string> {
    var first := Split(if t.Some? then t.value else "", '^')[0];
    if first == "" then None else Some(first)
  }

  function RowOf(c: Casts, f: Fact): Option<Row> {
    var epoch := if Untyped(f.epoch).None? then Some(1) else c.toInt(Untyped(f.epoch).value);
    var delegate := if Untyped(f.delegate).None? then Some(false) else c.toBool(Untyped(f.delegate).value);
    var plane := if Untyped(f.plane).None? then "instance" else Untyped(f.plane).value;
    if epoch.None? || delegate.None? then None
    else Some(Row(f.iri, f.inTopic, f.outTopic, f.inShape, plane, epoch.value, delegate.value))
  }

  /** What one fact does to the index. */
  datatype Change = Skip | Raise | Put(key: (string, string), row: Row)

  function ChangeOf(c: Casts, f: Fact): Change {
    var key, row := Derive(f.inTopic), RowOf(c, f);
    if key.None? then Skip else if row.None? then Raise else Put(key.value, row.value)
  }

  function Changes(c: Casts, facts: seq<Fact>): (r: seq<Change>)
    ensures |r| == |facts|
  {
    seq(|facts|, i requires 0 <= i < |facts| => ChangeOf(c, facts[i]))
  }

  /** The last change per key wins; None if one raises. */
  function Fold(changes: seq<Change>): Option<Index> {
    if changes == [] then Some(map[])
    else
      var n := |changes| - 1;
      var before := Fold(changes[..n]);
      if before.None? || changes[n].Raise? then None
      else if changes[n].Skip? then before
      else Some(before.value[changes[n].key := changes[n].row])
  }

  /** The rows the facts give. */
  function Rows(c: Casts, facts: seq<Fact>): Option<Index> { Fold(Changes(c, facts)) }

  /** `registry_lookup`: exact match only. */
  function Lookup(index: Index, kernel: string, verb: string): Option<Row> {
    if (kernel, verb) in index then Some(index[(kernel, verb)]) else None
  }

  class AffordanceRegistry {
    var index: Index

    constructor ()
      ensures index == map[]
    {
      index := map[];
    }

    /** `registry_refresh`: upsert one row per derivable fact and count them; None
        is a raise, and the index is as it was. */
    method Refresh(c: Casts, facts: seq<Fact>) returns (count: Option<nat>)
      modifies this
      ensures Rows(c, facts).None? <==> count.None?
      ensures index == if count.Some? then old(index) + Rows(c, facts).value else old(index)
      ensures count.Some? ==> count.value == Puts(Changes(c, facts))
    {
      var before := index;
      var n := 0;
      ghost var changes := Changes(c, facts);
      for i := 0 to |facts|
        invariant Fold(changes[..i]).Some? && index == before + Fold(changes[..i]).value
        invariant n == Puts(changes[..i])
      {
        FoldStep(changes, i);
        var change := Read(c, facts, i);
        if change.Skip? {
          continue;
        }
        if change.Raise? {
          RaiseStays(changes, i + 1);
          index := before;
          return None;
        }
        MergeStep(before, Fold(changes[..i]).value, change.key, change.row);
        index := index[change.key := change.row];
        n := n + 1;
      }
      assert changes[..|facts|] == changes;
      return Some(n);
    }

    /** The body of the loop up to the upsert: derive the key, cast the fields. */
    method Read(c: Casts, facts: seq<Fact>, i: nat) returns (change: Change)
      requires i < |facts|
      ensures change == Changes(c, facts)[i]
    {
      var key := Derive(facts[i].inTopic);
      if key.None? {
        return Skip;
      }
      var row := RowOf(c, facts[i]);
      change := if row.None? then Raise else Put(key.value, row.value);
    }
  }

  lemma MergeStep(before: Index, rows: Index, key: (string, string), row: Row)
    ensures (before + rows)[key := row] == before + rows[key := row]
  {
  }

  /** How many of the changes write a row. */
  function Puts(changes: seq<Change>): nat {
    if changes == [] then 0
    else Puts(changes[..|changes| - 1]) + (if changes[|changes| - 1].Put? then 1 else 0)
  }

  lemma FoldStep(changes: seq<Change>, i: nat)
    requires i < |changes|
    ensures Puts(changes[..i + 1]) == Puts(changes[..i]) + (if changes[i].Put? then 1 else 0)
    ensures var before, after, e := Fold(changes[..i]), Fold(changes[..i + 1]), changes[i];
      after == if before.None? || e.Raise? then None else if e.Skip? then before else Some(before.value[e.key := e.row])
  {
    assert changes[..i + 1][..i] == changes[..i];
  }

  lemma {:induction false} RaiseStays(changes: seq<Change>, i: nat)
    requires i <= |changes| && Fold(changes[..i]).None?
    ensures Fold(changes).None?
  {
    if i == |changes| {
      assert changes[..i] == changes;
    } else {
      RaiseStays(changes[..|changes| - 1], i) by {
        assert changes[..|changes| - 1][..i] == changes[..i];
      }
    }
  }

  /** No two changes put the same key. */
  ghost predicate Distinct(changes: seq<Change>) {
    forall i, j :: 0 <= i < j < |changes| && changes[i].Put? && changes[j].Put? ==> changes[i].key != changes[j].key
  }

  lemma {:induction false} FoldExactly(changes: seq<Change>, key: (string, string))
    requires Distinct(changes) && Fold(changes).Some?
    ensures forall i :: 0 <= i < |changes| ==> !changes[i].Raise?
    ensures key in Fold(changes).value ==> exists i :: 0 <= i < |changes| && changes[i] == Put(key, Fold(changes).value[key])
    ensures forall i :: 0 <= i < |changes| && changes[i].Put? && changes[i].key == key ==>
      key in Fold(changes).value && Fold(changes).value[key] == changes[i].row
  {
    if changes != [] {
      var n := |changes| - 1;
      var front := changes[..n];
      assert forall i :: 0 <= i < n ==> front[i] == changes[i];
      FoldExactly(front, key);
    }
  }

  ghost predicate UniqueKeys(facts: seq<Fact>) {
    forall i, j :: 0 <= i < j < |facts| && Derive(facts[i].inTopic).Some? ==> Derive(facts[i].inTopic) != Derive(facts[j].inTopic)
  }

  /** The index holds exactly the derivable facts, each under its own key. */
  lemma RowsExactly(c: Casts, facts: seq<Fact>, key: (string, string))
    requires UniqueKeys(facts) && Rows(c, facts).Some?
    ensures key in Rows(c, facts).value <==> exists i :: 0 <= i < |facts| && Derive(facts[i].inTopic) == Some(key)
    ensures forall i :: 0 <= i < |facts| && Derive(facts[i].inTopic) == Some(key) ==>
      key in Rows(c, facts).value && Some(Rows(c, facts).value[key]) == RowOf(c, facts[i])
  {
    var changes := Changes(c, facts);
    assert forall i :: 0 <= i < |facts| ==> changes[i] == ChangeOf(c, facts[i]);
    UniqueDistinct(c, facts);
    FoldExactly(changes, key);
    forall i | 0 <= i < |facts| && Derive(facts[i].inTopic) == Some(key)
      ensures key in Rows(c, facts).value && Some(Rows(c, facts).value[key]) == RowOf(c, facts[i])
    {
      assert changes[i] == ChangeOf(c, facts[i]);
    }
  }

  lemma UniqueDistinct(c: Casts, facts: seq<Fact>)
    requires UniqueKeys(facts)
    ensures Distinct(Changes(c, facts))
  {
    var changes := Changes(c, facts);
    forall i, j | 0 <= i < j < |changes| && changes[i].Put? && changes[j].Put? ensures changes[i].key != changes[j].key {
      assert changes[i] == ChangeOf(c, facts[i]) && changes[j] == ChangeOf(c, facts[j]);
    }
  }

  /** After a refresh of facts with unique keys, a lookup returns the fact of its
      key, whatever the index held before. */
  lemma LookupAfterRefresh(c: Casts, index: Index, facts: seq<Fact>, i: nat, kernel: string, verb: string)
    requires UniqueKeys(facts) && Rows(c, facts).Some?
    requires i < |facts| && Derive(facts[i].inTopic) == Some((kernel, verb))
    ensures Lookup(index + Rows(c, facts).value, kernel, verb) == RowOf(c, facts[i])
    ensures RowOf(c, facts[i]).Some?
  {
    RowsExactly(c, facts, (kernel, verb));
  }

  /** And a verb no fact names is found exactly as it was before. */
  lemma LookupElsewhere(c: Casts, index: Index, facts: seq<Fact>, kernel: string, verb: string)
    requires UniqueKeys(facts) && Rows(c, facts).Some?
    requires forall i :: 0 <= i < |facts| ==> Derive(facts[i].inTopic) != Some((kernel, verb))
    ensures Lookup(index + Rows(c, facts).value, kernel, verb) == Lookup(index, kernel, verb)
  {
    RowsExactly(c, facts, (kernel, verb));
  }

  // ---------------------------------------------------------- refreshing again

  lemma {:induction false} NoRaiseFolds(changes: seq<Change>)
    requires forall i :: 0 <= i < |changes| ==> !changes[i].Raise?
    ensures Fold(changes).Some?
  {
    if changes != [] {
      NoRaiseFolds(changes[..|changes| - 1]);
    }
  }

  /** A member that occurs twice occurs at two places. */
  lemma {:induction false} TwoPlaces(facts: seq<Fact>, f: Fact) returns (i: nat, j: nat)
    requires multiset(facts)[f] >= 2
    ensures i < j < |facts| && facts[i] == f == facts[j]
    decreases |facts|
  {
    var n := |facts| - 1;
    assert facts == facts[..n] + [facts[n]];
    if facts[n] == f {
      assert f in multiset(facts[..n]);
      i :| 0 <= i < n && facts[i] == f;
      j := n;
    } else {
      i, j := TwoPlaces(facts[..n], f);
    }
  }

  lemma {:induction false} TwoCounts(facts: seq<Fact>, i: nat, j: nat)
    requires i < j < |facts| && facts[i] == facts[j]
    ensures multiset(facts)[facts[i]] >= 2
  {
    assert facts == facts[..j] + [facts[j]] + facts[j + 1..];
    assert facts[i] in facts[..j];
  }

  /** Unique keys do not depend on the order in which the facts are read. */
  lemma UniqueInAnyOrder(facts: seq<Fact>, again: seq<Fact>)
    requires UniqueKeys(facts) && multiset(facts) == multiset(again)
    ensures UniqueKeys(again)
  {
    forall i, j | 0 <= i < j < |again| && Derive(again[i].inTopic).Some?
      ensures Derive(again[i].inTopic) != Derive(again[j].inTopic)
    {
      if again[i] == again[j] {
        TwoCounts(again, i, j);
        var a, b := TwoPlaces(facts, again[i]);
        assert Derive(facts[a].inTopic) != Derive(facts[b].inTopic);
      } else {
        SameMembers(facts, again, again[i]);
        SameMembers(facts, again, again[j]);
        var a :| 0 <= a < |facts| && facts[a] == again[i];
        var b :| 0 <= b < |facts| && facts[b] == again[j];
        assert a < b || b < a;
      }
    }
  }

  lemma SameMembers(facts: seq<Fact>, again: seq<Fact>, f: Fact)
    requires multiset(facts) == multiset(again)
    ensures f in facts <==> f in again
  {
    assert f in facts <==> f in multiset(facts);
    assert f in again <==> f in multiset(again);
  }

  lemma RowsHold(c: Casts, facts: seq<Fact>, again: seq<Fact>, key: (string, string))
    requires UniqueKeys(facts) && UniqueKeys(again) && multiset(facts) == multiset(again)
    requires Rows(c, facts).Some? && Rows(c, again).Some? && key in Rows(c, facts).value
    ensures key in Rows(c, again).value && Rows(c, again).value[key] == Rows(c, facts).value[key]
  {
    RowsExactly(c, facts, key);
    RowsExactly(c, again, key);
    var i :| 0 <= i < |facts| && Derive(facts[i].inTopic) == Some(key);
    SameMembers(facts, again, facts[i]);
    var j :| 0 <= j < |again| && again[j] == facts[i];
  }

  lemma ReadsAgain(c: Casts, facts: seq<Fact>, again: seq<Fact>)
    requires multiset(facts) == multiset(again) && UniqueKeys(facts) && Rows(c, facts).Some?
    ensures Rows(c, again).Some?
  {
    var changes, others := Changes(c, facts), Changes(c, again);
    UniqueDistinct(c, facts);
    FoldExactly(changes, ("", ""));
    forall j | 0 <= j < |others| ensures !others[j].Raise? {
      SameMembers(facts, again, again[j]);
      var i :| 0 <= i < |facts| && facts[i] == again[j];
      assert changes[i] == others[j];
    }
    NoRaiseFolds(others);
  }

  /** Refreshing again with the same facts, read in any order, gives the same rows,
      so the index does not change. */
  lemma RefreshAgain(c: Casts, index: Index, facts: seq<Fact>, again: seq<Fact>)
    requires UniqueKeys(facts) && Rows(c, facts).Some? && multiset(facts) == multiset(again)
    ensures Rows(c, again) == Rows(c, facts)
    ensures index + Rows(c, facts).value + Rows(c, again).value == index + Rows(c, facts).value
  {
    UniqueInAnyOrder(facts, again);
    ReadsAgain(c, facts, again);
    var rows, others := Rows(c, facts).value, Rows(c, again).value;
    forall key | key in rows ensures key in others && others[key] == rows[key] {
      RowsHold(c, facts, again, key);
    }
    forall key | key in others ensures key in rows {
      RowsHold(c, again, facts, key);
    }
    assert rows == others;
  }

  /** With unique keys the count a refresh returns is the number of rows. */
  lemma {:induction false} PutsCountRows(changes: seq<Change>)
    requires Distinct(changes) && Fold(changes).Some?
    ensures |Fold(changes).value| == Puts(changes)
  {
    if changes != [] {
      var n := |changes| - 1;
      var front := changes[..n];
      PutsCountRows(front);
      if changes[n].Put? {
        FoldExactly(front, changes[n].key);
        assert changes[n].key !in Fold(front).value;
      }
    }
  }

  lemma RefreshCounts(c: Casts, facts: seq<Fact>)
    requires UniqueKeys(facts) && Rows(c, facts).Some?
    ensures |Rows(c, facts).value| == Puts(Changes(c, facts))
  {
    UniqueDistinct(c, facts);
    PutsCountRows(Changes(c, facts));
  }

  // ------------------------------------------------------------- what a row holds

  /** A typed literal's own text: what precedes its first caret; none if that is empty. */
  ghost predicate TextIs(t: Option<string>, x: Option<string>) {
    if t.None? then x == None
    else if x.None? then t.value == "" || t.value[0] == '^'
    else x.value != "" && Free(x.value, '^') && (t.value == x.value || exists rest: string :: t.value == x.value + ['^'] + rest)
  }

  lemma UntypedIs(t: Option<string>, x: Option<string>)
    requires TextIs(t, x)
    ensures Untyped(t) == x
  {
    if t.Some? && x.Some? {
      if t.value == x.value {
        SplitFree(x.value, '^');
      } else {
        var rest: string :| t.value == x.value + ['^'] + rest;
        SplitCons(x.value, rest, '^');
      }
    }
  }

  /** A ROW carries its fact's texts, with plane `instance`, epoch 1 and no delegation
      where the fact says nothing; a text that does not cast raises. */
  lemma RowSays(c: Casts, f: Fact, plane: Option<string>, epoch: Option<string>, delegate: Option<string>)
    requires TextIs(f.plane, plane) && TextIs(f.epoch, epoch) && TextIs(f.delegate, delegate)
    ensures var e, d := if epoch.None? then Some(1) else c.toInt(epoch.value), if delegate.None? then Some(false) else c.toBool(delegate.value);
      && (RowOf(c, f).None? <==> e.None? || d.None?)
      && (RowOf(c, f).Some? ==>
           RowOf(c, f).value == Row(f.iri, f.inTopic, f.outTopic, f.inShape, if plane.None? then "instance" else plane.value, e.value, d.value))
  {
    UntypedIs(f.plane, plane);
    UntypedIs(f.epoch, epoch);
    UntypedIs(f.delegate, delegate);
  }
}
