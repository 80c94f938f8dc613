/** The two name normalisers: `ckp._slug` (the owner gates) and
    `ckp.urn_normalise` (the participant IRI `ckp.seal` mints). Both lower-case
    with the database's own character table, which is a parameter here. */
module Normalise {
  import opened Text

  predicate Alnum(c: char) { 'a' <= c <= 'z' || '0' <= c <= '9' }

  predicate AlnumOrHyphen(c: char) { Alnum(c) || c == '-' }

  predicate IsHyphen(c: char) { c == '-' }

  predicate IsSpace(c: char) { c == ' ' }

  /** All that is assumed of the character table: it leaves [a-z0-9-] alone and
      does not turn a space into a letter. */
  ghost predicate LowerOk(lower: char -> char) {
    && (forall c :: AlnumOrHyphen(c) ==> lower(c) == c)
    && !Alnum(lower(' '))
  }

  function Lower(s: string, lower: char -> char): (r: string)
    ensures |r| == |s| && forall i :: 0 <= i < |s| ==> r[i] == lower(s[i])
  {
    seq(|s|, i requires 0 <= i < |s| => lower(s[i]))
  }

  /** Drop the characters before the first kept one. */
  function Skip(s: string, keep: char -> bool): (r: string)
    ensures |r| <= |s| && r == s[|s| - |r|..]
    ensures r != "" ==> keep(r[0])
    ensures forall i :: 0 <= i < |s| - |r| ==> !keep(s[i])
  {
    if s == "" || keep(s[0]) then s else Skip(s[1..], keep)
  }

  /** `regexp_replace(s, '[^keep]+', '-', 'g')`: every maximal run of characters
      outside `keep` becomes one hyphen. */
  function Collapse(s: string, keep: char -> bool): string
    decreases |s|
  {
    if s == "" then ""
    else if keep(s[0]) then [s[0]] + Collapse(s[1..], keep)
    else "-" + Collapse(Skip(s[1..], keep), keep)
  }

  function Slug(p: string, lower: char -> char): string {
    var t := Trim(Collapse(Lower(p, lower), Alnum), IsHyphen);
    if t == "" then "x" else t
  }

  function UrnNormalise(raw: string, lower: char -> char): string {
    Collapse(Lower(Trim(raw, IsSpace), lower), AlnumOrHyphen)
  }

  /** A slug: alphanumeric runs joined by single hyphens. */
  predicate IsSlug(s: string) {
    && s != "" && s[0] != '-' && s[|s| - 1] != '-'
    && (forall i :: 0 <= i < |s| ==> AlnumOrHyphen(s[i]))
    && (forall i :: 0 < i < |s| ==> !(s[i - 1] == '-' && s[i] == '-'))
  }

  // -------------------------------------------------- an independent reference

  /** The alphanumeric runs of `s`, a hyphen owed between two of them. `started`:
      something was written; `owed`: a separator was passed since. */
  function Runs(s: string, started: bool, owed: bool): string {
    if s == "" then ""
    else if Alnum(s[0]) then (if started && owed then "-" else "") + [s[0]] + Runs(s[1..], true, false)
    else Runs(s[1..], started, true)
  }

  /** Separators at the front only owe a hyphen. */
  lemma {:induction false} RunsSkip(s: string, started: bool)
    ensures Runs(s, started, true) == Runs(Skip(s, Alnum), started, true)
  {
    if s != "" && !Alnum(s[0]) {
      RunsSkip(s[1..], started);
    }
  }

  /** A string that opens with an alphanumeric survives trimming; a hyphen put
      in front of it survives too. */
  lemma TrimHyphenFront(c: string)
    requires c != "" && Alnum(c[0])
    ensures TrimEnd("-" + c, IsHyphen) == "-" + TrimEnd(c, IsHyphen)
  {
    assert c == [c[0]] + c[1..];
    TrimEndCons(c[0], c[1..], IsHyphen);
    TrimEndConsAny('-', c, IsHyphen);
  }

  lemma RunsOwed(s: string)
    requires s != "" && Alnum(s[0])
    ensures Runs(s, true, true) == "-" + Runs(s, true, false)
  {
  }

  /** What trimming the end of a collapsed string leaves, piece by piece. */
  lemma {:induction false} CollapsedTail(s: string)
    ensures TrimEnd(Collapse(s, Alnum), IsHyphen) == Runs(s, true, false)
    decreases |s|
  {
    if s == "" {
    } else if Alnum(s[0]) {
      CollapsedTail(s[1..]);
      TrimEndCons(s[0], Collapse(s[1..], Alnum), IsHyphen);
    } else {
      CollapsedTailHyphen(s);
    }
  }

  lemma {:induction false} CollapsedTailHyphen(s: string)
    requires s != "" && !Alnum(s[0])
    ensures TrimEnd(Collapse(s, Alnum), IsHyphen) == Runs(s, true, false)
    decreases |s|, 0
  {
    var rest := Skip(s[1..], Alnum);
    RunsSkip(s[1..], true);
    CollapsedTail(rest);
    if rest == "" {
      assert TrimEnd("-", IsHyphen) == TrimEnd("-"[..0], IsHyphen);
    } else {
      TrimHyphenFront(Collapse(rest, Alnum));
      RunsOwed(rest);
    }
  }

  lemma {:induction false} TrimEndCons(c: char, s: string, drop: char -> bool)
    requires !drop(c)
    ensures TrimEnd([c] + s, drop) == [c] + TrimEnd(s, drop)
  {
    if s != "" && drop(s[|s| - 1]) {
      assert ([c] + s)[..|s|] == [c] + s[..|s| - 1];
      TrimEndCons(c, s[..|s| - 1], drop);
    }
  }

  lemma {:induction false} TrimEndConsAny(c: char, s: string, drop: char -> bool)
    requires TrimEnd(s, drop) != ""
    ensures TrimEnd([c] + s, drop) == [c] + TrimEnd(s, drop)
  {
    if s != "" && drop(s[|s| - 1]) {
      assert ([c] + s)[..|s|] == [c] + s[..|s| - 1];
      TrimEndConsAny(c, s[..|s| - 1], drop);
    }
  }

  /** `_slug` without its fallback is the run-joining reference. */
  lemma SlugIsRuns(p: string, lower: char -> char)
    ensures var r := Runs(Lower(p, lower), false, false);
      Slug(p, lower) == if r == "" then "x" else r
  {
    var s := Lower(p, lower);
    if s == "" {
    } else if Alnum(s[0]) {
      assert Collapse(s, Alnum)[0] == s[0];
      assert TrimStart(Collapse(s, Alnum), IsHyphen) == Collapse(s, Alnum);
      CollapsedTail(s);
    } else {
      var rest := Skip(s[1..], Alnum);
      var c := Collapse(rest, Alnum);
      assert Collapse(s, Alnum) == "-" + c;
      assert ("-" + c)[1..] == c;
      assert rest != "" ==> c[0] == rest[0];
      assert TrimStart("-" + c, IsHyphen) == c;
      CollapsedTail(rest);
      RunsSkip(s[1..], false);
    }
  }

  /** Alphanumeric runs joined by single hyphens, with at most one hyphen in front. */
  predicate Shaped(r: string, front: bool) {
    && (r == "" || ((r[0] == '-' ==> front) && r[|r| - 1] != '-'))
    && (forall i :: 0 <= i < |r| ==> AlnumOrHyphen(r[i]))
    && (forall i :: 0 < i < |r| ==> !(r[i - 1] == '-' && r[i] == '-'))
  }

  lemma ShapedMore(c: char, tail: string)
    requires Alnum(c) && Shaped(tail, true)
    ensures Shaped([c] + tail, false) && Shaped(['-', c] + tail, true)
  {
  }

  lemma {:induction false} RunsShape(s: string, started: bool, owed: bool)
    ensures Shaped(Runs(s, started, owed), started)
  {
    if s != "" {
      if Alnum(s[0]) {
        RunsShape(s[1..], true, false);
        ShapedMore(s[0], Runs(s[1..], true, false));
        assert ['-', s[0]] + Runs(s[1..], true, false) == "-" + [s[0]] + Runs(s[1..], true, false);
      } else {
        RunsShape(s[1..], started, true);
      }
    }
  }

  /** Every slug is alphanumeric runs joined by single hyphens. */
  lemma SlugShape(p: string, lower: char -> char)
    ensures IsSlug(Slug(p, lower))
  {
    SlugIsRuns(p, lower);
    RunsShape(Lower(p, lower), false, false);
  }

  lemma {:induction false} RunsOfSlug(s: string, started: bool)
    requires Shaped(s, started)
    ensures Runs(s, started, false) == s
    decreases |s|
  {
    if s == "" {
    } else if Alnum(s[0]) {
      RunsOfSlug(s[1..], true);
      assert s == [s[0]] + s[1..];
    } else {
      assert s[0] == '-' && |s| > 1 && s[1] != '-';
      assert s[1..][1..] == s[2..];
      RunsOfSlug(s[2..], true);
      assert s == ['-', s[1]] + s[2..];
    }
  }

  /** The fixed points of `_slug` are exactly the well-shaped names. */
  lemma SlugFixedPoints(p: string, lower: char -> char)
    requires LowerOk(lower)
    ensures Slug(p, lower) == p <==> IsSlug(p)
  {
    if IsSlug(p) {
      assert Lower(p, lower) == p;
      SlugIsRuns(p, lower);
      RunsOfSlug(p, false);
    }
    SlugShape(p, lower);
  }

  lemma SlugIdempotent(p: string, lower: char -> char)
    requires LowerOk(lower)
    ensures Slug(Slug(p, lower), lower) == Slug(p, lower)
  {
    SlugShape(p, lower);
    SlugFixedPoints(Slug(p, lower), lower);
  }

  // ------------------------------------------------------------- urn_normalise

  lemma {:induction false} CollapseKeeps(s: string, keep: char -> bool)
    requires keep('-')
    ensures forall i :: 0 <= i < |Collapse(s, keep)| ==> keep(Collapse(s, keep)[i])
    decreases |s|
  {
    if s != "" {
      CollapseKeeps(if keep(s[0]) then s[1..] else Skip(s[1..], keep), keep);
    }
  }

  lemma {:induction false} CollapseIdentity(s: string, keep: char -> bool)
    requires forall i :: 0 <= i < |s| ==> keep(s[i])
    ensures Collapse(s, keep) == s
  {
    if s != "" {
      CollapseIdentity(s[1..], keep);
      assert s == [s[0]] + s[1..];
    }
  }

  /** A normalised segment has only [a-z0-9-]; in particular no colon. */
  lemma UrnShape(raw: string, lower: char -> char)
    ensures var u := UrnNormalise(raw, lower);
      forall i :: 0 <= i < |u| ==> AlnumOrHyphen(u[i])
  {
    CollapseKeeps(Lower(Trim(raw, IsSpace), lower), AlnumOrHyphen);
  }

  lemma LowerFixed(s: string, lower: char -> char)
    requires LowerOk(lower)
    requires forall i :: 0 <= i < |s| ==> AlnumOrHyphen(s[i])
    ensures Lower(s, lower) == s
  {
  }

  lemma UrnKept(u: string, lower: char -> char)
    requires LowerOk(lower) && forall i :: 0 <= i < |u| ==> AlnumOrHyphen(u[i])
    ensures UrnNormalise(u, lower) == u
  {
    assert Trim(u, IsSpace) == u by {
      TrimFixed(u, IsSpace);
    }
    LowerFixed(u, lower);
    CollapseIdentity(u, AlnumOrHyphen);
  }

  lemma UrnIdempotent(raw: string, lower: char -> char)
    requires LowerOk(lower)
    ensures UrnNormalise(UrnNormalise(raw, lower), lower) == UrnNormalise(raw, lower)
  {
    UrnShape(raw, lower);
    UrnKept(UrnNormalise(raw, lower), lower);
  }

  /** Collapsing to [a-z0-9-] does not move the alphanumeric runs. */
  lemma {:induction false} RunsOfCollapse(s: string, started: bool, owed: bool)
    ensures Runs(Collapse(s, AlnumOrHyphen), started, owed) == Runs(s, started, owed)
    decreases |s|
  {
    if s == "" {
    } else if AlnumOrHyphen(s[0]) {
      assert Collapse(s, AlnumOrHyphen)[1..] == Collapse(s[1..], AlnumOrHyphen);
      RunsOfCollapse(s[1..], if Alnum(s[0]) then true else started, !Alnum(s[0]));
    } else {
      var rest := Skip(s[1..], AlnumOrHyphen);
      assert Collapse(s, AlnumOrHyphen)[1..] == Collapse(rest, AlnumOrHyphen);
      RunsOfCollapse(rest, started, true);
      RunsDrop(s[1..], rest, started);
    }
  }

  /** Dropping a separator prefix, when a hyphen is owed already, changes nothing. */
  lemma {:induction false} RunsDrop(s: string, rest: string, started: bool)
    requires |rest| <= |s| && rest == s[|s| - |rest|..]
    requires forall i :: 0 <= i < |s| - |rest| ==> !Alnum(s[i])
    ensures Runs(s, started, true) == Runs(rest, started, true)
  {
    if |rest| < |s| {
      RunsDrop(s[1..], rest, started);
    } else {
      assert rest == s;
    }
  }

  lemma {:induction false} RunsDropEnd(s: string, n: nat, started: bool, owed: bool)
    requires n <= |s|
    requires forall i :: n <= i < |s| ==> !Alnum(s[i])
    ensures Runs(s, started, owed) == Runs(s[..n], started, owed)
    decreases |s|
  {
    if s == "" {
    } else if n == 0 {
      RunsDropEnd(s[1..], 0, started, true);
      assert s[1..][..0] == "";
    } else {
      assert s[..n][1..] == s[1..][..n - 1];
      if Alnum(s[0]) {
        RunsDropEnd(s[1..], n - 1, true, false);
      } else {
        RunsDropEnd(s[1..], n - 1, started, true);
      }
    }
  }

  lemma {:induction false} RunsUnstarted(s: string)
    ensures Runs(s, false, false) == Runs(s, false, true)
  {
  }

  lemma RunsOfMiddle(s: string, a: nat, b: nat)
    requires a <= b <= |s|
    requires forall i :: (0 <= i < a || b <= i < |s|) ==> !Alnum(s[i])
    ensures Runs(s[a..b], false, false) == Runs(s, false, false)
  {
    var tail := s[a..];
    RunsUnstarted(s);
    RunsUnstarted(tail);
    RunsDrop(s, tail, false);
    RunsDropEnd(tail, b - a, false, false);
    assert tail[..b - a] == s[a..b];
  }

  /** Trimming is cutting out a middle stretch. */
  lemma TrimBounds(s: string, drop: char -> bool) returns (a: nat, b: nat)
    ensures a <= b <= |s| && Trim(s, drop) == s[a..b]
    ensures forall i :: (0 <= i < a || b <= i < |s|) ==> drop(s[i])
  {
    var start := TrimStart(s, drop);
    a, b := CutBounds(s, start, TrimEnd(start, drop), drop);
  }

  lemma CutBounds(s: string, start: string, mid: string, drop: char -> bool) returns (a: nat, b: nat)
    requires |start| <= |s| && start == s[|s| - |start|..] && mid <= start
    requires forall i :: 0 <= i < |s| - |start| ==> drop(s[i])
    requires forall i :: |mid| <= i < |start| ==> drop(start[i])
    ensures a <= b <= |s| && mid == s[a..b]
    ensures forall i :: (0 <= i < a || b <= i < |s|) ==> drop(s[i])
  {
    a := |s| - |start|;
    b := a + |mid|;
    forall i | b <= i < |s| ensures drop(s[i]) {
      assert s[i] == start[i - a];
    }
  }

  /** Trimming spaces and lower-casing does not move the alphanumeric runs. */
  lemma RunsOfTrim(raw: string, lower: char -> char)
    requires LowerOk(lower)
    ensures Runs(Lower(Trim(raw, IsSpace), lower), false, false) == Runs(Lower(raw, lower), false, false)
  {
    var a, b := TrimBounds(raw, IsSpace);
    LowerSlice(raw, a, b, lower);
    SpacesAround(raw, a, b, lower);
    RunsOfMiddle(Lower(raw, lower), a, b);
  }

  lemma LowerSlice(raw: string, a: nat, b: nat, lower: char -> char)
    requires a <= b <= |raw|
    ensures Lower(raw[a..b], lower) == Lower(raw, lower)[a..b]
  {
  }

  lemma SpacesAround(raw: string, a: nat, b: nat, lower: char -> char)
    requires LowerOk(lower) && a <= b <= |raw|
    requires forall i :: (0 <= i < a || b <= i < |raw|) ==> IsSpace(raw[i])
    ensures forall i :: (0 <= i < a || b <= i < |raw|) ==> !Alnum(Lower(raw, lower)[i])
  {
    forall i | 0 <= i < a || b <= i < |raw| ensures !Alnum(Lower(raw, lower)[i]) {
      assert IsSpace(raw[i]);
    }
  }

  /** The owner gate's slug of a requester equals the slug of the participant
      segment `ckp.seal` minted for it: the two normalisers agree up to slug. */
  lemma SlugOfUrn(raw: string, lower: char -> char)
    requires LowerOk(lower)
    ensures Slug(UrnNormalise(raw, lower), lower) == Slug(raw, lower)
  {
    var u := UrnNormalise(raw, lower);
    UrnShape(raw, lower);
    LowerFixed(u, lower);
    RunsOfCollapse(Lower(Trim(raw, IsSpace), lower), false, false);
    RunsOfTrim(raw, lower);
    SlugIsRuns(u, lower);
    SlugIsRuns(raw, lower);
  }

  /** The fixed points of the normaliser are exactly the texts over [a-z0-9-]. */
  lemma UrnFixedPoints(raw: string, lower: char -> char)
    requires LowerOk(lower)
    ensures UrnNormalise(raw, lower) == raw <==> forall i :: 0 <= i < |raw| ==> AlnumOrHyphen(raw[i])
  {
    UrnShape(raw, lower);
    if forall i :: 0 <= i < |raw| ==> AlnumOrHyphen(raw[i]) {
      UrnKept(raw, lower);
    }
  }
}
