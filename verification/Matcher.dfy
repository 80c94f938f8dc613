/** NATS subjects and the wildcard matcher of the embedded server. */
module Matcher {
  import opened Text

  const DOT := '.'

  function Tokens(subject: string): (ts: seq<string>)
    ensures |ts| >= 1
  {
    Split(subject, DOT)
  }

  /** The token relation: `*` is one token, a final `>` is one or more, a `>`
      anywhere else matches nothing. */
  predicate Covers(pattern: seq<string>, subject: seq<string>) {
    if pattern == [] then subject == []
    else if pattern[0] == ">" then |pattern| == 1 && subject != []
    else subject != [] && (pattern[0] == "*" || pattern[0] == subject[0]) && Covers(pattern[1..], subject[1..])
  }

  predicate Matches(pattern: string, subject: string) {
    Covers(Tokens(pattern), Tokens(subject))
  }

  /** The matcher loop, with its own subject cursor. */
  method MatchLoop(pattern: string, subject: string) returns (m: bool)
    ensures m == Matches(pattern, subject)
  {
    var ps, ss := Tokens(pattern), Tokens(subject);
    var j := 0;
    for i := 0 to |ps|
      invariant j == i && j <= |ss|
      invariant Covers(ps, ss) == Covers(ps[i..], ss[j..])
    {
      var token := ps[i];
      assert ps[i..][1..] == ps[i + 1..];
      if token == ">" {
        return i == |ps| - 1 && j < |ss|;
      } else if token == "*" {
        if j >= |ss| {
          return false;
        }
      } else {
        if j >= |ss| || ss[j] != token {
          return false;
        }
      }
      assert ss[j..][1..] == ss[j + 1..];
      j := j + 1;
    }
    return j == |ss|;
  }

  // ------------------------------------------------------------ pattern coverage

  /** `p` is at least as wide as `q`, token by token. */
  predicate Wider(p: seq<string>, q: seq<string>) {
    if p == [] then q == []
    else if p[0] == ">" then |p| == 1 && q != []
    else q != [] && q[0] != ">" && (p[0] == "*" || p[0] == q[0]) && Wider(p[1..], q[1..])
  }

  /** A pattern that covers another matches every subject the other does. */
  lemma {:induction false} WiderMatchesMore(p: seq<string>, q: seq<string>, s: seq<string>)
    requires Wider(p, q) && Covers(q, s)
    ensures Covers(p, s)
  {
    if p != [] && p[0] != ">" {
      WiderMatchesMore(p[1..], q[1..], s[1..]);
    }
  }

  /** A pattern whose `>`, if any, is final. */
  predicate WellFormed(q: seq<string>) {
    forall i :: 0 <= i < |q| - 1 ==> q[i] != ">"
  }

  /** Some subject a well-formed pattern matches. */
  function Sample(q: seq<string>): (s: seq<string>)
    requires WellFormed(q)
    ensures Covers(q, s) && (s == [] <==> q == [])
  {
    if q == [] then []
    else if q[0] == ">" then ["x"]
    else [if q[0] == "*" then "x" else q[0]] + Sample(q[1..])
  }

  /** Tokenwise coverage is exact: where it fails, some subject separates the two. */
  lemma {:induction false} NotWiderSeparates(p: seq<string>, q: seq<string>) returns (s: seq<string>)
    requires WellFormed(q) && !Wider(p, q)
    ensures Covers(q, s) && !Covers(p, s)
  {
    if p == [] || q == [] || p[0] == ">" {
      s := Sample(q);
    } else if q[0] == ">" {
      s := if |p| == 1 then ["x", "x"] else [p[0]];
    } else if p[0] == "*" || p[0] == q[0] {
      var t := NotWiderSeparates(p[1..], q[1..]);
      s := [if q[0] == "*" then "x" else q[0]] + t;
    } else {
      s := [if q[0] == "*" then p[0] + "x" else q[0]] + Sample(q[1..]);
      assert |p[0] + "x"| != |p[0]|;
    }
  }
}
