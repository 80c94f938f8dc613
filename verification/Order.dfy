/** The order of text keys: how ordered maps and ordered results list them. */
module Order {
  /** Lexicographic, by code points. */
  predicate Less(a: string, b: string) {
    b != "" && (a == "" || a[0] < b[0] || (a[0] == b[0] && Less(a[1..], b[1..])))
  }

  lemma {:induction false} LessTotal(a: string, b: string)
    ensures !(Less(a, b) && Less(b, a)) && !Less(a, a)
    ensures a != b ==> Less(a, b) || Less(b, a)
  {
    if a != "" {
      LessTotal(a[1..], if b == "" then "" else b[1..]);
      if b != "" {
        assert a == [a[0]] + a[1..] && b == [b[0]] + b[1..];
      }
    }
  }

  lemma {:induction false} LessTransitive(a: string, b: string, c: string)
    requires Less(a, b) && Less(b, c)
    ensures Less(a, c)
  {
    if a != "" && a[0] == b[0] == c[0] {
      LessTransitive(a[1..], b[1..], c[1..]);
    }
  }

  predicate First(name: string, names: set<string>) {
    name in names && forall other :: other in names ==> other == name || Less(name, other)
  }

  lemma {:induction false} HasFirst(names: set<string>)
    requires names != {}
    ensures exists name :: First(name, names)
    decreases |names|
  {
    var a :| a in names;
    var rest := names - {a};
    if rest == {} {
      forall other | other in names ensures other == a {
        assert other == a || other in rest;
      }
      assert First(a, names);
    } else {
      HasFirst(rest);
      var b :| First(b, rest);
      LessTotal(a, b);
      if Less(a, b) {
        forall other | other in names && other != a ensures Less(a, other) {
          assert other in rest;
          if other != b { LessTransitive(a, b, other); }
        }
        assert First(a, names);
      } else {
        forall other | other in names && other != b ensures Less(b, other) {
          if other != a { assert other in rest; }
        }
        assert First(b, names);
      }
    }
  }

  predicate Ascending(names: seq<string>) {
    forall i, j :: 0 <= i < j < |names| ==> Less(names[i], names[j])
  }

  lemma AscendingHead(a: seq<string>, b: seq<string>)
    requires Ascending(a) && Ascending(b) && a != [] && (forall x :: x in a <==> x in b)
    ensures b != [] && a[0] == b[0]
  {
    assert a[0] in a;
    assert b[0] in b;
    var i :| 0 <= i < |b| && b[i] == a[0];
    var j :| 0 <= j < |a| && a[j] == b[0];
    LessTotal(a[0], b[0]);
  }

  /** A table order and its members determine the list. */
  lemma {:induction false} AscendingUnique(a: seq<string>, b: seq<string>)
    requires Ascending(a) && Ascending(b) && (forall x :: x in a <==> x in b)
    ensures a == b
  {
    if b != [] {
      assert b[0] in b;
      assert a != [];
    }
    if a != [] {
      AscendingHead(a, b);
      forall x ensures x in a[1..] <==> x in b[1..] {
        TailMember(a, x);
        TailMember(b, x);
      }
      AscendingUnique(a[1..], b[1..]);
      assert a == [a[0]] + a[1..] && b == [b[0]] + b[1..];
    }
  }

  lemma TailMember(a: seq<string>, x: string)
    requires Ascending(a) && a != []
    ensures x in a[1..] <==> x in a && x != a[0]
  {
    LessTotal(x, x);
    assert a == [a[0]] + a[1..];
  }
}
