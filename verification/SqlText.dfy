/** The WHERE text `ckp.query` builds, and how PostgreSQL reads it back: quoted
    literals, numerals, and conjunctions of fixed per-operator templates. */
module SqlText {
  import opened Text

  // ---------------------------------------------------------------- numerals

  const NUMERIC_RE := "^-?[0-9.]+$"

  predicate NumeralChar(c: char) { IsDigit(c) || c == '.' }

  function Unsigned(s: string): string { if s != "" && s[0] == '-' then s[1..] else s }

  /** What the guard `^-?[0-9.]+$` admits. */
  predicate NumericShape(s: string) {
    Unsigned(s) != "" && forall i :: 0 <= i < |Unsigned(s)| ==> NumeralChar(Unsigned(s)[i])
  }

  /** Whole and fractional digits. */
  function Parts(s: string): (string, string) {
    var cut := SplitOnce(Unsigned(s), '.');
    if cut.None? then (Unsigned(s), "") else cut.value
  }

  /** A numeral: digits around at most one point. */
  predicate Castable(s: string) {
    NumericShape(s) && AllDigits(Parts(s).0 + Parts(s).1) && Parts(s).0 + Parts(s).1 != ""
  }

  function Power10(n: nat): (r: nat)
    ensures r > 0
  {
    if n == 0 then 1 else 10 * Power10(n - 1)
  }

  function Number(s: string): real
    requires Castable(s)
  {
    var (whole, fraction) := Parts(s);
    var n := DigitsValue(whole + fraction) as real / Power10(|fraction|) as real;
    if s[0] == '-' then -n else n
  }

  // ---------------------------------------------------------------- literals

  /** Quotes doubled; backslashes too. */
  function Doubled(v: string): string {
    if v == "" then ""
    else (if v[0] == '\'' || v[0] == '\\' then [v[0], v[0]] else [v[0]]) + Doubled(v[1..])
  }

  /** `%L`: the word NULL, a quoted literal, or an escape literal where the text has
      a backslash. */
  function Literal(v: Option<string>): string {
    if v.None? then "NULL"
    else if '\\' in v.value then "E'" + Doubled(v.value) + "'"
    else "'" + Doubled(v.value) + "'"
  }

  function Prepend(c: char, r: Option<(string, string)>): Option<(string, string)> {
    if r.None? then None else Some(([c] + r.value.0, r.value.1))
  }

  /** The lexer inside quotes. Only doubled backslashes are read in escape mode: the
      other escapes are never written. */
  function ReadQuoted(s: string, escapes: bool): (r: Option<(string, string)>)
    ensures r.Some? ==> |r.value.1| < |s|
    decreases |s|
  {
    if s == "" then None
    else if s[0] == '\'' then
      if |s| > 1 && s[1] == '\'' then Prepend('\'', ReadQuoted(s[2..], escapes)) else Some(("", s[1..]))
    else if escapes && s[0] == '\\' then
      if |s| > 1 && s[1] == '\\' then Prepend('\\', ReadQuoted(s[2..], escapes)) else None
    else Prepend(s[0], ReadQuoted(s[1..], escapes))
  }

  function ReadLiteral(s: string): (r: Option<(Option<string>, string)>)
    ensures r.Some? ==> |r.value.1| < |s|
  {
    if "NULL" <= s then Some((None, s[4..]))
    else if s == "" then None
    else
      var q := if "E'" <= s then ReadQuoted(s[2..], true) else if s[0] == '\'' then ReadQuoted(s[1..], false) else None;
      if q.None? then None else Some((Some(q.value.0), q.value.1))
  }

  lemma ReadsPair(c: char, more: string, escapes: bool)
    requires c == '\'' || (escapes && c == '\\')
    ensures ReadQuoted([c, c] + more, escapes) == Prepend(c, ReadQuoted(more, escapes))
  {
    assert ([c, c] + more)[2..] == more;
  }

  lemma ReadsPlain(c: char, more: string, escapes: bool)
    requires c != '\'' && c != '\\'
    ensures ReadQuoted([c] + more, escapes) == Prepend(c, ReadQuoted(more, escapes))
  {
    assert ([c] + more)[1..] == more;
  }

  /** A quoted value cannot end early, whatever it contains. */
  lemma {:induction false} QuotedReadsBack(v: string, escapes: bool, rest: string)
    requires escapes || '\\' !in v
    requires rest != "" ==> rest[0] != '\''
    ensures ReadQuoted(Doubled(v) + "'" + rest, escapes) == Some((v, rest))
  {
    var s := Doubled(v) + "'" + rest;
    if v == "" {
      assert s == "'" + rest;
    } else {
      var more := Doubled(v[1..]) + "'" + rest;
      QuotedReadsBack(v[1..], escapes, rest);
      assert v == [v[0]] + v[1..];
      assert v[0] in v;
      if v[0] == '\'' || v[0] == '\\' {
        assert s == [v[0], v[0]] + more;
        ReadsPair(v[0], more, escapes);
      } else {
        assert s == [v[0]] + more;
        ReadsPlain(v[0], more, escapes);
      }
    }
  }

  lemma PlainOpens(body: string)
    ensures ReadLiteral("'" + body) ==
      (var q := ReadQuoted(body, false); if q.None? then None else Some((Some(q.value.0), q.value.1)))
  {
    var s := "'" + body;
    assert s[0] == '\'' && s[1..] == body;
  }

  lemma EscapeOpens(body: string)
    ensures ReadLiteral("E'" + body) ==
      (var q := ReadQuoted(body, true); if q.None? then None else Some((Some(q.value.0), q.value.1)))
  {
    var s := "E'" + body;
    assert s[0] == 'E' && s[2..] == body;
  }

  lemma NullReads(rest: string)
    ensures ReadLiteral("NULL" + rest) == Some((None, rest))
  {
    assert ("NULL" + rest)[4..] == rest;
  }

  lemma LiteralReadsBack(v: Option<string>, rest: string)
    requires rest != "" ==> rest[0] != '\''
    ensures ReadLiteral(Literal(v) + rest) == Some((v, rest))
  {
    if v.None? {
      NullReads(rest);
    } else {
      var body := Doubled(v.value) + "'" + rest;
      LiteralBody(v.value, rest);
      if '\\' in v.value {
        QuotedReadsBack(v.value, true, rest);
        EscapeOpens(body);
      } else {
        QuotedReadsBack(v.value, false, rest);
        PlainOpens(body);
      }
    }
  }

  lemma LiteralBody(v: string, rest: string)
    ensures Literal(Some(v)) + rest == (if '\\' in v then "E'" else "'") + (Doubled(v) + "'" + rest)
  {
  }

  // -------------------------------------------------------------- conditions

  /** One conjunct: a text comparison, the numeric guard, a numeric comparison, or
      a template whose operator slot is empty. */
  datatype Cond =
    | Compare(key: string, op: string, value: Option<string>)
    | Shape(key: string)
    | Numeric(key: string, op: string, num: string)
    | Broken(key: string, value: Option<string>)

  predicate TextOp(op: string) { op == "=" || op == "<>" || op == "LIKE" }

  predicate NumberOp(op: string) { op == "<" || op == "<=" || op == ">" || op == ">=" }

  predicate WellBuilt(c: Cond) {
    match c
    case Compare(_, op, _) => TextOp(op)
    case Numeric(_, op, num) => NumberOp(op) && NumericShape(num)
    case _ => true
  }

  function Subject(key: string): string { "(body->>" + (Literal(Some(key)) + ")") }

  /** After the subject. */
  function Predicate(c: Cond): string {
    match c
    case Compare(_, op, value) => " " + (op + " " + Literal(value))
    case Shape(_) => " " + ("~" + " " + Literal(Some(NUMERIC_RE)))
    case Numeric(_, op, num) => "::numeric " + (op + " " + num)
    case Broken(_, value) => " " + ("" + " " + Literal(value))
  }

  function Render(c: Cond): string { Subject(c.key) + Predicate(c) }

  function RenderAll(conds: seq<Cond>): string
    requires conds != []
  {
    if |conds| == 1 then Render(conds[0]) else Render(conds[0]) + (" AND " + RenderAll(conds[1..]))
  }

  // ----------------------------------------------------------------- reading

  function NumeralLength(s: string): (n: nat)
    ensures n <= |s|
  {
    if s == "" || !(NumeralChar(s[0]) || s[0] == '-') then 0 else 1 + NumeralLength(s[1..])
  }

  function ReadNumber(key: string, s: string): (r: Option<(Cond, string)>)
    ensures r.Some? ==> |r.value.1| <= |s|
  {
    var cut := SplitOnce(s, ' ');
    if cut.None? || !NumberOp(cut.value.0) then None
    else
      SplitOnceSound(s, ' ');
      var n := NumeralLength(cut.value.1);
      if !Castable(cut.value.1[..n]) then None
      else Some((Numeric(key, cut.value.0, cut.value.1[..n]), cut.value.1[n..]))
  }

  function ReadText(key: string, s: string): (r: Option<(Cond, string)>)
    ensures r.Some? ==> |r.value.1| <= |s|
  {
    var cut := SplitOnce(s, ' ');
    if cut.None? || !(TextOp(cut.value.0) || cut.value.0 == "~") then None
    else
      SplitOnceSound(s, ' ');
      var lit := ReadLiteral(cut.value.1);
      if lit.None? then None
      else if cut.value.0 != "~" then Some((Compare(key, cut.value.0, lit.value.0), lit.value.1))
      else if lit.value.0 == Some(NUMERIC_RE) then Some((Shape(key), lit.value.1))
      else None
  }

  /** What follows the key's closing parenthesis. */
  function ReadPredicate(key: string, s: string): (r: Option<(Cond, string)>)
    ensures r.Some? ==> |r.value.1| <= |s|
  {
    var number, text := StripPrefix(s, "::numeric "), StripPrefix(s, " ");
    if number.Some? then ReadNumber(key, number.value)
    else if text.Some? then ReadText(key, text.value)
    else None
  }

  function ReadCond(s: string): (r: Option<(Cond, string)>)
    ensures r.Some? ==> |r.value.1| < |s|
  {
    var start := StripPrefix(s, "(body->>");
    if start.None? then None
    else
      var key := ReadLiteral(start.value);
      if key.None? || key.value.0.None? then None
      else
        var after := StripPrefix(key.value.1, ")");
        if after.None? then None else ReadPredicate(key.value.0.value, after.value)
  }

  /** The whole WHERE text, or a syntax error. */
  function ReadWhere(s: string): Option<seq<Cond>>
    decreases |s|
  {
    var c := ReadCond(s);
    if c.None? then None
    else if c.value.1 == "" then Some([c.value.0])
    else
      var tail := StripPrefix(c.value.1, " AND ");
      if tail.None? then None
      else
        var more := ReadWhere(tail.value);
        if more.None? then None else Some([c.value.0] + more.value)
  }

  // ----------------------------------------------------- the text reads back

  /** What may follow a condition. */
  predicate Boundary(rest: string) { rest == "" || rest[0] == ' ' }

  lemma SubjectReads(key: string, rest: string)
    ensures ReadCond(Subject(key) + rest) == ReadPredicate(key, rest)
  {
    var tail := ")" + rest;
    assert Subject(key) + rest == "(body->>" + (Literal(Some(key)) + tail);
    StripPrefixOf("(body->>", Literal(Some(key)) + tail);
    LiteralReadsBack(Some(key), tail);
    StripPrefixOf(")", rest);
  }

  lemma WordCut(op: string, rest: string)
    requires TextOp(op) || NumberOp(op) || op == "~" || op == ""
    ensures SplitOnce(op + " " + rest, ' ') == Some((op, rest))
  {
    SplitOnceOf(op, rest, ' ');
  }

  lemma TextReads(key: string, op: string, value: Option<string>, rest: string)
    requires TextOp(op) || op == "~" || op == ""
    requires Boundary(rest)
    ensures ReadPredicate(key, " " + (op + " " + Literal(value)) + rest) ==
      if TextOp(op) then Some((Compare(key, op, value), rest))
      else if op == "~" && value == Some(NUMERIC_RE) then Some((Shape(key), rest)) else None
  {
    var tail := Literal(value) + rest;
    var s := " " + (op + " " + Literal(value)) + rest;
    assert s == " " + (op + " " + tail);
    StripPrefixOf(" ", op + " " + tail);
    assert s[0] == ' ';
    WordCut(op, tail);
    LiteralReadsBack(value, rest);
  }

  lemma {:induction false} NumeralEnds(num: string, rest: string)
    requires forall i :: 0 <= i < |num| ==> NumeralChar(num[i]) || num[i] == '-'
    requires Boundary(rest)
    ensures NumeralLength(num + rest) == |num|
  {
    if num == "" {
      assert num + rest == rest;
    } else {
      assert (num + rest)[1..] == num[1..] + rest;
      NumeralEnds(num[1..], rest);
    }
  }

  lemma ShapeChars(num: string)
    requires NumericShape(num)
    ensures forall i :: 0 <= i < |num| ==> NumeralChar(num[i]) || num[i] == '-'
  {
    forall i | 0 <= i < |num| ensures NumeralChar(num[i]) || num[i] == '-' {
      if num[0] == '-' && i > 0 {
        assert num[i] == Unsigned(num)[i - 1];
      } else if num[0] != '-' {
        assert num[i] == Unsigned(num)[i];
      }
    }
  }

  lemma NumberReads(key: string, op: string, num: string, rest: string)
    requires NumberOp(op) && NumericShape(num) && Boundary(rest)
    ensures ReadPredicate(key, "::numeric " + (op + " " + num) + rest) ==
      if Castable(num) then Some((Numeric(key, op, num), rest)) else None
  {
    var tail := num + rest;
    assert "::numeric " + (op + " " + num) + rest == "::numeric " + (op + " " + tail);
    StripPrefixOf("::numeric ", op + " " + tail);
    WordCut(op, tail);
    ShapeChars(num);
    NumeralEnds(num, rest);
    assert tail[..|num|] == num && tail[|num|..] == rest;
  }

  /** The conditions PostgreSQL accepts. */
  predicate Readable(c: Cond) { !c.Broken? && (c.Numeric? ==> Castable(c.num)) }

  /** One condition reads back as itself, or is a syntax error exactly when its
      operator slot is empty or its raw numeral is not one. */
  lemma CondReads(c: Cond, rest: string)
    requires WellBuilt(c) && Boundary(rest)
    ensures ReadCond(Render(c) + rest) == if Readable(c) then Some((c, rest)) else None
  {
    RenderReads(c, rest);
    PredicateReads(c, rest);
  }

  lemma PredicateReads(c: Cond, rest: string)
    requires WellBuilt(c) && Boundary(rest)
    ensures ReadPredicate(c.key, Predicate(c) + rest) == if Readable(c) then Some((c, rest)) else None
  {
    if c.Compare? {
      TextReads(c.key, c.op, c.value, rest);
    } else if c.Shape? {
      TextReads(c.key, "~", Some(NUMERIC_RE), rest);
    } else if c.Numeric? {
      NumberReads(c.key, c.op, c.num, rest);
    } else {
      TextReads(c.key, "", c.value, rest);
    }
  }

  lemma RenderReads(c: Cond, rest: string)
    ensures ReadCond(Render(c) + rest) == ReadPredicate(c.key, Predicate(c) + rest)
  {
    RegroupText(Subject(c.key), Predicate(c), rest);
    SubjectReads(c.key, Predicate(c) + rest);
  }

  lemma RegroupText(a: string, b: string, c: string)
    ensures a + b + c == a + (b + c)
  {
  }

  lemma WhereStep(s: string, c: Cond, tail: string)
    requires ReadCond(s) == Some((c, " AND " + tail))
    ensures ReadWhere(s) == (var more := ReadWhere(tail); if more.None? then None else Some([c] + more.value))
  {
    StripPrefixOf(" AND ", tail);
  }

  /** NO EXPRESSION POSITION IS REACHABLE. Whatever the keys and values hold, the
      built text is read as exactly the conditions that were meant, or refused. */
  lemma {:induction false} WhereReadsBack(conds: seq<Cond>)
    requires conds != [] && forall i :: 0 <= i < |conds| ==> WellBuilt(conds[i])
    ensures ReadWhere(RenderAll(conds)) ==
      if forall i :: 0 <= i < |conds| ==> Readable(conds[i]) then Some(conds) else None
    decreases |conds|
  {
    if |conds| == 1 {
      CondReads(conds[0], "");
      assert Render(conds[0]) + "" == Render(conds[0]);
      assert conds == [conds[0]];
    } else {
      var tail := conds[1..];
      WhereReadsBack(tail);
      CondReads(conds[0], " AND " + RenderAll(tail));
      if Readable(conds[0]) {
        WhereStep(RenderAll(conds), conds[0], RenderAll(tail));
      }
      assert conds == [conds[0]] + tail;
      assert forall i :: 1 <= i < |conds| ==> conds[i] == tail[i - 1];
    }
  }

  // ------------------------------------------------------------ what a numeral is

  /** The guard admits a minus sign or none, then digits and points, at least one. */
  lemma ShapeExactly(s: string)
    ensures NumericShape(s) <==>
      exists d: string :: d != "" && (s == d || s == "-" + d) && forall i :: 0 <= i < |d| ==> '0' <= d[i] <= '9' || d[i] == '.'
  {
    var u := Unsigned(s);
    if NumericShape(s) {
      assert s == u || s == "-" + u;
    }
    if d: string :| d != "" && (s == d || s == "-" + d) && forall i :: 0 <= i < |d| ==> '0' <= d[i] <= '9' || d[i] == '.' {
      if s == "-" + d {
        assert s[1..] == d;
      } else {
        assert d[0] != '-';
      }
    }
  }

  /** Digits with one point, signed or not, are the number they spell. */
  lemma NumberIs(a: string, b: string)
    requires AllDigits(a) && AllDigits(b) && a + b != ""
    ensures AllDigits(a + b)
    ensures Castable(a + ['.'] + b) && Number(a + ['.'] + b) == DigitsValue(a + b) as real / Power10(|b|) as real
    ensures Castable("-" + (a + ['.'] + b)) && Number("-" + (a + ['.'] + b)) == -(DigitsValue(a + b) as real / Power10(|b|) as real)
  {
    var u := a + ['.'] + b;
    assert Free(a, '.');
    SplitOnceOf(a, b, '.');
    assert ("-" + u)[1..] == u;
    assert u[0] != '-' by {
      assert a != "" ==> u[0] == a[0];
    }
    assert forall i :: 0 <= i < |u| ==> NumeralChar(u[i]);
  }

  lemma WholeNumberIs(n: nat)
    ensures Castable(Print(n)) && Number(Print(n)) == n as real
  {
    var d := Print(n);
    NoPoint(d);
    PrintValue(n);
    assert d + "" == d;
  }

  lemma {:induction false} NoPoint(d: string)
    requires AllDigits(d)
    ensures SplitOnce(d, '.').None?
  {
    if d != "" {
      NoPoint(d[1..]);
    }
  }
}
