/** `ckp.query`: typed filters compiled to a WHERE text, its meaning under SQL's
    three-valued logic, and paging over the id-ordered result. */
module Query {
  import opened Text
  import opened Order
  import opened SqlText

  // -------------------------------------------------------------------- LIKE

  /** SQL LIKE with backslash as the escape character. */
  predicate Like(p: string, s: string)
    decreases |p| + |s|
  {
    if p == "" then s == ""
    else if p[0] == '%' then Like(p[1..], s) || (s != "" && Like(p, s[1..]))
    else if s == "" then false
    else if p[0] == '_' then Like(p[1..], s[1..])
    else if p[0] == '\\' then |p| >= 2 && p[1] == s[0] && Like(p[2..], s[1..])
    else p[0] == s[0] && Like(p[1..], s[1..])
  }

  predicate Meta(c: char) { c == '%' || c == '_' || c == '\\' }

  predicate Plain(v: string) { forall i :: 0 <= i < |v| ==> !Meta(v[i]) }

  predicate OccursAt(v: string, s: string, i: nat) { i <= |s| && v <= s[i..] }

  ghost predicate Contains(s: string, v: string) { exists i: nat :: OccursAt(v, s, i) }

  function Around(v: string): string { "%" + (v + "%") }

  lemma {:induction false} PercentMatchesAll(s: string)
    ensures Like("%", s)
  {
    if s == "" {
      assert Like("%"[1..], s);
    } else {
      PercentMatchesAll(s[1..]);
    }
  }

  /** A literal prefix followed by anything. */
  lemma {:induction false} LikePrefix(v: string, s: string)
    requires Plain(v)
    ensures Like(v + "%", s) <==> v <= s
  {
    var p := v + "%";
    if v == "" {
      assert p == "%";
      PercentMatchesAll(s);
    } else {
      assert p[0] == v[0] && p[1..] == v[1..] + "%";
      if s != "" {
        LikePrefix(v[1..], s[1..]);
        assert v <= s <==> v[0] == s[0] && v[1..] <= s[1..] by { PrefixStep(v, s); }
      }
    }
  }

  lemma PrefixStep(v: string, s: string)
    requires v != "" && s != ""
    ensures v <= s <==> v[0] == s[0] && v[1..] <= s[1..]
  {
    assert v == [v[0]] + v[1..] && s == [s[0]] + s[1..];
  }

  /** A leading percent: the rest matches from some position on. */
  lemma {:induction false} LikeAnywhere(p: string, s: string)
    ensures Like("%" + p, s) <==> exists i: nat :: i <= |s| && Like(p, s[i..])
  {
    var q := "%" + p;
    assert q[1..] == p && s[0..] == s;
    if s != "" {
      LikeAnywhere(p, s[1..]);
      assert forall i: nat :: i <= |s| - 1 ==> s[1..][i..] == s[i + 1..];
      if exists i: nat :: i <= |s| && Like(p, s[i..]) {
        var i: nat :| i <= |s| && Like(p, s[i..]);
        if i > 0 {
          assert s[1..][i - 1..] == s[i..];
        }
      }
    }
  }

  lemma ContainsIsSubstring(v: string, s: string)
    requires Plain(v)
    ensures Like(Around(v), s) <==> Contains(s, v)
  {
    LikeAnywhere(v + "%", s);
    if Like(Around(v), s) {
      var i: nat :| i <= |s| && Like(v + "%", s[i..]);
      LikePrefix(v, s[i..]);
      assert OccursAt(v, s, i);
    }
    if Contains(s, v) {
      var i: nat :| OccursAt(v, s, i);
      LikePrefix(v, s[i..]);
      assert Like(v + "%", s[i..]);
    }
  }

  /** A text the pattern matches in which every metacharacter has been used up. */
  function Instance(v: string): (s: string)
    ensures |s| <= |v|
  {
    if v == "" then ""
    else if v[0] == '%' then Instance(v[1..])
    else if v[0] == '_' then "a" + Instance(v[1..])
    else if v[0] == '\\' then if |v| == 1 then "%" else [v[1]] + Instance(v[2..])
    else [v[0]] + Instance(v[1..])
  }

  lemma {:induction false} InstanceMatches(v: string)
    ensures Like(v + "%", Instance(v))
  {
    var p, s := v + "%", Instance(v);
    if v == "" {
      PercentMatchesAll(s);
      assert p == "%";
    } else {
      assert p[1..] == v[1..] + "%";
      if v[0] == '\\' && |v| >= 2 {
        assert p[2..] == v[2..] + "%" && p[1] == v[1];
        InstanceMatches(v[2..]);
        assert s[1..] == Instance(v[2..]);
      } else if v[0] == '\\' {
        assert p[1] == '%' && p[2..] == "" && s[1..] == "";
      } else {
        InstanceMatches(v[1..]);
        assert v[0] != '%' ==> s[1..] == Instance(v[1..]);
      }
    }
  }

  lemma {:induction false} InstanceDiffers(v: string)
    requires !Plain(v)
    ensures Instance(v) != v
  {
    if !Meta(v[0]) {
      assert v == [v[0]] + v[1..];
      InstanceDiffers(v[1..]);
    } else {
      assert v[0] == '_' ==> Instance(v)[0] == 'a';
    }
  }

  /** CONTAINS IS EXACT. The filter means "is a substring" for every text if and only
      if its value is free of `%`, `_` and backslash. */
  lemma ContainsExactly(v: string)
    ensures (forall s :: Like(Around(v), s) <==> Contains(s, v)) <==> Plain(v)
  {
    if Plain(v) {
      forall s ensures Like(Around(v), s) <==> Contains(s, v) { ContainsIsSubstring(v, s); }
    } else {
      var s := Instance(v);
      InstanceMatches(v);
      InstanceDiffers(v);
      assert s[0..] == s;
      LikeAnywhere(v + "%", s);
      assert Like(Around(v), s) && !Contains(s, v);
    }
  }

  // ------------------------------------------------------ three-valued meaning

  datatype Truth = True | False | Unknown

  function Of(b: bool): Truth { if b then True else False }

  /** SQL's AND. */
  function And(a: Truth, b: Truth): Truth {
    if a == False || b == False then False else if a == Unknown || b == Unknown then Unknown else True
  }

  /** Text projection of an instance body: absent keys and JSON nulls are missing. */
  type Texts = map<string, string>

  function Get(body: Texts, key: string): Option<string> { if key in body then Some(body[key]) else None }

  function CompareText(op: string, a: string, b: string): bool {
    if op == "=" then a == b else if op == "<>" then a != b else Like(b, a)
  }

  function CompareNumber(op: string, a: real, b: real): bool {
    if op == "<" then a < b else if op == "<=" then a <= b else if op == ">" then a > b else a >= b
  }

  function Eval(c: Cond, body: Texts): Truth {
    var x := Get(body, c.key);
    if x.None? || c.Broken? then Unknown
    else match c
      case Compare(_, op, value) => if value.None? then Unknown else Of(CompareText(op, x.value, value.value))
      case Shape(_) => Of(NumericShape(x.value))
      case Numeric(_, op, num) =>
        if Castable(x.value) && Castable(num) then Of(CompareNumber(op, Number(x.value), Number(num))) else Unknown
  }

  function EvalAll(conds: seq<Cond>, body: Texts): Truth {
    if conds == [] then True else And(Eval(conds[0], body), EvalAll(conds[1..], body))
  }

  /** The cast in a numeric comparison fails on this row. */
  predicate CastFails(c: Cond, body: Texts) {
    c.Numeric? && c.key in body && !Castable(body[c.key])
  }

  /** Conditions are tried in order; one is reached when all before it are true. */
  predicate RowRaises(conds: seq<Cond>, body: Texts) {
    conds != [] && (CastFails(conds[0], body) || (Eval(conds[0], body) == True && RowRaises(conds[1..], body)))
  }

  // ------------------------------------------------------------------ compiling

  datatype Filter = Filter(op: Option<string>, key: Option<string>, value: Option<string>)

  predicate Letter(c: char) { 'A' <= c <= 'Z' || 'a' <= c <= 'z' }

  predicate KeyChar(c: char) { Letter(c) || IsDigit(c) || c in ":#/._-" }

  predicate GoodKey(k: string) { k != "" && Letter(k[0]) && forall i :: 0 <= i < |k| ==> KeyChar(k[i]) }

  predicate Known(op: string) { op == "eq" || op == "neq" || op == "contains" || Numerical(op) }

  predicate Numerical(op: string) { op == "lt" || op == "lte" || op == "gt" || op == "gte" }

  function SqlOp(op: string): string {
    if op == "eq" then "=" else if op == "neq" then "<>" else if op == "contains" then "LIKE"
    else if op == "lt" then "<" else if op == "lte" then "<=" else if op == "gt" then ">" else ">="
  }

  datatype Refusal = InvalidType | InvalidOperator | InvalidFilterKey | InvalidNumericValue

  /** Why a filter is refused. A missing operator is not: comparing with NULL is
      neither true nor false, so that branch is not taken. */
  function Objection(f: Filter): Option<Refusal> {
    if f.op.Some? && !Known(f.op.value) then Some(InvalidOperator)
    else if f.key.None? || !GoodKey(f.key.value) then Some(InvalidFilterKey)
    else if f.op.Some? && Numerical(f.op.value) && (f.value.None? || !NumericShape(f.value.value)) then Some(InvalidNumericValue)
    else None
  }

  function Objections(filters: seq<Filter>): Option<Refusal> {
    if filters == [] then None
    else if Objection(filters[0]).Some? then Objection(filters[0])
    else Objections(filters[1..])
  }

  function Value(f: Filter): string { if f.value.Some? then f.value.value else "" }

  /** The conditions a filter stands for. */
  function CondsOf(f: Filter): seq<Cond>
    requires Objection(f).None?
  {
    var key := f.key.value;
    if f.op.None? then [Broken(key, f.value)]
    else if f.op.value == "contains" then [Compare(key, "LIKE", Some(Around(Value(f))))]
    else if Numerical(f.op.value) then [Shape(key), Numeric(key, SqlOp(f.op.value), f.value.value)]
    else [Compare(key, SqlOp(f.op.value), f.value)]
  }

  function AllConds(filters: seq<Filter>): seq<Cond>
    requires Objections(filters).None?
  {
    if filters == [] then [] else CondsOf(filters[0]) + AllConds(filters[1..])
  }

  function TypeCond(t: string): Cond { Compare("type", "=", Some(t)) }

  predicate GoodType(t: Option<string>) { t.Some? && t.value != "" && Letter(t.value[0]) }

  /** Text appended to the WHERE text for further conditions. */
  function Appended(conds: seq<Cond>): string {
    if conds == [] then "" else " AND " + Render(conds[0]) + Appended(conds[1..])
  }

  lemma RightUnit(s: string)
    ensures s + "" == s
  {
  }

  lemma RenderAllStep(c: Cond, conds: seq<Cond>)
    requires conds != []
    ensures RenderAll([c] + conds) == Render(c) + (" AND " + RenderAll(conds))
  {
    assert ([c] + conds)[1..] == conds;
  }

  lemma AppendedStep(c: Cond, conds: seq<Cond>)
    ensures Appended([c] + conds) == " AND " + (Render(c) + Appended(conds))
  {
    assert ([c] + conds)[1..] == conds;
    RegroupText(" AND ", Render(c), Appended(conds));
  }

  lemma {:induction false} AppendedRenders(c: Cond, conds: seq<Cond>)
    ensures Render(c) + Appended(conds) == RenderAll([c] + conds)
    decreases |conds|
  {
    if conds == [] {
      assert [c] + conds == [c];
      RightUnit(Render(c));
    } else {
      var d, rest := conds[0], conds[1..];
      assert conds == [d] + rest;
      AppendedRenders(d, rest);
      AppendedStep(d, rest);
      RenderAllStep(c, conds);
    }
  }

  lemma {:induction false} AppendedConcat(a: seq<Cond>, b: seq<Cond>)
    ensures Appended(a + b) == Appended(a) + Appended(b)
  {
    if a == [] {
      assert a + b == b && "" + Appended(b) == Appended(b);
    } else {
      assert (a + b)[1..] == a[1..] + b;
      AppendedConcat(a[1..], b);
      RegroupText(" AND " + Render(a[0]), Appended(a[1..]), Appended(b));
    }
  }

  datatype Compiled = Where(text: string) | Refuse(why: Refusal)

  /** The text one filter adds, from its operator's template. */
  method FilterText(f: Filter) returns (text: string)
    requires Objection(f).None?
    ensures text == Appended(CondsOf(f))
  {
    var key := f.key.value;
    if f.op.None? {
      text := " AND " + Render(Broken(key, f.value));
    } else if f.op.value == "contains" {
      text := " AND " + Render(Compare(key, "LIKE", Some("%" + (Value(f) + "%"))));
    } else if Numerical(f.op.value) {
      text := " AND " + Render(Shape(key)) + (" AND " + Render(Numeric(key, SqlOp(f.op.value), f.value.value)));
      AppendedPair(Shape(key), Numeric(key, SqlOp(f.op.value), f.value.value));
      return;
    } else {
      text := " AND " + Render(Compare(key, SqlOp(f.op.value), f.value));
    }
    AppendedOne(CondsOf(f)[0]);
  }

  lemma AppendedOne(c: Cond)
    ensures Appended([c]) == " AND " + Render(c)
  {
    assert [c][1..] == [];
  }

  lemma AppendedPair(c: Cond, d: Cond)
    ensures Appended([c, d]) == " AND " + Render(c) + (" AND " + Render(d))
  {
    assert [c, d] == [c] + [d];
    AppendedConcat([c], [d]);
    AppendedOne(c);
    AppendedOne(d);
  }

  /** The loop has dealt with the first i filters and built these conditions. */
  ghost predicate Building(t: string, filters: seq<Filter>, i: nat, built: seq<Cond>, text: string) {
    && i <= |filters| && Objections(filters) == Objections(filters[i..])
    && (Objections(filters).None? ==> AllConds(filters) == built + AllConds(filters[i..]))
    && text == Render(TypeCond(t)) + Appended(built)
  }

  lemma BuildStops(filters: seq<Filter>, i: nat)
    requires i < |filters| && Objections(filters) == Objections(filters[i..]) && Objection(filters[i]).Some?
    ensures Objections(filters) == Objection(filters[i])
  {
  }

  lemma BuildStep(t: string, filters: seq<Filter>, i: nat, built: seq<Cond>, text: string, more: string)
    requires i < |filters| && Building(t, filters, i, built, text)
    requires Objection(filters[i]).None? && more == Appended(CondsOf(filters[i]))
    ensures Building(t, filters, i + 1, built + CondsOf(filters[i]), text + more)
  {
    FiltersStep(filters, i, built);
    TextStep(Render(TypeCond(t)), built, CondsOf(filters[i]), text, more);
  }

  lemma TextStep(start: string, built: seq<Cond>, added: seq<Cond>, text: string, more: string)
    requires text == start + Appended(built) && more == Appended(added)
    ensures text + more == start + Appended(built + added)
  {
    AppendedConcat(built, added);
    RegroupText(start, Appended(built), more);
  }

  lemma FiltersStep(filters: seq<Filter>, i: nat, built: seq<Cond>)
    requires i < |filters| && Objection(filters[i]).None?
    ensures Objections(filters[i..]) == Objections(filters[i + 1..])
    ensures Objections(filters[i..]).None? ==>
      built + AllConds(filters[i..]) == built + CondsOf(filters[i]) + AllConds(filters[i + 1..])
  {
    assert filters[i..][1..] == filters[i + 1..];
    if Objections(filters[i..]).None? {
      RegroupConds(built, CondsOf(filters[i]), AllConds(filters[i + 1..]));
    }
  }

  lemma RegroupConds(a: seq<Cond>, b: seq<Cond>, c: seq<Cond>)
    ensures a + b + c == a + (b + c)
  {
  }

  lemma BuildDone(t: string, filters: seq<Filter>, built: seq<Cond>, text: string)
    requires Building(t, filters, |filters|, built, text)
    ensures Objections(filters).None? && text == RenderAll([TypeCond(t)] + AllConds(filters))
  {
    assert filters[|filters|..] == [] && built + [] == built;
    AppendedRenders(TypeCond(t), built);
  }

  /** The filter loop: accumulate the WHERE text, or stop at the first objection. */
  method Compile(t: string, filters: seq<Filter>) returns (r: Compiled)
    ensures Objections(filters).Some? ==> r == Refuse(Objections(filters).value)
    ensures Objections(filters).None? ==> r == Where(RenderAll([TypeCond(t)] + AllConds(filters)))
  {
    var text := Render(TypeCond(t));
    ghost var built: seq<Cond> := [];
    assert text + "" == text && filters[0..] == filters;
    for i := 0 to |filters|
      invariant Building(t, filters, i, built, text)
    {
      var f := filters[i];
      if Objection(f).Some? {
        BuildStops(filters, i);
      }
      if f.op.Some? && !Known(f.op.value) {
        return Refuse(InvalidOperator);
      }
      if f.key.None? || !GoodKey(f.key.value) {
        return Refuse(InvalidFilterKey);
      }
      if f.op.Some? && Numerical(f.op.value) && (f.value.None? || !NumericShape(f.value.value)) {
        return Refuse(InvalidNumericValue);
      }
      var more := FilterText(f);
      BuildStep(t, filters, i, built, text, more);
      text := text + more;
      built := built + CondsOf(f);
    }
    BuildDone(t, filters, built, text);
    return Where(text);
  }

  // ------------------------------------------------------- the meaning of filters

  /** What a filter asks of a body, in two-valued terms. */
  predicate Holds(f: Filter, body: Texts)
    requires Objection(f).None? && f.op.Some?
    requires Numerical(f.op.value) ==> Castable(f.value.value)
  {
    f.key.value in body &&
    (var x := body[f.key.value];
     match f.op.value
     case "eq" => f.value == Some(x)
     case "neq" => f.value.Some? && f.value.value != x
     case "contains" => Like(Around(Value(f)), x)
     case "lt" => Castable(x) && Number(x) < Number(f.value.value)
     case "lte" => Castable(x) && Number(x) <= Number(f.value.value)
     case "gt" => Castable(x) && Number(x) > Number(f.value.value)
     case _ => Castable(x) && Number(x) >= Number(f.value.value))
  }

  /** The filter's text is good SQL: it names an operator, and a raw numeral is one. */
  predicate Executable(f: Filter)
    requires Objection(f).None?
  {
    f.op.Some? && (Numerical(f.op.value) ==> Castable(f.value.value))
  }

  predicate AllExecutable(filters: seq<Filter>)
    requires Objections(filters).None?
  {
    filters == [] || (Executable(filters[0]) && AllExecutable(filters[1..]))
  }

  predicate AllHold(filters: seq<Filter>, body: Texts)
    requires Objections(filters).None? && AllExecutable(filters)
  {
    filters == [] || (Holds(filters[0], body) && AllHold(filters[1..], body))
  }

  lemma {:induction false} EvalConcat(a: seq<Cond>, b: seq<Cond>, body: Texts)
    ensures EvalAll(a + b, body) == True <==> EvalAll(a, body) == True && EvalAll(b, body) == True
  {
    if a == [] {
      assert a + b == b;
    } else {
      assert (a + b)[1..] == a[1..] + b;
      EvalConcat(a[1..], b, body);
    }
  }

  lemma EvalPair(c: Cond, d: Cond, body: Texts)
    ensures EvalAll([c], body) == True <==> Eval(c, body) == True
    ensures EvalAll([c, d], body) == True <==> Eval(c, body) == True && Eval(d, body) == True
  {
    assert [c, d][1..] == [d] && [d][1..] == [] && [c][1..] == [];
  }

  lemma ComparisonMeans(f: Filter, body: Texts)
    requires Objection(f).None? && Executable(f) && !Numerical(f.op.value)
    ensures EvalAll(CondsOf(f), body) == True <==> Holds(f, body)
  {
    var c := CondsOf(f)[0];
    EvalPair(c, c, body);
    assert CondsOf(f) == [c];
  }

  lemma NumberPair(key: string, op: string, num: string, body: Texts)
    requires Castable(num)
    ensures EvalAll([Shape(key), Numeric(key, op, num)], body) == True <==>
      key in body && Castable(body[key]) && CompareNumber(op, Number(body[key]), Number(num))
  {
    EvalPair(Shape(key), Numeric(key, op, num), body);
  }

  lemma HoldsNumber(f: Filter, body: Texts)
    requires Objection(f).None? && Executable(f) && Numerical(f.op.value)
    ensures var key := f.key.value;
      Holds(f, body) <==>
        (key in body && Castable(body[key])
         && CompareNumber(SqlOp(f.op.value), Number(body[key]), Number(f.value.value)))
  {
  }

  lemma NumberMeans(f: Filter, body: Texts)
    requires Objection(f).None? && Executable(f) && Numerical(f.op.value)
    ensures EvalAll(CondsOf(f), body) == True <==> Holds(f, body)
  {
    HoldsNumber(f, body);
    NumberPair(f.key.value, SqlOp(f.op.value), f.value.value, body);
  }

  /** A filter's conditions are true exactly when its key is present and its
      comparison holds. */
  lemma FilterMeans(f: Filter, body: Texts)
    requires Objection(f).None? && Executable(f)
    ensures EvalAll(CondsOf(f), body) == True <==> Holds(f, body)
  {
    if Numerical(f.op.value) {
      NumberMeans(f, body);
    } else {
      ComparisonMeans(f, body);
    }
  }

  lemma {:induction false} FiltersMean(filters: seq<Filter>, body: Texts)
    requires Objections(filters).None? && AllExecutable(filters)
    ensures EvalAll(AllConds(filters), body) == True <==> AllHold(filters, body)
  {
    if filters != [] {
      FilterMeans(filters[0], body);
      FiltersMean(filters[1..], body);
      EvalConcat(CondsOf(filters[0]), AllConds(filters[1..]), body);
    }
  }

  /** What the query asks of a row. */
  predicate Wanted(t: string, filters: seq<Filter>, body: Texts)
    requires Objections(filters).None? && AllExecutable(filters)
  {
    Get(body, "type") == Some(t) && AllHold(filters, body)
  }

  lemma WhereMeans(t: string, filters: seq<Filter>, body: Texts)
    requires Objections(filters).None? && AllExecutable(filters)
    ensures EvalAll([TypeCond(t)] + AllConds(filters), body) == True <==> Wanted(t, filters, body)
  {
    EvalConcat([TypeCond(t)], AllConds(filters), body);
    EvalPair(TypeCond(t), TypeCond(t), body);
    FiltersMean(filters, body);
  }

  predicate AllBuilt(conds: seq<Cond>) { forall i :: 0 <= i < |conds| ==> WellBuilt(conds[i]) }

  predicate AllReadable(conds: seq<Cond>) { forall i :: 0 <= i < |conds| ==> Readable(conds[i]) }

  lemma BuiltConcat(a: seq<Cond>, b: seq<Cond>)
    ensures AllBuilt(a + b) <==> AllBuilt(a) && AllBuilt(b)
    ensures AllReadable(a + b) <==> AllReadable(a) && AllReadable(b)
  {
    assert forall i :: 0 <= i < |b| ==> (a + b)[|a| + i] == b[i];
    assert forall i :: 0 <= i < |a| ==> (a + b)[i] == a[i];
  }

  lemma CondsWellBuilt(f: Filter)
    requires Objection(f).None?
    ensures AllBuilt(CondsOf(f)) && (AllReadable(CondsOf(f)) <==> Executable(f))
  {
    var conds := CondsOf(f);
    assert Readable(conds[0]) ==> f.op.Some?;
    if f.op.Some? && Numerical(f.op.value) {
      assert conds == [Shape(f.key.value), Numeric(f.key.value, SqlOp(f.op.value), f.value.value)];
      assert Readable(conds[1]) <==> Castable(f.value.value);
    }
  }

  lemma {:induction false} AllWellBuilt(filters: seq<Filter>)
    requires Objections(filters).None?
    ensures AllBuilt(AllConds(filters)) && (AllReadable(AllConds(filters)) <==> AllExecutable(filters))
  {
    if filters != [] {
      CondsWellBuilt(filters[0]);
      AllWellBuilt(filters[1..]);
      BuiltConcat(CondsOf(filters[0]), AllConds(filters[1..]));
    }
  }

  /** COMPILATION PRESERVES MEANING, through the text: the built WHERE is a syntax
      error exactly when a filter is not executable, and otherwise it is read as
      conditions that are true of a body exactly when the body is wanted. */
  lemma TextMeans(t: string, filters: seq<Filter>)
    requires Objections(filters).None?
    ensures var r := ReadWhere(RenderAll([TypeCond(t)] + AllConds(filters)));
      && (r.Some? <==> AllExecutable(filters))
      && (r.Some? ==> r.value == [TypeCond(t)] + AllConds(filters))
      && (r.Some? ==> forall body :: EvalAll(r.value, body) == True <==> Wanted(t, filters, body))
  {
    var conds := [TypeCond(t)] + AllConds(filters);
    AllWellBuilt(filters);
    BuiltConcat([TypeCond(t)], AllConds(filters));
    WhereReadsBack(conds);
    if AllExecutable(filters) {
      forall body ensures EvalAll(conds, body) == True <==> Wanted(t, filters, body) {
        WhereMeans(t, filters, body);
      }
    }
  }

  // -------------------------------------------------------------------- running

  datatype Request = Request(kind: Option<string>, filters: seq<Filter>, limit: Option<int>, offset: Option<int>)

  datatype Answer = Refused(why: Refusal) | Raised | Rows(kind: string, count: nat, rows: seq<(string, Texts)>)

  function Limit(q: Request): (n: nat)
    ensures 1 <= n <= 1000
  {
    var l := if q.limit.Some? then q.limit.value else 100;
    var floor := if l < 1 then 1 else l;
    if floor > 1000 then 1000 else floor
  }

  function Offset(q: Request): nat {
    if q.offset.Some? && q.offset.value > 0 then q.offset.value else 0
  }

  function Page(ids: seq<string>, offset: nat, limit: nat): seq<string> {
    var from := if offset < |ids| then offset else |ids|;
    var to := if from + limit < |ids| then from + limit else |ids|;
    ids[from..to]
  }

  type Table = map<string, Texts>

  /** Ids with their bodies. */
  function Described(table: Table, ids: seq<string>): seq<(string, Texts)> {
    seq(|ids|, i requires 0 <= i < |ids| => (ids[i], if ids[i] in table then table[ids[i]] else map[]))
  }

  lemma DescribedConcat(table: Table, a: seq<string>, b: seq<string>)
    ensures Described(table, a + b) == Described(table, a) + Described(table, b)
  {
  }

  /** A page of a result, as the reply carries it. */
  function PageReply(q: Request, table: Table, full: seq<string>): Answer
    requires q.kind.Some?
  {
    var page := Page(full, Offset(q), Limit(q));
    Rows(q.kind.value, |page|, Described(table, page))
  }

  /** The full answer: the wanted ids, each once, in id order. */
  ghost predicate FullResult(ids: seq<string>, table: Table, t: string, filters: seq<Filter>)
    requires Objections(filters).None? && AllExecutable(filters)
  {
    Ascending(ids) && forall id :: id in ids <==> id in table && Wanted(t, filters, table[id])
  }

  predicate SomeRowRaises(table: Table, conds: seq<Cond>) {
    exists id :: id in table && RowRaises(conds, table[id])
  }

  /** Stored values under numerically filtered keys are numerals if they look so. */
  predicate StoredCastable(table: Table, filters: seq<Filter>) {
    forall id, f :: id in table && f in filters ==> ValueCastable(f, table[id])
  }

  /** What a request is to be answered with. */
  ghost predicate Answers(q: Request, table: Table, r: Answer) {
    if !GoodType(q.kind) then r == Refused(InvalidType)
    else if Objections(q.filters).Some? then r == Refused(Objections(q.filters).value)
    else if !AllExecutable(q.filters) then r == Raised
    else if SomeRowRaises(table, [TypeCond(q.kind.value)] + AllConds(q.filters)) then r == Raised
    else exists full :: FullResult(full, table, q.kind.value, q.filters) && r == PageReply(q, table, full)
  }

  /** Scan the table in id order, keeping the rows where the WHERE is true. */
  method Scan(table: Table, conds: seq<Cond>) returns (r: Option<seq<string>>)
    ensures SomeRowRaises(table, conds) <==> r.None?
    ensures r.Some? ==> Ascending(r.value) && forall id :: id in r.value <==> id in table && EvalAll(conds, table[id]) == True
  {
    var ids: seq<string> := [];
    var todo := table.Keys;
    while todo != {}
      invariant todo <= table.Keys && Ascending(ids)
      invariant forall id :: id in ids <==> id in table && id !in todo && EvalAll(conds, table[id]) == True
      invariant forall id :: id in table && id !in todo ==> !RowRaises(conds, table[id])
      invariant forall i, id :: 0 <= i < |ids| && id in todo ==> Less(ids[i], id)
      decreases |todo|
    {
      HasFirst(todo);
      var id :| First(id, todo);
      if RowRaises(conds, table[id]) {
        return None;
      }
      if EvalAll(conds, table[id]) == True {
        ids := ids + [id];
      }
      todo := todo - {id};
    }
    return Some(ids);
  }

  /** `ckp.query`: compile, execute the text, page. */
  method Query(q: Request, table: Table) returns (r: Answer)
    ensures Answers(q, table, r)
  {
    if !GoodType(q.kind) {
      return Refused(InvalidType);
    }
    var compiled := Compile(q.kind.value, q.filters);
    if compiled.Refuse? {
      return Refused(compiled.why);
    }
    TextMeans(q.kind.value, q.filters);
    var conds := ReadWhere(compiled.text);
    if conds.None? {
      return Raised;
    }
    var rows := Scan(table, conds.value);
    if rows.None? {
      return Raised;
    }
    assert FullResult(rows.value, table, q.kind.value, q.filters);
    var page := Page(rows.value, Offset(q), Limit(q));
    return Rows(q.kind.value, |page|, Described(table, page));
  }

  // ------------------------------------------------------------- numeric filters

  lemma {:induction false} RaisesConcat(a: seq<Cond>, b: seq<Cond>, body: Texts)
    requires RowRaises(a + b, body) && !RowRaises(a, body)
    ensures RowRaises(b, body)
  {
    if a == [] {
      assert a + b == b;
    } else {
      assert (a + b)[1..] == a[1..] + b;
      RaisesConcat(a[1..], b, body);
    }
  }

  predicate ValueCastable(f: Filter, body: Texts) {
    f.key.Some? && f.key.value in body && f.op.Some? && Numerical(f.op.value) ==>
      (NumericShape(body[f.key.value]) ==> Castable(body[f.key.value]))
  }

  lemma FilterNeverRaises(f: Filter, body: Texts)
    requires Objection(f).None? && ValueCastable(f, body)
    ensures !RowRaises(CondsOf(f), body)
  {
    if f.op.Some? && Numerical(f.op.value) {
      GuardedCast(f.key.value, SqlOp(f.op.value), f.value.value, body);
    } else {
      assert CondsOf(f)[1..] == [];
    }
  }

  lemma GuardedCast(key: string, op: string, num: string, body: Texts)
    requires key in body ==> (NumericShape(body[key]) ==> Castable(body[key]))
    ensures !RowRaises([Shape(key), Numeric(key, op, num)], body)
  {
    var c, d := Shape(key), Numeric(key, op, num);
    assert [c, d][1..] == [d] && [d][1..] == [];
    assert Eval(c, body) == True ==> !CastFails(d, body);
    assert !RowRaises([], body);
    assert RowRaises([d], body) ==> CastFails(d, body);
  }

  lemma {:induction false} FiltersNeverRaise(filters: seq<Filter>, body: Texts)
    requires Objections(filters).None? && forall f :: f in filters ==> ValueCastable(f, body)
    ensures !RowRaises(AllConds(filters), body)
  {
    if filters != [] {
      assert filters[0] in filters;
      FilterNeverRaises(filters[0], body);
      FiltersNeverRaise(filters[1..], body);
      if RowRaises(AllConds(filters), body) {
        RaisesConcat(CondsOf(filters[0]), AllConds(filters[1..]), body);
      }
    }
  }

  /** Where stored numerals are castable, an accepted and executable request is
      always answered with a page of exactly the wanted rows. */
  lemma CastableNeverRaises(q: Request, table: Table, r: Answer)
    requires Answers(q, table, r) && GoodType(q.kind) && Objections(q.filters).None? && AllExecutable(q.filters)
    requires StoredCastable(table, q.filters)
    ensures r.Rows?
  {
    var conds := AllConds(q.filters);
    forall id | id in table ensures !RowRaises([TypeCond(q.kind.value)] + conds, table[id]) {
      FiltersNeverRaise(q.filters, table[id]);
      if RowRaises([TypeCond(q.kind.value)] + conds, table[id]) {
        RaisesConcat([TypeCond(q.kind.value)], conds, table[id]);
      }
    }
  }

  /** The guard admits texts that are not numerals: such a filter value is neither
      refused nor answered. */
  lemma GuardAdmitsNonNumeral(table: Table, r: Answer)
    requires Answers(Request(Some("T"), [Filter(Some("lt"), Some("n"), Some("1.2.3"))], None, None), table, r)
    ensures r == Raised
  {
    var f := Filter(Some("lt"), Some("n"), Some("1.2.3"));
    var v := "1.2.3";
    assert v == "1" + ['.'] + "2.3";
    SplitOnceOf("1", "2.3", '.');
    assert (Parts(v).0 + Parts(v).1)[2] == '.';
    assert !Castable(v) && NumericShape(v);
    assert [f][1..] == [];
    assert Objection(f).None?;
    assert Objections([f]).None? && !AllExecutable([f]);
  }

  // --------------------------------------------------------------------- paging

  /** The k-th page of size l. */
  function PageAt(ids: seq<string>, l: nat, k: nat): seq<string> { Page(ids, k * l, l) }

  /** The first n pages of size l, one after the other. */
  function Pages(ids: seq<string>, l: nat, n: nat): seq<string> {
    if n == 0 then [] else Pages(ids, l, n - 1) + PageAt(ids, l, n - 1)
  }

  function Upto(ids: seq<string>, n: nat): seq<string> { if n < |ids| then ids[..n] else ids }

  lemma PageExtends(ids: seq<string>, n: nat, l: nat)
    ensures Upto(ids, n) + Page(ids, n, l) == Upto(ids, n + l)
  {
  }

  lemma {:induction false} PagesArePrefix(ids: seq<string>, l: nat, n: nat)
    ensures Pages(ids, l, n) == Upto(ids, n * l)
  {
    if n > 0 {
      PagesArePrefix(ids, l, n - 1);
      PageExtends(ids, (n - 1) * l, l);
      assert (n - 1) * l + l == n * l;
    }
  }

  /** PAGING. Pages at offsets 0, L, 2L, ... concatenate to the full id-ordered
      result, nothing lost or repeated, and later pages are empty. */
  lemma PagesAreWhole(ids: seq<string>, l: nat, n: nat)
    requires l >= 1 && n * l >= |ids|
    ensures Pages(ids, l, n) == ids && Page(ids, n * l, l) == []
  {
    PagesArePrefix(ids, l, n);
  }

  lemma RowsArePage(q: Request, table: Table, r: Answer) returns (full: seq<string>)
    requires Answers(q, table, r) && r.Rows?
    ensures GoodType(q.kind) && Objections(q.filters).None? && AllExecutable(q.filters)
    ensures FullResult(full, table, q.kind.value, q.filters) && r == PageReply(q, table, full)
  {
    full :| FullResult(full, table, q.kind.value, q.filters) && r == PageReply(q, table, full);
  }

  function At(q: Request, k: nat): Request { q.(offset := Some(k * Limit(q))) }

  lemma AnswerIsPage(q: Request, table: Table, full: seq<string>, k: nat, r: Answer)
    requires GoodType(q.kind) && Objections(q.filters).None? && AllExecutable(q.filters)
    requires FullResult(full, table, q.kind.value, q.filters)
    requires Answers(At(q, k), table, r) && r.Rows?
    ensures r.rows == Described(table, PageAt(full, Limit(q), k)) && r.count == |r.rows|
  {
    var other := RowsArePage(At(q, k), table, r);
    AscendingUnique(full, other);
    assert k * Limit(q) >= 0;
  }

  function Concat(rs: seq<Answer>): seq<(string, Texts)> {
    if rs == [] then []
    else Concat(rs[..|rs| - 1]) + (var r := rs[|rs| - 1]; if r.Rows? then r.rows else [])
  }

  lemma ConcatIsPages(q: Request, table: Table, full: seq<string>, rs: seq<Answer>)
    requires GoodType(q.kind) && Objections(q.filters).None? && AllExecutable(q.filters)
    requires FullResult(full, table, q.kind.value, q.filters)
    requires forall k :: 0 <= k < |rs| ==> rs[k].Rows? && Answers(At(q, k), table, rs[k])
    ensures Concat(rs) == Described(table, Pages(full, Limit(q), |rs|))
  {
    var l := Limit(q);
    forall k | 0 <= k < |rs| ensures rs[k].rows == Described(table, PageAt(full, l, k)) {
      AnswerIsPage(q, table, full, k, rs[k]);
    }
    ConcatOfPages(table, full, l, rs);
  }

  lemma {:induction false} ConcatOfPages(table: Table, full: seq<string>, l: nat, rs: seq<Answer>)
    requires forall k :: 0 <= k < |rs| ==> rs[k].Rows? && rs[k].rows == Described(table, PageAt(full, l, k))
    ensures Concat(rs) == Described(table, Pages(full, l, |rs|))
    decreases |rs|
  {
    if rs != [] {
      var n := |rs| - 1;
      ConcatOfPages(table, full, l, rs[..n]);
      DescribedConcat(table, Pages(full, l, n), PageAt(full, l, n));
    }
  }

  /** The answers themselves: a client that asks at offsets 0, L, 2L, ... until it
      has enough pages holds exactly the full id-ordered result, ids and bodies. */
  lemma PagedQuery(q: Request, table: Table, full: seq<string>, rs: seq<Answer>)
    requires GoodType(q.kind) && Objections(q.filters).None? && AllExecutable(q.filters)
    requires FullResult(full, table, q.kind.value, q.filters)
    requires forall k :: 0 <= k < |rs| ==> rs[k].Rows? && Answers(At(q, k), table, rs[k])
    requires |rs| * Limit(q) >= |full|
    ensures Concat(rs) == Described(table, full)
  {
    ConcatIsPages(q, table, full, rs);
    PagesAreWhole(full, Limit(q), |rs|);
  }

  // -------------------------------------------------------- the request, in numbers

  /** At most 1000 rows, at least one, 100 unless asked; and no negative offset. */
  lemma BoundsAre(q: Request)
    ensures q.limit.None? ==> Limit(q) == 100
    ensures forall n :: q.limit == Some(n) ==> Limit(q) == (if n < 1 then 1 else if n > 1000 then 1000 else n)
    ensures q.offset.None? ==> Offset(q) == 0
    ensures forall n :: q.offset == Some(n) ==> Offset(q) == (if n < 0 then 0 else n)
  {
  }

  /** A page is the ids from the offset on, as many as the limit allows. */
  lemma PageIs(ids: seq<string>, offset: nat, limit: nat, i: nat)
    ensures var page := Page(ids, offset, limit);
      && |page| == (if offset >= |ids| then 0 else if offset + limit <= |ids| then limit else |ids| - offset)
      && (i < |page| ==> page[i] == ids[offset + i])
  {
  }

  /** THE ROWS of an answer are wanted rows with the bodies they are stored with, in id
      order, from the offset on. */
  lemma RowsAre(q: Request, table: Table, r: Answer, full: seq<string>)
    requires Answers(q, table, r) && r.Rows? && q.kind.Some?
    requires Objections(q.filters).None? && AllExecutable(q.filters) && FullResult(full, table, q.kind.value, q.filters)
    ensures r.kind == q.kind.value && r.count == |r.rows| <= Limit(q)
    ensures forall i :: 0 <= i < |r.rows| ==>
      && Offset(q) + i < |full| && r.rows[i].0 == full[Offset(q) + i] && r.rows[i].0 in table && r.rows[i].1 == table[r.rows[i].0]
      && Wanted(q.kind.value, q.filters, r.rows[i].1)
  {
    var other := RowsArePage(q, table, r);
    AscendingUnique(full, other);
    forall i | 0 <= i < |r.rows| ensures Offset(q) + i < |full| && r.rows[i].0 == full[Offset(q) + i]
      && r.rows[i].0 in table && r.rows[i].1 == table[r.rows[i].0] && Wanted(q.kind.value, q.filters, r.rows[i].1)
    {
      PageIs(full, Offset(q), Limit(q), i);
      assert full[Offset(q) + i] in full;
    }
    PageIs(full, Offset(q), Limit(q), 0);
  }

  /** Why a filter is refused, in order: its operator is none of the seven, its key is
      not an identifier, or a comparison of size has no numeral to compare with. */
  lemma FilterRefusals(f: Filter)
    ensures var known := f.op.None? || f.op.value == "eq" || f.op.value == "neq" || f.op.value == "lt" || f.op.value == "lte"
                      || f.op.value == "gt" || f.op.value == "gte" || f.op.value == "contains";
      var sized := f.op.Some? && (f.op.value == "lt" || f.op.value == "lte" || f.op.value == "gt" || f.op.value == "gte");
      var keyed := f.key.Some? && f.key.value != "" && Letter(f.key.value[0])
                   && forall i :: 0 <= i < |f.key.value| ==> Letter(f.key.value[i]) || IsDigit(f.key.value[i]) || f.key.value[i] in ":#/._-";
      && (Objection(f) == Some(InvalidOperator) <==> !known)
      && (Objection(f) == Some(InvalidFilterKey) <==> known && !keyed)
      && (Objection(f) == Some(InvalidNumericValue) <==> known && keyed && sized && (f.value.None? || !NumericShape(f.value.value)))
  {
  }

  ghost predicate FirstObjected(filters: seq<Filter>, i: int, why: Refusal) {
    && 0 <= i < |filters| && Objection(filters[i]) == Some(why)
    && forall j :: 0 <= j < i ==> Objection(filters[j]).None?
  }

  /** The call is refused for the first filter that is objected to. */
  lemma {:induction false} FirstRefusal(filters: seq<Filter>, why: Refusal)
    ensures Objections(filters) == Some(why) <==> exists i :: FirstObjected(filters, i, why)
    decreases |filters|
  {
    if filters != [] {
      var tail := filters[1..];
      FirstRefusal(tail, why);
      if Objection(filters[0]).None? {
        if i :| FirstObjected(tail, i, why) {
          assert forall j :: 1 <= j < i + 1 ==> filters[j] == tail[j - 1];
          assert FirstObjected(filters, i + 1, why);
        }
        if i :| FirstObjected(filters, i, why) {
          assert FirstObjected(tail, i - 1, why);
        }
      } else {
        assert Objection(filters[0]) == Some(why) ==> FirstObjected(filters, 0, why);
      }
    }
  }

  /** What a request is refused for: a kind that does not begin with a letter, before
      anything else, and then the first filter objected to. */
  lemma RefusedExactly(q: Request, table: Table, r: Answer, why: Refusal)
    requires Answers(q, table, r)
    ensures var typed := q.kind.Some? && q.kind.value != "" && ('A' <= q.kind.value[0] <= 'Z' || 'a' <= q.kind.value[0] <= 'z');
      && (r == Refused(InvalidType) <==> !typed)
      && (why != InvalidType ==> (r == Refused(why) <==> typed && exists i :: FirstObjected(q.filters, i, why)))
  {
    FirstRefusal(q.filters, why);
    FirstRefusal(q.filters, InvalidType);
  }
}
