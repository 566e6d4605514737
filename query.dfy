/**
  The SQL text builder `Query`: six clauses set through checking setters and
  rendered as one statement. Each setter either stores its clause text or raises
  before touching the object.
*/
module SqlQuery {
  import opened Base
  import opened Python

  /** A value handed to a setter: a plain Python value or a tuple of them. */
  datatype Arg = Atom(v: Value) | Tuple(items: seq<Value>)

  /** The exceptions the setters raise. */
  datatype QueryError = TypeError | RuntimeError | ValueError

  /** The arguments of a Query, as passed to its constructor. */
  datatype Arguments = Arguments(select: Arg, source: Arg, where: Arg, orderBy: Arg, limit: Arg, withAs: Arg)

  /** Python's None as an argument. */
  const NoArg: Arg := Atom(PyNone)

  /**
    The SELECT, FROM, WHERE and ORDER BY setters: a str gives the clause prefix
    ("SELECT ", "FROM ", "WHERE ", "ORDER BY ") followed by the text; None gives
    the empty clause where the clause is optional; anything else raises TypeError.
  */
  function TextClause(prefix: string, a: Arg, optional: bool): (r: Result<string, QueryError>)
    ensures r.Ok? <==> a.Atom? && (a.v.Str? || (optional && a.v.PyNone?))
    ensures r.Err? ==> r.error == TypeError
    ensures r.Ok? && a.v.PyNone? ==> r.value == ""
    ensures r.Ok? && a.v.Str? ==> (|r.value| == |prefix| + |a.v.s|
      && r.value[..|prefix|] == prefix && r.value[|prefix|..] == a.v.s)
  {
    if a.Atom? && a.v.Str? then Ok(prefix + a.v.s)
    else if optional && a == NoArg then Ok("")
    else Err(TypeError)
  }

  /**
    The LIMIT setter: None gives the empty clause; a str or an int (a bool is an
    int to isinstance) gives "LIMIT " and its text; anything else raises TypeError.
  */
  function LimitClause(a: Arg): (r: Result<string, QueryError>)
    ensures r.Ok? <==> a.Atom? && (a.v.PyNone? || a.v.Str? || a.v.Int? || a.v.Bool?)
    ensures r.Err? ==> r.error == TypeError
    ensures r.Ok? && a.v.PyNone? ==> r.value == ""
    ensures r.Ok? && !a.v.PyNone? ==> (|r.value| == 6 + |Show(a.v)|
      && r.value[..6] == "LIMIT " && r.value[6..] == Show(a.v))
  {
    if a == NoArg then Ok("")
    else if a.Atom? && (a.v.Str? || a.v.Int? || a.v.Bool?) then Ok("LIMIT " + Show(a.v))
    else Err(TypeError)
  }

  /**
    The WITHAS setter: None gives the empty clause; a non-tuple raises TypeError;
    a tuple longer than two raises RuntimeError; a shorter one fails to unpack
    with ValueError; a pair (w, q) gives "WITH w AS (q) ".
  */
  function WithAsClause(a: Arg): (r: Result<string, QueryError>)
    ensures r.Ok? <==> a == NoArg || (a.Tuple? && |a.items| == 2)
    ensures r.Err? ==> (r.error == TypeError <==> a.Atom?)
    ensures r.Err? ==> (r.error == RuntimeError <==> a.Tuple? && |a.items| > 2)
    ensures r.Err? ==> (r.error == ValueError <==> a.Tuple? && |a.items| < 2)
    ensures r.Ok? && a == NoArg ==> r.value == ""
    ensures r.Ok? && a.Tuple? ==> var w, q, n := Show(a.items[0]), Show(a.items[1]), |Show(a.items[0])|;
      |r.value| == n + |q| + 12
      && r.value[..5] == "WITH " && r.value[5..5 + n] == w && r.value[5 + n..10 + n] == " AS ("
      && r.value[10 + n..10 + n + |q|] == q && r.value[10 + n + |q|..] == ") "
  {
    if a == NoArg then Ok("")
    else if a.Atom? then Err(TypeError)
    else if |a.items| > 2 then Err(RuntimeError)
    else if |a.items| < 2 then Err(ValueError)
    else Ok("WITH " + Show(a.items[0]) + " AS (" + Show(a.items[1]) + ") ")
  }

  /** The six clauses in the order the constructor sets them. */
  function Clauses(args: Arguments): (cs: seq<Result<string, QueryError>>)
    ensures |cs| == 6
  {
    [TextClause("SELECT ", args.select, false), TextClause("FROM ", args.source, false),
     TextClause("WHERE ", args.where, true), TextClause("ORDER BY ", args.orderBy, true),
     LimitClause(args.limit), WithAsClause(args.withAs)]
  }

  /** The first of the clauses that raised, if any. */
  function FirstError(cs: seq<Result<string, QueryError>>): (e: Option<QueryError>)
    ensures e.None? <==> forall k :: 0 <= k < |cs| ==> cs[k].Ok?
    ensures e.Some? ==> exists k :: 0 <= k < |cs| && cs[k] == Err(e.value) && forall j :: 0 <= j < k ==> cs[j].Ok?
  {
    if cs == [] then None
    else if cs[0].Err? then Some(cs[0].error)
    else FirstError(cs[1..])
  }

  /**
    The statement text: the WITH prefix directly before SELECT, then FROM, WHERE,
    ORDER BY and LIMIT, each after one space, empty clauses included.
  */
  function Render(withAs: string, select: string, source: string, where: string, orderBy: string, limit: string): string
  {
    withAs + select + " " + source + " " + where + " " + orderBy + " " + limit
  }

  /**
    Building a Query from its arguments: the first exception raised in
    constructor order, or the text of the finished query.
  */
  function Compose(args: Arguments): (r: Result<string, QueryError>)
    ensures r.Err? <==> FirstError(Clauses(args)).Some?
    ensures r.Err? ==> r.error == FirstError(Clauses(args)).value
  {
    var cs := Clauses(args);
    match FirstError(cs)
    case Some(e) => Err(e)
    case None => Ok(Render(cs[5].value, cs[0].value, cs[1].value, cs[2].value, cs[3].value, cs[4].value))
  }

  class Query {
    var selectText: string
    var sourceText: string
    var whereText: string
    var orderByText: string
    var limitText: string
    var withAsText: string

    /** All clauses empty, before the setters run. */
    constructor Blank()
      ensures selectText == sourceText == whereText == orderByText == limitText == withAsText == ""
    {
      selectText, sourceText, whereText, orderByText, limitText, withAsText := "", "", "", "", "", "";
    }

    /** The statement text of the query, as `__str__` gives it. */
    function ToString(): string
      reads this
    {
      Render(withAsText, selectText, sourceText, whereText, orderByText, limitText)
    }

    method SetSelect(a: Arg) returns (err: Option<QueryError>)
      modifies this`selectText
      ensures var c := TextClause("SELECT ", a, false);
        if c.Ok? then err == None && selectText == c.value
        else err == Some(c.error) && selectText == old(selectText)
    {
      if !(a.Atom? && a.v.Str?) {
        return Some(TypeError);
      }
      selectText := "SELECT " + a.v.s;
      err := None;
    }

    method SetSource(a: Arg) returns (err: Option<QueryError>)
      modifies this`sourceText
      ensures var c := TextClause("FROM ", a, false);
        if c.Ok? then err == None && sourceText == c.value
        else err == Some(c.error) && sourceText == old(sourceText)
    {
      if !(a.Atom? && a.v.Str?) {
        return Some(TypeError);
      }
      sourceText := "FROM " + a.v.s;
      err := None;
    }

    method SetWhere(a: Arg) returns (err: Option<QueryError>)
      modifies this`whereText
      ensures var c := TextClause("WHERE ", a, true);
        if c.Ok? then err == None && whereText == c.value
        else err == Some(c.error) && whereText == old(whereText)
    {
      if a == NoArg {
        whereText := "";
      } else if !(a.Atom? && a.v.Str?) {
        return Some(TypeError);
      } else {
        whereText := "WHERE " + a.v.s;
      }
      err := None;
    }

    method SetOrderBy(a: Arg) returns (err: Option<QueryError>)
      modifies this`orderByText
      ensures var c := TextClause("ORDER BY ", a, true);
        if c.Ok? then err == None && orderByText == c.value
        else err == Some(c.error) && orderByText == old(orderByText)
    {
      if a == NoArg {
        orderByText := "";
      } else if !(a.Atom? && a.v.Str?) {
        return Some(TypeError);
      } else {
        orderByText := "ORDER BY " + a.v.s;
      }
      err := None;
    }

    method SetLimit(a: Arg) returns (err: Option<QueryError>)
      modifies this`limitText
      ensures var c := LimitClause(a);
        if c.Ok? then err == None && limitText == c.value
        else err == Some(c.error) && limitText == old(limitText)
    {
      if a == NoArg {
        limitText := "";
      } else if !(a.Atom? && (a.v.Str? || a.v.Int? || a.v.Bool?)) {
        return Some(TypeError);
      } else {
        limitText := "LIMIT " + Show(a.v);
      }
      err := None;
    }

    method SetWithAs(a: Arg) returns (err: Option<QueryError>)
      modifies this`withAsText
      ensures var c := WithAsClause(a);
        if c.Ok? then err == None && withAsText == c.value
        else err == Some(c.error) && withAsText == old(withAsText)
    {
      if a == NoArg {
        withAsText := "";
      } else if a.Atom? {
        return Some(TypeError);
      } else if |a.items| > 2 {
        return Some(RuntimeError);
      } else if |a.items| < 2 {
        return Some(ValueError);
      } else {
        withAsText := "WITH " + Show(a.items[0]) + " AS (" + Show(a.items[1]) + ") ";
      }
      err := None;
    }

    /**
      The constructor: the setters in order SELECT, FROM, WHERE, ORDER BY,
      LIMIT, WITHAS; the first that raises ends the construction with its
      exception, otherwise the new query renders as Compose says.
    */
    static method New(args: Arguments) returns (r: Result<Query, QueryError>)
      ensures r.Err? <==> Compose(args).Err?
      ensures r.Err? ==> r.error == Compose(args).error
      ensures r.Ok? ==> fresh(r.value) && r.value.ToString() == Compose(args).value
      ensures r.Ok? ==> var cs := Clauses(args);
        && r.value.selectText == cs[0].value && r.value.sourceText == cs[1].value
        && r.value.whereText == cs[2].value && r.value.orderByText == cs[3].value
        && r.value.limitText == cs[4].value && r.value.withAsText == cs[5].value
    {
      var q := new Query.Blank();
      ghost var cs := Clauses(args);
      assert cs[0] == TextClause("SELECT ", args.select, false) && cs[1] == TextClause("FROM ", args.source, false);
      assert cs[2] == TextClause("WHERE ", args.where, true) && cs[3] == TextClause("ORDER BY ", args.orderBy, true);
      assert cs[4] == LimitClause(args.limit) && cs[5] == WithAsClause(args.withAs);
      var e := q.SetSelect(args.select);
      if e.Some? {
        return Err(e.value);
      }
      e := q.SetSource(args.source);
      if e.Some? {
        return Err(e.value);
      }
      e := q.SetWhere(args.where);
      if e.Some? {
        return Err(e.value);
      }
      e := q.SetOrderBy(args.orderBy);
      if e.Some? {
        return Err(e.value);
      }
      e := q.SetLimit(args.limit);
      if e.Some? {
        return Err(e.value);
      }
      e := q.SetWithAs(args.withAs);
      if e.Some? {
        return Err(e.value);
      }
      assert FirstError(cs) == None;
      r := Ok(q);
    }
  }

  /**
    SELECT and FROM with an optional WITH prefix and nothing else: the three
    empty clauses still leave three trailing spaces.
  */
  lemma SelectFromOnly(select: string, source: string, withAs: Arg)
    requires withAs == NoArg || (withAs.Tuple? && |withAs.items| == 2)
    ensures var prefix := if withAs == NoArg then ""
        else "WITH " + Show(withAs.items[0]) + " AS (" + Show(withAs.items[1]) + ") ";
      Compose(Arguments(Atom(Str(select)), Atom(Str(source)), NoArg, NoArg, NoArg, withAs))
        == Ok(prefix + "SELECT " + select + " FROM " + source + "   ")
  {
    var args := Arguments(Atom(Str(select)), Atom(Str(source)), NoArg, NoArg, NoArg, withAs);
    var cs := Clauses(args);
    var prefix := cs[5].value;
    assert cs[0] == Ok("SELECT " + select) && cs[1] == Ok("FROM " + source);
    assert cs[2] == Ok("") && cs[3] == Ok("") && cs[4] == Ok("");
    assert FirstError(cs) == None;
    AppendTwice(prefix, "SELECT ", select);
    var l := prefix + "SELECT " + select;
    AppendRegrouped(l, " ", "FROM ", source);
    AppendMerged(l, " ", "FROM ", " FROM ");
    var l2 := l + " FROM " + source;
    assert Compose(args).value == Render(prefix, "SELECT " + select, "FROM " + source, "", "", "");
    assert l2 + " " + "" + " " + "" + " " + "" == l2 + " " + " " + " ";
    AppendMerged(l2, " ", " ", "  ");
    AppendMerged(l2, "  ", " ", "   ");
  }

  /**
    The exception of a construction comes from the first bad argument in
    constructor order: a SELECT that is not a str raises TypeError whatever
    the later arguments are; a bad WITHAS decides only when all the others are good.
  */
  lemma ErrorFromFirstBadArgument(args: Arguments)
    ensures !(args.select.Atom? && args.select.v.Str?) ==> Compose(args) == Err(TypeError)
    ensures (forall k :: 0 <= k < 5 ==> Clauses(args)[k].Ok?) ==>
      (Compose(args).Err? <==> WithAsClause(args.withAs).Err?)
      && (Compose(args).Err? ==> Compose(args).error == WithAsClause(args.withAs).error)
  {
  }

  /**
    All four text clauses set and no WITH prefix, as in the scripts' fingerprint
    and latest-entry queries: the clauses follow each other after one space, and
    the statement ends with a space when LIMIT is None.
  */
  lemma FilteredQuery(select: string, source: string, where: string, orderBy: string, limit: Arg)
    requires LimitClause(limit).Ok?
    ensures Compose(Arguments(Atom(Str(select)), Atom(Str(source)), Atom(Str(where)), Atom(Str(orderBy)), limit, NoArg))
      == Ok("SELECT " + select + " FROM " + source + " WHERE " + where + " ORDER BY " + orderBy + " "
        + LimitClause(limit).value)
  {
    var args := Arguments(Atom(Str(select)), Atom(Str(source)), Atom(Str(where)), Atom(Str(orderBy)), limit, NoArg);
    var cs := Clauses(args);
    var e := LimitClause(limit).value;
    assert cs[0] == Ok("SELECT " + select) && cs[1] == Ok("FROM " + source);
    assert cs[2] == Ok("WHERE " + where) && cs[3] == Ok("ORDER BY " + orderBy);
    assert cs[4] == Ok(e) && cs[5] == Ok("");
    assert FirstError(cs) == None;
    assert Compose(args).value == Render("", "SELECT " + select, "FROM " + source, "WHERE " + where, "ORDER BY " + orderBy, e);
    var l := "SELECT " + select;
    assert "" + l == l;
    AppendRegrouped(l, " ", "FROM ", source);
    AppendMerged(l, " ", "FROM ", " FROM ");
    var l2 := l + " FROM " + source;
    AppendRegrouped(l2, " ", "WHERE ", where);
    AppendMerged(l2, " ", "WHERE ", " WHERE ");
    var l3 := l2 + " WHERE " + where;
    AppendRegrouped(l3, " ", "ORDER BY ", orderBy);
    AppendMerged(l3, " ", "ORDER BY ", " ORDER BY ");
  }

  /**
    Whatever the other clauses are, a query with a WITH pair starts with
    "WITH w AS (q) " and SELECT follows right after it.
  */
  lemma WithAsLeads(args: Arguments)
    requires Compose(args).Ok? && args.withAs.Tuple?
    ensures var prefix := "WITH " + Show(args.withAs.items[0]) + " AS (" + Show(args.withAs.items[1]) + ") ";
      var text := Compose(args).value;
      |text| >= |prefix| + 7 && text[..|prefix|] == prefix && text[|prefix|..|prefix| + 7] == "SELECT "
  {
    var cs := Clauses(args);
    assert FirstError(cs) == None;
    var prefix, select := cs[5].value, cs[0].value;
    var n := |prefix| + 7;
    var head := prefix + select;
    assert select[..7] == "SELECT " && |head| >= n;
    assert head[..n] == prefix + "SELECT ";
    var b, c, d, e := cs[1].value, cs[2].value, cs[3].value, cs[4].value;
    SliceOfFirst(head, " ", 0, n);
    SliceOfFirst(head + " ", b, 0, n);
    SliceOfFirst(head + " " + b, " ", 0, n);
    SliceOfFirst(head + " " + b + " ", c, 0, n);
    SliceOfFirst(head + " " + b + " " + c, " ", 0, n);
    SliceOfFirst(head + " " + b + " " + c + " ", d, 0, n);
    SliceOfFirst(head + " " + b + " " + c + " " + d, " ", 0, n);
    SliceOfFirst(head + " " + b + " " + c + " " + d + " ", e, 0, n);
    var text := head + " " + b + " " + c + " " + d + " " + e;
    assert text == Compose(args).value;
    assert text[..n] == prefix + "SELECT ";
    assert text[..|prefix|] == text[..n][..|prefix|];
    assert text[|prefix|..n] == text[..n][|prefix|..];
  }
}
