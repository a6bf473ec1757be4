/**
 * The SQL query builder: a StringBuilder appended to in place and two flags that decide
 * whether a Where clause opens with WHERE or continues with AND, and whether an OrderBy
 * opens with ORDER BY or continues with a comma. Build copies the text out and resets
 * nothing.
 *
 * The builder's behaviour is specified by the list of calls made on it so far: Render
 * gives the text of a call list, fragment by fragment, where each fragment's keyword
 * depends only on the calls before it. The builder keeps the rendering of its call list
 * and flags that say whether the list holds a Where or an OrderBy.
 */
module SqlQueryBuilder {
  /** Environment.NewLine, fixed to the Unix terminator. */
  const NewLine: string := "\n"

  /** One call on the builder and its argument. */
  datatype Clause =
    | Select(columns: string)
    | From(table: string)
    | Where(condition: string)
    | OrderBy(orderColumns: string)
    | Join(joinClause: string)

  /** The text one call appends, given whether a Where or an OrderBy came before it. */
  function Fragment(c: Clause, whereSeen: bool, orderSeen: bool): string
  {
    match c
    case Select(columns) => "SELECT " + columns + " "
    case From(table) => "FROM " + table + " "
    case Where(condition) => (if whereSeen then "AND " else "WHERE ") + condition + " "
    case OrderBy(columns) => if orderSeen then ", " + columns else "ORDER BY " + columns + " "
    case Join(joinClause) => "JOIN " + joinClause + NewLine
  }

  predicate AnyWhere(cs: seq<Clause>)
  {
    exists i :: 0 <= i < |cs| && cs[i].Where?
  }

  predicate AnyOrderBy(cs: seq<Clause>)
  {
    exists i :: 0 <= i < |cs| && cs[i].OrderBy?
  }

  /** The fragments of a call list, each rendered against the calls before it. */
  function Fragments(cs: seq<Clause>): seq<string>
  {
    seq(|cs|, i requires 0 <= i < |cs| => Fragment(cs[i], AnyWhere(cs[..i]), AnyOrderBy(cs[..i])))
  }

  function Concat(parts: seq<string>): string
  {
    if parts == [] then "" else parts[0] + Concat(parts[1..])
  }

  /** The query text of a call list. */
  function Render(cs: seq<Clause>): string
  {
    Concat(Fragments(cs))
  }

  lemma {:induction false} ConcatAppend(a: seq<string>, b: seq<string>)
    ensures Concat(a + b) == Concat(a) + Concat(b)
  {
    if a == [] {
      assert a + b == b;
    } else {
      assert (a + b)[1..] == a[1..] + b;
      ConcatAppend(a[1..], b);
    }
  }

  /** One more call extends the text by that call's fragment; the earlier text stays as
      it is. */
  lemma RenderAppend(cs: seq<Clause>, c: Clause)
    ensures Render(cs + [c]) == Render(cs) + Fragment(c, AnyWhere(cs), AnyOrderBy(cs))
  {
    var ds := cs + [c];
    assert ds[..|cs|] == cs;
    assert forall i :: 0 <= i < |cs| ==> ds[..i] == cs[..i];
    assert Fragments(ds) == Fragments(cs) + [Fragment(c, AnyWhere(cs), AnyOrderBy(cs))];
    ConcatAppend(Fragments(cs), [Fragment(c, AnyWhere(cs), AnyOrderBy(cs))]);
    assert Concat([Fragment(c, AnyWhere(cs), AnyOrderBy(cs))]) == Fragment(c, AnyWhere(cs), AnyOrderBy(cs)) by {
      assert [Fragment(c, AnyWhere(cs), AnyOrderBy(cs))][1..] == [];
    }
  }

  /** The first Where opens with WHERE and every later one continues with AND. */
  lemma WhereKeywords(cs: seq<Clause>, i: nat)
    requires i < |cs| && cs[i].Where?
    ensures (exists j :: 0 <= j < i && cs[j].Where?) ==> Fragments(cs)[i] == "AND " + cs[i].condition + " "
    ensures (forall j :: 0 <= j < i ==> !cs[j].Where?) ==> Fragments(cs)[i] == "WHERE " + cs[i].condition + " "
  {
    if exists j :: 0 <= j < i && cs[j].Where? {
      var j :| 0 <= j < i && cs[j].Where?;
      assert cs[..i][j] == cs[j];
    }
  }

  /** The first OrderBy opens with ORDER BY; every later one adds ", columns" with no
      space after it. */
  lemma OrderByKeywords(cs: seq<Clause>, i: nat)
    requires i < |cs| && cs[i].OrderBy?
    ensures (exists j :: 0 <= j < i && cs[j].OrderBy?) ==> Fragments(cs)[i] == ", " + cs[i].orderColumns
    ensures (forall j :: 0 <= j < i ==> !cs[j].OrderBy?) ==> Fragments(cs)[i] == "ORDER BY " + cs[i].orderColumns + " "
  {
    if exists j :: 0 <= j < i && cs[j].OrderBy? {
      var j :| 0 <= j < i && cs[j].OrderBy?;
      assert cs[..i][j] == cs[j];
    }
  }

  /** A call list holds a Where (an OrderBy) after one more call exactly when it did
      before or the new call is one. */
  lemma FlagsAppend(cs: seq<Clause>, c: Clause)
    ensures AnyWhere(cs + [c]) == (AnyWhere(cs) || c.Where?)
    ensures AnyOrderBy(cs + [c]) == (AnyOrderBy(cs) || c.OrderBy?)
  {
    var ds := cs + [c];
    assert ds[|cs|] == c;
    if AnyWhere(cs) {
      var j :| 0 <= j < |cs| && cs[j].Where?;
      assert ds[j] == cs[j];
    }
    if AnyOrderBy(cs) {
      var j :| 0 <= j < |cs| && cs[j].OrderBy?;
      assert ds[j] == cs[j];
    }
  }

  /** SQLQuery: the built text; GetQuery and ToString both return it. */
  class SqlQuery {
    var query: string

    constructor(query: string)
      ensures this.query == query
    {
      this.query := query;
    }

    function GetQuery(): string
      reads this
    {
      query
    }

    function ToString(): string
      reads this
    {
      query
    }
  }

  /** StandardQueryBuilder. */
  class StandardQueryBuilder {
    var query: string
    var hasWhere: bool
    var hasOrderBy: bool
    /** The calls made so far, oldest first. */
    ghost var clauses: seq<Clause>

    ghost predicate Valid()
      reads this
    {
      && query == Render(clauses)
      && hasWhere == AnyWhere(clauses)
      && hasOrderBy == AnyOrderBy(clauses)
    }

    constructor()
      ensures Valid() && clauses == [] && query == ""
    {
      query := "";
      hasWhere := false;
      hasOrderBy := false;
      clauses := [];
    }

    /** Records call c, whose fragment the caller has just appended. */
    ghost method Record(c: Clause)
      requires query == Render(clauses) + Fragment(c, AnyWhere(clauses), AnyOrderBy(clauses))
      requires hasWhere == (AnyWhere(clauses) || c.Where?)
      requires hasOrderBy == (AnyOrderBy(clauses) || c.OrderBy?)
      modifies this`clauses
      ensures clauses == old(clauses) + [c] && Valid()
    {
      RenderAppend(clauses, c);
      FlagsAppend(clauses, c);
      clauses := clauses + [c];
    }

    method Select(columns: string) returns (self: StandardQueryBuilder)
      requires Valid()
      modifies this`query, this`clauses
      ensures Valid() && self == this
      ensures clauses == old(clauses) + [Clause.Select(columns)]
      ensures query == old(query) + ("SELECT " + columns + " ")
    {
      query := query + ("SELECT " + columns + " ");
      Record(Clause.Select(columns));
      self := this;
    }

    method From(table: string) returns (self: StandardQueryBuilder)
      requires Valid()
      modifies this`query, this`clauses
      ensures Valid() && self == this
      ensures clauses == old(clauses) + [Clause.From(table)]
      ensures query == old(query) + ("FROM " + table + " ")
    {
      query := query + ("FROM " + table + " ");
      Record(Clause.From(table));
      self := this;
    }

    method Where(condition: string) returns (self: StandardQueryBuilder)
      requires Valid()
      modifies this`query, this`hasWhere, this`clauses
      ensures Valid() && self == this
      ensures clauses == old(clauses) + [Clause.Where(condition)]
      ensures !old(hasWhere) ==> query == old(query) + ("WHERE " + condition + " ")
      ensures old(hasWhere) ==> query == old(query) + ("AND " + condition + " ")
    {
      if !hasWhere {
        query := query + ("WHERE " + condition + " ");
        hasWhere := true;
      } else {
        query := query + ("AND " + condition + " ");
      }
      Record(Clause.Where(condition));
      self := this;
    }

    method OrderBy(columns: string) returns (self: StandardQueryBuilder)
      requires Valid()
      modifies this`query, this`hasOrderBy, this`clauses
      ensures Valid() && self == this
      ensures clauses == old(clauses) + [Clause.OrderBy(columns)]
      ensures !old(hasOrderBy) ==> query == old(query) + ("ORDER BY " + columns + " ")
      ensures old(hasOrderBy) ==> query == old(query) + (", " + columns)
    {
      if !hasOrderBy {
        query := query + ("ORDER BY " + columns + " ");
        hasOrderBy := true;
      } else {
        query := query + (", " + columns);
      }
      Record(Clause.OrderBy(columns));
      self := this;
    }

    method Join(joinClause: string) returns (self: StandardQueryBuilder)
      requires Valid()
      modifies this`query, this`clauses
      ensures Valid() && self == this
      ensures clauses == old(clauses) + [Clause.Join(joinClause)]
      ensures query == old(query) + ("JOIN " + joinClause + NewLine)
    {
      query := query + ("JOIN " + joinClause + NewLine);
      Record(Clause.Join(joinClause));
      self := this;
    }

    /** Build: a new SQLQuery holding the rendering of every call so far; the builder
        keeps its text and flags. */
    method Build() returns (q: SqlQuery)
      requires Valid()
      ensures q.query == Render(clauses)
    {
      q := new SqlQuery(query);
    }
  }

  /** The number a string of decimal digits denotes, most significant digit first. */
  function DecimalValue(s: string): int
  {
    if s == [] then 0 else DecimalValue(s[..|s| - 1]) * 10 + (s[|s| - 1] as int - '0' as int)
  }

  /** The number an optionally signed decimal text denotes. */
  function SignedValue(s: string): int
  {
    if |s| > 0 && s[0] == '-' then -DecimalValue(s[1..]) else DecimalValue(s)
  }

  /** An int as C# formats it: optional minus sign, then decimal digits. */
  function IntText(n: int): (r: string)
    ensures SignedValue(r) == n
    ensures |r| > 0 && (r[0] == '-' <==> n < 0)
    ensures forall k :: (if n < 0 then 1 else 0) <= k < |r| ==> '0' <= r[k] <= '9'
  {
    if n < 0 then
      var digits := NatText(-n);
      assert ("-" + digits)[1..] == digits;
      "-" + digits
    else NatText(n)
  }

  /** A natural number in decimal: digits only, no leading zero, denoting n. */
  function NatText(n: nat): (r: string)
    ensures r != [] && forall k :: 0 <= k < |r| ==> '0' <= r[k] <= '9'
    ensures DecimalValue(r) == n
    ensures |r| == 1 || r[0] != '0'
  {
    if n < 10 then [Digit(n)]
    else
      var init := NatText(n / 10);
      var r := init + [Digit(n % 10)];
      assert r[..|r| - 1] == init;
      assert r[0] == init[0];
      r
  }

  /** The character of a decimal digit. */
  function Digit(d: nat): (r: char)
    requires d < 10
    ensures '0' <= r <= '9'
    ensures r as int - '0' as int == d
  {
    "0123456789"[d]
  }

  /** QueryDirector: two fixed call sequences on the builder it was given. */
  class QueryDirector {
    const builder: StandardQueryBuilder

    constructor(builder: StandardQueryBuilder)
      ensures this.builder == builder
    {
      this.builder := builder;
    }

    /** ConstructUserByIdQuery(userid). */
    method ConstructUserByIdQuery(userid: int)
      requires builder.Valid()
      modifies builder
      ensures builder.Valid()
      ensures builder.clauses == old(builder.clauses) +
        [Clause.Select("*"), Clause.From("users"), Clause.Where("id = " + IntText(userid))]
    {
      var b := builder.Select("*");
      b := b.From("users");
      b := b.Where("id = " + IntText(userid));
    }

    /** The parameterless ConstructUserByIdQuery overload: active users over 30 with their
        profiles, ordered by name. */
    method ConstructProfileQuery()
      requires builder.Valid()
      modifies builder
      ensures builder.Valid()
      ensures builder.clauses == old(builder.clauses)
        + [Clause.Select("u.id, u.name, u.email, p.phone")] + [Clause.From("users u")]
        + [Clause.Join("profiles p ON u.id = p.user_id")] + [Clause.Where("u.age > 30")]
        + [Clause.Where("u.active = 1")] + [Clause.OrderBy("u.name ASC")]
    {
      var b := builder.Select("u.id, u.name, u.email, p.phone");
      b := b.From("users u");
      b := b.Join("profiles p ON u.id = p.user_id");
      b := b.Where("u.age > 30");
      b := b.Where("u.active = 1");
      b := b.OrderBy("u.name ASC");
    }

    method GetSqlQuery() returns (q: SqlQuery)
      requires builder.Valid()
      ensures q.query == Render(builder.clauses)
    {
      q := builder.Build();
    }
  }

  /** Render of a call list extended by one call whose fragment is known. */
  lemma RenderStep(cs: seq<Clause>, c: Clause, before: string, fragment: string)
    requires Render(cs) == before && Fragment(c, AnyWhere(cs), AnyOrderBy(cs)) == fragment
    ensures Render(cs + [c]) == before + fragment
  {
    RenderAppend(cs, c);
  }

  /** On a fresh builder, the query for user 5. */
  lemma UserByIdQueryText()
    ensures Render([Clause.Select("*"), Clause.From("users"), Clause.Where("id = " + IntText(5))])
      == "SELECT * " + "FROM users " + "WHERE id = 5 "
  {
    assert "id = " + IntText(5) == "id = 5" by {
      assert IntText(5) == "5";
    }
    var c0, c1, c2 := Clause.Select("*"), Clause.From("users"), Clause.Where("id = 5");
    assert Render([]) == "";
    RenderStep([], c0, "", "SELECT * ");
    assert [] + [c0] == [c0];
    RenderStep([c0], c1, "SELECT * ", "FROM users ");
    assert [c0] + [c1] == [c0, c1];
    assert !AnyWhere([c0, c1]);
    RenderStep([c0, c1], c2, "SELECT * " + "FROM users ", "WHERE id = 5 ");
    assert [c0, c1] + [c2] == [c0, c1, c2];
  }

  /** The director's first query on a fresh builder, built twice: both builds hold the
      same text, since Build resets nothing. */
  method UserByIdDemo() returns (first: string, second: string)
    ensures first == second == "SELECT * " + "FROM users " + "WHERE id = 5 "
  {
    var builder := new StandardQueryBuilder();
    var director := new QueryDirector(builder);
    director.ConstructUserByIdQuery(5);
    var q1 := director.GetSqlQuery();
    var q2 := director.GetSqlQuery();
    UserByIdQueryText();
    first := q1.GetQuery();
    second := q2.ToString();
  }
}
