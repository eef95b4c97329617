/** The writers that put a statement together: columns, select lists, joins, and the WHERE,
    GROUP BY, HAVING, ORDER BY and LIMIT clauses.

    Each writer appends to a shared text builder and returns the arguments it collected; it is
    specified by a function that gives the text and the arguments it adds. */
module ClauseWriters {
  import opened Outcomes
  import opened SqlText
  import opened Expressions

  /** The text of the statement being written. */
  class Builder {
    var text: seq<Token>

    constructor ()
      ensures text == []
    {
      text := [];
    }

    method Write(more: seq<Token>)
      modifies this
      ensures text == old(text) + more
    {
      text := text + more;
    }

    method WriteString(s: string)
      modifies this
      ensures text == old(text) + Txt(s).text
    {
      text := text + Txt(s).text;
    }
  }

  /** A writer's result against its goal: it fails when the goal does, and otherwise has added
      the goal's text and returned the goal's arguments. */
  predicate Appended(before: seq<Token>, after: seq<Token>, r: Result<seq<Value>>, goal: Result<Code>) {
    r.Ok? == goal.Ok? && (r.Ok? ==> after == before + goal.value.text && r.value == goal.value.args)
  }

  lemma {:induction false} AppendedThen(a: seq<Token>, b: seq<Token>, c: seq<Token>, r: seq<Value>, s: seq<Value>, g: Code, h: Code)
    requires Appended(a, b, Ok(r), Ok(g)) && Appended(b, c, Ok(s), Ok(h))
    ensures Appended(a, c, Ok(r + s), Ok(Then(g, h)))
  {
  }

  // ----- writing every element of a list -----

  /** How one element is printed. */
  type Printer<!T> = T -> Result<Code>

  /** The elements printed in order with `sep` between them. */
  function ListCode<T>(printer: Printer<T>, xs: seq<T>, sep: string): Result<Code> {
    if xs == [] then Ok(Code([], []))
    else
      var c :- printer(xs[0]);
      var rest :- ListCode(printer, xs[1..], sep);
      Ok(Then(Then(c, Txt(if |xs| > 1 then sep else "")), rest))
  }

  /** A list under way: what is written, then the rest of the list, is the whole goal. */
  predicate Progress(before: seq<Token>, goal: Result<Code>, text: seq<Token>, args: seq<Value>, rest: Result<Code>) {
    goal.Ok? == rest.Ok?
    && (goal.Ok? ==> Then(Code(before, []), goal.value) == Then(Code(text, args), rest.value))
  }

  lemma {:induction false} Advance(before: seq<Token>, goal: Result<Code>, text: seq<Token>, args: seq<Value>,
                                   rest: Result<Code>, step: Code, more: Result<Code>)
    requires Progress(before, goal, text, args, rest)
    requires rest.Ok? == more.Ok? && (rest.Ok? ==> rest.value == Then(step, more.value))
    ensures Progress(before, goal, text + step.text, args + step.args, more)
  {
    if goal.Ok? {
      assert Then(Code(text, args), Then(step, more.value)) == Then(Code(text + step.text, args + step.args), more.value);
    }
  }

  lemma {:induction false} Finished(before: seq<Token>, goal: Result<Code>, text: seq<Token>, args: seq<Value>, rest: Result<Code>)
    requires Progress(before, goal, text, args, rest) && rest == Ok(Code([], []))
    ensures Appended(before, text, Ok(args), goal)
  {
    assert Then(Code(text, args), Code([], [])) == Code(text, args);
    assert Then(Code(before, []), goal.value) == Code(before + goal.value.text, goal.value.args);
  }

  /** The loop every clause writer runs: print an element, write it, and keep its arguments. */
  method WriteEach<T>(printer: Printer<T>, xs: seq<T>, sep: string, sb: Builder) returns (r: Result<seq<Value>>)
    modifies sb
    ensures Appended(old(sb.text), sb.text, r, ListCode(printer, xs, sep))
  {
    var args: seq<Value> := [];
    ghost var before, goal := sb.text, ListCode(printer, xs, sep);
    for i := 0 to |xs|
      invariant Progress(before, goal, sb.text, args, ListCode(printer, xs[i..], sep))
    {
      ghost var text, rest := sb.text, ListCode(printer, xs[i..], sep);
      assert xs[i..][1..] == xs[i + 1..];
      var c := printer(xs[i]);
      if c.Panic? {
        return Panic;
      }
      sb.Write(c.value.text);
      ghost var step := Then(c.value, Txt(if i + 1 < |xs| then sep else ""));
      if i + 1 < |xs| {
        sb.WriteString(sep);
      }
      Advance(before, goal, text, args, rest, step, ListCode(printer, xs[i + 1..], sep));
      assert sb.text == text + step.text;
      assert args + c.value.args == args + step.args;
      args := args + c.value.args;
    }
    Finished(before, goal, sb.text, args, ListCode(printer, xs[|xs|..], sep));
    return Ok(args);
  }

  /** The compiler's side of a query: how expressions resolve, the identifier quote, and the
      prefix of generated aliases. */
  datatype Writer = Writer(env: Env, quote: string, prefix: string)

  // ----- columns -----

  datatype TableColumn = TableColumn(
    tableOrAlias: string,
    fieldAlias: string,
    rawSQL: seq<Token>,
    column: Option<string>,
    forUpdate: bool,
    value: Option<Value>)

  const NO_COLUMN := TableColumn("", "", [], None, false, None)

  predicate ValidColumn(c: TableColumn) {
    && !(c.tableOrAlias != "" && (c.forUpdate || c.rawSQL != []))
    && !(c.rawSQL == [] && c.value == None && c.column == None && c.fieldAlias == "")
    && !(c.forUpdate && (c.value.Some? || c.rawSQL != []))
    && !(c.column.Some? && c.rawSQL != [])
    && !(c.fieldAlias != "" && (c.forUpdate || c.value.Some?))
  }

  function Quoted(w: Writer, s: string): string {
    w.quote + s + w.quote
  }

  /** The column itself: a field, raw SQL, a bound value, or an alias of the select list. */
  function ColumnBody(w: Writer, c: TableColumn): Result<Code> {
    if c.column.Some? then
      if c.column.value == "" then Panic else Ok(Txt(Quoted(w, c.column.value)))
    else if c.rawSQL != [] then Ok(Code(c.rawSQL, if c.value.Some? then [c.value.value] else []))
    else if c.value.Some? then Ok(Bind(c.value.value))
    else if c.fieldAlias != "" then Ok(Txt(Quoted(w, c.fieldAlias)))
    else Panic
  }

  /** An update column ends in a placeholder whose value its caller supplies. */
  function FormatColumn(w: Writer, c: TableColumn): Result<Code> {
    if !ValidColumn(c) then Panic
    else
      var body :- ColumnBody(w, c);
      var table := if c.tableOrAlias == "" then Txt("") else Txt(Quoted(w, c.tableOrAlias) + ".");
      var named := c.fieldAlias != "" && (c.column.Some? || c.rawSQL != []);
      var alias := if named then Txt(" AS " + Quoted(w, c.fieldAlias)) else Txt("");
      var assign := if c.forUpdate then Code([Text(" = "), Hole], []) else Txt("");
      Ok(Then(Then(table, body), Then(alias, assign)))
  }

  // ----- fields of the select list -----

  datatype Virtual = Stored | Computed(e: Option<Expr>)

  /** A field of a select list: a stored column, or a computed field with its expression (none
      when the field was declared without one). */
  datatype FieldDef = FieldDef(name: string, column: string, virt: Virtual, alias: string)

  /** One entry of the select list; the fields of a through table are written first. */
  datatype FieldInfo = FieldInfo(
    hasModel: bool,
    hasSource: bool,
    tableName: string,
    tableAlias: string,
    fields: seq<FieldDef>,
    through: seq<FieldDef>,
    throughTable: string)

  function TableOf(info: FieldInfo): string {
    if info.tableAlias == "" then info.tableName else info.tableAlias
  }

  function FieldAlias(prefix: string, table: string, alias: string): string {
    (if prefix != "" then prefix + "_" else "") + (if table != "" then table + "_" else "") + alias
  }

  datatype Written = Written(code: Code, isSQL: bool, written: bool)

  /** A computed field without text is not written at all. */
  function WriteField(w: Writer, table: string, f: FieldDef, forUpdate: bool): Result<Written> {
    match f.virt
    case Computed(e) =>
      var c :- ComputedSql(w.env, e);
      if c.text == [] then Ok(Written(Code([], []), true, false))
      else
        var alias := if f.alias != "" && !forUpdate then FieldAlias(w.prefix, table, f.alias) else "";
        var col :- FormatColumn(w, NO_COLUMN.(rawSQL := c.text, fieldAlias := alias));
        Ok(Written(Code(col.text, c.args + col.args), true, true))
    case Stored =>
      var col :- FormatColumn(w, NO_COLUMN.(tableOrAlias := if forUpdate then "" else table, column := Some(f.column),
                                           forUpdate := forUpdate));
      Ok(Written(Code(col.text, []), false, true))
  }

  function ComputedSql(env: Env, e: Option<Expr>): Result<Code> {
    match e
    case None => Ok(Code([], []))
    case Some(x) => Compile(env, x)
  }

  /** How the fields of one entry are printed. */
  type FieldPrinter = FieldDef -> Result<Written>

  /** Whether anything was written once these fields have been. */
  function WrittenAfter(printer: FieldPrinter, fs: seq<FieldDef>, written: bool): bool {
    if fs == [] then written
    else match printer(fs[0])
      case Panic => false
      case Ok(f) => WrittenAfter(printer, fs[1..], f.written || written)
  }

  /** Fields written one after the other, a comma before each once something was written. */
  function FieldsCode(printer: FieldPrinter, fs: seq<FieldDef>, written: bool): Result<Code> {
    if fs == [] then Ok(Code([], []))
    else
      var f :- printer(fs[0]);
      var rest :- FieldsCode(printer, fs[1..], f.written || written);
      Ok(Then(Then(Txt(if written then ", " else ""), f.code), rest))
  }

  method WriteFieldList(printer: FieldPrinter, fs: seq<FieldDef>, written: bool, sb: Builder)
    returns (r: Result<seq<Value>>, wr: bool)
    modifies sb
    ensures Appended(old(sb.text), sb.text, r, FieldsCode(printer, fs, written))
    ensures r.Ok? ==> wr == WrittenAfter(printer, fs, written)
  {
    var args: seq<Value> := [];
    wr := written;
    ghost var before, goal := sb.text, FieldsCode(printer, fs, written);
    for i := 0 to |fs|
      invariant Progress(before, goal, sb.text, args, FieldsCode(printer, fs[i..], wr))
      invariant goal.Ok? ==> WrittenAfter(printer, fs, written) == WrittenAfter(printer, fs[i..], wr)
    {
      ghost var text, rest := sb.text, FieldsCode(printer, fs[i..], wr);
      assert fs[i..][1..] == fs[i + 1..];
      ghost var comma := Txt(if wr then ", " else "");
      if wr {
        sb.WriteString(", ");
      }
      var f := printer(fs[i]);
      if f.Panic? {
        return Panic, false;
      }
      sb.Write(f.value.code.text);
      wr := f.value.written || wr;
      ghost var step := Then(comma, f.value.code);
      Advance(before, goal, text, args, rest, step, FieldsCode(printer, fs[i + 1..], wr));
      assert sb.text == text + step.text;
      assert args + f.value.code.args == args + step.args;
      args := args + f.value.code.args;
    }
    Finished(before, goal, sb.text, args, FieldsCode(printer, fs[|fs|..], wr));
    r := Ok(args);
  }

  /** The through table's fields first, then the entry's own. */
  function EntryCode(through: FieldPrinter, own: FieldPrinter, info: FieldInfo): Result<Code> {
    var t :- FieldsCode(through, info.through, false);
    var f :- FieldsCode(own, info.fields, WrittenAfter(through, info.through, false));
    Ok(Then(t, f))
  }

  method WriteFields(through: FieldPrinter, own: FieldPrinter, info: FieldInfo, sb: Builder) returns (r: Result<seq<Value>>)
    modifies sb
    ensures Appended(old(sb.text), sb.text, r, EntryCode(through, own, info))
  {
    ghost var before := sb.text;
    var t, wr := WriteFieldList(through, info.through, false, sb);
    if t.Panic? {
      return Panic;
    }
    ghost var middle := sb.text;
    var f, _ := WriteFieldList(own, info.fields, wr, sb);
    if f.Panic? {
      return Panic;
    }
    AppendedThen(before, middle, sb.text, t.value, f.value,
                 FieldsCode(through, info.through, false).value, FieldsCode(own, info.fields, wr).value);
    return Ok(t.value + f.value);
  }

  function EntryPrinter(w: Writer): Printer<FieldInfo> {
    (info: FieldInfo) => EntryCode(TableFields(w, info.throughTable), TableFields(w, TableOf(info)), info)
  }

  function TableFields(w: Writer, table: string): FieldPrinter {
    (f: FieldDef) => WriteField(w, table, f, false)
  }

  // ----- joins -----

  datatype Condition = Condition(left: TableColumn, op: LogicalOp, right: TableColumn)

  datatype JoinDef = JoinDef(kind: string, table: string, alias: string, conditions: seq<Condition>)

  function ConditionPrinter(w: Writer): Printer<Condition> {
    (c: Condition) => ConditionCode(FormatColumn(w, c.left), c.op, FormatColumn(w, c.right))
  }

  function ConditionCode(left: Result<Code>, op: LogicalOp, right: Result<Code>): Result<Code> {
    var l :- left;
    var r :- right;
    Ok(Then(l, Then(Txt(" " + OpText(op) + " "), r)))
  }

  function JoinHead(w: Writer, j: JoinDef): string {
    " " + j.kind + " " + Quoted(w, j.table) + (if j.alias != "" then " AS " + Quoted(w, j.alias) else "") + " ON "
  }

  function JoinCode(head: string, conditions: Result<Code>): Result<Code> {
    var c :- conditions;
    Ok(Then(Txt(head), c))
  }

  function JoinPrinter(w: Writer): Printer<JoinDef> {
    (j: JoinDef) => JoinCode(JoinHead(w, j), ListCode(ConditionPrinter(w), j.conditions, " AND "))
  }

  // ----- WHERE and HAVING, ORDER BY, LIMIT and OFFSET -----

  function ClausePrinter(env: Env): Printer<Expr> {
    (e: Expr) => Compile(env, e)
  }

  /** Ordering is by a field of a table, or by an alias of the select list. */
  datatype OrderBy = OrderBy(table: string, column: Option<string>, alias: string, desc: bool)

  /** The arguments of an order column are not collected; it has none. */
  function OrderCode(o: OrderBy, column: Result<Code>): Result<Code> {
    if o.table != "" && o.column.Some? && o.alias != "" then Panic
    else
      var c :- column;
      Ok(Then(Code(c.text, []), Txt(if o.desc then " DESC" else " ASC")))
  }

  function OrderPrinter(w: Writer): Printer<OrderBy> {
    (o: OrderBy) => OrderCode(o, FormatColumn(w, TableColumn(o.table, o.alias, [], o.column, false, None)))
  }

  function LimitCode(limit: int, offset: int): Code {
    Then(if limit > 0 then Then(Txt(" LIMIT "), Bind(Int(limit))) else Code([], []),
         if offset > 0 then Then(Txt(" OFFSET "), Bind(Int(offset))) else Code([], []))
  }

  method WriteLimitOffset(limit: int, offset: int, sb: Builder) returns (args: seq<Value>)
    modifies sb
    ensures Appended(old(sb.text), sb.text, Ok(args), Ok(LimitCode(limit, offset)))
  {
    args := [];
    if limit > 0 {
      sb.Write([Text(" LIMIT "), Hole]);
      args := args + [Int(limit)];
    }
    if offset > 0 {
      sb.Write([Text(" OFFSET "), Hole]);
      args := args + [Int(offset)];
    }
  }

  // ----- the SELECT statement -----

  datatype Select = Select(
    distinct: bool,
    fields: seq<FieldInfo>,
    table: string,
    joins: seq<JoinDef>,
    wheres: seq<Expr>,
    groupBy: seq<FieldInfo>,
    having: seq<Expr>,
    orderBy: seq<OrderBy>,
    limit: int,
    offset: int,
    forUpdate: bool)

  /** The printers of the parts a statement is made of. */
  datatype Printers = Printers(
    entry: Printer<FieldInfo>,
    join: Printer<JoinDef>,
    clause: Printer<Expr>,
    order: Printer<OrderBy>)

  function CompilerPrinters(w: Writer): Printers {
    Printers(EntryPrinter(w), JoinPrinter(w), ClausePrinter(w.env), OrderPrinter(w))
  }

  /** A clause is written only when it has something to say. */
  function ClauseCode<T>(head: string, printer: Printer<T>, xs: seq<T>, sep: string): Result<Code> {
    if xs == [] then Ok(Code([], []))
    else
      var c :- ListCode(printer, xs, sep);
      Ok(Then(Txt(head), c))
  }

  method WriteClause<T>(head: string, printer: Printer<T>, xs: seq<T>, sep: string, sb: Builder) returns (r: Result<seq<Value>>)
    modifies sb
    ensures Appended(old(sb.text), sb.text, r, ClauseCode(head, printer, xs, sep))
  {
    if xs == [] {
      return Ok([]);
    }
    ghost var before := sb.text;
    sb.WriteString(head);
    ghost var middle := sb.text;
    r := WriteEach(printer, xs, sep, sb);
    if r.Ok? {
      AppendedThen(before, middle, sb.text, [], r.value, Txt(head), ListCode(printer, xs, sep).value);
    }
  }

  function SelectHead(q: Select): string {
    "SELECT " + (if q.distinct then "DISTINCT " else "")
  }

  function FromText(quote: string, q: Select): string {
    " FROM " + quote + q.table + quote
  }

  function SelectList(p: Printers, quote: string, q: Select): Result<Code> {
    var fields :- ListCode(p.entry, q.fields, ", ");
    var joins :- ListCode(p.join, q.joins, "");
    Ok(Then(Then(Then(Txt(SelectHead(q)), fields), Txt(FromText(quote, q))), joins))
  }

  function Filters(p: Printers, q: Select): Result<Code> {
    var wheres :- ClauseCode(" WHERE ", p.clause, q.wheres, " AND ");
    var group :- ClauseCode(" GROUP BY ", p.entry, q.groupBy, ", ");
    var having :- ClauseCode(" HAVING ", p.clause, q.having, " AND ");
    Ok(Then(Then(wheres, group), having))
  }

  function Tail(p: Printers, q: Select): Result<Code> {
    var orders :- ClauseCode(" ORDER BY ", p.order, q.orderBy, ", ");
    Ok(Then(Then(orders, LimitCode(q.limit, q.offset)), Txt(if q.forUpdate then " FOR UPDATE" else "")))
  }

  /** Everything the statement is made of, in the order it is written. */
  function SelectCode(p: Printers, quote: string, q: Select): Result<Code> {
    var list :- SelectList(p, quote, q);
    var filters :- Filters(p, q);
    var tail :- Tail(p, q);
    Ok(Then(Then(list, filters), tail))
  }

  method WriteSelectList(p: Printers, quote: string, q: Select, sb: Builder) returns (r: Result<seq<Value>>)
    modifies sb
    ensures Appended(old(sb.text), sb.text, r, SelectList(p, quote, q))
  {
    ghost var t0 := sb.text;
    sb.WriteString(SelectHead(q));
    ghost var t1 := sb.text;
    var fields := WriteEach(p.entry, q.fields, ", ", sb);
    if fields.Panic? {
      return Panic;
    }
    ghost var t2 := sb.text;
    sb.WriteString(FromText(quote, q));
    ghost var t3 := sb.text;
    var joins := WriteEach(p.join, q.joins, "", sb);
    if joins.Panic? {
      return Panic;
    }
    ghost var f, j := ListCode(p.entry, q.fields, ", ").value, ListCode(p.join, q.joins, "").value;
    ghost var head, from := Txt(SelectHead(q)), Txt(FromText(quote, q));
    AppendedThen(t0, t1, t2, [], fields.value, head, f);
    AppendedThen(t0, t2, t3, [] + fields.value, [], Then(head, f), from);
    AppendedThen(t0, t3, sb.text, [] + fields.value + [], joins.value, Then(Then(head, f), from), j);
    assert [] + fields.value + [] + joins.value == fields.value + joins.value;
    return Ok(fields.value + joins.value);
  }

  method WriteFilters(p: Printers, q: Select, sb: Builder) returns (r: Result<seq<Value>>)
    modifies sb
    ensures Appended(old(sb.text), sb.text, r, Filters(p, q))
  {
    ghost var t0 := sb.text;
    var a := WriteClause(" WHERE ", p.clause, q.wheres, " AND ", sb);
    if a.Panic? {
      return Panic;
    }
    ghost var t1 := sb.text;
    var b := WriteClause(" GROUP BY ", p.entry, q.groupBy, ", ", sb);
    if b.Panic? {
      return Panic;
    }
    ghost var t2 := sb.text;
    var c := WriteClause(" HAVING ", p.clause, q.having, " AND ", sb);
    if c.Panic? {
      return Panic;
    }
    ghost var f, g, h := ClauseCode(" WHERE ", p.clause, q.wheres, " AND ").value,
      ClauseCode(" GROUP BY ", p.entry, q.groupBy, ", ").value, ClauseCode(" HAVING ", p.clause, q.having, " AND ").value;
    AppendedThen(t0, t1, t2, a.value, b.value, f, g);
    AppendedThen(t0, t2, sb.text, a.value + b.value, c.value, Then(f, g), h);
    return Ok(a.value + b.value + c.value);
  }

  method WriteTail(p: Printers, q: Select, sb: Builder) returns (r: Result<seq<Value>>)
    modifies sb
    ensures Appended(old(sb.text), sb.text, r, Tail(p, q))
  {
    ghost var t0 := sb.text;
    var a := WriteClause(" ORDER BY ", p.order, q.orderBy, ", ", sb);
    if a.Panic? {
      return Panic;
    }
    ghost var t1 := sb.text;
    var page := WriteLimitOffset(q.limit, q.offset, sb);
    ghost var t2 := sb.text;
    sb.WriteString(if q.forUpdate then " FOR UPDATE" else "");
    ghost var o, l := ClauseCode(" ORDER BY ", p.order, q.orderBy, ", ").value, LimitCode(q.limit, q.offset);
    AppendedThen(t0, t1, t2, a.value, page, o, l);
    AppendedThen(t0, t2, sb.text, a.value + page, [], Then(o, l), Txt(if q.forUpdate then " FOR UPDATE" else ""));
    assert a.value + page + [] == a.value + page;
    return Ok(a.value + page);
  }

  method BuildSelect(p: Printers, quote: string, q: Select) returns (r: Result<Code>)
    ensures r == SelectCode(p, quote, q)
  {
    var sb := new Builder();
    var list := WriteSelectList(p, quote, q, sb);
    if list.Panic? {
      return Panic;
    }
    ghost var t1 := sb.text;
    var filters := WriteFilters(p, q, sb);
    if filters.Panic? {
      return Panic;
    }
    ghost var t2 := sb.text;
    var tail := WriteTail(p, q, sb);
    if tail.Panic? {
      return Panic;
    }
    ghost var l, f, t := SelectList(p, quote, q).value, Filters(p, q).value, Tail(p, q).value;
    AppendedThen([], t1, t2, list.value, filters.value, l, f);
    AppendedThen([], t2, sb.text, list.value + filters.value, tail.value, Then(l, f), t);
    assert sb.text == Then(Then(l, f), t).text;
    return Ok(Code(sb.text, list.value + filters.value + tail.value));
  }

  /** The statement the compiler builds. */
  method BuildSelectQuery(w: Writer, q: Select) returns (r: Result<Code>)
    ensures r == SelectCode(CompilerPrinters(w), w.quote, q)
  {
    r := BuildSelect(CompilerPrinters(w), w.quote, q);
  }
}
