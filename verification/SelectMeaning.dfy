/** A compiled SELECT is the intended statement: every placeholder receives the value that was
    meant for it, except those the expression compiler itself loses. */
module SelectMeaning {
  import opened Outcomes
  import opened SqlText
  import opened Expressions
  import opened ExpressionMeaning
  import opened Placeholders
  import opened ClauseWriters
  import opened BooleanReading

  /** How one element of a clause reads, and how many placeholders it loses. */
  datatype Reader<!T> = Reader(lost: T -> nat, pieces: T -> seq<Piece>)

  /** What `printer` writes for `x` is what `read` says it means. */
  predicate ReadsAs<T>(printer: Printer<T>, read: Reader<T>, x: T) {
    printer(x).Ok? ==> Means(printer(x).value, read.lost(x), read.pieces(x))
  }

  function ListLost<T>(read: Reader<T>, xs: seq<T>): nat {
    if xs == [] then 0 else read.lost(xs[0]) + ListLost(read, xs[1..])
  }

  function PiecesOfList<T>(read: Reader<T>, xs: seq<T>, sep: string): seq<Piece> {
    if xs == [] then []
    else (read.pieces(xs[0]) + LitOf(if |xs| > 1 then sep else "")) + PiecesOfList(read, xs[1..], sep)
  }

  lemma {:induction false} ListReads<T>(printer: Printer<T>, read: Reader<T>, xs: seq<T>, sep: string)
    requires ListCode(printer, xs, sep).Ok?
    requires forall x :: x in xs ==> ReadsAs(printer, read, x)
    ensures Means(ListCode(printer, xs, sep).value, ListLost(read, xs), PiecesOfList(read, xs, sep))
  {
    if xs == [] {
      WordsMean([]);
    } else {
      var c, w := printer(xs[0]).value, if |xs| > 1 then sep else "";
      assert ReadsAs(printer, read, xs[0]);
      ListReads(printer, read, xs[1..], sep);
      TxtMeans(w);
      MeansThen(c, read.lost(xs[0]), read.pieces(xs[0]), Txt(w), 0, LitOf(w));
      MeansThen(Then(c, Txt(w)), read.lost(xs[0]), read.pieces(xs[0]) + LitOf(w),
                ListCode(printer, xs[1..], sep).value, ListLost(read, xs[1..]), PiecesOfList(read, xs[1..], sep));
    }
  }

  function ClausePieces<T>(head: string, read: Reader<T>, xs: seq<T>, sep: string): seq<Piece> {
    if xs == [] then [] else LitOf(head) + PiecesOfList(read, xs, sep)
  }

  lemma {:induction false} ClauseMeans<T>(head: string, printer: Printer<T>, read: Reader<T>, xs: seq<T>, sep: string)
    requires ClauseCode(head, printer, xs, sep).Ok?
    requires forall x :: x in xs ==> ReadsAs(printer, read, x)
    ensures Means(ClauseCode(head, printer, xs, sep).value, ListLost(read, xs), ClausePieces(head, read, xs, sep))
  {
    if xs == [] {
      WordsMean([]);
    } else {
      ListReads(printer, read, xs, sep);
      TxtMeans(head);
      MeansThen(Txt(head), 0, LitOf(head), ListCode(printer, xs, sep).value, ListLost(read, xs), PiecesOfList(read, xs, sep));
    }
  }

  // ----- columns -----

  /** Raw SQL in a condition comes with as many values as it has placeholders. */
  predicate BringsValues(c: TableColumn) {
    && !c.forUpdate
    && (c.rawSQL != [] ==> Holes(c.rawSQL) == if c.value.Some? then 1 else 0)
  }

  function BodyPieces(w: Writer, c: TableColumn): seq<Piece> {
    if c.column.Some? then LitOf(Quoted(w, c.column.value))
    else if c.rawSQL != [] then
      if Holes(c.rawSQL) == (if c.value.Some? then 1 else 0)
      then Fill(c.rawSQL, if c.value.Some? then [c.value.value] else []) else []
    else if c.value.Some? then [Bound(c.value.value)]
    else LitOf(Quoted(w, c.fieldAlias))
  }

  function ColumnPieces(w: Writer, c: TableColumn): seq<Piece> {
    (LitOf(if c.tableOrAlias == "" then "" else Quoted(w, c.tableOrAlias) + ".") + BodyPieces(w, c))
    + LitOf(if c.fieldAlias != "" && (c.column.Some? || c.rawSQL != []) then " AS " + Quoted(w, c.fieldAlias) else "")
  }

  lemma {:induction false} BodyMeans(w: Writer, c: TableColumn)
    requires BringsValues(c) && ColumnBody(w, c).Ok?
    ensures Means(ColumnBody(w, c).value, 0, BodyPieces(w, c))
  {
    if c.column.Some? {
      TxtMeans(Quoted(w, c.column.value));
    } else if c.rawSQL == [] {
      if c.value.Some? {
        BindMeans(c.value.value);
      } else {
        TxtMeans(Quoted(w, c.fieldAlias));
      }
    }
  }

  /** A formatted column is itself with its value in place, as long as raw SQL brings its
      values. */
  lemma {:induction false} ColumnMeans(w: Writer, c: TableColumn)
    requires BringsValues(c) && FormatColumn(w, c).Ok?
    ensures Means(FormatColumn(w, c).value, 0, ColumnPieces(w, c))
  {
    BodyMeans(w, c);
    var table := if c.tableOrAlias == "" then "" else Quoted(w, c.tableOrAlias) + ".";
    var alias := if c.fieldAlias != "" && (c.column.Some? || c.rawSQL != []) then " AS " + Quoted(w, c.fieldAlias) else "";
    var body, bp := ColumnBody(w, c).value, BodyPieces(w, c);
    TxtMeans(table);
    TxtMeans(alias);
    TxtMeans("");
    MeansThen(Txt(table), 0, LitOf(table), body, 0, bp);
    MeansThen(Txt(alias), 0, LitOf(alias), Txt(""), 0, []);
    MeansThen(Then(Txt(table), body), 0, LitOf(table) + bp, Then(Txt(alias), Txt("")), 0, LitOf(alias) + []);
    assert LitOf(alias) + [] == LitOf(alias);
  }

  /** Arguments without a placeholder of their own, or placeholders without one. */
  function Surplus(c: Code): int {
    |c.args| - Holes(c.text)
  }

  lemma {:induction false} SurplusThen(a: Code, b: Code)
    ensures Surplus(Then(a, b)) == Surplus(a) + Surplus(b)
  {
    HolesOfConcat(a.text, b.text);
  }

  lemma {:induction false} NoSurplus(s: string)
    ensures Surplus(Txt(s)) == 0
  {
    TxtMeans(s);
  }

  /** How many values a column brings beyond its placeholders. */
  function Unmatched(c: TableColumn): int {
    var brings: int := if c.rawSQL != [] && c.value.Some? then 1 else 0;
    brings - Holes(c.rawSQL) - if c.forUpdate then 1 else 0
  }

  /** A formatted column keeps its text and arguments in step, and is itself with its value in
      place, exactly when it is no update column and its raw SQL, if any, brings as many values as
      it has placeholders. */
  lemma {:induction false} ColumnKeepsStep(w: Writer, c: TableColumn)
    requires FormatColumn(w, c).Ok?
    ensures Surplus(FormatColumn(w, c).value) == Unmatched(c)
    ensures Balanced(FormatColumn(w, c).value) <==> BringsValues(c)
    ensures Reads(FormatColumn(w, c).value, ColumnPieces(w, c)) <==> BringsValues(c)
  {
    if BringsValues(c) {
      ColumnMeans(w, c);
    }
    var plain := c.(forUpdate := false, rawSQL := []);
    var body := ColumnBody(w, c).value;
    var table := if c.tableOrAlias == "" then "" else Quoted(w, c.tableOrAlias) + ".";
    var alias := if c.fieldAlias != "" && (c.column.Some? || c.rawSQL != []) then " AS " + Quoted(w, c.fieldAlias) else "";
    var assign := if c.forUpdate then Code([Text(" = "), Hole], []) else Txt("");
    assert Surplus(body) == Unmatched(c.(forUpdate := false)) by {
      if c.rawSQL == [] {
        BodyMeans(w, plain);
      }
    }
    assert Surplus(assign) == if c.forUpdate then -1 else 0 by {
      AssignmentAsks();
      NoSurplus("");
    }
    NoSurplus(table);
    NoSurplus(alias);
    SurplusThen(Txt(table), body);
    SurplusThen(Txt(alias), assign);
    SurplusThen(Then(Txt(table), body), Then(Txt(alias), assign));
  }

  lemma {:induction false} AssignmentAsks()
    ensures Holes([Text(" = "), Hole]) == 1
  {
    var none: seq<Token> := [];
    assert [Text(" = "), Hole][1..] == [Hole] && [Hole][1..] == none;
  }

  // ----- entries of the select list -----

  /** What a computed field loses, if it is written at all. */
  function FieldLost(env: Env, f: FieldDef): nat {
    match f.virt
    case Stored => 0
    case Computed(None) => 0
    case Computed(Some(e)) => if Compile(env, e).Ok? && Compile(env, e).value.text != [] then Lost(e) else 0
  }

  function AliasText(w: Writer, table: string, f: FieldDef): string {
    if f.alias != "" then " AS " + Quoted(w, FieldAlias(w.prefix, table, f.alias)) else ""
  }

  function PiecesOfField(w: Writer, table: string, f: FieldDef): seq<Piece> {
    match f.virt
    case Stored => ColumnPieces(w, NO_COLUMN.(tableOrAlias := table, column := Some(f.column)))
    case Computed(None) => []
    case Computed(Some(e)) =>
      if Compile(w.env, e).Ok? && Compile(w.env, e).value.text != []
      then Inline(w.env, e) + LitOf(AliasText(w, table, f)) else []
  }

  /** Raw SQL formatted as a column is that SQL, named. */
  lemma {:induction false} RawColumn(w: Writer, text: seq<Token>, alias: string)
    requires text != []
    ensures FormatColumn(w, NO_COLUMN.(rawSQL := text, fieldAlias := alias))
         == Ok(Then(Code(text, []), Txt(if alias != "" then " AS " + Quoted(w, alias) else "")))
  {
    var c := NO_COLUMN.(rawSQL := text, fieldAlias := alias);
    var words := Txt(if alias != "" then " AS " + Quoted(w, alias) else "");
    assert ColumnBody(w, c) == Ok(Code(text, []));
    assert Then(Txt(""), Code(text, [])) == Code(text, []);
    assert Then(words, Txt("")) == words;
  }

  lemma {:induction false} FieldMeans(w: Writer, table: string, f: FieldDef)
    requires WriteField(w, table, f, false).Ok?
    ensures Means(WriteField(w, table, f, false).value.code, FieldLost(w.env, f), PiecesOfField(w, table, f))
  {
    match f.virt
    case Stored =>
      ColumnMeans(w, NO_COLUMN.(tableOrAlias := table, column := Some(f.column)));
      StoredColumnTakesNoArgs(w, table, f.column);
    case Computed(None) => WordsMean([]);
    case Computed(Some(e)) =>
      var c := Compile(w.env, e).value;
      if c.text == [] {
        WordsMean([]);
      } else {
        CompiledMeans(w.env, e);
        var alias := if f.alias != "" then FieldAlias(w.prefix, table, f.alias) else "";
        FieldAliasNonEmpty(w.prefix, table, f.alias);
        RawColumn(w, c.text, alias);
        MeansWrapped("", c, Lost(e), Inline(w.env, e), AliasText(w, table, f));
        assert WriteField(w, table, f, false).value.code == Then(c, Txt(AliasText(w, table, f)));
      }
  }

  lemma {:induction false} FieldAliasNonEmpty(prefix: string, table: string, alias: string)
    ensures alias != "" ==> FieldAlias(prefix, table, alias) != ""
  {
    assert |FieldAlias(prefix, table, alias)| >= |alias|;
  }

  lemma {:induction false} StoredColumnTakesNoArgs(w: Writer, table: string, column: string)
    requires FormatColumn(w, NO_COLUMN.(tableOrAlias := table, column := Some(column))).Ok?
    ensures FormatColumn(w, NO_COLUMN.(tableOrAlias := table, column := Some(column))).value.args == []
  {
  }

  lemma {:induction false} CompiledMeans(env: Env, e: Expr)
    requires Compile(env, e).Ok?
    ensures Means(Compile(env, e).value, Lost(e), Inline(env, e))
  {
    CompiledExpressionLinesUp(env, e);
  }

  /** How the fields of one table read. */
  datatype FieldReader = FieldReader(lost: FieldDef -> nat, pieces: FieldDef -> seq<Piece>)

  function FieldsLost(read: FieldReader, fs: seq<FieldDef>): nat {
    if fs == [] then 0 else read.lost(fs[0]) + FieldsLost(read, fs[1..])
  }

  /** A comma stands before every field after the first that was written. */
  function FieldsPieces(printer: FieldPrinter, read: FieldReader, fs: seq<FieldDef>, written: bool): seq<Piece> {
    if fs == [] then []
    else
      (LitOf(if written then ", " else "") + read.pieces(fs[0]))
      + FieldsPieces(printer, read, fs[1..], (printer(fs[0]).Ok? && printer(fs[0]).value.written) || written)
  }

  predicate FieldReads(printer: FieldPrinter, read: FieldReader, f: FieldDef) {
    printer(f).Ok? ==> Means(printer(f).value.code, read.lost(f), read.pieces(f))
  }

  lemma {:induction false} FieldsMean(printer: FieldPrinter, read: FieldReader, fs: seq<FieldDef>, written: bool)
    requires FieldsCode(printer, fs, written).Ok?
    requires forall f :: f in fs ==> FieldReads(printer, read, f)
    ensures Means(FieldsCode(printer, fs, written).value, FieldsLost(read, fs), FieldsPieces(printer, read, fs, written))
  {
    if fs == [] {
      WordsMean([]);
    } else {
      var f := printer(fs[0]).value;
      assert FieldReads(printer, read, fs[0]);
      var comma := if written then ", " else "";
      FieldsMean(printer, read, fs[1..], f.written || written);
      TxtMeans(comma);
      MeansThen(Txt(comma), 0, LitOf(comma), f.code, read.lost(fs[0]), read.pieces(fs[0]));
      MeansThen(Then(Txt(comma), f.code), read.lost(fs[0]), LitOf(comma) + read.pieces(fs[0]),
                FieldsCode(printer, fs[1..], f.written || written).value, FieldsLost(read, fs[1..]),
                FieldsPieces(printer, read, fs[1..], f.written || written));
    }
  }

  function TableReader(w: Writer, table: string): FieldReader {
    FieldReader((f: FieldDef) => FieldLost(w.env, f), (f: FieldDef) => PiecesOfField(w, table, f))
  }

  function EntryPieces(t: FieldPrinter, tr: FieldReader, o: FieldPrinter, ownReader: FieldReader, info: FieldInfo): seq<Piece> {
    FieldsPieces(t, tr, info.through, false)
    + FieldsPieces(o, ownReader, info.fields, WrittenAfter(t, info.through, false))
  }

  lemma {:induction false} EntryMeans(t: FieldPrinter, tr: FieldReader, o: FieldPrinter, ownReader: FieldReader, info: FieldInfo)
    requires EntryCode(t, o, info).Ok?
    requires forall f :: f in info.through ==> FieldReads(t, tr, f)
    requires forall f :: f in info.fields ==> FieldReads(o, ownReader, f)
    ensures Means(EntryCode(t, o, info).value, FieldsLost(tr, info.through) + FieldsLost(ownReader, info.fields),
                  EntryPieces(t, tr, o, ownReader, info))
  {
    var wr := WrittenAfter(t, info.through, false);
    FieldsMean(t, tr, info.through, false);
    FieldsMean(o, ownReader, info.fields, wr);
    MeansThen(FieldsCode(t, info.through, false).value, FieldsLost(tr, info.through), FieldsPieces(t, tr, info.through, false),
              FieldsCode(o, info.fields, wr).value, FieldsLost(ownReader, info.fields), FieldsPieces(o, ownReader, info.fields, wr));
  }

  lemma {:induction false} TableFieldReads(w: Writer, table: string, f: FieldDef)
    ensures FieldReads(TableFields(w, table), TableReader(w, table), f)
  {
    assert TableFields(w, table)(f) == WriteField(w, table, f, false);
    if WriteField(w, table, f, false).Ok? {
      FieldMeans(w, table, f);
    }
  }

  function EntryReader(w: Writer): Reader<FieldInfo> {
    Reader((i: FieldInfo) => FieldsLost(TableReader(w, i.throughTable), i.through) + FieldsLost(TableReader(w, TableOf(i)), i.fields),
           (i: FieldInfo) => EntryPieces(TableFields(w, i.throughTable), TableReader(w, i.throughTable),
                                         TableFields(w, TableOf(i)), TableReader(w, TableOf(i)), i))
  }

  lemma {:induction false} EntryReads(w: Writer, info: FieldInfo)
    ensures ReadsAs(EntryPrinter(w), EntryReader(w), info)
  {
    var t, o := TableFields(w, info.throughTable), TableFields(w, TableOf(info));
    var tr, ownReader := TableReader(w, info.throughTable), TableReader(w, TableOf(info));
    forall f | f in info.through ensures FieldReads(t, tr, f) {
      TableFieldReads(w, info.throughTable, f);
    }
    forall f | f in info.fields ensures FieldReads(o, ownReader, f) {
      TableFieldReads(w, TableOf(info), f);
    }
    if EntryCode(t, o, info).Ok? {
      EntryMeans(t, tr, o, ownReader, info);
    }
  }

  // ----- joins, clauses and orders -----

  function ConditionReader(w: Writer): Reader<Condition> {
    Reader((c: Condition) => 0,
           (c: Condition) => ColumnPieces(w, c.left) + (LitOf(" " + OpText(c.op) + " ") + ColumnPieces(w, c.right)))
  }

  predicate ConditionBound(c: Condition) {
    BringsValues(c.left) && BringsValues(c.right)
  }

  lemma {:induction false} ConditionReads(w: Writer, c: Condition)
    requires ConditionBound(c)
    ensures ReadsAs(ConditionPrinter(w), ConditionReader(w), c)
  {
    if FormatColumn(w, c.left).Ok? && FormatColumn(w, c.right).Ok? {
      var l, r := FormatColumn(w, c.left).value, FormatColumn(w, c.right).value;
      ColumnMeans(w, c.left);
      ColumnMeans(w, c.right);
      var op := " " + OpText(c.op) + " ";
      MeansWrapped(op, r, 0, ColumnPieces(w, c.right), "");
      MeansThen(l, 0, ColumnPieces(w, c.left), Then(Txt(op), r), 0, LitOf(op) + ColumnPieces(w, c.right));
      assert ConditionPrinter(w)(c) == Ok(Then(l, Then(Txt(op), r)));
    }
  }

  function JoinReader(w: Writer): Reader<JoinDef> {
    Reader((j: JoinDef) => 0,
           (j: JoinDef) => LitOf(JoinHead(w, j)) + PiecesOfList(ConditionReader(w), j.conditions, " AND "))
  }

  predicate JoinBound(j: JoinDef) {
    forall c :: c in j.conditions ==> ConditionBound(c)
  }

  lemma {:induction false} NothingLost<T>(read: Reader<T>, xs: seq<T>)
    requires forall x :: x in xs ==> read.lost(x) == 0
    ensures ListLost(read, xs) == 0
  {
    if xs != [] {
      NothingLost(read, xs[1..]);
    }
  }

  lemma {:induction false} JoinReads(w: Writer, j: JoinDef)
    requires JoinBound(j)
    ensures ReadsAs(JoinPrinter(w), JoinReader(w), j)
  {
    var list := ListCode(ConditionPrinter(w), j.conditions, " AND ");
    if list.Ok? {
      forall c | c in j.conditions ensures ReadsAs(ConditionPrinter(w), ConditionReader(w), c) {
        ConditionReads(w, c);
      }
      ListReads(ConditionPrinter(w), ConditionReader(w), j.conditions, " AND ");
      NothingLost(ConditionReader(w), j.conditions);
      var p := PiecesOfList(ConditionReader(w), j.conditions, " AND ");
      MeansWrapped(JoinHead(w, j), list.value, 0, p, "");
      assert JoinPrinter(w)(j) == Ok(Then(Txt(JoinHead(w, j)), list.value));
    }
  }

  function ClauseReader(env: Env): Reader<Expr> {
    Reader((e: Expr) => Lost(e), (e: Expr) => Inline(env, e))
  }

  lemma {:induction false} ClauseReads(env: Env, e: Expr)
    ensures ReadsAs(ClausePrinter(env), ClauseReader(env), e)
  {
    assert ClausePrinter(env)(e) == Compile(env, e);
    if Compile(env, e).Ok? {
      CompiledMeans(env, e);
    }
  }

  function OrderColumn(o: OrderBy): TableColumn {
    TableColumn(o.table, o.alias, [], o.column, false, None)
  }

  function OrderReader(w: Writer): Reader<OrderBy> {
    Reader((o: OrderBy) => 0,
           (o: OrderBy) => ColumnPieces(w, OrderColumn(o)) + LitOf(if o.desc then " DESC" else " ASC"))
  }

  lemma {:induction false} OrderReads(w: Writer, o: OrderBy)
    ensures ReadsAs(OrderPrinter(w), OrderReader(w), o)
  {
    var col := FormatColumn(w, OrderColumn(o));
    if col.Ok? {
      ColumnMeans(w, OrderColumn(o));
      assert col.value.args == [];
      assert Code(col.value.text, []) == col.value;
      MeansWrapped("", col.value, 0, ColumnPieces(w, OrderColumn(o)), if o.desc then " DESC" else " ASC");
      assert OrderPrinter(w)(o) == OrderCode(o, col);
    }
  }

  // ----- the whole statement, over any readers of its parts -----

  datatype Readers = Readers(
    entry: Reader<FieldInfo>,
    join: Reader<JoinDef>,
    clause: Reader<Expr>,
    order: Reader<OrderBy>)

  function CompilerReaders(w: Writer): Readers {
    Readers(EntryReader(w), JoinReader(w), ClauseReader(w.env), OrderReader(w))
  }

  /** Every part of `q` is read as it is printed. */
  predicate PartsRead(p: Printers, r: Readers, q: Select) {
    && (forall x :: x in q.fields ==> ReadsAs(p.entry, r.entry, x))
    && (forall x :: x in q.groupBy ==> ReadsAs(p.entry, r.entry, x))
    && (forall x :: x in q.joins ==> ReadsAs(p.join, r.join, x))
    && (forall x :: x in q.wheres ==> ReadsAs(p.clause, r.clause, x))
    && (forall x :: x in q.having ==> ReadsAs(p.clause, r.clause, x))
    && (forall x :: x in q.orderBy ==> ReadsAs(p.order, r.order, x))
  }

  function SelectLost(r: Readers, q: Select): nat {
    ((ListLost(r.entry, q.fields) + ListLost(r.join, q.joins))
     + ((ListLost(r.clause, q.wheres) + ListLost(r.entry, q.groupBy)) + ListLost(r.clause, q.having)))
    + ListLost(r.order, q.orderBy)
  }

  function LimitPieces(limit: int, offset: int): seq<Piece> {
    (if limit > 0 then [Lit(" LIMIT "), Bound(Int(limit))] else [])
    + (if offset > 0 then [Lit(" OFFSET "), Bound(Int(offset))] else [])
  }

  /** The statement with its values in place. */
  function SelectPieces(r: Readers, quote: string, q: Select): seq<Piece> {
    ((((LitOf(SelectHead(q)) + PiecesOfList(r.entry, q.fields, ", ")) + LitOf(FromText(quote, q)))
      + PiecesOfList(r.join, q.joins, ""))
     + ((ClausePieces(" WHERE ", r.clause, q.wheres, " AND ") + ClausePieces(" GROUP BY ", r.entry, q.groupBy, ", "))
        + ClausePieces(" HAVING ", r.clause, q.having, " AND ")))
    + ((ClausePieces(" ORDER BY ", r.order, q.orderBy, ", ") + LimitPieces(q.limit, q.offset))
       + LitOf(if q.forUpdate then " FOR UPDATE" else ""))
  }

  lemma {:induction false} SelectListMeans(p: Printers, r: Readers, quote: string, q: Select)
    requires PartsRead(p, r, q) && SelectList(p, quote, q).Ok?
    ensures Means(SelectList(p, quote, q).value, ListLost(r.entry, q.fields) + ListLost(r.join, q.joins),
                  ((LitOf(SelectHead(q)) + PiecesOfList(r.entry, q.fields, ", ")) + LitOf(FromText(quote, q)))
                  + PiecesOfList(r.join, q.joins, ""))
  {
    ListReads(p.entry, r.entry, q.fields, ", ");
    ListReads(p.join, r.join, q.joins, "");
    var f, fp, n := ListCode(p.entry, q.fields, ", ").value, PiecesOfList(r.entry, q.fields, ", "), ListLost(r.entry, q.fields);
    var head, from := SelectHead(q), FromText(quote, q);
    MeansWrapped(head, f, n, fp, "");
    MeansWrapped("", Then(Txt(head), f), n, LitOf(head) + fp, from);
    MeansThen(Then(Then(Txt(head), f), Txt(from)), n, (LitOf(head) + fp) + LitOf(from),
              ListCode(p.join, q.joins, "").value, ListLost(r.join, q.joins), PiecesOfList(r.join, q.joins, ""));
  }

  lemma {:induction false} FiltersMean(p: Printers, r: Readers, q: Select)
    requires PartsRead(p, r, q) && Filters(p, q).Ok?
    ensures Means(Filters(p, q).value,
                  (ListLost(r.clause, q.wheres) + ListLost(r.entry, q.groupBy)) + ListLost(r.clause, q.having),
                  (ClausePieces(" WHERE ", r.clause, q.wheres, " AND ") + ClausePieces(" GROUP BY ", r.entry, q.groupBy, ", "))
                  + ClausePieces(" HAVING ", r.clause, q.having, " AND "))
  {
    ClauseMeans(" WHERE ", p.clause, r.clause, q.wheres, " AND ");
    ClauseMeans(" GROUP BY ", p.entry, r.entry, q.groupBy, ", ");
    ClauseMeans(" HAVING ", p.clause, r.clause, q.having, " AND ");
    var a, ap := ClauseCode(" WHERE ", p.clause, q.wheres, " AND ").value, ClausePieces(" WHERE ", r.clause, q.wheres, " AND ");
    var b, bp := ClauseCode(" GROUP BY ", p.entry, q.groupBy, ", ").value, ClausePieces(" GROUP BY ", r.entry, q.groupBy, ", ");
    var c, cp := ClauseCode(" HAVING ", p.clause, q.having, " AND ").value, ClausePieces(" HAVING ", r.clause, q.having, " AND ");
    MeansThen(a, ListLost(r.clause, q.wheres), ap, b, ListLost(r.entry, q.groupBy), bp);
    MeansThen(Then(a, b), ListLost(r.clause, q.wheres) + ListLost(r.entry, q.groupBy), ap + bp, c, ListLost(r.clause, q.having), cp);
  }

  lemma {:induction false} LimitMeans(limit: int, offset: int)
    ensures Means(LimitCode(limit, offset), 0, LimitPieces(limit, offset))
  {
    var a := if limit > 0 then Then(Txt(" LIMIT "), Bind(Int(limit))) else Code([], []);
    var b := if offset > 0 then Then(Txt(" OFFSET "), Bind(Int(offset))) else Code([], []);
    var ap := if limit > 0 then LitOf(" LIMIT ") + [Bound(Int(limit))] else [];
    var bp := if offset > 0 then LitOf(" OFFSET ") + [Bound(Int(offset))] else [];
    WordsMean([]);
    BindMeans(Int(limit));
    BindMeans(Int(offset));
    MeansWrapped(" LIMIT ", Bind(Int(limit)), 0, [Bound(Int(limit))], "");
    MeansWrapped(" OFFSET ", Bind(Int(offset)), 0, [Bound(Int(offset))], "");
    MeansThen(a, 0, ap, b, 0, bp);
  }

  lemma {:induction false} TailMeans(p: Printers, r: Readers, q: Select)
    requires PartsRead(p, r, q) && Tail(p, q).Ok?
    ensures Means(Tail(p, q).value, ListLost(r.order, q.orderBy),
                  (ClausePieces(" ORDER BY ", r.order, q.orderBy, ", ") + LimitPieces(q.limit, q.offset))
                  + LitOf(if q.forUpdate then " FOR UPDATE" else ""))
  {
    ClauseMeans(" ORDER BY ", p.order, r.order, q.orderBy, ", ");
    LimitMeans(q.limit, q.offset);
    var o, op, n := ClauseCode(" ORDER BY ", p.order, q.orderBy, ", ").value, ClausePieces(" ORDER BY ", r.order, q.orderBy, ", "),
      ListLost(r.order, q.orderBy);
    MeansThen(o, n, op, LimitCode(q.limit, q.offset), 0, LimitPieces(q.limit, q.offset));
    MeansWrapped("", Then(o, LimitCode(q.limit, q.offset)), n, op + LimitPieces(q.limit, q.offset),
                 if q.forUpdate then " FOR UPDATE" else "");
  }

  lemma {:induction false} SelectMeans(p: Printers, r: Readers, quote: string, q: Select)
    requires PartsRead(p, r, q) && SelectCode(p, quote, q).Ok?
    ensures Means(SelectCode(p, quote, q).value, SelectLost(r, q), SelectPieces(r, quote, q))
  {
    SelectListMeans(p, r, quote, q);
    FiltersMean(p, r, q);
    TailMeans(p, r, q);
    var a, b, c := SelectList(p, quote, q).value, Filters(p, q).value, Tail(p, q).value;
    var m := ListLost(r.entry, q.fields) + ListLost(r.join, q.joins);
    var n := (ListLost(r.clause, q.wheres) + ListLost(r.entry, q.groupBy)) + ListLost(r.clause, q.having);
    var ap := ((LitOf(SelectHead(q)) + PiecesOfList(r.entry, q.fields, ", ")) + LitOf(FromText(quote, q)))
              + PiecesOfList(r.join, q.joins, "");
    var bp := (ClausePieces(" WHERE ", r.clause, q.wheres, " AND ") + ClausePieces(" GROUP BY ", r.entry, q.groupBy, ", "))
              + ClausePieces(" HAVING ", r.clause, q.having, " AND ");
    MeansThen(a, m, ap, b, n, bp);
    MeansThen(Then(a, b), m + n, ap + bp, c, ListLost(r.order, q.orderBy),
              (ClausePieces(" ORDER BY ", r.order, q.orderBy, ", ") + LimitPieces(q.limit, q.offset))
              + LitOf(if q.forUpdate then " FOR UPDATE" else ""));
  }

  // ----- the main result -----

  lemma {:induction false} CompilerPartsRead(w: Writer, q: Select)
    requires forall j :: j in q.joins ==> JoinBound(j)
    ensures PartsRead(CompilerPrinters(w), CompilerReaders(w), q)
  {
    forall x: FieldInfo ensures ReadsAs(EntryPrinter(w), EntryReader(w), x) { EntryReads(w, x); }
    forall x | x in q.joins ensures ReadsAs(JoinPrinter(w), JoinReader(w), x) { JoinReads(w, x); }
    forall x: Expr ensures ReadsAs(ClausePrinter(w.env), ClauseReader(w.env), x) { ClauseReads(w.env, x); }
    forall x: OrderBy ensures ReadsAs(OrderPrinter(w), OrderReader(w), x) { OrderReads(w, x); }
  }

  function ConditionsUnmatched(cs: seq<Condition>): int {
    if cs == [] then 0 else Unmatched(cs[0].left) + Unmatched(cs[0].right) + ConditionsUnmatched(cs[1..])
  }

  /** How many values the columns of the joins bring beyond their placeholders. */
  function JoinsUnmatched(js: seq<JoinDef>): int {
    if js == [] then 0 else ConditionsUnmatched(js[0].conditions) + JoinsUnmatched(js[1..])
  }

  lemma {:induction false} ConditionsSurplus(w: Writer, cs: seq<Condition>)
    requires ListCode(ConditionPrinter(w), cs, " AND ").Ok?
    ensures Surplus(ListCode(ConditionPrinter(w), cs, " AND ").value) == ConditionsUnmatched(cs)
  {
    if cs != [] {
      var l, r := FormatColumn(w, cs[0].left).value, FormatColumn(w, cs[0].right).value;
      var op, sep := " " + OpText(cs[0].op) + " ", if |cs| > 1 then " AND " else "";
      ColumnKeepsStep(w, cs[0].left);
      ColumnKeepsStep(w, cs[0].right);
      NoSurplus(op);
      NoSurplus(sep);
      SurplusThen(Txt(op), r);
      SurplusThen(l, Then(Txt(op), r));
      SurplusThen(Then(l, Then(Txt(op), r)), Txt(sep));
      ConditionsSurplus(w, cs[1..]);
      SurplusThen(Then(Then(l, Then(Txt(op), r)), Txt(sep)), ListCode(ConditionPrinter(w), cs[1..], " AND ").value);
      assert ConditionPrinter(w)(cs[0]) == Ok(Then(l, Then(Txt(op), r)));
    }
  }

  lemma {:induction false} JoinsSurplus(w: Writer, js: seq<JoinDef>)
    requires ListCode(JoinPrinter(w), js, "").Ok?
    ensures Surplus(ListCode(JoinPrinter(w), js, "").value) == JoinsUnmatched(js)
  {
    if js != [] {
      var j, head := js[0], JoinHead(w, js[0]);
      var c := ListCode(ConditionPrinter(w), j.conditions, " AND ").value;
      assert JoinPrinter(w)(j) == Ok(Then(Txt(head), c));
      JoinKeepsStep(w, j);
      NoSurplus("");
      SurplusThen(Then(Txt(head), c), Txt(""));
      JoinsSurplus(w, js[1..]);
      SurplusThen(Then(Then(Txt(head), c), Txt("")), ListCode(JoinPrinter(w), js[1..], "").value);
    }
  }

  /** A join: the surplus of its arguments; and it is itself with its values in place when each raw
      SQL column of it brings its values. */
  lemma {:induction false} JoinKeepsStep(w: Writer, j: JoinDef)
    requires JoinPrinter(w)(j).Ok?
    ensures Surplus(JoinPrinter(w)(j).value) == ConditionsUnmatched(j.conditions)
    ensures JoinBound(j) ==> Reads(JoinPrinter(w)(j).value, JoinReader(w).pieces(j))
  {
    var c := ListCode(ConditionPrinter(w), j.conditions, " AND ").value;
    assert JoinPrinter(w)(j) == Ok(Then(Txt(JoinHead(w, j)), c));
    ConditionsSurplus(w, j.conditions);
    NoSurplus(JoinHead(w, j));
    SurplusThen(Txt(JoinHead(w, j)), c);
    if JoinBound(j) {
      JoinReads(w, j);
    }
  }

  lemma {:induction false} AllBound(js: seq<JoinDef>)
    requires forall j :: j in js ==> JoinBound(j)
    ensures JoinsUnmatched(js) == 0
  {
    if js != [] {
      assert JoinBound(js[0]);
      BoundBringsValues(js[0].conditions);
      AllBound(js[1..]);
    }
  }

  lemma {:induction false} BoundBringsValues(cs: seq<Condition>)
    requires forall c :: c in cs ==> ConditionBound(c)
    ensures ConditionsUnmatched(cs) == 0
  {
    if cs != [] {
      assert ConditionBound(cs[0]);
      BoundBringsValues(cs[1..]);
    }
  }

  lemma {:induction false} ApartFrom(p: Printers, quote: string, q: Select)
    ensures var plain := q.(joins := []);
            && Filters(p, plain) == Filters(p, q) && Tail(p, plain) == Tail(p, q)
            && SelectHead(plain) == SelectHead(q) && FromText(quote, plain) == FromText(quote, q)
            && ListCode(p.join, plain.joins, "") == Ok(Code([], []))
  {
    hide ClauseCode, LimitCode;
  }

  /** Taking the joins out of a SELECT takes their text and arguments out. */
  lemma {:induction false} JoinsApart(p: Printers, quote: string, q: Select)
    requires SelectCode(p, quote, q).Ok?
    ensures SelectCode(p, quote, q.(joins := [])).Ok? && ListCode(p.join, q.joins, "").Ok?
    ensures Surplus(SelectCode(p, quote, q).value)
         == Surplus(SelectCode(p, quote, q.(joins := [])).value) + Surplus(ListCode(p.join, q.joins, "").value)
  {
    var front := Then(Then(Txt(SelectHead(q)), ListCode(p.entry, q.fields, ", ").value), Txt(FromText(quote, q)));
    var joins, filters, tail := ListCode(p.join, q.joins, "").value, Filters(p, q).value, Tail(p, q).value;
    ApartFrom(p, quote, q);
    hide Surplus, Then, Filters, Tail, ListCode, SelectHead, FromText;
    SurplusThen(front, joins);
    SurplusThen(Then(front, joins), filters);
    SurplusThen(Then(Then(front, joins), filters), tail);
    SurplusThen(front, Code([], []));
    SurplusThen(Then(front, Code([], [])), filters);
    SurplusThen(Then(Then(front, Code([], [])), filters), tail);
    NoSurplus("");
  }

  lemma {:induction false} SelectCounts(w: Writer, q: Select)
    requires SelectCode(CompilerPrinters(w), w.quote, q).Ok?
    ensures Surplus(SelectCode(CompilerPrinters(w), w.quote, q).value) == SelectLost(CompilerReaders(w), q) + JoinsUnmatched(q.joins)
  {
    hide SelectCode, SelectPieces, PartsRead, ListCode, JoinsUnmatched, Reads;
    var p, r, plain := CompilerPrinters(w), CompilerReaders(w), q.(joins := []);
    JoinsApart(p, w.quote, q);
    JoinsSurplus(w, q.joins);
    CompilerPartsRead(w, plain);
    SelectMeans(p, r, w.quote, plain);
    NothingLost(r.join, q.joins);
    assert SelectLost(r, plain) == SelectLost(r, q);
  }

  /** For every SELECT that compiles: the arguments outnumber the placeholders by exactly the
      bound values its expressions lose, and those the raw SQL of its joins brings beyond its
      placeholders.  When that SQL brings what it asks for, replacing the k-th placeholder by
      the k-th argument gives the statement printed with its values inline exactly when
      nothing is lost. */
  lemma {:induction false} SelectLinesUp(w: Writer, q: Select)
    requires SelectCode(CompilerPrinters(w), w.quote, q).Ok?
    ensures var c, lost := SelectCode(CompilerPrinters(w), w.quote, q).value, SelectLost(CompilerReaders(w), q);
            && |c.args| == Holes(c.text) + lost + JoinsUnmatched(q.joins)
            && ((forall j :: j in q.joins ==> JoinBound(j)) ==>
                  && JoinsUnmatched(q.joins) == 0
                  && (Reads(c, SelectPieces(CompilerReaders(w), w.quote, q)) <==> lost == 0))
  {
    hide SelectCode, SelectLost, SelectPieces, PartsRead, JoinsUnmatched, JoinBound;
    SelectCounts(w, q);
    if forall j :: j in q.joins ==> JoinBound(j) {
      AllBound(q.joins);
      CompilerPartsRead(w, q);
      SelectMeans(CompilerPrinters(w), CompilerReaders(w), w.quote, q);
    }
  }

  /** Read position by position: the placeholder that has k others before it stands for the
      k-th argument, and everything else is written as it is. */
  lemma {:induction false} KthPlaceholder(w: Writer, q: Select, i: nat)
    requires SelectCode(CompilerPrinters(w), w.quote, q).Ok?
    requires (forall j :: j in q.joins ==> JoinBound(j)) && SelectLost(CompilerReaders(w), q) == 0
    requires i < |SelectCode(CompilerPrinters(w), w.quote, q).value.text|
    ensures var c, pieces := SelectCode(CompilerPrinters(w), w.quote, q).value, SelectPieces(CompilerReaders(w), w.quote, q);
            && |pieces| == |c.text|
            && (c.text[i].Text? ==> pieces[i] == Lit(c.text[i].s))
            && (c.text[i].Hole? ==> Holes(c.text[..i]) < |c.args| && pieces[i] == Bound(c.args[Holes(c.text[..i])]))
  {
    SelectLinesUp(w, q);
    var c := SelectCode(CompilerPrinters(w), w.quote, q).value;
    FillAt(c.text, c.args, i);
  }

  // ----- the WHERE clause, read back -----

  function PrintAll<T>(printer: Printer<T>, xs: seq<T>): (r: Result<seq<Code>>)
    ensures r.Ok? ==> |r.value| == |xs|
  {
    if xs == [] then Ok([])
    else
      var c :- printer(xs[0]);
      var cs :- PrintAll(printer, xs[1..]);
      Ok([c] + cs)
  }

  lemma {:induction false} JoinOfTwo(c: Code, cs: seq<Code>, sep: string)
    ensures Join([c] + cs, sep) == Then(Then(c, Txt(if cs != [] then sep else "")), Join(cs, sep))
  {
    assert ([c] + cs)[1..] == cs;
    if cs == [] {
      assert Then(Then(c, Txt("")), Code([], [])) == c;
    } else {
      assert Then(Then(c, Txt(sep)), Join(cs, sep)) == Then(c, Then(Txt(sep), Join(cs, sep)));
    }
  }

  lemma {:induction false} ListIsJoin<T>(printer: Printer<T>, xs: seq<T>, sep: string)
    requires ListCode(printer, xs, sep).Ok?
    ensures PrintAll(printer, xs).Ok?
    ensures ListCode(printer, xs, sep).value == Join(PrintAll(printer, xs).value, sep)
  {
    if xs != [] {
      ListIsJoin(printer, xs[1..], sep);
      JoinOfTwo(printer(xs[0]).value, PrintAll(printer, xs[1..]).value, sep);
    }
  }

  lemma {:induction false} CompileAllPrints(env: Env, es: seq<Expr>)
    ensures CompileAll(env, es) == PrintAll(ClausePrinter(env), es)
  {
    if es != [] {
      CompileAllPrints(env, es[1..]);
      assert ClausePrinter(env)(es[0]) == Compile(env, es[0]);
    }
  }

  /** The WHERE clause of a compiled SELECT, with each elementary condition taken as printed,
      parses to the conjunction of the filters; it parses exactly when each filter can be
      read. */
  lemma {:induction false} WhereClauseReadsBack(w: Writer, q: Select, lenient: bool)
    requires q.wheres != [] && Filters(CompilerPrinters(w), q).Ok?
    requires forall c :: c in q.wheres ==> Connected(c)
    ensures var written := ListCode(ClausePrinter(w.env), q.wheres, " AND ");
            written.Ok? && SameText(written.value, Render(CompilerPrinter(w.env), SkeletonAll(q.wheres, OpAnd)))
    ensures var p := ParseAll(lenient, SkeletonAll(q.wheres, OpAnd));
            && (p.Some? <==> forall c :: c in q.wheres ==> Readable(lenient, c))
            && (p.Some? ==> forall asg: Assignment ::
                  TruthOf(asg, p.value) == Combine(OpAnd, EvalAll(asg, q.wheres)))
  {
    ListIsJoin(ClausePrinter(w.env), q.wheres, " AND ");
    CompileAllPrints(w.env, q.wheres);
    WhereTextReadsBack(w.env, lenient, q.wheres);
  }
}
