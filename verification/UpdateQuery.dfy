/** UPDATE of many objects at once: which fields of an object are set, which of them carry a
    value and which an expression, and how the compiler hands the values out again. */
module UpdateQuery {
  import opened Outcomes
  import opened SqlText
  import opened Expressions
  import opened ExpressionMeaning
  import opened ClauseWriters
  import opened SelectMeaning
  import opened Sequences

  /** A field of the object being updated, with the value the object holds. */
  datatype ModelField = ModelField(
    name: string,
    column: string,
    autoIncrement: bool,
    primary: bool,
    dbEdit: bool,
    allowNull: bool,
    value: Value,
    virt: Virtual)

  /** What an UPDATE of one object is given: fields to set, and values for them. */
  datatype Row = Row(fields: seq<FieldDef>, values: seq<Value>)

  /** The expressions given to the update, by field name. */
  type Exprs = map<string, Expr>

  predicate Editable(f: ModelField) {
    !f.autoIncrement && !f.primary && f.column != "" && f.dbEdit
  }

  predicate KeepsValue(exprs: Exprs, f: ModelField) {
    f.name !in exprs
  }

  /** A field set to an expression becomes a computed field; any other stays as declared. */
  function AsField(exprs: Exprs, f: ModelField): FieldDef {
    FieldDef(f.name, f.column, if KeepsValue(exprs, f) then f.virt else Computed(Some(exprs[f.name])), "")
  }

  function Admitted(fs: seq<ModelField>): seq<ModelField> {
    if fs == [] then [] else (if Editable(fs[0]) then [fs[0]] else []) + Admitted(fs[1..])
  }

  function FieldsOf(exprs: Exprs, fs: seq<ModelField>): (r: seq<FieldDef>)
    ensures |r| == |fs|
  {
    if fs == [] then [] else [AsField(exprs, fs[0])] + FieldsOf(exprs, fs[1..])
  }

  function ValuesOf(exprs: Exprs, fs: seq<ModelField>): seq<Value> {
    if fs == [] then [] else (if KeepsValue(exprs, fs[0]) then [fs[0].value] else []) + ValuesOf(exprs, fs[1..])
  }

  /** A field with no value that may not be null. */
  predicate NullRefused(exprs: Exprs, f: ModelField) {
    KeepsValue(exprs, f) && f.value.Nil? && !f.allowNull
  }

  lemma {:induction false} AdmittedStep(exprs: Exprs, fs: seq<ModelField>, i: nat)
    requires i < |fs|
    ensures Admitted(fs[..i + 1]) == if Editable(fs[i]) then Admitted(fs[..i]) + [fs[i]] else Admitted(fs[..i])
  {
    if i == 0 {
      assert fs[..1][1..] == [] && fs[..0] == [];
    } else {
      AdmittedStep(exprs, fs[1..], i - 1);
      assert fs[..i + 1][1..] == fs[1..][..i] && fs[..i][1..] == fs[1..][..i - 1];
    }
  }

  lemma {:induction false} FieldsOfConcat(exprs: Exprs, a: seq<ModelField>, b: seq<ModelField>)
    ensures FieldsOf(exprs, a + b) == FieldsOf(exprs, a) + FieldsOf(exprs, b)
    ensures ValuesOf(exprs, a + b) == ValuesOf(exprs, a) + ValuesOf(exprs, b)
  {
    hide AsField, KeepsValue;
    if a == [] {
      assert a + b == b;
    } else {
      assert (a + b)[0] == a[0] && (a + b)[1..] == a[1..] + b;
      FieldsOfConcat(exprs, a[1..], b);
      var field, value := [AsField(exprs, a[0])], if KeepsValue(exprs, a[0]) then [a[0].value] else [];
      Regroup(field, FieldsOf(exprs, a[1..]), FieldsOf(exprs, b));
      Regroup(value, ValuesOf(exprs, a[1..]), ValuesOf(exprs, b));
    }
  }

  lemma {:induction false} OneField(exprs: Exprs, f: ModelField)
    ensures FieldsOf(exprs, [f]) == [AsField(exprs, f)]
    ensures ValuesOf(exprs, [f]) == if KeepsValue(exprs, f) then [f.value] else []
  {
    var none: seq<ModelField> := [];
    assert [f][1..] == none;
  }

  /** Choosing the fields and values of one object.  It panics exactly when a field that is
      set to its own value may not be null and is. */
  method BuildRow(exprs: Exprs, fs: seq<ModelField>) returns (r: Result<Row>)
    ensures r.Panic? <==> exists f :: f in Admitted(fs) && NullRefused(exprs, f)
    ensures r.Ok? ==> r.value == Row(FieldsOf(exprs, Admitted(fs)), ValuesOf(exprs, Admitted(fs)))
  {
    var fields: seq<FieldDef>, values: seq<Value> := [], [];
    for i := 0 to |fs|
      invariant fields == FieldsOf(exprs, Admitted(fs[..i])) && values == ValuesOf(exprs, Admitted(fs[..i]))
      invariant forall f :: f in Admitted(fs[..i]) ==> !NullRefused(exprs, f)
    {
      var f := fs[i];
      AdmittedStep(exprs, fs, i);
      if !Editable(f) {
        continue;
      }
      OneField(exprs, f);
      FieldsOfConcat(exprs, Admitted(fs[..i]), [f]);
      if f.name in exprs {
        fields := fields + [FieldDef(f.name, f.column, Computed(Some(exprs[f.name])), "")];
        continue;
      }
      if f.value.Nil? && !f.allowNull {
        assert f in Admitted(fs[..i + 1]);
        AdmittedMonotone(fs, i + 1, f);
        return Panic;
      }
      fields := fields + [FieldDef(f.name, f.column, f.virt, "")];
      values := values + [f.value];
    }
    assert fs[..|fs|] == fs;
    return Ok(Row(fields, values));
  }

  lemma {:induction false} AdmittedMonotone(fs: seq<ModelField>, n: nat, f: ModelField)
    requires n <= |fs| && f in Admitted(fs[..n])
    ensures f in Admitted(fs)
  {
    if n > 0 && !(Editable(fs[0]) && f == fs[0]) {
      assert fs[..n][1..] == fs[1..][..n - 1];
      AdmittedMonotone(fs[1..], n - 1, f);
    }
  }

  // ----- the SET list -----

  /** The columns that ask the cursor for a value. */
  function StoredCount(fs: seq<FieldDef>): nat {
    if fs == [] then 0 else (if fs[0].virt.Stored? then 1 else 0) + StoredCount(fs[1..])
  }

  /** The SET list: a field printed as SQL brings its own arguments, any other takes the next
      value, and taking one that is not there panics. */
  function SetCode(printer: FieldPrinter, fs: seq<FieldDef>, vs: seq<Value>, written: bool): Result<Code> {
    if fs == [] then Ok(Code([], []))
    else
      var f :- printer(fs[0]);
      var comma := Txt(if written then ", " else "");
      if f.written && !f.isSQL then
        if vs == [] then Panic
        else
          var rest :- SetCode(printer, fs[1..], vs[1..], true);
          Ok(Then(Then(comma, Code(f.code.text, [vs[0]])), rest))
      else
        var rest :- SetCode(printer, fs[1..], vs, f.written || written);
        Ok(Then(Then(comma, if f.written then f.code else Code(f.code.text, [])), rest))
  }

  method WriteSets(printer: FieldPrinter, row: Row, sb: Builder) returns (r: Result<seq<Value>>)
    modifies sb
    ensures Appended(old(sb.text), sb.text, r, SetCode(printer, row.fields, row.values, false))
  {
    var args: seq<Value>, written, cursor := [], false, 0;
    ghost var before, goal := sb.text, SetCode(printer, row.fields, row.values, false);
    for i := 0 to |row.fields|
      invariant cursor <= |row.values|
      invariant Progress(before, goal, sb.text, args, SetCode(printer, row.fields[i..], row.values[cursor..], written))
    {
      ghost var text, rest := sb.text, SetCode(printer, row.fields[i..], row.values[cursor..], written);
      assert row.fields[i..][1..] == row.fields[i + 1..];
      ghost var comma := Txt(if written then ", " else "");
      if written {
        sb.WriteString(", ");
      }
      var f := printer(row.fields[i]);
      if f.Panic? {
        return Panic;
      }
      sb.Write(f.value.code.text);
      var a: seq<Value> := [];
      if f.value.written {
        if f.value.isSQL {
          a := f.value.code.args;
        } else {
          if cursor == |row.values| {
            return Panic;
          }
          a := [row.values[cursor]];
          assert row.values[cursor..][1..] == row.values[cursor + 1..];
          cursor := cursor + 1;
        }
      }
      written := f.value.written || written;
      ghost var step := Then(comma, Code(f.value.code.text, a));
      Advance(before, goal, text, args, rest, step, SetCode(printer, row.fields[i + 1..], row.values[cursor..], written));
      assert sb.text == text + step.text;
      assert args + a == args + step.args;
      args := args + a;
    }
    Finished(before, goal, sb.text, args, SetCode(printer, row.fields[|row.fields|..], row.values[cursor..], written));
    return Ok(args);
  }

  // ----- where the cursor stands -----

  /** Every field can be printed, and is printed as what it is. */
  predicate Prints(printer: FieldPrinter, f: FieldDef) {
    printer(f).Ok? && (f.virt.Stored? <==> printer(f).value.written && !printer(f).value.isSQL)
  }

  /** A field set to its own value although the model computes it. */
  predicate Clash(exprs: Exprs, f: ModelField) {
    KeepsValue(exprs, f) && f.virt.Computed?
  }

  function PlainCount(exprs: Exprs, fs: seq<ModelField>): (n: nat) {
    if fs == [] then 0 else (if KeepsValue(exprs, fs[0]) then 1 else 0) + PlainCount(exprs, fs[1..])
  }

  /** The fields of `fs` that ask for a value are those that brought one, less the clashes. */
  lemma {:induction false} CursorCounts(exprs: Exprs, fs: seq<ModelField>)
    ensures |ValuesOf(exprs, fs)| == PlainCount(exprs, fs)
    ensures StoredCount(FieldsOf(exprs, fs)) <= PlainCount(exprs, fs)
    ensures StoredCount(FieldsOf(exprs, fs)) == PlainCount(exprs, fs) <==> forall f :: f in fs ==> !Clash(exprs, f)
  {
    if fs != [] {
      var stored, rest := FieldsOf(exprs, fs), fs[1..];
      CursorCounts(exprs, rest);
      assert stored[1..] == FieldsOf(exprs, rest);
      assert fs[0] in fs;
      assert forall f :: f in rest ==> f in fs;
      if !Clash(exprs, fs[0]) {
        assert StoredCount(stored) - StoredCount(stored[1..]) == PlainCount(exprs, fs) - PlainCount(exprs, rest);
        assert forall f :: f in fs ==> f == fs[0] || f in rest;
      }
    }
  }

  /** The SET list fails only where a field cannot be printed, as long as there is a value for
      each column that asks for one. */
  lemma {:induction false} EnoughValues(printer: FieldPrinter, fs: seq<FieldDef>, vs: seq<Value>, written: bool)
    requires forall f :: f in fs ==> Prints(printer, f)
    ensures SetCode(printer, fs, vs, written).Ok? <==> StoredCount(fs) <= |vs|
  {
    if fs != [] {
      assert Prints(printer, fs[0]);
      var f := printer(fs[0]).value;
      if f.written && !f.isSQL {
        if vs != [] {
          EnoughValues(printer, fs[1..], vs[1..], true);
        }
      } else {
        EnoughValues(printer, fs[1..], vs, f.written || written);
      }
    }
  }

  /** The cursor never runs past the values of a row that the update built, and it ends at
      their number exactly when no plain field of the row is computed by the model. */
  lemma {:induction false} CursorStaysInside(printer: FieldPrinter, exprs: Exprs, fs: seq<ModelField>)
    requires forall f :: f in FieldsOf(exprs, Admitted(fs)) ==> Prints(printer, f)
    ensures SetCode(printer, FieldsOf(exprs, Admitted(fs)), ValuesOf(exprs, Admitted(fs)), false).Ok?
    ensures StoredCount(FieldsOf(exprs, Admitted(fs))) == |ValuesOf(exprs, Admitted(fs))|
       <==> forall f :: f in Admitted(fs) ==> !Clash(exprs, f)
  {
    CursorCounts(exprs, Admitted(fs));
    EnoughValues(printer, FieldsOf(exprs, Admitted(fs)), ValuesOf(exprs, Admitted(fs)), false);
  }

  lemma {:induction false} ValueAt(exprs: Exprs, fs: seq<ModelField>, i: nat)
    requires i < |fs| && KeepsValue(exprs, fs[i])
    ensures PlainCount(exprs, fs[..i]) < |ValuesOf(exprs, fs)|
    ensures ValuesOf(exprs, fs)[PlainCount(exprs, fs[..i])] == fs[i].value
  {
    if i == 0 {
      assert fs[..0] == [];
    } else {
      ValueAt(exprs, fs[1..], i - 1);
      assert fs[..i][1..] == fs[1..][..i - 1];
    }
  }

  /** When the i-th field asks for a value the cursor stands on the field's own value exactly
      when no computed field before it left a value behind. */
  lemma {:induction false} CursorOnOwnValue(exprs: Exprs, fs: seq<ModelField>, i: nat)
    requires i < |fs| && KeepsValue(exprs, fs[i]) && fs[i].virt.Stored?
    ensures var cursor, own := StoredCount(FieldsOf(exprs, fs[..i])), PlainCount(exprs, fs[..i]);
            && cursor <= own < |ValuesOf(exprs, fs)|
            && ValuesOf(exprs, fs)[own] == fs[i].value
            && (cursor == own <==> forall f :: f in fs[..i] ==> !Clash(exprs, f))
  {
    ValueAt(exprs, fs, i);
    CursorCounts(exprs, fs[..i]);
  }

  /** A clash: after a computed field with a column of its own that is set to its
      own value, a stored column is assigned the computed field's value instead of its own.
      Both fields are admitted to the update. */
  lemma {:induction false} ClashShiftsValues(printer: FieldPrinter, c: ModelField, d: ModelField)
    requires Editable(c) && c.virt.Computed? && Editable(d) && d.virt.Stored?
    requires Prints(printer, AsField(map[], c)) && Prints(printer, AsField(map[], d))
    ensures var fs, vs := FieldsOf(map[], Admitted([c, d])), ValuesOf(map[], Admitted([c, d]));
            var r := SetCode(printer, fs, vs, false);
            && |fs| == 2 && vs == [c.value, d.value]
            && r.Ok? && r.value.args != [] && r.value.args[|r.value.args| - 1] == c.value
  {
    var fc, fd := AsField(map[], c), AsField(map[], d);
    TwoAdmitted(c, d);
    OneField(map[], c);
    OneField(map[], d);
    assert [c] + [d] == [c, d] && [fc] + [fd] == [fc, fd];
    FieldsOfConcat(map[], [c], [d]);
    var vs, w, none: seq<FieldDef> := [c.value, d.value], printer(fc).value.written, [];
    assert [fc, fd][1..] == [fd] && [fd][1..] == none;
    assert vs[1..] == [d.value];
    assert SetCode(printer, none, [d.value], true) == Ok(Code([], []));
    assert SetCode(printer, [fd], vs, w).Ok? && SetCode(printer, [fd], vs, w).value.args == [c.value];
  }

  lemma {:induction false} TwoAdmitted(c: ModelField, d: ModelField)
    requires Editable(c) && Editable(d)
    ensures Admitted([c, d]) == [c, d]
  {
    var none: seq<ModelField> := [];
    assert [c, d][1..] == [d] && [d][1..] == none;
    assert Admitted([d]) == [d] + Admitted(none);
  }

  /** The library's own computed fields have no column and are not saved. */
  predicate LibraryFields(fs: seq<ModelField>) {
    forall f :: f in fs && f.virt.Computed? ==> !Editable(f)
  }

  /** None of the library's own fields clashes, so for them the cursor always stands on the
      column's own value. */
  lemma {:induction false} LibraryFieldsDoNotClash(exprs: Exprs, fs: seq<ModelField>)
    requires LibraryFields(fs)
    ensures forall f :: f in Admitted(fs) ==> !Clash(exprs, f)
  {
    forall f | f in Admitted(fs)
      ensures !Clash(exprs, f)
    {
      AdmittedIsEditable(fs, f);
    }
  }

  lemma {:induction false} AdmittedIsEditable(fs: seq<ModelField>, f: ModelField)
    requires f in Admitted(fs)
    ensures f in fs && Editable(f)
  {
    assert fs[0] in fs;
    if f in Admitted(fs[1..]) {
      AdmittedIsEditable(fs[1..], f);
    }
  }

  // ----- what the SET list means -----

  /** How a computed field reads: what it loses, and its pieces. */
  predicate SetReads(printer: FieldPrinter, read: FieldReader, assign: string -> seq<Token>, f: FieldDef) {
    printer(f).Ok? ==>
      var p := printer(f).value;
      match f.virt
      case Stored => p.written && !p.isSQL && p.code.text == assign(f.column)
      case Computed(_) => p.isSQL && (p.written ==> Means(p.code, read.lost(f), read.pieces(f)))
                          && (!p.written ==> p.code.text == [] && read.lost(f) == 0 && read.pieces(f) == [])
  }

  function SetLost(read: FieldReader, fs: seq<FieldDef>): nat {
    if fs == [] then 0 else (if fs[0].virt.Computed? then read.lost(fs[0]) else 0) + SetLost(read, fs[1..])
  }

  /** The SET list with `vs` put into its columns in order. */
  function RowPieces(printer: FieldPrinter, read: FieldReader, assign: string -> seq<Token>, fs: seq<FieldDef>,
                     vs: seq<Value>, written: bool): seq<Piece>
    requires StoredCount(fs) <= |vs|
  {
    if fs == [] then []
    else
      var comma := LitOf(if written then ", " else "");
      if fs[0].virt.Stored? then
        (comma + AssignPieces(assign(fs[0].column), vs[0])) + RowPieces(printer, read, assign, fs[1..], vs[1..], true)
      else
        (comma + read.pieces(fs[0]))
        + RowPieces(printer, read, assign, fs[1..], vs, (printer(fs[0]).Ok? && printer(fs[0]).value.written) || written)
  }

  /** `column = value`. */
  function AssignPieces(text: seq<Token>, v: Value): seq<Piece> {
    if Holes(text) == 1 then Fill(text, [v]) else []
  }

  /** The SET list of a row receives the row's values in order. */
  lemma {:induction false} RowMeans(printer: FieldPrinter, read: FieldReader, assign: string -> seq<Token>, fs: seq<FieldDef>,
                                    vs: seq<Value>, written: bool)
    requires forall f :: f in fs ==> Holes(assign(f.column)) == 1 && SetReads(printer, read, assign, f)
    requires StoredCount(fs) <= |vs| && SetCode(printer, fs, vs, written).Ok?
    ensures Means(SetCode(printer, fs, vs, written).value, SetLost(read, fs), RowPieces(printer, read, assign, fs, vs, written))
  {
    if fs == [] {
      WordsMean([]);
    } else {
      var f, rest := fs[0], fs[1..];
      var comma := if written then ", " else "";
      assert f in fs && SetReads(printer, read, assign, f);
      if f.virt.Stored? {
        RowMeans(printer, read, assign, rest, vs[1..], true);
        SetStep(comma, Code(assign(f.column), [vs[0]]), 0, AssignPieces(assign(f.column), vs[0]),
                SetCode(printer, rest, vs[1..], true).value, SetLost(read, rest), RowPieces(printer, read, assign, rest, vs[1..], true));
      } else {
        var w := printer(f).value.written || written;
        RowMeans(printer, read, assign, rest, vs, w);
        var c := if printer(f).value.written then printer(f).value.code else Code(printer(f).value.code.text, []);
        WordsMean([]);
        SetStep(comma, c, read.lost(f), read.pieces(f),
                SetCode(printer, rest, vs, w).value, SetLost(read, rest), RowPieces(printer, read, assign, rest, vs, w));
      }
    }
  }

  /** The value can be read off `column = value`. */
  lemma {:induction false} AssignTells(text: seq<Token>, v: Value, u: Value)
    requires Holes(text) == 1
    ensures |AssignPieces(text, v)| == |AssignPieces(text, u)|
    ensures AssignPieces(text, v) == AssignPieces(text, u) ==> v == u
  {
    FillLength(text, [v]);
    FillLength(text, [u]);
    if !text[0].Hole? {
      var word := [Lit(text[0].s)];
      AssignTells(text[1..], v, u);
      assert Fill(text, [v])[1..] == Fill(text[1..], [v]) && Fill(text, [u])[1..] == Fill(text[1..], [u]);
    } else {
      assert Fill(text, [v])[0] == Bound(v) && Fill(text, [u])[0] == Bound(u);
    }
  }

  /** Two lists that agree on a first part of the same length agree iff they agree on both. */
  lemma {:induction false} PartsAgree(a: seq<Piece>, b: seq<Piece>, p: seq<Piece>, q: seq<Piece>)
    requires |a| == |b|
    ensures a + p == b + q <==> a == b && p == q
  {
    assert (a + p)[..|a|] == a && (a + p)[|a|..] == p;
    assert (b + q)[..|b|] == b && (b + q)[|b|..] == q;
  }

  lemma {:induction false} StoredRow(printer: FieldPrinter, read: FieldReader, assign: string -> seq<Token>, fs: seq<FieldDef>,
                                     vs: seq<Value>, written: bool)
    requires fs != [] && fs[0].virt.Stored? && StoredCount(fs) <= |vs|
    ensures RowPieces(printer, read, assign, fs, vs, written)
         == (LitOf(if written then ", " else "") + AssignPieces(assign(fs[0].column), vs[0]))
            + RowPieces(printer, read, assign, fs[1..], vs[1..], true)
  {
    hide AssignPieces;
  }

  lemma {:induction false} ComputedRow(printer: FieldPrinter, read: FieldReader, assign: string -> seq<Token>, fs: seq<FieldDef>,
                                       vs: seq<Value>, written: bool)
    requires fs != [] && !fs[0].virt.Stored? && StoredCount(fs) <= |vs|
    ensures RowPieces(printer, read, assign, fs, vs, written)
         == (LitOf(if written then ", " else "") + read.pieces(fs[0]))
            + RowPieces(printer, read, assign, fs[1..], vs, (printer(fs[0]).Ok? && printer(fs[0]).value.written) || written)
  {
  }

  /** Two rows of values give the same SET list exactly when its columns are given the same. */
  lemma {:induction false} RowsAgree(printer: FieldPrinter, read: FieldReader, assign: string -> seq<Token>, fs: seq<FieldDef>,
                                     vs: seq<Value>, ws: seq<Value>, written: bool)
    requires forall f :: f in fs ==> Holes(assign(f.column)) == 1
    requires StoredCount(fs) <= |vs| && StoredCount(fs) <= |ws|
    ensures var p, q := RowPieces(printer, read, assign, fs, vs, written), RowPieces(printer, read, assign, fs, ws, written);
            |p| == |q| && (p == q <==> vs[..StoredCount(fs)] == ws[..StoredCount(fs)])
  {
    if fs == [] {
      assert vs[..0] == ws[..0];
    } else {
      hide RowPieces, AssignPieces, Holes, LitOf;
      var n, rest, comma := StoredCount(fs), fs[1..], LitOf(if written then ", " else "");
      assert fs[0] in fs;
      if fs[0].virt.Stored? {
        var a, b := AssignPieces(assign(fs[0].column), vs[0]), AssignPieces(assign(fs[0].column), ws[0]);
        var p, q := RowPieces(printer, read, assign, rest, vs[1..], true), RowPieces(printer, read, assign, rest, ws[1..], true);
        AssignTells(assign(fs[0].column), vs[0], ws[0]);
        RowsAgree(printer, read, assign, rest, vs[1..], ws[1..], true);
        PartsAgree(comma, comma, a, b);
        PartsAgree(comma + a, comma + b, p, q);
        StoredRow(printer, read, assign, fs, vs, written);
        StoredRow(printer, read, assign, fs, ws, written);
        FirstAgrees(vs, ws, n);
      } else {
        var w := (printer(fs[0]).Ok? && printer(fs[0]).value.written) || written;
        var c, p, q := comma + read.pieces(fs[0]), RowPieces(printer, read, assign, rest, vs, w), RowPieces(printer, read, assign, rest, ws, w);
        RowsAgree(printer, read, assign, rest, vs, ws, w);
        PartsAgree(c, c, p, q);
        ComputedRow(printer, read, assign, fs, vs, written);
        ComputedRow(printer, read, assign, fs, ws, written);
      }
    }
  }

  lemma {:induction false} FirstAgrees(vs: seq<Value>, ws: seq<Value>, n: nat)
    requires 0 < n <= |vs| && n <= |ws|
    ensures vs[..n] == ws[..n] <==> vs[0] == ws[0] && vs[1..][..n - 1] == ws[1..][..n - 1]
  {
    assert vs[..n] == [vs[0]] + vs[1..][..n - 1] && ws[..n] == [ws[0]] + ws[1..][..n - 1];
    assert vs[..n][1..] == vs[1..][..n - 1] && ws[..n][1..] == ws[1..][..n - 1];
  }

  lemma {:induction false} SetStep(comma: string, c: Code, n: nat, p: seq<Piece>, rest: Code, m: nat, q: seq<Piece>)
    requires Means(c, n, p) && Means(rest, m, q)
    ensures Means(Then(Then(Txt(comma), c), rest), n + m, (LitOf(comma) + p) + q)
  {
    TxtMeans(comma);
    MeansThen(Txt(comma), 0, LitOf(comma), c, n, p);
    MeansThen(Then(Txt(comma), c), n, LitOf(comma) + p, rest, m, q);
  }

  // ----- the statement -----

  datatype UpdateInfo = UpdateInfo(row: Row, joins: seq<JoinDef>, wheres: seq<Expr>)

  function UpdateHead(quote: string, table: string): string {
    "UPDATE " + quote + table + quote + " SET "
  }

  function ObjectCode(setter: FieldPrinter, p: Printers, head: string, info: UpdateInfo): Result<Code> {
    var sets :- SetCode(setter, info.row.fields, info.row.values, false);
    var joins :- ListCode(p.join, info.joins, "");
    var wheres :- ClauseCode(" WHERE ", p.clause, info.wheres, " AND ");
    Ok(Then(Then(Then(Txt(head), sets), joins), wheres))
  }

  function ObjectPrinter(setter: FieldPrinter, p: Printers, head: string): Printer<UpdateInfo> {
    (info: UpdateInfo) => ObjectCode(setter, p, head, info)
  }

  ghost predicate PrintsObjects(printer: Printer<UpdateInfo>, setter: FieldPrinter, p: Printers, head: string) {
    forall info {:trigger ObjectCode(setter, p, head, info)} :: ObjectCode(setter, p, head, info) == printer(info)
  }

  /** One UPDATE per object, separated by semicolons. */
  function ObjectsCode(printer: Printer<UpdateInfo>, infos: seq<UpdateInfo>, written: bool): Result<Code> {
    if infos == [] then Ok(Code([], []))
    else
      var c :- printer(infos[0]);
      var rest :- ObjectsCode(printer, infos[1..], true);
      Ok(Then(Then(Txt(if written then "; " else ""), c), rest))
  }

  method WriteObject(setter: FieldPrinter, p: Printers, head: string, info: UpdateInfo, sb: Builder, ghost printer: Printer<UpdateInfo>)
    returns (r: Result<seq<Value>>)
    requires PrintsObjects(printer, setter, p, head)
    modifies sb
    ensures Appended(old(sb.text), sb.text, r, printer(info))
  {
    hide SetCode, ListCode, ClauseCode;
    assert printer(info) == ObjectCode(setter, p, head, info);
    ghost var t0 := sb.text;
    sb.WriteString(head);
    ghost var t1 := sb.text;
    var sets := WriteSets(setter, info.row, sb);
    if sets.Panic? {
      return Panic;
    }
    ghost var t2 := sb.text;
    var joins := WriteEach(p.join, info.joins, "", sb);
    if joins.Panic? {
      return Panic;
    }
    ghost var t3 := sb.text;
    var wheres := WriteClause(" WHERE ", p.clause, info.wheres, " AND ", sb);
    if wheres.Panic? {
      return Panic;
    }
    ghost var s, j := SetCode(setter, info.row.fields, info.row.values, false).value, ListCode(p.join, info.joins, "").value;
    ghost var w := ClauseCode(" WHERE ", p.clause, info.wheres, " AND ").value;
    AppendedThen(t0, t1, t2, [], sets.value, Txt(head), s);
    AppendedThen(t0, t2, t3, [] + sets.value, joins.value, Then(Txt(head), s), j);
    AppendedThen(t0, t3, sb.text, [] + sets.value + joins.value, wheres.value, Then(Then(Txt(head), s), j), w);
    assert [] + sets.value + joins.value + wheres.value == sets.value + joins.value + wheres.value;
    return Ok(sets.value + joins.value + wheres.value);
  }

  method BuildUpdate(setter: FieldPrinter, p: Printers, head: string, infos: seq<UpdateInfo>, ghost printer: Printer<UpdateInfo>)
    returns (r: Result<Code>)
    requires PrintsObjects(printer, setter, p, head)
    ensures r == ObjectsCode(printer, infos, false)
  {
    var sb := new Builder();
    var args: seq<Value>, written := [], false;
    ghost var goal := ObjectsCode(printer, infos, false);
    for i := 0 to |infos|
      invariant Progress([], goal, sb.text, args, ObjectsCode(printer, infos[i..], written))
    {
      ghost var text, rest := sb.text, ObjectsCode(printer, infos[i..], written);
      assert infos[i..][1..] == infos[i + 1..];
      ghost var semicolon := Txt(if written then "; " else "");
      if written {
        sb.WriteString("; ");
      }
      written := true;
      ghost var middle := sb.text;
      var a := WriteObject(setter, p, head, infos[i], sb, printer);
      if a.Panic? {
        return Panic;
      }
      ghost var step := Then(semicolon, printer(infos[i]).value);
      Advance([], goal, text, args, rest, step, ObjectsCode(printer, infos[i + 1..], true));
      assert middle == text + semicolon.text;
      assert sb.text == text + step.text;
      assert args + a.value == args + step.args;
      args := args + a.value;
    }
    Finished([], goal, sb.text, args, ObjectsCode(printer, infos[|infos|..], written));
    assert goal.Ok? && [] + goal.value.text == goal.value.text;
    return Ok(Code(sb.text, args));
  }

  // ----- the compiler's printers -----

  /** While the SET list is written the compiler resolves fields to bare columns. */
  function SetWriter(w: Writer): Writer {
    w.(env := w.env.(forUpdate := true))
  }

  function WhereWriter(w: Writer): Writer {
    w.(env := w.env.(forUpdate := false))
  }

  function SetPrinter(w: Writer): FieldPrinter {
    (f: FieldDef) => WriteField(SetWriter(w), "", f, true)
  }

  function UpdatePrinter(w: Writer, table: string): Printer<UpdateInfo> {
    ObjectPrinter(SetPrinter(w), CompilerPrinters(WhereWriter(w)), UpdateHead(w.quote, table))
  }

  /** The statement the compiler builds. */
  method BuildUpdateQuery(w: Writer, table: string, infos: seq<UpdateInfo>) returns (r: Result<Code>)
    ensures r == ObjectsCode(UpdatePrinter(w, table), infos, false)
  {
    r := BuildUpdate(SetPrinter(w), CompilerPrinters(WhereWriter(w)), UpdateHead(w.quote, table), infos, UpdatePrinter(w, table));
  }

  function AssignText(w: Writer, column: string): seq<Token> {
    Txt(Quoted(w, column)).text + [Text(" = "), Hole]
  }

  function Assign(w: Writer): string -> seq<Token> {
    (column: string) => AssignText(w, column)
  }

  function SetReader(w: Writer): FieldReader {
    TableReader(SetWriter(w), "")
  }

  lemma {:induction false} AssignHasOneHole(w: Writer, column: string)
    ensures Holes(AssignText(w, column)) == 1
  {
    AssignmentAsks();
    TxtReads(Quoted(w, column));
    HolesOfConcat(Txt(Quoted(w, column)).text, [Text(" = "), Hole]);
  }

  lemma {:induction false} StoredAssigns(w: Writer, column: string)
    requires column != ""
    ensures FormatColumn(SetWriter(w), NO_COLUMN.(column := Some(column), forUpdate := true)) == Ok(Code(AssignText(w, column), []))
  {
    var c := NO_COLUMN.(column := Some(column), forUpdate := true);
    assert ColumnBody(SetWriter(w), c) == Ok(Txt(Quoted(w, column)));
    assert Then(Txt(""), Txt(Quoted(w, column))) == Txt(Quoted(w, column));
    assert Then(Txt(""), Code([Text(" = "), Hole], [])) == Code([Text(" = "), Hole], []);
  }

  lemma {:induction false} ComputedSet(w: Writer, f: FieldDef, e: Expr)
    requires f.virt == Computed(Some(e)) && Compile(w.env, e).Ok? && Compile(w.env, e).value.text != []
    ensures WriteField(w, "", f, true) == Ok(Written(Compile(w.env, e).value, true, true))
  {
    var c := Compile(w.env, e).value;
    RawColumn(w, c.text, "");
    assert Then(Code(c.text, []), Txt("")) == Code(c.text, []);
    assert c.args + [] == c.args;
  }

  lemma {:induction false} FieldSetReads(w: Writer, f: FieldDef)
    requires f.alias == ""
    ensures SetReads(SetPrinter(w), SetReader(w), Assign(w), f)
  {
    var sw := SetWriter(w);
    assert SetPrinter(w)(f) == WriteField(sw, "", f, true);
    if WriteField(sw, "", f, true).Ok? {
      match f.virt
      case Stored =>
        StoredAssigns(w, f.column);
        assert Assign(w)(f.column) == AssignText(w, f.column);
      case Computed(None) =>
      case Computed(Some(e)) =>
        var c := Compile(sw.env, e).value;
        if c.text != [] {
          ComputedSet(sw, f, e);
          CompiledMeans(sw.env, e);
          assert Inline(sw.env, e) + LitOf("") == Inline(sw.env, e);
        }
    }
  }

  // ----- the main result -----

  /** An object to update, with the filters and joins of the queryset. */
  datatype Update = Update(fields: seq<ModelField>, joins: seq<JoinDef>, wheres: seq<Expr>)

  function InfoOf(exprs: Exprs, u: Update): UpdateInfo {
    UpdateInfo(Row(FieldsOf(exprs, Admitted(u.fields)), ValuesOf(exprs, Admitted(u.fields))), u.joins, u.wheres)
  }

  function InfosOf(exprs: Exprs, us: seq<Update>): seq<UpdateInfo> {
    if us == [] then [] else [InfoOf(exprs, us[0])] + InfosOf(exprs, us[1..])
  }

  /** The values the columns of the SET list are to receive: each its own. */
  function OwnValues(exprs: Exprs, fs: seq<ModelField>): seq<Value> {
    if fs == [] then []
    else (if AsField(exprs, fs[0]).virt.Stored? then [fs[0].value] else []) + OwnValues(exprs, fs[1..])
  }

  /** Each column's own value stands where the cursor finds it. */
  predicate InPlace(exprs: Exprs, fs: seq<ModelField>) {
    OwnValues(exprs, fs) <= ValuesOf(exprs, fs)
  }

  lemma {:induction false} OwnCount(exprs: Exprs, fs: seq<ModelField>)
    ensures |OwnValues(exprs, fs)| == StoredCount(FieldsOf(exprs, fs))
  {
    if fs != [] {
      OwnCount(exprs, fs[1..]);
      assert FieldsOf(exprs, fs)[1..] == FieldsOf(exprs, fs[1..]);
    }
  }

  /** Without a clash every value is in place. */
  lemma {:induction false} NoClashInPlace(exprs: Exprs, fs: seq<ModelField>)
    requires forall f :: f in fs ==> !Clash(exprs, f)
    ensures InPlace(exprs, fs) && OwnValues(exprs, fs) == ValuesOf(exprs, fs)
  {
    if fs != [] {
      assert fs[0] in fs && !Clash(exprs, fs[0]);
      NoClashInPlace(exprs, fs[1..]);
    }
  }

  /** The values a row is built with, or those its columns are meant to receive. */
  function ValuesFor(exprs: Exprs, fs: seq<ModelField>, meant: bool): (vs: seq<Value>)
    ensures StoredCount(FieldsOf(exprs, fs)) <= |vs|
  {
    CursorCounts(exprs, fs);
    OwnCount(exprs, fs);
    if meant then OwnValues(exprs, fs) else ValuesOf(exprs, fs)
  }

  predicate JoinsBound(u: Update) {
    forall j :: j in u.joins ==> JoinBound(j)
  }

  function SetListPieces(w: Writer, exprs: Exprs, fs: seq<ModelField>, meant: bool): seq<Piece> {
    RowPieces(SetPrinter(w), SetReader(w), Assign(w), FieldsOf(exprs, fs), ValuesFor(exprs, fs, meant), false)
  }

  function ObjectLost(w: Writer, exprs: Exprs, u: Update): nat {
    SetLost(SetReader(w), FieldsOf(exprs, Admitted(u.fields)))
    + (ListLost(JoinReader(WhereWriter(w)), u.joins) + ListLost(ClauseReader(WhereWriter(w).env), u.wheres))
  }

  function FilterPieces(w: Writer, u: Update): seq<Piece> {
    PiecesOfList(JoinReader(w), u.joins, "") + ClausePieces(" WHERE ", ClauseReader(w.env), u.wheres, " AND ")
  }

  /** One UPDATE with its values in place. */
  function ObjectPieces(w: Writer, head: string, exprs: Exprs, u: Update, meant: bool): seq<Piece> {
    (LitOf(head) + SetListPieces(w, exprs, Admitted(u.fields), meant)) + FilterPieces(WhereWriter(w), u)
  }

  lemma {:induction false} FieldsAssign(w: Writer, exprs: Exprs, fs: seq<ModelField>)
    ensures forall f :: f in FieldsOf(exprs, fs) ==>
              Holes(Assign(w)(f.column)) == 1 && SetReads(SetPrinter(w), SetReader(w), Assign(w), f)
  {
    if fs != [] {
      FieldsAssign(w, exprs, fs[1..]);
      AssignHasOneHole(w, fs[0].column);
      FieldSetReads(w, AsField(exprs, fs[0]));
    }
  }

  lemma {:induction false} SetListMeans(w: Writer, exprs: Exprs, fs: seq<ModelField>)
    requires SetCode(SetPrinter(w), FieldsOf(exprs, fs), ValuesOf(exprs, fs), false).Ok?
    ensures Means(SetCode(SetPrinter(w), FieldsOf(exprs, fs), ValuesOf(exprs, fs), false).value,
                  SetLost(SetReader(w), FieldsOf(exprs, fs)), SetListPieces(w, exprs, fs, false))
  {
    FieldsAssign(w, exprs, fs);
    CursorCounts(exprs, fs);
    RowMeans(SetPrinter(w), SetReader(w), Assign(w), FieldsOf(exprs, fs), ValuesOf(exprs, fs), false);
  }

  /** The SET list is the intended one exactly when each column's own value is in place. */
  lemma {:induction false} SetListIsMeant(w: Writer, exprs: Exprs, fs: seq<ModelField>)
    ensures |SetListPieces(w, exprs, fs, false)| == |SetListPieces(w, exprs, fs, true)|
    ensures SetListPieces(w, exprs, fs, false) == SetListPieces(w, exprs, fs, true) <==> InPlace(exprs, fs)
  {
    var vs, own := ValuesFor(exprs, fs, false), ValuesFor(exprs, fs, true);
    FieldsAssign(w, exprs, fs);
    OwnCount(exprs, fs);
    RowsAgree(SetPrinter(w), SetReader(w), Assign(w), FieldsOf(exprs, fs), vs, own, false);
    assert own[..|own|] == own;
    assert own <= vs <==> own == vs[..|own|];
  }

  lemma {:induction false} FiltersOfUpdate(w: Writer, u: Update)
    requires JoinsBound(u)
    requires ListCode(JoinPrinter(w), u.joins, "").Ok? && ClauseCode(" WHERE ", ClausePrinter(w.env), u.wheres, " AND ").Ok?
    ensures Means(Then(ListCode(JoinPrinter(w), u.joins, "").value, ClauseCode(" WHERE ", ClausePrinter(w.env), u.wheres, " AND ").value),
                  ListLost(JoinReader(w), u.joins) + ListLost(ClauseReader(w.env), u.wheres),
                  FilterPieces(w, u))
  {
    forall x | x in u.joins ensures ReadsAs(JoinPrinter(w), JoinReader(w), x) { JoinReads(w, x); }
    forall x | x in u.wheres ensures ReadsAs(ClausePrinter(w.env), ClauseReader(w.env), x) { ClauseReads(w.env, x); }
    ListReads(JoinPrinter(w), JoinReader(w), u.joins, "");
    ClauseMeans(" WHERE ", ClausePrinter(w.env), ClauseReader(w.env), u.wheres, " AND ");
    MeansThen(ListCode(JoinPrinter(w), u.joins, "").value, ListLost(JoinReader(w), u.joins), PiecesOfList(JoinReader(w), u.joins, ""),
              ClauseCode(" WHERE ", ClausePrinter(w.env), u.wheres, " AND ").value, ListLost(ClauseReader(w.env), u.wheres),
              ClausePieces(" WHERE ", ClauseReader(w.env), u.wheres, " AND "));
  }

  lemma {:induction false} AssembledMeans(head: string, s: Code, n: nat, sp: seq<Piece>, j: Code, c: Code, m: nat, fp: seq<Piece>)
    requires Means(s, n, sp) && Means(Then(j, c), m, fp)
    ensures Means(Then(Then(Then(Txt(head), s), j), c), n + m, (LitOf(head) + sp) + fp)
  {
    MeansWrapped(head, s, n, sp, "");
    MeansThen(Then(Txt(head), s), n, LitOf(head) + sp, Then(j, c), m, fp);
    ThenRegroups(Then(Txt(head), s), j, c);
  }

  lemma {:induction false} ObjectMeans(w: Writer, table: string, exprs: Exprs, u: Update)
    requires JoinsBound(u)
    requires UpdatePrinter(w, table)(InfoOf(exprs, u)).Ok?
    ensures Means(UpdatePrinter(w, table)(InfoOf(exprs, u)).value,
                  ObjectLost(w, exprs, u), ObjectPieces(w, UpdateHead(w.quote, table), exprs, u, false))
  {
    var fs, ww, head := Admitted(u.fields), WhereWriter(w), UpdateHead(w.quote, table);
    var setter, p := SetPrinter(w), CompilerPrinters(ww);
    assert UpdatePrinter(w, table)(InfoOf(exprs, u)) == ObjectCode(setter, p, head, InfoOf(exprs, u));
    SetListMeans(w, exprs, fs);
    FiltersOfUpdate(ww, u);
    AssembledMeans(head, SetCode(setter, FieldsOf(exprs, fs), ValuesOf(exprs, fs), false).value, SetLost(SetReader(w), FieldsOf(exprs, fs)),
                   SetListPieces(w, exprs, fs, false),
                   ListCode(p.join, u.joins, "").value, ClauseCode(" WHERE ", p.clause, u.wheres, " AND ").value,
                   ListLost(JoinReader(ww), u.joins) + ListLost(ClauseReader(ww.env), u.wheres), FilterPieces(ww, u));
  }

  /** How one object reads, and how many placeholders it loses. */
  function ObjectReader(w: Writer, table: string, exprs: Exprs, meant: bool): Reader<Update> {
    Reader((u: Update) => ObjectLost(w, exprs, u), (u: Update) => ObjectPieces(w, UpdateHead(w.quote, table), exprs, u, meant))
  }

  function ObjectsPieces(read: Reader<Update>, us: seq<Update>, written: bool): seq<Piece> {
    if us == [] then []
    else (LitOf(if written then "; " else "") + read.pieces(us[0])) + ObjectsPieces(read, us[1..], true)
  }

  predicate ObjectReads(printer: Printer<UpdateInfo>, read: Reader<Update>, exprs: Exprs, u: Update) {
    printer(InfoOf(exprs, u)).Ok? ==> Means(printer(InfoOf(exprs, u)).value, read.lost(u), read.pieces(u))
  }

  lemma {:induction false} ObjectsMean(printer: Printer<UpdateInfo>, read: Reader<Update>, exprs: Exprs, us: seq<Update>, written: bool)
    requires forall u :: u in us ==> ObjectReads(printer, read, exprs, u)
    requires ObjectsCode(printer, InfosOf(exprs, us), written).Ok?
    ensures Means(ObjectsCode(printer, InfosOf(exprs, us), written).value, ListLost(read, us), ObjectsPieces(read, us, written))
  {
    if us == [] {
      WordsMean([]);
    } else {
      assert InfosOf(exprs, us)[1..] == InfosOf(exprs, us[1..]);
      assert us[0] in us && ObjectReads(printer, read, exprs, us[0]);
      ObjectsMean(printer, read, exprs, us[1..], true);
      SetStep(if written then "; " else "", printer(InfoOf(exprs, us[0])).value, read.lost(us[0]), read.pieces(us[0]),
              ObjectsCode(printer, InfosOf(exprs, us[1..]), true).value, ListLost(read, us[1..]), ObjectsPieces(read, us[1..], true));
    }
  }

  /** The statement is the intended one exactly when in every object each column's own value is
      in place. */
  lemma {:induction false} ObjectsAreMeant(w: Writer, table: string, exprs: Exprs, us: seq<Update>, written: bool)
    ensures var built, meant := ObjectReader(w, table, exprs, false), ObjectReader(w, table, exprs, true);
            && ListLost(built, us) == ListLost(meant, us)
            && (ObjectsPieces(built, us, written) == ObjectsPieces(meant, us, written)
                <==> forall u :: u in us ==> InPlace(exprs, Admitted(u.fields)))
  {
    hide InPlace, SetListPieces, FilterPieces, LitOf, Admitted, ObjectLost, UpdateHead;
    if us != [] {
      var u, built, meant := us[0], ObjectReader(w, table, exprs, false), ObjectReader(w, table, exprs, true);
      var fs, head, semicolon := Admitted(u.fields), LitOf(UpdateHead(w.quote, table)), LitOf(if written then "; " else "");
      ObjectsAreMeant(w, table, exprs, us[1..], true);
      SetListIsMeant(w, exprs, fs);
      var a, b, filters := SetListPieces(w, exprs, fs, false), SetListPieces(w, exprs, fs, true), FilterPieces(WhereWriter(w), u);
      PartsAgree(head, head, a, b);
      PartsAgree(head + a, head + b, filters, filters);
      PartsAgree(semicolon, semicolon, built.pieces(u), meant.pieces(u));
      PartsAgree(semicolon + built.pieces(u), semicolon + meant.pieces(u), ObjectsPieces(built, us[1..], true), ObjectsPieces(meant, us[1..], true));
      assert u in us && forall x :: x in us ==> x == u || x in us[1..];
    }
  }

  function UpdatesUnmatched(us: seq<Update>): int {
    if us == [] then 0 else JoinsUnmatched(us[0].joins) + UpdatesUnmatched(us[1..])
  }

  lemma {:induction false} ObjectCounts(w: Writer, table: string, exprs: Exprs, u: Update)
    requires UpdatePrinter(w, table)(InfoOf(exprs, u)).Ok?
    ensures Surplus(UpdatePrinter(w, table)(InfoOf(exprs, u)).value) == ObjectLost(w, exprs, u) + JoinsUnmatched(u.joins)
  {
    hide SetCode, SetListPieces, ListCode, ClauseCode, Reads, SetLost, UpdateHead, Admitted;
    var ww, head, fs := WhereWriter(w), UpdateHead(w.quote, table), Admitted(u.fields);
    var setter, p := SetPrinter(w), CompilerPrinters(ww);
    assert UpdatePrinter(w, table)(InfoOf(exprs, u)) == ObjectCode(setter, p, head, InfoOf(exprs, u));
    var s := SetCode(setter, FieldsOf(exprs, fs), ValuesOf(exprs, fs), false).value;
    var j, c := ListCode(p.join, u.joins, "").value, ClauseCode(" WHERE ", p.clause, u.wheres, " AND ").value;
    SetListMeans(w, exprs, fs);
    JoinsSurplus(ww, u.joins);
    forall x | x in u.wheres ensures ReadsAs(p.clause, ClauseReader(ww.env), x) { ClauseReads(ww.env, x); }
    ClauseMeans(" WHERE ", p.clause, ClauseReader(ww.env), u.wheres, " AND ");
    NothingLost(JoinReader(ww), u.joins);
    NoSurplus(head);
    SurplusThen(Txt(head), s);
    SurplusThen(Then(Txt(head), s), j);
    SurplusThen(Then(Then(Txt(head), s), j), c);
  }

  lemma {:induction false} ObjectsCount(w: Writer, table: string, exprs: Exprs, us: seq<Update>, written: bool)
    requires ObjectsCode(UpdatePrinter(w, table), InfosOf(exprs, us), written).Ok?
    ensures Surplus(ObjectsCode(UpdatePrinter(w, table), InfosOf(exprs, us), written).value)
         == ListLost(ObjectReader(w, table, exprs, true), us) + UpdatesUnmatched(us)
  {
    hide UpdatePrinter, InfoOf, ObjectLost, ObjectPieces, Surplus, JoinsUnmatched;
    NoSurplus("");
    if us != [] {
      var printer, semicolon := UpdatePrinter(w, table), if written then "; " else "";
      var c, rest := printer(InfoOf(exprs, us[0])).value, ObjectsCode(printer, InfosOf(exprs, us[1..]), true).value;
      assert InfosOf(exprs, us)[1..] == InfosOf(exprs, us[1..]);
      ObjectCounts(w, table, exprs, us[0]);
      ObjectsCount(w, table, exprs, us[1..], true);
      NoSurplus(semicolon);
      SurplusThen(Txt(semicolon), c);
      SurplusThen(Then(Txt(semicolon), c), rest);
    }
  }

  lemma {:induction false} ObjectsRead(w: Writer, table: string, exprs: Exprs, us: seq<Update>)
    requires forall u :: u in us ==> JoinsBound(u)
    requires ObjectsCode(UpdatePrinter(w, table), InfosOf(exprs, us), false).Ok?
    ensures var c, meant := ObjectsCode(UpdatePrinter(w, table), InfosOf(exprs, us), false).value, ObjectReader(w, table, exprs, true);
            Reads(c, ObjectsPieces(meant, us, false))
            <==> ListLost(meant, us) == 0 && forall u :: u in us ==> InPlace(exprs, Admitted(u.fields))
  {
    hide ObjectsPieces, ObjectPieces, ObjectsCode, UpdatePrinter, InfosOf, InPlace;
    var built := ObjectReader(w, table, exprs, false);
    forall u | u in us ensures ObjectReads(UpdatePrinter(w, table), built, exprs, u) {
      if UpdatePrinter(w, table)(InfoOf(exprs, u)).Ok? {
        ObjectMeans(w, table, exprs, u);
      }
    }
    ObjectsMean(UpdatePrinter(w, table), built, exprs, us, false);
    ObjectsAreMeant(w, table, exprs, us, false);
  }

  lemma {:induction false} NothingUnmatched(us: seq<Update>)
    requires forall u :: u in us ==> JoinsBound(u)
    ensures UpdatesUnmatched(us) == 0
  {
    if us != [] {
      assert JoinsBound(us[0]);
      AllBound(us[0].joins);
      NothingUnmatched(us[1..]);
    }
  }

  /** For every multi-object UPDATE that compiles: the arguments outnumber the placeholders by
      exactly the values its expressions lose, and those the raw SQL of its joins brings beyond
      its placeholders.  When that SQL brings what it asks for, then over all objects each
      plain column's placeholder receives the value of that column and each expression its own
      values exactly when nothing is lost and no value is out of place. */
  lemma {:induction false} UpdateLinesUp(w: Writer, table: string, exprs: Exprs, us: seq<Update>)
    requires ObjectsCode(UpdatePrinter(w, table), InfosOf(exprs, us), false).Ok?
    ensures var c, meant := ObjectsCode(UpdatePrinter(w, table), InfosOf(exprs, us), false).value, ObjectReader(w, table, exprs, true);
            && |c.args| == Holes(c.text) + ListLost(meant, us) + UpdatesUnmatched(us)
            && ((forall u :: u in us ==> JoinsBound(u)) ==>
                  && UpdatesUnmatched(us) == 0
                  && (Reads(c, ObjectsPieces(meant, us, false))
                      <==> ListLost(meant, us) == 0 && forall u :: u in us ==> InPlace(exprs, Admitted(u.fields))))
  {
    hide ObjectsPieces, ObjectPieces, ObjectsCode, UpdatePrinter, InfosOf, InPlace, Reads, JoinsBound, UpdatesUnmatched, ListLost;
    ObjectsCount(w, table, exprs, us, false);
    if forall u :: u in us ==> JoinsBound(u) {
      NothingUnmatched(us);
      ObjectsRead(w, table, exprs, us);
    }
  }

  /** For the library's own fields nothing is ever out of place. */
  lemma {:induction false} LibraryUpdateLinesUp(w: Writer, table: string, exprs: Exprs, us: seq<Update>)
    requires forall u :: u in us ==> JoinsBound(u) && LibraryFields(u.fields)
    requires ObjectsCode(UpdatePrinter(w, table), InfosOf(exprs, us), false).Ok?
    ensures var c, meant := ObjectsCode(UpdatePrinter(w, table), InfosOf(exprs, us), false).value, ObjectReader(w, table, exprs, true);
            Reads(c, ObjectsPieces(meant, us, false)) <==> ListLost(meant, us) == 0
  {
    UpdateLinesUp(w, table, exprs, us);
    forall u | u in us ensures InPlace(exprs, Admitted(u.fields)) {
      LibraryFieldsDoNotClash(exprs, u.fields);
      NoClashInPlace(exprs, Admitted(u.fields));
    }
  }
}
