/** A resolved raw statement as code: when its arguments belong to its placeholders. */
module RawCode {
  import opened Outcomes
  import opened SqlText
  import opened RawStatement

  /** Text as it is written. */
  function Written(text: seq<Token>): string {
    if text == [] then ""
    else (match text[0] case Text(s) => s case Hole => "?") + Written(text[1..])
  }

  lemma {:induction false} WrittenThen(a: seq<Token>, b: seq<Token>)
    ensures Written(a + b) == Written(a) + Written(b)
  {
    if a == [] {
      assert a + b == b;
    } else {
      assert (a + b)[1..] == a[1..] + b;
      WrittenThen(a[1..], b);
    }
  }

  /** The columns as the statement formats them. */
  function ColumnsOf(codes: seq<Aligned>): seq<Column> {
    seq(|codes|, i requires 0 <= i < |codes| => Column(Written(codes[i].text), codes[i].args))
  }

  function Counts(codes: seq<Aligned>): seq<nat> {
    seq(|codes|, i requires 0 <= i < |codes| => |codes[i].args|)
  }

  function AllArgs(codes: seq<Aligned>): seq<Value> {
    if codes == [] then [] else codes[0].args + AllArgs(codes[1..])
  }

  lemma {:induction false} ArgsGathered(codes: seq<Aligned>)
    ensures ArgsOf(ColumnsOf(codes)) == AllArgs(codes)
  {
    if codes != [] {
      ArgsGathered(codes[1..]);
      ArgsFirst(ColumnsOf(codes));
      assert ColumnsOf(codes)[1..] == ColumnsOf(codes[1..]);
    }
  }

  lemma {:induction false} ArgsFirst(cs: seq<Column>)
    requires cs != []
    ensures ArgsOf(cs) == cs[0].args + ArgsOf(cs[1..])
    decreases |cs|
  {
    var n := |cs| - 1;
    if n > 0 {
      ArgsFirst(cs[..n]);
      assert cs[..n][1..] == cs[1..][..n - 1];
    } else {
      assert cs[..0] == cs[1..];
    }
  }

  /** The text of a statement: columns and tables put in, and a placeholder for every value. */
  function TextOf(gs: seq<Segment>, codes: seq<Aligned>, tables: seq<string>): seq<Token>
    requires |codes| == Count(FieldKind, gs) && |tables| == Count(TableKind, gs)
  {
    if gs == [] then []
    else match gs[0]
      case Char(c) => [if c == '?' then Hole else Text([c])] + TextOf(gs[1..], codes, tables)
      case Mark(FieldKind, _) => codes[0].text + TextOf(gs[1..], codes[1..], tables)
      case Mark(TableKind, _) => [Text(tables[0])] + TextOf(gs[1..], codes, tables[1..])
      case Mark(ValueKind, _) => [Hole] + TextOf(gs[1..], codes, tables)
  }

  /** What the statement says: every column with its own arguments, every other placeholder with
      the value that is its turn. */
  function Says(gs: seq<Segment>, codes: seq<Aligned>, tables: seq<string>, values: seq<Value>): seq<Piece>
    requires |codes| == Count(FieldKind, gs) && |tables| == Count(TableKind, gs) && |values| == HoleCount(gs)
  {
    if gs == [] then []
    else match gs[0]
      case Char(c) =>
        if c == '?' then [Bound(values[0])] + Says(gs[1..], codes, tables, values[1..])
        else [Lit([c])] + Says(gs[1..], codes, tables, values)
      case Mark(FieldKind, _) => Fill(codes[0].text, codes[0].args) + Says(gs[1..], codes[1..], tables, values)
      case Mark(TableKind, _) => [Lit(tables[0])] + Says(gs[1..], codes, tables[1..], values)
      case Mark(ValueKind, _) => [Bound(values[0])] + Says(gs[1..], codes, tables, values[1..])
  }

  lemma {:induction false} TextIsSubstituted(gs: seq<Segment>, codes: seq<Aligned>, tables: seq<string>)
    requires |codes| == Count(FieldKind, gs) && |tables| == Count(TableKind, gs)
    ensures Written(TextOf(gs, codes, tables)) == Substituted(gs, Texts(ColumnsOf(codes)), tables)
  {
    if gs != [] {
      if gs[0].Mark? && gs[0].kind.FieldKind? {
        TextIsSubstituted(gs[1..], codes[1..], tables);
        WrittenThen(codes[0].text, TextOf(gs[1..], codes[1..], tables));
        assert Texts(ColumnsOf(codes))[1..] == Texts(ColumnsOf(codes[1..]));
      } else if gs[0].Mark? && gs[0].kind.TableKind? {
        TextIsSubstituted(gs[1..], codes, tables[1..]);
      } else {
        TextIsSubstituted(gs[1..], codes, tables);
      }
    }
  }

  lemma {:induction false} HolesOfText(gs: seq<Segment>, codes: seq<Aligned>, tables: seq<string>)
    requires |codes| == Count(FieldKind, gs) && |tables| == Count(TableKind, gs)
    ensures Holes(TextOf(gs, codes, tables)) == |AllArgs(codes)| + HoleCount(gs)
  {
    if gs != [] {
      if gs[0].Mark? && gs[0].kind.FieldKind? {
        HolesOfText(gs[1..], codes[1..], tables);
        HolesOfConcat(codes[0].text, TextOf(gs[1..], codes[1..], tables));
      } else if gs[0].Mark? && gs[0].kind.TableKind? {
        HolesOfText(gs[1..], codes, tables[1..]);
      } else {
        HolesOfText(gs[1..], codes, tables);
      }
    }
  }

  lemma {:induction false} NoArgs(codes: seq<Aligned>)
    ensures AllArgs(codes) == [] <==> forall n :: n in Counts(codes) ==> n == 0
  {
    if codes != [] {
      NoArgs(codes[1..]);
      assert Counts(codes) == [|codes[0].args|] + Counts(codes[1..]) && |codes[0].args| in Counts(codes);
      assert forall n :: n in Counts(codes[1..]) ==> n in Counts(codes);
      assert |AllArgs(codes)| == |codes[0].args| + |AllArgs(codes[1..])|;
    }
  }

  /** No value is by chance an argument of a column, too. */
  predicate Unlike(codes: seq<Aligned>, values: seq<Value>) {
    forall v :: v in values ==> v !in AllArgs(codes)
  }

  /** The code of a resolved statement: the arguments of the columns, then the values. */
  function CodeOf(gs: seq<Segment>, codes: seq<Aligned>, tables: seq<string>, values: seq<Value>): Code
    requires |codes| == Count(FieldKind, gs) && |tables| == Count(TableKind, gs)
  {
    Code(TextOf(gs, codes, tables), AllArgs(codes) + values)
  }

  /** The code says what it should when no column that needs arguments comes after a placeholder
      for a value, and only then, unless values happen to be arguments of columns, too. */
  lemma {:induction false} CodeReads(gs: seq<Segment>, codes: seq<Aligned>, tables: seq<string>, values: seq<Value>)
    requires |codes| == Count(FieldKind, gs) && |tables| == Count(TableKind, gs) && |values| == HoleCount(gs)
    ensures ColumnsFirst(gs, Counts(codes)) ==> Reads(CodeOf(gs, codes, tables, values), Says(gs, codes, tables, values))
    ensures Unlike(codes, values) && Reads(CodeOf(gs, codes, tables, values), Says(gs, codes, tables, values)) ==> ColumnsFirst(gs, Counts(codes))
  {
    if gs == [] {
      assert Counts(codes) == [];
    } else if IsHole(gs[0]) {
      CodeReads(gs[1..], codes, tables, values[1..]);
      ValueReads(gs, codes, tables, values);
    } else if gs[0].Mark? && gs[0].kind.FieldKind? {
      CodeReads(gs[1..], codes[1..], tables, values);
      ColumnReads(gs, codes, tables, values);
      assert Counts(codes)[1..] == Counts(codes[1..]);
    } else {
      var later := if gs[0].Mark? then tables[1..] else tables;
      CodeReads(gs[1..], codes, later, values);
      TextReads(gs, codes, tables, values);
    }
  }

  lemma {:induction false} ValueReads(gs: seq<Segment>, codes: seq<Aligned>, tables: seq<string>, values: seq<Value>)
    requires |codes| == Count(FieldKind, gs) && |tables| == Count(TableKind, gs) && |values| == HoleCount(gs)
    requires gs != [] && IsHole(gs[0])
    ensures var now, later := Reads(CodeOf(gs, codes, tables, values), Says(gs, codes, tables, values)),
                              Reads(CodeOf(gs[1..], codes, tables, values[1..]), Says(gs[1..], codes, tables, values[1..]));
            if AllArgs(codes) == [] then now == later else Unlike(codes, values) ==> !now
    ensures AllArgs(codes) == [] <==> forall n :: n in Counts(codes) ==> n == 0
    ensures Unlike(codes, values) ==> Unlike(codes, values[1..])
  {
    NoArgs(codes);
    HolesOfText(gs, codes, tables);
    HolesOfText(gs[1..], codes, tables);
    var args, rest := AllArgs(codes) + values, TextOf(gs[1..], codes, tables);
    assert ([Hole] + rest)[1..] == rest;
    if AllArgs(codes) == [] {
      assert args == values && AllArgs(codes) + values[1..] == values[1..];
      SamePrefix([Bound(values[0])], Fill(rest, values[1..]), Says(gs[1..], codes, tables, values[1..]));
    } else {
      assert args[0] == AllArgs(codes)[0] && args[0] in AllArgs(codes) && values[0] in values;
      assert Fill([Hole] + rest, args)[0] == Bound(args[0]);
    }
  }

  lemma {:induction false} ColumnReads(gs: seq<Segment>, codes: seq<Aligned>, tables: seq<string>, values: seq<Value>)
    requires |codes| == Count(FieldKind, gs) && |tables| == Count(TableKind, gs) && |values| == HoleCount(gs)
    requires gs != [] && gs[0].Mark? && gs[0].kind.FieldKind?
    ensures Reads(CodeOf(gs, codes, tables, values), Says(gs, codes, tables, values))
              == Reads(CodeOf(gs[1..], codes[1..], tables, values), Says(gs[1..], codes[1..], tables, values))
    ensures Unlike(codes, values) ==> Unlike(codes[1..], values)
  {
    HolesOfText(gs[1..], codes[1..], tables);
    var rest, args := TextOf(gs[1..], codes[1..], tables), AllArgs(codes[1..]) + values;
    assert AllArgs(codes) + values == codes[0].args + args;
    FillOfConcat(codes[0].text, codes[0].args, rest, args);
    SamePrefix(Fill(codes[0].text, codes[0].args), Fill(rest, args), Says(gs[1..], codes[1..], tables, values));
  }

  lemma {:induction false} TextReads(gs: seq<Segment>, codes: seq<Aligned>, tables: seq<string>, values: seq<Value>)
    requires |codes| == Count(FieldKind, gs) && |tables| == Count(TableKind, gs) && |values| == HoleCount(gs)
    requires gs != [] && !IsHole(gs[0]) && (gs[0].Mark? ==> gs[0].kind.TableKind?)
    ensures var later := if gs[0].Mark? then tables[1..] else tables;
            Reads(CodeOf(gs, codes, tables, values), Says(gs, codes, tables, values))
              == Reads(CodeOf(gs[1..], codes, later, values), Says(gs[1..], codes, later, values))
  {
    var later := if gs[0].Mark? then tables[1..] else tables;
    var rest, args := TextOf(gs[1..], codes, later), AllArgs(codes) + values;
    HolesOfText(gs[1..], codes, later);
    assert TextOf(gs, codes, tables)[1..] == rest;
    SamePrefix([Lit(TextOf(gs, codes, tables)[0].s)], Fill(rest, args), Says(gs[1..], codes, later, values));
  }

  lemma {:induction false} SamePrefix(a: seq<Piece>, b: seq<Piece>, c: seq<Piece>)
    ensures a + b == a + c <==> b == c
  {
    if a + b == a + c {
      assert (a + b)[|a|..] == b && (a + c)[|a|..] == c;
    }
  }

  /** The texts of columns and tables, put into a statement whose markers do not hide others, give
      the text of the code.  The code may stand in an expression exactly when there is a value for
      each placeholder; it then says what it should when columns with arguments come first. */
  lemma {:induction false} RawExpression(s: string, given: seq<Value>, codes: seq<Aligned>, tables: seq<string>)
    requires forall b :: b in FindAll(ValueKind, s) ==> IndexOk(b, |given|)
    requires |codes| == Count(FieldKind, Lex(s)) && |tables| == Count(TableKind, Lex(s))
    requires |codes| == |FindAll(FieldKind, s)| && |tables| == |FindAll(TableKind, s)|
    ensures var values := Picked(FindAll(ValueKind, s), given);
            var code := CodeOf(Lex(s), codes, tables, values);
            && code.args == ArgsOf(ColumnsOf(codes)) + values
            && (Rendered(s, ColumnsOf(codes), tables) == Some(Written(code.text)) <==>
                  if codes == [] && tables == [] then !HasPercent(Lex(s)) else NoPercent(Texts(ColumnsOf(codes))))
            && (Balanced(code) <==> HoleCount(Lex(s)) == |values|)
            && (Balanced(code) ==>
                  var says := Says(Lex(s), codes, tables, values);
                  && (ColumnsFirst(Lex(s), Counts(codes)) ==> Reads(code, says))
                  && (Unlike(codes, values) && Reads(code, says) ==> ColumnsFirst(Lex(s), Counts(codes))))
  {
    RawStatementRenders(s, given, ColumnsOf(codes), tables);
    TextIsSubstituted(Lex(s), codes, tables);
    HolesOfText(Lex(s), codes, tables);
    ArgsGathered(codes);
    var values := Picked(FindAll(ValueKind, s), given);
    if HoleCount(Lex(s)) == |values| {
      CodeReads(Lex(s), codes, tables, values);
    }
  }
}
