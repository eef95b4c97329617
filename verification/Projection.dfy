/** The columns a SELECT writes and the fields its rows are scanned into: two walks over the same
    selection that must agree. */
module Projection {
  import opened Outcomes
  import DedupeForest

  type RelType = DedupeForest.RelType
  type Model = int

  /** A selected field; a virtual one has text of its own, which may be empty. */
  datatype FieldDef = FieldDef(name: string, column: string, virt: Option<string>)

  /** The table between, with all its fields. */
  datatype Through = Through(model: Model, alias: string, fields: seq<FieldDef>)

  /** Selected fields of one table. Without a source field they belong to the root, and without a
      model as well they are annotations. */
  datatype Info = Info(model: Option<Model>, relType: RelType, hasSource: bool, alias: string, chain: seq<string>,
                       fields: seq<FieldDef>, through: Option<Through>)

  /** One place in a row: a field of a table, reached by a chain of relations; a free one is an
      annotation, which belongs to no object. */
  datatype Cell = Cell(alias: string, field: FieldDef, isThrough: bool, chain: seq<string>, free: bool)

  function CellsFor(alias: string, fields: seq<FieldDef>, isThrough: bool, chain: seq<string>, owned: bool): seq<Cell> {
    seq(|fields|, i requires 0 <= i < |fields| => Cell(alias, fields[i], isThrough, chain, !owned && fields[i].virt.Some?))
  }

  function ThroughCells(info: Info): seq<Cell> {
    if info.through.Some? then CellsFor(info.through.value.alias, info.through.value.fields, true, [], true) else []
  }

  function LeafCells(info: Info): seq<Cell> {
    CellsFor(info.alias, info.fields, false, if info.hasSource then info.chain else [], info.hasSource || info.model.Some?)
  }

  function CellsOf(info: Info): seq<Cell> {
    ThroughCells(info) + LeafCells(info)
  }

  function AllCells(infos: seq<Info>): seq<Cell>
    decreases |infos|
  {
    if infos == [] then []
    else
      var n := |infos| - 1;
      AllCells(infos[..n]) + CellsOf(infos[n])
  }

  // ----- writing -----

  datatype Token = Comma | Column(cell: Cell)

  /** A virtual field without text writes nothing. */
  predicate Renders(c: Cell) {
    c.field.virt != Some("")
  }

  predicate AnyRenders(cells: seq<Cell>) {
    exists i :: 0 <= i < |cells| && Renders(cells[i])
  }

  predicate AllRender(cells: seq<Cell>) {
    forall i :: 0 <= i < |cells| ==> Renders(cells[i])
  }

  /** A comma before every field after the first that was written, even when that field then
      writes nothing. */
  function Tokens(cells: seq<Cell>): seq<Token>
    decreases |cells|
  {
    if cells == [] then []
    else
      var n := |cells| - 1;
      Tokens(cells[..n]) + (if AnyRenders(cells[..n]) then [Comma] else []) + (if Renders(cells[n]) then [Column(cells[n])] else [])
  }

  function SelectList(infos: seq<Info>): seq<Token>
    decreases |infos|
  {
    if infos == [] then []
    else
      var n := |infos| - 1;
      SelectList(infos[..n]) + (if n > 0 then [Comma] else []) + Tokens(CellsOf(infos[n]))
  }

  method WriteCells(sb: seq<Token>, written: bool, cells: seq<Cell>, ghost start: seq<Token>, ghost before: seq<Cell>)
      returns (text: seq<Token>, wrote: bool)
    requires (written <==> AnyRenders(before)) && sb == start + Tokens(before)
    ensures (wrote <==> AnyRenders(before + cells)) && text == start + Tokens(before + cells)
  {
    text, wrote := sb, written;
    assert before + cells[..0] == before;
    for k := 0 to |cells|
      invariant (wrote <==> AnyRenders(before + cells[..k])) && text == start + Tokens(before + cells[..k])
    {
      text, wrote := WriteCell(text, wrote, cells[k], start, before + cells[..k]);
      assert before + cells[..k] + [cells[k]] == before + cells[..k + 1];
    }
    assert cells[..|cells|] == cells;
  }

  method WriteCell(sb: seq<Token>, written: bool, cell: Cell, ghost start: seq<Token>, ghost cells: seq<Cell>)
      returns (text: seq<Token>, wrote: bool)
    requires (written <==> AnyRenders(cells)) && sb == start + Tokens(cells)
    ensures (wrote <==> AnyRenders(cells + [cell])) && text == start + Tokens(cells + [cell])
  {
    OneCell(cells, cell);
    text, wrote := sb, written;
    if wrote {
      text := text + [Comma];
    }
    if Renders(cell) {
      text, wrote := text + [Column(cell)], true;
    }
  }

  lemma {:induction false} OneCell(cells: seq<Cell>, c: Cell)
    ensures Tokens(cells + [c]) == Tokens(cells) + (if AnyRenders(cells) then [Comma] else []) + (if Renders(c) then [Column(c)] else [])
    ensures AnyRenders(cells + [c]) <==> AnyRenders(cells) || Renders(c)
  {
    var all, n := cells + [c], |cells|;
    assert all[..n] == cells && all[n] == c;
    AnyMore(cells, c);
  }

  lemma {:induction false} AnyMore(cells: seq<Cell>, c: Cell)
    ensures AnyRenders(cells + [c]) <==> AnyRenders(cells) || Renders(c)
  {
    var all, n := cells + [c], |cells|;
    assert forall i :: 0 <= i < n ==> all[i] == cells[i];
    assert all[n] == c;
  }

  /** The fields of one table, those of the table between first. */
  method WriteFields(sb: seq<Token>, info: Info) returns (text: seq<Token>)
    ensures text == sb + Tokens(CellsOf(info))
  {
    var written := false;
    text := sb;
    if info.through.Some? {
      text, written := WriteCells(text, written, ThroughCells(info), sb, []);
      assert [] + ThroughCells(info) == ThroughCells(info);
    }
    text, written := WriteCells(text, written, LeafCells(info), sb, ThroughCells(info));
  }

  method WriteSelectList(infos: seq<Info>) returns (sb: seq<Token>)
    ensures sb == SelectList(infos)
  {
    sb := [];
    for k := 0 to |infos|
      invariant sb == SelectList(infos[..k])
    {
      assert infos[..k + 1][..k] == infos[..k];
      if k > 0 {
        sb := sb + [Comma];
      }
      sb := WriteFields(sb, infos[k]);
    }
    assert infos[..|infos|] == infos;
  }

  // ----- reading the list back -----

  /** Columns with a comma between each two. */
  function ReadColumns(ts: seq<Token>): Option<seq<Cell>>
    decreases |ts|
  {
    var n := |ts|;
    if n == 0 || ts[n - 1].Comma? then None
    else if n == 1 then Some([ts[0].cell])
    else if ts[n - 2].Column? then None
    else match ReadColumns(ts[..n - 2])
      case None => None
      case Some(before) => Some(before + [ts[n - 1].cell])
  }

  function Commas(ts: seq<Token>): nat
    decreases |ts|
  {
    if ts == [] then 0 else Commas(ts[..|ts| - 1]) + (if ts[|ts| - 1].Comma? then 1 else 0)
  }

  lemma {:induction false} CommasThen(a: seq<Token>, b: seq<Token>)
    ensures Commas(a + b) == Commas(a) + Commas(b)
    decreases |b|
  {
    if b == [] {
      assert a + b == a;
    } else {
      var init := b[..|b| - 1];
      CommasThen(a, init);
      assert (a + b)[..|a + b| - 1] == a + init;
    }
  }

  /** What can be read has one comma less than columns. */
  lemma {:induction false} ReadCounts(ts: seq<Token>)
    requires ReadColumns(ts).Some?
    ensures |ts| == 2 * |ReadColumns(ts).value| - 1 && Commas(ts) == |ReadColumns(ts).value| - 1
    decreases |ts|
  {
    var n := |ts|;
    if n == 1 {
      assert ts[..0] == [];
    } else {
      ReadCounts(ts[..n - 2]);
      assert ts[..n - 1][..n - 2] == ts[..n - 2];
    }
  }

  lemma {:induction false} ReadThen(a: seq<Token>, b: seq<Token>)
    requires ReadColumns(a).Some? && ReadColumns(b).Some?
    ensures ReadColumns(a + [Comma] + b) == Some(ReadColumns(a).value + ReadColumns(b).value)
    decreases |b|
  {
    var ts, n := a + [Comma] + b, |a| + 1 + |b|;
    if |b| == 1 {
      assert ts[..n - 2] == a;
    } else {
      var m := |b| - 2;
      var init, last := b[..m], b[m + 1];
      ReadThen(a, init);
      assert ts[..n - 2] == a + [Comma] + init && ts[n - 2] == b[m] && ts[n - 1] == last;
      assert ReadColumns(a).value + ReadColumns(init).value + [last.cell] == ReadColumns(a).value + (ReadColumns(init).value + [last.cell]);
    }
  }

  function Rendered(cells: seq<Cell>): nat
    decreases |cells|
  {
    if cells == [] then 0 else Rendered(cells[..|cells| - 1]) + (if Renders(cells[|cells| - 1]) then 1 else 0)
  }

  lemma {:induction false} RenderedAll(cells: seq<Cell>)
    ensures Rendered(cells) <= |cells| && (Rendered(cells) == |cells| <==> AllRender(cells))
    decreases |cells|
  {
    if cells != [] {
      var n := |cells| - 1;
      RenderedAll(cells[..n]);
      assert AllRender(cells) <==> AllRender(cells[..n]) && Renders(cells[n]) by {
        if AllRender(cells[..n]) && Renders(cells[n]) {
          forall i | 0 <= i < |cells| ensures Renders(cells[i]) {
            assert i < n ==> cells[..n][i] == cells[i];
          }
        }
      }
    }
  }

  lemma {:induction false} CommasOne(t: Token)
    ensures Commas([t]) == if t.Comma? then 1 else 0
  {
    assert [t][..0] == [];
  }

  lemma {:induction false} FirstRenders(cells: seq<Cell>)
    requires AllRender(cells) && cells != []
    ensures AnyRenders(cells)
  {
    assert Renders(cells[0]);
  }

  /** How many columns and commas the fields of one table write. */
  lemma {:induction false} TokenCounts(cells: seq<Cell>)
    ensures |Tokens(cells)| == Commas(Tokens(cells)) + Rendered(cells)
    ensures AllRender(cells) ==> Commas(Tokens(cells)) == if cells == [] then 0 else |cells| - 1
    decreases |cells|
  {
    if cells != [] {
      var n := |cells| - 1;
      var init, last := cells[..n], cells[n];
      var comma, column := if AnyRenders(init) then [Comma] else [], if Renders(last) then [Column(last)] else [];
      TokenCounts(init);
      CommasThen(Tokens(init) + comma, column);
      CommasThen(Tokens(init), comma);
      CommasOne(Comma);
      CommasOne(Column(last));
      if AllRender(cells) && n > 0 {
        FirstRenders(init);
      }
    }
  }

  lemma {:induction false} TokensRead(cells: seq<Cell>)
    requires AllRender(cells) && cells != []
    ensures ReadColumns(Tokens(cells)) == Some(cells)
    decreases |cells|
  {
    var n := |cells| - 1;
    var init, last := cells[..n], cells[n];
    var column := [Column(last)];
    assert ReadColumns(column) == Some([last]);
    if n == 0 {
      assert Tokens(cells) == column && cells == [last];
    } else {
      TokensRead(init);
      FirstRenders(init);
      ReadThen(Tokens(init), column);
      assert init + [last] == cells;
    }
  }

  predicate AllWrite(infos: seq<Info>) {
    forall k :: 0 <= k < |infos| ==> AllRender(CellsOf(infos[k]))
  }

  predicate NoneEmpty(infos: seq<Info>) {
    forall k :: 0 <= k < |infos| ==> CellsOf(infos[k]) != []
  }

  /** Every table selects a field, and every field writes something. */
  predicate Complete(infos: seq<Info>) {
    infos != [] && AllWrite(infos) && NoneEmpty(infos)
  }

  lemma {:induction false} WritesLast(infos: seq<Info>, n: nat)
    requires |infos| == n + 1
    ensures AllWrite(infos) <==> AllWrite(infos[..n]) && AllRender(CellsOf(infos[n]))
    ensures NoneEmpty(infos) <==> NoneEmpty(infos[..n]) && CellsOf(infos[n]) != []
  {
    var init := infos[..n];
    assert infos == init + [infos[n]];
  }

  lemma {:induction false} ListLast(infos: seq<Info>, n: nat)
    requires |infos| == n + 1
    ensures var before, last := SelectList(infos[..n]), Tokens(CellsOf(infos[n]));
            && |SelectList(infos)| == |before| + (if n > 0 then 1 else 0) + |last|
            && Commas(SelectList(infos)) == Commas(before) + (if n > 0 then 1 else 0) + Commas(last)
            && |AllCells(infos)| == |AllCells(infos[..n])| + |CellsOf(infos[n])|
  {
    var comma := if n > 0 then [Comma] else [];
    CommasThen(SelectList(infos[..n]) + comma, Tokens(CellsOf(infos[n])));
    CommasThen(SelectList(infos[..n]), comma);
    CommasOne(Comma);
  }

  lemma {:induction false} ListColumns(infos: seq<Info>)
    ensures |SelectList(infos)| - Commas(SelectList(infos)) <= |AllCells(infos)|
    ensures |SelectList(infos)| - Commas(SelectList(infos)) == |AllCells(infos)| <==> AllWrite(infos)
    decreases |infos|
  {
    if infos != [] {
      var n := |infos| - 1;
      ListColumns(infos[..n]);
      ListLast(infos, n);
      WritesLast(infos, n);
      TokenCounts(CellsOf(infos[n]));
      RenderedAll(CellsOf(infos[n]));
    }
  }

  lemma {:induction false} ListCommas(infos: seq<Info>)
    requires AllWrite(infos) && infos != []
    ensures Commas(SelectList(infos)) + 1 >= |AllCells(infos)|
    ensures Commas(SelectList(infos)) + 1 == |AllCells(infos)| <==> NoneEmpty(infos)
    decreases |infos|
  {
    var n := |infos| - 1;
    ListLast(infos, n);
    WritesLast(infos, n);
    TokenCounts(CellsOf(infos[n]));
    if n > 0 {
      ListCommas(infos[..n]);
    } else {
      assert infos[..n] == [];
    }
  }

  lemma {:induction false} CompleteReads(infos: seq<Info>)
    requires Complete(infos)
    ensures ReadColumns(SelectList(infos)) == Some(AllCells(infos))
    decreases |infos|
  {
    var n := |infos| - 1;
    var last := Tokens(CellsOf(infos[n]));
    TokensRead(CellsOf(infos[n]));
    if n > 0 {
      WritesLast(infos, n);
      CompleteReads(infos[..n]);
      ReadThen(SelectList(infos[..n]), last);
    } else {
      assert infos[..n] == [];
      assert SelectList(infos) == last;
      assert AllCells(infos) == CellsOf(infos[n]);
    }
  }

  /** The written list reads as exactly one column for every selected field, in order, if and only
      if every table selects at least one field and every virtual field writes something. */
  lemma {:induction false} ListReadsExactly(infos: seq<Info>)
    ensures ReadColumns(SelectList(infos)) == Some(AllCells(infos)) <==> Complete(infos)
  {
    if Complete(infos) {
      CompleteReads(infos);
    } else if ReadColumns(SelectList(infos)) == Some(AllCells(infos)) {
      ReadCounts(SelectList(infos));
      ListColumns(infos);
      if infos != [] {
        ListCommas(infos);
      }
    }
  }

  /** The executor counts a column for every field. */
  method AmountOfColumns(infos: seq<Info>) returns (n: nat)
    ensures n == |AllCells(infos)|
  {
    n := 0;
    for k := 0 to |infos|
      invariant n == |AllCells(infos[..k])|
    {
      assert infos[..k + 1][..k] == infos[..k];
      if infos[k].through.Some? {
        n := n + |infos[k].through.value.fields|;
      }
      n := n + |infos[k].fields|;
    }
    assert infos[..|infos|] == infos;
  }

  // ----- scanning -----

  /** The fields of each model, with the model a relation leads to; and the primary fields. */
  datatype Schema = Schema(fields: map<(Model, string), Option<(RelType, Model)>>, primary: Model -> string)

  /** A place a column is scanned into, or a relation on the way there. The key is the chain so
      far. */
  datatype Scan = Scan(idx: int, name: string, model: Option<Model>, relType: RelType, isThrough: bool, through: Option<Model>,
                       key: seq<string>, src: Option<Scan>)

  /** The i-th place is that of a cell. */
  predicate FitsCell(p: Scan, i: nat, c: Cell) {
    && p.idx == i && p.name == c.field.name && p.isThrough == c.isThrough && p.key == c.chain && (p.model.None? <==> c.free)
    && (p.key == [] && !p.isThrough ==> p.relType == DedupeForest.NoRelation)
  }

  predicate ScansCells(scans: seq<Scan>, cells: seq<Cell>) {
    |scans| == |cells| && forall i :: 0 <= i < |scans| ==> FitsCell(scans[i], i, cells[i])
  }

  /** One more place, for the next field of a table. */
  lemma {:induction false} PlaceAdded(scans: seq<Scan>, cells: seq<Cell>, alias: string, fields: seq<FieldDef>, isThrough: bool,
                                      chain: seq<string>, owned: bool, k: nat, p: Scan)
    requires k < |fields| && ScansCells(scans, cells + CellsFor(alias, fields[..k], isThrough, chain, owned))
    requires FitsCell(p, |scans|, Cell(alias, fields[k], isThrough, chain, !owned && fields[k].virt.Some?))
    ensures ScansCells(scans + [p], cells + CellsFor(alias, fields[..k + 1], isThrough, chain, owned))
  {
    var now := CellsFor(alias, fields[..k], isThrough, chain, owned);
    var cell := Cell(alias, fields[k], isThrough, chain, !owned && fields[k].virt.Some?);
    assert CellsFor(alias, fields[..k + 1], isThrough, chain, owned) == now + [cell];
    assert cells + (now + [cell]) == (cells + now) + [cell];
  }

  /** The way up ends at a field of the root. */
  predicate Rooted(p: Scan) {
    p.relType == DedupeForest.NoRelation || (p.src.Some? && Rooted(p.src.value))
  }

  /** The way up goes through every relation of the chain. */
  predicate Follows(p: Scan) {
    p.key != [] ==>
      var n := |p.key| - 1;
      && p.relType != DedupeForest.NoRelation
      && if n > 0 then p.src.Some? && p.src.value.key == p.key[..n] && Follows(p.src.value)
         else p.src.Some? ==> RootScan(p.src)
  }

  /** A field of the root that chains may end in. */
  predicate RootScan(p: Option<Scan>) {
    p.Some? ==> p.value.key == [] && p.value.relType == DedupeForest.NoRelation && !p.value.isThrough && p.value.src.None?
  }

  lemma {:induction false} NothingPlaced(scans: seq<Scan>, cells: seq<Cell>, alias: string, fields: seq<FieldDef>, isThrough: bool,
                                         chain: seq<string>, owned: bool)
    requires ScansCells(scans, cells)
    ensures ScansCells(scans, cells + CellsFor(alias, fields[..0], isThrough, chain, owned))
  {
    assert cells + CellsFor(alias, fields[..0], isThrough, chain, owned) == cells;
  }

  method AddThrough(s: Schema, t: Through, relType: RelType, scans: seq<Scan>, ghost cells: seq<Cell>) returns (r: Result<seq<Scan>>)
    requires ScansCells(scans, cells)
    ensures r.Ok? <==> forall i :: 0 <= i < |t.fields| ==> (t.model, t.fields[i].name) in s.fields
    ensures r.Ok? ==> scans <= r.value && ScansCells(r.value, cells + CellsFor(t.alias, t.fields, true, [], true))
    ensures r.Ok? ==> forall i :: |scans| <= i < |r.value| ==> r.value[i].key == []
  {
    hide ScansCells, CellsFor;
    var out := scans;
    NothingPlaced(scans, cells, t.alias, t.fields, true, [], true);
    for k := 0 to |t.fields|
      invariant scans <= out && ScansCells(out, cells + CellsFor(t.alias, t.fields[..k], true, [], true))
      invariant forall i :: |scans| <= i < |out| ==> out[i].key == []
      invariant forall i :: 0 <= i < k ==> (t.model, t.fields[i].name) in s.fields
    {
      if (t.model, t.fields[k].name) !in s.fields {
        return Panic;
      }
      var p := Scan(|out|, t.fields[k].name, Some(t.model), relType, true, None, [], None);
      PlaceAdded(out, cells, t.alias, t.fields, true, [], true, k, p);
      out := out + [p];
    }
    assert t.fields[..|t.fields|] == t.fields;
    return Ok(out);
  }

  predicate IsAnnotation(info: Info, f: FieldDef) {
    f.virt.Some? && info.model.None?
  }

  /** The info selects the primary field of the root. */
  predicate HasRoot(s: Schema, root: Model, info: Info) {
    !info.hasSource && KeyAmong(s, root, info, |info.fields|)
  }

  /** One of the first `n` fields is the primary field of the root. */
  predicate KeyAmong(s: Schema, root: Model, info: Info, n: nat)
    requires n <= |info.fields|
  {
    exists i :: 0 <= i < n && IsKey(s, root, info, info.fields[i])
  }

  predicate IsKey(s: Schema, root: Model, info: Info, f: FieldDef) {
    !IsAnnotation(info, f) && f.name == s.primary(root)
  }

  lemma {:induction false} KeyNext(s: Schema, root: Model, info: Info, k: nat)
    requires k < |info.fields|
    ensures KeyAmong(s, root, info, k + 1) <==> KeyAmong(s, root, info, k) || IsKey(s, root, info, info.fields[k])
  {
  }

  lemma {:induction false} NoKeyYet(s: Schema, root: Model, info: Info)
    ensures !KeyAmong(s, root, info, 0)
  {
  }

  method AddRootFields(s: Schema, root: Model, info: Info, through: Option<Model>, rootScan: Option<Scan>, scans: seq<Scan>, ghost cells: seq<Cell>)
      returns (r: Result<seq<Scan>>, seen: Option<Scan>)
    requires ScansCells(scans, cells) && !info.hasSource && RootScan(rootScan)
    ensures r.Ok? <==> forall i :: 0 <= i < |info.fields| ==> IsAnnotation(info, info.fields[i]) || (root, info.fields[i].name) in s.fields
    ensures r.Ok? ==> scans <= r.value && ScansCells(r.value, cells + LeafCells(info))
    ensures r.Ok? ==> forall i :: |scans| <= i < |r.value| ==> r.value[i].key == []
    ensures r.Ok? ==> RootScan(seen) && (seen.Some? <==> rootScan.Some? || HasRoot(s, root, info))
  {
    hide ScansCells, CellsFor, KeyAmong;
    var out := scans;
    seen := rootScan;
    NothingPlaced(scans, cells, info.alias, info.fields, false, [], info.model.Some?);
    NoKeyYet(s, root, info);
    for k := 0 to |info.fields|
      invariant scans <= out && ScansCells(out, cells + CellsFor(info.alias, info.fields[..k], false, [], info.model.Some?))
      invariant forall i :: |scans| <= i < |out| ==> out[i].key == []
      invariant forall i :: 0 <= i < k ==> IsAnnotation(info, info.fields[i]) || (root, info.fields[i].name) in s.fields
      invariant RootScan(seen)
      invariant seen.Some? <==> rootScan.Some? || KeyAmong(s, root, info, k)
    {
      var f := info.fields[k];
      KeyNext(s, root, info, k);
      if IsAnnotation(info, f) {
        var p := Scan(|out|, f.name, None, DedupeForest.NoRelation, false, None, [], None);
        PlaceAdded(out, cells, info.alias, info.fields, false, [], info.model.Some?, k, p);
        out := out + [p];
      } else {
        if (root, f.name) !in s.fields {
          return Panic, seen;
        }
        var sf := Scan(|out|, f.name, Some(root), DedupeForest.NoRelation, false, through, [], None);
        if f.name == s.primary(root) && seen.None? {
          seen := Some(sf);
        }
        PlaceAdded(out, cells, info.alias, info.fields, false, [], info.model.Some?, k, sf);
        out := out + [sf];
      }
    }
    assert info.fields[..|info.fields|] == info.fields;
    return Ok(out), seen;
  }

  /** The relations met so far, each with the model of its instance. */
  datatype Met = Met(instances: map<seq<string>, Model>, parents: map<seq<string>, Scan>)

  /** A relation knows its way up; whether it ends at the root depends on its first name. */
  ghost predicate Placed(key: seq<string>, p: Scan, linked: string -> bool) {
    && key != [] && p.key == key && !p.isThrough && Follows(p) && p.relType != DedupeForest.NoRelation
    && (Rooted(p) <==> linked(key[0]))
  }

  ghost predicate Sound(m: Met, linked: string -> bool) {
    && (forall key :: key in m.instances <==> key in m.parents)
    && (forall key :: key in m.parents ==> Placed(key, m.parents[key], linked))
  }

  /** Relations lead somewhere by some kind of relation. */
  ghost predicate Related(s: Schema) {
    forall k :: k in s.fields && s.fields[k].Some? ==> s.fields[k].value.0 != DedupeForest.NoRelation
  }

  /** The model a chain of relations leads to. */
  function Reach(s: Schema, root: Model, chain: seq<string>): Option<Model>
    decreases |chain|
  {
    if chain == [] then Some(root)
    else
      var n := |chain| - 1;
      match Reach(s, root, chain[..n])
      case None => None
      case Some(m) =>
        if (m, chain[n]) in s.fields && s.fields[(m, chain[n])].Some? then Some(s.fields[(m, chain[n])].value.1) else None
  }

  lemma {:induction false} ReachStops(s: Schema, root: Model, chain: seq<string>, k: nat)
    requires k <= |chain| && Reach(s, root, chain[..k]).None?
    ensures Reach(s, root, chain).None?
    decreases |chain|
  {
    var n := |chain| - 1;
    if k == n + 1 {
      assert chain[..k] == chain;
    } else {
      assert chain[..n][..k] == chain[..k];
      ReachStops(s, root, chain[..n], k);
    }
  }

  lemma {:induction false} ReachNext(s: Schema, root: Model, chain: seq<string>, i: nat)
    requires i < |chain|
    ensures i == 0 ==> Reach(s, root, chain[..i]) == Some(root)
    ensures i == |chain| - 1 ==> chain[..i + 1] == chain
    ensures Reach(s, root, chain[..i]).Some? ==>
              var link := (Reach(s, root, chain[..i]).value, chain[i]);
              && Reach(s, root, chain[..i + 1])
                 == (if link in s.fields && s.fields[link].Some? then Some(s.fields[link].value.1) else None)
              && LinkType(s, root, chain[..i + 1])
                 == (if link in s.fields && s.fields[link].Some? then Some(s.fields[link].value.0) else None)
  {
    var key := chain[..i + 1];
    assert key[..i] == chain[..i] && key[i] == chain[i];
  }

  /** The kind of the last relation of a chain. */
  function LinkType(s: Schema, root: Model, chain: seq<string>): Option<RelType> {
    if chain == [] then None
    else
      var n := |chain| - 1;
      match Reach(s, root, chain[..n])
      case None => None
      case Some(m) =>
        if (m, chain[n]) in s.fields && s.fields[(m, chain[n])].Some? then Some(s.fields[(m, chain[n])].value.0) else None
  }

  /** The instances met are those their chains lead to. */
  ghost predicate Known(s: Schema, root: Model, m: Met) {
    && (forall key :: key in m.instances ==> Reach(s, root, key) == Some(m.instances[key]))
    && (forall key :: key in m.parents ==> LinkType(s, root, key) == Some(m.parents[key].relType))
  }

  /** Every place of a relation is of the relation's kind. */
  ghost predicate Typed(s: Schema, root: Model, scans: seq<Scan>) {
    forall i :: 0 <= i < |scans| && scans[i].key != [] ==> LinkType(s, root, scans[i].key) == Some(scans[i].relType)
  }

  /** The info's model, if it has one, is the model its chain leads to. */
  predicate Honest(s: Schema, root: Model, info: Info) {
    info.model.Some? && Reach(s, root, info.chain).Some? ==> Reach(s, root, info.chain) == info.model
  }

  lemma {:induction false} NewPlace(chain: seq<string>, i: nat, rootScan: Option<Scan>, m: Met, p: Scan, linked: string -> bool)
    requires Sound(m, linked) && RootScan(rootScan) && i < |chain| && (i > 0 ==> chain[..i] in m.parents)
    requires [chain[0]] !in m.parents ==> (linked(chain[0]) <==> rootScan.Some?)
    requires chain[..i + 1] !in m.parents && p.key == chain[..i + 1] && !p.isThrough && p.relType != DedupeForest.NoRelation
    requires p.src == if i == 0 then rootScan else Some(m.parents[chain[..i]])
    ensures Placed(chain[..i + 1], p, linked)
  {
    var key, before := chain[..i + 1], chain[..i];
    assert key[..i] == before && key[0] == chain[0];
    if i == 0 {
      assert key == [chain[0]];
    } else {
      assert before[0] == chain[0];
      assert Placed(before, m.parents[before], linked);
    }
  }

  lemma {:induction false} NewParent(m: Met, key: seq<string>, model: Model, p: Scan, linked: string -> bool)
    requires Sound(m, linked) && Placed(key, p, linked)
    ensures Sound(Met(m.instances[key := model], m.parents[key := p]), linked)
  {
  }

  /** One relation of a chain: met before, or new below the one before it. */
  method Step(s: Schema, root: Model, info: Info, i: nat, rootScan: Option<Scan>, m: Met, ghost linked: string -> bool)
      returns (r: Option<Met>)
    requires Related(s) && Sound(m, linked) && RootScan(rootScan) && i < |info.chain|
    requires i > 0 ==> info.chain[..i] in m.parents
    requires [info.chain[0]] !in m.parents ==> (linked(info.chain[0]) <==> rootScan.Some?)
    ensures r.Some? ==> Sound(r.value, linked) && info.chain[..i + 1] in r.value.parents
    ensures r.Some? ==> forall key :: key in r.value.parents <==> key in m.parents || key == info.chain[..i + 1]
    ensures Known(s, root, m) && Honest(s, root, info) ==>
              (r.Some? <==> Reach(s, root, info.chain[..i + 1]).Some?) && (r.Some? ==> Known(s, root, r.value))
  {
    hide Reach, LinkType, Follows, Rooted, Placed;
    var parentKey, key := info.chain[..i], info.chain[..i + 1];
    ReachNext(s, root, info.chain, i);
    var parent := if i == 0 then root else m.instances[parentKey];
    if (parent, info.chain[i]) !in s.fields || s.fields[(parent, info.chain[i])].None? {
      return None;
    }
    var rel := s.fields[(parent, info.chain[i])].value;
    if key in m.instances {
      return Some(m);
    }
    var model := if i == |info.chain| - 1 && info.model.Some? then info.model.value else rel.1;
    var src := if i == 0 then rootScan else Some(m.parents[parentKey]);
    var p := Scan(-1, s.primary(model), Some(model), rel.0, false, None, key, src);
    NewPlace(info.chain, i, rootScan, m, p, linked);
    NewParent(m, key, model, p, linked);
    return Some(Met(m.instances[key := model], m.parents[key := p]));
  }

  /** All relations of a chain, from the root. */
  method WalkChain(s: Schema, root: Model, info: Info, rootScan: Option<Scan>, m: Met, ghost linked: string -> bool)
      returns (r: Option<Met>)
    requires Related(s) && Sound(m, linked) && RootScan(rootScan)
    requires info.chain != [] && [info.chain[0]] !in m.parents ==> (linked(info.chain[0]) <==> rootScan.Some?)
    ensures r.Some? ==> Sound(r.value, linked) && (info.chain != [] ==> info.chain in r.value.parents)
    ensures r.Some? ==> forall name :: [name] in r.value.parents <==> [name] in m.parents || (info.chain != [] && name == info.chain[0])
    ensures Known(s, root, m) && Honest(s, root, info) ==>
              (r.Some? <==> Reach(s, root, info.chain).Some?) && (r.Some? ==> Known(s, root, r.value))
  {
    var met := m;
    for i := 0 to |info.chain|
      invariant Sound(met, linked) && (i > 0 ==> info.chain[..i] in met.parents && [info.chain[0]] in met.parents)
      invariant forall name :: [name] in met.parents <==> [name] in m.parents || (i > 0 && name == info.chain[0])
      invariant Known(s, root, m) && Honest(s, root, info) ==> Known(s, root, met) && Reach(s, root, info.chain[..i]).Some?
    {
      var next := Step(s, root, info, i, rootScan, met, linked);
      if next.None? {
        if Reach(s, root, info.chain[..i + 1]).None? {
          ReachStops(s, root, info.chain, i + 1);
        }
        return None;
      }
      OneName(info.chain, i);
      met := next.value;
    }
    assert info.chain[..|info.chain|] == info.chain;
    return Some(met);
  }

  lemma {:induction false} OneName(chain: seq<string>, i: nat)
    requires i < |chain|
    ensures forall name :: [name] == chain[..i + 1] <==> i == 0 && name == chain[0]
  {
    forall name ensures [name] == chain[..i + 1] <==> i == 0 && name == chain[0] {
      if i == 0 {
        assert chain[..1] == [chain[0]];
        assert [name] == [chain[0]] ==> name == chain[0];
      }
    }
  }

  /** Every place of a relation knows its whole way up, which ends at the root field exactly when
      `linked` says so for its first relation. */
  ghost predicate Linked(scans: seq<Scan>, linked: string -> bool) {
    forall i :: 0 <= i < |scans| && scans[i].key != [] ==> Follows(scans[i]) && (Rooted(scans[i]) <==> linked(scans[i].key[0]))
  }

  /** A copy of the relation's place for every field; without one there is nothing to copy. */
  method AddLeaves(s: Schema, ghost root: Model, info: Info, model: Model, parent: Option<Scan>, through: Option<Model>, scans: seq<Scan>,
                   ghost cells: seq<Cell>, ghost linked: string -> bool)
      returns (r: Result<seq<Scan>>)
    requires ScansCells(scans, cells) && info.hasSource && Linked(scans, linked) && (parent.Some? ==> !parent.value.isThrough)
    requires parent.Some? ==> parent.value.key == info.chain && Linked([parent.value], linked)
    requires info.chain == [] ==> RootScan(parent)
    ensures r.Ok? <==>
              (parent.Some? || info.fields == []) && forall i :: 0 <= i < |info.fields| ==> (model, info.fields[i].name) in s.fields
    ensures r.Ok? ==> ScansCells(r.value, cells + LeafCells(info)) && Linked(r.value, linked)
    ensures r.Ok? && (parent.Some? ==> Typed(s, root, [parent.value])) && Typed(s, root, scans) ==> Typed(s, root, r.value)
  {
    hide ScansCells, CellsFor, Linked, Typed, Follows, Rooted;
    var out := scans;
    NothingPlaced(scans, cells, info.alias, info.fields, false, info.chain, true);
    for k := 0 to |info.fields|
      invariant parent.Some? || k == 0
      invariant ScansCells(out, cells + CellsFor(info.alias, info.fields[..k], false, info.chain, true)) && Linked(out, linked)
      invariant (parent.Some? ==> Typed(s, root, [parent.value])) && Typed(s, root, scans) ==> Typed(s, root, out)
      invariant forall i :: 0 <= i < k ==> (model, info.fields[i].name) in s.fields
    {
      if (model, info.fields[k].name) !in s.fields || parent.None? {
        return Panic;
      }
      var copy := parent.value.(idx := |out|, name := info.fields[k].name, model := Some(model), through := through);
      CopyLinked(out, parent.value, copy, linked);
      CopyTyped(s, root, out, parent.value, copy);
      PlaceAdded(out, cells, info.alias, info.fields, false, info.chain, true, k, copy);
      out := out + [copy];
    }
    assert info.fields[..|info.fields|] == info.fields;
    return Ok(out);
  }

  lemma {:induction false} CopyLinked(scans: seq<Scan>, p: Scan, q: Scan, linked: string -> bool)
    requires Linked(scans, linked) && Linked([p], linked) && q.key == p.key && q.src == p.src && q.relType == p.relType
    ensures Linked(scans + [q], linked)
  {
    assert [p][0] == p;
  }

  lemma {:induction false} CopyTyped(s: Schema, root: Model, scans: seq<Scan>, p: Scan, q: Scan)
    requires q.key == p.key && q.relType == p.relType
    ensures Typed(s, root, scans) && Typed(s, root, [p]) ==> Typed(s, root, scans + [q])
  {
    assert [p][0] == p;
  }

  /** A relation met before, as the place its fields are copied from. */
  lemma {:induction false} ParentLinked(s: Schema, root: Model, m: Met, key: seq<string>, linked: string -> bool)
    requires Sound(m, linked) && key in m.parents
    ensures key in m.instances && m.parents[key].key == key && !m.parents[key].isThrough && Linked([m.parents[key]], linked)
    ensures Known(s, root, m) ==> Typed(s, root, [m.parents[key]]) && Reach(s, root, key) == Some(m.instances[key])
  {
    assert Placed(key, m.parents[key], linked);
  }

  lemma {:induction false} RootLinked(s: Schema, root: Model, p: Option<Scan>, linked: string -> bool)
    requires RootScan(p)
    ensures p.Some? ==> Linked([p.value], linked) && Typed(s, root, [p.value])
  {
  }

  predicate Uses(info: Info, name: string) {
    info.hasSource && info.chain != [] && info.chain[0] == name
  }

  /** The root's primary field is selected before any relation path that starts with `name`. */
  predicate RootFirst(s: Schema, root: Model, infos: seq<Info>, name: string) {
    exists j :: 0 <= j < |infos| && HasRoot(s, root, infos[j]) && forall u :: 0 <= u < j ==> !Uses(infos[u], name)
  }

  lemma {:induction false} FirstUse(s: Schema, root: Model, infos: seq<Info>, k: nat, name: string)
    requires k < |infos| && Uses(infos[k], name) && forall u :: 0 <= u < k ==> !Uses(infos[u], name)
    ensures RootFirst(s, root, infos, name) <==> exists j :: 0 <= j < k && HasRoot(s, root, infos[j])
  {
    if RootFirst(s, root, infos, name) {
      var j :| 0 <= j < |infos| && HasRoot(s, root, infos[j]) && forall u :: 0 <= u < j ==> !Uses(infos[u], name);
      assert j < k;
    }
  }

  ghost predicate RootSeen(s: Schema, root: Model, infos: seq<Info>, k: nat)
    requires k <= |infos|
  {
    exists j :: 0 <= j < k && HasRoot(s, root, infos[j])
  }

  ghost predicate NamesSeen(infos: seq<Info>, k: nat, m: Met)
    requires k <= |infos|
  {
    forall name :: [name] in m.parents <==> exists u :: 0 <= u < k && Uses(infos[u], name)
  }

  /** What holds after the first `k` selections. */
  ghost predicate Scanned(s: Schema, root: Model, infos: seq<Info>, k: nat, rootScan: Option<Scan>, m: Met, scans: seq<Scan>,
                          linked: string -> bool)
    requires k <= |infos|
  {
    && ScansCells(scans, AllCells(infos[..k])) && Linked(scans, linked) && Sound(m, linked) && RootScan(rootScan)
    && (rootScan.Some? <==> RootSeen(s, root, infos, k)) && NamesSeen(infos, k, m)
  }

  lemma {:induction false} CellsNext(infos: seq<Info>, k: nat)
    requires k < |infos|
    ensures AllCells(infos[..k + 1]) == AllCells(infos[..k]) + ThroughCells(infos[k]) + LeafCells(infos[k])
  {
    assert infos[..k + 1][..k] == infos[..k];
  }

  lemma {:induction false} RootSeenNext(s: Schema, root: Model, infos: seq<Info>, k: nat)
    requires k < |infos|
    ensures RootSeen(s, root, infos, k + 1) <==> RootSeen(s, root, infos, k) || HasRoot(s, root, infos[k])
  {
  }

  lemma {:induction false} NamesSeenNext(infos: seq<Info>, k: nat, m: Met, n: Met)
    requires k < |infos| && NamesSeen(infos, k, m)
    requires forall name :: [name] in n.parents <==> [name] in m.parents || Uses(infos[k], name)
    ensures NamesSeen(infos, k + 1, n)
  {
  }

  /** Every field of the table between is a field of its model. */
  predicate ThroughFound(s: Schema, info: Info) {
    info.through.Some? ==>
      forall i :: 0 <= i < |info.through.value.fields| ==> (info.through.value.model, info.through.value.fields[i].name) in s.fields
  }

  /** Every field selected from the root, other than an annotation, is a field of it. */
  predicate RootFound(s: Schema, root: Model, info: Info) {
    forall i :: 0 <= i < |info.fields| ==> IsAnnotation(info, info.fields[i]) || (root, info.fields[i].name) in s.fields
  }

  /** The chain leads to a model that has every selected field; without a chain the fields hang on
      the root's primary field, which has to be there. */
  predicate RelationFound(s: Schema, root: Model, info: Info, rooted: bool) {
    var m := Reach(s, root, info.chain);
    && m.Some? && (info.chain == [] ==> rooted || info.fields == [])
    && forall i :: 0 <= i < |info.fields| ==> (m.value, info.fields[i].name) in s.fields
  }

  ghost predicate InfoFound(s: Schema, root: Model, infos: seq<Info>, k: nat)
    requires k < |infos|
  {
    && ThroughFound(s, infos[k])
    && if infos[k].hasSource then RelationFound(s, root, infos[k], RootSeen(s, root, infos, k)) else RootFound(s, root, infos[k])
  }

  ghost predicate AllFound(s: Schema, root: Model, infos: seq<Info>, n: nat)
    requires n <= |infos|
  {
    forall k :: 0 <= k < n ==> InfoFound(s, root, infos, k)
  }

  predicate AllHonest(s: Schema, root: Model, infos: seq<Info>) {
    forall k :: 0 <= k < |infos| ==> Honest(s, root, infos[k])
  }

  /** A relation's fields, below the relations of its chain. */
  method AddRelation(s: Schema, root: Model, info: Info, rootScan: Option<Scan>, m: Met, through: Option<Model>, scans: seq<Scan>,
                     ghost cells: seq<Cell>, ghost linked: string -> bool)
      returns (r: Option<(seq<Scan>, Met)>)
    requires Related(s) && info.hasSource && Sound(m, linked) && RootScan(rootScan) && ScansCells(scans, cells) && Linked(scans, linked)
    requires info.chain != [] && [info.chain[0]] !in m.parents ==> (linked(info.chain[0]) <==> rootScan.Some?)
    ensures r.Some? ==> ScansCells(r.value.0, cells + LeafCells(info)) && Linked(r.value.0, linked) && Sound(r.value.1, linked)
    ensures r.Some? ==> forall name :: [name] in r.value.1.parents <==> [name] in m.parents || Uses(info, name)
    ensures Known(s, root, m) && Honest(s, root, info) ==>
              && (r.Some? <==> RelationFound(s, root, info, rootScan.Some?))
              && (r.Some? ==> Known(s, root, r.value.1) && (Typed(s, root, scans) ==> Typed(s, root, r.value.0)))
  {
    hide ScansCells, LeafCells, Linked, Typed, Sound, Known, Honest;
    var met := WalkChain(s, root, info, rootScan, m, linked);
    if met.None? {
      return None;
    }
    RootLinked(s, root, rootScan, linked);
    if info.chain != [] {
      ParentLinked(s, root, met.value, info.chain, linked);
    }
    var parent := if info.chain == [] then rootScan else Some(met.value.parents[info.chain]);
    var model := if info.chain == [] then root else met.value.instances[info.chain];
    var added := AddLeaves(s, root, info, model, parent, through, scans, cells, linked);
    if added.Panic? {
      return None;
    }
    return Some((added.value, met.value));
  }

  lemma {:induction false} FirstLink(s: Schema, root: Model, infos: seq<Info>, k: nat, m: Met, linked: string -> bool)
    requires k < |infos| && NamesSeen(infos, k, m) && (forall name :: linked(name) <==> RootFirst(s, root, infos, name))
    requires infos[k].hasSource && infos[k].chain != [] && [infos[k].chain[0]] !in m.parents
    ensures linked(infos[k].chain[0]) <==> RootSeen(s, root, infos, k)
  {
    FirstUse(s, root, infos, k, infos[k].chain[0]);
  }

  /** The fields of the table between come first. */
  method AddBetween(s: Schema, info: Info, scans: seq<Scan>, ghost cells: seq<Cell>, ghost linked: string -> bool) returns (r: Result<seq<Scan>>)
    requires ScansCells(scans, cells) && Linked(scans, linked)
    ensures r.Ok? <==> ThroughFound(s, info)
    ensures r.Ok? ==> ScansCells(r.value, cells + ThroughCells(info)) && Linked(r.value, linked)
    ensures r.Ok? ==> scans <= r.value && forall i :: |scans| <= i < |r.value| ==> r.value[i].key == []
  {
    assert cells + [] == cells;
    if info.through.None? {
      return Ok(scans);
    }
    r := AddThrough(s, info.through.value, info.relType, scans, cells);
  }

  lemma {:induction false} TypedMore(s: Schema, root: Model, a: seq<Scan>, b: seq<Scan>)
    requires a <= b && forall i :: |a| <= i < |b| ==> b[i].key == []
    ensures Typed(s, root, a) ==> Typed(s, root, b)
  {
  }

  lemma {:induction false} LinkedMore(a: seq<Scan>, b: seq<Scan>, linked: string -> bool)
    requires a <= b && forall i :: |a| <= i < |b| ==> b[i].key == []
    ensures Linked(a, linked) ==> Linked(b, linked)
  {
  }

  /** One selection: through fields first, then those of the root or of a relation. */
  method AddInfo(s: Schema, root: Model, infos: seq<Info>, k: nat, rootScan: Option<Scan>, m: Met, scans: seq<Scan>,
                 ghost linked: string -> bool)
      returns (r: Option<(seq<Scan>, Option<Scan>, Met)>)
    requires Related(s) && k < |infos| && (forall name :: linked(name) <==> RootFirst(s, root, infos, name))
    requires Scanned(s, root, infos, k, rootScan, m, scans, linked)
    ensures r.Some? ==> Scanned(s, root, infos, k + 1, r.value.1, r.value.2, r.value.0, linked)
    ensures Known(s, root, m) && Honest(s, root, infos[k]) ==>
              && (r.Some? <==> InfoFound(s, root, infos, k))
              && (r.Some? ==> Known(s, root, r.value.2) && (Typed(s, root, scans) ==> Typed(s, root, r.value.0)))
  {
    hide ScansCells, AllCells, ThroughCells, LeafCells, Linked, Typed, Known, Honest, Sound, KeyAmong, ThroughFound, NamesSeen, RootSeen, RootFirst;
    var info := infos[k];
    ghost var cells := AllCells(infos[..k]);
    var out := AddBetween(s, info, scans, cells, linked);
    if out.Panic? {
      return None;
    }
    TypedMore(s, root, scans, out.value);
    CellsNext(infos, k);
    RootSeenNext(s, root, infos, k);
    var through := if info.through.Some? then Some(info.through.value.model) else None;
    if !info.hasSource {
      var added, next := AddRootFields(s, root, info, through, rootScan, out.value, cells + ThroughCells(info));
      if added.Panic? {
        return None;
      }
      LinkedMore(out.value, added.value, linked);
      TypedMore(s, root, out.value, added.value);
      NamesSeenNext(infos, k, m, m);
      return Some((added.value, next, m));
    }
    if info.chain != [] && [info.chain[0]] !in m.parents {
      FirstLink(s, root, infos, k, m, linked);
    }
    var added := AddRelation(s, root, info, rootScan, m, through, out.value, cells + ThroughCells(info), linked);
    if added.None? {
      return None;
    }
    NamesSeenNext(infos, k, m, added.value.1);
    return Some((added.value.0, rootScan, added.value.1));
  }

  /** The places of a selection, with the way up from each relation. */
  predicate ScansSelection(s: Schema, root: Model, infos: seq<Info>, scans: seq<Scan>) {
    && ScansCells(scans, AllCells(infos))
    && forall i :: 0 <= i < |scans| && scans[i].key != [] ==>
         Follows(scans[i]) && (Rooted(scans[i]) <==> RootFirst(s, root, infos, scans[i].key[0]))
  }

  /** The places are those of the columns, numbered from zero; the way up from a relation ends at
      the root field if and only if the root's primary field was selected before the first
      relation path with the same beginning.  With every info's model the one its chain leads to,
      building the places fails exactly when a selected field or relation does not exist, or
      fields without a chain come before the root's primary field. */
  method GetScannableFields(s: Schema, root: Model, infos: seq<Info>) returns (r: Option<seq<Scan>>)
    requires Related(s)
    ensures r.Some? ==> ScansSelection(s, root, infos, r.value)
    ensures AllHonest(s, root, infos) ==>
              (r.Some? <==> AllFound(s, root, infos, |infos|)) && (r.Some? ==> Typed(s, root, r.value))
  {
    ghost var linked := name => RootFirst(s, root, infos, name);
    var scans, rootScan: Option<Scan>, m := [], None, Met(map[], map[]);
    for k := 0 to |infos|
      invariant Scanned(s, root, infos, k, rootScan, m, scans, linked)
      invariant AllHonest(s, root, infos) ==> Known(s, root, m) && AllFound(s, root, infos, k) && Typed(s, root, scans)
    {
      var next := AddInfo(s, root, infos, k, rootScan, m, scans, linked);
      if next.None? {
        return None;
      }
      scans, rootScan, m := next.value.0, next.value.1, next.value.2;
    }
    assert infos[..|infos|] == infos;
    return Some(scans);
  }

  /** A way that is cut: a book's author scanned before the book's own key.  The other way
      round the author's way up ends at the book. */
  method AuthorBeforeBook() returns (cut: Option<seq<Scan>>, whole: Option<seq<Scan>>)
    ensures cut.Some? && |cut.value| == 2 && cut.value[0].key == ["author"] && !Rooted(cut.value[0])
    ensures whole.Some? && |whole.value| == 2 && whole.value[1].key == ["author"] && Rooted(whole.value[1])
  {
    var book, author, id := 1, 2, FieldDef("id", "id", None);
    var s := Schema(map[(book, "id") := None, (book, "author") := Some((DedupeForest.ManyToOne, author)), (author, "id") := None], _ => "id");
    var own := Info(Some(book), DedupeForest.NoRelation, false, "books", [], [id], None);
    var related := Info(Some(author), DedupeForest.ManyToOne, true, "authors", ["author"], [id], None);
    AuthorIsFound(s, book, author, own, related);
    cut := GetScannableFields(s, book, [related, own]);
    whole := GetScannableFields(s, book, [own, related]);
  }

  lemma {:induction false} AuthorIsFound(s: Schema, book: Model, author: Model, own: Info, related: Info)
    requires (book, "id") in s.fields && (author, "id") in s.fields && (book, "author") in s.fields && s.primary(book) == "id"
    requires s.fields[(book, "author")] == Some((DedupeForest.ManyToOne, author))
    requires own == Info(Some(book), DedupeForest.NoRelation, false, "books", [], [FieldDef("id", "id", None)], None)
    requires related == Info(Some(author), DedupeForest.ManyToOne, true, "authors", ["author"], [FieldDef("id", "id", None)], None)
    ensures AllHonest(s, book, [related, own]) && AllHonest(s, book, [own, related])
    ensures AllFound(s, book, [related, own], 2) && AllFound(s, book, [own, related], 2)
    ensures !RootFirst(s, book, [related, own], "author") && RootFirst(s, book, [own, related], "author")
    ensures var cells := AllCells([related, own]); |cells| == 2 && cells[0].chain == ["author"]
    ensures var cells := AllCells([own, related]); |cells| == 2 && cells[1].chain == ["author"]
  {
    assert ["author"][..0] == [];
    assert Reach(s, book, ["author"]) == Some(author) && Reach(s, book, []) == Some(book);
    assert own.fields[0].name == s.primary(book) && !IsAnnotation(own, own.fields[0]);
    assert HasRoot(s, book, own) && Uses(related, "author") && !HasRoot(s, book, related);
    assert [own, related][0] == own && [related, own][0] == related;
    TwoInfos(related, own);
    TwoInfos(own, related);
  }

  lemma {:induction false} TwoInfos(a: Info, b: Info)
    ensures AllCells([a, b]) == CellsOf(a) + CellsOf(b)
  {
    var none: seq<Info> := [];
    assert [a, b][..1] == [a] && [a][..0] == none;
    assert AllCells([a]) == AllCells(none) + CellsOf(a) == CellsOf(a);
  }

  /** So the row's values land in the places of the columns they were selected for, if and only if
      the selection is complete; otherwise the list cannot be read or has too few columns. */
  lemma {:induction false} ColumnsAreScanned(infos: seq<Info>, scans: seq<Scan>)
    requires ScansCells(scans, AllCells(infos))
    ensures var columns := ReadColumns(SelectList(infos));
            && (Complete(infos) ==>
                  && columns.Some? && |columns.value| == |scans|
                  && forall i :: 0 <= i < |scans| ==> scans[i].idx == i && scans[i].name == columns.value[i].field.name)
            && (!Complete(infos) ==> columns.None? || |columns.value| < |scans|)
  {
    ListReadsExactly(infos);
    if !Complete(infos) && ReadColumns(SelectList(infos)).Some? {
      ReadCounts(SelectList(infos));
      ListColumns(infos);
      if infos != [] && AllWrite(infos) {
        ListCommas(infos);
      }
    }
  }
}
