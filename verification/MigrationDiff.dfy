/** The schema diff: from the table of the last migration and the table of the model as it is
    now to the actions that turn the first into the second. */
module MigrationDiff {

  import opened Outcomes

  // ----- tables -----

  /** The field a relation points to; `default` is None where the field has no default to ask
      for. */
  datatype TargetField = TargetField(name: string, column: string, allowNull: bool, primary: bool, default: Option<int>, typ: string)

  datatype Relation = Relation(kind: int, model: Option<string>, field: Option<TargetField>, onDelete: int, onUpdate: int, through: Option<string>)

  /** A column. Defaults are compared in their JSON form, which `default` stands for. */
  datatype Column = Column(
    name: string,
    column: string,
    useInDB: bool,
    minLength: int,
    maxLength: int,
    minValue: real,
    maxValue: real,
    unique: bool,
    nullable: bool,
    primary: bool,
    auto: bool,
    default: int,
    reverseAlias: string,
    rel: Option<Relation>)

  predicate TargetEquals(a: TargetField, b: TargetField) {
    && a.name == b.name && a.column == b.column && a.allowNull == b.allowNull && a.primary == b.primary
    && (a.default.Some? && b.default.Some? ==> a.default == b.default)
    && a.typ == b.typ
  }

  predicate RelationEquals(a: Relation, b: Relation) {
    && a.kind == b.kind && a.model == b.model
    && a.field.Some? == b.field.Some?
    && (a.field.Some? ==> TargetEquals(a.field.value, b.field.value))
  }

  /** What the diff takes to be the same column: it looks neither at `useInDB` nor at what a
      relation does on delete and update. */
  predicate ColumnEquals(a: Column, b: Column) {
    && a.name == b.name && a.column == b.column
    && a.minLength == b.minLength && a.maxLength == b.maxLength && a.minValue == b.minValue && a.maxValue == b.maxValue
    && a.unique == b.unique && a.nullable == b.nullable && a.primary == b.primary && a.auto == b.auto
    && a.default == b.default && a.reverseAlias == b.reverseAlias
    && a.rel.Some? == b.rel.Some?
    && (a.rel.Some? ==> RelationEquals(a.rel.value, b.rel.value))
  }

  datatype Index = Index(table: string, identifier: string, kind: string, fields: seq<string>, unique: bool, comment: string)

  function JoinNames(names: seq<string>): string {
    if names == [] then "" else if |names| == 1 then names[0] else names[0] + "_" + JoinNames(names[1..])
  }

  /** An index without an identifier is named after its table and columns. */
  function IndexName(i: Index): string {
    if i.identifier != "" then i.identifier else i.table + "_idx_" + JoinNames(i.fields)
  }

  predicate IndexesEqual(a: Index, b: Index) {
    IndexName(a) == IndexName(b) && a.unique == b.unique && a.kind == b.kind && a.fields == b.fields
  }

  /** Fields in declaration order, no two of the same name. */
  type Fields = fs: seq<Column> | DistinctNames(fs) witness []

  datatype Table = Table(name: string, fields: Fields, indexes: seq<Index>)

  predicate DistinctNames(fs: seq<Column>) {
    forall i, j :: 0 <= i < j < |fs| ==> fs[i].name != fs[j].name
  }

  function FieldMap(fs: seq<Column>): map<string, Column> {
    if fs == [] then map[] else FieldMap(fs[..|fs| - 1])[fs[|fs| - 1].name := fs[|fs| - 1]]
  }

  /** Indexes by name; a later one replaces an earlier one of the same name. */
  function IndexMap(ids: seq<Index>): map<string, Index> {
    if ids == [] then map[] else IndexMap(ids[..|ids| - 1])[IndexName(ids[|ids| - 1]) := ids[|ids| - 1]]
  }

  // ----- actions and what they do to a schema -----

  datatype Action =
    | CreateTable
    | DropTable(table: Table)
    | RenameTable(oldTable: Table, newTable: Table)
    | AddField(field: Column)
    | RemoveField(field: Column)
    | AlterField(oldField: Column, field: Column)
    | AddIndex(index: Index)
    | DropIndex(index: Index)
    | RenameIndex(oldIndex: Index, index: Index)

  /** The table as the database has it. */
  datatype Schema = Absent | Present(name: string, fields: map<string, Column>, indexes: map<string, Index>)

  function SchemaOf(t: Table): Schema {
    Present(t.name, FieldMap(t.fields), IndexMap(t.indexes))
  }

  /** One action; None where it adds what is there, or drops or alters what is not. */
  function Apply(target: Table, s: Schema, a: Action): Option<Schema> {
    match a
    case CreateTable => if s.Absent? then Some(SchemaOf(target)) else None
    case DropTable(t) => if s.Present? && s.name == t.name then Some(Absent) else None
    case RenameTable(o, n) => if s.Present? && s.name == o.name then Some(s.(name := n.name)) else None
    case AddField(f) => if s.Present? && f.name !in s.fields then Some(s.(fields := s.fields[f.name := f])) else None
    case RemoveField(f) => if s.Present? && f.name in s.fields then Some(s.(fields := s.fields - {f.name})) else None
    case AlterField(o, f) =>
      if s.Present? && o.name == f.name && f.name in s.fields then Some(s.(fields := s.fields[f.name := f])) else None
    case AddIndex(i) =>
      if s.Present? && IndexName(i) !in s.indexes then Some(s.(indexes := s.indexes[IndexName(i) := i])) else None
    case DropIndex(i) =>
      if s.Present? && IndexName(i) in s.indexes then Some(s.(indexes := s.indexes - {IndexName(i)})) else None
    case RenameIndex(o, n) =>
      if s.Present? && IndexName(o) in s.indexes && IndexName(n) !in s.indexes - {IndexName(o)}
      then Some(s.(indexes := (s.indexes - {IndexName(o)})[IndexName(n) := n])) else None
  }

  function Run(target: Table, s: Schema, actions: seq<Action>): Option<Schema>
    decreases |actions|
  {
    if actions == [] then Some(s)
    else match Apply(target, s, actions[0])
      case None => None
      case Some(next) => Run(target, next, actions[1..])
  }

  /** The same table, up to what the diff takes to be equal. */
  predicate SameSchema(s: Schema, t: Schema) {
    && s.Present? && t.Present? && s.name == t.name
    && s.fields.Keys == t.fields.Keys && (forall k :: k in s.fields ==> ColumnEquals(t.fields[k], s.fields[k]))
    && s.indexes.Keys == t.indexes.Keys && (forall k :: k in s.indexes ==> IndexesEqual(s.indexes[k], t.indexes[k]))
  }

  lemma {:induction false} RunConcat(target: Table, s: Schema, a: seq<Action>, b: seq<Action>)
    requires Run(target, s, a).Some?
    ensures Run(target, s, a + b) == Run(target, Run(target, s, a).value, b)
    decreases |a|
  {
    if a == [] {
      assert a + b == b;
    } else {
      assert (a + b)[1..] == a[1..] + b;
      RunConcat(target, Apply(target, s, a[0]).value, a[1..], b);
    }
  }

  // ----- the fields -----

  function Removed(prev: seq<Column>, curr: map<string, Column>): seq<Column>
    decreases |prev|
  {
    if prev == [] then []
    else Removed(prev[..|prev| - 1], curr) + if prev[|prev| - 1].name in curr then [] else [prev[|prev| - 1]]
  }

  datatype Change = Change(oldField: Column, newField: Column)

  function Changed(prev: map<string, Column>, curr: seq<Column>): seq<Change>
    decreases |curr|
  {
    if curr == [] then []
    else
      var f := curr[|curr| - 1];
      Changed(prev, curr[..|curr| - 1])
      + if f.name in prev && !ColumnEquals(f, prev[f.name]) then [Change(prev[f.name], f)] else []
  }

  /** Fields in only one of the two tables, and fields in both that are not equal. */
  method Diff(table: Table, other: Table) returns (added: seq<Column>, removed: seq<Column>, diffs: seq<Change>)
    ensures added == Removed(table.fields, FieldMap(other.fields))
    ensures removed == Removed(other.fields, FieldMap(table.fields))
    ensures diffs == Changed(FieldMap(other.fields), table.fields)
  {
    added, removed, diffs := [], [], [];
    var here, there := FieldMap(table.fields), FieldMap(other.fields);
    var mine, theirs: seq<Column> := table.fields, other.fields;
    for i := 0 to |theirs|
      invariant removed == Removed(theirs[..i], here)
    {
      assert theirs[..i + 1][..i] == theirs[..i];
      if theirs[i].name !in here {
        removed := removed + [theirs[i]];
        continue;
      }
    }
    assert theirs[..|theirs|] == theirs;
    for i := 0 to |mine|
      invariant added == Removed(mine[..i], there)
      invariant diffs == Changed(there, mine[..i])
    {
      assert mine[..i + 1][..i] == mine[..i];
      var f := mine[i];
      if f.name !in there {
        added := added + [f];
        continue;
      }
      if !ColumnEquals(f, there[f.name]) {
        diffs := diffs + [Change(there[f.name], f)];
      }
    }
    assert mine[..|mine|] == mine;
  }

  function Adds(fs: seq<Column>): seq<Action> {
    seq(|fs|, i requires 0 <= i < |fs| => AddField(fs[i]))
  }

  function Removes(fs: seq<Column>): seq<Action> {
    seq(|fs|, i requires 0 <= i < |fs| => RemoveField(fs[i]))
  }

  function Alters(cs: seq<Change>): seq<Action> {
    seq(|cs|, i requires 0 <= i < |cs| => AlterField(cs[i].oldField, cs[i].newField))
  }

  function Names(fs: seq<Column>): set<string> {
    set f | f in fs :: f.name
  }

  function NewFields(cs: seq<Change>): seq<Column> {
    seq(|cs|, i requires 0 <= i < |cs| => cs[i].newField)
  }

  lemma {:induction false} OneStep(target: Table, s: Schema, a: Action)
    requires Apply(target, s, a).Some?
    ensures Run(target, s, [a]) == Apply(target, s, a)
  {
    var none: seq<Action> := [];
    assert [a][1..] == none;
    assert Run(target, Apply(target, s, a).value, none) == Apply(target, s, a);
  }

  lemma {:induction false} MergeUpdate<V>(m: map<string, V>, a: map<string, V>, k: string, v: V)
    ensures (m + a)[k := v] == m + a[k := v]
  {
  }

  lemma {:induction false} RunAdds(target: Table, s: Schema, fs: seq<Column>)
    requires s.Present? && DistinctNames(fs) && forall f :: f in fs ==> f.name !in s.fields
    ensures Run(target, s, Adds(fs)) == Some(s.(fields := s.fields + FieldMap(fs)))
  {
    if fs == [] {
      assert s.fields + FieldMap(fs) == s.fields;
    } else {
      var before, f := fs[..|fs| - 1], fs[|fs| - 1];
      RunAdds(target, s, before);
      var mid := s.(fields := s.fields + FieldMap(before));
      assert f.name !in mid.fields by {
        FieldMapIs(before);
        assert forall g :: g in before ==> g.name != f.name;
      }
      OneStep(target, mid, AddField(f));
      RunConcat(target, s, Adds(before), [AddField(f)]);
      assert Adds(fs) == Adds(before) + [AddField(f)];
      MergeUpdate(s.fields, FieldMap(before), f.name, f);
    }
  }

  lemma {:induction false} RunRemoves(target: Table, s: Schema, fs: seq<Column>)
    requires s.Present? && DistinctNames(fs) && forall f :: f in fs ==> f.name in s.fields
    ensures Run(target, s, Removes(fs)) == Some(s.(fields := s.fields - Names(fs)))
  {
    if fs == [] {
      assert s.fields - Names(fs) == s.fields;
    } else {
      var before, f := fs[..|fs| - 1], fs[|fs| - 1];
      RunRemoves(target, s, before);
      var mid := s.(fields := s.fields - Names(before));
      assert f.name in mid.fields;
      OneStep(target, mid, RemoveField(f));
      RunConcat(target, s, Removes(before), [RemoveField(f)]);
      assert Removes(fs) == Removes(before) + [RemoveField(f)];
      assert fs == before + [f];
      assert Names(fs) == Names(before) + {f.name};
      assert s.fields - Names(before) - {f.name} == s.fields - Names(fs);
    }
  }

  lemma {:induction false} RunAlters(target: Table, s: Schema, cs: seq<Change>)
    requires s.Present? && forall c :: c in cs ==> c.oldField.name == c.newField.name && c.newField.name in s.fields
    ensures Run(target, s, Alters(cs)) == Some(s.(fields := s.fields + FieldMap(NewFields(cs))))
  {
    if cs == [] {
      assert NewFields(cs) == [];
      assert s.fields + FieldMap(NewFields(cs)) == s.fields;
    } else {
      var before, c := cs[..|cs| - 1], cs[|cs| - 1];
      RunAlters(target, s, before);
      var mid := s.(fields := s.fields + FieldMap(NewFields(before)));
      OneStep(target, mid, AlterField(c.oldField, c.newField));
      RunConcat(target, s, Alters(before), [AlterField(c.oldField, c.newField)]);
      assert Alters(cs) == Alters(before) + [AlterField(c.oldField, c.newField)];
      assert NewFields(cs)[..|cs| - 1] == NewFields(before);
      MergeUpdate(s.fields, FieldMap(NewFields(before)), c.newField.name, c.newField);
    }
  }

  lemma {:induction false} FieldMapIs(fs: seq<Column>)
    requires DistinctNames(fs)
    ensures forall f :: f in fs ==> f.name in FieldMap(fs) && FieldMap(fs)[f.name] == f
    ensures forall k :: k in FieldMap(fs) ==> FieldMap(fs)[k] in fs && FieldMap(fs)[k].name == k
  {
    if fs != [] {
      var before, last := fs[..|fs| - 1], fs[|fs| - 1];
      FieldMapIs(before);
      assert fs == before + [last];
    }
  }

  lemma {:induction false} RemovedAre(fs: seq<Column>, m: map<string, Column>)
    requires DistinctNames(fs)
    ensures DistinctNames(Removed(fs, m))
    ensures forall f :: f in Removed(fs, m) <==> f in fs && f.name !in m
  {
    if fs != [] {
      var before, last := fs[..|fs| - 1], fs[|fs| - 1];
      RemovedAre(before, m);
      assert fs == before + [last];
    }
  }

  lemma {:induction false} ChangedAre(m: map<string, Column>, fs: seq<Column>)
    requires forall k :: k in m ==> m[k].name == k
    ensures forall c :: c in Changed(m, fs) ==>
              c.newField in fs && c.newField.name in m && c.oldField == m[c.newField.name] && !ColumnEquals(c.newField, c.oldField)
    ensures forall f :: f in fs && f.name in m && !ColumnEquals(f, m[f.name]) ==> Change(m[f.name], f) in Changed(m, fs)
  {
    if fs != [] {
      var before, last := fs[..|fs| - 1], fs[|fs| - 1];
      ChangedAre(m, before);
      assert fs == before + [last];
    }
  }

  // ----- the fields, put together -----

  /** Fields of a schema once the emitted field actions have run. */
  function Rebuilt(prev: seq<Column>, curr: seq<Column>): map<string, Column> {
    var o, n := FieldMap(prev), FieldMap(curr);
    ((o + FieldMap(Removed(curr, o))) - Names(Removed(prev, n))) + FieldMap(NewFields(Changed(o, curr)))
  }

  function FieldActions(prev: seq<Column>, curr: seq<Column>): seq<Action> {
    var o, n := FieldMap(prev), FieldMap(curr);
    (Adds(Removed(curr, o)) + Removes(Removed(prev, n))) + Alters(Changed(o, curr))
  }

  /** The field actions are legal one after the other, and lead to `Rebuilt`. */
  lemma {:induction false} FieldActionsRun(target: Table, s: Schema, prev: Fields, curr: Fields)
    requires s.Present? && s.fields == FieldMap(prev)
    ensures Run(target, s, FieldActions(prev, curr)) == Some(s.(fields := Rebuilt(prev, curr)))
  {
    var o, n := FieldMap(prev), FieldMap(curr);
    var added, removed, changed := Removed(curr, o), Removed(prev, n), Changed(o, curr);
    FieldMapIs(prev);
    FieldMapIs(curr);
    RemovedAre(curr, o);
    RemovedAre(prev, n);
    ChangedAre(o, curr);
    RunAdds(target, s, added);
    var s1 := s.(fields := o + FieldMap(added));
    RunRemoves(target, s1, removed);
    var s2 := s1.(fields := s1.fields - Names(removed));
    RunConcat(target, s, Adds(added), Removes(removed));
    forall c | c in changed ensures c.oldField.name == c.newField.name && c.newField.name in s2.fields {
      assert c.newField.name in n;
    }
    RunAlters(target, s2, changed);
    RunConcat(target, s, Adds(added) + Removes(removed), Alters(changed));
  }

  /** What one name holds in the rebuilt fields. */
  lemma {:induction false} RebuiltAt(prev: Fields, curr: Fields, k: string)
    ensures k in Rebuilt(prev, curr) <==> k in FieldMap(curr)
    ensures k in FieldMap(curr) ==> ColumnEquals(FieldMap(curr)[k], Rebuilt(prev, curr)[k])
  {
    var o, n := FieldMap(prev), FieldMap(curr);
    var added, removed, changed := Removed(curr, o), Removed(prev, n), Changed(o, curr);
    FieldMapIs(prev);
    FieldMapIs(curr);
    RemovedAre(curr, o);
    RemovedAre(prev, n);
    ChangedAre(o, curr);
    FieldMapIs(added);
    ChangedNames(o, curr);
    FieldMapIs(NewFields(changed));
    NewFieldsAre(changed);
    if k in n && k in o && !ColumnEquals(n[k], o[k]) {
      assert Change(o[k], n[k]) in changed;
      assert n[k] in NewFields(changed);
    }
    if k in FieldMap(NewFields(changed)) {
      var f := FieldMap(NewFields(changed))[k];
      assert f in curr && f == n[k];
    }
    if k in FieldMap(added) {
      assert FieldMap(added)[k] in curr;
    }
    if k in n && k !in o {
      assert n[k] in added;
    }
    if k in o && k !in n {
      assert o[k] in removed;
    }
  }

  lemma {:induction false} NewFieldsAre(cs: seq<Change>)
    ensures forall f :: f in NewFields(cs) <==> exists c :: c in cs && c.newField == f
  {
    forall c | c in cs ensures c.newField in NewFields(cs) {
      var i :| 0 <= i < |cs| && cs[i] == c;
      assert NewFields(cs)[i] == c.newField;
    }
    forall f | f in NewFields(cs) ensures exists c :: c in cs && c.newField == f {
      var i :| 0 <= i < |cs| && NewFields(cs)[i] == f;
      assert cs[i] in cs;
    }
  }

  lemma {:induction false} ChangedNames(m: map<string, Column>, fs: seq<Column>)
    requires DistinctNames(fs)
    ensures DistinctNames(NewFields(Changed(m, fs)))
    ensures forall f :: f in NewFields(Changed(m, fs)) ==> f in fs
  {
    if fs != [] {
      var before, last := fs[..|fs| - 1], fs[|fs| - 1];
      ChangedNames(m, before);
      assert fs == before + [last];
      var cs, more := Changed(m, before), Changed(m, fs);
      assert forall g :: g in before ==> g.name != last.name;
      assert NewFields(more) == NewFields(cs) || NewFields(more) == NewFields(cs) + [last];
      assert forall g :: g in NewFields(cs) ==> g.name != last.name;
    }
  }

  // ----- the indexes -----

  /** An index the two tables do not agree on. */
  predicate Differs(prev: map<string, Index>, curr: map<string, Index>, k: string) {
    k !in prev || k !in curr || !IndexesEqual(prev[k], curr[k])
  }

  function Drops(prev: map<string, Index>, ks: seq<string>): seq<Action>
    requires forall k :: k in ks ==> k in prev
  {
    seq(|ks|, i requires 0 <= i < |ks| => DropIndex(prev[ks[i]]))
  }

  function AddIndexes(curr: map<string, Index>, ks: seq<string>): seq<Action>
    requires forall k :: k in ks ==> k in curr
  {
    seq(|ks|, i requires 0 <= i < |ks| => AddIndex(curr[ks[i]]))
  }

  predicate Distinct(ks: seq<string>) {
    forall i, j :: 0 <= i < j < |ks| ==> ks[i] != ks[j]
  }

  function Elements(ks: seq<string>): set<string> {
    set k | k in ks
  }

  predicate NamesIndexes(m: map<string, Index>) {
    forall k :: k in m ==> IndexName(m[k]) == k
  }

  lemma {:induction false} IndexMapNames(ids: seq<Index>)
    ensures NamesIndexes(IndexMap(ids))
  {
    if ids != [] {
      IndexMapNames(ids[..|ids| - 1]);
    }
  }

  lemma {:induction false} RunDrops(target: Table, s: Schema, prev: map<string, Index>, ks: seq<string>)
    requires s.Present? && NamesIndexes(prev) && Distinct(ks) && forall k :: k in ks ==> k in prev && k in s.indexes
    ensures Run(target, s, Drops(prev, ks)) == Some(s.(indexes := s.indexes - Elements(ks)))
  {
    if ks == [] {
      assert s.indexes - Elements(ks) == s.indexes;
    } else {
      var before, k := ks[..|ks| - 1], ks[|ks| - 1];
      RunDrops(target, s, prev, before);
      var mid := s.(indexes := s.indexes - Elements(before));
      assert k in mid.indexes;
      OneStep(target, mid, DropIndex(prev[k]));
      RunConcat(target, s, Drops(prev, before), [DropIndex(prev[k])]);
      assert Drops(prev, ks) == Drops(prev, before) + [DropIndex(prev[k])];
      assert ks == before + [k];
      assert Elements(ks) == Elements(before) + {k};
      assert s.indexes - Elements(before) - {k} == s.indexes - Elements(ks);
    }
  }

  /** `m` with the named indexes of `curr` put in, one after the other. */
  function PutIn(m: map<string, Index>, curr: map<string, Index>, ks: seq<string>): map<string, Index>
    requires forall k :: k in ks ==> k in curr
    decreases |ks|
  {
    if ks == [] then m else PutIn(m[ks[0] := curr[ks[0]]], curr, ks[1..])
  }

  lemma {:induction false} PutInAt(m: map<string, Index>, curr: map<string, Index>, ks: seq<string>, k: string)
    requires forall k :: k in ks ==> k in curr
    ensures k in PutIn(m, curr, ks) <==> k in m || k in ks
    ensures k in ks ==> PutIn(m, curr, ks)[k] == curr[k]
    ensures k !in ks && k in m ==> PutIn(m, curr, ks)[k] == m[k]
    decreases |ks|
  {
    if ks != [] {
      PutInAt(m[ks[0] := curr[ks[0]]], curr, ks[1..], k);
      assert ks == [ks[0]] + ks[1..];
    }
  }

  lemma {:induction false} RunAddIndexes(target: Table, s: Schema, curr: map<string, Index>, ks: seq<string>)
    requires s.Present? && NamesIndexes(curr) && Distinct(ks) && forall k :: k in ks ==> k in curr && k !in s.indexes
    ensures Run(target, s, AddIndexes(curr, ks)) == Some(s.(indexes := PutIn(s.indexes, curr, ks)))
    decreases |ks|
  {
    if ks != [] {
      var mid := s.(indexes := s.indexes[ks[0] := curr[ks[0]]]);
      assert Apply(target, s, AddIndex(curr[ks[0]])) == Some(mid);
      assert ks[0] !in ks[1..];
      RunAddIndexes(target, mid, curr, ks[1..]);
      assert AddIndexes(curr, ks)[1..] == AddIndexes(curr, ks[1..]);
    }
  }

  /** `ks` lists the keys of `m` on which the two tables do not agree, once each, in some
      order. */
  predicate ListsDiffering(m: map<string, Index>, prev: map<string, Index>, curr: map<string, Index>, ks: seq<string>) {
    Distinct(ks) && (forall k :: k in ks ==> k in m && Differs(prev, curr, k)) && (forall k :: k in m && Differs(prev, curr, k) ==> k in ks)
  }

  /** The index actions, for any order in which the two maps are walked. */
  function IndexActions(prev: map<string, Index>, curr: map<string, Index>, drops: seq<string>, adds: seq<string>): seq<Action>
    requires ListsDiffering(prev, prev, curr, drops) && ListsDiffering(curr, prev, curr, adds)
  {
    Drops(prev, drops) + AddIndexes(curr, adds)
  }

  lemma {:induction false} IndexActionsRun(target: Table, s: Schema, prev: map<string, Index>, curr: map<string, Index>,
                                           drops: seq<string>, adds: seq<string>)
    requires s.Present? && s.indexes == prev && NamesIndexes(prev) && NamesIndexes(curr)
    requires ListsDiffering(prev, prev, curr, drops) && ListsDiffering(curr, prev, curr, adds)
    ensures var r := Run(target, s, IndexActions(prev, curr, drops, adds));
            && r.Some? && r.value.Present? && r.value == s.(indexes := r.value.indexes)
            && r.value.indexes.Keys == curr.Keys && forall k :: k in curr ==> IndexesEqual(r.value.indexes[k], curr[k])
  {
    RunDrops(target, s, prev, drops);
    var mid := s.(indexes := prev - Elements(drops));
    RunAddIndexes(target, mid, curr, adds);
    RunConcat(target, s, Drops(prev, drops), AddIndexes(curr, adds));
    var end := PutIn(mid.indexes, curr, adds);
    forall k ensures (k in end <==> k in curr) && (k in curr ==> IndexesEqual(end[k], curr[k])) {
      PutInAt(mid.indexes, curr, adds, k);
      assert k in prev && k in curr && !Differs(prev, curr, k) ==> k in mid.indexes;
    }
  }

  /** Drop what the new table lacks or has changed, in any order. */
  method DropIndexes(prev: map<string, Index>, curr: map<string, Index>) returns (actions: seq<Action>, ghost ks: seq<string>)
    ensures ListsDiffering(prev, prev, curr, ks) && actions == Drops(prev, ks)
  {
    actions, ks := [], [];
    var todo := prev.Keys;
    while todo != {}
      invariant todo <= prev.Keys && Distinct(ks)
      invariant forall k :: k in ks <==> k in prev && k !in todo && Differs(prev, curr, k)
      invariant actions == Drops(prev, ks)
      decreases |todo|
    {
      var name :| name in todo;
      if name !in curr || !IndexesEqual(prev[name], curr[name]) {
        actions := actions + [DropIndex(prev[name])];
        ks := ks + [name];
      }
      todo := todo - {name};
    }
  }

  /** Add what the old table lacks or has otherwise, in any order. */
  method AddIndexActions(prev: map<string, Index>, curr: map<string, Index>) returns (actions: seq<Action>, ghost ks: seq<string>)
    ensures ListsDiffering(curr, prev, curr, ks) && actions == AddIndexes(curr, ks)
  {
    actions, ks := [], [];
    var todo := curr.Keys;
    while todo != {}
      invariant todo <= curr.Keys && Distinct(ks)
      invariant forall k :: k in ks <==> k in curr && k !in todo && Differs(prev, curr, k)
      invariant actions == AddIndexes(curr, ks)
      decreases |todo|
    {
      var name :| name in todo;
      if name !in prev || !IndexesEqual(prev[name], curr[name]) {
        actions := actions + [AddIndex(curr[name])];
        ks := ks + [name];
      }
      todo := todo - {name};
    }
  }

  /** The search for renamed indexes finds none: equal indexes have equal names. */
  method RenameIndexes(prev: map<string, Index>, curr: map<string, Index>) returns (actions: seq<Action>)
    requires NamesIndexes(prev) && NamesIndexes(curr)
    ensures actions == []
  {
    actions := [];
    var todo := prev.Keys;
    while todo != {}
      invariant todo <= prev.Keys && actions == []
      decreases |todo|
    {
      var oldName :| oldName in todo;
      var candidates := curr.Keys;
      while candidates != {}
        invariant candidates <= curr.Keys && actions == []
        decreases |candidates|
      {
        var newName :| newName in candidates;
        if IndexesEqual(prev[oldName], curr[newName]) && oldName != newName {
          assert false;
        }
        candidates := candidates - {newName};
      }
      todo := todo - {oldName};
    }
  }

  // ----- the diff -----

  /** `actions` are legal one after the other on the old schema and leave the new one. */
  predicate Migrates(s: Schema, target: Table, actions: seq<Action>) {
    Run(target, s, actions).Some? && SameSchema(Run(target, s, actions).value, SchemaOf(target))
  }

  /** Whether two tables are the same to the diff. */
  predicate Unchanged(prev: Table, curr: Table) {
    SameSchema(SchemaOf(prev), SchemaOf(curr))
  }

  function RenameActions(prev: Table, curr: Table): seq<Action> {
    if prev.name == curr.name then [] else [RenameTable(prev, curr)]
  }

  lemma {:induction false} TableActionsRun(prev: Table, curr: Table)
    ensures Run(curr, SchemaOf(prev), RenameActions(prev, curr) + FieldActions(prev.fields, curr.fields))
         == Some(Present(curr.name, Rebuilt(prev.fields, curr.fields), IndexMap(prev.indexes)))
  {
    var s0 := SchemaOf(prev);
    var s1 := s0.(name := curr.name);
    assert Run(curr, s0, RenameActions(prev, curr)) == Some(s1) by {
      if prev.name != curr.name {
        OneStep(curr, s0, RenameTable(prev, curr));
      }
    }
    FieldActionsRun(curr, s1, prev.fields, curr.fields);
    RunConcat(curr, s0, RenameActions(prev, curr), FieldActions(prev.fields, curr.fields));
  }

  lemma {:induction false} RebuiltMatches(prev: Fields, curr: Fields)
    ensures Rebuilt(prev, curr).Keys == FieldMap(curr).Keys
    ensures forall k :: k in FieldMap(curr) ==> ColumnEquals(FieldMap(curr)[k], Rebuilt(prev, curr)[k])
  {
    forall k ensures k in Rebuilt(prev, curr) <==> k in FieldMap(curr) { RebuiltAt(prev, curr, k); }
    forall k | k in FieldMap(curr) ensures ColumnEquals(FieldMap(curr)[k], Rebuilt(prev, curr)[k]) { RebuiltAt(prev, curr, k); }
  }

  /** What a diff of two tables emits: a rename, the field actions, and the index actions in
      some order. */
  ghost predicate Emitted(prev: Table, curr: Table, actions: seq<Action>) {
    var o, n := IndexMap(prev.indexes), IndexMap(curr.indexes);
    exists drops, adds ::
      && ListsDiffering(o, o, n, drops) && ListsDiffering(n, o, n, adds)
      && actions == (RenameActions(prev, curr) + FieldActions(prev.fields, curr.fields)) + IndexActions(o, n, drops, adds)
  }

  /** Whatever a diff emits is legal step by step on the old schema, and leaves the new one. */
  lemma {:induction false} EmittedMigrates(prev: Table, curr: Table, actions: seq<Action>)
    requires Emitted(prev, curr, actions)
    ensures Migrates(SchemaOf(prev), curr, actions)
  {
    var o, n := IndexMap(prev.indexes), IndexMap(curr.indexes);
    var drops, adds :|
      && ListsDiffering(o, o, n, drops) && ListsDiffering(n, o, n, adds)
      && actions == (RenameActions(prev, curr) + FieldActions(prev.fields, curr.fields)) + IndexActions(o, n, drops, adds);
    TableActionsRun(prev, curr);
    var mid := Present(curr.name, Rebuilt(prev.fields, curr.fields), o);
    IndexMapNames(prev.indexes);
    IndexMapNames(curr.indexes);
    IndexActionsRun(curr, mid, o, n, drops, adds);
    RunConcat(curr, SchemaOf(prev), RenameActions(prev, curr) + FieldActions(prev.fields, curr.fields), IndexActions(o, n, drops, adds));
    RebuiltMatches(prev.fields, curr.fields);
  }

  // ----- when nothing is emitted -----

  lemma {:induction false} RemovedNone(fs: seq<Column>, m: map<string, Column>)
    requires DistinctNames(fs)
    ensures Removed(fs, m) == [] <==> forall f :: f in fs ==> f.name in m
  {
    RemovedAre(fs, m);
    if Removed(fs, m) != [] {
      assert Removed(fs, m)[0] in Removed(fs, m);
    }
  }

  lemma {:induction false} ChangedNone(m: map<string, Column>, fs: seq<Column>)
    requires DistinctNames(fs) && forall k :: k in m ==> m[k].name == k
    ensures Changed(m, fs) == [] <==> forall f :: f in fs && f.name in m ==> ColumnEquals(f, m[f.name])
  {
    ChangedAre(m, fs);
    if Changed(m, fs) != [] {
      assert Changed(m, fs)[0] in Changed(m, fs);
    }
  }

  lemma {:induction false} FieldsUnchanged(prev: Fields, curr: Fields)
    ensures FieldActions(prev, curr) == [] <==>
              FieldMap(prev).Keys == FieldMap(curr).Keys
              && forall k :: k in FieldMap(prev) ==> ColumnEquals(FieldMap(curr)[k], FieldMap(prev)[k])
  {
    var o, n := FieldMap(prev), FieldMap(curr);
    FieldMapIs(prev);
    FieldMapIs(curr);
    RemovedNone(curr, o);
    RemovedNone(prev, n);
    ChangedNone(o, curr);
    assert FieldActions(prev, curr) == [] <==> Removed(curr, o) == [] && Removed(prev, n) == [] && Changed(o, curr) == [];
    assert (forall f :: f in curr ==> f.name in o) <==> n.Keys <= o.Keys;
    assert (forall f :: f in prev ==> f.name in n) <==> o.Keys <= n.Keys;
  }

  lemma {:induction false} IndexesUnchanged(prev: map<string, Index>, curr: map<string, Index>, drops: seq<string>, adds: seq<string>)
    requires ListsDiffering(prev, prev, curr, drops) && ListsDiffering(curr, prev, curr, adds)
    ensures IndexActions(prev, curr, drops, adds) == [] <==>
              prev.Keys == curr.Keys && forall k :: k in prev ==> IndexesEqual(prev[k], curr[k])
  {
    if drops != [] {
      assert drops[0] in drops;
    } else if adds != [] {
      assert adds[0] in adds;
    }
  }

  /** A diff emits nothing exactly when the two tables are the same to it; in particular when a
      table is compared with itself. */
  lemma {:induction false} EmitsNothing(prev: Table, curr: Table, actions: seq<Action>)
    requires Emitted(prev, curr, actions)
    ensures actions == [] <==> Unchanged(prev, curr)
  {
    var o, n := IndexMap(prev.indexes), IndexMap(curr.indexes);
    var drops, adds :|
      && ListsDiffering(o, o, n, drops) && ListsDiffering(n, o, n, adds)
      && actions == (RenameActions(prev, curr) + FieldActions(prev.fields, curr.fields)) + IndexActions(o, n, drops, adds);
    FieldsUnchanged(prev.fields, curr.fields);
    IndexesUnchanged(o, n, drops, adds);
  }

  lemma {:induction false} TableIsItself(t: Table)
    ensures Unchanged(t, t)
  {
    FieldMapIs(t.fields);
    forall c: Column ensures ColumnEquals(c, c) {}
  }

  // ----- the whole diff -----

  lemma {:induction false} Grouped(r: seq<Action>, a: seq<Action>, b: seq<Action>, c: seq<Action>, d: seq<Action>, e: seq<Action>)
    ensures r + a + b + c + d + e + [] == (r + ((a + b) + c)) + (d + e)
    ensures r + a + b + c + d + e + [] == [] <==> r == [] && a == [] && b == [] && c == [] && d == [] && e == []
  {
  }

  /** A first migration creates the table, a vanished model drops it, and otherwise the emitted
      actions rebuild the new table; a migration is needed exactly when there are any. */
  method MakeMigrationDiff(last: Option<Table>, table: Option<Table>) returns (actions: seq<Action>, shouldMigrate: bool)
    ensures shouldMigrate <==> actions != []
    ensures last.None? ==> actions == [CreateTable]
    ensures last.Some? && table.None? ==> actions == [DropTable(last.value)]
    ensures last.Some? && table.Some? ==> Emitted(last.value, table.value, actions)
  {
    actions, shouldMigrate := [], false;
    if last.None? {
      return [CreateTable], true;
    }
    var prev := last.value;
    if table.None? {
      return [DropTable(prev)], true;
    }
    var curr := table.value;
    if prev.name != curr.name {
      actions, shouldMigrate := [RenameTable(prev, curr)], true;
    }
    var added, removed, diffs := Diff(curr, prev);
    actions := actions + Adds(added);
    actions := actions + Removes(removed);
    actions := actions + Alters(diffs);
    var o, n := IndexMap(prev.indexes), IndexMap(curr.indexes);
    IndexMapNames(prev.indexes);
    IndexMapNames(curr.indexes);
    var dropped, drops := DropIndexes(o, n);
    var newly, adds := AddIndexActions(o, n);
    var renamed := RenameIndexes(o, n);
    shouldMigrate := shouldMigrate || added != [] || removed != [] || diffs != [] || dropped != [] || newly != [] || renamed != [];
    actions := actions + dropped + newly + renamed;
    Grouped(RenameActions(prev, curr), Adds(added), Removes(removed), Alters(diffs), dropped, newly);
    assert FieldActions(prev.fields, curr.fields) == (Adds(added) + Removes(removed)) + Alters(diffs);
    assert IndexActions(o, n, drops, adds) == dropped + newly;
  }

  // ----- the columns of the database -----

  function Columns(m: map<string, Column>): set<string> {
    set k | k in m :: m[k].column
  }

  /** On the columns of a database, a field cannot be added under a column the table already has,
      and altering a field does not rename its column. */
  predicate ColumnLegal(s: Schema, a: Action) {
    match a
    case AddField(f) => s.Present? ==> f.column !in Columns(s.fields)
    case AlterField(o, f) => o.column == f.column
    case _ => true
  }

  /** Every action of the run is legal on columns. */
  predicate ColumnsFree(target: Table, s: Schema, actions: seq<Action>)
    decreases |actions|
  {
    actions == []
    || (ColumnLegal(s, actions[0])
        && (match Apply(target, s, actions[0])
            case None => true
            case Some(next) => ColumnsFree(target, next, actions[1..])))
  }

  lemma {:induction false} FreeConcat(target: Table, s: Schema, a: seq<Action>, b: seq<Action>)
    requires Run(target, s, a).Some?
    ensures ColumnsFree(target, s, a + b) <==> ColumnsFree(target, s, a) && ColumnsFree(target, Run(target, s, a).value, b)
    decreases |a|
  {
    if a == [] {
      assert a + b == b;
    } else {
      assert (a + b)[1..] == a[1..] + b;
      FreeConcat(target, Apply(target, s, a[0]).value, a[1..], b);
    }
  }

  /** No added field, and no altered one that changes its column. */
  predicate Harmless(a: seq<Action>) {
    forall x :: x in a ==> !x.AddField? && (x.AlterField? ==> x.oldField.column == x.field.column)
  }

  lemma {:induction false} FreeWithoutAdds(target: Table, s: Schema, a: seq<Action>)
    requires forall x :: x in a ==> !x.AddField?
    requires Run(target, s, a).Some?
    ensures ColumnsFree(target, s, a) <==> Harmless(a)
    decreases |a|
  {
    if a != [] {
      FreeWithoutAdds(target, Apply(target, s, a[0]).value, a[1..]);
      assert forall x :: x in a <==> x == a[0] || x in a[1..];
    }
  }

  predicate DistinctColumns(fs: seq<Column>) {
    forall i, j :: 0 <= i < j < |fs| ==> fs[i].column != fs[j].column
  }

  lemma {:induction false} ColumnAdded(m: map<string, Column>, f: Column)
    requires f.name !in m
    ensures Columns(m[f.name := f]) == Columns(m) + {f.column}
  {
    var n := m[f.name := f];
    assert n[f.name] == f;
    assert forall k :: k in m ==> k in n && n[k] == m[k];
  }

  lemma {:induction false} FirstColumn(f: Column, rest: seq<Column>)
    ensures DistinctColumns([f] + rest) <==> DistinctColumns(rest) && forall g :: g in rest ==> g.column != f.column
  {
    var fs := [f] + rest;
    if DistinctColumns(fs) {
      forall i, j | 0 <= i < j < |rest| ensures rest[i].column != rest[j].column {
        assert fs[i + 1].column != fs[j + 1].column;
      }
      forall g | g in rest ensures g.column != f.column {
        var j :| 0 <= j < |rest| && rest[j] == g;
        assert fs[0].column != fs[j + 1].column;
      }
    }
  }

  lemma {:induction false} FreeAdds(target: Table, s: Schema, fs: seq<Column>)
    requires s.Present? && DistinctNames(fs) && forall f :: f in fs ==> f.name !in s.fields
    ensures ColumnsFree(target, s, Adds(fs)) <==>
              DistinctColumns(fs) && forall f :: f in fs ==> f.column !in Columns(s.fields)
    decreases |fs|
  {
    if fs != [] {
      hide DistinctColumns;
      var f, rest := fs[0], fs[1..];
      var mid := s.(fields := s.fields[f.name := f]);
      assert Adds(fs)[1..] == Adds(rest);
      assert forall g :: g in fs <==> g == f || g in rest;
      FreeAdds(target, mid, rest);
      assert DistinctColumns(fs) <==> DistinctColumns(rest) && forall g :: g in rest ==> g.column != f.column by {
        FirstColumn(f, rest);
        assert fs == [f] + rest;
      }
      ColumnAdded(s.fields, f);
    }
  }

  lemma {:induction false} NoAddsAfter(prev: Table, curr: Table, drops: seq<string>, adds: seq<string>)
    requires var o, n := IndexMap(prev.indexes), IndexMap(curr.indexes);
             ListsDiffering(o, o, n, drops) && ListsDiffering(n, o, n, adds)
    ensures forall x :: x in After(prev, curr, drops, adds) ==> !x.AddField?
  {
    var o, n := FieldMap(prev.fields), FieldMap(curr.fields);
    var a, b := Removes(Removed(prev.fields, n)), Alters(Changed(o, curr.fields));
    var c := IndexActions(IndexMap(prev.indexes), IndexMap(curr.indexes), drops, adds);
    assert After(prev, curr, drops, adds) == (a + b) + c;
    assert forall x :: x in a || x in b || x in c ==> !x.AddField?;
  }

  /** What is emitted after the added fields. */
  function After(prev: Table, curr: Table, drops: seq<string>, adds: seq<string>): seq<Action>
    requires var o, n := IndexMap(prev.indexes), IndexMap(curr.indexes);
             ListsDiffering(o, o, n, drops) && ListsDiffering(n, o, n, adds)
  {
    var o, n := FieldMap(prev.fields), FieldMap(curr.fields);
    (Removes(Removed(prev.fields, n)) + Alters(Changed(o, curr.fields)))
    + IndexActions(IndexMap(prev.indexes), IndexMap(curr.indexes), drops, adds)
  }

  /** A field of both tables keeps its column. */
  predicate ColumnsStay(prev: seq<Column>, curr: seq<Column>) {
    forall f, g :: f in curr && g in prev && f.name == g.name ==> f.column == g.column
  }

  lemma {:induction false} AltersAre(cs: seq<Change>)
    ensures forall x :: x in Alters(cs) <==> x.AlterField? && Change(x.oldField, x.field) in cs
  {
    var actions := Alters(cs);
    forall x: Action | x.AlterField? && Change(x.oldField, x.field) in cs ensures x in actions {
      var i :| 0 <= i < |cs| && cs[i] == Change(x.oldField, x.field);
      assert actions[i] == x;
    }
  }

  /** The altered fields keep their columns exactly when all fields of both tables do. */
  lemma {:induction false} HarmlessAlters(prev: Fields, curr: Fields)
    ensures Harmless(Alters(Changed(FieldMap(prev), curr))) <==> ColumnsStay(prev, curr)
  {
    var o := FieldMap(prev);
    var cs := Changed(o, curr);
    FieldMapIs(prev);
    ChangedAre(o, curr);
    AltersAre(cs);
    if Harmless(Alters(cs)) {
      forall f, g | f in curr && g in prev && f.name == g.name ensures f.column == g.column {
        if !ColumnEquals(f, g) {
          assert Change(g, f) in cs && AlterField(g, f) in Alters(cs);
        }
      }
    } else {
      var x :| x in Alters(cs) && x.oldField.column != x.field.column;
      assert Change(x.oldField, x.field) in cs && x.field in curr && x.oldField in prev && x.field.name == x.oldField.name;
    }
  }

  lemma {:induction false} HarmlessAfter(prev: Table, curr: Table, drops: seq<string>, adds: seq<string>)
    requires var o, n := IndexMap(prev.indexes), IndexMap(curr.indexes);
             ListsDiffering(o, o, n, drops) && ListsDiffering(n, o, n, adds)
    ensures Harmless(After(prev, curr, drops, adds)) <==> ColumnsStay(prev.fields, curr.fields)
  {
    NoAddsAfter(prev, curr, drops, adds);
    HarmlessAlters(prev.fields, curr.fields);
    var alters := Alters(Changed(FieldMap(prev.fields), curr.fields));
    assert forall x :: x in alters ==> x in After(prev, curr, drops, adds);
    assert forall x :: x in After(prev, curr, drops, adds) && x.AlterField? ==> x in alters;
  }

  /** Fields are added before any is removed, and an altered field is not moved.  So, on the
      columns of the database, what a diff emits is legal exactly when the new fields have columns
      of their own, none of them the column of a field the old table had, and every field of both
      tables keeps its column. */
  lemma {:induction false} RenamedFieldKeepingItsColumn(prev: Table, curr: Table, actions: seq<Action>)
    requires Emitted(prev, curr, actions)
    ensures ColumnsFree(curr, SchemaOf(prev), actions) <==>
              && DistinctColumns(Removed(curr.fields, FieldMap(prev.fields)))
              && (forall f, g :: f in curr.fields && f.name !in FieldMap(prev.fields) && g in prev.fields ==> f.column != g.column)
              && ColumnsStay(prev.fields, curr.fields)
  {
    var io, iN := IndexMap(prev.indexes), IndexMap(curr.indexes);
    var drops, adds :|
      && ListsDiffering(io, io, iN, drops) && ListsDiffering(iN, io, iN, adds)
      && actions == (RenameActions(prev, curr) + FieldActions(prev.fields, curr.fields)) + IndexActions(io, iN, drops, adds);
    var o, n := FieldMap(prev.fields), FieldMap(curr.fields);
    var added := Removed(curr.fields, o);
    var rename := RenameActions(prev, curr);
    var rest := After(prev, curr, drops, adds);
    AddsInFront(rename, Adds(added), Removes(Removed(prev.fields, n)), Alters(Changed(o, curr.fields)), IndexActions(io, iN, drops, adds));
    assert actions == rename + (Adds(added) + rest);
    NoAddsAfter(prev, curr, drops, adds);
    HarmlessAfter(prev, curr, drops, adds);
    EmittedMigrates(prev, curr, actions);
    FreeParts(prev, curr, rename, added, rest);
    AddedColumns(prev.fields, curr.fields);
  }

  /** A field that moves to another column, nothing else being changed, is one action that is
      legal by name and not by column. */
  lemma {:induction false} MovedColumn(f: Column, column: string)
    requires column != f.column
    ensures var prev, curr := Table("t", [f], []), Table("t", [f.(column := column)], []);
            var actions := [AlterField(f, f.(column := column))];
            && Emitted(prev, curr, actions) && Run(curr, SchemaOf(prev), actions) == Some(SchemaOf(curr))
            && !ColumnsFree(curr, SchemaOf(prev), actions)
  {
    var g := f.(column := column);
    var prev, curr := Table("t", [f], []), Table("t", [g], []);
    MovedIsEmitted(f, g);
    OneField(f, g);
    hide Emitted, FieldMap;
    OneStep(curr, SchemaOf(prev), AlterField(f, g));
    assert map[f.name := f][f.name := g] == map[f.name := g];
  }

  lemma {:induction false} MovedIsEmitted(f: Column, g: Column)
    requires f.name == g.name && !ColumnEquals(g, f)
    ensures Emitted(Table("t", [f], []), Table("t", [g], []), [AlterField(f, g)])
  {
    var prev, curr := Table("t", [f], []), Table("t", [g], []);
    OneField(f, g);
    hide FieldMap, Changed, Removed;
    assert IndexMap([]) == map[] && ListsDiffering(map[], map[], map[], []) && IndexActions(map[], map[], [], []) == [];
    assert (RenameActions(prev, curr) + FieldActions(prev.fields, curr.fields)) + IndexActions(map[], map[], [], []) == [AlterField(f, g)];
  }

  lemma {:induction false} OneField(f: Column, g: Column)
    requires f.name == g.name && !ColumnEquals(g, f)
    ensures FieldMap([f]) == map[f.name := f] && FieldMap([g]) == map[f.name := g]
    ensures Removed([f], FieldMap([g])) == [] && Removed([g], FieldMap([f])) == []
    ensures Alters(Changed(FieldMap([f]), [g])) == [AlterField(f, g)]
  {
    var none: seq<Column> := [];
    var nothing: map<string, Column> := map[];
    assert [f][..0] == none && [g][..0] == none;
    assert FieldMap(none) == nothing;
    assert FieldMap([f]) == nothing[f.name := f] && FieldMap([g]) == nothing[g.name := g];
    assert Changed(FieldMap([f]), [g]) == [Change(f, g)];
  }

  lemma {:induction false} AddsInFront(r: seq<Action>, a: seq<Action>, b: seq<Action>, c: seq<Action>, d: seq<Action>)
    ensures (r + ((a + b) + c)) + d == r + (a + ((b + c) + d))
  {
  }

  lemma {:induction false} AddedColumns(prev: Fields, curr: Fields)
    ensures var o := FieldMap(prev);
            (forall f :: f in Removed(curr, o) ==> f.column !in Columns(o))
            <==> (forall f, g :: f in curr && f.name !in o && g in prev ==> f.column != g.column)
  {
    var o := FieldMap(prev);
    FieldMapIs(prev);
    RemovedAre(curr, o);
    forall f: Column ensures f.column in Columns(o) <==> exists g :: g in prev && g.column == f.column {
      ColumnListed(prev, f.column);
    }
  }

  lemma {:induction false} ColumnListed(fs: Fields, c: string)
    ensures c in Columns(FieldMap(fs)) <==> exists g :: g in fs && g.column == c
  {
    var m := FieldMap(fs);
    FieldMapIs(fs);
    if g :| g in fs && g.column == c {
      assert g.name in m && m[g.name] == g;
    }
  }

  lemma {:induction false} FreeParts(prev: Table, curr: Table, rename: seq<Action>, added: seq<Column>, rest: seq<Action>)
    requires rename == RenameActions(prev, curr) && added == Removed(curr.fields, FieldMap(prev.fields))
    requires forall x :: x in rest ==> !x.AddField?
    requires Run(curr, SchemaOf(prev), rename + (Adds(added) + rest)).Some?
    ensures ColumnsFree(curr, SchemaOf(prev), rename + (Adds(added) + rest)) <==>
              DistinctColumns(added) && (forall f :: f in added ==> f.column !in Columns(FieldMap(prev.fields))) && Harmless(rest)
  {
    var s0 := SchemaOf(prev);
    var s1 := s0.(name := curr.name);
    assert Run(curr, s0, rename) == Some(s1) by {
      if prev.name != curr.name {
        OneStep(curr, s0, RenameTable(prev, curr));
      }
    }
    RemovedAre(curr.fields, FieldMap(prev.fields));
    RunAdds(curr, s1, added);
    RunConcat(curr, s0, rename, Adds(added) + rest);
    RunConcat(curr, s1, Adds(added), rest);
    FreeWithoutAdds(curr, s0, rename);
    FreeConcat(curr, s0, rename, Adds(added) + rest);
    FreeConcat(curr, s1, Adds(added), rest);
    FreeAdds(curr, s1, added);
    FreeWithoutAdds(curr, Run(curr, s1, Adds(added)).value, rest);
  }
}
