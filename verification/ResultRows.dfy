/** From the selected fields to the rows of a query: which places of a row may repeat, how far up
    their objects reach, and when the rows of a result fold. */
module ResultRows {
  import opened Outcomes
  import opened Keys
  import opened DedupeForest
  import opened DedupeRows
  import opened DedupeQuery
  import DedupeCompile
  import Projection

  type Scan = Projection.Scan
  type Schema = Projection.Schema
  type Model = Projection.Model

  /** An object a row was scanned into. */
  datatype Instance = Instance(primary: Key, unique: Unique, definer: Object)

  /** A row of the result after scanning: the object of every chain of relations, the root's being
      that of the empty chain, and the object of the table between at each place. */
  datatype Fetched = Fetched(at: seq<string> -> Instance, between: int -> Object)

  // ----- what the selected places are for -----

  /** A place of a relation that may bring several rows for one object, or a table between. */
  predicate MayRepeat(p: Scan) {
    (p.relType == ManyToMany || p.relType == OneToMany || p.relType == OneToOne) && !p.isThrough
  }

  predicate Multiplies(p: Scan) {
    MayRepeat(p) && p.relType != OneToOne
  }

  predicate OfRoot(p: Scan) {
    p.relType == NoRelation && p.model.Some?
  }

  function Repeating(scans: seq<Scan>): (r: seq<Scan>)
    ensures forall i :: 0 <= i < |r| ==> r[i] in scans && MayRepeat(r[i])
    decreases |scans|
  {
    if scans == [] then []
    else
      var n := |scans| - 1;
      Repeating(scans[..n]) + if MayRepeat(scans[n]) then [scans[n]] else []
  }

  predicate Multi(scans: seq<Scan>) {
    exists i :: 0 <= i < |scans| && Multiplies(scans[i])
  }

  /** The place that stands for the root: the last of its primary field, or else the first. */
  function RootPlace(s: Schema, root: Model, scans: seq<Scan>): (r: Option<Scan>)
    ensures r.Some? ==> r.value in scans && OfRoot(r.value)
    decreases |scans|
  {
    if scans == [] then None
    else
      var n := |scans| - 1;
      var before := RootPlace(s, root, scans[..n]);
      if OfRoot(scans[n]) && (scans[n].name == s.primary(root) || before.None?) then Some(scans[n]) else before
  }

  /** What a query knows of its places before it looks at a row. */
  datatype Plan = Plan(repeating: seq<Scan>, multi: bool, root: Option<Scan>)

  function PlanOf(s: Schema, root: Model, scans: seq<Scan>): Plan {
    Plan(Repeating(scans), Multi(scans), RootPlace(s, root, scans))
  }

  /** A query that multiplies rows and selects nothing of its root is refused. */
  predicate Refused(p: Plan) {
    p.multi && p.root.None?
  }

  /** One walk over the places; None for a query that is refused. */
  method NewRows(s: Schema, root: Model, scans: seq<Scan>) returns (r: Option<Plan>)
    ensures r == if Refused(PlanOf(s, root, scans)) then None else Some(PlanOf(s, root, scans))
  {
    var repeating: seq<Scan>, multi, place: Option<Scan> := [], false, None;
    for i := 0 to |scans|
      invariant Plan(repeating, multi, place) == PlanOf(s, root, scans[..i])
    {
      var p := scans[i];
      MultiNext(scans, i);
      assert scans[..i + 1][..i] == scans[..i];
      if MayRepeat(p) {
        if p.relType != OneToOne {
          multi := true;
        }
        repeating := repeating + [p];
      }
      if OfRoot(p) && p.name == s.primary(root) {
        place := Some(p);
      }
      if OfRoot(p) && place.None? {
        place := Some(p);
      }
    }
    assert scans[..|scans|] == scans;
    return if multi && place.None? then None else Some(Plan(repeating, multi, place));
  }

  lemma {:induction false} MultiNext(scans: seq<Scan>, i: nat)
    requires i < |scans|
    ensures Multi(scans[..i + 1]) <==> Multi(scans[..i]) || Multiplies(scans[i])
  {
    var next := scans[..i + 1];
    assert next[i] == scans[i] && forall k :: 0 <= k < i ==> next[k] == scans[..i][k];
  }

  function FieldOf(s: Schema, root: Model, p: Plan): RootField {
    match p.root
    case None => NoRoot
    case Some(place) => if place.name == s.primary(root) then KeyField else OtherField
  }

  // ----- one row -----

  function PieceOf(row: Fetched, p: Scan): Scanned {
    var o := row.at(p.key);
    Scanned(p.relType, if p.key == [] then "" else p.key[|p.key| - 1], o.primary, o.unique, o.definer,
            if p.through.Some? then Some(row.between(p.idx)) else None)
  }

  /** The objects from a place up, as far as the places are linked. */
  function WayUp(row: Fetched, p: Scan): (w: Way) {
    match p.src
    case None => [PieceOf(row, p)]
    case Some(q) => [PieceOf(row, p)] + WayUp(row, q)
  }

  function RootPiece(row: Fetched, place: Option<Scan>): Scanned {
    var o := row.at([]);
    Scanned(NoRelation, "", o.primary, o.unique, o.definer,
            if place.Some? && place.value.through.Some? then Some(row.between(place.value.idx)) else None)
  }

  function JoinedOf(row: Fetched, p: Plan): Joined {
    Joined(RootPiece(row, p.root), seq(|p.repeating|, i requires 0 <= i < |p.repeating| => WayUp(row, p.repeating[i])))
  }

  function JoinedRows(rows: seq<Fetched>, p: Plan): seq<Joined> {
    seq(|rows|, i requires 0 <= i < |rows| => JoinedOf(rows[i], p))
  }

  /** The place where a way ends. */
  function End(p: Scan): Scan {
    match p.src case None => p case Some(q) => End(q)
  }

  lemma {:induction false} WayEnds(row: Fetched, p: Scan)
    ensures WayUp(row, p)[|WayUp(row, p)| - 1] == PieceOf(row, End(p))
    decreases p
  {
    if p.src.Some? {
      WayEnds(row, p.src.value);
    }
  }

  /** A way ends in the root or in the object of its first relation. */
  lemma {:induction false} EndOfWay(p: Scan)
    requires Projection.Follows(p) && p.key != []
    ensures End(p).key == if Projection.Rooted(p) then [] else [p.key[0]]
    decreases p
  {
    var n := |p.key| - 1;
    if n > 0 {
      EndOfWay(p.src.value);
      assert p.key[..n][0] == p.key[0];
    } else {
      assert p.key == [p.key[0]];
    }
  }

  /** The key of an object: its own, its unique key, or its empty one. */
  function KeyOfInstance(o: Instance): Key {
    if !IsZero(o.primary) then o.primary else match o.unique
      case Found(k) => k
      case NoUniqueKey => o.primary
      case Unreadable => NilKey
  }

  lemma {:induction false} HeadIs(row: Fetched, p: Scan)
    requires Projection.Follows(p) && p.key != []
    ensures HeadKey(WayUp(row, p)) == KeyOfInstance(row.at(if Projection.Rooted(p) then [] else [p.key[0]]))
  {
    WayEnds(row, p);
    EndOfWay(p);
  }

  // ----- the root's primary field -----

  lemma {:induction false} CellThere(infos: seq<Projection.Info>, j: nat, i: nat) returns (c: nat)
    requires j < |infos| && !infos[j].hasSource && i < |infos[j].fields| && !Projection.IsAnnotation(infos[j], infos[j].fields[i])
    ensures c < |Projection.AllCells(infos)|
    ensures var cell := Projection.AllCells(infos)[c]; cell.field == infos[j].fields[i] && !cell.isThrough && cell.chain == [] && !cell.free
    decreases |infos|
  {
    var n := |infos| - 1;
    var before := Projection.AllCells(infos[..n]);
    if j < n {
      c := CellThere(infos[..n], j, i);
    } else {
      c := |before| + |Projection.ThroughCells(infos[n])| + i;
      assert Projection.AllCells(infos)[c] == Projection.LeafCells(infos[n])[i];
    }
  }

  lemma {:induction false} KeyPlaceWins(s: Schema, root: Model, scans: seq<Scan>, c: nat)
    requires c < |scans| && OfRoot(scans[c]) && scans[c].name == s.primary(root)
    ensures RootPlace(s, root, scans).Some? && RootPlace(s, root, scans).value.name == s.primary(root)
    decreases |scans|
  {
    var n := |scans| - 1;
    if c < n {
      KeyPlaceWins(s, root, scans[..n], c);
    }
  }

  /** A relation path that hangs on the root has the root's primary field selected. */
  lemma {:induction false} RootFirstIsKeyed(s: Schema, root: Model, infos: seq<Projection.Info>, scans: seq<Scan>, name: string)
    requires Projection.ScansCells(scans, Projection.AllCells(infos)) && Projection.RootFirst(s, root, infos, name)
    ensures FieldOf(s, root, PlanOf(s, root, scans)) == KeyField
  {
    var j :| 0 <= j < |infos| && Projection.HasRoot(s, root, infos[j]);
    var i :| 0 <= i < |infos[j].fields| && Projection.IsKey(s, root, infos[j], infos[j].fields[i]);
    var c := CellThere(infos, j, i);
    assert Projection.FitsCell(scans[c], c, Projection.AllCells(infos)[c]);
    KeyPlaceWins(s, root, scans, c);
  }

  // ----- when a row goes through -----

  lemma {:induction false} RepeatingFollow(s: Schema, root: Model, infos: seq<Projection.Info>, scans: seq<Scan>, p: Scan)
    requires Projection.ScansSelection(s, root, infos, scans) && p in scans && MayRepeat(p)
    ensures p.key != [] && Projection.Follows(p) && (Projection.Rooted(p) <==> Projection.RootFirst(s, root, infos, p.key[0]))
  {
    var i :| 0 <= i < |scans| && scans[i] == p;
    assert Projection.FitsCell(scans[i], i, Projection.AllCells(infos)[i]);
  }

  /** The chain of a repeating place begins where a root is filed: at the row's own root, when the
      root's primary field was selected before the chain's first relation; otherwise at whatever
      root is filed under the key of that relation's object. */
  predicate Begins(s: Schema, root: Model, infos: seq<Projection.Info>, f: Forest, row: Fetched, key: Key, p: Scan)
    requires p.key != []
  {
    Projection.RootFirst(s, root, infos, p.key[0])
    || KeyOfInstance(row.at([p.key[0]])) in f.roots || KeyOfInstance(row.at([p.key[0]])) == key
  }

  /** A row stops in an error exactly when its root has no key of its own and rows multiply; it goes
      through exactly when its root can be filed, every object on a repeating way has a key that can
      be read, and every chain begins where a root is filed. */
  lemma {:induction false} RowGoesThrough(s: Schema, root: Model, infos: seq<Projection.Info>, scans: seq<Scan>,
                                          f: Forest, row: Fetched, index: nat)
    requires Projection.ScansSelection(s, root, infos, scans)
    ensures forall i :: 0 <= i < |Repeating(scans)| ==> Repeating(scans)[i].key != []
    ensures var plan := PlanOf(s, root, scans);
            var joined, field := JoinedOf(row, plan), FieldOf(s, root, plan);
            var after, key := FoldRow(f, joined, field, plan.multi, index), RootKey(joined.root, field, plan.multi, index);
            && (after.Error? <==> key.Unfiled?)
            && (after.Forested? <==> (
                  && key.FiledUnder? && RowBuilds(joined)
                  && forall i :: 0 <= i < |plan.repeating| ==> Begins(s, root, infos, f, row, key.key, plan.repeating[i])))
  {
    var plan := PlanOf(s, root, scans);
    var joined, field := JoinedOf(row, plan), FieldOf(s, root, plan);
    var key := RootKey(joined.root, field, plan.multi, index);
    DedupeQuery.RowGoesThrough(f, joined, field, plan.multi, index);
    forall i | 0 <= i < |plan.repeating|
      ensures plan.repeating[i].key != []
      ensures key.FiledUnder? ==>
                (Begins(s, root, infos, f, row, key.key, plan.repeating[i])
                 <==> HeadKey(joined.chains[i]) in f.roots || HeadKey(joined.chains[i]) == key.key)
    {
      var p := plan.repeating[i];
      RepeatingFollow(s, root, infos, scans, p);
      HeadIs(row, p);
      if Projection.RootFirst(s, root, infos, p.key[0]) {
        RootFirstIsKeyed(s, root, infos, scans, p.key[0]);
      }
    }
  }

  // ----- selections whose chains all reach the root -----

  /** Every repeating place hangs on the root. */
  predicate AllRooted(s: Schema, root: Model, infos: seq<Projection.Info>, scans: seq<Scan>) {
    forall p :: p in Repeating(scans) ==> p.key != [] && Projection.RootFirst(s, root, infos, p.key[0])
  }

  /** The i-th row can be filed and its chains can be built. */
  predicate RowFits(s: Schema, root: Model, plan: Plan, row: Fetched, i: nat) {
    var joined := JoinedOf(row, plan);
    RootKey(joined.root, FieldOf(s, root, plan), plan.multi, i).FiledUnder? && RowBuilds(joined)
  }

  lemma {:induction false} MultiRepeats(scans: seq<Scan>)
    ensures Multi(scans) ==> Repeating(scans) != []
    decreases |scans|
  {
    if Multi(scans) {
      var n := |scans| - 1;
      var i :| 0 <= i < |scans| && Multiplies(scans[i]);
      if i < n {
        assert Multiplies(scans[..n][i]);
        MultiRepeats(scans[..n]);
      }
    }
  }

  /** Where every repeating place hangs on the root, the query is not refused and no row stops in
      an error. */
  lemma {:induction false} RootedPlan(s: Schema, root: Model, infos: seq<Projection.Info>, scans: seq<Scan>)
    requires Projection.ScansSelection(s, root, infos, scans) && AllRooted(s, root, infos, scans)
    ensures var plan := PlanOf(s, root, scans);
            && (plan.repeating != [] ==> FieldOf(s, root, plan) == KeyField)
            && !Refused(plan) && (FieldOf(s, root, plan) == KeyField || !plan.multi)
  {
    MultiRepeats(scans);
    if Repeating(scans) != [] {
      var p := Repeating(scans)[0];
      RootFirstIsKeyed(s, root, infos, scans, p.key[0]);
    }
  }

  lemma {:induction false} RootedRow(s: Schema, root: Model, infos: seq<Projection.Info>, scans: seq<Scan>, f: Forest, row: Fetched, i: nat)
    requires Projection.ScansSelection(s, root, infos, scans) && AllRooted(s, root, infos, scans)
    ensures var plan := PlanOf(s, root, scans);
            var after := FoldRow(f, JoinedOf(row, plan), FieldOf(s, root, plan), plan.multi, i);
            && !after.Error? && (after.Forested? <==> RowFits(s, root, plan, row, i))
            && (plan.repeating != [] ==> (RowFits(s, root, plan, row, i) <==> !IsZero(row.at([]).primary) && RowBuilds(JoinedOf(row, plan))))
  {
    hide FoldRow, RowBuilds, Projection.RootFirst, Projection.ScansSelection, Repeating;
    var plan := PlanOf(s, root, scans);
    RootedPlan(s, root, infos, scans);
    RowGoesThrough(s, root, infos, scans, f, row, i);
    assert forall i :: 0 <= i < |plan.repeating| ==> plan.repeating[i] in Repeating(scans);
  }

  /** With the root's primary field selected before every relation that may repeat, the rows fold
      exactly when every row fits on its own, whatever the others are; where something does
      repeat, that is when every root has a primary key and every chain can be built. */
  lemma {:induction false} RootedRowsFold(s: Schema, root: Model, infos: seq<Projection.Info>, scans: seq<Scan>, rows: seq<Fetched>)
    requires Projection.ScansSelection(s, root, infos, scans) && AllRooted(s, root, infos, scans)
    ensures var plan := PlanOf(s, root, scans);
            var after := FoldRows(JoinedRows(rows, plan), FieldOf(s, root, plan), plan.multi);
            && !after.Error?
            && (after.Forested? <==> forall i :: 0 <= i < |rows| ==> RowFits(s, root, plan, rows[i], i))
            && (plan.repeating != [] ==>
                  forall i :: 0 <= i < |rows| ==>
                    (RowFits(s, root, plan, rows[i], i) <==> !IsZero(rows[i].at([]).primary) && RowBuilds(JoinedOf(rows[i], plan))))
    decreases |rows|
  {
    hide FoldRow, RowFits, RowBuilds, Projection.RootFirst, Projection.ScansSelection, AllRooted, PlanOf, FieldOf, JoinedOf;
    if rows != [] {
      var plan, n := PlanOf(s, root, scans), |rows| - 1;
      var field, all, init := FieldOf(s, root, plan), JoinedRows(rows, plan), rows[..n];
      RootedRowsFold(s, root, infos, scans, init);
      assert all[..n] == JoinedRows(init, plan) && all[n] == JoinedOf(rows[n], plan);
      var before := FoldRows(JoinedRows(init, plan), field, plan.multi);
      var f := if before.Forested? then before.forest else EMPTY;
      RootedRow(s, root, infos, scans, f, rows[n], n);
      assert FoldRows(all, field, plan.multi) == if before.Forested? then FoldRow(f, all[n], field, plan.multi, n) else before;
      assert forall i :: 0 <= i < n ==> init[i] == rows[i];
    }
  }

  // ----- the whole query -----

  /** Scan the selection, plan, fold and compile. */
  method All(s: Schema, root: Model, infos: seq<Projection.Info>, rows: seq<Fetched>, fails: Object -> bool)
      returns (a: Answer, scans: Option<seq<Scan>>, ghost log: seq<DedupeCompile.Event>)
    requires Projection.Related(s)
    ensures Projection.AllHonest(s, root, infos) ==> (scans.Some? <==> Projection.AllFound(s, root, infos, |infos|))
    ensures scans.None? ==> a.Panics?
    ensures scans.Some? ==> Projection.ScansSelection(s, root, infos, scans.value)
    ensures scans.Some? && Refused(PlanOf(s, root, scans.value)) ==> a.Failed?
    ensures scans.Some? && !Refused(PlanOf(s, root, scans.value)) ==>
              var plan := PlanOf(s, root, scans.value);
              var after := FoldRows(JoinedRows(rows, plan), FieldOf(s, root, plan), plan.multi);
              && (a.Answered? <==> after.Forested? && EveryKeyed(after.forest) && EveryHookWorks(after.forest, fails))
              && (a.Answered? ==> a.rows == RowsOf(after.forest, after.forest.roots) && DedupeCompile.AllDone(after.forest, log))
              && (a.Panics? ==> after.Panicked? || (after.Forested? && !EveryKeyed(after.forest)))
              && (a.Failed? ==> after.Error? || (after.Forested? && !EveryHookWorks(after.forest, fails)))
  {
    log := [];
    scans := Projection.GetScannableFields(s, root, infos);
    if scans.None? {
      return Panics, scans, log;
    }
    var plan := NewRows(s, root, scans.value);
    if plan.None? {
      return Failed, scans, log;
    }
    a, log := FoldAndCompile(JoinedRows(rows, plan.value), FieldOf(s, root, plan.value), plan.value.multi, fails);
  }

  // ----- selections whose chains do not reach the root -----

  /** Authors with a name, a profile and books. */
  function Library(): Schema {
    Projection.Schema(map[(1, "ID") := None, (1, "Name") := None, (1, "Books") := Some((OneToMany, 2)), (1, "Profile") := Some((OneToOne, 3)),
                          (2, "ID") := None, (3, "ID") := None], _ => "ID")
  }

  function AuthorsField(name: string): Projection.Info {
    Projection.Info(Some(1), NoRelation, false, "authors", [], [Projection.FieldDef(name, name, None)], None)
  }

  function RelatedField(name: string, model: Model, kind: RelType): Projection.Info {
    Projection.Info(Some(model), kind, true, "T_" + name, [name], [Projection.FieldDef("ID", "id", None)], None)
  }

  /** `Select("Name", "Books.*")` and `Select("Name", "Profile.*")`. */
  function NameAnd(name: string, model: Model, kind: RelType): seq<Projection.Info> {
    [AuthorsField("Name"), RelatedField(name, model, kind)]
  }

  predicate InLibrary(name: string, model: Model, kind: RelType) {
    (name == "Books" && model == 2 && kind == OneToMany) || (name == "Profile" && model == 3 && kind == OneToOne)
  }

  lemma {:induction false} NameAndScans(name: string, model: Model, kind: RelType, scans: seq<Scan>)
    requires InLibrary(name, model, kind)
    requires Projection.ScansSelection(Library(), 1, NameAnd(name, model, kind), scans) && Projection.Typed(Library(), 1, scans)
    ensures var plan := PlanOf(Library(), 1, scans);
            && |scans| == 2 && plan == Plan([scans[1]], kind == OneToMany, Some(scans[0])) && FieldOf(Library(), 1, plan) == OtherField
            && scans[1].key == [name] && !Projection.RootFirst(Library(), 1, NameAnd(name, model, kind), name)
  {
    var infos := NameAnd(name, model, kind);
    Projection.TwoInfos(infos[0], infos[1]);
    var cells := Projection.AllCells(infos);
    assert |cells| == 2 && Projection.FitsCell(scans[0], 0, cells[0]) && Projection.FitsCell(scans[1], 1, cells[1]);
    assert [name][..0] == [] && Projection.LinkType(Library(), 1, [name]) == Some(kind);
    assert scans[..1] == [scans[0]] && scans[..1][..0] == [] && scans[..2] == scans;
    assert MayRepeat(scans[1]) && !MayRepeat(scans[0]) && OfRoot(scans[0]) && !OfRoot(scans[1]);
    assert Repeating(scans[..1]) == [] && Repeating(scans) == [scans[1]];
    assert Multiplies(scans[1]) <==> kind == OneToMany;
    assert RootPlace(Library(), 1, scans[..1]) == Some(scans[0]);
    assert !Projection.IsKey(Library(), 1, infos[0], infos[0].fields[0]);
    assert !Projection.HasRoot(Library(), 1, infos[0]) && !Projection.HasRoot(Library(), 1, infos[1]);
  }

  /** The primary key of the author is not selected, so the chain of a book does not reach the
      author.  The row panics, unless the book has the author's key by coincidence: then
      the book is lost. */
  lemma {:induction false} NameAndBooks(scans: seq<Scan>, row: Fetched, key: Key)
    requires Projection.ScansSelection(Library(), 1, NameAnd("Books", 2, OneToMany), scans) && Projection.Typed(Library(), 1, scans)
    requires row.at([]) == Instance(NilKey, Found(KeyOf(5)), 10) && row.at(["Books"]) == Instance(key, NoUniqueKey, 20) && !IsZero(key)
    ensures var plan := PlanOf(Library(), 1, scans);
            var after := FoldRow(EMPTY, JoinedOf(row, plan), FieldOf(Library(), 1, plan), plan.multi, 0);
            && plan.multi && !Refused(plan)
            && (key != KeyOf(5) ==> after == Panicked)
            && (key == KeyOf(5) ==> after.Forested? && after.forest.roots == [KeyOf(5)] && after.forest.kids == map[])
  {
    NameAndScans("Books", 2, OneToMany, scans);
    LoneScan(Library(), 1, NameAnd("Books", 2, OneToMany), scans, row, scans[1]);
    LoneWay(JoinedOf(row, PlanOf(Library(), 1, scans)), OtherField, true, KeyOf(5), key);
  }

  /** A relation that does not reach the root is a way of one object. */
  lemma {:induction false} LoneScan(s: Schema, root: Model, infos: seq<Projection.Info>, scans: seq<Scan>, row: Fetched, p: Scan)
    requires Projection.ScansSelection(s, root, infos, scans) && p in scans && |p.key| == 1 && !Projection.RootFirst(s, root, infos, p.key[0])
    ensures WayUp(row, p) == [PieceOf(row, p)]
  {
    var i :| 0 <= i < |scans| && scans[i] == p;
    assert Projection.Follows(p) && !Projection.Rooted(p);
    if p.src.Some? {
      LinkedIsRooted(p);
    }
  }

  lemma {:induction false} LinkedIsRooted(p: Scan)
    requires Projection.Follows(p) && |p.key| == 1 && p.src.Some?
    ensures Projection.Rooted(p)
  {
    assert Projection.Rooted(p.src.value);
  }

  /** One row with a way of one object: it is looked up among the roots and nothing is put in. */
  lemma {:induction false} LoneWay(row: Joined, field: RootField, multi: bool, own: Key, key: Key)
    requires RootKey(row.root, field, multi, 0) == FiledUnder(own) && |row.chains| == 1 && |row.chains[0]| == 1
    requires PartOf(row.chains[0][0]).Ok? && PartOf(row.chains[0][0]).value.key == key
    ensures var after := FoldRow(EMPTY, row, field, multi, 0);
            after == if key == own then Forested(DedupeForest.AddRoot(EMPTY, own, RootInfo(row))) else Panicked
  {
    var f, links := DedupeForest.AddRoot(EMPTY, own, RootInfo(row)), LinksOf(row);
    assert RowBuilds(row) && |links| == 1 && |links[0]| == 1 && links[0][0].key == key;
    var none: seq<Links>, nothing: seq<Part> := [], [];
    assert links[1..] == none && links[0][1..] == nothing;
    assert f.roots == [own];
    assert AddParts(f, RootOf(key), nothing) == f && ApplyChains(f, none) == Ok(f);
  }

  /** An author without any key but its name, and a profile: rows do not multiply, so the author is
      filed under its place in the result, where the profile does not look for it. */
  lemma {:induction false} NameAndProfile(scans: seq<Scan>, row: Fetched, key: Key)
    requires Projection.ScansSelection(Library(), 1, NameAnd("Profile", 3, OneToOne), scans) && Projection.Typed(Library(), 1, scans)
    requires row.at([]) == Instance(NilKey, NoUniqueKey, 10) && row.at(["Profile"]) == Instance(key, NoUniqueKey, 20)
    ensures var plan := PlanOf(Library(), 1, scans);
            var after := FoldRow(EMPTY, JoinedOf(row, plan), FieldOf(Library(), 1, plan), plan.multi, 0);
            !plan.multi && (key != KeyOf(1) ==> after == Panicked) && (key == KeyOf(1) ==> after.Forested? && after.forest.kids == map[])
  {
    NameAndScans("Profile", 3, OneToOne, scans);
    LoneScan(Library(), 1, NameAnd("Profile", 3, OneToOne), scans, row, scans[1]);
    LoneWay(JoinedOf(row, PlanOf(Library(), 1, scans)), OtherField, false, KeyOf(1), key);
  }

  /** Both selections can be scanned. */
  method NameAndIsSelected(name: string, model: Model, kind: RelType) returns (scans: seq<Scan>)
    requires InLibrary(name, model, kind)
    ensures Projection.ScansSelection(Library(), 1, NameAnd(name, model, kind), scans) && Projection.Typed(Library(), 1, scans)
  {
    var infos := NameAnd(name, model, kind);
    assert [name][..0] == [];
    assert Projection.Reach(Library(), 1, []) == Some(1) && Projection.Reach(Library(), 1, [name]) == Some(model);
    assert Projection.AllFound(Library(), 1, infos, 2) && Projection.AllHonest(Library(), 1, infos);
    var r := Projection.GetScannableFields(Library(), 1, infos);
    scans := r.value;
  }
}
