/** The two text formats of the migration engine: migration file names, and the string a
    dependency is stored as. */
module MigrationNames {
  import opened Outcomes
  import opened Numerals
  import opened MigrationDiff
  import MigrationGraph

  // ----- splitting -----

  /** The text before and after the first `c`, if there is one. */
  function SplitFirst(s: string, c: char): Option<(string, string)> {
    if s == "" then None
    else if s[0] == c then Some(("", s[1..]))
    else match SplitFirst(s[1..], c)
      case None => None
      case Some(p) => Some(([s[0]] + p.0, p.1))
  }

  lemma {:induction false} SplitFirstFinds(s: string, c: char)
    ensures SplitFirst(s, c).Some? <==> c in s
    ensures SplitFirst(s, c).Some? ==>
              var (a, b) := SplitFirst(s, c).value; c !in a && s == a + [c] + b
  {
    if s != "" {
      SplitFirstFinds(s[1..], c);
      assert s == [s[0]] + s[1..];
      if s[0] == c {
        assert s == "" + [c] + s[1..];
      } else if c in s[1..] {
        var (a, b) := SplitFirst(s[1..], c).value;
        assert [s[0]] + (a + [c] + b) == ([s[0]] + a) + [c] + b;
      }
    }
  }

  lemma {:induction false} SplitFirstOf(a: string, c: char, b: string)
    requires c !in a
    ensures SplitFirst(a + [c] + b, c) == Some((a, b))
  {
    var s := a + [c] + b;
    if a == "" {
      assert s[0] == c && s[1..] == b;
    } else {
      assert s[1..] == a[1..] + [c] + b;
      SplitFirstOf(a[1..], c, b);
      assert [a[0]] + a[1..] == a;
    }
  }

  // ----- order numbers -----

  function Zeros(n: nat): string {
    seq(n, i => '0')
  }

  /** Zero-padded to four characters, a minus sign included. */
  function FormatOrder(n: int): string {
    var digits := Digits(if n < 0 then -n else n);
    var sign := if n < 0 then "-" else "";
    sign + Zeros(if |sign| + |digits| < 4 then 4 - |sign| - |digits| else 0) + digits
  }

  lemma {:induction false} ZerosParse(k: nat, s: string)
    ensures ParseDigits(Zeros(k) + s) == ParseDigits(s)
    decreases k + |s|
  {
    var all := Zeros(k) + s;
    if s != "" {
      ZerosParse(k, s[..|s| - 1]);
      assert all[..|all| - 1] == Zeros(k) + s[..|s| - 1];
    } else if k > 0 {
      ZerosParse(k - 1, "");
      assert all[..|all| - 1] == Zeros(k - 1) + "";
    } else {
      assert all == "";
    }
  }

  /** The number without its sign, as `FormatOrder` writes it. */
  function Padded(m: nat, signs: nat): string {
    Zeros(if signs + |Digits(m)| < 4 then 4 - signs - |Digits(m)| else 0) + Digits(m)
  }

  lemma {:induction false} PaddedParses(m: nat, signs: nat)
    ensures ParseDigits(Padded(m, signs)) == Some(m)
    ensures Padded(m, signs) != "" && forall c :: c in Padded(m, signs) ==> IsDigit(c)
  {
    DigitsParse(m);
    ZerosParse(if signs + |Digits(m)| < 4 then 4 - signs - |Digits(m)| else 0, Digits(m));
  }

  predicate AllDigits(s: string) {
    s != "" && forall c :: c in s ==> IsDigit(c)
  }

  lemma {:induction false} NegativeParses(p: string, n: int)
    requires n < 0 && AllDigits(p) && ParseDigits(p) == Some(-n) && InRange(n)
    ensures ParseInt(['-'] + p) == Some(n)
    ensures '_' !in ['-'] + p && '.' !in ['-'] + p
  {
    assert (['-'] + p)[1..] == p;
  }

  lemma {:induction false} PositiveParses(p: string, m: nat)
    requires AllDigits(p) && ParseDigits(p) == Some(m) && InRange(m)
    ensures ParseInt(p) == Some(m) && '_' !in p && '.' !in p
  {
    assert p[0] in p;
  }

  lemma {:induction false} OrderParses(n: int)
    requires InRange(n)
    ensures ParseInt(FormatOrder(n)) == Some(n)
    ensures '_' !in FormatOrder(n) && '.' !in FormatOrder(n)
  {
    if n < 0 {
      PaddedParses(-n, 1);
      NegativeParses(Padded(-n, 1), n);
      assert FormatOrder(n) == ['-'] + Padded(-n, 1);
    } else {
      PaddedParses(n, 0);
      PositiveParses(Padded(n, 0), n);
      assert FormatOrder(n) == Padded(n, 0);
    }
  }

  // ----- file names -----

  function FileName(order: int, name: string): string {
    FormatOrder(order) + ['_'] + name + ".mig"
  }

  predicate HasSuffix(s: string, suffix: string) {
    |s| >= |suffix| && s[|s| - |suffix|..] == suffix
  }

  function ParseFileName(n: string): Option<(int, string)> {
    match SplitFirst(n, '.')
    case None => None
    case Some((stem, rest)) =>
      if !HasSuffix(rest, "mig") then None
      else match SplitFirst(stem, '_')
        case None => None
        case Some((order, name)) =>
          match ParseInt(order)
          case None => None
          case Some(i) => Some((i, name))
  }

  /** Up to the first dot. */
  function Stem(name: string): string {
    match SplitFirst(name, '.') case None => name case Some(p) => p.0
  }

  /** Parsing a file name gives back the order, and the name up to its first dot; so it gives
      back the name exactly when the name has no dot. */
  lemma {:induction false} FileNameRoundTrip(order: int, name: string)
    requires InRange(order)
    ensures ParseFileName(FileName(order, name)) == Some((order, Stem(name)))
    ensures ParseFileName(FileName(order, name)) == Some((order, name)) <==> '.' !in name
  {
    OrderParses(order);
    SplitFirstFinds(name, '.');
    if '.' in name {
      var tail := SplitFirst(name, '.').value.1;
      DottedName(FormatOrder(order), Stem(name), tail);
      assert name == Stem(name) + ['.'] + tail;
      StemParses(order, Stem(name), tail + ".mig");
    } else {
      assert FileName(order, name) == FormatOrder(order) + ['_'] + name + ['.'] + "mig";
      StemParses(order, name, "mig");
    }
  }

  lemma {:induction false} DottedName(order: string, stem: string, tail: string)
    ensures order + ['_'] + (stem + ['.'] + tail) + ".mig" == order + ['_'] + stem + ['.'] + (tail + ".mig")
  {
  }

  lemma {:induction false} StemParses(order: int, stem: string, rest: string)
    requires InRange(order) && '.' !in stem && HasSuffix(rest, "mig")
    ensures ParseFileName(FormatOrder(order) + ['_'] + stem + ['.'] + rest) == Some((order, stem))
  {
    OrderParses(order);
    SplitFirstOf(FormatOrder(order) + ['_'] + stem, '.', rest);
    SplitFirstOf(FormatOrder(order), '_', stem);
  }

  /** What a migration file is called after: the first of its actions. */
  function NameOf(actions: seq<Action>): Result<string> {
    if actions == [] then Ok("auto_generated")
    else
      var more := if |actions| > 1 then "_and_" + Digits(|actions| - 1) + "_more" else "";
      match actions[0]
      case CreateTable => Ok("create_table" + more)
      case DropTable(_) => Ok("drop_table" + more)
      case RenameTable(o, n) => Ok("rename_table_" + o.name + "_to_" + n.name + more)
      case AddIndex(i) => Ok("add_idx_" + IndexName(i) + more)
      case DropIndex(_) => Panic     // the name asks for the action's table, which it does not have
      case RenameIndex(o, n) => Ok("rename_idx_" + IndexName(o) + "_to_" + IndexName(n) + more)
      case AddField(f) => Ok("add_field_" + f.column + more)
      case AlterField(_, f) => Ok("alter_field_" + f.column + more)
      case RemoveField(f) => Ok("remove_field_" + f.column + more)
  }

  function GenerateFileName(order: int, actions: seq<Action>): Result<string> {
    match NameOf(actions)
    case Ok(name) => Ok(FileName(order, name))
    case Panic => Panic
  }

  /** The generated name parses back to the order and to what the migration does, unless what
      it is called after has a dot. */
  lemma {:induction false} GeneratedNameParses(order: int, actions: seq<Action>)
    requires InRange(order) && NameOf(actions).Ok?
    ensures var file := GenerateFileName(order, actions).value;
            ParseFileName(file) == Some((order, NameOf(actions).value)) <==> '.' !in NameOf(actions).value
  {
    FileNameRoundTrip(order, NameOf(actions).value);
  }

  /** Some old index is gone or changed. */
  predicate TakesIndexAway(prev: map<string, Index>, curr: map<string, Index>) {
    exists k :: k in prev && Differs(prev, curr, k)
  }

  /** Naming the migration that a diff made panics exactly when the diff changed nothing but
      indexes and took one of the old ones away. */
  lemma {:induction false} NamingPanics(prev: Table, curr: Table, actions: seq<Action>, order: int)
    requires Emitted(prev, curr, actions)
    ensures GenerateFileName(order, actions).Panic? <==>
              var o, n := IndexMap(prev.indexes), IndexMap(curr.indexes);
              && prev.name == curr.name && FieldActions(prev.fields, curr.fields) == []
              && TakesIndexAway(o, n)
  {
    var o, n := IndexMap(prev.indexes), IndexMap(curr.indexes);
    var drops, adds :|
      && ListsDiffering(o, o, n, drops) && ListsDiffering(n, o, n, adds)
      && actions == (RenameActions(prev, curr) + FieldActions(prev.fields, curr.fields)) + IndexActions(o, n, drops, adds);
    var front := RenameActions(prev, curr) + FieldActions(prev.fields, curr.fields);
    assert |front| == |RenameActions(prev, curr)| + |FieldActions(prev.fields, curr.fields)|;
    FrontHasNoDrop(prev, curr);
    PanicsOnDrop(order, actions);
    FirstIndexAction(o, n, drops, adds);
    if front != [] {
      assert actions[0] == front[0] && front[0] in front;
      assert !GenerateFileName(order, actions).Panic?;
      assert prev.name != curr.name || FieldActions(prev.fields, curr.fields) != [];
    } else {
      assert prev.name == curr.name;
      assert RenameActions(prev, curr) == [] && FieldActions(prev.fields, curr.fields) == [];
      assert actions == IndexActions(o, n, drops, adds);
    }
  }

  lemma {:induction false} PanicsOnDrop(order: int, actions: seq<Action>)
    ensures GenerateFileName(order, actions).Panic? <==> actions != [] && actions[0].DropIndex?
  {
  }

  lemma {:induction false} FirstIndexAction(o: map<string, Index>, n: map<string, Index>, drops: seq<string>, adds: seq<string>)
    requires ListsDiffering(o, o, n, drops) && ListsDiffering(n, o, n, adds)
    ensures var actions := IndexActions(o, n, drops, adds);
            (actions != [] && actions[0].DropIndex?) <==> TakesIndexAway(o, n)
  {
    var actions := IndexActions(o, n, drops, adds);
    if drops != [] {
      assert drops[0] in drops;
      assert actions[0] == DropIndex(o[drops[0]]);
    } else if adds != [] {
      assert actions[0] == AddIndex(n[adds[0]]);
    }
  }

  lemma {:induction false} FrontHasNoDrop(prev: Table, curr: Table)
    ensures forall a :: a in RenameActions(prev, curr) + FieldActions(prev.fields, curr.fields) ==> !a.DropIndex?
  {
  }

  // ----- dependencies -----

  function EncodeDependency(app: string, model: string, name: string): string {
    app + [':'] + (model + [':'] + name)
  }

  function DecodeDependency(s: string): Option<(string, string, string)> {
    match SplitFirst(s, ':')
    case None => None
    case Some((app, rest)) =>
      match SplitFirst(rest, ':')
      case None => None
      case Some((model, name)) => Some((app, model, name))
  }

  /** A dependency survives being stored exactly when neither its app nor its model has a
      colon; its name may have any. */
  lemma {:induction false} DependencyRoundTrip(app: string, model: string, name: string)
    ensures DecodeDependency(EncodeDependency(app, model, name)) == Some((app, model, name)) <==> ':' !in app && ':' !in model
  {
    var rest := model + [':'] + name;
    var s := EncodeDependency(app, model, name);
    SplitFirstFinds(s, ':');
    if ':' !in app {
      SplitFirstOf(app, ':', rest);
      SplitFirstFinds(rest, ':');
      if ':' !in model {
        SplitFirstOf(model, ':', name);
      }
    }
  }

  /** Whatever can be read back is written as it was. */
  lemma {:induction false} DependencyReadBack(s: string)
    ensures DecodeDependency(s).Some? ==>
              var (app, model, name) := DecodeDependency(s).value; EncodeDependency(app, model, name) == s
    ensures DecodeDependency(s).Some? <==> exists a, b, c :: s == EncodeDependency(a, b, c)
  {
    SplitFirstFinds(s, ':');
    if SplitFirst(s, ':').Some? {
      SplitFirstFinds(SplitFirst(s, ':').value.1, ':');
      if DecodeDependency(s).Some? {
        var (app, model, name) := DecodeDependency(s).value;
        assert s == EncodeDependency(app, model, name);
      }
    }
    if a, b, c :| s == EncodeDependency(a, b, c) {
      EncodedDecodes(a, b, c);
    }
  }

  lemma {:induction false} EncodedDecodes(a: string, b: string, c: string)
    ensures DecodeDependency(EncodeDependency(a, b, c)).Some?
  {
    var rest := b + [':'] + c;
    var s := EncodeDependency(a, b, c);
    SplitFirstFinds(s, ':');
    SplitFirstFinds(a, ':');
    if ':' in a {
      var (x, y) := SplitFirst(a, ':').value;
      assert s == x + [':'] + (y + [':'] + rest);
      SplitFirstOf(x, ':', y + [':'] + rest);
      SplitFirstFinds(y + [':'] + rest, ':');
    } else {
      SplitFirstOf(a, ':', rest);
      SplitFirstFinds(rest, ':');
    }
  }

  /** The planner's keys tell migrations apart as long as no app or model has a colon. */
  lemma {:induction false} KeysTellApart(a: MigrationGraph.Mig, b: MigrationGraph.Mig)
    requires ':' !in a.app && ':' !in a.model && ':' !in b.app && ':' !in b.model
    ensures MigrationGraph.Key(a) == MigrationGraph.Key(b) <==> (a.app, a.model, a.fileName) == (b.app, b.model, b.fileName)
  {
    DependencyRoundTrip(a.app, a.model, a.fileName);
    DependencyRoundTrip(b.app, b.model, b.fileName);
    KeyIsEncoded(a);
    KeyIsEncoded(b);
  }

  lemma {:induction false} KeyIsEncoded(m: MigrationGraph.Mig)
    ensures MigrationGraph.Key(m) == EncodeDependency(m.app, m.model, m.fileName)
  {
    assert ":" == [':'];
    assert m.app + ":" + m.model + ":" + m.fileName == m.app + [':'] + (m.model + [':'] + m.fileName);
  }
}
