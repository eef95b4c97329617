/** Raw SQL statements with markers: `![Field]` for a column, `#[Table]` for a table and `?[n]`
    for the n-th value.

    The markers are found and replaced one kind after the other by regular expressions, and the
    columns and tables are put in by formatting the text twice.  The reference is a statement
    read once from left to right, with every marker replaced at the same time. */
module RawStatement {

  import opened Outcomes
  import opened Numerals
  import opened SqlText

  // ----- the markers, as the regular expressions match them -----

  datatype Kind = FieldKind | TableKind | ValueKind

  function Opener(k: Kind): char {
    match k case FieldKind => '!' case TableKind => '#' case ValueKind => '?'
  }

  /** Digits, then a closing bracket: the number of digits. */
  function DigitRun(s: string): Option<nat> {
    if s == "" then None
    else if s[0] == ']' then Some(0)
    else if !IsDigit(s[0]) then None
    else match DigitRun(s[1..])
      case None => None
      case Some(n) => Some(n + 1)
  }

  /** The place of the first closing bracket. */
  function CloseAt(s: string): Option<nat> {
    if s == "" then None
    else if s[0] == ']' then Some(0)
    else match CloseAt(s[1..])
      case None => None
      case Some(n) => Some(n + 1)
  }

  /** The length of the marker body if `s` starts with a marker of this kind.  The body of a
      value marker is any one character and then digits. */
  function Match(k: Kind, s: string): Option<nat> {
    if |s| < 2 || s[0] != Opener(k) || s[1] != '[' then None
    else match k
      case FieldKind => CloseAt(s[2..])
      case TableKind => CloseAt(s[2..])
      case ValueKind =>
        if |s| < 3 || s[2] == ']' then None
        else match DigitRun(s[3..])
          case None => None
          case Some(n) => Some(n + 1)
  }

  lemma {:induction false} CloseFound(s: string)
    ensures CloseAt(s).Some? <==> ']' in s
    ensures CloseAt(s).Some? ==> CloseAt(s).value < |s| && s[CloseAt(s).value] == ']' && ']' !in s[..CloseAt(s).value]
  {
    if s != "" && s[0] != ']' {
      CloseFound(s[1..]);
      if CloseAt(s).Some? {
        assert s[..CloseAt(s).value] == [s[0]] + s[1..][..CloseAt(s).value - 1];
      }
      assert s == [s[0]] + s[1..];
    }
  }

  lemma {:induction false} RunFound(s: string)
    ensures DigitRun(s).Some? ==> DigitRun(s).value < |s| && s[DigitRun(s).value] == ']'
    ensures DigitRun(s).Some? ==> forall i :: 0 <= i < DigitRun(s).value ==> IsDigit(s[i])
  {
    if s != "" && s[0] != ']' {
      RunFound(s[1..]);
    }
  }

  lemma {:induction false} MatchFits(k: Kind, s: string)
    ensures Match(k, s).Some? ==>
              var n := Match(k, s).value; n + 3 <= |s| && s[n + 2] == ']' && ']' !in s[2..n + 2]
  {
    if Match(k, s).Some? {
      var n := Match(k, s).value;
      if k.ValueKind? {
        RunFound(s[3..]);
        assert s[3..][n - 1] == ']';
        forall i | 3 <= i < n + 2 ensures s[i] != ']' {
          assert IsDigit(s[3..][i - 3]);
        }
      } else {
        CloseFound(s[2..]);
        assert s[2..n + 2] == s[2..][..n];
      }
    }
  }

  function Body(k: Kind, s: string): string
    requires Match(k, s).Some?
  {
    MatchFits(k, s);
    s[2..Match(k, s).value + 2]
  }

  function After(k: Kind, s: string): (r: string)
    requires Match(k, s).Some?
    ensures |r| < |s|
  {
    MatchFits(k, s);
    s[Match(k, s).value + 3..]
  }

  /** The bodies of all markers of a kind, from left to right. */
  function FindAll(k: Kind, s: string): seq<string>
    decreases |s|
  {
    if s == "" then []
    else if Match(k, s).Some? then [Body(k, s)] + FindAll(k, After(k, s))
    else FindAll(k, s[1..])
  }

  /** Every marker of a kind replaced by the same text. */
  function ReplaceAll(k: Kind, s: string, text: string): string
    decreases |s|
  {
    if s == "" then ""
    else if Match(k, s).Some? then text + ReplaceAll(k, After(k, s), text)
    else [s[0]] + ReplaceAll(k, s[1..], text)
  }

  /** Each percent sign written four times. */
  function Quadruple(s: string): string {
    if s == "" then "" else (if s[0] == '%' then "%%%%" else [s[0]]) + Quadruple(s[1..])
  }

  /** The format string a statement is turned into. */
  function Template(s: string): string {
    ReplaceAll(ValueKind, ReplaceAll(TableKind, ReplaceAll(FieldKind, Quadruple(s), "%s"), "%%s"), "?")
  }

  // ----- the reference: one reading from left to right -----

  datatype Segment = Char(c: char) | Mark(kind: Kind, body: string)

  function Lex(s: string): seq<Segment>
    decreases |s|
  {
    if s == "" then []
    else if Match(FieldKind, s).Some? then [Mark(FieldKind, Body(FieldKind, s))] + Lex(After(FieldKind, s))
    else if Match(TableKind, s).Some? then [Mark(TableKind, Body(TableKind, s))] + Lex(After(TableKind, s))
    else if Match(ValueKind, s).Some? then [Mark(ValueKind, Body(ValueKind, s))] + Lex(After(ValueKind, s))
    else [Char(s[0])] + Lex(s[1..])
  }

  function Bodies(k: Kind, gs: seq<Segment>): seq<string> {
    if gs == [] then []
    else (if gs[0].Mark? && gs[0].kind == k then [gs[0].body] else []) + Bodies(k, gs[1..])
  }

  /** A marker body has a marker of kind `k` inside, which ends where the body ends. */
  predicate Hides(k: Kind, b: string) {
    exists i :: 0 <= i < |b| && Match(k, b[i..] + "]").Some?
  }

  /** No marker that is still there and of another kind hides one of kind `k`. */
  predicate Apart(k: Kind, gs: seq<Segment>, done: set<Kind>) {
    forall g :: g in gs && g.Mark? && g.kind != k && g.kind !in done ==> !Hides(k, g.body)
  }

  /** No marker has a marker of another kind inside. */
  predicate Separate(s: string) {
    forall k: Kind :: Apart(k, Lex(s), {})
  }

  /** What a segment looks like: a marker of a kind in `done` has been replaced, and percent
      signs are quadrupled if `quad`. */
  function Show(g: Segment, quad: bool, done: set<Kind>): string {
    match g
    case Char(c) => if quad && c == '%' then "%%%%" else [c]
    case Mark(k, b) =>
      if k in done then (match k case FieldKind => "%s" case TableKind => "%%s" case ValueKind => "?")
      else [Opener(k), '['] + (if quad then Quadruple(b) else b) + "]"
  }

  function ShowAll(gs: seq<Segment>, quad: bool, done: set<Kind>): string {
    if gs == [] then "" else Show(gs[0], quad, done) + ShowAll(gs[1..], quad, done)
  }

  lemma {:induction false} LexStep(s: string)
    requires s != ""
    ensures Lex(s) != []
    ensures Lex(s)[0].Char? ==> Lex(s)[0].c == s[0] && Lex(s)[1..] == Lex(s[1..]) && forall k :: Match(k, s).None?
    ensures Lex(s)[0].Mark? ==>
              var k := Lex(s)[0].kind;
              Match(k, s).Some? && Lex(s)[0].body == Body(k, s) && Lex(s)[1..] == Lex(After(k, s)) && s[0] == Opener(k)
  {
  }

  lemma {:induction false} MarkerText(k: Kind, s: string)
    requires Match(k, s).Some?
    ensures s == ([Opener(k), '['] + Body(k, s) + "]") + After(k, s)
  {
    MatchFits(k, s);
    var n := Match(k, s).value;
    assert s == s[..2] + s[2..n + 2] + s[n + 2..n + 3] + s[n + 3..];
  }

  /** The reading loses nothing: its characters and markers, written back, are the statement. */
  lemma {:induction false} LexShows(s: string)
    ensures ShowAll(Lex(s), false, {}) == s
    decreases |s|
  {
    if s != "" {
      LexStep(s);
      var g := Lex(s)[0];
      if g.Mark? {
        LexShows(After(g.kind, s));
        MarkerText(g.kind, s);
      } else {
        LexShows(s[1..]);
      }
    }
  }

  // ----- replacing one kind of marker -----

  function Replacement(k: Kind): string {
    match k case FieldKind => "%s" case TableKind => "%%s" case ValueKind => "?"
  }

  /** No place in `t` where a marker of this kind could start, whatever follows. */
  predicate Inert(k: Kind, t: string) {
    forall i :: 0 <= i < |t| && t[i] == Opener(k) ==> i + 1 < |t| && t[i + 1] != '['
  }

  lemma {:induction false} SkipInert(k: Kind, t: string, rest: string, text: string)
    requires Inert(k, t)
    ensures ReplaceAll(k, t + rest, text) == t + ReplaceAll(k, rest, text)
    ensures FindAll(k, t + rest) == FindAll(k, rest)
    decreases |t|
  {
    if t == "" {
      assert t + rest == rest;
    } else {
      var all := t + rest;
      assert all[1..] == t[1..] + rest;
      assert Inert(k, t[1..]) by {
        forall i | 0 <= i < |t[1..]| && t[1..][i] == Opener(k) ensures i + 1 < |t[1..]| && t[1..][i + 1] != '[' {
          assert t[i + 1] == Opener(k);
        }
      }
      assert Match(k, all).None?;
      SkipInert(k, t[1..], rest, text);
      assert [t[0]] + (t[1..] + ReplaceAll(k, rest, text)) == t + ReplaceAll(k, rest, text);
    }
  }

  lemma {:induction false} ShowStep(s: string, quad: bool, done: set<Kind>)
    requires s != "" && Lex(s)[0].Char?
    ensures ShowAll(Lex(s), quad, done) == Show(Char(s[0]), quad, done) + ShowAll(Lex(s[1..]), quad, done)
  {
    LexStep(s);
  }

  lemma {:induction false} MarkersClose(s: string)
    requires s != "" && Lex(s)[0].Mark?
    ensures ']' in s
  {
    LexStep(s);
    MatchFits(Lex(s)[0].kind, s);
  }

  /** Text that cannot close a bracket has no markers, and shows none. */
  lemma {:induction false} NothingToClose(s: string, quad: bool, done: set<Kind>)
    requires ']' !in s
    ensures ']' !in ShowAll(Lex(s), quad, done)
    decreases |s|
  {
    if s != "" {
      LexStep(s);
      if Lex(s)[0].Mark? {
        MarkersClose(s);
      }
      ShowStep(s, quad, done);
      assert s[0] in s && forall c :: c in s[1..] ==> c in s;
      NothingToClose(s[1..], quad, done);
    }
  }

  lemma {:induction false} SameRun(s: string, quad: bool, done: set<Kind>)
    ensures DigitRun(ShowAll(Lex(s), quad, done)).Some? <==> DigitRun(s).Some?
    decreases |s|
  {
    if s != "" {
      LexStep(s);
      if Lex(s)[0].Char? {
        ShowStep(s, quad, done);
        var rest := ShowAll(Lex(s[1..]), quad, done);
        if IsDigit(s[0]) {
          SameRun(s[1..], quad, done);
          assert ([s[0]] + rest)[1..] == rest;
        }
      }
    }
  }

  lemma {:induction false} SameFirst(s: string, quad: bool, done: set<Kind>)
    ensures |ShowAll(Lex(s), quad, done)| >= 1 <==> s != ""
    ensures s != "" ==> (ShowAll(Lex(s), quad, done)[0] == '[' <==> s[0] == '[')
  {
    if s != "" {
      LexStep(s);
    }
  }

  lemma {:induction false} ShownChar(c: char, quad: bool, done: set<Kind>)
    ensures var t := Show(Char(c), quad, done); t != "" && t[0] == c && (c != '%' ==> t == [c])
  {
  }

  /** Where no marker starts in the statement, none starts in what it has become. */
  lemma {:induction false} NoNewMarker(k: Kind, s: string, quad: bool, done: set<Kind>)
    requires s != "" && Lex(s)[0].Char? && k !in done
    ensures Match(k, ShowAll(Lex(s), quad, done)).None?
  {
    hide Lex, ShowAll, CloseAt, DigitRun, Show;
    LexStep(s);
    ShowStep(s, quad, done);
    ShownChar(s[0], quad, done);
    var t, rest := ShowAll(Lex(s), quad, done), ShowAll(Lex(s[1..]), quad, done);
    if s[0] == Opener(k) {
      assert t == [s[0]] + rest;
      SameFirst(s[1..], quad, done);
      if |s| > 1 && s[1] == '[' {
        LexStep(s[1..]);
        ShowStep(s[1..], quad, done);
        assert s[1..][1..] == s[2..];
        ShownChar(s[1], quad, done);
        assert rest == [s[1]] + ShowAll(Lex(s[2..]), quad, done);
        assert t[2..] == ShowAll(Lex(s[2..]), quad, done);
        InsideBracket(k, s, t, quad, done);
      }
    }
  }

  lemma {:induction false} InsideBracket(k: Kind, s: string, t: string, quad: bool, done: set<Kind>)
    requires |s| >= 2 && s[0] == Opener(k) && s[1] == '[' && Match(k, s).None? && k !in done
    requires |t| >= 2 && t[0] == s[0] && t[1] == '[' && t[2..] == ShowAll(Lex(s[2..]), quad, done)
    ensures Match(k, t).None?
  {
    if !k.ValueKind? {
      CloseFound(s[2..]);
      NothingToClose(s[2..], quad, done);
      CloseFound(t[2..]);
    } else if s[2..] != "" {
      assert s[2..][1..] == s[3..] && s[2..][0] == s[2];
      InsideValue(s[2..], quad, done);
      assert |t| > 2 ==> t[2..][1..] == t[3..] && t[2..][0] == t[2];
    }
  }

  /** What stands after the bracket of something that is not a value marker. */
  lemma {:induction false} InsideValue(s: string, quad: bool, done: set<Kind>)
    requires s != "" && (s[0] == ']' || DigitRun(s[1..]).None?) && ValueKind !in done
    ensures var t := ShowAll(Lex(s), quad, done); t != "" && (t[0] == ']' || DigitRun(t[1..]).None?)
  {
    LexStep(s);
    var t := ShowAll(Lex(s), quad, done);
    if Lex(s)[0].Char? {
      ShowStep(s, quad, done);
      var rest := ShowAll(Lex(s[1..]), quad, done);
      if !(quad && s[0] == '%') {
        assert t[1..] == rest;
        SameRun(s[1..], quad, done);
      }
    }
  }

  lemma {:induction false} CloseAtOf(a: string, rest: string)
    requires ']' !in a
    ensures CloseAt(a + "]" + rest) == Some(|a|)
  {
    var all := a + "]" + rest;
    if a != "" {
      assert all[1..] == a[1..] + "]" + rest;
      CloseAtOf(a[1..], rest);
    }
  }

  lemma {:induction false} RunOf(a: string, rest: string)
    requires forall c :: c in a ==> IsDigit(c)
    ensures DigitRun(a + "]" + rest) == Some(|a|)
  {
    var all := a + "]" + rest;
    if a != "" {
      assert all[1..] == a[1..] + "]" + rest;
      assert a[0] in a;
      RunOf(a[1..], rest);
    }
  }

  lemma {:induction false} QuadrupleKeeps(s: string)
    ensures forall c :: c in Quadruple(s) <==> c in s
    ensures '%' !in s ==> Quadruple(s) == s
  {
    if s != "" {
      QuadrupleKeeps(s[1..]);
      var first := if s[0] == '%' then "%%%%" else [s[0]];
      assert first[0] == s[0];
      assert forall c :: c in first <==> c == s[0];
      assert Quadruple(s) == first + Quadruple(s[1..]);
      assert s[0] in s && forall c :: c in s <==> c == s[0] || c in s[1..];
    }
  }

  lemma {:induction false} QuadrupleConcat(a: string, b: string)
    ensures Quadruple(a + b) == Quadruple(a) + Quadruple(b)
  {
    if a == "" {
      assert a + b == b;
    } else {
      assert (a + b)[1..] == a[1..] + b;
      QuadrupleConcat(a[1..], b);
    }
  }

  function BodyText(b: string, quad: bool): string {
    if quad then Quadruple(b) else b
  }

  /** The shape of a marker body. */
  predicate Marker(k: Kind, b: string) {
    ']' !in b && (k.ValueKind? ==> b != "" && forall c :: c in b[1..] ==> IsDigit(c))
  }

  lemma {:induction false} BodyShape(k: Kind, s: string)
    requires Match(k, s).Some?
    ensures Marker(k, Body(k, s))
  {
    MatchFits(k, s);
    if k.ValueKind? {
      RunFound(s[3..]);
      var b, n := Body(k, s), Match(k, s).value;
      forall i | 0 <= i < |b[1..]| ensures IsDigit(b[1..][i]) {
        assert b[1..][i] == s[3..][i];
      }
    }
  }

  /** A marker is still found once percent signs are quadrupled. */
  lemma {:induction false} MarkerFound(k: Kind, b: string, rest: string, quad: bool)
    requires Marker(k, b) && (k.ValueKind? && quad ==> '%' !in b)
    ensures var t := [Opener(k), '['] + BodyText(b, quad) + "]" + rest;
            Match(k, t) == Some(|BodyText(b, quad)|) && Body(k, t) == BodyText(b, quad) && After(k, t) == rest
  {
    var shown := BodyText(b, quad);
    QuadrupleKeeps(b);
    MarkerSlices(Opener(k), shown, rest);
    if k.ValueKind? {
      assert shown == b;
      RunOf(b[1..], rest);
      assert ([Opener(k), '['] + b + "]" + rest)[3..] == b[1..] + "]" + rest;
    } else {
      CloseAtOf(shown, rest);
    }
  }

  lemma {:induction false} MarkerSlices(o: char, b: string, rest: string)
    ensures var t := [o, '['] + b + "]" + rest;
            && t[0] == o && t[1] == '[' && t[2..] == b + "]" + rest && t[2..|b| + 2] == b && t[|b| + 3..] == rest
            && (b != "" ==> t[2] == b[0])
  {
  }

  lemma {:induction false} ReplacedInert(k: Kind, j: Kind)
    requires k != j
    ensures Inert(k, Replacement(j))
  {
  }

  lemma {:induction false} RunLocal(u: string, rest: string)
    requires ']' !in u
    ensures DigitRun(u + "]" + rest) == DigitRun(u + "]")
  {
    if u != "" {
      assert (u + "]" + rest)[1..] == u[1..] + "]" + rest && (u + "]")[1..] == u[1..] + "]";
      assert u[0] in u;
      RunLocal(u[1..], rest);
    }
  }

  /** Whether a marker starts here is decided by the next closing bracket. */
  lemma {:induction false} MatchLocal(k: Kind, u: string, rest: string)
    requires u != "" && ']' !in u
    ensures Match(k, u + "]" + rest) == Match(k, u + "]")
    ensures Match(k, u + "]").Some? ==> Match(k, u + "]").value + 2 == |u| && After(k, u + "]" + rest) == rest
  {
    var t, all := u + "]", u + "]" + rest;
    assert u[0] in u && (|u| > 1 ==> all[1] == t[1] == u[1]);
    if |u| > 1 && u[0] == Opener(k) && u[1] == '[' {
      assert t[2..] == u[2..] + "]" && all[2..] == u[2..] + "]" + rest;
      assert u[2..] + "]" + "" == u[2..] + "]";
      CloseAtOf(u[2..], rest);
      CloseAtOf(u[2..], "");
      if |u| > 2 {
        assert u[2] in u && t[3..] == u[3..] + "]" && all[3..] == u[3..] + "]" + rest;
        RunLocal(u[3..], rest);
      }
    }
    if Match(k, t).Some? {
      MatchFits(k, t);
      assert t[Match(k, t).value + 2] == ']';
      assert all[|u| + 1..] == rest;
    }
  }

  lemma {:induction false} HidesStep(k: Kind, u: string)
    requires u != ""
    ensures Hides(k, u) <==> Match(k, u + "]").Some? || Hides(k, u[1..])
  {
    assert u[0..] == u;
    if Hides(k, u) {
      var i :| 0 <= i < |u| && Match(k, u[i..] + "]").Some?;
      if i > 0 {
        assert u[1..][i - 1..] == u[i..];
      }
    }
    if Hides(k, u[1..]) {
      var i :| 0 <= i < |u[1..]| && Match(k, u[1..][i..] + "]").Some?;
      assert u[i + 1..] == u[1..][i..];
    }
  }

  /** A body in which no marker is hidden is left alone. */
  lemma {:induction false} BodySkipped(k: Kind, u: string, rest: string, text: string)
    requires ']' !in u && !Hides(k, u)
    ensures ReplaceAll(k, u + "]" + rest, text) == u + "]" + ReplaceAll(k, rest, text)
  {
    var all := u + "]" + rest;
    if u == "" {
      assert all[1..] == rest;
    } else {
      HidesStep(k, u);
      MatchLocal(k, u, rest);
      assert all[1..] == u[1..] + "]" + rest;
      BodySkipped(k, u[1..], rest, text);
      assert [u[0]] + (u[1..] + "]" + ReplaceAll(k, rest, text)) == u + "]" + ReplaceAll(k, rest, text);
    }
  }

  /** One more marker is found in a body exactly when one is hidden there. */
  lemma {:induction false} FoundInBody(k: Kind, u: string, rest: string)
    requires ']' !in u
    ensures !Hides(k, u) ==> FindAll(k, u + "]" + rest) == FindAll(k, rest)
    ensures Hides(k, u) ==> exists b :: FindAll(k, u + "]" + rest) == [b] + FindAll(k, rest)
  {
    var all := u + "]" + rest;
    if u == "" {
      assert all[1..] == rest;
    } else {
      HidesStep(k, u);
      MatchLocal(k, u, rest);
      if Match(k, all).None? {
        assert all[1..] == u[1..] + "]" + rest;
        FoundInBody(k, u[1..], rest);
      } else {
        assert FindAll(k, all) == [Body(k, all)] + FindAll(k, rest);
      }
    }
  }

  lemma {:induction false} OpenerPassed(k: Kind, j: Kind, t: string, text: string)
    requires k != j
    ensures ReplaceAll(k, [Opener(j), '['] + t, text) == [Opener(j), '['] + ReplaceAll(k, t, text)
    ensures FindAll(k, [Opener(j), '['] + t) == FindAll(k, t)
  {
    var all := [Opener(j), '['] + t;
    assert all[1..] == "[" + t && ("[" + t)[1..] == t;
    assert Match(k, all).None? && Match(k, "[" + t).None?;
    assert [Opener(j)] + ("[" + ReplaceAll(k, t, text)) == [Opener(j), '['] + ReplaceAll(k, t, text);
  }

  /** A marker of another kind is left alone unless it hides one of this kind. */
  lemma {:induction false} OtherMarker(k: Kind, j: Kind, b: string, rest: string, text: string)
    requires k != j && ']' !in b
    ensures var t := [Opener(j), '['] + b + "]";
            && (!Hides(k, b) ==> ReplaceAll(k, t + rest, text) == t + ReplaceAll(k, rest, text) && FindAll(k, t + rest) == FindAll(k, rest))
            && (Hides(k, b) ==> exists x :: FindAll(k, t + rest) == [x] + FindAll(k, rest))
  {
    hide Hides, ReplaceAll, FindAll, Match, Opener;
    var t := [Opener(j), '['] + b + "]";
    assert t + rest == [Opener(j), '['] + (b + "]" + rest);
    OpenerPassed(k, j, b + "]" + rest, text);
    FoundInBody(k, b, rest);
    if !Hides(k, b) {
      BodySkipped(k, b, rest, text);
      assert [Opener(j), '['] + (b + "]" + ReplaceAll(k, rest, text)) == t + ReplaceAll(k, rest, text);
    }
  }

  lemma {:induction false} QuadrupledRun(u: string)
    requires DigitRun(Quadruple(u) + "]").Some?
    ensures DigitRun(u + "]").Some?
  {
    if u != "" {
      var rest := Quadruple(u[1..]) + "]";
      assert (u + "]")[1..] == u[1..] + "]";
      QuadrupledFirst(u);
      assert (Quadruple(u) + "]")[0] == u[0] && u[0] != '%';
      assert Quadruple(u) + "]" == [u[0]] + rest && ([u[0]] + rest)[1..] == rest;
      if u[0] != ']' {
        QuadrupledRun(u[1..]);
      }
    }
  }

  lemma {:induction false} QuadrupledFirst(u: string)
    ensures u != "" ==> Quadruple(u) != "" && Quadruple(u)[0] == u[0]
    ensures u == "" ==> Quadruple(u) == ""
  {
  }

  /** After the first of four percent signs no digits follow. */
  lemma {:induction false} PercentsAreNoRun(u: string)
    requires u != "" && u[0] == '%'
    ensures DigitRun((Quadruple(u) + "]")[1..]).None?
  {
    assert Quadruple(u) == "%%%%" + Quadruple(u[1..]);
    assert (Quadruple(u) + "]")[1..][0] == '%';
  }

  /** What starts a marker once percent signs are quadrupled started one before. */
  lemma {:induction false} QuadrupledMatch(k: Kind, u: string)
    requires u != "" && ']' !in u && Match(k, Quadruple(u) + "]").Some?
    ensures Match(k, u + "]").Some?
  {
    hide CloseAt, DigitRun;
    var q, t := Quadruple(u) + "]", u + "]";
    QuadrupledFirst(u);
    assert u[0] == Opener(k) && q == [u[0]] + (Quadruple(u[1..]) + "]");
    QuadrupledFirst(u[1..]);
    assert q[1] == '[' && u[1..] != "" && u[1] == '[';
    assert Quadruple(u[1..]) == "[" + Quadruple(u[2..]) && q[2..] == Quadruple(u[2..]) + "]" && t[2..] == u[2..] + "]";
    assert u[2..] + "]" + "" == u[2..] + "]";
    CloseAtOf(u[2..], "");
    if k.ValueKind? {
      QuadrupledFirst(u[2..]);
      assert u[2..] != "" && u[2] in u && t[3..] == u[3..] + "]" && u[2..][1..] == u[3..];
      if u[2] == '%' {
        PercentsAreNoRun(u[2..]);
      }
      assert q[2..][1..] == q[3..] && u[2] != '%';
      assert Quadruple(u[2..]) == [u[2]] + Quadruple(u[3..]) && q[3..] == Quadruple(u[3..]) + "]";
      QuadrupledRun(u[3..]);
    }
  }

  lemma {:induction false} QuadrupledHides(k: Kind, u: string)
    requires ']' !in u && Hides(k, Quadruple(u))
    ensures Hides(k, u)
  {
    if u != "" {
      var q, rest := Quadruple(u), Quadruple(u[1..]);
      HidesStep(k, u);
      if u[0] == '%' {
        assert q == "%%%%"[..4] + rest;
        NoneHidden(k, rest, 4);
      } else {
        HidesStep(k, q);
        assert q[1..] == rest;
      }
      if Match(k, q + "]").Some? {
        QuadrupledMatch(k, u);
      } else {
        QuadrupledHides(k, u[1..]);
      }
    }
  }

  /** No marker starts at a percent sign. */
  lemma {:induction false} NoneHidden(k: Kind, rest: string, n: nat)
    requires n <= 4
    ensures Hides(k, "%%%%"[..n] + rest) <==> Hides(k, rest)
    ensures n > 0 ==> Match(k, "%%%%"[..n] + rest + "]").None?
  {
    var t := "%%%%"[..n] + rest;
    if n == 0 {
      assert t == rest;
    } else {
      assert t[0] == '%' && (t + "]")[0] == '%';
      assert t[1..] == "%%%%"[..n - 1] + rest;
      HidesStep(k, t);
      NoneHidden(k, rest, n - 1);
    }
  }

  /** A value marker hides nothing. */
  lemma {:induction false} ValueHidesNothing(k: Kind, b: string)
    requires Marker(ValueKind, b)
    ensures !Hides(k, b)
  {
    forall i | 0 <= i < |b| ensures Match(k, b[i..] + "]").None? {
      var t := b[i..] + "]";
      assert i + 1 < |b| ==> t[1] == b[1..][i] && IsDigit(b[1..][i]);
      assert i + 1 == |b| ==> t[1] == ']';
    }
  }

  /** The value markers of a statement whose indices can be read have no percent sign. */
  predicate PlainValues(gs: seq<Segment>) {
    forall g :: g in gs && g.Mark? && g.kind.ValueKind? ==> '%' !in g.body
  }

  lemma {:induction false} ApartTail(k: Kind, s: string, done: set<Kind>)
    requires s != "" && Apart(k, Lex(s), done)
    ensures Apart(k, Lex(s)[1..], done) && (PlainValues(Lex(s)) ==> PlainValues(Lex(s)[1..]))
    ensures Lex(s)[0].Mark? && Lex(s)[0].kind != k && Lex(s)[0].kind !in done ==> !Hides(k, Lex(s)[0].body)
  {
    var gs := Lex(s);
    assert gs[0] in gs;
    assert forall g :: g in gs[1..] ==> g in gs;
  }

  /** Replacing one kind of marker touches nothing else. */
  lemma {:induction false} OneKind(k: Kind, s: string, quad: bool, done: set<Kind>)
    requires Apart(k, Lex(s), done) && (quad ==> PlainValues(Lex(s))) && k !in done
    ensures ReplaceAll(k, ShowAll(Lex(s), quad, done), Replacement(k)) == ShowAll(Lex(s), quad, done + {k})
    decreases |s|
  {
    if s != "" {
      LexStep(s);
      ApartTail(k, s, done);
      var gs := Lex(s);
      var rest := ShowAll(gs[1..], quad, done);
      if gs[0].Char? {
        OneKind(k, s[1..], quad, done);
        NoNewMarker(k, s, quad, done);
        CharSkipped(k, s[0], rest, quad, done);
      } else {
        OneKind(k, After(gs[0].kind, s), quad, done);
        BodyShape(gs[0].kind, s);
        MarkPassed(k, gs[0], rest, quad, done);
      }
    }
  }

  lemma {:induction false} MarkPassed(k: Kind, g: Segment, rest: string, quad: bool, done: set<Kind>)
    requires g.Mark? && Marker(g.kind, g.body) && k !in done
    requires g.kind != k && g.kind !in done ==> !Hides(k, g.body)
    requires quad && g.kind.ValueKind? ==> '%' !in g.body
    ensures ReplaceAll(k, Show(g, quad, done) + rest, Replacement(k)) == Show(g, quad, done + {k}) + ReplaceAll(k, rest, Replacement(k))
  {
    if g.kind == k {
      MarkerFound(k, g.body, rest, quad);
    } else if g.kind in done {
      ReplacedInert(k, g.kind);
      SkipInert(k, Show(g, quad, done), rest, Replacement(k));
    } else {
      QuadrupleKeeps(g.body);
      if quad && Hides(k, Quadruple(g.body)) {
        QuadrupledHides(k, g.body);
      }
      OtherMarker(k, g.kind, BodyText(g.body, quad), rest, Replacement(k));
    }
  }

  lemma {:induction false} CharSkipped(k: Kind, c: char, rest: string, quad: bool, done: set<Kind>)
    requires Match(k, Show(Char(c), quad, done) + rest).None?
    ensures ReplaceAll(k, Show(Char(c), quad, done) + rest, Replacement(k))
         == Show(Char(c), quad, done + {k}) + ReplaceAll(k, rest, Replacement(k))
    ensures FindAll(k, Show(Char(c), quad, done) + rest) == FindAll(k, rest)
  {
    var t := Show(Char(c), quad, done);
    if t == "%%%%" {
      SkipInert(k, t, rest, Replacement(k));
    } else {
      assert (t + rest)[1..] == rest;
    }
  }

  lemma {:induction false} QuadrupledShows(s: string)
    ensures Quadruple(s) == ShowAll(Lex(s), true, {})
    decreases |s|
  {
    if s != "" {
      LexStep(s);
      var g := Lex(s)[0];
      if g.Char? {
        QuadrupledShows(s[1..]);
      } else {
        var after := After(g.kind, s);
        QuadrupledShows(after);
        MarkerText(g.kind, s);
        QuadrupleConcat([Opener(g.kind), '['] + g.body + "]", after);
        MarkQuadrupled(g.kind, g.body);
      }
    }
  }

  lemma {:induction false} MarkQuadrupled(k: Kind, b: string)
    ensures Quadruple([Opener(k), '['] + b + "]") == [Opener(k), '['] + Quadruple(b) + "]"
  {
    QuadrupleConcat([Opener(k), '['] + b, "]");
    QuadrupleConcat([Opener(k), '['], b);
    QuadrupleKeeps([Opener(k), '[']);
    QuadrupleKeeps("]");
  }

  const ALL_KINDS: set<Kind> := {FieldKind, TableKind, ValueKind}

  /** A pass finds every marker of its kind, and one more for each marker of another kind that
      hides one. */
  lemma {:induction false} FindsMore(k: Kind, s: string)
    ensures |FindAll(k, s)| >= |Bodies(k, Lex(s))| && forall b :: b in Bodies(k, Lex(s)) ==> b in FindAll(k, s)
    ensures Apart(k, Lex(s), {}) ==> FindAll(k, s) == Bodies(k, Lex(s))
    ensures !Apart(k, Lex(s), {}) ==> |FindAll(k, s)| > |Bodies(k, Lex(s))|
    decreases |s|
  {
    if s != "" {
      LexStep(s);
      var gs := Lex(s);
      assert forall g :: g in gs <==> g == gs[0] || g in gs[1..];
      if gs[0].Char? {
        assert Match(k, s).None?;
        FindsMore(k, s[1..]);
      } else {
        var j, b, rest := gs[0].kind, gs[0].body, After(gs[0].kind, s);
        FindsMore(k, rest);
        MarkerText(j, s);
        BodyShape(j, s);
        if j != k {
          OtherMarker(k, j, b, rest, "");
        }
      }
    }
  }

  /** The three passes together: they find exactly the markers the reading from left to right
      finds if and only if no marker has one of another kind inside, and every marker is
      replaced as if all were replaced at once as long as no table marker has a field marker
      inside. */
  lemma {:induction false} PassesAreSimultaneous(s: string)
    ensures (forall k :: FindAll(k, s) == Bodies(k, Lex(s))) <==> Separate(s)
    ensures Apart(FieldKind, Lex(s), {}) && PlainValues(Lex(s)) ==> Template(s) == ShowAll(Lex(s), true, ALL_KINDS)
  {
    if Separate(s) {
      forall k ensures FindAll(k, s) == Bodies(k, Lex(s)) {
        assert Apart(k, Lex(s), {});
        FindsMore(k, s);
      }
    } else {
      var k: Kind :| !Apart(k, Lex(s), {});
      FindsMore(k, s);
      assert FindAll(k, s) != Bodies(k, Lex(s));
    }
    if Apart(FieldKind, Lex(s), {}) && PlainValues(Lex(s)) {
      TemplateShows(s);
    }
  }

  lemma {:induction false} ValuesApart(s: string, k: Kind, done: set<Kind>)
    requires forall j: Kind :: j != k && j !in done ==> j == ValueKind
    ensures Apart(k, Lex(s), done)
    decreases |s|
  {
    if s != "" {
      LexStep(s);
      var gs := Lex(s);
      if gs[0].Char? {
        ValuesApart(s[1..], k, done);
      } else {
        ValuesApart(After(gs[0].kind, s), k, done);
        BodyShape(gs[0].kind, s);
        if gs[0].kind.ValueKind? {
          ValueHidesNothing(k, gs[0].body);
        }
      }
      assert forall g :: g in gs <==> g == gs[0] || g in gs[1..];
    }
  }

  lemma {:induction false} TemplateShows(s: string)
    requires Apart(FieldKind, Lex(s), {}) && PlainValues(Lex(s))
    ensures Template(s) == ShowAll(Lex(s), true, ALL_KINDS)
  {
    QuadrupledShows(s);
    OneKind(FieldKind, s, true, {});
    ValuesApart(s, TableKind, {FieldKind});
    OneKind(TableKind, s, true, {FieldKind});
    ValuesApart(s, ValueKind, {FieldKind, TableKind});
    OneKind(ValueKind, s, true, {FieldKind, TableKind});
    assert {} + {FieldKind} == {FieldKind} && {FieldKind} + {TableKind} == {FieldKind, TableKind};
    assert {FieldKind, TableKind} + {ValueKind} == ALL_KINDS;
  }

  lemma {:induction false} HiddenMarkerLexes()
    ensures Lex("![a?[1]") == [Mark(FieldKind, "a?[1")]
  {
    var s, b := "![a?[1]", "a?[1";
    hide DigitRun, CloseAt;
    assert s == [Opener(FieldKind), '['] + b + "]" + "";
    MarkerFound(FieldKind, b, "", false);
    assert Lex(s) == [Mark(FieldKind, b)] + Lex("") == [Mark(FieldKind, b)];
  }

  /** A statement whose passes find too much: the field marker is `a?[1`, and the pass
      for values finds an index inside it. */
  lemma {:induction false} HiddenMarker()
    ensures Lex("![a?[1]") == [Mark(FieldKind, "a?[1")]
    ensures FindAll(ValueKind, "![a?[1]") != [] && Bodies(ValueKind, Lex("![a?[1]")) == [] && !Separate("![a?[1]")
  {
    var s, b := "![a?[1]", "a?[1";
    HiddenMarkerLexes();
    hide Lex, CloseAt, DigitRun;
    assert [Mark(FieldKind, b)][1..] == [];
    assert b[1..] + "]" == [Opener(ValueKind), '['] + "1" + "]" + "";
    assert "1"[1..] == "";
    MarkerFound(ValueKind, "1", "", false);
    assert Hides(ValueKind, b);
    assert Mark(FieldKind, b) in Lex(s) && !Apart(ValueKind, Lex(s), {});
    FindsMore(ValueKind, s);
  }

  // ----- formatting twice -----

  /** Printf formatting with `%s` and `%%` alone; None where the result would carry an error
      note: another verb, an argument missing or one left over. */
  function Sprintf(t: string, args: seq<string>): Option<string>
    decreases |t|
  {
    if t == "" then if args == [] then Some("") else None
    else if t[0] != '%' then Prefixed([t[0]], Sprintf(t[1..], args))
    else if |t| < 2 then None
    else if t[1] == '%' then Prefixed("%", Sprintf(t[2..], args))
    else if t[1] == 's' && args != [] then Prefixed(args[0], Sprintf(t[2..], args[1..]))
    else None
  }

  function Prefixed(p: string, r: Option<string>): Option<string> {
    match r case None => None case Some(s) => Some(p + s)
  }

  function Count(k: Kind, gs: seq<Segment>): nat {
    if gs == [] then 0 else (if gs[0].Mark? && gs[0].kind == k then 1 else 0) + Count(k, gs[1..])
  }

  /** The statement with every marker replaced at the same time, and all else as it was. */
  function Substituted(gs: seq<Segment>, fields: seq<string>, tables: seq<string>): string
    requires |fields| == Count(FieldKind, gs) && |tables| == Count(TableKind, gs)
  {
    if gs == [] then ""
    else match gs[0]
      case Char(c) => [c] + Substituted(gs[1..], fields, tables)
      case Mark(FieldKind, _) => fields[0] + Substituted(gs[1..], fields[1..], tables)
      case Mark(TableKind, _) => tables[0] + Substituted(gs[1..], fields, tables[1..])
      case Mark(ValueKind, _) => "?" + Substituted(gs[1..], fields, tables)
  }

  /** What the first pass leaves for the second. */
  function Halfway(gs: seq<Segment>, fields: seq<string>): string
    requires |fields| == Count(FieldKind, gs)
  {
    if gs == [] then ""
    else match gs[0]
      case Char(c) => (if c == '%' then "%%" else [c]) + Halfway(gs[1..], fields)
      case Mark(FieldKind, _) => fields[0] + Halfway(gs[1..], fields[1..])
      case Mark(TableKind, _) => "%s" + Halfway(gs[1..], fields)
      case Mark(ValueKind, _) => "?" + Halfway(gs[1..], fields)
  }

  lemma {:induction false} CharPasses(c: char, rest: string, args: seq<string>, r: string)
    requires Sprintf(rest, args) == Some(r)
    ensures Sprintf((if c == '%' then "%%%%" else [c]) + rest, args) == Some((if c == '%' then "%%" else [c]) + r)
  {
    if c == '%' {
      assert ("%%%%" + rest)[2..] == "%%" + rest && ("%%" + rest)[2..] == rest;
      assert "%" + ("%" + r) == "%%" + r;
    } else {
      assert ([c] + rest)[1..] == rest;
    }
  }

  lemma {:induction false} VerbPasses(rest: string, args: seq<string>, r: string)
    requires args != [] && Sprintf(rest, args[1..]) == Some(r)
    ensures Sprintf("%s" + rest, args) == Some(args[0] + r)
  {
    assert ("%s" + rest)[2..] == rest;
  }

  lemma {:induction false} LateVerbPasses(rest: string, args: seq<string>, r: string)
    requires Sprintf(rest, args) == Some(r)
    ensures Sprintf("%%s" + rest, args) == Some("%s" + r)
  {
    var t := "%%s" + rest;
    assert t[2..] == "s" + rest && ("s" + rest)[1..] == rest;
    assert "%" + ("s" + r) == "%s" + r;
  }

  lemma {:induction false} FirstPass(gs: seq<Segment>, fields: seq<string>)
    requires |fields| == Count(FieldKind, gs)
    ensures Sprintf(ShowAll(gs, true, ALL_KINDS), fields) == Some(Halfway(gs, fields))
  {
    if gs != [] {
      var rest, more := ShowAll(gs[1..], true, ALL_KINDS), gs[1..];
      match gs[0]
      case Char(c) =>
        FirstPass(more, fields);
        CharPasses(c, rest, fields, Halfway(more, fields));
      case Mark(FieldKind, _) =>
        FirstPass(more, fields[1..]);
        VerbPasses(rest, fields, Halfway(more, fields[1..]));
      case Mark(TableKind, _) =>
        FirstPass(more, fields);
        LateVerbPasses(rest, fields, Halfway(more, fields));
      case Mark(ValueKind, _) =>
        FirstPass(more, fields);
        CharPasses('?', rest, fields, Halfway(more, fields));
    }
  }

  predicate NoPercent(ss: seq<string>) {
    forall s :: s in ss ==> '%' !in s
  }

  lemma {:induction false} PlainText(p: string, t: string, args: seq<string>)
    requires '%' !in p
    ensures Sprintf(p + t, args) == Prefixed(p, Sprintf(t, args))
    decreases |p|
  {
    if p == "" {
      assert p + t == t;
      if Sprintf(t, args).Some? {
        assert "" + Sprintf(t, args).value == Sprintf(t, args).value;
      }
    } else {
      assert (p + t)[1..] == p[1..] + t;
      assert p[0] in p && forall c :: c in p[1..] ==> c in p;
      PlainText(p[1..], t, args);
      if Sprintf(t, args).Some? {
        assert [p[0]] + (p[1..] + Sprintf(t, args).value) == p + Sprintf(t, args).value;
      }
    }
  }

  lemma {:induction false} DoubledPasses(c: char, rest: string, args: seq<string>, r: string)
    requires Sprintf(rest, args) == Some(r)
    ensures Sprintf((if c == '%' then "%%" else [c]) + rest, args) == Some([c] + r)
  {
    if c == '%' {
      assert ("%%" + rest)[2..] == rest;
    } else {
      assert ([c] + rest)[1..] == rest;
    }
  }

  lemma {:induction false} SecondPass(gs: seq<Segment>, fields: seq<string>, tables: seq<string>)
    requires |fields| == Count(FieldKind, gs) && |tables| == Count(TableKind, gs) && NoPercent(fields)
    ensures Sprintf(Halfway(gs, fields), tables) == Some(Substituted(gs, fields, tables))
  {
    if gs != [] {
      var more := gs[1..];
      match gs[0]
      case Char(c) =>
        SecondPass(more, fields, tables);
        DoubledPasses(c, Halfway(more, fields), tables, Substituted(more, fields, tables));
      case Mark(FieldKind, _) =>
        SecondPass(more, fields[1..], tables);
        PlainText(fields[0], Halfway(more, fields[1..]), tables);
      case Mark(TableKind, _) =>
        SecondPass(more, fields, tables[1..]);
        VerbPasses(Halfway(more, fields), tables, Substituted(more, fields, tables[1..]));
      case Mark(ValueKind, _) =>
        SecondPass(more, fields, tables);
        DoubledPasses('?', Halfway(more, fields), tables, Substituted(more, fields, tables));
    }
  }

  // ----- no percent sign may come from a column -----

  function Percents(s: string): nat {
    if s == "" then 0 else (if s[0] == '%' then 1 else 0) + Percents(s[1..])
  }

  function TotalPercents(ss: seq<string>): nat {
    if ss == [] then 0 else Percents(ss[0]) + TotalPercents(ss[1..])
  }

  function TotalLength(ss: seq<string>): nat {
    if ss == [] then 0 else |ss[0]| + TotalLength(ss[1..])
  }

  lemma {:induction false} PercentsOfConcat(a: string, b: string)
    ensures Percents(a + b) == Percents(a) + Percents(b)
  {
    if a == "" {
      assert a + b == b;
    } else {
      assert (a + b)[1..] == a[1..] + b;
      PercentsOfConcat(a[1..], b);
    }
  }

  /** Every percent sign of a format goes into a verb or a doubled sign. */
  lemma {:induction false} FormatAccounting(t: string, args: seq<string>)
    requires Sprintf(t, args).Some?
    ensures 2 * |Sprintf(t, args).value| + Percents(t) + 3 * |args| == 2 * |t| + 2 * TotalLength(args)
    decreases |t|
  {
    if t != "" {
      if t[0] != '%' {
        FormatAccounting(t[1..], args);
      } else {
        assert Percents(t) == 1 + Percents(t[1..]) && t[1..][1..] == t[2..];
        FormatAccounting(t[2..], if t[1] == '%' then args else args[1..]);
      }
    }
  }

  lemma {:induction false} HalfwayAccounting(gs: seq<Segment>, fields: seq<string>, tables: seq<string>)
    requires |fields| == Count(FieldKind, gs) && |tables| == Count(TableKind, gs)
    ensures 2 * |Substituted(gs, fields, tables)| + Percents(Halfway(gs, fields)) + 3 * |tables|
         == 2 * |Halfway(gs, fields)| + 2 * TotalLength(tables) + TotalPercents(fields)
  {
    if gs != [] {
      match gs[0]
      case Char(c) =>
        HalfwayAccounting(gs[1..], fields, tables);
        PercentsOfConcat(if c == '%' then "%%" else [c], Halfway(gs[1..], fields));
        OnePercent(c);
      case Mark(FieldKind, _) =>
        HalfwayAccounting(gs[1..], fields[1..], tables);
        PercentsOfConcat(fields[0], Halfway(gs[1..], fields[1..]));
      case Mark(TableKind, _) =>
        HalfwayAccounting(gs[1..], fields, tables[1..]);
        PercentsOfConcat("%s", Halfway(gs[1..], fields));
        OnePercent('s');
      case Mark(ValueKind, _) =>
        HalfwayAccounting(gs[1..], fields, tables);
        PercentsOfConcat("?", Halfway(gs[1..], fields));
        OnePercent('?');
    }
  }

  lemma {:induction false} OnePercent(c: char)
    ensures Percents([c]) == if c == '%' then 1 else 0
    ensures Percents("%%") == 2 && Percents("%s") == 1
  {
    assert [c][1..] == "";
    assert "%%"[1..] == "%" && "%"[1..] == "" && "%s"[1..] == "s" && "s"[1..] == "";
  }

  lemma {:induction false} NoPercentCounts(ss: seq<string>)
    ensures TotalPercents(ss) == 0 <==> NoPercent(ss)
  {
    if ss != [] {
      NoPercentCounts(ss[1..]);
      PercentCounts(ss[0]);
      assert forall s :: s in ss <==> s == ss[0] || s in ss[1..];
    }
  }

  lemma {:induction false} PercentCounts(s: string)
    ensures Percents(s) == 0 <==> '%' !in s
  {
    if s != "" {
      PercentCounts(s[1..]);
      assert s == [s[0]] + s[1..];
    }
  }

  function TwoPasses(template: string, fields: seq<string>, tables: seq<string>): Option<string> {
    match Sprintf(template, fields) case None => None case Some(t) => Sprintf(t, tables)
  }

  /** Formatting twice is the substitution of all markers at once exactly when no column text
      has a percent sign. */
  lemma {:induction false} TwoPassesSubstitute(s: string, fields: seq<string>, tables: seq<string>)
    requires Apart(FieldKind, Lex(s), {}) && PlainValues(Lex(s))
    requires |fields| == Count(FieldKind, Lex(s)) && |tables| == Count(TableKind, Lex(s))
    ensures TwoPasses(Template(s), fields, tables) == Some(Substituted(Lex(s), fields, tables)) <==> NoPercent(fields)
  {
    PassesAreSimultaneous(s);
    FirstPass(Lex(s), fields);
    NoPercentCounts(fields);
    if NoPercent(fields) {
      SecondPass(Lex(s), fields, tables);
    } else if Sprintf(Halfway(Lex(s), fields), tables).Some? {
      FormatAccounting(Halfway(Lex(s), fields), tables);
      HalfwayAccounting(Lex(s), fields, tables);
    }
  }

  // ----- the statement object -----

  /** The 1-based index a value marker names, if there is such a value. */
  predicate IndexOk(body: string, n: nat) {
    ParseInt(body).Some? && 1 <= ParseInt(body).value <= n
  }

  function ValueNamed(body: string, given: seq<Value>): Value
    requires IndexOk(body, |given|)
  {
    given[ParseInt(body).value - 1]
  }

  /** The values the markers name; all of them when no marker names any. */
  function Picked(bodies: seq<string>, given: seq<Value>): seq<Value>
    requires forall b :: b in bodies ==> IndexOk(b, |given|)
  {
    if bodies == [] then given else seq(|bodies|, i requires 0 <= i < |bodies| => ValueNamed(bodies[i], given))
  }

  /** A column a marker resolved to: its SQL, and the arguments that SQL needs. */
  datatype Column = Column(text: string, args: seq<Value>)

  /** The columns and tables of the model being queried. */
  datatype Model = Model(columns: map<string, Column>, tables: map<string, string>)

  function Texts(cs: seq<Column>): seq<string> {
    seq(|cs|, i requires 0 <= i < |cs| => cs[i].text)
  }

  function ArgsOf(cs: seq<Column>): seq<Value> {
    if cs == [] then [] else ArgsOf(cs[..|cs| - 1]) + cs[|cs| - 1].args
  }

  class Statement {
    const template: string
    const fields: seq<string>
    const tables: seq<string>
    const values: seq<Value>
    var used: bool
    var columns: seq<Column>        // what the fields resolved to
    var tableNames: seq<string>

    constructor (template: string, fields: seq<string>, tables: seq<string>, values: seq<Value>)
      ensures this.template == template && this.fields == fields && this.tables == tables && this.values == values
      ensures !used && columns == [] && tableNames == []
    {
      this.template, this.fields, this.tables, this.values := template, fields, tables, values;
      used, columns, tableNames := false, [], [];
    }

    /** Look up every field and table in the model.  A statement that was resolved before stays
        as it is, whatever the model. */
    method Resolve(m: Model) returns (r: Result<()>)
      modifies this
      ensures old(used) && |old(columns)| == |fields| ==> r.Ok? && used && columns == old(columns) && tableNames == old(tableNames)
      ensures !(old(used) && |old(columns)| == |fields|) ==>
                (r.Ok? <==> (forall f :: f in fields ==> f in m.columns) && forall t :: t in tables ==> t in m.tables)
      ensures !(old(used) && |old(columns)| == |fields|) && r.Ok? ==>
                && used && |columns| == |fields| && (forall i :: 0 <= i < |fields| ==> columns[i] == m.columns[fields[i]])
                && |tableNames| == |tables| && (forall i :: 0 <= i < |tables| ==> tableNames[i] == m.tables[tables[i]])
    {
      if used && |columns| == |fields| {
        return Ok(());
      }
      used := true;
      columns, tableNames := [], [];
      for i := 0 to |fields|
        invariant used && |columns| == i && tableNames == []
        invariant forall j :: 0 <= j < i ==> fields[j] in m.columns && columns[j] == m.columns[fields[j]]
      {
        if fields[i] !in m.columns {
          return Panic;
        }
        columns := columns + [m.columns[fields[i]]];
      }
      assert forall j :: 0 <= j < |fields| ==> fields[j] in m.columns && columns[j] == m.columns[fields[j]];
      for i := 0 to |tables|
        invariant |columns| == |fields| && used && |tableNames| == i
        invariant forall j :: 0 <= j < |fields| ==> fields[j] in m.columns && columns[j] == m.columns[fields[j]]
        invariant forall j :: 0 <= j < i ==> tables[j] in m.tables && tableNames[j] == m.tables[tables[j]]
      {
        if tables[i] !in m.tables {
          return Panic;
        }
        tableNames := tableNames + [m.tables[tables[i]]];
      }
      return Ok(());
    }

    /** The text, None where it carries formatting errors, and its arguments: those of the
        columns, then the values. */
    method SQL() returns (r: Result<(Option<string>, seq<Value>)>)
      ensures r.Ok? <==> used
      ensures used && columns == [] && tableNames == [] ==> r == Ok((Some(template), values))
      ensures used && !(columns == [] && tableNames == []) ==>
                r == Ok((TwoPasses(template, Texts(columns), tableNames), ArgsOf(columns) + values))
    {
      if !used {
        return Panic;
      }
      if columns == [] && tableNames == [] {
        return Ok((Some(template), values));
      }
      var names: seq<string>, args: seq<Value> := [], [];
      for i := 0 to |columns|
        invariant names == Texts(columns[..i]) && args == ArgsOf(columns[..i])
      {
        assert columns[..i + 1][..i] == columns[..i];
        names := names + [columns[i].text];
        args := args + columns[i].args;
      }
      assert columns[..|columns|] == columns;
      return Ok((TwoPasses(template, names, tableNames), args + values));
    }
  }

  /** Read a statement with the values given to it.  It panics exactly when a value marker names
      no value. */
  method ParseExprStatement(statement: string, given: seq<Value>) returns (r: Result<Statement>)
    ensures r.Ok? <==> forall b :: b in FindAll(ValueKind, statement) ==> IndexOk(b, |given|)
    ensures r.Ok? ==>
              var s := r.value;
              && fresh(s) && !s.used
              && s.template == Template(statement)
              && s.fields == FindAll(FieldKind, statement) && s.tables == FindAll(TableKind, statement)
              && s.values == Picked(FindAll(ValueKind, statement), given)
  {
    var indices := FindAll(ValueKind, statement);
    var values: seq<Value> := [];
    for i := 0 to |indices|
      invariant |values| == i
      invariant forall j :: 0 <= j < i ==> IndexOk(indices[j], |given|) && values[j] == ValueNamed(indices[j], given)
    {
      var n := ParseInt(indices[i]);
      assert indices[i] in FindAll(ValueKind, statement);
      if n.None? {
        return Panic;
      }
      if n.value - 1 < 0 || n.value - 1 >= |given| {
        return Panic;
      }
      values := values + [given[n.value - 1]];
    }
    if |indices| == 0 && |given| > 0 {
      values := given;
    }
    assert values == Picked(indices, given);
    var s := new Statement(Template(statement), FindAll(FieldKind, statement), FindAll(TableKind, statement), values);
    return Ok(s);
  }

  // ----- what a resolved statement says -----

  /** The text SQL returns for the statement `s`. */
  function Rendered(s: string, columns: seq<Column>, tables: seq<string>): Option<string> {
    if columns == [] && tables == [] then Some(Template(s)) else TwoPasses(Template(s), Texts(columns), tables)
  }

  lemma {:induction false} IndicesArePlain(s: string, n: nat)
    requires forall b :: b in FindAll(ValueKind, s) ==> IndexOk(b, n)
    ensures PlainValues(Lex(s))
  {
    FindsMore(ValueKind, s);
    forall g | g in Lex(s) && g.Mark? && g.kind.ValueKind? ensures '%' !in g.body {
      BodyListed(ValueKind, Lex(s), g);
      ParsedHasNoPercent(g.body);
    }
  }

  lemma {:induction false} BodyListed(k: Kind, gs: seq<Segment>, g: Segment)
    requires g in gs && g.Mark? && g.kind == k
    ensures g.body in Bodies(k, gs)
  {
    if gs[0] != g {
      BodyListed(k, gs[1..], g);
    }
  }

  lemma {:induction false} ParsedHasNoPercent(b: string)
    requires ParseInt(b).Some?
    ensures '%' !in b
  {
    var signed := b[0] == '-' || b[0] == '+';
    ParsedAreDigits(if signed then b[1..] else b);
    assert b == [b[0]] + b[1..];
  }

  lemma {:induction false} CountsBodies(k: Kind, gs: seq<Segment>)
    ensures |Bodies(k, gs)| == Count(k, gs)
  {
    if gs != [] {
      CountsBodies(k, gs[1..]);
    }
  }

  predicate HasPercent(gs: seq<Segment>) {
    exists g :: g in gs && g == Char('%')
  }

  /** With no column or table to put in, the doubled percent signs stay doubled. */
  lemma {:induction false} Unformatted(gs: seq<Segment>)
    requires Count(FieldKind, gs) == 0 && Count(TableKind, gs) == 0
    ensures |ShowAll(gs, true, ALL_KINDS)| >= |Substituted(gs, [], [])|
    ensures ShowAll(gs, true, ALL_KINDS) == Substituted(gs, [], []) <==> !HasPercent(gs)
    ensures |ShowAll(gs, true, ALL_KINDS)| == |Substituted(gs, [], [])| <==> !HasPercent(gs)
  {
    if gs != [] {
      Unformatted(gs[1..]);
      var more := gs[1..];
      PercentBehind(gs);
      var first, rest := Show(gs[0], true, ALL_KINDS), ShowAll(more, true, ALL_KINDS);
      assert ShowAll(gs, true, ALL_KINDS) == first + rest;
      assert gs[0] != Char('%') ==> |first| == 1 && (first + rest)[1..] == rest;
      assert gs[0] != Char('%') ==> Substituted(gs, [], [])[1..] == Substituted(more, [], []);
    }
  }

  lemma {:induction false} PercentBehind(gs: seq<Segment>)
    requires gs != []
    ensures HasPercent(gs) <==> gs[0] == Char('%') || HasPercent(gs[1..])
  {
    if HasPercent(gs[1..]) {
      var g :| g in gs[1..] && g == Char('%');
      assert g in gs;
    }
    if gs[0] == Char('%') {
      assert gs[0] in gs;
    }
    assert forall g :: g in gs ==> g == gs[0] || g in gs[1..];
  }

  /** The code looks up as many columns and tables as the statement has markers exactly when no
      marker hides a field or table marker.  Then the text of the resolved statement is the
      statement with every marker replaced at once: exactly when no column text has a percent
      sign, if it has a column or table marker, and exactly when it has no percent sign of its
      own, if it has none. */
  lemma {:induction false} RawStatementRenders(s: string, given: seq<Value>, columns: seq<Column>, tables: seq<string>)
    requires forall b :: b in FindAll(ValueKind, s) ==> IndexOk(b, |given|)
    requires |columns| == |FindAll(FieldKind, s)| && |tables| == |FindAll(TableKind, s)|
    ensures |columns| == Count(FieldKind, Lex(s)) && |tables| == Count(TableKind, Lex(s)) <==>
              Apart(FieldKind, Lex(s), {}) && Apart(TableKind, Lex(s), {})
    ensures |columns| == Count(FieldKind, Lex(s)) && |tables| == Count(TableKind, Lex(s)) ==>
              (Rendered(s, columns, tables) == Some(Substituted(Lex(s), Texts(columns), tables)) <==>
                if columns == [] && tables == [] then !HasPercent(Lex(s)) else NoPercent(Texts(columns)))
  {
    FindsMore(FieldKind, s);
    FindsMore(TableKind, s);
    CountsBodies(FieldKind, Lex(s));
    CountsBodies(TableKind, Lex(s));
    if |columns| == Count(FieldKind, Lex(s)) && |tables| == Count(TableKind, Lex(s)) {
      IndicesArePlain(s, |given|);
      if columns == [] && tables == [] {
        TemplateShows(s);
        Unformatted(Lex(s));
        assert Texts(columns) == [];
      } else {
        TwoPassesSubstitute(s, Texts(columns), tables);
      }
    }
  }

  // ----- the arguments -----

  /** Which argument a placeholder stands for: one of a column's own, or a value. */
  datatype Source = OfColumn(column: nat, i: nat) | OfValue(i: nat)

  function ColumnSources(column: nat, n: nat): seq<Source> {
    seq(n, i requires 0 <= i < n => OfColumn(column, i))
  }

  function ValueSources(first: nat, n: nat): seq<Source> {
    seq(n, i requires 0 <= i < n => OfValue(first + i))
  }

  /** A placeholder for a value: a marker, or a plain question mark. */
  predicate IsHole(g: Segment) {
    g == Char('?') || (g.Mark? && g.kind.ValueKind?)
  }

  function HoleCount(gs: seq<Segment>): nat {
    if gs == [] then 0 else (if IsHole(gs[0]) then 1 else 0) + HoleCount(gs[1..])
  }

  /** The order in which the text asks for its arguments; `counts` tells how many each column
      needs. */
  function Asked(gs: seq<Segment>, counts: seq<nat>, column: nat, value: nat): seq<Source>
    requires |counts| == Count(FieldKind, gs)
  {
    if gs == [] then []
    else if IsHole(gs[0]) then [OfValue(value)] + Asked(gs[1..], counts, column, value + 1)
    else if gs[0].Mark? && gs[0].kind.FieldKind? then
      ColumnSources(column, counts[0]) + Asked(gs[1..], counts[1..], column + 1, value)
    else Asked(gs[1..], counts, column, value)
  }

  /** The order in which SQL returns them. */
  function Returned(counts: seq<nat>, column: nat): seq<Source> {
    if counts == [] then [] else ColumnSources(column, counts[0]) + Returned(counts[1..], column + 1)
  }

  /** No column that needs arguments comes after a placeholder for a value. */
  predicate ColumnsFirst(gs: seq<Segment>, counts: seq<nat>)
    requires |counts| == Count(FieldKind, gs)
  {
    gs == []
    || (if IsHole(gs[0]) then (forall n :: n in counts ==> n == 0) && ColumnsFirst(gs[1..], counts)
        else ColumnsFirst(gs[1..], if gs[0].Mark? && gs[0].kind.FieldKind? then counts[1..] else counts))
  }

  lemma {:induction false} ReturnedNothing(counts: seq<nat>, column: nat)
    ensures Returned(counts, column) == [] <==> forall n :: n in counts ==> n == 0
    ensures forall s :: s in Returned(counts, column) ==> s.OfColumn?
  {
    if counts != [] {
      ReturnedNothing(counts[1..], column + 1);
      assert |Returned(counts, column)| == counts[0] + |Returned(counts[1..], column + 1)|;
      assert Returned(counts, column) == [] <==> counts[0] == 0 && Returned(counts[1..], column + 1) == [];
      assert counts[0] in counts && forall n :: n in counts[1..] ==> n in counts;
      assert forall n :: n in counts <==> n == counts[0] || n in counts[1..];
      assert forall s :: s in Returned(counts, column) ==>
                           s in ColumnSources(column, counts[0]) || s in Returned(counts[1..], column + 1);
    }
  }

  /** The arguments come in the order the text asks for them exactly when there is a value for
      each placeholder, and no column that needs arguments comes after one. */
  lemma {:induction false} ArgumentsInOrder(gs: seq<Segment>, counts: seq<nat>, values: nat, column: nat, value: nat)
    requires |counts| == Count(FieldKind, gs)
    ensures Asked(gs, counts, column, value) == Returned(counts, column) + ValueSources(value, values) <==>
              HoleCount(gs) == values && ColumnsFirst(gs, counts)
    decreases gs, 1
  {
    var back := Returned(counts, column) + ValueSources(value, values);
    ReturnedNothing(counts, column);
    if gs == [] {
      assert |back| == |Returned(counts, column)| + values;
      assert counts == [];
    } else if IsHole(gs[0]) {
      if Returned(counts, column) == [] {
        assert back == ValueSources(value, values);
        HoleInOrder(gs, counts, values, column, value);
      } else {
        assert back[0] == Returned(counts, column)[0] && Returned(counts, column)[0] in Returned(counts, column);
      }
    } else if gs[0].Mark? && gs[0].kind.FieldKind? {
      ArgumentsInOrder(gs[1..], counts[1..], values, column + 1, value);
      var mine, rest := ColumnSources(column, counts[0]), Returned(counts[1..], column + 1) + ValueSources(value, values);
      assert back == mine + rest;
      Cancel(mine, Asked(gs[1..], counts[1..], column + 1, value), rest);
    } else {
      ArgumentsInOrder(gs[1..], counts, values, column, value);
    }
  }

  lemma {:induction false} HoleInOrder(gs: seq<Segment>, counts: seq<nat>, values: nat, column: nat, value: nat)
    requires |counts| == Count(FieldKind, gs) && gs != [] && IsHole(gs[0])
    requires Returned(counts, column) == [] && forall n :: n in counts ==> n == 0
    ensures Asked(gs, counts, column, value) == ValueSources(value, values) <==>
              HoleCount(gs) == values && ColumnsFirst(gs, counts)
    decreases gs, 0
  {
    var later, here := Asked(gs[1..], counts, column, value + 1), [OfValue(value)];
    if values > 0 {
      var rest := ValueSources(value + 1, values - 1);
      ArgumentsInOrder(gs[1..], counts, values - 1, column, value + 1);
      assert Returned(counts, column) + rest == rest;
      FirstValue(value, values);
      Cancel(here, later, rest);
    } else {
      assert |here + later| > |ValueSources(value, values)|;
    }
  }

  lemma {:induction false} FirstValue(first: nat, n: nat)
    requires n > 0
    ensures ValueSources(first, n) == [OfValue(first)] + ValueSources(first + 1, n - 1)
  {
  }

  lemma {:induction false} Cancel(a: seq<Source>, b: seq<Source>, c: seq<Source>)
    ensures a + b == a + c <==> b == c
  {
    if a + b == a + c {
      assert b == (a + b)[|a|..] && c == (a + c)[|a|..];
    }
  }
}
