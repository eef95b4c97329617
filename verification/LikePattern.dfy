/** The pattern lookups: how a search string becomes the argument of LIKE, and what LIKE then
    matches.

    The reading of LIKE is section 8.5 of ISO/IEC 9075:1992 with backslash as the escape
    character; an escape before an ordinary character stands for that character, and a
    pattern that ends in an escape matches nothing. */
module LikePattern {
  import opened Sequences

  datatype Driver = MySQL | Postgres | SQLite

  datatype PatternName =
    | IExact | Contains | IContains | StartsWith | IStartsWith | EndsWith | IEndsWith

  /** The operator a driver writes for a lookup, and whether it lowers its right-hand side. */
  datatype Operator =
    | Equals(lowerRhs: bool)
    | Likes(lowerRhs: bool, escapeClause: bool)

  // ----- building the argument -----

  /** Every occurrence of `c` replaced by `with`. */
  function ReplaceAll(s: string, c: char, with: string): string {
    if s == "" then "" else (if s[0] == c then with else [s[0]]) + ReplaceAll(s[1..], c, with)
  }

  function PrepForLikeQuery(s: string): string {
    ReplaceAll(ReplaceAll(s, '%', "\\%"), '_', "\\_")
  }

  /** The text before and after the search string in the registered pattern. */
  function PatternAffixes(p: PatternName): (string, string) {
    match p
    case IExact => ("", "")
    case Contains => ("%", "%")
    case IContains => ("%", "%")
    case StartsWith => ("", "%")
    case IStartsWith => ("", "%")
    case EndsWith => ("%", "")
    case IEndsWith => ("%", "")
  }

  /** The argument bound to the placeholder of a pattern lookup. */
  function PatternArgument(p: PatternName, search: string): string {
    PatternAffixes(p).0 + PrepForLikeQuery(search) + PatternAffixes(p).1
  }

  /** The lookups whose column and placeholder are wrapped in LOWER. */
  predicate FoldsColumn(p: PatternName) {
    p.IExact? || p.IContains? || p.IStartsWith? || p.IEndsWith?
  }

  function OperatorRhs(d: Driver, p: PatternName): Operator {
    match d
    case MySQL =>
      if p.IExact? then Equals(true) else Likes(!FoldsColumn(p), false)
    case Postgres =>
      if p.IExact? then Equals(true) else Likes(FoldsColumn(p), false)
    case SQLite =>
      Likes(false, true)
  }

  // ----- what the database makes of it -----

  function LowerChar(c: char): char {
    if 'A' <= c <= 'Z' then c - 'A' + 'a' else c
  }

  function Lower(s: string): (r: string)
    ensures |r| == |s|
    ensures forall i :: 0 <= i < |s| ==> r[i] == LowerChar(s[i])
  {
    if s == "" then "" else [LowerChar(s[0])] + Lower(s[1..])
  }

  function FoldIf(fold: bool, s: string): string {
    if fold then Lower(s) else s
  }

  /** LIKE with escape character backslash. */
  predicate Like(p: string, t: string)
    decreases |p| + |t|
  {
    if p == "" then t == ""
    else if p[0] == '%' then Like(p[1..], t) || (t != "" && Like(p, t[1..]))
    else if p[0] == '_' then t != "" && Like(p[1..], t[1..])
    else if p[0] == '\\' then |p| >= 2 && t != "" && t[0] == p[1] && Like(p[2..], t[1..])
    else t != "" && t[0] == p[0] && Like(p[1..], t[1..])
  }

  /** Does a row whose column holds `t` satisfy the rendered condition?  `ignoreCase` says
      whether comparison on that column ignores case; the LIKE of SQLite always does. */
  predicate RowMatches(d: Driver, ignoreCase: bool, p: PatternName, search: string, t: string) {
    var op := OperatorRhs(d, p);
    var rhs := FoldIf(op.lowerRhs, FoldIf(FoldsColumn(p), PatternArgument(p, search)));
    var lhs := FoldIf(FoldsColumn(p), t);
    var ci := ignoreCase || d.SQLite?;
    if op.Equals? then FoldIf(ci, lhs) == FoldIf(ci, rhs)
    else Like(FoldIf(ci, rhs), FoldIf(ci, lhs))
  }

  // ----- what the lookup promises -----

  predicate Substring(s: string, t: string) {
    exists k :: 0 <= k <= |t| && s <= t[k..]
  }

  predicate Suffix(s: string, t: string) {
    |s| <= |t| && t[|t| - |s|..] == s
  }

  predicate Related(p: PatternName, s: string, t: string) {
    match p
    case IExact => s == t
    case Contains => Substring(s, t)
    case IContains => Substring(s, t)
    case StartsWith => s <= t
    case IStartsWith => s <= t
    case EndsWith => Suffix(s, t)
    case IEndsWith => Suffix(s, t)
  }

  /** The promise of a pattern lookup: the search string itself stands in the relation the
      lookup names to the column.  Case is ignored on both sides by the lookups whose names say
      so, and wherever comparison on the column ignores it. */
  predicate LookupMeans(d: Driver, ignoreCase: bool, p: PatternName, search: string, t: string) {
    var ci := ignoreCase || d.SQLite? || FoldsColumn(p);
    Related(p, FoldIf(ci, search), FoldIf(ci, t))
  }

  // ----- escaping, one character at a time -----

  function EscapeChar(c: char): string {
    if c == '%' then "\\%" else if c == '_' then "\\_" else [c]
  }

  lemma {:induction false} ReplaceAllOfConcat(a: string, b: string, c: char, with: string)
    ensures ReplaceAll(a + b, c, with) == ReplaceAll(a, c, with) + ReplaceAll(b, c, with)
  {
    if a == "" {
      assert a + b == b;
    } else {
      assert (a + b)[1..] == a[1..] + b;
      ReplaceAllOfConcat(a[1..], b, c, with);
    }
  }

  lemma {:induction false} PrepStep(s: string)
    requires s != ""
    ensures PrepForLikeQuery(s) == EscapeChar(s[0]) + PrepForLikeQuery(s[1..])
  {
    var head := if s[0] == '%' then "\\%" else [s[0]];
    ReplaceAllOfConcat(head, ReplaceAll(s[1..], '%', "\\%"), '_', "\\_");
    if s[0] == '%' {
      assert ReplaceAll("\\%", '_', "\\_") == "\\" + ReplaceAll("%", '_', "\\_") == "\\%";
    } else {
      assert ReplaceAll([s[0]], '_', "\\_") == EscapeChar(s[0]);
    }
  }

  lemma {:induction false} PrepIdentity(s: string)
    ensures '%' !in s && '_' !in s ==> PrepForLikeQuery(s) == s
    ensures '%' in s || '_' in s ==> |PrepForLikeQuery(s)| > |s|
    ensures |PrepForLikeQuery(s)| >= |s|
  {
    if s != "" {
      PrepStep(s);
      PrepIdentity(s[1..]);
      assert s == [s[0]] + s[1..];
    }
  }

  lemma {:induction false} LowerOfConcat(a: string, b: string)
    ensures Lower(a + b) == Lower(a) + Lower(b)
  {
  }

  lemma {:induction false} LowerIdempotent(s: string)
    ensures Lower(Lower(s)) == Lower(s)
  {
  }

  /** Folding case and escaping do not interfere. */
  lemma {:induction false} LowerPrep(s: string)
    ensures Lower(PrepForLikeQuery(s)) == PrepForLikeQuery(Lower(s))
  {
    if s != "" {
      PrepStep(s);
      PrepStep(Lower(s));
      LowerPrep(s[1..]);
      LowerOfConcat(EscapeChar(s[0]), PrepForLikeQuery(s[1..]));
      assert Lower(s)[1..] == Lower(s[1..]);
    }
  }

  lemma {:induction false} LowerKeepsSpecials(s: string, c: char)
    requires c == '\\' || c == '%' || c == '_'
    ensures c in Lower(s) <==> c in s
  {
    if c in s {
      var i :| 0 <= i < |s| && s[i] == c;
      assert Lower(s)[i] == c;
    }
  }

  // ----- escaped text matches literally -----

  /** An escaped character matches exactly itself. */
  lemma {:induction false} EscapedCharMatch(c: char, rest: string, t: string)
    requires c != '\\'
    ensures Like(EscapeChar(c) + rest, t) <==> t != "" && t[0] == c && Like(rest, t[1..])
  {
    var p := EscapeChar(c) + rest;
    if c == '%' || c == '_' {
      assert p[0] == '\\' && p[1] == c && p[2..] == rest;
    } else {
      assert p[0] == c && p[1..] == rest;
    }
  }

  lemma {:induction false} PrefixStep(s: string, t: string)
    requires s != ""
    ensures s <= t <==> t != "" && t[0] == s[0] && s[1..] <= t[1..]
    ensures s <= t ==> t[1..][|s| - 1..] == t[|s|..]
  {
    if t != "" && t[0] == s[0] && s[1..] <= t[1..] {
      assert s == [s[0]] + s[1..] && t == [t[0]] + t[1..];
    }
  }

  lemma {:induction false} LiteralMatch(s: string, q: string, t: string)
    requires '\\' !in s
    ensures Like(PrepForLikeQuery(s) + q, t) <==> s <= t && Like(q, t[|s|..])
  {
    hide Like;
    if s == "" {
      assert PrepForLikeQuery(s) + q == q;
      assert t[0..] == t;
    } else {
      PrepStep(s);
      var rest := PrepForLikeQuery(s[1..]) + q;
      assert PrepForLikeQuery(s) + q == EscapeChar(s[0]) + rest;
      EscapedCharMatch(s[0], rest, t);
      PrefixStep(s, t);
      if t != "" {
        LiteralMatch(s[1..], q, t[1..]);
        assert |s[1..]| == |s| - 1;
      }
    }
  }

  lemma {:induction false} PercentMatch(q: string, t: string)
    ensures Like("%" + q, t) <==> exists k :: 0 <= k <= |t| && Like(q, t[k..])
    decreases |t|
  {
    var p := "%" + q;
    assert p[1..] == q;
    assert t[0..] == t;
    if t != "" {
      PercentMatch(q, t[1..]);
      if Like(p, t[1..]) {
        var k :| 0 <= k <= |t[1..]| && Like(q, t[1..][k..]);
        assert t[1..][k..] == t[k + 1..];
      }
      forall k | 0 < k <= |t| && Like(q, t[k..])
        ensures Like(p, t)
      {
        assert t[k..] == t[1..][k - 1..];
      }
    }
  }

  lemma {:induction false} PercentAlone(t: string)
    ensures Like("%", t)
  {
    PercentMatch("", t);
    assert "%" + "" == "%";
    assert t[|t|..] == "";
    assert Like("", t[|t|..]);
  }

  lemma {:induction false} EscapedStarts(s: string, t: string)
    requires '\\' !in s
    ensures Like(PrepForLikeQuery(s) + "%", t) <==> s <= t
  {
    LiteralMatch(s, "%", t);
    if s <= t {
      PercentAlone(t[|s|..]);
    }
  }

  lemma {:induction false} EscapedEquals(s: string, t: string)
    requires '\\' !in s
    ensures Like(PrepForLikeQuery(s), t) <==> s == t
  {
    LiteralMatch(s, "", t);
    assert PrepForLikeQuery(s) + "" == PrepForLikeQuery(s);
    if s <= t && t[|s|..] == "" {
      assert t == t[..|s|] + t[|s|..];
    }
  }

  /** LIKE on the escaped pattern is the relation the lookup names, read literally. */
  lemma {:induction false} EscapedMatchesLiterally(p: PatternName, s: string, t: string)
    requires '\\' !in s
    ensures Like(PatternArgument(p, s), t) <==> Related(p, s, t)
  {
    var e := PrepForLikeQuery(s);
    match p
    case IExact =>
      assert PatternArgument(p, s) == e;
      EscapedEquals(s, t);
    case StartsWith =>
      assert PatternArgument(p, s) == e + "%";
      EscapedStarts(s, t);
    case IStartsWith =>
      assert PatternArgument(p, s) == e + "%";
      EscapedStarts(s, t);
    case Contains =>
      assert PatternArgument(p, s) == "%" + (e + "%");
      ContainsLiterally(s, t);
    case IContains =>
      assert PatternArgument(p, s) == "%" + (e + "%");
      ContainsLiterally(s, t);
    case EndsWith =>
      assert PatternArgument(p, s) == "%" + e;
      EndsLiterally(s, t);
    case IEndsWith =>
      assert PatternArgument(p, s) == "%" + e;
      EndsLiterally(s, t);
  }

  lemma {:induction false} ContainsLiterally(s: string, t: string)
    requires '\\' !in s
    ensures Like("%" + (PrepForLikeQuery(s) + "%"), t) <==> Substring(s, t)
  {
    var q := PrepForLikeQuery(s) + "%";
    PercentMatch(q, t);
    forall k | 0 <= k <= |t|
      ensures Like(q, t[k..]) <==> s <= t[k..]
    {
      EscapedStarts(s, t[k..]);
    }
  }

  lemma {:induction false} EndsLiterally(s: string, t: string)
    requires '\\' !in s
    ensures Like("%" + PrepForLikeQuery(s), t) <==> Suffix(s, t)
  {
    var q := PrepForLikeQuery(s);
    PercentMatch(q, t);
    forall k | 0 <= k <= |t|
      ensures Like(q, t[k..]) <==> t[k..] == s
    {
      EscapedEquals(s, t[k..]);
    }
    if Suffix(s, t) {
      assert Like(q, t[|t| - |s|..]);
    }
  }

  // ----- why a backslash breaks it -----

  /** The shortest text a pattern matches, with `x` for every single-character wildcard;
      none when an escape is left dangling. */
  function Shortest(p: string): (w: seq<string>)
    ensures |w| <= 1
  {
    if p == "" then [""]
    else if p[0] == '%' then Shortest(p[1..])
    else if p[0] == '\\' && |p| < 2 then []
    else
      var rest := Shortest(if p[0] == '\\' then p[2..] else p[1..]);
      var c := if p[0] == '_' then 'x' else if p[0] == '\\' then p[1] else p[0];
      if rest == [] then [] else [[c] + rest[0]]
  }

  lemma {:induction false} ShortestMatches(p: string)
    ensures Shortest(p) != [] ==> Like(p, Shortest(p)[0])
  {
    if p != "" && !(p[0] == '\\' && |p| < 2) {
      var rest := if p[0] == '\\' then p[2..] else p[1..];
      ShortestMatches(rest);
      if p[0] != '%' && Shortest(p) != [] {
        assert Shortest(p)[0][1..] == Shortest(rest)[0];
      }
    }
  }

  lemma {:induction false} DanglingMatchesNothing(p: string, t: string)
    requires Shortest(p) == []
    ensures !Like(p, t)
    decreases |p| + |t|
  {
    if p[0] == '%' {
      DanglingMatchesNothing(p[1..], t);
      if t != "" {
        DanglingMatchesNothing(p, t[1..]);
      }
    } else if |p| >= 2 || p[0] != '\\' {
      if t != "" {
        DanglingMatchesNothing(if p[0] == '\\' then p[2..] else p[1..], t[1..]);
      }
    }
  }

  lemma {:induction false} ShortestIsShort(s: string, tail: string)
    requires tail == "" || tail == "%"
    ensures var w := Shortest(PrepForLikeQuery(s) + tail); w != [] ==> |w[0]| <= |s|
    decreases |s|, 1
  {
    var p := PrepForLikeQuery(s) + tail;
    if s == "" {
      assert p == tail;
    } else if s[0] != '\\' {
      PrepStep(s);
      ShortestIsShort(s[1..], tail);
      var rest := PrepForLikeQuery(s[1..]) + tail;
      assert p == EscapeChar(s[0]) + rest;
      ShortestAfterOrdinary(s[0], rest);
    } else if |s| >= 2 {
      BackslashStep(s, tail);
    } else {
      assert s[1..] == "" && PrepForLikeQuery(s[1..]) == "";
      PrepStep(s);
      assert p == "\\" + tail;
    }
  }

  /** What a backslash and the character after it come to: the text the two match at least. */
  function Swallowed(c: char): string {
    if c == '%' then "\\" else if c == '_' then "\\x" else [c]
  }

  lemma {:induction false} ShortestAfterBackslash(c: char, rest: string)
    ensures Shortest(['\\'] + EscapeChar(c) + rest)
         == if Shortest(rest) == [] then [] else [Swallowed(c) + Shortest(rest)[0]]
  {
    var p := ['\\'] + EscapeChar(c) + rest;
    if c == '%' || c == '_' {
      assert p == ['\\', '\\', c] + rest;
      var p2 := [c] + rest;
      assert p[2..] == p2 && p2[1..] == rest;
      if Shortest(rest) != [] && c == '_' {
        assert ['\\'] + (['x'] + Shortest(rest)[0]) == "\\x" + Shortest(rest)[0];
      }
    } else {
      assert p[2..] == rest;
    }
  }

  /** A backslash in the search string swallows what follows it. */
  lemma {:induction false} BackslashStep(s: string, tail: string)
    requires |s| >= 2 && s[0] == '\\'
    requires tail == "" || tail == "%"
    ensures var rest := PrepForLikeQuery(s[2..]) + tail;
            Shortest(PrepForLikeQuery(s) + tail)
            == if Shortest(rest) == [] then [] else [Swallowed(s[1]) + Shortest(rest)[0]]
    ensures var w := Shortest(PrepForLikeQuery(s[2..]) + tail); w != [] ==> |w[0]| <= |s| - 2
    decreases |s|, 0
  {
    PrepTwo(s, tail);
    ShortestIsShort(s[2..], tail);
    ShortestAfterBackslash(s[1], PrepForLikeQuery(s[2..]) + tail);
  }

  lemma {:induction false} PrepTwo(s: string, tail: string)
    requires |s| >= 2 && s[0] == '\\'
    ensures PrepForLikeQuery(s) + tail == ['\\'] + EscapeChar(s[1]) + (PrepForLikeQuery(s[2..]) + tail)
  {
    var t := s[1..];
    var rest := PrepForLikeQuery(s[2..]);
    PrepStep(s);
    PrepStep(t);
    assert t[1..] == s[2..] && t[0] == s[1];
    RegroupFour(['\\'], EscapeChar(s[1]), rest, tail);
  }

  /** An escaped ordinary character adds itself to the shortest match. */
  lemma {:induction false} ShortestAfterOrdinary(c: char, rest: string)
    requires c != '\\'
    ensures Shortest(EscapeChar(c) + rest) == if Shortest(rest) == [] then [] else [[c] + Shortest(rest)[0]]
  {
    var p := EscapeChar(c) + rest;
    if c == '%' || c == '_' {
      assert p[0] == '\\' && p[1] == c && p[2..] == rest;
    } else {
      assert p[0] == c && p[1..] == rest;
    }
  }

  lemma {:induction false} ShortestDiffers(s: string, tail: string)
    requires '\\' in s
    requires tail == "" || tail == "%"
    ensures var w := Shortest(PrepForLikeQuery(s) + tail); w != [] ==> |w[0]| <= |s| && w[0] != s
  {
    ShortestIsShort(s, tail);
    var p := PrepForLikeQuery(s) + tail;
    if s[0] != '\\' {
      PrepStep(s);
      var rest := PrepForLikeQuery(s[1..]) + tail;
      assert p == EscapeChar(s[0]) + rest;
      ShortestAfterOrdinary(s[0], rest);
      ShortestDiffers(s[1..], tail);
      if Shortest(p) != [] {
        assert Shortest(p)[0][1..] == Shortest(rest)[0];
      }
    } else if |s| >= 2 {
      BackslashStep(s, tail);
      if Shortest(p) != [] && s[1] == '_' {
        assert Shortest(p)[0][1] == 'x';
      }
    } else {
      assert s[1..] == "" && PrepForLikeQuery(s[1..]) == "";
      PrepStep(s);
      assert p == "\\" + tail;
    }
  }

  lemma {:induction false} RelatedToShort(p: PatternName, s: string, t: string)
    requires |t| <= |s| && s != t
    ensures !Related(p, s, t)
  {
    forall k | 0 <= k <= |t|
      ensures !(s <= t[k..])
    {
      if k == 0 {
        assert t[0..] == t;
      }
    }
  }

  lemma {:induction false} RelatedToSelf(p: PatternName, s: string)
    ensures Related(p, s, s)
  {
    assert s[0..] == s;
    assert s <= s[0..];
  }

  /** A column value on which the escaped pattern and the promised relation disagree. */
  lemma {:induction false} BackslashWitness(p: PatternName, s: string) returns (t: string)
    requires '\\' in s
    ensures Like(PatternArgument(p, s), t) != Related(p, s, t)
    ensures Lower(s) == s ==> Lower(t) == t
  {
    hide Like;
    var (front, tail) := PatternAffixes(p);
    var body := PrepForLikeQuery(s) + tail;
    var w := Shortest(body);
    assert PatternArgument(p, s) == front + body;
    assert front == "%" ==> PatternArgument(p, s)[1..] == body;
    assert front == "" ==> PatternArgument(p, s) == body;
    assert Shortest(PatternArgument(p, s)) == w;
    ShortestDiffers(s, tail);
    if w == [] {
      t := s;
      DanglingMatchesNothing(PatternArgument(p, s), s);
      RelatedToSelf(p, s);
    } else {
      t := w[0];
      ShortestMatches(PatternArgument(p, s));
      RelatedToShort(p, s, t);
      if Lower(s) == s {
        LowerPrep(s);
        LowerOfConcat(PrepForLikeQuery(s), tail);
        ShortestIsLower(body);
      }
    }
  }

  lemma {:induction false} LowerTail(p: string, n: nat)
    requires Lower(p) == p && n <= |p|
    ensures Lower(p[n..]) == p[n..]
  {
    forall i | 0 <= i < |p| - n ensures LowerChar(p[n..][i]) == p[n..][i] {
      assert p[n..][i] == p[n + i];
    }
  }

  lemma {:induction false} LowerFirst(c: char, s: string)
    requires LowerChar(c) == c && Lower(s) == s
    ensures Lower([c] + s) == [c] + s
  {
    LowerOfConcat([c], s);
  }

  lemma {:induction false} ShortestIsLower(p: string)
    requires Lower(p) == p
    ensures Shortest(p) != [] ==> Lower(Shortest(p)[0]) == Shortest(p)[0]
  {
    if p != "" && !(p[0] == '\\' && |p| < 2) {
      var n := if p[0] == '\\' then 2 else 1;
      LowerTail(p, n);
      assert LowerChar(p[0]) == p[0] && (n == 2 ==> LowerChar(p[1]) == p[1]);
      hide Lower;
      ShortestIsLower(p[n..]);
      if Shortest(p) != [] && p[0] != '%' {
        LowerFirst(Shortest(p)[0][0], Shortest(p[n..])[0]);
      }
    }
  }

  // ----- lower-case letters -----

  function LowerCount(s: string): nat {
    if s == "" then 0 else (if 'a' <= s[0] <= 'z' then 1 else 0) + LowerCount(s[1..])
  }

  lemma {:induction false} LowerCountOfConcat(a: string, b: string)
    ensures LowerCount(a + b) == LowerCount(a) + LowerCount(b)
  {
    if a == "" {
      assert a + b == b;
    } else {
      assert (a + b)[1..] == a[1..] + b;
      LowerCountOfConcat(a[1..], b);
    }
  }

  /** What a pattern matches has at least its lower-case letters. */
  lemma {:induction false} MatchHasLetters(p: string, t: string)
    requires Like(p, t)
    ensures LowerCount(p) <= LowerCount(t)
    decreases |p| + |t|
  {
    if p != "" {
      if p[0] == '%' {
        if Like(p[1..], t) {
          MatchHasLetters(p[1..], t);
        } else {
          MatchHasLetters(p, t[1..]);
        }
      } else if p[0] == '\\' {
        assert p[1..][1..] == p[2..];
        MatchHasLetters(p[2..], t[1..]);
      } else {
        MatchHasLetters(p[1..], t[1..]);
      }
    }
  }

  lemma {:induction false} EscapingKeepsLetters(s: string)
    ensures LowerCount(PrepForLikeQuery(s)) == LowerCount(s)
  {
    if s != "" {
      PrepStep(s);
      EscapingKeepsLetters(s[1..]);
      LowerCountOfConcat(EscapeChar(s[0]), PrepForLikeQuery(s[1..]));
      var c := EscapeChar(s[0]);
      assert |c| == 2 ==> c[1..][1..] == "";
      assert |c| == 1 ==> c[1..] == "";
    }
  }

  lemma {:induction false} LoweringAddsLetters(s: string)
    ensures LowerCount(Lower(s)) >= LowerCount(s)
    ensures LowerCount(Lower(s)) == LowerCount(s) ==> Lower(s) == s
  {
    if s != "" {
      assert Lower(s) == [LowerChar(s[0])] + Lower(s[1..]) && Lower(s)[1..] == Lower(s[1..]);
      LoweringAddsLetters(s[1..]);
    }
  }

  /** A pattern that was lowered does not match a search string with an upper-case letter. */
  lemma {:induction false} LoweredMisses(p: PatternName, search: string)
    requires Lower(search) != search
    ensures !Like(PatternArgument(p, Lower(search)), search)
  {
    var s := Lower(search);
    var (front, tail) := PatternAffixes(p);
    LoweringAddsLetters(search);
    EscapingKeepsLetters(s);
    LowerCountOfConcat(front, PrepForLikeQuery(s));
    LowerCountOfConcat(front + PrepForLikeQuery(s), tail);
    if Like(PatternArgument(p, s), search) {
      MatchHasLetters(PatternArgument(p, s), search);
    }
  }

  // ----- the main result -----

  /** The search strings a lookup searches for literally: no backslash under LIKE; under `=`,
      nothing that escaping changes. */
  predicate SurvivesEscaping(d: Driver, p: PatternName, search: string) {
    if OperatorRhs(d, p).Equals? then '%' !in search && '_' !in search
    else '\\' !in search
  }

  /** The driver lowers the search string only, although the comparison tells cases apart: what
      MySQL does for the lookups that name no folding. */
  predicate LowersSearchOnly(d: Driver, ignoreCase: bool, p: PatternName) {
    OperatorRhs(d, p).lowerRhs && !FoldsColumn(p) && !ignoreCase
  }

  /** The search strings a lookup searches for as they are. */
  predicate SearchesLiterally(d: Driver, ignoreCase: bool, p: PatternName, search: string) {
    SurvivesEscaping(d, p, search) && (LowersSearchOnly(d, ignoreCase, p) ==> Lower(search) == search)
  }

  /** The right-hand side and the column as the database compares them. */
  lemma {:induction false} FoldedArgument(d: Driver, ignoreCase: bool, p: PatternName, search: string, t: string)
    ensures var ci := ignoreCase || d.SQLite?;
            var op := OperatorRhs(d, p);
            var folded := FoldIf(ci || op.lowerRhs || FoldsColumn(p), search);
            var column := FoldIf(ci || FoldsColumn(p), t);
            && FoldIf(ci, FoldIf(op.lowerRhs, FoldIf(FoldsColumn(p), PatternArgument(p, search))))
               == PatternArgument(p, folded)
            && FoldIf(ci, FoldIf(FoldsColumn(p), t)) == column
            && (RowMatches(d, ignoreCase, p, search, t) <==>
                if op.Equals? then PatternArgument(p, folded) == column else Like(PatternArgument(p, folded), column))
  {
    LowerPrep(search);
    var (front, tail) := PatternAffixes(p);
    LowerOfConcat(front, PrepForLikeQuery(search));
    LowerOfConcat(front + PrepForLikeQuery(search), tail);
    assert Lower(front) == front && Lower(tail) == tail;
    LowerIdempotent(PatternArgument(p, search));
    LowerIdempotent(t);
  }

  lemma {:induction false} KeptPromise(d: Driver, ignoreCase: bool, p: PatternName, search: string, t: string)
    requires SearchesLiterally(d, ignoreCase, p, search)
    ensures RowMatches(d, ignoreCase, p, search, t) <==> LookupMeans(d, ignoreCase, p, search, t)
  {
    var ci := ignoreCase || d.SQLite? || FoldsColumn(p);
    var s := FoldIf(ci, search);
    LowerKeepsSpecials(search, '\\');
    LowerKeepsSpecials(search, '%');
    LowerKeepsSpecials(search, '_');
    FoldedArgument(d, ignoreCase, p, search, t);
    assert FoldIf(ci || OperatorRhs(d, p).lowerRhs, search) == s;
    if OperatorRhs(d, p).Equals? {
      PrepIdentity(s);
      assert PatternArgument(p, s) == s;
    } else {
      EscapedMatchesLiterally(p, s, FoldIf(ci, t));
    }
  }

  /** A pattern lookup keeps its promise on every row exactly when the search string survives
      escaping, and is in lower case where the driver lowers it alone: on every driver, for
      every lookup, whether or not the column ignores case. */
  lemma {:induction false} LookupKeepsPromise(d: Driver, ignoreCase: bool, p: PatternName, search: string)
    ensures SearchesLiterally(d, ignoreCase, p, search) <==>
            forall t: string :: RowMatches(d, ignoreCase, p, search, t) <==> LookupMeans(d, ignoreCase, p, search, t)
  {
    if SearchesLiterally(d, ignoreCase, p, search) {
      forall t: string
        ensures RowMatches(d, ignoreCase, p, search, t) <==> LookupMeans(d, ignoreCase, p, search, t)
      {
        KeptPromise(d, ignoreCase, p, search, t);
      }
    } else {
      var t := BrokenPromise(d, ignoreCase, p, search);
    }
  }

  /** A row that any other search string gets wrong. */
  lemma {:induction false} BrokenPromise(d: Driver, ignoreCase: bool, p: PatternName, search: string) returns (t: string)
    requires !SearchesLiterally(d, ignoreCase, p, search)
    ensures RowMatches(d, ignoreCase, p, search, t) != LookupMeans(d, ignoreCase, p, search, t)
  {
    var ci := ignoreCase || d.SQLite? || FoldsColumn(p);
    var s := FoldIf(ci, search);
    LowerKeepsSpecials(search, '\\');
    LowerKeepsSpecials(search, '%');
    LowerKeepsSpecials(search, '_');
    LowerIdempotent(search);
    if LowersSearchOnly(d, ignoreCase, p) && Lower(search) != search {
      t := search;
      LoweredMisses(p, search);
      RelatedToSelf(p, search);
    } else if OperatorRhs(d, p).Equals? {
      t := s;
      PrepIdentity(s);
      assert |PatternArgument(p, s)| == |PrepForLikeQuery(s)|;
    } else {
      t := BackslashWitness(p, s);
    }
    FoldedArgument(d, ignoreCase, p, search, t);
  }
}
