/** The expression compiler: source trees, `Resolve`, `Clone` on a resolved tree, and `SQL`.

    An expression is first resolved against the model being queried and then asked for its
    SQL.  Both steps may panic, which is the only error the source has here. */
module Expressions {
  import opened Outcomes
  import opened SqlText
  import opened LikePattern
  import Numerals

  datatype LogicalOp =
    | EQ | NE | GT | LT | GTE | LTE
    | ADD | SUB | MUL | DIV | MOD
    | BITAND | BITOR | BITXOR | BITLSH | BITRSH | BITNOT

  function OpText(op: LogicalOp): string {
    match op
    case EQ => "=" case NE => "!=" case GT => ">" case LT => "<" case GTE => ">=" case LTE => "<="
    case ADD => "+" case SUB => "-" case MUL => "*" case DIV => "/" case MOD => "%"
    case BITAND => "&" case BITOR => "|" case BITXOR => "^"
    case BITLSH => "<<" case BITRSH => ">>" case BITNOT => "~"
  }

  predicate IsBitwise(op: LogicalOp) {
    op.BITAND? || op.BITOR? || op.BITXOR? || op.BITLSH? || op.BITRSH? || op.BITNOT?
  }

  predicate IsComparison(op: LogicalOp) {
    op.EQ? || op.NE? || op.GT? || op.LT? || op.GTE? || op.LTE?
  }

  /** The registered lookups. */
  datatype Lookup = Logical(op: LogicalOp) | Pattern(name: PatternName) | In | IsNull

  datatype FuncName =
    | SUM | COUNT | AVG | MAX | MIN | COALESCE | CONCAT | SUBSTR
    | TRIM | UPPER | LOWER | LENGTH | NOW

  /** The connective of a group; a group without one has a single child. */
  datatype BoolOp = OpAnd | OpOr | OpNone

  /** What a group writes between two children. */
  function Separator(join: BoolOp): string {
    match join case OpAnd => " AND " case OpOr => " OR " case OpNone => ""
  }

  // ----- source trees -----

  datatype Arg = ArgExpr(e: Expr) | ArgValue(v: Value)

  /** An expression as the caller builds it. */
  datatype Expr =
    | Verbatim(s: string)                                 // expr.String
    | Op(op: LogicalOp)                                   // an operator in a chain
    | Val(v: Value, inline: bool)                         // expr.Value; `inline` is its unsafe form
    | Field(name: string)
    | Named(name: string, inner: Expr)                    // expr.As
    | Chain(fieldName: string, parts: seq<Expr>)          // expr.Logical and expr.Chain ("" when it names no field)
    | Node(not: bool, field: Expr, lookup: seq<string>, args: seq<Arg>)   // expr.Q and expr.Expr; lookup split at "__"
    | Group(children: seq<Expr>, join: BoolOp, not: bool) // expr.And, expr.Or
    | Case(arms: seq<Expr>, dflt: Option<Expr>)
    | When(lhs: Expr, rhs: Option<Expr>, thn: Expr)       // occurs only as an arm of Case
    | Func(name': FuncName, inner': seq<Expr>, params: seq<Expr>)  // a plain parameter is Verbatim
    | Raw(code: Aligned, needsResolve: bool)              // a parsed raw statement, or a compiled subquery

  /** What an expression needs to know to be resolved: the driver, the SQL of every field path,
      and, in an UPDATE, the bare column of every field of the model itself. */
  datatype Env = Env(driver: Driver, columns: map<string, Aligned>, forUpdate: bool, setColumns: map<string, Plain>)

  function ResolveField(env: Env, name: string): Result<Aligned> {
    if env.forUpdate && name in env.setColumns then Ok(Code(env.setColumns[name], []))
    else if name in env.columns then Ok(env.columns[name])
    else Panic
  }

  // ----- resolved trees -----

  datatype Resolved =
    | RVerbatim(s: string)
    | RVal(v: Value, bound: Option<Driver>)               // bound: the placeholder and driver were filled in
    | RField(code: Aligned)
    | RNamed(target: Option<Plain>, inner: Resolved) // target: the column assigned in an UPDATE
    | RChain(field: Option<Aligned>, forUpdate: bool, parts: seq<Resolved>)
    | RLookup(not: bool, lookup: Lookup, lhs: Resolved, operand: Rhs)
    | RGroup(children: seq<Resolved>, join: BoolOp, not: bool)
    | RCase(arms: seq<Resolved>, dflt: Option<Resolved>)
    | RWhen(lhs: Resolved, rhs: Option<Resolved>, thn: Resolved, hasInfo: bool)
    | RFunc(name: FuncName, inner': seq<Resolved>, params: seq<Resolved>)
    | RRaw(code: Aligned)

  /** The right-hand side a lookup closes over.  `Unresolved` is the expression given to IN,
      which is printed as the caller built it. */
  datatype Rhs = RhsExpr(r: Resolved) | Unresolved(e: Expr) | Values(vs: seq<Value>)

  // ----- text tables -----

  /** An inline literal, as Resolve writes it. */
  function Show(v: Value): string {
    match v
    case Nil => "NULL"
    case Str(s) => s
    case Int(i) => Numerals.Decimal(i)
    case Float(digits, _) => digits
    case Bool(b) => if b then "1" else "0"
    case Bytes(_) => ""
    case List(_) => ""
    case Other(_) => ""
  }

  /** The same literal when nobody resolved it: Go's default format. */
  function GoText(v: Value): string {
    match v
    case Nil => "<nil>"
    case Bool(b) => if b then "true" else "false"
    case _ => Show(v)
  }

  /** The cast Postgres needs after a placeholder. */
  function Cast(d: Driver, v: Value): Result<string> {
    if !d.Postgres? then Ok("")
    else match v
      case Str(_) => Ok("::TEXT")
      case Int(_) => Ok("::INT")
      case Float(_, _) => Ok("::FLOAT")
      case Bool(_) => Ok("::BOOLEAN")
      case Bytes(_) => Ok("::BYTEA")
      case List(_) => Ok("::TEXT[]")
      case Nil => Panic
      case Other(_) => Panic
  }

  /** The pieces of text around the operand of a pattern operator bound to a value. */
  function OperatorAffixes(o: Operator): (string, string) {
    if o.Equals? then ("= LOWER(", ")")
    else if o.escapeClause then ("LIKE ", " ESCAPE '\\'")
    else if o.lowerRhs then ("LIKE LOWER(", ")")
    else ("LIKE ", "")
  }

  /** The same around an expression operand; `iexact` has no such form. */
  function PatternOpAffixes(d: Driver, p: PatternName): Result<(string, string)> {
    match d
    case MySQL => (
      match p
      case IExact => Panic
      case Contains => Ok(("LIKE CONCAT('%', ", ", '%')"))
      case IContains => Ok(("LIKE LOWER(CONCAT('%', ", ", '%'))"))
      case StartsWith => Ok(("LIKE CONCAT(", ", '%')"))
      case IStartsWith => Ok(("LIKE LOWER(CONCAT(", ", '%'))"))
      case EndsWith => Ok(("LIKE CONCAT('%', ", ")"))
      case IEndsWith => Ok(("LIKE LOWER(CONCAT('%', ", "))")))
    case Postgres => (
      match p
      case IExact => Panic
      case Contains => Ok(("LIKE '%' || ", " || '%'"))
      case IContains => Ok(("LIKE '%' || LOWER(", ") || '%'"))
      case StartsWith => Ok(("LIKE ", " || '%'"))
      case IStartsWith => Ok(("LIKE LOWER(", ") || '%'"))
      case EndsWith => Ok(("LIKE '%' || ", ""))
      case IEndsWith => Ok(("LIKE '%' || LOWER(", ")")))
    case SQLite => (
      match p
      case IExact => Panic
      case Contains => Ok(("LIKE '%' || ", " || '%' ESCAPE '\\'"))
      case IContains => Ok(("LIKE '%' || LOWER(", ") || '%' ESCAPE '\\'"))
      case StartsWith => Ok(("LIKE ", " || '%' ESCAPE '\\'"))
      case IStartsWith => Ok(("LIKE LOWER(", ") || '%' ESCAPE '\\'"))
      case EndsWith => Ok(("LIKE '%' || ", " ESCAPE '\\'"))
      case IEndsWith => Ok(("LIKE '%' || LOWER(", ") ESCAPE '\\'")))
  }

  /** LOWER around the column or placeholder of the case-insensitive lookups. */
  function LookupCol(l: Lookup, text: seq<Token>): seq<Token> {
    if l.Pattern? && FoldsColumn(l.name) then [Text("LOWER(")] + text + [Text(")")] else text
  }

  // ----- finding a lookup -----

  function LookupNamed(name: string): Option<Lookup> {
    if name == "exact" then Some(Logical(EQ))
    else if name == "not" then Some(Logical(NE))
    else if name == "gt" then Some(Logical(GT))
    else if name == "lt" then Some(Logical(LT))
    else if name == "gte" then Some(Logical(GTE))
    else if name == "lte" then Some(Logical(LTE))
    else if name == "bitand" then Some(Logical(BITAND))
    else if name == "bitor" then Some(Logical(BITOR))
    else if name == "bitxor" then Some(Logical(BITXOR))
    else if name == "bitlsh" then Some(Logical(BITLSH))
    else if name == "bitrsh" then Some(Logical(BITRSH))
    else if name == "bitnot" then Some(Logical(BITNOT))
    else if name == "iexact" then Some(Pattern(IExact))
    else if name == "contains" then Some(Pattern(Contains))
    else if name == "icontains" then Some(Pattern(IContains))
    else if name == "startswith" then Some(Pattern(StartsWith))
    else if name == "istartswith" then Some(Pattern(IStartsWith))
    else if name == "endswith" then Some(Pattern(EndsWith))
    else if name == "iendswith" then Some(Pattern(IEndsWith))
    else if name == "in" then Some(In)
    else if name == "isnull" then Some(IsNull)
    else None
  }

  function TransformNamed(name: string): Option<FuncName> {
    if name == "lower" then Some(LOWER)
    else if name == "upper" then Some(UPPER)
    else if name == "length" then Some(LENGTH)
    else if name == "count" then Some(COUNT)
    else if name == "avg" then Some(AVG)
    else if name == "sum" then Some(SUM)
    else if name == "min" then Some(MIN)
    else if name == "max" then Some(MAX)
    else None
  }

  /** The transforms and the lookup a split lookup name asks for.  A last part that names no
      lookup is one more transform, compared with `exact`. */
  function SplitLookup(parts: seq<string>): (seq<string>, string) {
    if parts == [] then ([], "")
    else
      var last := parts[|parts| - 1];
      if last != "" && LookupNamed(last) == None then (parts, "exact")
      else (parts[..|parts| - 1], last)
  }

  predicate ArityOk(l: Lookup, n: nat) {
    match l
    case Logical(_) => n == 1
    case Pattern(_) => n == 1
    case In => n >= 1
    case IsNull => n <= 1
  }

  /** A byte slice is a slice of numbers like any other. */
  function ByteItems(bytes: seq<bv8>): seq<Value> {
    seq(|bytes|, i requires 0 <= i < |bytes| => Int(bytes[i] as int))
  }

  /** Lists spliced open, at any depth. */
  function Flatten(vs: seq<Value>): seq<Value>
    decreases vs
  {
    if vs == [] then []
    else
      (match vs[0]
       case List(items) => Flatten(items)
       case Bytes(bytes) => ByteItems(bytes)
       case _ => [vs[0]])
      + Flatten(vs[1..])
  }

  /** An expression among the values of IN is bound as it is. */
  function PlainValues(args: seq<Arg>): seq<Value> {
    if args == [] then []
    else [if args[0].ArgValue? then args[0].v else Other(0)] + PlainValues(args[1..])
  }

  function IsNullFlag(v: Value): Result<bool> {
    match v
    case Nil => Panic
    case Bool(b) => Ok(b)
    case Str(s) => Ok(s == "")
    case Int(i) => Ok(i == 0)
    case Float(_, zero) => Ok(zero)
    case Bytes(_) => Ok(false)
    case List(_) => Ok(false)
    case Other(_) => Ok(false)
  }

  predicate IsNamed(e: Expr) {
    e.Field? || e.Named? || e.Chain? || e.Func? || e.Raw?
  }

  // ----- Resolve -----

  /** The value of an inline literal, written into the text. */
  function InlineText(v: Value): Result<string> {
    match v
    case Str(s) => Ok("'" + s + "'")
    case Nil => Ok(Show(v))
    case Int(_) => Ok(Show(v))
    case Float(_, _) => Ok(Show(v))
    case Bool(_) => Ok(Show(v))
    case Bytes(_) => Panic
    case List(_) => Panic
    case Other(_) => Panic
  }

  function Resolve(env: Env, e: Expr): Result<Resolved>
    decreases e, 1
  {
    match e
    case Verbatim(s) => Ok(RVerbatim(s))
    case Op(op) => Ok(RVerbatim(" " + OpText(op) + " "))
    case Val(v, inline) =>
      if !inline then Ok(RVal(v, Some(env.driver)))
      else
        var s :- InlineText(v);
        Ok(RVerbatim(s))
    case Field(name) =>
      var code :- ResolveField(env, name);
      Ok(RField(code))
    case Named(name, inner) =>
      var target :- NamedTarget(env, name);
      var r :- Resolve(env.(forUpdate := false), inner);
      Ok(RNamed(target, r))
    case Chain(fieldName, parts) =>
      var field :- ChainField(env, fieldName);
      var rs :- ResolveAll(env, parts);
      Ok(RChain(field, env.forUpdate, rs))
    case Node(not, field, lookup, args) =>
      if !IsNamed(field) then Panic else
      var lhs :- Resolve(env, field);
      ResolveLookup(env, not, SplitLookup(lookup).0, SplitLookup(lookup).1, lhs, args)
    case Group(children, op, not) =>
      var rs :- ResolveAll(env, children);
      Ok(RGroup(rs, op, not))
    case Case(arms, dflt) =>
      var rs :- ResolveAll(env, arms);
      (match dflt
       case None => Ok(RCase(rs, None))
       case Some(d) => var r :- Resolve(env, d); Ok(RCase(rs, Some(r))))
    case When(lhs, rhs, thn) =>
      var l :- Resolve(env, lhs);
      var t :- Resolve(env, thn);
      (match rhs
       case None => Ok(RWhen(l, None, t, true))
       case Some(x) => var r :- Resolve(env, x); Ok(RWhen(l, Some(r), t, true)))
    case Func(name, inner, params) =>
      var rs :- ResolveAll(env, inner);
      var ps :- ResolveAll(env, params);
      Ok(RFunc(name, rs, ps))
    case Raw(code, _) => Ok(RRaw(code))
  }

  function ResolveAll(env: Env, es: seq<Expr>): (r: Result<seq<Resolved>>)
    ensures r.Ok? ==> |r.value| == |es|
    decreases es, 0
  {
    if es == [] then Ok([])
    else
      var r :- Resolve(env, es[0]);
      var rs :- ResolveAll(env, es[1..]);
      Ok([r] + rs)
  }

  /** In an UPDATE a named expression assigns to its field, which must need no arguments. */
  function NamedTarget(env: Env, name: string): Result<Option<Plain>> {
    if !env.forUpdate then Ok(None)
    else
      var code :- ResolveField(env, name);
      if code.args != [] then Panic else Ok(Some(code.text))
  }

  function ChainField(env: Env, name: string): Result<Option<Aligned>> {
    if name == "" then Ok(None)
    else
      var code :- ResolveField(env, name);
      Ok(Some(code))
  }

  /** The registry: check the lookup, its arity and its arguments, then apply the transforms
      to the left-hand side. */
  function ResolveLookup(env: Env, not: bool, transforms: seq<string>, name: string, lhs: Resolved, args: seq<Arg>): Result<Resolved>
    decreases args, 1
  {
    match LookupNamed(name)
    case None => Panic
    case Some(l) =>
      if !ArityOk(l, |args|) then Panic else
      var rhs :- NormalizeArgs(env, l, args);
      var tl :- ApplyTransforms(transforms, lhs);
      Ok(RLookup(not, l, tl, rhs))
  }

  function NormalizeArgs(env: Env, l: Lookup, args: seq<Arg>): Result<Rhs>
    requires ArityOk(l, |args|)
    decreases args, 0
  {
    match l
    case Logical(_) => (
      match args[0]
      case ArgExpr(_) => var r :- ResolveArg(env, args[0]); Ok(RhsExpr(r))
      case ArgValue(v) => Ok(Values([v])))
    case Pattern(p) => (
      match args[0]
      case ArgExpr(_) => var r :- ResolveArg(env, args[0]); Ok(RhsExpr(r))
      case ArgValue(v) => if v.Str? then Ok(Values([Str(PatternArgument(p, v.s))])) else Panic)
    case In => (
      match args[0]
      case ArgExpr(e) => if |args| > 1 then Panic else Ok(Unresolved(e))
      case ArgValue(_) => Ok(Values(Flatten(PlainValues(args)))))
    case IsNull => (
      if |args| == 0 then Ok(Values([Bool(true)]))
      else match args[0]
        case ArgExpr(_) => Ok(Values([Bool(false)]))
        case ArgValue(v) => var b :- IsNullFlag(v); Ok(Values([Bool(b)])))
  }

  function ResolveArg(env: Env, a: Arg): Result<Resolved>
    requires a.ArgExpr?
    decreases a, 0
  {
    Resolve(env, a.e)
  }

  /** Each transform wraps a clone of the left-hand side in its function. */
  function ApplyTransforms(transforms: seq<string>, lhs: Resolved): Result<Resolved> {
    if transforms == [] then Ok(lhs)
    else match TransformNamed(transforms[0])
      case None => Panic
      case Some(f) => ApplyTransforms(transforms[1..], RFunc(f, [Clone(lhs)], []))
  }

  // ----- Clone of a resolved tree -----

  /** A clone keeps every mark of having been resolved, but a value loses its placeholder and
      a CASE its compiler information. A lookup keeps its closure, a function its parameters. */
  function Clone(r: Resolved): Resolved
    decreases r, 1
  {
    match r
    case RVerbatim(_) => r
    case RVal(v, _) => RVal(v, None)
    case RField(_) => r
    case RNamed(target, inner) => RNamed(target, Clone(inner))
    case RChain(field, forUpdate, parts) => RChain(field, forUpdate, CloneAll(parts))
    case RLookup(_, _, _, _) => r
    case RGroup(children, op, not) => RGroup(CloneAll(children), op, not)
    case RCase(arms, dflt) =>
      RCase(CloneAll(arms), match dflt case None => None case Some(d) => Some(Clone(d)))
    case RWhen(lhs, rhs, thn, _) =>
      RWhen(Clone(lhs), match rhs case None => None case Some(x) => Some(Clone(x)), Clone(thn), false)
    case RFunc(name, inner, params) => RFunc(name, CloneAll(inner), params)
    case RRaw(_) => r
  }

  function CloneAll(rs: seq<Resolved>): (cs: seq<Resolved>)
    ensures |cs| == |rs|
    decreases rs, 0
  {
    if rs == [] then [] else [Clone(rs[0])] + CloneAll(rs[1..])
  }

  // ----- SQL -----

  function Concat(cs: seq<Code>): Code {
    if cs == [] then Code([], []) else Then(cs[0], Concat(cs[1..]))
  }

  /** The codes written one after the other with `sep` between them. */
  function Join(cs: seq<Code>, sep: string): Code {
    if cs == [] then Code([], [])
    else if |cs| == 1 then cs[0]
    else Then(cs[0], Then(Txt(sep), Join(cs[1..], sep)))
  }

  /** The right-hand side of a logical operator: operand text, and the values bound to it. */
  function LogicalRhs(op: LogicalOp, operand: seq<Token>, values: seq<Value>): Result<Code> {
    if IsComparison(op) then
      Ok(Code([Text(OpText(op) + " ")] + operand, if values == [] then [] else [values[0]]))
    else if IsBitwise(op) then
      if values == [] then Panic
      else Ok(Code([Text(OpText(op) + " ")] + operand + [Text(" = ")] + operand, [values[0], values[0]]))
    else Panic
  }

  function NotWrap(not: bool, c: Code): Code {
    if not then Then(Txt("NOT ("), Then(c, Txt(")"))) else c
  }

  /** NOT, parentheses around more than one child, and the operator between children. */
  function GroupCode(children: seq<Code>, join: BoolOp, not: bool): Code {
    var body := Join(children, Separator(join));
    var inner := if |children| > 1 then Then(Txt("("), Then(body, Txt(")"))) else body;
    if not then Then(Txt("NOT "), inner) else inner
  }

  function UnaryName(f: FuncName): string
    requires !f.COALESCE? && !f.CONCAT? && !f.SUBSTR? && !f.NOW?
  {
    match f
    case SUM => "SUM(" case COUNT => "COUNT(" case AVG => "AVG(" case MAX => "MAX(" case MIN => "MIN("
    case TRIM => "TRIM(" case UPPER => "UPPER(" case LOWER => "LOWER(" case LENGTH => "LENGTH("
  }

  /** The separators of SUBSTR: before the text, before the start, before the length. */
  function SubstrWords(d: Driver): (string, string, string) {
    match d
    case MySQL => ("SUBSTRING(", ", ", ", ")
    case Postgres => ("SUBSTRING(", " FROM ", " FOR ")
    case SQLite => ("SUBSTR(", ", ", ", ")
  }

  function FuncCode(d: Driver, f: FuncName, inner: seq<Code>, params: seq<Code>): Result<Code> {
    match f
    case NOW =>
      Ok(Txt(match d case MySQL => "NOW()" case Postgres => "CURRENT_TIMESTAMP" case SQLite => "DATETIME('now')"))
    case COALESCE =>
      if |inner| < 2 then Panic else Ok(Then(Txt("COALESCE("), Then(Join(inner, ", "), Txt(")"))))
    case CONCAT =>
      if |inner| < 2 then Panic
      else if d.SQLite? then Ok(Then(Txt("("), Then(Join(inner, " || "), Txt(")"))))
      else Ok(Then(Txt("CONCAT("), Then(Join(inner, ", "), Txt(")"))))
    case SUBSTR =>
      if |inner| != 1 || |params| != 2 then Panic
      else
        var args := inner[0].args + params[0].args + params[1].args;
        var w := SubstrWords(d);
        if params[0].text == [] then Panic
        else if params[1].text == [] then
          Ok(Code([Text(w.0)] + inner[0].text + [Text(w.1)] + params[0].text + [Text(")")], args))
        else
          Ok(Code([Text(w.0)] + inner[0].text + [Text(w.1)] + params[0].text + [Text(w.2)] + params[1].text + [Text(")")], args))
    case _ =>
      if |inner| != 1 then Panic else Ok(Then(Txt(UnaryName(f)), Then(inner[0], Txt(")"))))
  }

  function LookupCode(d: Driver, l: Lookup, lhs: Code, rhs: Rhs, operand: Result<Code>): Result<Code> {
    var col := LookupCol(l, lhs.text);
    match l
    case Logical(op) => (
      match rhs
      case Values(vs) =>
        if |vs| != 1 then Panic else
        var r :- LogicalRhs(op, LookupCol(l, [Hole]), vs);
        Ok(Code(col + [Text(" ")] + r.text, lhs.args + r.args))
      case _ =>
        var inner :- operand;
        var r :- LogicalRhs(op, LookupCol(l, inner.text), []);
        Ok(Code(col + [Text(" ")] + r.text, lhs.args + inner.args + r.args)))
    case Pattern(p) => (
      match rhs
      case Values(vs) =>
        if |vs| != 1 then Panic else
        var (pre, post) := OperatorAffixes(OperatorRhs(d, p));
        Ok(Code(col + [Text(" ")] + Txt(pre).text + LookupCol(l, [Hole]) + Txt(post).text, lhs.args + [vs[0]]))
      case _ =>
        var inner :- operand;
        var affixes :- PatternOpAffixes(d, p);
        Ok(Code(col + [Text(" ")] + Txt(affixes.0).text + inner.text + Txt(affixes.1).text, lhs.args + inner.args)))
    case In => (
      match rhs
      case Values(vs) =>
        if vs == [] then Panic
        else Ok(Code(col + [Text(" IN (")] + Placeholders(|vs|) + [Text(")")], lhs.args + vs))
      case _ =>
        var inner :- operand;
        Ok(Code(col + [Text(" IN (")] + inner.text + [Text(")")], lhs.args + inner.args)))
    case IsNull =>
      if rhs.Values? && |rhs.vs| == 1 && rhs.vs[0].Bool? then
        Ok(Code(col + [Text(if rhs.vs[0].b then " IS NULL" else " IS NOT NULL")], lhs.args))
      else Panic
  }

  /** n placeholders, comma separated. */
  function Placeholders(n: nat): seq<Token> {
    if n == 0 then [] else if n == 1 then [Hole] else [Hole, Text(", ")] + Placeholders(n - 1)
  }

  function Sql(d: Driver, r: Resolved): Result<Code>
    decreases r, 1
  {
    match r
    case RVerbatim(s) => Ok(Txt(s))
    case RVal(v, bound) => (
      match bound
      case None => Ok(Code([], [v]))
      case Some(drv) => var cast :- Cast(drv, v); Ok(Then(Bind(v), Txt(cast))))
    case RField(code) => Ok(code)
    case RNamed(target, inner) =>
      var c :- Sql(d, inner);
      (match target
       case None => Ok(c)
       case Some(text) => Ok(Then(Code(text, []), Then(Txt(" = "), c))))
    case RChain(field, forUpdate, parts) =>
      if parts == [] then Panic else
      var cs :- SqlAll(d, parts);
      (match field
       case None => Ok(Concat(cs))
       case Some(f) => Ok(Then(f, Then(Txt(if forUpdate && f.text != [] then " = " else ""), Concat(cs)))))
    case RLookup(not, l, lhs, rhs) =>
      var lc :- Sql(d, lhs);
      var c :- LookupCode(d, l, lc, rhs, OperandSql(d, rhs));
      Ok(NotWrap(not, c))
    case RGroup(children, op, not) =>
      var cs :- SqlAll(d, children);
      Ok(GroupCode(cs, op, not))
    case RCase(arms, dflt) =>
      var cs :- SqlAll(d, arms);
      var head := Then(Txt("CASE "), Join(cs, " "));
      (match dflt
       case None => Ok(Then(head, Txt(" END")))
       case Some(x) => var c :- Sql(d, x); Ok(Then(Then(head, Then(Txt(" ELSE "), c)), Txt(" END"))))
    case RWhen(lhs, rhs, thn, hasInfo) =>
      var l :- Sql(d, lhs);
      var t :- Sql(d, thn);
      (match rhs
       case None => Ok(Then(Then(Txt("WHEN "), l), Then(Txt(" THEN "), t)))
       case Some(x) =>
         if !hasInfo then Panic else
         var inner :- Sql(d, x);
         var op :- LogicalRhs(EQ, inner.text, []);
         Ok(Then(Code([Text("WHEN ")] + l.text + [Text(" ")] + op.text, l.args + inner.args), Then(Txt(" THEN "), t))))
    case RFunc(name, inner, params) =>
      var cs :- SqlAll(d, inner);
      var ps :- SqlAll(d, params);
      FuncCode(d, name, cs, ps)
    case RRaw(code) => Ok(code)
  }

  function OperandSql(d: Driver, rhs: Rhs): Result<Code>
    decreases rhs, 2
  {
    match rhs
    case RhsExpr(e) => Sql(d, e)
    case Unresolved(e) => BareSql(e)
    case Values(_) => Panic
  }

  function SqlAll(d: Driver, rs: seq<Resolved>): (c: Result<seq<Code>>)
    ensures c.Ok? ==> |c.value| == |rs|
    decreases rs, 0
  {
    if rs == [] then Ok([])
    else
      var c :- Sql(d, rs[0]);
      var cs :- SqlAll(d, rs[1..]);
      Ok([c] + cs)
  }

  /** SQL of an expression nobody resolved, which is what IN prints: a bound value writes its
      empty placeholder and still yields its argument; most other nodes panic. */
  function BareSql(e: Expr): Result<Code>
    decreases e, 1
  {
    match e
    case Verbatim(s) => Ok(Txt(s))
    case Op(op) => Ok(Txt(" " + OpText(op) + " "))
    case Val(v, inline) => if inline then Ok(Txt(GoText(v))) else Ok(Code([], [v]))
    case Named(_, inner) => BareSql(inner)
    case Chain(_, parts) =>
      if parts == [] then Panic else
      var cs :- BareSqlAll(parts);
      Ok(Concat(cs))
    case Group(children, op, not) =>
      var cs :- BareSqlAll(children);
      Ok(GroupCode(cs, op, not))
    case Raw(code, needsResolve) => if needsResolve then Panic else Ok(code)
    case Field(_) => Panic
    case Node(_, _, _, _) => Panic
    case Case(_, _) => Panic
    case When(_, _, _) => Panic
    case Func(_, _, _) => Panic
  }

  function BareSqlAll(es: seq<Expr>): (c: Result<seq<Code>>)
    ensures c.Ok? ==> |c.value| == |es|
    decreases es, 0
  {
    if es == [] then Ok([])
    else
      var c :- BareSql(es[0]);
      var cs :- BareSqlAll(es[1..]);
      Ok([c] + cs)
  }

  /** Resolve, then SQL: what every clause writer does with an expression. */
  function Compile(env: Env, e: Expr): Result<Code> {
    var r :- Resolve(env, e);
    Sql(env.driver, r)
  }
}
