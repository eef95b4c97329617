/** The text a compiler writes and the argument list it collects beside it.

    A statement is a list of tokens: literal text, or one of the `?` placeholders the
    compiler writes.  The arguments are collected in a separate list.  What makes the two
    belong together is `Fill`: the database puts the k-th argument where the k-th
    placeholder stands. */
module SqlText {

  /** A value bound to a query, or given to a lookup. */
  datatype Value =
    | Nil
    | Str(s: string)
    | Int(i: int)
    | Float(digits: string, isZero: bool)   // a float, by its printed digits
    | Bool(b: bool)
    | Bytes(bytes: seq<bv8>)
    | List(items: seq<Value>)
    | Other(id: int)

  datatype Token = Text(s: string) | Hole

  /** Statement text with its values written inline. */
  datatype Piece = Lit(s: string) | Bound(v: Value)

  datatype Code = Code(text: seq<Token>, args: seq<Value>)

  /** Writing the empty string leaves the builder as it was. */
  function Txt(s: string): Code {
    Code(if s == "" then [] else [Text(s)], [])
  }

  function LitOf(s: string): seq<Piece> {
    if s == "" then [] else [Lit(s)]
  }

  /** A placeholder together with the argument it stands for. */
  function Bind(v: Value): Code {
    Code([Hole], [v])
  }

  /** Writing `b` after `a`. */
  function Then(a: Code, b: Code): Code {
    Code(a.text + b.text, a.args + b.args)
  }

  function Holes(text: seq<Token>): nat {
    if text == [] then 0 else (if text[0].Hole? then 1 else 0) + Holes(text[1..])
  }

  /** The statement the database sees: the k-th placeholder replaced by the k-th argument. */
  function Fill(text: seq<Token>, args: seq<Value>): seq<Piece>
    requires Holes(text) == |args|
  {
    if text == [] then []
    else if text[0].Hole? then [Bound(args[0])] + Fill(text[1..], args[1..])
    else [Lit(text[0].s)] + Fill(text[1..], args)
  }

  /** As many arguments as placeholders. */
  predicate Balanced(c: Code) {
    Holes(c.text) == |c.args|
  }

  /** Code whose text and arguments line up. */
  type Aligned = c: Code | Balanced(c) witness Code([], [])

  /** Text without a placeholder. */
  type Plain = t: seq<Token> | Holes(t) == 0 witness []

  /** `c` is the statement `pieces`, once its arguments are put in place. */
  predicate Reads(c: Code, pieces: seq<Piece>) {
    Balanced(c) && Fill(c.text, c.args) == pieces
  }

  lemma {:induction false} ThenRegroups(a: Code, b: Code, c: Code)
    ensures Then(Then(a, b), c) == Then(a, Then(b, c))
  {
    assert a.text + b.text + c.text == a.text + (b.text + c.text);
    assert a.args + b.args + c.args == a.args + (b.args + c.args);
  }

  lemma {:induction false} HolesOfConcat(a: seq<Token>, b: seq<Token>)
    ensures Holes(a + b) == Holes(a) + Holes(b)
  {
    if a == [] {
      assert a + b == b;
    } else {
      assert (a + b)[1..] == a[1..] + b;
      HolesOfConcat(a[1..], b);
    }
  }

  lemma {:induction false} FillOfConcat(a: seq<Token>, x: seq<Value>, b: seq<Token>, y: seq<Value>)
    requires Holes(a) == |x| && Holes(b) == |y|
    ensures Holes(a + b) == |x + y|
    ensures Fill(a + b, x + y) == Fill(a, x) + Fill(b, y)
  {
    HolesOfConcat(a, b);
    if a == [] {
      assert a + b == b && x + y == y;
    } else {
      assert (a + b)[1..] == a[1..] + b;
      if a[0].Hole? {
        assert (x + y)[1..] == x[1..] + y;
        FillOfConcat(a[1..], x[1..], b, y);
      } else {
        FillOfConcat(a[1..], x, b, y);
      }
    }
  }

  /** `Fill`, position by position: a placeholder is replaced by the argument whose number is
      the count of placeholders before it. */
  lemma {:induction false} FillAt(text: seq<Token>, args: seq<Value>, i: nat)
    requires Holes(text) == |args| && i < |text|
    ensures |Fill(text, args)| == |text|
    ensures Holes(text[..i]) <= |args|
    ensures text[i].Text? ==> Fill(text, args)[i] == Lit(text[i].s)
    ensures text[i].Hole? ==> Holes(text[..i]) < |args| && Fill(text, args)[i] == Bound(args[Holes(text[..i])])
  {
    if i == 0 {
      assert text[..0] == [];
      FillLength(text, args);
    } else {
      var rest := if text[0].Hole? then args[1..] else args;
      FillAt(text[1..], rest, i - 1);
      assert text[..i][1..] == text[1..][..i - 1];
    }
  }

  lemma {:induction false} FillLength(text: seq<Token>, args: seq<Value>)
    requires Holes(text) == |args|
    ensures |Fill(text, args)| == |text|
  {
    if text != [] {
      FillLength(text[1..], if text[0].Hole? then args[1..] else args);
    }
  }

  lemma {:induction false} ReadsThen(a: Code, p: seq<Piece>, b: Code, q: seq<Piece>)
    requires Reads(a, p) && Reads(b, q)
    ensures Reads(Then(a, b), p + q)
  {
    FillOfConcat(a.text, a.args, b.text, b.args);
  }

  lemma {:induction false} TxtReads(s: string)
    ensures Reads(Txt(s), LitOf(s))
  {
    var none: seq<Token> := [];
    var noArgs: seq<Value> := [];
    assert Fill(none, noArgs) == [];
    assert [Text(s)][1..] == none;
    assert Fill([Text(s)], noArgs) == [Lit(s)] + Fill(none, noArgs) == [Lit(s)];
    assert Txt(s) == if s == "" then Code(none, noArgs) else Code([Text(s)], noArgs);
  }

  lemma {:induction false} BindReads(v: Value)
    ensures Reads(Bind(v), [Bound(v)])
  {
    var none: seq<Token> := [];
    assert [Hole][1..] == none && Fill(none, [v][1..]) == [];
  }
}
