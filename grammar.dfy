/** The table-enum input language: the parsed table and the two `Parse`
    implementations of table-enum-core/src/lib.rs. Each `Parse` impl is a
    method that moves a `ParseBuffer` cursor step by step; the function of
    the same grammar beside it is its specification. */
module Grammar {
  import opened Wrappers
  import opened Syn

  /** One row of the table: `ident(values, ...)`. */
  datatype TableEnumVariant = TableEnumVariant(ident: Ident, values: seq<Expr>)

  /** `#[attrs] visibility enum ident(types, ...) { members, ... }`. */
  datatype TableEnum = TableEnum(
    attrs: seq<Attribute>,
    visibility: Visibility,
    ident: Ident,
    types: seq<Field>,
    members: seq<TableEnumVariant>)

  // ---------------------------------------------------------------------
  // The grammar as functions of the remaining tokens

  /** What `TableEnumVariant::parse` reads: an identifier, then a
      parenthesised list of expressions. */
  function VariantSpec(ts: seq<Token>): (r: PResult<TableEnumVariant>)
    ensures r.Ok? ==> |ts| >= 2 && r.value.rest == ts[2..]
  {
    LeafParsersAdvance();
    var name :- ParseIdent(ts);
    var group :- Parenthesized(name.rest);
    var values :- Terminated(group.value, ParseExpr);
    assert ts[1..][1..] == ts[2..];
    Ok(Parsed(TableEnumVariant(name.value, values), group.rest))
  }

  lemma VariantSpecAdvances()
    ensures Advances(VariantSpec)
  {
  }

  /** The visibility decision: `pub` if the next token is `pub` (then
      `Visibility::parse` cannot fail), otherwise inherited, consuming
      nothing. */
  function VisibilitySpec(ts: seq<Token>): (r: Parsed<Visibility>)
    ensures r.value == Public <==> ts != [] && ts[0] == Pub
    ensures r.rest == if r.value == Public then ts[1..] else ts
  {
    if ts != [] && ts[0] == Pub then ParseVisibility(ts).value else Parsed(Inherited, ts)
  }

  /** What `TableEnum::parse` reads: outer attributes, the visibility, then
      the rest of the item. */
  function TableEnumSpec(ts: seq<Token>): PResult<TableEnum> {
    var attrs := OuterAttributes(ts);
    var vis := VisibilitySpec(attrs.rest);
    EnumItemSpec(attrs.value, vis.value, vis.rest)
  }

  /** `enum Name`, then the field list and the member list. */
  function EnumItemSpec(attrs: seq<Attribute>, vis: Visibility, ts: seq<Token>): PResult<TableEnum> {
    var kw :- ParseEnumToken(ts);
    var name :- ParseIdent(kw.rest);
    ListsSpec(attrs, vis, name.value, name.rest)
  }

  /** `(types, ...) { members, ... }`. */
  function ListsSpec(attrs: seq<Attribute>, vis: Visibility, name: Ident, ts: seq<Token>): PResult<TableEnum> {
    LeafParsersAdvance();
    VariantSpecAdvances();
    var fields :- Parenthesized(ts);
    var types :- Terminated(fields.value, ParseField);
    var body :- Braced(fields.rest);
    var members :- Terminated(body.value, VariantSpec);
    Ok(Parsed(TableEnum(attrs, vis, name, types, members), body.rest))
  }

  /** `parse2::<TableEnum>`: a table followed by nothing else. */
  function ParseTokens(ts: seq<Token>): Result<TableEnum, SynError> {
    var p :- TableEnumSpec(ts);
    if p.rest == [] then Ok(p.value) else Err(UnexpectedToken)
  }

  // ---------------------------------------------------------------------
  // Writing a table back as tokens: the inverse of the grammar

  /** `xs` rendered one after another and separated by commas, with a comma
      after the last one when `trailing`. */
  function Punctuate<T>(xs: seq<T>, render: T -> seq<Token>, trailing: bool): seq<Token> {
    if xs == [] then []
    else if |xs| == 1 then render(xs[0]) + (if trailing then [Comma] else [])
    else render(xs[0]) + ([Comma] + Punctuate(xs[1..], render, trailing))
  }

  function FieldTokens(f: Field): seq<Token> {
    [FieldLeaf(f)]
  }

  function ExprTokens(e: Expr): seq<Token> {
    [ExprLeaf(e)]
  }

  /** `ident(values, ...)`. */
  function VariantTokens(v: TableEnumVariant, trailing: bool): seq<Token> {
    [Name(v.ident), Paren(Punctuate(v.values, ExprTokens, trailing))]
  }

  function AttrTokens(attrs: seq<Attribute>): seq<Token> {
    if attrs == [] then [] else [OuterAttr(attrs[0])] + AttrTokens(attrs[1..])
  }

  function VisibilityTokens(vis: Visibility): seq<Token> {
    if vis == Public then [Pub] else []
  }

  /** The source text of a table; `trailing` chooses one comma style for all
      of its lists (a table mixing the two styles also parses, but is not
      the rendering of any table here). */
  function Render(te: TableEnum, trailing: bool): seq<Token> {
    AttrTokens(te.attrs)
      + VisibilityTokens(te.visibility)
      + [EnumKw, Name(te.ident)]
      + ListTokens(te, trailing)
  }

  /** `elem` reads the tokens of `x` back as `x`, whatever follows them. */
  ghost predicate ReadsBack<T>(elem: seq<Token> -> PResult<T>, render: T -> seq<Token>, x: T) {
    forall more :: elem(render(x) + more) == Ok(Parsed(x, more))
  }

  /** A one-element list, with or without the trailing comma, reads back. */
  lemma TerminatedLast<T>(xs: seq<T>, render: T -> seq<Token>, trailing: bool, elem: seq<Token> -> PResult<T>)
    requires Advances(elem) && |xs| == 1 && ReadsBack(elem, render, xs[0])
    ensures Terminated(Punctuate(xs, render, trailing), elem) == Ok(xs)
  {
    var tail: seq<Token> := if trailing then [Comma] else [];
    var ts := render(xs[0]) + tail;
    assert Punctuate(xs, render, trailing) == ts;
    assert elem(ts) == Ok(Parsed(xs[0], tail));
    assert LeavesSuffix(elem(ts), ts);
    assert xs == [xs[0]];
    if trailing {
      assert ParseComma(tail) == Ok(Parsed((), []));
      assert Terminated(ts, elem) == Prepend([xs[0]], Terminated([], elem));
      assert [xs[0]] + [] == xs;
    }
  }

  /** An element followed by a comma and more tokens: the element, then
      the list read from the tokens after the comma. */
  lemma TerminatedAfterComma<T>(elem: seq<Token> -> PResult<T>, x: T, head: seq<Token>, tail: seq<Token>)
    requires Advances(elem)
    requires elem(head + ([Comma] + tail)) == Ok(Parsed(x, [Comma] + tail))
    ensures Terminated(head + ([Comma] + tail), elem) == Prepend([x], Terminated(tail, elem))
  {
    var ts := head + ([Comma] + tail);
    assert LeavesSuffix(elem(ts), ts);
    assert ([Comma] + tail)[1..] == tail;
  }

  /** An element, a comma, then a list that reads back: the whole reads
      back. */
  lemma TerminatedCons<T>(xs: seq<T>, render: T -> seq<Token>, trailing: bool, elem: seq<Token> -> PResult<T>)
    requires Advances(elem) && |xs| > 1 && ReadsBack(elem, render, xs[0])
    requires Terminated(Punctuate(xs[1..], render, trailing), elem) == Ok(xs[1..])
    ensures Terminated(Punctuate(xs, render, trailing), elem) == Ok(xs)
  {
    var rest := Punctuate(xs[1..], render, trailing);
    assert Punctuate(xs, render, trailing) == render(xs[0]) + ([Comma] + rest);
    assert elem(render(xs[0]) + ([Comma] + rest)) == Ok(Parsed(xs[0], [Comma] + rest));
    TerminatedAfterComma(elem, xs[0], render(xs[0]), rest);
    assert [xs[0]] + xs[1..] == xs;
  }

  /** `parse_terminated` reads back a comma-separated list, with or without
      the trailing comma, provided each element reads back on its own. */
  lemma {:induction false} TerminatedPunctuate<T>(
    xs: seq<T>, render: T -> seq<Token>, trailing: bool, elem: seq<Token> -> PResult<T>)
    requires Advances(elem)
    requires forall x :: x in xs ==> ReadsBack(elem, render, x)
    ensures Terminated(Punctuate(xs, render, trailing), elem) == Ok(xs)
    decreases |xs|
  {
    if xs == [] {
    } else if |xs| == 1 {
      TerminatedLast(xs, render, trailing, elem);
    } else {
      forall y | y in xs[1..]
        ensures ReadsBack(elem, render, y)
      {
        assert y in xs;
      }
      TerminatedPunctuate(xs[1..], render, trailing, elem);
      TerminatedCons(xs, render, trailing, elem);
    }
  }

  /** `Attribute::parse_outer` reads back exactly the attributes written
      before an item that does not itself start with an attribute. */
  lemma {:induction false} OuterAttributesRender(attrs: seq<Attribute>, body: seq<Token>)
    requires body == [] || !body[0].OuterAttr?
    ensures OuterAttributes(AttrTokens(attrs) + body) == Parsed(attrs, body)
    decreases |attrs|
  {
    if attrs == [] {
      assert AttrTokens(attrs) + body == body;
    } else {
      var tail := AttrTokens(attrs[1..]) + body;
      var ts := [OuterAttr(attrs[0])] + tail;
      assert AttrTokens(attrs) + body == ts;
      assert ts[1..] == tail;
      OuterAttributesRender(attrs[1..], body);
      assert OuterAttributes(ts) == Parsed([attrs[0]] + attrs[1..], body);
      assert [attrs[0]] + attrs[1..] == attrs;
    }
  }

  lemma VariantRoundTrip(v: TableEnumVariant, trailing: bool, more: seq<Token>)
    ensures VariantSpec(VariantTokens(v, trailing) + more) == Ok(Parsed(v, more))
  {
    var values := Punctuate(v.values, ExprTokens, trailing);
    var ts := [Name(v.ident), Paren(values)] + more;
    assert VariantTokens(v, trailing) + more == ts;
    assert ParseIdent(ts) == Ok(Parsed(v.ident, ts[1..]));
    assert Parenthesized(ts[1..]) == Ok(Parsed(values, more));
    assert Advances(ParseExpr);
    TerminatedPunctuate(v.values, ExprTokens, trailing, ParseExpr);
  }

  /** The two lists of a table, as `ListsSpec` reads them. */
  function ListTokens(te: TableEnum, trailing: bool): seq<Token> {
    [Paren(Punctuate(te.types, FieldTokens, trailing)),
     Brace(Punctuate(te.members, (v: TableEnumVariant) => VariantTokens(v, trailing), trailing))]
  }

  lemma MembersRoundTrip(members: seq<TableEnumVariant>, trailing: bool)
    ensures Advances(VariantSpec)
    ensures Terminated(Punctuate(members, (v: TableEnumVariant) => VariantTokens(v, trailing), trailing), VariantSpec) == Ok(members)
  {
    var renderVariant := (v: TableEnumVariant) => VariantTokens(v, trailing);
    VariantSpecAdvances();
    forall v | v in members
      ensures ReadsBack(VariantSpec, renderVariant, v)
    {
      forall rest
        ensures VariantSpec(renderVariant(v) + rest) == Ok(Parsed(v, rest))
      {
        VariantRoundTrip(v, trailing, rest);
      }
    }
    TerminatedPunctuate(members, renderVariant, trailing, VariantSpec);
  }

  lemma ListsRoundTrip(te: TableEnum, trailing: bool, more: seq<Token>)
    ensures ListsSpec(te.attrs, te.visibility, te.ident, ListTokens(te, trailing) + more) == Ok(Parsed(te, more))
  {
    var fields := Punctuate(te.types, FieldTokens, trailing);
    var body := Punctuate(te.members, (v: TableEnumVariant) => VariantTokens(v, trailing), trailing);
    var ts := [Paren(fields), Brace(body)] + more;
    assert ListTokens(te, trailing) + more == ts;
    assert ts[1..][1..] == more;
    assert Parenthesized(ts) == Ok(Parsed(fields, ts[1..]));
    assert Braced(ts[1..]) == Ok(Parsed(body, more));
    LeafParsersAdvance();
    TerminatedPunctuate(te.types, FieldTokens, trailing, ParseField);
    MembersRoundTrip(te.members, trailing);
  }

  lemma EnumItemRoundTrip(te: TableEnum, trailing: bool, more: seq<Token>)
    ensures EnumItemSpec(te.attrs, te.visibility, [EnumKw, Name(te.ident)] + (ListTokens(te, trailing) + more)) == Ok(Parsed(te, more))
  {
    var lists := ListTokens(te, trailing) + more;
    var item := [EnumKw, Name(te.ident)] + lists;
    assert item[1..][1..] == lists;
    assert EnumItemSpec(te.attrs, te.visibility, item) == ListsSpec(te.attrs, te.visibility, te.ident, lists);
    ListsRoundTrip(te, trailing, more);
  }

  /** Reading a rendered table gives back the same table and leaves
      whatever followed it untouched. */
  lemma RoundTrip(te: TableEnum, trailing: bool, more: seq<Token>)
    ensures TableEnumSpec(Render(te, trailing) + more) == Ok(Parsed(te, more))
  {
    var item := [EnumKw, Name(te.ident)] + (ListTokens(te, trailing) + more);
    var body := VisibilityTokens(te.visibility) + item;
    assert Render(te, trailing) + more == AttrTokens(te.attrs) + body;
    OuterAttributesRender(te.attrs, body);
    assert VisibilitySpec(body) == Parsed(te.visibility, item);
    EnumItemRoundTrip(te, trailing, more);
  }

  /** `parse2` accepts every rendered table, whether all of its lists end in
      a comma or none do, and returns it unchanged. */
  lemma ParseRender(te: TableEnum, trailing: bool)
    ensures ParseTokens(Render(te, trailing)) == Ok(te)
  {
    RoundTrip(te, trailing, []);
    assert Render(te, trailing) + [] == Render(te, trailing);
  }

  /** `parse2` rejects a complete table followed by anything at all. */
  lemma TrailingTokensRejected(te: TableEnum, trailing: bool, more: seq<Token>)
    requires more != []
    ensures ParseTokens(Render(te, trailing) + more) == Err(UnexpectedToken)
  {
    RoundTrip(te, trailing, more);
  }

  /** A parsed table keeps the leading outer attributes in order, and is
      `pub` exactly when the first token after them is `pub`; otherwise its
      visibility is inherited. */
  lemma VisibilityAfterAttributes(ts: seq<Token>)
    requires TableEnumSpec(ts).Ok?
    ensures var te := TableEnumSpec(ts).value.value;
      var after := OuterAttributes(ts).rest;
      && te.attrs == OuterAttributes(ts).value
      && (te.visibility == Public <==> after != [] && after[0] == Pub)
      // the same fact seen from the other constructor: no `pub`, inherited
      && (te.visibility == Inherited <==> !(after != [] && after[0] == Pub))
  {
  }

  // ---------------------------------------------------------------------
  // The Parse impls over the cursor

  /** `impl Parse for TableEnumVariant`. */
  method ParseTableEnumVariant(input: ParseBuffer) returns (r: Result<TableEnumVariant, SynError>)
    requires input.Valid()
    modifies input
    ensures input.Valid()
    ensures r == Value(VariantSpec(old(input.Rest())))
    ensures r.Ok? ==> input.Rest() == VariantSpec(old(input.Rest())).value.rest
  {
    var name :- input.Call(ParseIdent);
    var group :- input.Call(Parenthesized);
    var content := new ParseBuffer(group);
    assert Advances(ParseExpr);
    var values :- content.ParseTerminated(ParseExpr);
    return Ok(TableEnumVariant(name, values));
  }

  /** `content.parse_terminated(TableEnumVariant::parse, Token![,])`. The
      loop is `ParseBuffer.ParseTerminated`'s, written out again because the
      member parser is a method over the cursor, not a function value. */
  method ParseMembers(input: ParseBuffer) returns (r: Result<seq<TableEnumVariant>, SynError>)
    requires input.Valid()
    modifies input
    ensures input.Valid()
    ensures r == Terminated(old(input.Rest()), VariantSpec)
    ensures r.Ok? ==> input.Rest() == []
  {
    var members: seq<TableEnumVariant> := [];
    PrependPrepend(members, members, Terminated(input.Rest(), VariantSpec));
    while true
      invariant input.Valid()
      invariant Terminated(old(input.Rest()), VariantSpec) == Prepend(members, Terminated(input.Rest(), VariantSpec))
      decreases |input.Rest()|
    {
      if input.IsEmpty() {
        assert input.Rest() == [] && members + [] == members;
        return Ok(members);
      }
      ghost var before := input.Rest();
      var m := ParseTableEnumVariant(input);
      if m.Err? {
        return Err(m.error);
      }
      ghost var done := members;
      members := members + [m.value];
      if input.IsEmpty() {
        assert Terminated(before, VariantSpec) == Ok([m.value]);
        PrependPrepend(done, [m.value], Ok([]));
        return Ok(members);
      }
      var c := input.Call(ParseComma);
      if c.Err? {
        return Err(c.error);
      }
      assert Terminated(before, VariantSpec) == Prepend([m.value], Terminated(input.Rest(), VariantSpec));
      PrependPrepend(done, [m.value], Terminated(input.Rest(), VariantSpec));
    }
  }

  /** The visibility decision of `TableEnum::parse` (lines 42-47): `pub` is
      read when the next token is `pub`, otherwise the visibility is
      inherited and nothing is consumed. */
  method ParseVisibilityDecision(input: ParseBuffer) returns (visibility: Visibility)
    requires input.Valid()
    modifies input
    ensures input.Valid()
    ensures VisibilitySpec(old(input.Rest())) == Parsed(visibility, input.Rest())
  {
    if input.Peek() == Some(Pub) {
      var parsed := input.Call(ParseVisibility);
      visibility := parsed.value;
    } else {
      visibility := Inherited;
    }
  }

  /** `impl Parse for TableEnum`. */
  method ParseTableEnum(input: ParseBuffer) returns (r: Result<TableEnum, SynError>)
    requires input.Valid()
    modifies input
    ensures input.Valid()
    ensures r == Value(TableEnumSpec(old(input.Rest())))
    ensures r.Ok? ==> input.Rest() == TableEnumSpec(old(input.Rest())).value.rest
  {
    ghost var ts := input.Rest();
    var attrs := input.ParseOuterAttributes();
    var visibility := ParseVisibilityDecision(input);
    assert TableEnumSpec(ts) == EnumItemSpec(attrs, visibility, input.Rest());
    r := ParseEnumItem(input, attrs, visibility);
  }

  /** `input.parse::<Token![enum]>()?` and `input.parse::<Ident>()?`
      (lines 48-49), then the two lists. */
  method ParseEnumItem(input: ParseBuffer, attrs: seq<Attribute>, visibility: Visibility)
    returns (r: Result<TableEnum, SynError>)
    requires input.Valid()
    modifies input
    ensures input.Valid()
    ensures r == Value(EnumItemSpec(attrs, visibility, old(input.Rest())))
    ensures r.Ok? ==> input.Rest() == EnumItemSpec(attrs, visibility, old(input.Rest())).value.rest
  {
    ghost var ts := input.Rest();
    var _ :- input.Call(ParseEnumToken);
    var name :- input.Call(ParseIdent);
    assert EnumItemSpec(attrs, visibility, ts) == ListsSpec(attrs, visibility, name, input.Rest());
    r := ParseLists(input, attrs, visibility, name);
  }

  /** The rest of `TableEnum::parse` (lines 50-62): the parenthesised field
      list and the braced member list, each read with `parse_terminated`. */
  method ParseLists(input: ParseBuffer, attrs: seq<Attribute>, visibility: Visibility, name: Ident)
    returns (r: Result<TableEnum, SynError>)
    requires input.Valid()
    modifies input
    ensures input.Valid()
    ensures r == Value(ListsSpec(attrs, visibility, name, old(input.Rest())))
    ensures r.Ok? ==> input.Rest() == ListsSpec(attrs, visibility, name, old(input.Rest())).value.rest
  {
    var fieldGroup :- input.Call(Parenthesized);
    var fieldBuffer := new ParseBuffer(fieldGroup);
    assert Advances(ParseField);
    var types :- fieldBuffer.ParseTerminated(ParseField);
    var memberGroup :- input.Call(Braced);
    var memberBuffer := new ParseBuffer(memberGroup);
    var members :- ParseMembers(memberBuffer);
    return Ok(TableEnum(attrs, visibility, name, types, members));
  }

  /** `parse2::<TableEnum>(input)`. */
  method Parse2(input: seq<Token>) returns (r: Result<TableEnum, SynError>)
    ensures r == ParseTokens(input)
  {
    var buffer := new ParseBuffer(input);
    r := ParseTableEnum(buffer);
    if r.Ok? && !buffer.IsEmpty() {
      r := Err(UnexpectedToken);
    }
  }
}
