/** Stand-ins for the syn and proc_macro2 values that the table-enum macro
    reads and writes. Identifiers, types, expressions and attributes are
    opaque: the macro only moves them from its input to its output. The
    input is a sequence of token trees whose leaves are already whole
    fields, expressions and outer attributes, since parsing those belongs
    to syn and is not part of this model. */
module Syn {
  import opened Wrappers

  datatype Ident = Ident(name: string)

  /** A Rust type; `OptionOf(t)` is `Option<t>`. */
  datatype RustType = Ty(text: string) | OptionOf(inner: RustType)

  /** A Rust expression. `Infer` is the placeholder `_`; `Verbatim` is any
      other expression as written; the last three are the expressions
      `Some(e)`, `None` and `T::default()`. */
  datatype Expr =
    | Infer
    | Verbatim(text: string)
    | SomeOf(inner: Expr)
    | NoneExpr
    | DefaultOf(ty: RustType)

  /** An outer attribute `#[path args]`. */
  datatype Attribute = Attribute(path: string, args: string)

  datatype Visibility = Inherited | Public

  /** A named field `#[attrs] ident: ty` as `Field::parse_named` yields it. */
  datatype Field = Field(attrs: seq<Attribute>, ident: Ident, ty: RustType)

  /** One token tree of the macro input. */
  datatype Token =
    | OuterAttr(attr: Attribute)
    | Pub
    | EnumKw
    | Comma
    | Name(ident: Ident)
    | FieldLeaf(field: Field)
    | ExprLeaf(expr: Expr)
    | Paren(content: seq<Token>)
    | Brace(content: seq<Token>)

  /** What a failed parse step expected to see. */
  datatype Expectation =
    | VisibilityKeyword
    | EnumKeyword
    | Identifier
    | Parentheses
    | CurlyBraces
    | CommaToken
    | NamedField
    | Expression

  /** `syn::Error`: a step found something other than what it expected, or
      `parse2` found tokens left over after a complete parse. */
  datatype SynError = Expected(what: Expectation) | UnexpectedToken

  /** A parsed value together with the tokens that follow it. */
  datatype Parsed<+T> = Parsed(value: T, rest: seq<Token>)

  type PResult<T> = Result<Parsed<T>, SynError>

  function Value<T>(r: PResult<T>): Result<T, SynError> {
    match r
    case Ok(p) => Ok(p.value)
    case Err(e) => Err(e)
  }

  /** A parse of `ts` that, if it succeeded, consumed at least one token and
      left a suffix of `ts`. */
  ghost predicate LeavesSuffix<T>(r: PResult<T>, ts: seq<Token>) {
    r.Ok? ==> |r.value.rest| < |ts| && r.value.rest == ts[|ts| - |r.value.rest|..]
  }

  /** An element parser that, whenever it succeeds, consumes at least one
      token and leaves a suffix of its input. */
  ghost predicate Advances<T>(elem: seq<Token> -> PResult<T>) {
    forall ts: seq<Token> :: LeavesSuffix(elem(ts), ts)
  }

  // Leaf parsers: each reads one token tree.

  function ParseVisibility(ts: seq<Token>): (r: PResult<Visibility>)
    ensures r.Ok? <==> ts != [] && ts[0] == Pub
    ensures r.Ok? ==> r.value == Parsed(Public, ts[1..])
  {
    if ts != [] && ts[0] == Pub then Ok(Parsed(Public, ts[1..])) else Err(Expected(VisibilityKeyword))
  }

  function ParseEnumToken(ts: seq<Token>): (r: PResult<()>)
    ensures r.Ok? <==> ts != [] && ts[0] == EnumKw
    ensures r.Ok? ==> r.value.rest == ts[1..]
  {
    if ts != [] && ts[0] == EnumKw then Ok(Parsed((), ts[1..])) else Err(Expected(EnumKeyword))
  }

  function ParseComma(ts: seq<Token>): (r: PResult<()>)
    ensures r.Ok? <==> ts != [] && ts[0] == Comma
    ensures r.Ok? ==> r.value.rest == ts[1..]
  {
    if ts != [] && ts[0] == Comma then Ok(Parsed((), ts[1..])) else Err(Expected(CommaToken))
  }

  function ParseIdent(ts: seq<Token>): (r: PResult<Ident>)
    ensures r.Ok? <==> ts != [] && ts[0].Name?
    ensures r.Ok? ==> r.value == Parsed(ts[0].ident, ts[1..])
  {
    if ts != [] && ts[0].Name? then Ok(Parsed(ts[0].ident, ts[1..])) else Err(Expected(Identifier))
  }

  /** `syn::parenthesized!`: the content of a parenthesised group. */
  function Parenthesized(ts: seq<Token>): (r: PResult<seq<Token>>)
    ensures r.Ok? <==> ts != [] && ts[0].Paren?
    ensures r.Ok? ==> r.value == Parsed(ts[0].content, ts[1..])
  {
    if ts != [] && ts[0].Paren? then Ok(Parsed(ts[0].content, ts[1..])) else Err(Expected(Parentheses))
  }

  /** `syn::braced!`: the content of a brace-delimited group. */
  function Braced(ts: seq<Token>): (r: PResult<seq<Token>>)
    ensures r.Ok? <==> ts != [] && ts[0].Brace?
    ensures r.Ok? ==> r.value == Parsed(ts[0].content, ts[1..])
  {
    if ts != [] && ts[0].Brace? then Ok(Parsed(ts[0].content, ts[1..])) else Err(Expected(CurlyBraces))
  }

  /** `Field::parse_named`. */
  function ParseField(ts: seq<Token>): (r: PResult<Field>)
    ensures r.Ok? <==> ts != [] && ts[0].FieldLeaf?
    ensures r.Ok? ==> r.value == Parsed(ts[0].field, ts[1..])
  {
    if ts != [] && ts[0].FieldLeaf? then Ok(Parsed(ts[0].field, ts[1..])) else Err(Expected(NamedField))
  }

  /** `Expr::parse`. */
  function ParseExpr(ts: seq<Token>): (r: PResult<Expr>)
    ensures r.Ok? <==> ts != [] && ts[0].ExprLeaf?
    ensures r.Ok? ==> r.value == Parsed(ts[0].expr, ts[1..])
  {
    if ts != [] && ts[0].ExprLeaf? then Ok(Parsed(ts[0].expr, ts[1..])) else Err(Expected(Expression))
  }

  lemma LeafParsersAdvance()
    ensures Advances(ParseVisibility) && Advances(ParseEnumToken) && Advances(ParseComma)
    ensures Advances(ParseIdent) && Advances(Parenthesized) && Advances(Braced)
    ensures Advances(ParseField) && Advances(ParseExpr)
  {
  }

  /** `Attribute::parse_outer`: the leading outer attributes, in order. */
  function OuterAttributes(ts: seq<Token>): (r: Parsed<seq<Attribute>>)
    ensures r.rest == [] || !r.rest[0].OuterAttr?
  {
    if ts != [] && ts[0].OuterAttr? then
      var tail := OuterAttributes(ts[1..]);
      Parsed([ts[0].attr] + tail.value, tail.rest)
    else
      Parsed([], ts)
  }

  function Prepend<T>(vs: seq<T>, r: Result<seq<T>, SynError>): Result<seq<T>, SynError> {
    match r
    case Ok(ws) => Ok(vs + ws)
    case Err(e) => Err(e)
  }

  lemma PrependPrepend<T>(vs: seq<T>, ws: seq<T>, r: Result<seq<T>, SynError>)
    ensures Prepend(vs, Prepend(ws, r)) == Prepend(vs + ws, r)
    ensures Prepend([], r) == r
  {
    if r.Ok? {
      assert vs + (ws + r.value) == (vs + ws) + r.value;
      assert [] + r.value == r.value;
    }
  }

  /** `ParseBuffer::parse_terminated`: the whole of `ts` as elements separated
      by commas, with an optional trailing comma. */
  function Terminated<T>(ts: seq<Token>, elem: seq<Token> -> PResult<T>): Result<seq<T>, SynError>
    requires Advances(elem)
    decreases |ts|
  {
    if ts == [] then Ok([])
    else match elem(ts)
      case Err(e) => Err(e)
      case Ok(Parsed(v, rest)) =>
        if rest == [] then Ok([v])
        else match ParseComma(rest)
          case Err(e) => Err(e)
          case Ok(Parsed(_, more)) => Prepend([v], Terminated(more, elem))
  }

  /** syn's `ParseBuffer`: a cursor over a sequence of token trees. */
  class ParseBuffer {
    const tokens: seq<Token>
    var pos: nat

    ghost predicate Valid()
      reads this
    {
      pos <= |tokens|
    }

    /** The tokens not yet consumed. */
    function Rest(): seq<Token>
      reads this
      requires Valid()
    {
      tokens[pos..]
    }

    function Peek(): Option<Token>
      reads this
      requires Valid()
    {
      if pos < |tokens| then Some(tokens[pos]) else None
    }

    function IsEmpty(): bool
      reads this
      requires Valid()
    {
      pos == |tokens|
    }

    constructor (ts: seq<Token>)
      ensures Valid() && Rest() == ts
    {
      tokens := ts;
      pos := 0;
    }

    /** `input.parse::<T>()` / `input.call(p)`: run `p` at the cursor and
        move past what it consumed. */
    method Call<T>(p: seq<Token> -> PResult<T>) returns (r: Result<T, SynError>)
      requires Valid() && LeavesSuffix(p(Rest()), Rest())
      modifies this
      ensures Valid()
      ensures r == Value(p(old(Rest())))
      ensures r.Ok? ==> Rest() == p(old(Rest())).value.rest
    {
      var res := p(tokens[pos..]);
      if res.Err? {
        return Err(res.error);
      }
      ghost var ts := tokens[pos..];
      assert res.value.rest == ts[|ts| - |res.value.rest|..];
      pos := |tokens| - |res.value.rest|;
      assert tokens[pos..] == ts[|ts| - |res.value.rest|..];
      return Ok(res.value.value);
    }

    /** `Attribute::parse_outer`: consume outer attributes while the next
        token is one. */
    method ParseOuterAttributes() returns (attrs: seq<Attribute>)
      requires Valid()
      modifies this
      ensures Valid()
      ensures attrs == OuterAttributes(old(Rest())).value
      ensures Rest() == OuterAttributes(old(Rest())).rest
    {
      ghost var start := OuterAttributes(tokens[pos..]);
      attrs := [];
      while pos < |tokens| && tokens[pos].OuterAttr?
        invariant pos <= |tokens|
        invariant attrs + OuterAttributes(tokens[pos..]).value == start.value
        invariant OuterAttributes(tokens[pos..]).rest == start.rest
        decreases |tokens| - pos
      {
        ghost var here := tokens[pos..];
        assert here[1..] == tokens[pos + 1..];
        assert OuterAttributes(here).value == [here[0].attr] + OuterAttributes(here[1..]).value;
        attrs := attrs + [tokens[pos].attr];
        pos := pos + 1;
      }
    }

    /** `parse_terminated(elem, Token![,])`: elements separated by commas up to
        the end of the buffer, with an optional trailing comma. */
    method ParseTerminated<T>(elem: seq<Token> -> PResult<T>) returns (r: Result<seq<T>, SynError>)
      requires Valid() && Advances(elem)
      modifies this
      ensures Valid()
      ensures r == Terminated(old(Rest()), elem)
      ensures r.Ok? ==> Rest() == []
    {
      var values: seq<T> := [];
      PrependPrepend(values, values, Terminated(Rest(), elem));
      while true
        invariant Valid()
        invariant Terminated(old(Rest()), elem) == Prepend(values, Terminated(Rest(), elem))
        decreases |Rest()|
      {
        if IsEmpty() {
          assert Rest() == [] && values + [] == values;
          return Ok(values);
        }
        ghost var before := Rest();
        var v := Call(elem);
        if v.Err? {
          return Err(v.error);
        }
        ghost var done := values;
        values := values + [v.value];
        if IsEmpty() {
          assert Terminated(before, elem) == Ok([v.value]);
          PrependPrepend(done, [v.value], Ok([]));
          return Ok(values);
        }
        var c := Call(ParseComma);
        if c.Err? {
          return Err(c.error);
        }
        assert Terminated(before, elem) == Prepend([v.value], Terminated(Rest(), elem));
        PrependPrepend(done, [v.value], Terminated(Rest(), elem));
      }
    }
  }

  /** `syn::punctuated::Punctuated<T, Token![,]>`: `inner` holds the values
      each followed by a comma, `last` the final value if no comma follows it. */
  class Punctuated<T> {
    var inner: seq<T>
    var last: Option<T>

    constructor ()
      ensures inner == [] && last == None
    {
      inner := [];
      last := None;
    }

    /** The values, in order. */
    function Items(): seq<T>
      reads this
    {
      inner + (if last.Some? then [last.value] else [])
    }

    /** True when the list is non-empty and ends in a comma. */
    function TrailingPunct(): bool
      reads this
    {
      last.None? && inner != []
    }

    /** Append a value, first inserting a comma after the previous value if
        it had none. */
    method Push(value: T)
      modifies this
      ensures Items() == old(Items()) + [value]
      ensures last == Some(value)
    {
      if last.Some? {
        inner := inner + [last.value];
      }
      last := Some(value);
    }

    /** Put a comma after the last value. syn panics if the list is empty
        or already ends in a comma. */
    method PushPunct()
      requires last.Some?
      modifies this
      ensures Items() == old(Items())
      ensures TrailingPunct()
    {
      inner := inner + [last.value];
      last := None;
    }
  }

  // The items the macro emits.

  /** syn's `Fields`. The macro only ever emits `Unit`; the other two cases
      mirror syn's type and are never built. */
  datatype Fields = Unit | Unnamed(types: seq<RustType>) | Named(fields: seq<Field>)

  /** An enum variant `#[attrs] ident fields = discriminant`. */
  datatype Variant = Variant(attrs: seq<Attribute>, ident: Ident, fields: Fields, discriminant: Option<Expr>)

  /** `#[attrs] vis enum ident { variants }`, with `trailingComma` when a
      comma follows the last variant. */
  datatype EnumDef = EnumDef(attrs: seq<Attribute>, vis: Visibility, ident: Ident, variants: seq<Variant>, trailingComma: bool)

  /** The match arm `enumName::variant => body,`. */
  datatype MatchArm = MatchArm(enumName: Ident, variant: Ident, body: Expr)

  /** `#[attrs] vis [const] fn ident(&self) -> returnType { match self { arms } }`. */
  datatype Getter = Getter(attrs: seq<Attribute>, vis: Visibility, isConst: bool, ident: Ident, returnType: RustType, arms: seq<MatchArm>)

  /** `#[attrs] impl selfTy { getters }`. */
  datatype ImplBlock = ImplBlock(attrs: seq<Attribute>, selfTy: Ident, getters: seq<Getter>)
}
