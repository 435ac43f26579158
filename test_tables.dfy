/** The two tables of table-enum-core/src/tests.rs, expanded. */
module TestTables {
  import opened Wrappers
  import opened Syn
  import opened Grammar
  import opened Generate

  /** `pub enum Planets(mass: f64, radius: f64) { Mercury (3.303e+23, 2.4397e6), ... }`
      (tests.rs:9-18). */
  function Planets(): TableEnum {
    TableEnum([], Public, Ident("Planets"),
      [Field([], Ident("mass"), Ty("f64")), Field([], Ident("radius"), Ty("f64"))],
      [
      TableEnumVariant(Ident("Mercury"), [Verbatim("3.303e+23"), Verbatim("2.4397e6")]),
      TableEnumVariant(Ident("Venus"), [Verbatim("4.869e+24"), Verbatim("6.0518e6")]),
      TableEnumVariant(Ident("Earth"), [Verbatim("5.976e+24"), Verbatim("6.37814e6")]),
      TableEnumVariant(Ident("Mars"), [Verbatim("6.421e+23"), Verbatim("3.3972e6")]),
      TableEnumVariant(Ident("Jupiter"), [Verbatim("1.9e+27"), Verbatim("7.1492e7")]),
      TableEnumVariant(Ident("Saturn"), [Verbatim("5.688e+26"), Verbatim("6.0268e7")]),
      TableEnumVariant(Ident("Uranus"), [Verbatim("8.686e+25"), Verbatim("2.5559e7")]),
      TableEnumVariant(Ident("Neptune"), [Verbatim("1.024e+26"), Verbatim("2.4746e7")])
      ])
  }

  /** The enum the `planets` test expects (tests.rs:22-31). */
  function PlanetsEnum(): EnumDef {
    EnumDef([], Public, Ident("Planets"), [
           Variant([], Ident("Mercury"), Unit, None),
           Variant([], Ident("Venus"), Unit, None),
           Variant([], Ident("Earth"), Unit, None),
           Variant([], Ident("Mars"), Unit, None),
           Variant([], Ident("Jupiter"), Unit, None),
           Variant([], Ident("Saturn"), Unit, None),
           Variant([], Ident("Uranus"), Unit, None),
           Variant([], Ident("Neptune"), Unit, None)
         ], true)
  }

  /** `pub const fn mass(&self) -> f64` as the test expects it (tests.rs:33-44). */
  function MassGetter(): Getter {
    Getter([], Public, true, Ident("mass"), Ty("f64"), [
           MatchArm(Ident("Planets"), Ident("Mercury"), Verbatim("3.303e+23")),
           MatchArm(Ident("Planets"), Ident("Venus"), Verbatim("4.869e+24")),
           MatchArm(Ident("Planets"), Ident("Earth"), Verbatim("5.976e+24")),
           MatchArm(Ident("Planets"), Ident("Mars"), Verbatim("6.421e+23")),
           MatchArm(Ident("Planets"), Ident("Jupiter"), Verbatim("1.9e+27")),
           MatchArm(Ident("Planets"), Ident("Saturn"), Verbatim("5.688e+26")),
           MatchArm(Ident("Planets"), Ident("Uranus"), Verbatim("8.686e+25")),
           MatchArm(Ident("Planets"), Ident("Neptune"), Verbatim("1.024e+26"))
        ])
  }

  /** `pub const fn radius(&self) -> f64` as the test expects it (tests.rs:45-56). */
  function RadiusGetter(): Getter {
    Getter([], Public, true, Ident("radius"), Ty("f64"), [
           MatchArm(Ident("Planets"), Ident("Mercury"), Verbatim("2.4397e6")),
           MatchArm(Ident("Planets"), Ident("Venus"), Verbatim("6.0518e6")),
           MatchArm(Ident("Planets"), Ident("Earth"), Verbatim("6.37814e6")),
           MatchArm(Ident("Planets"), Ident("Mars"), Verbatim("3.3972e6")),
           MatchArm(Ident("Planets"), Ident("Jupiter"), Verbatim("7.1492e7")),
           MatchArm(Ident("Planets"), Ident("Saturn"), Verbatim("6.0268e7")),
           MatchArm(Ident("Planets"), Ident("Uranus"), Verbatim("2.5559e7")),
           MatchArm(Ident("Planets"), Ident("Neptune"), Verbatim("2.4746e7"))
        ])
  }

  lemma PlanetsExpands()
    ensures Expand(Planets()).Generated?
  {
    var te := Planets();
    assert forall k :: 0 <= k < |te.members| ==> |te.members[k].values| == 2;
    var k := ShortestMember(te.members);
  }

  lemma PlanetsVariants(variants: seq<Variant>)
    requires |variants| == |Planets().members|
    requires forall k :: 0 <= k < |variants| ==> variants[k] == UnitVariant(Planets().members[k])
    ensures variants == PlanetsEnum().variants
  {
  }

  lemma PlanetsGetters(getters: seq<Getter>)
    requires |getters| == 2
    requires getters[0] == Getter([], Public, true, Ident("mass"), Ty("f64"), ColumnArms(Planets(), 0))
    requires getters[1] == Getter([], Public, true, Ident("radius"), Ty("f64"), ColumnArms(Planets(), 1))
    ensures getters == [MassGetter(), RadiusGetter()]
  {
    assert ColumnArms(Planets(), 0) == MassGetter().arms;
    assert ColumnArms(Planets(), 1) == RadiusGetter().arms;
  }

  /** The expansion of `Planets` is the expected output of the `planets`
      test (tests.rs:21-57): one unit variant per planet and two `pub const
      fn` getters whose arms hold the table's columns. */
  lemma PlanetsExpansion()
    ensures Expand(Planets()) == Generated(PlanetsEnum(), ImplBlock([], Ident("Planets"), [MassGetter(), RadiusGetter()]))
  {
    PlanetsExpands();
    var e := Expand(Planets());
    EnumMirrorsMembers(Planets());
    PlanetsVariants(e.enumDef.variants);
    GettersMirrorFields(Planets());
    PlanetsGetters(e.implBlock.getters);
  }

  /** `pub enum BinaryOp(text: &'static str, #[option] precedence: i32, #[default] right_assoc: bool) { ... }`
      (tests.rs:65-71), with `_` read as `Infer`. */
  function BinaryOp(): TableEnum {
    TableEnum([], Public, Ident("BinaryOp"),
      [Field([], Ident("text"), Ty("&'static str")),
       Field([Attribute("option", "")], Ident("precedence"), Ty("i32")),
       Field([Attribute("default", "")], Ident("right_assoc"), Ty("bool"))],
      [
      TableEnumVariant(Ident("Add"), [Verbatim("\"+\""), Infer, Infer]),
      TableEnumVariant(Ident("Sub"), [Verbatim("\"-\""), Infer, Infer]),
      TableEnumVariant(Ident("Mul"), [Verbatim("\"*\""), Verbatim("20"), Infer]),
      TableEnumVariant(Ident("Div"), [Verbatim("\"/\""), Verbatim("20"), Infer]),
      TableEnumVariant(Ident("Pow"), [Verbatim("\"**\""), Verbatim("30"), Verbatim("true")])
      ])
  }

  /** The enum the `option` test expects (tests.rs:75-81), which is also
      what lib.rs emits. */
  function BinaryOpEnum(): EnumDef {
    EnumDef([], Public, Ident("BinaryOp"), [
      Variant([], Ident("Add"), Unit, None),
      Variant([], Ident("Sub"), Unit, None),
      Variant([], Ident("Mul"), Unit, None),
      Variant([], Ident("Div"), Unit, None),
      Variant([], Ident("Pow"), Unit, None)
    ], true)
  }

  /** `pub const fn text(&self) -> &'static str` (tests.rs:83-91). */
  function TextGetter(): Getter {
    Getter([], Public, true, Ident("text"), Ty("&'static str"), [
      MatchArm(Ident("BinaryOp"), Ident("Add"), Verbatim("\"+\"")),
      MatchArm(Ident("BinaryOp"), Ident("Sub"), Verbatim("\"-\"")),
      MatchArm(Ident("BinaryOp"), Ident("Mul"), Verbatim("\"*\"")),
      MatchArm(Ident("BinaryOp"), Ident("Div"), Verbatim("\"/\"")),
      MatchArm(Ident("BinaryOp"), Ident("Pow"), Verbatim("\"**\""))
    ])
  }

  /** The `precedence` getter lib.rs emits: `pub const fn precedence(&self)
      -> i32`, with the table's `_` and `20` as they were written. */
  function PrecedenceAsWritten(): Getter {
    Getter([], Public, true, Ident("precedence"), Ty("i32"), [
      MatchArm(Ident("BinaryOp"), Ident("Add"), Infer),
      MatchArm(Ident("BinaryOp"), Ident("Sub"), Infer),
      MatchArm(Ident("BinaryOp"), Ident("Mul"), Verbatim("20")),
      MatchArm(Ident("BinaryOp"), Ident("Div"), Verbatim("20")),
      MatchArm(Ident("BinaryOp"), Ident("Pow"), Verbatim("30"))
    ])
  }

  /** The `right_assoc` getter lib.rs emits: `pub const fn right_assoc(&self)
      -> bool`, with the table's `_` as written. */
  function RightAssocAsWritten(): Getter {
    Getter([], Public, true, Ident("right_assoc"), Ty("bool"), [
      MatchArm(Ident("BinaryOp"), Ident("Add"), Infer),
      MatchArm(Ident("BinaryOp"), Ident("Sub"), Infer),
      MatchArm(Ident("BinaryOp"), Ident("Mul"), Infer),
      MatchArm(Ident("BinaryOp"), Ident("Div"), Infer),
      MatchArm(Ident("BinaryOp"), Ident("Pow"), Verbatim("true"))
    ])
  }

  /** The output the `option` test expects (tests.rs:74-111): `precedence`
      returns `Option<i32>` with `None` for `_` and `Some(v)` otherwise;
      `right_assoc` is not `const` and has `bool::default()` for `_`. */
  function OptionTestExpected(): Expansion {
    Generated(BinaryOpEnum(), ImplBlock([], Ident("BinaryOp"), [
      TextGetter(),
      Getter([], Public, true, Ident("precedence"), OptionOf(Ty("i32")), [
      MatchArm(Ident("BinaryOp"), Ident("Add"), NoneExpr),
      MatchArm(Ident("BinaryOp"), Ident("Sub"), NoneExpr),
      MatchArm(Ident("BinaryOp"), Ident("Mul"), SomeOf(Verbatim("20"))),
      MatchArm(Ident("BinaryOp"), Ident("Div"), SomeOf(Verbatim("20"))),
      MatchArm(Ident("BinaryOp"), Ident("Pow"), SomeOf(Verbatim("30")))
      ]),
      Getter([], Public, false, Ident("right_assoc"), Ty("bool"), [
      MatchArm(Ident("BinaryOp"), Ident("Add"), DefaultOf(Ty("bool"))),
      MatchArm(Ident("BinaryOp"), Ident("Sub"), DefaultOf(Ty("bool"))),
      MatchArm(Ident("BinaryOp"), Ident("Mul"), DefaultOf(Ty("bool"))),
      MatchArm(Ident("BinaryOp"), Ident("Div"), DefaultOf(Ty("bool"))),
      MatchArm(Ident("BinaryOp"), Ident("Pow"), Verbatim("true"))
      ])
    ]))
  }

  lemma BinaryOpExpands()
    ensures Expand(BinaryOp()).Generated?
  {
    var te := BinaryOp();
    assert forall k :: 0 <= k < |te.members| ==> |te.members[k].values| == 3;
    var k := ShortestMember(te.members);
  }

  lemma BinaryOpVariants(variants: seq<Variant>)
    requires |variants| == |BinaryOp().members|
    requires forall k :: 0 <= k < |variants| ==> variants[k] == UnitVariant(BinaryOp().members[k])
    ensures variants == BinaryOpEnum().variants
  {
  }

  lemma BinaryOpGetters(getters: seq<Getter>)
    requires |getters| == 3
    requires getters[0] == Getter([], Public, true, Ident("text"), Ty("&'static str"), ColumnArms(BinaryOp(), 0))
    requires getters[1] == Getter([], Public, true, Ident("precedence"), Ty("i32"), ColumnArms(BinaryOp(), 1))
    requires getters[2] == Getter([], Public, true, Ident("right_assoc"), Ty("bool"), ColumnArms(BinaryOp(), 2))
    ensures getters == [TextGetter(), PrecedenceAsWritten(), RightAssocAsWritten()]
  {
    assert ColumnArms(BinaryOp(), 0) == TextGetter().arms;
    assert ColumnArms(BinaryOp(), 1) == PrecedenceAsWritten().arms;
    assert ColumnArms(BinaryOp(), 2) == RightAssocAsWritten().arms;
  }

  /** What lib.rs makes of the `option` test's table: the declared types,
      `const` on every getter and the raw `_` values, since the field
      attributes `#[option]` and `#[default]` are never looked at. */
  lemma BinaryOpExpansion()
    ensures Expand(BinaryOp()) == Generated(BinaryOpEnum(),
      ImplBlock([], Ident("BinaryOp"), [TextGetter(), PrecedenceAsWritten(), RightAssocAsWritten()]))
  {
    BinaryOpExpands();
    var e := Expand(BinaryOp());
    EnumMirrorsMembers(BinaryOp());
    BinaryOpVariants(e.enumDef.variants);
    GettersMirrorFields(BinaryOp());
    BinaryOpGetters(e.implBlock.getters);
  }

  /** lib.rs does not produce the output the `option` test expects: the
      enum and the `text` getter agree, the `precedence` and `right_assoc`
      getters do not. */
  lemma OptionTestDisagrees()
    ensures Expand(BinaryOp()) != OptionTestExpected()
    ensures Expand(BinaryOp()).enumDef == OptionTestExpected().enumDef
    ensures Expand(BinaryOp()).implBlock.getters[0] == OptionTestExpected().implBlock.getters[0]
    ensures Expand(BinaryOp()).implBlock.getters[1] != OptionTestExpected().implBlock.getters[1]
    ensures Expand(BinaryOp()).implBlock.getters[2] != OptionTestExpected().implBlock.getters[2]
  {
    BinaryOpExpansion();
    assert PrecedenceAsWritten().returnType != OptionTestExpected().implBlock.getters[1].returnType;
    assert RightAssocAsWritten().isConst != OptionTestExpected().implBlock.getters[2].isConst;
  }
}
