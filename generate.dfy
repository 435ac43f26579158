/** `table_enum_core` (table-enum-core/src/lib.rs:66-117): the expansion of
    a table into an enum with one unit variant per member and an impl block
    with one `const fn` getter per field. `Expand` states the expansion
    declaratively; `TableEnumCore` builds it the way the source does, by
    pushing into a `Punctuated` and a growing list of getters, and is proved
    to produce exactly `Expand`'s result. */
module Generate {
  import opened Wrappers
  import opened Syn
  import opened Grammar

  /** Why the expansion panics instead of returning tokens. */
  datatype Panic =
      /** `push_punct` on an empty variant list: the table has no members. */
    | PushPunctOnEmpty
      /** `v.values[field]` with `member` holding only `field` values. */
    | ValueIndexOutOfRange(field: nat, member: nat)

  /** What `table_enum_core` hands back to the compiler. */
  datatype Expansion =
    | CompileError(error: SynError)
    | Generated(enumDef: EnumDef, implBlock: ImplBlock)
    | Panicked(panic: Panic)

  // ---------------------------------------------------------------------
  // The expansion, stated declaratively

  /** The variant emitted for one member: no attributes, no fields, no
      discriminant. */
  function UnitVariant(m: TableEnumVariant): Variant {
    Variant([], m.ident, Unit, None)
  }

  /** The first member among those with the fewest values. */
  function ShortestMember(members: seq<TableEnumVariant>): (k: nat)
    requires members != []
    ensures k < |members|
    ensures forall j :: 0 <= j < |members| ==> |members[k].values| <= |members[j].values|
    ensures forall j :: 0 <= j < k ==> |members[k].values| < |members[j].values|
  {
    if |members| == 1 then 0
    else
      var k := ShortestMember(members[1..]);
      if |members[0].values| <= |members[k + 1].values| then 0 else k + 1
  }

  /** Every member supplies a value for every field. */
  predicate ValuesCover(te: TableEnum) {
    forall k :: 0 <= k < |te.members| ==> |te.types| <= |te.members[k].values|
  }

  /** The arms of getter `i`: one per member, returning its `i`-th value. */
  function ColumnArms(te: TableEnum, i: nat): seq<MatchArm>
    requires forall k :: 0 <= k < |te.members| ==> i < |te.members[k].values|
  {
    seq(|te.members|, k requires 0 <= k < |te.members| =>
      MatchArm(te.ident, te.members[k].ident, te.members[k].values[i]))
  }

  /** Getter `i`: named and typed after field `i`, with the arms of column
      `i`. */
  function GetterOf(te: TableEnum, i: nat): Getter
    requires i < |te.types| && ValuesCover(te)
  {
    Getter([], te.visibility, true, te.types[i].ident, te.types[i].ty, ColumnArms(te, i))
  }

  /** The expansion of a parsed table. */
  function Expand(te: TableEnum): Expansion {
    if te.members == [] then
      Panicked(PushPunctOnEmpty)
    else
      var k := ShortestMember(te.members);
      if |te.members[k].values| < |te.types| then
        Panicked(ValueIndexOutOfRange(|te.members[k].values|, k))
      else
        Generated(
          EnumDef(te.attrs, te.visibility, te.ident, seq(|te.members|, k requires 0 <= k < |te.members| => UnitVariant(te.members[k])), true),
          ImplBlock([], te.ident, seq(|te.types|, i requires 0 <= i < |te.types| => GetterOf(te, i))))
  }

  /** The expansion of the macro input: the compile error when `parse2`
      fails, otherwise the expansion of the parsed table. */
  function ExpandInput(input: seq<Token>): Expansion {
    match ParseTokens(input)
    case Err(e) => CompileError(e)
    case Ok(te) => Expand(te)
  }

  // ---------------------------------------------------------------------
  // The pieces `table_enum_core` computes with iterator chains

  /** `enum_variants.iter().map(|v| v.ident.clone()).collect()`. */
  function VariantNames(variants: seq<Variant>): (names: seq<Ident>)
    ensures |names| == |variants|
    ensures forall k :: 0 <= k < |variants| ==> names[k] == variants[k].ident
  {
    seq(|variants|, k requires 0 <= k < |variants| => variants[k].ident)
  }

  /** `members.iter().map(|v| v.values[i].clone())`, run to the end: the
      `i`-th value of every member, or the first member that has no `i`-th
      value, where the indexing panics. */
  function ColumnValues(members: seq<TableEnumVariant>, i: nat): (r: Result<seq<Expr>, nat>)
    ensures r.Ok? <==> forall k :: 0 <= k < |members| ==> i < |members[k].values|
    ensures r.Ok? ==> |r.value| == |members|
    ensures r.Ok? ==> forall k :: 0 <= k < |members| ==> r.value[k] == members[k].values[i]
    ensures r.Err? ==> r.error < |members| && |members[r.error].values| <= i
    ensures r.Err? ==> forall k :: 0 <= k < r.error ==> i < |members[k].values|
  {
    if members == [] then Ok([])
    else if |members[0].values| <= i then Err(0)
    else match ColumnValues(members[1..], i)
      case Ok(vs) => Ok([members[0].values[i]] + vs)
      case Err(k) => Err(k + 1)
  }

  /** The arms of `match self { #(#enum_name::#variant_names => #variant_values,)* }`:
      names and values zipped in order. */
  function MatchArms(enumName: Ident, names: seq<Ident>, values: seq<Expr>): (arms: seq<MatchArm>)
    requires |names| == |values|
    ensures |arms| == |names|
    ensures forall k :: 0 <= k < |arms| ==> arms[k] == MatchArm(enumName, names[k], values[k])
  {
    seq(|names|, k requires 0 <= k < |names| => MatchArm(enumName, names[k], values[k]))
  }

  // ---------------------------------------------------------------------
  // `table_enum_core`

  /** `if !enum_variants.trailing_punct() { enum_variants.push_punct(..) }`
      (lines 83-85). Returns false where `push_punct` panics, on an empty
      list. The values are untouched; a list that already ends in a comma is
      left exactly as it was. */
  method ForceTrailingPunct<T>(list: Punctuated<T>) returns (ok: bool)
    modifies list
    ensures ok <==> old(list.Items()) != []
    ensures list.Items() == old(list.Items())
    ensures ok ==> list.TrailingPunct()
    ensures old(list.TrailingPunct()) ==> list.inner == old(list.inner) && list.last == old(list.last)
  {
    if !list.TrailingPunct() {
      if list.last.None? {
        return false;
      }
      list.PushPunct();
    }
    return true;
  }

  /** The loop of lines 74-82: one unit variant pushed per member. */
  method PushUnitVariants(members: seq<TableEnumVariant>) returns (enumVariants: Punctuated<Variant>)
    ensures fresh(enumVariants)
    ensures |enumVariants.Items()| == |members|
    ensures forall k :: 0 <= k < |members| ==> enumVariants.Items()[k] == UnitVariant(members[k])
  {
    enumVariants := new Punctuated<Variant>();
    ghost var items: seq<Variant> := [];
    var m := 0;
    while m < |members|
      invariant m <= |members|
      invariant enumVariants.Items() == items
      invariant |items| == m
      invariant forall k :: 0 <= k < m ==> items[k] == UnitVariant(members[k])
    {
      enumVariants.Push(UnitVariant(members[m]));
      items := items + [UnitVariant(members[m])];
      m := m + 1;
    }
  }

  /** The loop of lines 90-107: one getter per field, in field order, or the
      panic of the first `v.values[i]` that is out of range. */
  method BuildGetters(te: TableEnum, variantNames: seq<Ident>) returns (r: Result<seq<Getter>, Panic>)
    requires |variantNames| == |te.members|
    requires forall k :: 0 <= k < |te.members| ==> variantNames[k] == te.members[k].ident
    ensures r.Ok? <==> ValuesCover(te)
    ensures r.Ok? ==> |r.value| == |te.types| && forall j :: 0 <= j < |te.types| ==> r.value[j] == GetterOf(te, j)
    ensures r.Err? ==> r.error.ValueIndexOutOfRange?
    ensures r.Err? ==>
      var i, k := r.error.field, r.error.member;
      && i < |te.types| && k < |te.members| && |te.members[k].values| <= i
      && (forall j :: 0 <= j < |te.members| ==> i <= |te.members[j].values|)
      && (forall j :: 0 <= j < k ==> i < |te.members[j].values|)
  {
    var getters: seq<Getter> := [];
    var i := 0;
    while i < |te.types|
      invariant i <= |te.types|
      invariant forall k :: 0 <= k < |te.members| ==> i <= |te.members[k].values|
      invariant |getters| == i
      invariant forall j :: 0 <= j < i ==> getters[j] == Getter([], te.visibility, true, te.types[j].ident, te.types[j].ty, ColumnArms(te, j))
    {
      var t := te.types[i];
      var variantValues := ColumnValues(te.members, i);
      if variantValues.Err? {
        return Err(ValueIndexOutOfRange(i, variantValues.error));
      }
      var arms := MatchArms(te.ident, variantNames, variantValues.value);
      assert arms == ColumnArms(te, i);
      var getter := Getter([], te.visibility, true, t.ident, t.ty, arms);
      getters := getters + [getter];
      i := i + 1;
    }
    return Ok(getters);
  }

  /** `table_enum_core`: parse the input, build the variant list member by
      member, force its trailing comma, then build one getter per field. */
  method TableEnumCore(input: seq<Token>) returns (out: Expansion)
    ensures out == ExpandInput(input)
  {
    var parsed := Parse2(input);
    if parsed.Err? {
      return CompileError(parsed.error);
    }
    var te := parsed.value;
    var enumVariants := PushUnitVariants(te.members);
    var ok := ForceTrailingPunct(enumVariants);
    if !ok {
      return Panicked(PushPunctOnEmpty);
    }
    var variants := enumVariants.Items();
    var variantNames := VariantNames(variants);
    var getters := BuildGetters(te, variantNames);
    if getters.Err? {
      ExpandPanicsAtColumn(te, getters.error.field, getters.error.member);
      return Panicked(getters.error);
    }
    ExpandGenerates(te, variants, getters.value);
    var trailing := enumVariants.TrailingPunct();
    return Generated(EnumDef(te.attrs, te.visibility, te.ident, variants, trailing), ImplBlock([], te.ident, getters.value));
  }

  /** The panic `TableEnumCore` meets in its getter loop is the one `Expand`
      predicts. */
  lemma ExpandPanicsAtColumn(te: TableEnum, i: nat, k: nat)
    requires te.members != [] && i < |te.types|
    requires forall j :: 0 <= j < |te.members| ==> i <= |te.members[j].values|
    requires k < |te.members| && |te.members[k].values| <= i
    requires forall j :: 0 <= j < k ==> i < |te.members[j].values|
    ensures Expand(te) == Panicked(ValueIndexOutOfRange(i, k))
  {
    var s := ShortestMember(te.members);
    assert |te.members[s].values| == i;
    assert s == k;
  }

  /** Once every member covered every field, what `TableEnumCore` built is
      what `Expand` predicts. */
  lemma ExpandGenerates(te: TableEnum, variants: seq<Variant>, getters: seq<Getter>)
    requires te.members != []
    requires ValuesCover(te)
    requires |variants| == |te.members|
    requires forall k :: 0 <= k < |te.members| ==> variants[k] == UnitVariant(te.members[k])
    requires |getters| == |te.types|
    requires forall j :: 0 <= j < |te.types| ==> getters[j] == GetterOf(te, j)
    ensures Expand(te) == Generated(EnumDef(te.attrs, te.visibility, te.ident, variants, true), ImplBlock([], te.ident, getters))
  {
    var s := ShortestMember(te.members);
    assert |te.types| <= |te.members[s].values|;
    var e := Expand(te);
    assert e.enumDef.variants == variants;
    assert e.implBlock.getters == getters;
  }

  // ---------------------------------------------------------------------
  // What the expansion promises

  /** A table expands to code exactly when it has a member and every member
      supplies a value for every field; otherwise it panics, and the panic
      names the first field some member lacks and the first such member. */
  lemma ExpandOutcome(te: TableEnum)
    ensures !Expand(te).CompileError?
    ensures Expand(te).Generated? <==> te.members != [] && ValuesCover(te)
    ensures Expand(te) == Panicked(PushPunctOnEmpty) <==> te.members == []
    ensures Expand(te).Panicked? && Expand(te).panic.ValueIndexOutOfRange? ==>
      var i, k := Expand(te).panic.field, Expand(te).panic.member;
      && i < |te.types| && k < |te.members| && |te.members[k].values| == i
      && (forall j :: 0 <= j < |te.members| ==> i <= |te.members[j].values|)
      && (forall j :: 0 <= j < k ==> i < |te.members[j].values|)
  {
    if te.members != [] {
      var s := ShortestMember(te.members);
      if !ValuesCover(te) {
        var j :| 0 <= j < |te.members| && |te.members[j].values| < |te.types|;
        assert |te.members[s].values| <= |te.members[j].values|;
      }
    }
  }

  /** The enum: the table's attributes, visibility and name, then one unit
      variant per member, in member order, followed by a comma. */
  lemma EnumMirrorsMembers(te: TableEnum)
    requires Expand(te).Generated?
    ensures var e := Expand(te).enumDef;
      && e.attrs == te.attrs && e.vis == te.visibility && e.ident == te.ident && e.trailingComma
      && |e.variants| == |te.members|
      && forall k :: 0 <= k < |te.members| ==>
           e.variants[k] == Variant([], te.members[k].ident, Unit, None)
  {
  }

  /** The impl block: no attributes, for the enum, with one getter per
      field in field order; getter `i` is a `const fn` with the enum's
      visibility and no attributes, named after field `i` and returning its
      declared type. */
  lemma GettersMirrorFields(te: TableEnum)
    requires Expand(te).Generated?
    ensures var b := Expand(te).implBlock;
      && b.attrs == [] && b.selfTy == te.ident
      && |b.getters| == |te.types|
      && forall i :: 0 <= i < |te.types| ==>
           var g := b.getters[i];
           && g.attrs == [] && g.vis == te.visibility && g.isConst
           && g.ident == te.types[i].ident && g.returnType == te.types[i].ty
  {
  }

  /** Getter `i` has one arm per member, in member order; the arm for
      member `k` maps `Name::member_k` to that member's `i`-th value. */
  lemma ArmsLineUp(te: TableEnum, i: nat)
    requires Expand(te).Generated? && i < |te.types|
    ensures var arms := Expand(te).implBlock.getters[i].arms;
      && |arms| == |te.members|
      && forall k :: 0 <= k < |te.members| ==>
           arms[k] == MatchArm(te.ident, te.members[k].ident, te.members[k].values[i])
  {
    ExpandOutcome(te);
  }

  // ---------------------------------------------------------------------
  // Calling a getter

  /** `match self` on the variant `variant`: the body of the first arm for
      it, as Rust tries arms in order. */
  function SelectArm(arms: seq<MatchArm>, variant: Ident): Option<Expr> {
    if arms == [] then None
    else if arms[0].variant == variant then Some(arms[0].body)
    else SelectArm(arms[1..], variant)
  }

  /** How many arms match `variant`. */
  function ArmCount(arms: seq<MatchArm>, variant: Ident): nat {
    if arms == [] then 0
    else (if arms[0].variant == variant then 1 else 0) + ArmCount(arms[1..], variant)
  }

  lemma {:induction false} SelectFirstMatch(arms: seq<MatchArm>, k: nat)
    requires k < |arms|
    requires forall j :: 0 <= j < k ==> arms[j].variant != arms[k].variant
    ensures SelectArm(arms, arms[k].variant) == Some(arms[k].body)
  {
    if k > 0 {
      SelectFirstMatch(arms[1..], k - 1);
    }
  }

  lemma {:induction false} CountSingleMatch(arms: seq<MatchArm>, k: nat)
    requires k < |arms|
    requires forall j :: 0 <= j < |arms| && j != k ==> arms[j].variant != arms[k].variant
    ensures ArmCount(arms, arms[k].variant) == 1
  {
    if k > 0 {
      CountSingleMatch(arms[1..], k - 1);
    } else {
      NoMatch(arms[1..], arms[0].variant);
    }
  }

  lemma {:induction false} NoMatch(arms: seq<MatchArm>, variant: Ident)
    requires forall j :: 0 <= j < |arms| ==> arms[j].variant != variant
    ensures ArmCount(arms, variant) == 0
  {
    if arms != [] {
      NoMatch(arms[1..], variant);
    }
  }

  /** Member names are pairwise different, as the enum they become
      requires. */
  predicate DistinctNames(members: seq<TableEnumVariant>) {
    forall j, k :: 0 <= j < k < |members| ==> members[j].ident != members[k].ident
  }

  /** Each variant is matched by exactly one arm of every getter, and
      calling getter `i` on the variant of member `k` gives that member's
      `i`-th value: the table read back cell by cell. */
  lemma GetterReturnsTableValue(te: TableEnum, i: nat, k: nat)
    requires Expand(te).Generated? && DistinctNames(te.members)
    requires i < |te.types| && k < |te.members|
    ensures var arms := Expand(te).implBlock.getters[i].arms;
      && ArmCount(arms, te.members[k].ident) == 1
      && SelectArm(arms, te.members[k].ident) == Some(te.members[k].values[i])
  {
    ArmsLineUp(te, i);
    var arms := Expand(te).implBlock.getters[i].arms;
    assert arms[k].variant == te.members[k].ident;
    SelectFirstMatch(arms, k);
    CountSingleMatch(arms, k);
  }

  // ---------------------------------------------------------------------
  // What the expansion ignores

  /** Each member's values cut to at most `n`. */
  function Truncated(te: TableEnum, n: nat): TableEnum {
    te.(members := seq(|te.members|, k requires 0 <= k < |te.members| =>
      var m := te.members[k];
      if |m.values| <= n then m else m.(values := m.values[..n])))
  }

  lemma TruncatedCovered(te: TableEnum)
    requires te.members != [] && ValuesCover(te)
    ensures Expand(Truncated(te, |te.types|)) == Expand(te)
  {
    var t := Truncated(te, |te.types|);
    var s' := ShortestMember(t.members);
    assert |t.members[s'].values| == |te.types|;
    assert ValuesCover(t);
    forall i | 0 <= i < |te.types|
      ensures GetterOf(t, i) == GetterOf(te, i)
    {
      assert ColumnArms(t, i) == ColumnArms(te, i);
    }
    assert Expand(t).implBlock == Expand(te).implBlock;
    assert Expand(t).enumDef == Expand(te).enumDef;
  }

  lemma TruncatedShort(te: TableEnum)
    requires te.members != [] && !ValuesCover(te)
    ensures Expand(Truncated(te, |te.types|)) == Expand(te)
  {
    var t := Truncated(te, |te.types|);
    var s := ShortestMember(te.members);
    var s' := ShortestMember(t.members);
    var j :| 0 <= j < |te.members| && |te.members[j].values| < |te.types|;
    assert |te.members[s].values| <= |te.members[j].values|;
    assert |t.members[s].values| == |te.members[s].values|;
    assert |t.members[s'].values| == |te.members[s'].values|;
    assert s' == s;
  }

  /** Values beyond the field count are never read: dropping them changes
      nothing, whether the table expands or panics. */
  lemma ExtraValuesIgnored(te: TableEnum)
    ensures Expand(Truncated(te, |te.types|)) == Expand(te)
  {
    if te.members != [] {
      if ValuesCover(te) {
        TruncatedCovered(te);
      } else {
        TruncatedShort(te);
      }
    }
  }

  /** The table with each field's attributes replaced. */
  function WithFieldAttributes(te: TableEnum, attrs: seq<seq<Attribute>>): TableEnum
    requires |attrs| == |te.types|
  {
    te.(types := seq(|te.types|, i requires 0 <= i < |te.types| => te.types[i].(attrs := attrs[i])))
  }

  /** Field attributes such as `#[option]` or `#[default]` are never
      inspected: whatever they are, the expansion is the same. */
  lemma FieldAttributesIgnored(te: TableEnum, attrs: seq<seq<Attribute>>)
    requires |attrs| == |te.types|
    ensures Expand(WithFieldAttributes(te, attrs)) == Expand(te)
  {
    var t := WithFieldAttributes(te, attrs);
    if te.members != [] && ValuesCover(te) {
      forall i | 0 <= i < |te.types|
        ensures GetterOf(t, i) == GetterOf(te, i)
      {
        assert GetterOf(t, i).arms == GetterOf(te, i).arms;
      }
      assert Expand(t).implBlock == Expand(te).implBlock;
    }
  }
}
