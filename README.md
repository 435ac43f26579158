# table-enum: a Dafny model of `table_enum_core`

`table_enum!` turns a table into a Rust enum plus getter functions. The table
is written as:

```
#[attrs] pub enum Name(field: Type, ...) { Member(value, ...), ... }
```

The expansion is a unit-only `enum Name { Member, ... }` and an
`impl Name { pub const fn field(&self) -> Type { match self { Name::Member => value, ... } } ... }`.
All of the logic lives in `table-enum-core/src/lib.rs`:

- the `TableEnum` / `TableEnumVariant` records;
- their two `Parse` implementations;
- `table_enum_core`, which builds the enum and the getters.

This project models that file and proves what it promises.

- `wrappers.dfy` (module `Wrappers`): `Option` and `Result`.
- `syn.dfy` (module `Syn`): the parts of syn and proc_macro2 the macro uses.
  - Identifiers, types, expressions, attributes and named fields are opaque
    values.
  - The macro input is a sequence of token trees whose leaves are those
    values.
  - The leaf parsers each read one token tree.
  - `Attribute::parse_outer` and `parse_terminated` are specified as functions
    (`OuterAttributes`, `Terminated`).
  - `ParseBuffer` is a class: a cursor whose methods move over the tokens.
    `ParseTerminated` and `ParseOuterAttributes` are loops proved equal to
    those functions.
  - `Punctuated` is a class with syn's `inner`/`last` layout. It offers
    `push`, `push_punct` and `trailing_punct`.
  - The items the macro emits are datatypes: `EnumDef`, `Variant`, `Getter`,
    `MatchArm` and `ImplBlock`.
- `grammar.dfy` (module `Grammar`): the parsed table and the grammar.
  - The functions `VariantSpec`, `VisibilitySpec`, `TableEnumSpec` and
    `ParseTokens` specify the grammar.
  - The `Parse` impls are methods over the cursor, each proved equal to its
    function.
  - `Render` writes a table back as tokens, with every list in the same comma
    style. `RoundTrip` / `ParseRender` prove that parsing reads it back
    unchanged, with trailing commas on every list or on none.
- `generate.dfy` (module `Generate`): `table_enum_core`.
  - `Expand` states the expansion declaratively, including its two panics.
  - `TableEnumCore` builds the output as the source does: a `Punctuated` of
    variants, the trailing-comma fix-up, then a growing list of getters. It
    is proved to return `ExpandInput(input)`.
  - The lemmas state what the expansion guarantees.
- `test_tables.dfy` (module `TestTables`): the two tables of
  `table-enum-core/src/tests.rs`, expanded.

Two runtime panics are modelled as an outcome, `Panicked`, rather than ruled
out by a precondition:

- **An empty member list.** syn's `Punctuated::push_punct` panics on an empty
  list, and the fix-up at lib.rs:83-85 always calls it on an empty list.
- **A member with fewer values than there are fields.** The expression
  `v.values[i]` at lib.rs:95 panics.

The macro does not check either condition before it panics, so they are
outcomes of the model rather than obligations on its callers.

### Documented behaviour that `lib.rs` does not have

Two sources describe two per-field convenience attributes, `#[option]` and
`#[default]`:

- the macro's documentation (`table-enum-macro/src/lib.rs:32-54`);
- the `option` unit test (`table-enum-core/src/tests.rs:62-113`).

They say that:

- an `#[option]` field's getter returns `Option<T>`, wrapping each value in
  `Some` and turning `_` into `None`;
- a `#[default]` field turns `_` into `Default::default()`, and its getter is
  not `const`.

`lib.rs` implements neither: it never looks at a field's attributes, and every
getter is a `const fn` returning the declared type and the values exactly as
written. This model follows `lib.rs`.

- `Generate.FieldAttributesIgnored` proves that field attributes never change
  the expansion.
- `TestTables.OptionTestDisagrees` proves that the expansion of the `option`
  test's table differs from the output that test expects.

On the number of values per member, the code does the following. Too few
values fail the build through a panic of the macro (the compiler reports that
the procedural macro panicked). That is not the `to_compile_error` diagnostic
a parse error produces at lib.rs:69, and the model keeps the two apart as
`Panicked` and `CompileError`. Extra values are silently dropped
(`Generate.ExtraValuesIgnored`).

## Model

| member | source | states |
|---|---|---|
| Syn.OuterAttributes | table-enum-core/src/lib.rs:41 | `Attribute::parse_outer` stops at the first token that is not an outer attribute |
| Syn.ParseBuffer.Call | table-enum-core/src/lib.rs:28 | `input.parse()` / `input.call(p)` returns what `p` reads at the cursor and moves the cursor past exactly what `p` consumed |
| Syn.ParseBuffer.ParseOuterAttributes | table-enum-core/src/lib.rs:41 | the attribute loop returns exactly the attributes `OuterAttributes` reads and stops where it stops |
| Syn.ParseBuffer.ParseTerminated | table-enum-core/src/lib.rs:52 | the `parse_terminated` loop returns exactly `Terminated` of the remaining tokens and, on success, consumes all of them |
| Syn.Punctuated.constructor | table-enum-core/src/lib.rs:74 | `Punctuated::new()` is empty |
| Syn.Punctuated.Push | table-enum-core/src/lib.rs:76-81 | `push` appends the value to the items and leaves it last, with no comma after it |
| Syn.Punctuated.PushPunct | table-enum-core/src/lib.rs:84 | `push_punct` keeps the items and leaves the list ending in a comma |
| Grammar.VariantSpec | table-enum-core/src/lib.rs:26-37 | a member is an identifier and one parenthesised group, so a successful read consumes exactly two token trees |
| Grammar.VisibilitySpec | table-enum-core/src/lib.rs:42-47 | the visibility is `pub` exactly when the next token is `pub`, and then only that token is consumed; otherwise it is inherited and nothing is consumed |
| Grammar.ParseTableEnumVariant | table-enum-core/src/lib.rs:26-37 | `TableEnumVariant::parse` returns exactly what `VariantSpec` reads and leaves the cursor where it stops |
| Grammar.ParseMembers | table-enum-core/src/lib.rs:55 | the member loop returns exactly `Terminated` of the brace contents read with `VariantSpec` and, on success, consumes all of them |
| Grammar.ParseVisibilityDecision | table-enum-core/src/lib.rs:42-47 | the lookahead-then-parse step yields and consumes exactly what `VisibilitySpec` says |
| Grammar.ParseTableEnum | table-enum-core/src/lib.rs:39-47 | `TableEnum::parse` returns exactly what `TableEnumSpec` reads and leaves the cursor where it stops |
| Grammar.ParseEnumItem | table-enum-core/src/lib.rs:48-49 | the `enum` keyword and the name are read in order, then the two lists, exactly as `EnumItemSpec` reads them |
| Grammar.ParseLists | table-enum-core/src/lib.rs:50-62 | the field list and the member list are read with `parse_terminated`, exactly as `ListsSpec` reads them |
| Grammar.Parse2 | table-enum-core/src/lib.rs:67 | `parse2::<TableEnum>` returns `ParseTokens`: the parsed table, or the first error, or "unexpected token" when anything follows the table |
| Grammar.TerminatedLast | table-enum-core/src/lib.rs:31 | a single element reads back as a one-element list with or without a trailing comma |
| Grammar.TerminatedAfterComma | table-enum-core/src/lib.rs:52 | after an element and a comma, `parse_terminated` continues with the rest of the list |
| Grammar.TerminatedCons | table-enum-core/src/lib.rs:55 | an element, a comma and a list that reads back together read back as the longer list |
| Grammar.TerminatedPunctuate | table-enum-core/src/lib.rs:52 | every comma-separated list reads back as the same list, trailing comma or not, when each element reads back |
| Grammar.OuterAttributesRender | table-enum-core/src/lib.rs:41 | written attributes followed by a non-attribute read back as exactly those attributes, in order |
| Grammar.VariantRoundTrip | table-enum-core/src/lib.rs:26-37 | a written member reads back as itself and leaves what follows untouched |
| Grammar.MembersRoundTrip | table-enum-core/src/lib.rs:55 | a written member list reads back as the same members, in order |
| Grammar.ListsRoundTrip | table-enum-core/src/lib.rs:50-62 | written field and member lists read back as the same fields and members |
| Grammar.EnumItemRoundTrip | table-enum-core/src/lib.rs:48-62 | `enum Name (...) {...}` written out reads back as the same table |
| Grammar.RoundTrip | table-enum-core/src/lib.rs:39-63 | reading a written table gives back the same attributes, visibility, name, fields and members and leaves what follows untouched |
| Grammar.ParseRender | table-enum-core/src/lib.rs:67 | `parse2` accepts every written table whose lists all have trailing commas, or none do, and returns it unchanged |
| Grammar.TrailingTokensRejected | table-enum-core/src/lib.rs:67 | `parse2` rejects a complete table followed by any further token, with "unexpected token" |
| Grammar.VisibilityAfterAttributes | table-enum-core/src/lib.rs:41-47 | a parsed table keeps the outer attributes in order; it is `pub` exactly when the token after them is `pub`, and inherited otherwise |
| Generate.ShortestMember | table-enum-core/src/lib.rs:91-95 | picks the member with the fewest values, and the first one among ties; this is where the getter loop's indexing first fails |
| Generate.ColumnValues | table-enum-core/src/lib.rs:95 | succeeds exactly when every member has an `i`-th value, yielding those values in member order; otherwise it names the first member without one |
| Generate.ForceTrailingPunct | table-enum-core/src/lib.rs:83-85 | the fix-up panics exactly on an empty list; otherwise the items are kept and the list ends in a comma; a list that already ends in one is left untouched (idempotent) |
| Generate.PushUnitVariants | table-enum-core/src/lib.rs:74-82 | the variant list holds one unit variant per member, same name, same order, no attributes or discriminant |
| Generate.BuildGetters | table-enum-core/src/lib.rs:86-107 | succeeds exactly when every member covers every field, returning getter `i` as `GetterOf(te, i)`, whose arms pair the `k`-th variant name with the `k`-th member's `i`-th value; otherwise it returns the panic at the first field some member lacks, at the first such member |
| Generate.TableEnumCore | table-enum-core/src/lib.rs:66-117 | `table_enum_core` returns the compile error when parsing fails, and otherwise exactly `Expand` of the parsed table |
| Generate.ExpandPanicsAtColumn | table-enum-core/src/lib.rs:91-95 | the first failed `values[i]` in the getter loop is the panic `Expand` predicts |
| Generate.ExpandGenerates | table-enum-core/src/lib.rs:108-116 | the enum and impl block the loops assemble are the ones `Expand` predicts |
| Generate.ExpandOutcome | table-enum-core/src/lib.rs:83-95 | a parsed table expands to code iff it has a member and every member covers every field; with no members it panics in `push_punct`; an index panic names a field some member lacks and the first such member |
| Generate.EnumMirrorsMembers | table-enum-core/src/lib.rs:71-85 | the enum carries the table's attributes, visibility and name, and ends in a comma; it has one unit variant per member, in member order, with no attributes or discriminant |
| Generate.GettersMirrorFields | table-enum-core/src/lib.rs:90-115 | the impl block has no attributes; it has one getter per field, in field order; getter `i` is a `const fn` with the enum's visibility and no attributes, named after field `i` and returning its declared type |
| Generate.ArmsLineUp | table-enum-core/src/lib.rs:95-99 | getter `i` has one arm per member, in member order, mapping `Name::member_k` to that member's `i`-th value |
| Generate.SelectFirstMatch | table-enum-core/src/lib.rs:96-99 | `match self` picks the first arm whose variant matches |
| Generate.CountSingleMatch | table-enum-core/src/lib.rs:96-99 | an arm whose variant no other arm names is matched exactly once |
| Generate.NoMatch | table-enum-core/src/lib.rs:96-99 | no arm matches a variant that no arm names |
| Generate.GetterReturnsTableValue | table-enum-core/src/lib.rs:95-99 | with distinct member names, each variant is matched by exactly one arm of every getter, and getter `i` on member `k` returns `members[k].values[i]` |
| Generate.TruncatedCovered | table-enum-core/src/lib.rs:95 | when every member covers every field, cutting values beyond the field count leaves the expansion unchanged |
| Generate.TruncatedShort | table-enum-core/src/lib.rs:95 | when some member is short, cutting values beyond the field count leaves the same panic |
| Generate.ExtraValuesIgnored | table-enum-core/src/lib.rs:95 | values beyond the field count never influence the expansion |
| Generate.FieldAttributesIgnored | table-enum-core/src/lib.rs:91-94 | field attributes (`#[option]`, `#[default]`, ...) never influence the expansion |
| TestTables.PlanetsExpands | table-enum-core/src/tests.rs:8-19 | the planets table expands to code |
| TestTables.PlanetsVariants | table-enum-core/src/tests.rs:22-31 | the eight planets become the eight expected unit variants |
| TestTables.PlanetsGetters | table-enum-core/src/tests.rs:32-56 | the `mass` and `radius` columns become the expected match arms |
| TestTables.PlanetsExpansion | table-enum-core/src/tests.rs:7-60 | the expansion of the planets table is exactly the output the `planets` test expects |
| TestTables.BinaryOpExpands | table-enum-core/src/tests.rs:64-72 | the `BinaryOp` table expands to code |
| TestTables.BinaryOpVariants | table-enum-core/src/tests.rs:75-81 | the five operators become the five expected unit variants |
| TestTables.BinaryOpGetters | table-enum-core/src/lib.rs:91-106 | the three columns of the `BinaryOp` table become `const` getters with the declared types and the values as written, `_` included |
| TestTables.BinaryOpExpansion | table-enum-core/src/lib.rs:91-106 | the `BinaryOp` table expands to `const` getters returning the declared types and the raw `_` values |
| TestTables.OptionTestDisagrees | table-enum-core/src/tests.rs:62-113 | that expansion is not the output the `option` test expects; the enum and the `text` getter agree, while the `precedence` getter and the `right_assoc` getter each differ from the expected ones |

## Left out

- Parsing of Rust expressions, types, attributes and named fields by syn
  (`Expr::parse`, `Field::parse_named`, `Attribute::parse_outer`'s own
  grammar): these are opaque leaf tokens. The stand-ins `Syn.ParseVisibility`,
  `Syn.ParseEnumToken`, `Syn.ParseComma`, `Syn.ParseIdent`,
  `Syn.Parenthesized`, `Syn.Braced`, `Syn.ParseField` and `Syn.ParseExpr` each
  read one such token or group, and say nothing about syn's own grammar. Error messages and spans are reduced
  to what a step expected (`SynError`).
- `quote!` / `parse_quote!` token generation, `to_compile_error` and the
  `to_string()` comparison in the tests. The output is the `Expansion`
  datatype, not text.
- Grammar.VisibilitySpec: only `pub` is modelled. syn's restricted forms
  (`pub(crate)`, `pub(self)`, `pub(super)`, `pub(in path)`) would be read by
  `Visibility::parse`. In the model, a `pub` followed by a parenthesised group
  fails at the `enum` keyword instead.
- `#[option]` and `#[default]` are not part of this model, because
  `table-enum-core/src/lib.rs` does not implement them (see above).
- Panics are an `Expansion` outcome (`Panicked`). The panic message and the
  unwinding into the compiler are not modelled.
- `t.ident.clone().unwrap()` (lib.rs:93) is not modelled. `Field::parse_named`
  always yields a named field, so `Field.ident` is not optional and the
  `unwrap` cannot fail.
- Generate.GetterReturnsTableValue assumes distinct member names. The macro
  does not check this; the compiler rejects the emitted enum when two members
  share a name.
- `variant_values` at lib.rs:95 is a lazy iterator consumed inside
  `parse_quote!`. The model evaluates the column before building the match.
  The only effect of that evaluation is the index panic, and it happens at the
  same field and member either way.
- table-enum-macro/src/lib.rs (the `proc_macro` adapter and
  `proc_macro_error` wrapper) and tests/integration_tests.rs (run-time float
  comparisons of generated code) are not part of this model.
