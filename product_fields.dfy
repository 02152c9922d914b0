/**
 * The single-product field schema the vendor's product editor receives
 * (`get_product_fields`): one tier section per B2B and per B2C role, keyed by
 * the role's `value`, and the keying of the per-product discount data sent
 * beside it (`add_wholesalex_pricing`).
 */
module ProductFields {
  import opened Wrappers
  import opened OrderedMaps
  import opened Php

  datatype Kind = B2B | B2C

  /** A role of `wholesalex()->get_roles(...)`: its `value` (None when unset or null) and its `name`. */
  datatype Role = Role(value: Option<string>, name: Option<string>)

  /** The number of tiers offered without the pro version: 3 for B2B roles, 2 for B2C roles. */
  function TierLimit(kind: Kind): int {
    if kind == B2B then 3 else 2
  }

  /** `sprintf($format, $arg)` for a format whose directives are %s and %%. */
  function Sprintf(format: string, arg: string): string {
    if |format| >= 2 && format[0] == '%' && format[1] == 's' then arg + Sprintf(format[2..], arg)
    else if |format| >= 2 && format[0] == '%' && format[1] == '%' then "%" + Sprintf(format[2..], arg)
    else if format == [] then []
    else [format[0]] + Sprintf(format[1..], arg)
  }

  /** `$v[k]` for a string key k as an rvalue: null when v is not an array or k is missing. */
  function Field(v: Value, k: string): Value {
    if v.Arr? then Read(v.entries, StrKey(k)) else Null
  }

  /** The options of the discount-type select: none, amount, percentage, fixed price. */
  function DiscountTypeOptions(tr: string -> string): seq<(string, Value)> {
    [("", Str(tr("Choose Discount Type..."))),
     ("amount", Str(tr("Discount Amount"))),
     ("percentage", Str(tr("Discount Percentage"))),
     ("fixed_price", Str(tr("Fixed Price")))]
  }

  /** A select field around its options and label (B2C lists the label before the default). */
  function SelectFields(kind: Kind, options: Value, caption: Value): seq<(string, Value)> {
    if kind == B2B then
      [("type", Str("select")), ("options", options), ("default", Str("")), ("label", caption)]
    else
      [("type", Str("select")), ("options", options), ("label", caption), ("default", Str(""))]
  }

  /** The discount-type select of a tier row. */
  function DiscountTypeField(kind: Kind, tr: string -> string): seq<(string, Value)> {
    SelectFields(kind, Arr(Lit(DiscountTypeOptions(tr))), Str(tr("Discount Type")))
  }

  /** The label of the amount column: `sprintf(__(' %s Price'), $role['name'])`. */
  function PriceLabel(name: Option<string>, tr: string -> string): Value {
    Str(Sprintf(tr(" %s Price"), name.GetOr("")))
  }

  /** The fields of a tier row around its three inputs. */
  function RowFieldsOf(discountType: Value, discountAmount: Value, minQuantity: Value): seq<(string, Value)> {
    [("_discount_type", discountType), ("_discount_amount", discountAmount), ("_min_quantity", minQuantity)]
  }

  /** The fields of one tier row: discount type, amount and minimum quantity. */
  function TierRowFields(name: Option<string>, kind: Kind, tr: string -> string): seq<(string, Value)> {
    var discountAmount :=
      if kind == B2B then
        [("type", Str("number")), ("placeholder", Str("")), ("default", Str("")), ("label", PriceLabel(name, tr))]
      else
        [("type", Str("number")), ("placeholder", Str("")), ("label", PriceLabel(name, tr)), ("default", Str(""))];
    var minQuantity :=
      [("type", Str("number")), ("placeholder", Str("")), ("default", Str("")), ("label", Str(tr("Min Quantity")))];
    RowFieldsOf(Arr(Lit(DiscountTypeField(kind, tr))), Arr(Lit(discountAmount)), Arr(Lit(minQuantity)))
  }

  /** The fields of `_tiers` around its columns, row data and buttons. */
  function TiersFieldsOf(columns: Value, data: Value, add: Value, upgradePro: Value): seq<(string, Value)> {
    [("columns", columns), ("data", data), ("add", add), ("upgrade_pro", upgradePro)]
  }

  /** The `_tiers` entry: the three columns, the row fields and the two buttons. */
  function TiersFields(name: Option<string>, kind: Kind, tr: string -> string): seq<(string, Value)> {
    TiersFieldsOf(
      Arr(List([Str(tr("Discount Type")), PriceLabel(name, tr), Str(tr("Min Quantity"))])),
      Arr(Lit(TierRowFields(name, kind, tr))),
      Arr(Lit([("type", Str("button")), ("label", Str(tr("Add Price Tier")))])),
      Arr(Lit([("type", Str("button")), ("label", Str(tr("Go For Unlimited Price Tiers")))])))
  }

  /** The fields of a tier block around its `_tiers`. */
  function TierBlockFieldsOf(tiers: Value): seq<(string, Value)> {
    [("type", Str("tier")), ("_tiers", tiers)]
  }

  /** The tier block of a role section, stored under `value . 'tier'`. */
  function TierBlockFields(name: Option<string>, kind: Kind, tr: string -> string): seq<(string, Value)> {
    TierBlockFieldsOf(Arr(Lit(TiersFields(name, kind, tr))))
  }

  lemma SelectOptions(kind: Kind, options: Value, caption: Value)
    ensures Field(Arr(Lit(SelectFields(kind, options, caption))), "options") == options
  {
    ReadLit(SelectFields(kind, options, caption), 1);
  }

  lemma RowDiscountType(discountType: Value, discountAmount: Value, minQuantity: Value)
    ensures Field(Arr(Lit(RowFieldsOf(discountType, discountAmount, minQuantity))), "_discount_type") == discountType
  {
    ReadLit(RowFieldsOf(discountType, discountAmount, minQuantity), 0);
  }

  lemma TiersData(columns: Value, data: Value, add: Value, upgradePro: Value)
    ensures Field(Arr(Lit(TiersFieldsOf(columns, data, add, upgradePro))), "data") == data
  {
    ReadLit(TiersFieldsOf(columns, data, add, upgradePro), 1);
  }

  lemma TierBlockTiers(tiers: Value)
    ensures Field(Arr(Lit(TierBlockFieldsOf(tiers))), "type") == Str("tier")
    ensures Field(Arr(Lit(TierBlockFieldsOf(tiers))), "_tiers") == tiers
  {
    ReadLit(TierBlockFieldsOf(tiers), 0);
    ReadLit(TierBlockFieldsOf(tiers), 1);
  }

  /** The `_prices` block B2B sections carry: base and sale price inputs. */
  function PricesBlock(tr: string -> string): Value {
    Arr(Lit([
      ("type", Str("prices")),
      ("attr", Arr(Lit([
        ("wholesalex_base_price", Arr(Lit([("type", Str("number")), ("label", Str(tr("Base Price"))), ("default", Str(""))]))),
        ("wholesalex_sale_price", Arr(Lit([("type", Str("number")), ("label", Str(tr("Sale Price"))), ("default", Str(""))])))])))]))
  }

  /** An `attr` holding `_prices` for B2B roles, then the tier block under its key. */
  function SectionAttrOf(kind: Kind, prices: Value, tierKey: Key, tier: Value): Array {
    if kind == B2B then [(StrKey("_prices"), prices), (tierKey, tier)] else [(tierKey, tier)]
  }

  /** The `attr` of a role section. */
  function SectionAttr(value: string, name: Option<string>, kind: Kind, tr: string -> string): Array {
    SectionAttrOf(kind, PricesBlock(tr), ArrayKey(value + "tier"), Arr(Lit(TierBlockFields(name, kind, tr))))
  }

  /** With a tier key other than `_prices`, the `attr` has `_prices` exactly for B2B and the tier block under its key. */
  lemma SectionAttrShape(kind: Kind, prices: Value, tierKey: Key, tier: Value)
    requires tierKey != StrKey("_prices")
    ensures (StrKey("_prices") in Keys(SectionAttrOf(kind, prices, tierKey, tier))) <==> kind == B2B
    ensures Read(SectionAttrOf(kind, prices, tierKey, tier), tierKey) == tier
  {
  }

  /** The fields of a role section around its heading and its `attr`. */
  function SectionFieldsOf(heading: Value, kind: Kind, attr: Array): seq<(string, Value)> {
    [("label", heading),
     ("type", Str("tiers")),
     ("is_pro", Bool(true)),
     ("pro_data", Arr(Lit([("type", Str("limit")), ("value", Int(TierLimit(kind)))]))),
     ("attr", Arr(attr))]
  }

  /** The schema section of one role whose `value` is set, labelled with its `name` (null when missing). */
  function TierSection(value: string, name: Option<string>, kind: Kind, tr: string -> string): Value {
    var heading := if name.Some? then Str(name.value) else Null;
    Arr(Lit(SectionFieldsOf(heading, kind, SectionAttr(value, name, kind, tr))))
  }

  /** Whatever its heading and `attr`, a section has type 'tiers', the tier cap of its kind, and that `attr`. */
  lemma SectionFieldsShape(heading: Value, kind: Kind, attr: Array)
    ensures Field(Arr(Lit(SectionFieldsOf(heading, kind, attr))), "type") == Str("tiers")
    ensures Field(Field(Arr(Lit(SectionFieldsOf(heading, kind, attr))), "pro_data"), "value") == Int(TierLimit(kind))
    ensures Field(Arr(Lit(SectionFieldsOf(heading, kind, attr))), "attr") == Arr(attr)
  {
    var f := SectionFieldsOf(heading, kind, attr);
    ReadLit(f, 1);
    ReadLit(f, 3);
    ReadLit(f, 4);
    ReadLit([("type", Str("limit")), ("value", Int(TierLimit(kind)))], 1);
  }

  /** A key ending in "tier" is never an integer string, so PHP keeps it as a string key. */
  lemma TierKeyIsString(value: string)
    ensures ArrayKey(value + "tier") == StrKey(value + "tier")
  {
    var s := value + "tier";
    assert s[|s| - 1] == 'r';
  }

  /** A role section has type 'tiers' and the tier cap of its kind. */
  lemma TierSectionLimit(value: string, name: Option<string>, kind: Kind, tr: string -> string)
    ensures Field(TierSection(value, name, kind, tr), "type") == Str("tiers")
    ensures Field(Field(TierSection(value, name, kind, tr), "pro_data"), "value") == Int(TierLimit(kind))
  {
    var heading := if name.Some? then Str(name.value) else Null;
    SectionFieldsShape(heading, kind, SectionAttr(value, name, kind, tr));
  }

  /** The `attr` of a role section has a `_prices` block exactly when the role is a B2B role. */
  lemma TierSectionPrices(value: string, name: Option<string>, kind: Kind, tr: string -> string)
    ensures Field(TierSection(value, name, kind, tr), "attr") == Arr(SectionAttr(value, name, kind, tr))
    ensures (StrKey("_prices") in Keys(SectionAttr(value, name, kind, tr))) <==> kind == B2B
  {
    var heading := if name.Some? then Str(name.value) else Null;
    SectionFieldsShape(heading, kind, SectionAttr(value, name, kind, tr));
    TierKeyNotPrices(value);
    SectionAttrShape(kind, PricesBlock(tr), ArrayKey(value + "tier"), Arr(Lit(TierBlockFields(name, kind, tr))));
  }

  /** The tier key never collides with `_prices`. */
  lemma TierKeyNotPrices(value: string)
    ensures ArrayKey(value + "tier") != StrKey("_prices")
  {
    TierKeyIsString(value);
    var s := value + "tier";
    assert s[|s| - 1] == 'r';
  }

  /** The tier block of a role section sits under `value . 'tier'`. */
  lemma TierSectionTierKey(value: string, name: Option<string>, kind: Kind, tr: string -> string)
    ensures Read(SectionAttr(value, name, kind, tr), StrKey(value + "tier")) == Arr(Lit(TierBlockFields(name, kind, tr)))
  {
    TierKeyIsString(value);
    TierKeyNotPrices(value);
    SectionAttrShape(kind, PricesBlock(tr), ArrayKey(value + "tier"), Arr(Lit(TierBlockFields(name, kind, tr))));
  }

  /** The discount-type select of a tier block is the select built from the four discount types. */
  lemma TierBlockDiscountTypes(name: Option<string>, kind: Kind, tr: string -> string)
    ensures Field(Field(Field(Field(Arr(Lit(TierBlockFields(name, kind, tr))), "_tiers"), "data"), "_discount_type"), "options")
      == Arr(Lit(DiscountTypeOptions(tr)))
  {
    var tiers := TiersFields(name, kind, tr);
    var row := TierRowFields(name, kind, tr);
    var options := Arr(Lit(DiscountTypeOptions(tr)));
    TierBlockTiers(Arr(Lit(tiers)));
    TiersData(tiers[0].1, Arr(Lit(row)), tiers[2].1, tiers[3].1);
    RowDiscountType(Arr(Lit(DiscountTypeField(kind, tr))), row[1].1, row[2].1);
    SelectOptions(kind, options, Str(tr("Discount Type")));
  }

  /** A tier row chooses among exactly four discount types: none, amount, percentage and fixed price. */
  lemma DiscountTypeKeys(tr: string -> string)
    ensures Keys(Lit(DiscountTypeOptions(tr))) == [StrKey(""), StrKey("amount"), StrKey("percentage"), StrKey("fixed_price")]
  {
    LitKeys(DiscountTypeOptions(tr));
  }

  /** Builds the section of a role from its `value` and its `name`. */
  function TierSectionBuilder(kind: Kind, tr: string -> string): (string, Option<string>) -> Value {
    (value, name) => TierSection(value, name, kind, tr)
  }

  /** The role array after the first roles: a role with a set `value` writes build(value, name) under that value. */
  function SectionsWith(roles: seq<Role>, build: (string, Option<string>) -> Value): Array {
    if roles == [] then []
    else
      var prev := SectionsWith(roles[..|roles| - 1], build);
      var role := roles[|roles| - 1];
      if role.value.Some? then Set(prev, ArrayKey(role.value.value), build(role.value.value, role.name)) else prev
  }

  /** One more pass of the foreach writes the next role's section, when the role has a value. */
  lemma SectionsStep(roles: seq<Role>, build: (string, Option<string>) -> Value, i: int)
    requires 0 <= i < |roles|
    ensures SectionsWith(roles[..i + 1], build) ==
      var prev := SectionsWith(roles[..i], build);
      if roles[i].value.Some? then Set(prev, ArrayKey(roles[i].value.value), build(roles[i].value.value, roles[i].name)) else prev
  {
    assert roles[..i + 1][..i] == roles[..i];
  }

  /** `$__b2b_roles` / `$__b2c_roles`. */
  function SectionsOf(roles: seq<Role>, kind: Kind, tr: string -> string): Array {
    SectionsWith(roles, TierSectionBuilder(kind, tr))
  }

  /** The foreach of `get_product_fields` over one list of roles. */
  method BuildRoleSections(roles: seq<Role>, kind: Kind, tr: string -> string) returns (sections: Array)
    ensures sections == SectionsOf(roles, kind, tr)
  {
    var build := TierSectionBuilder(kind, tr);
    sections := [];
    var i := 0;
    while i < |roles|
      invariant 0 <= i <= |roles|
      invariant sections == SectionsWith(roles[..i], build)
    {
      var role := roles[i];
      SectionsStep(roles, build, i);
      if role.value.Some? {
        sections := Set(sections, ArrayKey(role.value.value), build(role.value.value, role.name));
      }
      i := i + 1;
    }
    assert roles[..|roles|] == roles;
  }

  /** The role writes its section under key k. */
  predicate WritesKey(role: Role, k: Key) {
    role.value.Some? && ArrayKey(role.value.value) == k
  }

  /** A section is keyed by a role exactly when some role carries that value: roles without a value are skipped. */
  lemma {:induction false} SectionsKeys(roles: seq<Role>, build: (string, Option<string>) -> Value, k: Key)
    ensures k in Keys(SectionsWith(roles, build)) <==> exists i :: 0 <= i < |roles| && WritesKey(roles[i], k)
  {
    if roles != [] {
      var init := roles[..|roles| - 1];
      var last := roles[|roles| - 1];
      var prev := SectionsWith(init, build);
      var r := SectionsWith(roles, build);
      SectionsKeys(init, build, k);
      if last.value.Some? {
        SetKeys(prev, ArrayKey(last.value.value), build(last.value.value, last.name));
      }
      assert k in Keys(r) <==> k in Keys(prev) || WritesKey(last, k);
      if k in Keys(prev) {
        var i :| 0 <= i < |init| && WritesKey(init[i], k);
        assert roles[i] == init[i];
      }
      if WritesKey(last, k) {
        assert WritesKey(roles[|roles| - 1], k);
      }
      if exists i :: 0 <= i < |roles| && WritesKey(roles[i], k) {
        var i :| 0 <= i < |roles| && WritesKey(roles[i], k);
        if i < |init| {
          assert init[i] == roles[i];
        }
      }
    }
  }

  /** No two sections share a key. */
  lemma {:induction false} SectionsDistinct(roles: seq<Role>, build: (string, Option<string>) -> Value)
    ensures DistinctKeys(SectionsWith(roles, build))
  {
    if roles != [] {
      var init := roles[..|roles| - 1];
      SectionsDistinct(init, build);
      var role := roles[|roles| - 1];
      if role.value.Some? {
        SetKeepsDistinct(SectionsWith(init, build), ArrayKey(role.value.value), build(role.value.value, role.name));
      }
    }
  }

  /** Roles sharing a value: the section is built from the last of them. */
  lemma {:induction false} SectionsLastRoleWins(roles: seq<Role>, build: (string, Option<string>) -> Value, i: int)
    requires 0 <= i < |roles| && roles[i].value.Some?
    requires forall j :: i < j < |roles| ==> roles[j].value != roles[i].value
    ensures Get(SectionsWith(roles, build), ArrayKey(roles[i].value.value)) == Some(build(roles[i].value.value, roles[i].name))
  {
    var init := roles[..|roles| - 1];
    var last := roles[|roles| - 1];
    if last.value.Some? {
      SetGet(SectionsWith(init, build), ArrayKey(last.value.value), build(last.value.value, last.name));
    }
    if i < |roles| - 1 {
      assert init[i] == roles[i];
      SectionsLastRoleWins(init, build, i);
      if last.value.Some? {
        ArrayKeyInjective(last.value.value, roles[i].value.value);
      }
    }
  }

  /** Every section is built from a role whose value keys it. */
  lemma {:induction false} SectionsAreBuilt(roles: seq<Role>, build: (string, Option<string>) -> Value, e: (Key, Value))
    requires e in SectionsWith(roles, build)
    ensures exists i :: 0 <= i < |roles| && WritesKey(roles[i], e.0) && e.1 == build(roles[i].value.value, roles[i].name)
  {
    var init := roles[..|roles| - 1];
    var last := roles[|roles| - 1];
    var prev := SectionsWith(init, build);
    if last.value.Some? && e.0 == ArrayKey(last.value.value) {
      SectionsDistinct(init, build);
      SetKeepsDistinct(prev, e.0, build(last.value.value, last.name));
      SetGet(prev, e.0, build(last.value.value, last.name));
      var r := SectionsWith(roles, build);
      var n :| 0 <= n < |r| && r[n] == e;
      GetAt(r, n);
      assert WritesKey(roles[|roles| - 1], e.0);
    } else {
      assert e in prev by {
        if last.value.Some? {
          SetOtherEntry(prev, ArrayKey(last.value.value), build(last.value.value, last.name), e);
        }
      }
      SectionsAreBuilt(init, build, e);
      var i :| 0 <= i < |init| && WritesKey(init[i], e.0) && e.1 == build(init[i].value.value, init[i].name);
      assert roles[i] == init[i];
    }
  }

  /** Each role section carries `_prices` exactly when its list is the B2B list. */
  lemma SectionsPrices(roles: seq<Role>, kind: Kind, tr: string -> string, e: (Key, Value))
    requires e in SectionsOf(roles, kind, tr)
    ensures Field(e.1, "attr").Arr?
    ensures (StrKey("_prices") in Keys(Field(e.1, "attr").entries)) <==> kind == B2B
  {
    SectionsAreBuilt(roles, TierSectionBuilder(kind, tr), e);
    var i :| 0 <= i < |roles| && WritesKey(roles[i], e.0) && e.1 == TierSectionBuilder(kind, tr)(roles[i].value.value, roles[i].name);
    TierSectionPrices(roles[i].value.value, roles[i].name, kind, tr);
  }

  /**
   * Each role section has type 'tiers', the tier cap of its list's kind (3 for B2B, 2 for B2C), and its tier
   * block under the `value . 'tier'` key of a role that writes it.
   */
  lemma SectionsTiers(roles: seq<Role>, kind: Kind, tr: string -> string, e: (Key, Value))
    requires e in SectionsOf(roles, kind, tr)
    ensures Field(e.1, "type") == Str("tiers")
    ensures Field(Field(e.1, "pro_data"), "value") == Int(TierLimit(kind))
    ensures Field(e.1, "attr").Arr?
    ensures exists i :: (0 <= i < |roles| && WritesKey(roles[i], e.0)
                         && Read(Field(e.1, "attr").entries, StrKey(roles[i].value.value + "tier")) == Arr(Lit(TierBlockFields(roles[i].name, kind, tr))))
  {
    SectionsAreBuilt(roles, TierSectionBuilder(kind, tr), e);
    var i :| 0 <= i < |roles| && WritesKey(roles[i], e.0) && e.1 == TierSectionBuilder(kind, tr)(roles[i].value.value, roles[i].name);
    var value, name := roles[i].value.value, roles[i].name;
    TierSectionLimit(value, name, kind, tr);
    TierSectionPrices(value, name, kind, tr);
    TierSectionTierKey(value, name, kind, tr);
  }

  /** The array `get_product_fields` returns (the three filters it passes through are the identity). */
  function ProductFieldsOf(b2b: Array, b2c: Array, tr: string -> string): Value {
    Arr(Lit([
      ("_b2c_section", Arr(Lit([("label", Str("")), ("attr", Arr(b2c))]))),
      ("_b2b_section", Arr(Lit([("label", Str(tr("WholesaleX B2B Special"))), ("attr", Arr(b2b))])))]))
  }

  method GetProductFields(b2bRoles: seq<Role>, b2cRoles: seq<Role>, tr: string -> string) returns (fields: Value)
    ensures fields == ProductFieldsOf(SectionsOf(b2bRoles, B2B, tr), SectionsOf(b2cRoles, B2C, tr), tr)
  {
    var b2b := BuildRoleSections(b2bRoles, B2B, tr);
    var b2c := BuildRoleSections(b2cRoles, B2C, tr);
    fields := ProductFieldsOf(b2b, b2c, tr);
  }

  /** The B2B section holds the B2B role sections, each with `_prices`; the B2C section holds the B2C ones, none with `_prices`. */
  lemma ProductFieldsSections(b2bRoles: seq<Role>, b2cRoles: seq<Role>, tr: string -> string)
    ensures Field(Field(ProductFieldsOf(SectionsOf(b2bRoles, B2B, tr), SectionsOf(b2cRoles, B2C, tr), tr), "_b2b_section"), "attr")
      == Arr(SectionsOf(b2bRoles, B2B, tr))
    ensures Field(Field(ProductFieldsOf(SectionsOf(b2bRoles, B2B, tr), SectionsOf(b2cRoles, B2C, tr), tr), "_b2c_section"), "attr")
      == Arr(SectionsOf(b2cRoles, B2C, tr))
    ensures forall e :: e in SectionsOf(b2bRoles, B2B, tr) ==> Field(e.1, "attr").Arr? && StrKey("_prices") in Keys(Field(e.1, "attr").entries)
    ensures forall e :: e in SectionsOf(b2cRoles, B2C, tr) ==> Field(e.1, "attr").Arr? && StrKey("_prices") !in Keys(Field(e.1, "attr").entries)
  {
    var b2b := SectionsOf(b2bRoles, B2B, tr);
    var b2c := SectionsOf(b2cRoles, B2C, tr);
    var top := [("_b2c_section", Arr(Lit([("label", Str("")), ("attr", Arr(b2c))]))),
      ("_b2b_section", Arr(Lit([("label", Str(tr("WholesaleX B2B Special"))), ("attr", Arr(b2b))])))];
    ReadLit(top, 0);
    ReadLit(top, 1);
    ReadLit([("label", Str("")), ("attr", Arr(b2c))], 1);
    ReadLit([("label", Str(tr("WholesaleX B2B Special"))), ("attr", Arr(b2b))], 1);
    forall e | e in b2b
      ensures Field(e.1, "attr").Arr? && StrKey("_prices") in Keys(Field(e.1, "attr").entries)
    {
      SectionsPrices(b2bRoles, B2B, tr, e);
    }
    forall e | e in b2c
      ensures Field(e.1, "attr").Arr? && StrKey("_prices") !in Keys(Field(e.1, "attr").entries)
    {
      SectionsPrices(b2cRoles, B2C, tr, e);
    }
  }

  /** What `wc_get_product` reports about a product: its type and its children (variations). */
  datatype Product = Product(productType: string, children: seq<int>)

  predicate IsVariable(product: Option<Product>) {
    product.Some? && product.value.productType == "variable"
  }

  /** `$discounts` after the foreach over the children: each child's discount under the child's id. */
  function ChildDiscounts(children: seq<int>, discountOf: int -> Value): Array {
    if children == [] then []
    else
      var c := children[|children| - 1];
      Set(ChildDiscounts(children[..|children| - 1], discountOf), IntKey(c), discountOf(c))
  }

  /** `$discounts` as `add_wholesalex_pricing` builds it for a product id that is not 0. */
  function DiscountsOf(postId: int, product: Option<Product>, discountOf: int -> Value): Array {
    if product.None? then []
    else if IsVariable(product) then
      if product.value.children != [] then ChildDiscounts(product.value.children, discountOf) else []
    else [(IntKey(postId), discountOf(postId))]
  }

  /** The discounts of a variable product are keyed by exactly its children, each with its own discount. */
  lemma {:induction false} ChildDiscountsByChild(children: seq<int>, discountOf: int -> Value, c: int)
    ensures IntKey(c) in Keys(ChildDiscounts(children, discountOf)) <==> c in children
    ensures c in children ==> Get(ChildDiscounts(children, discountOf), IntKey(c)) == Some(discountOf(c))
  {
    if children != [] {
      var init := children[..|children| - 1];
      var last := children[|children| - 1];
      ChildDiscountsByChild(init, discountOf, c);
      SetKeys(ChildDiscounts(init, discountOf), IntKey(last), discountOf(last));
      SetGet(ChildDiscounts(init, discountOf), IntKey(last), discountOf(last));
      assert children == init + [last];
      assert c in children <==> c in init || c == last;
    }
  }

  /** No child id appears twice among the discounts. */
  lemma {:induction false} ChildDiscountsDistinct(children: seq<int>, discountOf: int -> Value)
    ensures DistinctKeys(ChildDiscounts(children, discountOf))
  {
    if children != [] {
      var init := children[..|children| - 1];
      ChildDiscountsDistinct(init, discountOf);
      SetKeepsDistinct(ChildDiscounts(init, discountOf), IntKey(children[|children| - 1]), discountOf(children[|children| - 1]));
    }
  }

  /** The foreach over the children. */
  method BuildChildDiscounts(children: seq<int>, discountOf: int -> Value) returns (discounts: Array)
    ensures discounts == ChildDiscounts(children, discountOf)
  {
    discounts := [];
    var i := 0;
    while i < |children|
      invariant 0 <= i <= |children|
      invariant discounts == ChildDiscounts(children[..i], discountOf)
    {
      assert children[..i + 1][..i] == children[..i];
      discounts := Set(discounts, IntKey(children[i]), discountOf(children[i]));
      i := i + 1;
    }
    assert children[..|children|] == children;
  }

  /** The data the pricing hooks hand to the product editor script, and whether they render their settings box. */
  datatype PricingPage = PricingPage(fields: Value, discounts: Array, isWcfmDashboard: bool, settingsBox: bool)

  method ProductDiscounts(postId: int, product: Option<Product>, discountOf: int -> Value) returns (discounts: Array)
    ensures discounts == DiscountsOf(postId, product, discountOf)
  {
    discounts := [];
    if product.Some? {
      if IsVariable(product) {
        if product.value.children != [] {
          discounts := BuildChildDiscounts(product.value.children, discountOf);
        }
      } else {
        discounts := Set(discounts, IntKey(postId), discountOf(postId));
      }
    }
  }

  /**
   * `add_wholesalex_pricing` (variablePage false) and `add_variable_wholesalex_pricing`
   * (variablePage true): nothing for product id 0; otherwise the schema, the discounts and
   * the settings box of the page's own product type.
   */
  method AddWholesalexPricing(postId: int, product: Option<Product>, discountOf: int -> Value,
                              b2bRoles: seq<Role>, b2cRoles: seq<Role>, tr: string -> string, variablePage: bool)
    returns (page: Option<PricingPage>)
    ensures postId == 0 ==> page.None?
    ensures postId != 0 ==> page == Some(PricingPage(
      ProductFieldsOf(SectionsOf(b2bRoles, B2B, tr), SectionsOf(b2cRoles, B2C, tr), tr),
      DiscountsOf(postId, product, discountOf), true, IsVariable(product) == variablePage))
  {
    if postId == 0 {
      return None;
    }
    var discounts := ProductDiscounts(postId, product, discountOf);
    var fields := GetProductFields(b2bRoles, b2cRoles, tr);
    page := Some(PricingPage(fields, discounts, true, IsVariable(product) == variablePage));
  }

  /** A simple product's discounts sit under its own id; an unknown product has none. */
  lemma DiscountsKeying(postId: int, product: Option<Product>, discountOf: int -> Value)
    ensures product.None? ==> DiscountsOf(postId, product, discountOf) == []
    ensures product.Some? && !IsVariable(product) ==> Keys(DiscountsOf(postId, product, discountOf)) == [IntKey(postId)]
    ensures IsVariable(product) ==> forall c :: (IntKey(c) in Keys(DiscountsOf(postId, product, discountOf)) <==> c in product.value.children)
  {
    if IsVariable(product) {
      forall c ensures IntKey(c) in Keys(DiscountsOf(postId, product, discountOf)) <==> c in product.value.children {
        ChildDiscountsByChild(product.value.children, discountOf, c);
      }
    }
  }
}
