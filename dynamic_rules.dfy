/**
 * Tenant scoping of WholesaleX dynamic rules inside the WCFM vendor dashboard:
 * the three filters that take operator-only options away from sellers, the
 * filter that shows a seller only dashboard-created rules, and the provenance
 * tag written when a rule is saved from the dashboard.
 */
module DynamicRules {
  import opened Wrappers
  import opened OrderedMaps
  import opened Php
  import opened WcfmRequest

  const DynamicRulesEndpoint := "wholesalex-dynamic-rules"

  /** The current WCFM endpoint is the dynamic-rules page and the current user is a seller. */
  predicate InVendorRuleEditor(req: Request) {
    req.endpoint == DynamicRulesEndpoint && req.isSeller
  }

  const RuleTypeDenylist: set<Key> := {
    StrKey("cart_discount"), StrKey("payment_discount"), StrKey("payment_order_qty"),
    StrKey("extra_charge"), StrKey("pro_extra_charge"),
    StrKey("pro_restrict_product_visibility"), StrKey("restrict_product_visibility")
  }

  const ProductFilterDenylist: set<Key> := {
    StrKey("all_products"), StrKey("cat_in_list"), StrKey("cat_not_in_list")
  }

  const ConditionDenylist: set<Key> := {
    StrKey("cart_total_qty"), StrKey("cart_total_value"), StrKey("cart_total_weight")
  }

  // ---- The option filters ----

  /** m after `if (isset($m[k])) unset($m[k]);` for every k in deny: a key holding null stays. */
  function WithoutSetKeys(m: Array, deny: set<Key>): Array {
    if m == [] then []
    else if m[0].0 in deny && m[0].1 != Null then WithoutSetKeys(m[1..], deny)
    else [m[0]] + WithoutSetKeys(m[1..], deny)
  }

  /** What an option filter returns: the input minus its denylist for a seller on the rules page, the input otherwise. */
  function ScopedOptions(m: Array, req: Request, deny: set<Key>): Array {
    if InVendorRuleEditor(req) then WithoutSetKeys(m, deny) else m
  }

  lemma {:induction false} HeadKeyNotInTail(m: Array)
    requires DistinctKeys(m) && m != []
    ensures m[0].0 !in Keys(m[1..])
    ensures DistinctKeys(m[1..])
  {
    InKeys(m[1..], m[0].0);
    forall i | 0 <= i < |m| - 1
      ensures m[1..][i].0 != m[0].0
    {
      assert m[1..][i] == m[i + 1];
    }
  }

  /** Exactly the denied keys that are set disappear; every other key keeps its value. */
  lemma {:induction false} WithoutSetKeysGet(m: Array, deny: set<Key>, k: Key)
    requires DistinctKeys(m)
    ensures Get(WithoutSetKeys(m, deny), k) == if k in deny && IsSet(m, k) then None else Get(m, k)
  {
    if m != [] {
      HeadKeyNotInTail(m);
      WithoutSetKeysGet(m[1..], deny, k);
      var rest := WithoutSetKeys(m[1..], deny);
      if !(m[0].0 in deny && m[0].1 != Null) {
        assert ([m[0]] + rest)[1..] == rest;
      }
    }
  }

  /** The filter only removes entries: what is left is in the input's order. */
  lemma {:induction false} WithoutSetKeysIsSubsequence(m: Array, deny: set<Key>)
    ensures IsSubsequence(WithoutSetKeys(m, deny), m)
  {
    if m != [] {
      WithoutSetKeysIsSubsequence(m[1..], deny);
      var rest := WithoutSetKeys(m[1..], deny);
      if m[0].0 in deny && m[0].1 != Null {
        SubsequenceOfTail(rest, m);
      } else {
        assert ([m[0]] + rest)[1..] == rest;
      }
    }
  }

  lemma SubsequenceOfTail<T>(r: seq<T>, s: seq<T>)
    requires s != [] && IsSubsequence(r, s[1..])
    ensures IsSubsequence(r, s)
  {
    if r != [] && r[0] == s[0] {
      SubsequenceDropHead(r, s[1..]);
    }
  }

  lemma {:induction false} SubsequenceDropHead<T>(r: seq<T>, t: seq<T>)
    requires r != [] && IsSubsequence(r, t)
    ensures IsSubsequence(r[1..], t)
    decreases |t|
  {
    if r[0] != t[0] {
      SubsequenceDropHead(r, t[1..]);
    }
    // now IsSubsequence(r[1..], t[1..]) holds
    if |r| > 1 && r[1] == t[0] {
      SubsequenceDropHead(r[1..], t[1..]);
      assert r[1..][1..] == r[2..];
    }
  }

  lemma {:induction false} WithoutSetKeysCompose(m: Array, a: set<Key>, b: set<Key>)
    ensures WithoutSetKeys(WithoutSetKeys(m, a), b) == WithoutSetKeys(m, a + b)
  {
    if m != [] {
      WithoutSetKeysCompose(m[1..], a, b);
      var rest := WithoutSetKeys(m[1..], a);
      if !(m[0].0 in a && m[0].1 != Null) {
        assert ([m[0]] + rest)[0] == m[0];
        assert ([m[0]] + rest)[1..] == rest;
      }
    }
  }

  lemma {:induction false} WithoutSetKeysDistinct(m: Array, deny: set<Key>)
    requires DistinctKeys(m)
    ensures DistinctKeys(WithoutSetKeys(m, deny))
  {
    if m != [] {
      HeadKeyNotInTail(m);
      WithoutSetKeysDistinct(m[1..], deny);
      var rest := WithoutSetKeys(m[1..], deny);
      if !(m[0].0 in deny && m[0].1 != Null) {
        WithoutSetKeysGet(m[1..], deny, m[0].0);
        assert m[0].0 !in Keys(rest);
        InKeys(rest, m[0].0);
        var r := [m[0]] + rest;
        forall i, j | 0 <= i < j < |r| ensures r[i].0 != r[j].0 {
          if i > 0 {
            assert r[i] == rest[i - 1] && r[j] == rest[j - 1];
          } else {
            assert r[j] == rest[j - 1];
          }
        }
      }
    }
  }

  /** For a seller on the rules page the result is the input minus the set denied keys; elsewhere the input. */
  lemma ScopedOptionsExact(m: Array, req: Request, deny: set<Key>, k: Key)
    requires DistinctKeys(m)
    ensures Get(ScopedOptions(m, req, deny), k) ==
      if InVendorRuleEditor(req) && k in deny && IsSet(m, k) then None else Get(m, k)
  {
    WithoutSetKeysGet(m, deny, k);
  }

  /** An option filter never adds a key or changes a value, and keeps the input's order. */
  lemma ScopedOptionsSubMap(m: Array, req: Request, deny: set<Key>)
    requires DistinctKeys(m)
    ensures IsSubsequence(ScopedOptions(m, req, deny), m)
    ensures forall k :: k in Keys(ScopedOptions(m, req, deny)) ==>
      k in Keys(m) && Get(ScopedOptions(m, req, deny), k) == Get(m, k)
  {
    WithoutSetKeysIsSubsequence(m, deny);
    if !InVendorRuleEditor(req) {
      SubsequenceReflexive(m);
    }
    forall k | k in Keys(ScopedOptions(m, req, deny))
      ensures k in Keys(m) && Get(ScopedOptions(m, req, deny), k) == Get(m, k)
    {
      ScopedOptionsExact(m, req, deny, k);
    }
  }

  lemma {:induction false} SubsequenceReflexive<T>(s: seq<T>)
    ensures IsSubsequence(s, s)
  {
    if s != [] {
      SubsequenceReflexive(s[1..]);
    }
  }

  /** Filtering twice is filtering once. */
  lemma ScopedOptionsIdempotent(m: Array, req: Request, deny: set<Key>)
    ensures ScopedOptions(ScopedOptions(m, req, deny), req, deny) == ScopedOptions(m, req, deny)
  {
    WithoutSetKeysCompose(m, deny, deny);
    assert deny + deny == deny;
  }

  /** `if (isset($m[k])) unset($m[k]);`, one of the statements of the option filters. */
  method UnsetIfSet(m: Array, k: Key, ghost original: Array, ghost removed: set<Key>)
    returns (r: Array, ghost nowRemoved: set<Key>)
    requires DistinctKeys(original) && m == WithoutSetKeys(original, removed)
    ensures r == WithoutSetKeys(original, removed + {k})
    ensures nowRemoved == removed + {k}
  {
    WithoutSetKeysCompose(original, removed, {k});
    WithoutSetKeysDistinct(original, removed);
    r := m;
    if IsSet(m, k) {
      r := Unset(m, k);
    }
    UnsetIsWithout(m, k);
    nowRemoved := removed + {k};
  }

  lemma {:induction false} UnsetIsWithout(m: Array, k: Key)
    requires DistinctKeys(m)
    ensures (if IsSet(m, k) then Unset(m, k) else m) == WithoutSetKeys(m, {k})
  {
    if m != [] {
      HeadKeyNotInTail(m);
      UnsetIsWithout(m[1..], k);
      if m[0].0 == k {
        UnsetMissing(m[1..], k);
        WithoutSetKeysMissing(m[1..], {k});
      }
    }
  }

  lemma {:induction false} UnsetMissing(m: Array, k: Key)
    requires k !in Keys(m)
    ensures Unset(m, k) == m
  {
    if m != [] {
      UnsetMissing(m[1..], k);
    }
  }

  lemma {:induction false} WithoutSetKeysMissing(m: Array, deny: set<Key>)
    requires forall k :: k in deny ==> k !in Keys(m)
    ensures WithoutSetKeys(m, deny) == m
  {
    if m != [] {
      WithoutSetKeysMissing(m[1..], deny);
    }
  }

  /** `dynamic_rule_types_for_vendors`: sellers on the rules page lose the cart, payment, extra-charge and visibility rule types. */
  method DynamicRuleTypesForVendors(ruleTypes: Array, req: Request) returns (r: Array)
    requires DistinctKeys(ruleTypes)
    ensures r == ScopedOptions(ruleTypes, req, RuleTypeDenylist)
  {
    r := ruleTypes;
    if InVendorRuleEditor(req) {
      ghost var gone: set<Key> := {};
      WithoutSetKeysMissing(ruleTypes, {});
      r, gone := UnsetIfSet(r, StrKey("cart_discount"), ruleTypes, gone);
      r, gone := UnsetIfSet(r, StrKey("payment_discount"), ruleTypes, gone);
      r, gone := UnsetIfSet(r, StrKey("payment_order_qty"), ruleTypes, gone);
      r, gone := UnsetIfSet(r, StrKey("extra_charge"), ruleTypes, gone);
      r, gone := UnsetIfSet(r, StrKey("pro_extra_charge"), ruleTypes, gone);
      r, gone := UnsetIfSet(r, StrKey("pro_restrict_product_visibility"), ruleTypes, gone);
      r, gone := UnsetIfSet(r, StrKey("restrict_product_visibility"), ruleTypes, gone);
      assert gone == RuleTypeDenylist;
    }
  }

  /** `dynamic_rules_product_filter_vendors`: sellers on the rules page cannot target all products or whole categories. */
  method DynamicRulesProductFilterVendors(options: Array, req: Request) returns (r: Array)
    requires DistinctKeys(options)
    ensures r == ScopedOptions(options, req, ProductFilterDenylist)
  {
    r := options;
    if InVendorRuleEditor(req) {
      ghost var gone: set<Key> := {};
      WithoutSetKeysMissing(options, {});
      r, gone := UnsetIfSet(r, StrKey("all_products"), options, gone);
      r, gone := UnsetIfSet(r, StrKey("cat_in_list"), options, gone);
      r, gone := UnsetIfSet(r, StrKey("cat_not_in_list"), options, gone);
      assert gone == ProductFilterDenylist;
    }
  }

  /** `dynamic_rules_conditions_vendors`: sellers on the rules page lose the cart-total conditions. */
  method DynamicRulesConditionsVendors(options: Array, req: Request) returns (r: Array)
    requires DistinctKeys(options)
    ensures r == ScopedOptions(options, req, ConditionDenylist)
  {
    r := options;
    if InVendorRuleEditor(req) {
      ghost var gone: set<Key> := {};
      WithoutSetKeysMissing(options, {});
      r, gone := UnsetIfSet(r, StrKey("cart_total_qty"), options, gone);
      r, gone := UnsetIfSet(r, StrKey("cart_total_value"), options, gone);
      r, gone := UnsetIfSet(r, StrKey("cart_total_weight"), options, gone);
      assert gone == ConditionDenylist;
    }
  }

  // ---- The rule collection and the provenance tag ----

  const CreatedFrom := StrKey("created_from")
  const VendorDashboard := "vendor_dashboard"

  /** `isset($rule['created_from']) && 'vendor_dashboard' === $rule['created_from']` */
  predicate IsVendorCreated(rule: Value) {
    rule.Arr? && Read(rule.entries, CreatedFrom) == Str(VendorDashboard)
  }

  function Values(m: Array): (vs: seq<Value>)
    ensures |vs| == |m|
  {
    seq(|m|, i requires 0 <= i < |m| => m[i].1)
  }

  /** The dashboard-created rules among rules, in their order. */
  function VendorCreated(rules: seq<Value>): seq<Value> {
    if rules == [] then []
    else (if IsVendorCreated(rules[0]) then [rules[0]] else []) + VendorCreated(rules[1..])
  }

  lemma {:induction false} VendorCreatedAppend(rules: seq<Value>, rule: Value)
    ensures VendorCreated(rules + [rule]) == VendorCreated(rules) + (if IsVendorCreated(rule) then [rule] else [])
  {
    if rules != [] {
      assert (rules + [rule])[1..] == rules[1..] + [rule];
      VendorCreatedAppend(rules[1..], rule);
    } else {
      assert [rule][1..] == [];
    }
  }

  /** A rule is kept exactly when it was created from the vendor dashboard. */
  lemma {:induction false} VendorCreatedMembers(rules: seq<Value>, v: Value)
    ensures v in VendorCreated(rules) <==> v in rules && IsVendorCreated(v)
  {
    if rules != [] {
      VendorCreatedMembers(rules[1..], v);
      assert rules == [rules[0]] + rules[1..];
    }
  }

  /** The kept rules stay in their order. */
  lemma {:induction false} VendorCreatedIsSubsequence(rules: seq<Value>)
    ensures IsSubsequence(VendorCreated(rules), rules)
  {
    if rules != [] {
      VendorCreatedIsSubsequence(rules[1..]);
      var rest := VendorCreated(rules[1..]);
      if IsVendorCreated(rules[0]) {
        assert ([rules[0]] + rest)[1..] == rest;
      } else {
        assert [] + rest == rest;
        SubsequenceOfTail(rest, rules);
      }
    }
  }

  /**
   * `get_vendors_dynamic_rules`: a seller on the rules page gets, as a fresh list,
   * only the dashboard-created rules; everyone else gets the collection untouched.
   */
  method GetVendorsDynamicRules(rules: Array, req: Request) returns (r: Array)
    ensures InVendorRuleEditor(req) ==> r == List(VendorCreated(Values(rules)))
    ensures !InVendorRuleEditor(req) ==> r == rules
  {
    if InVendorRuleEditor(req) {
      var vendorRules: Array := [];
      var i := 0;
      while i < |rules|
        invariant 0 <= i <= |rules|
        invariant vendorRules == List(VendorCreated(Values(rules)[..i]))
      {
        var rule := rules[i].1;
        assert Values(rules)[..i + 1] == Values(rules)[..i] + [rule];
        VendorCreatedAppend(Values(rules)[..i], rule);
        if IsVendorCreated(rule) {
          PushList(VendorCreated(Values(rules)[..i]), rule);
          vendorRules := Push(vendorRules, rule);
        }
        i := i + 1;
      }
      assert Values(rules)[..|rules|] == Values(rules);
      r := vendorRules;
    } else {
      r := rules;
    }
  }

  /**
   * `add_meta_on_vendor_created_dynamic_rules`: a rule saved from the dashboard gets
   * `created_from` = 'vendor_dashboard' when the user is a vendor and '' otherwise,
   * overwriting any earlier value; any other save leaves the rule as it is.
   */
  function AddMetaOnVendorCreatedRule(rule: Array, isFrontend: bool, req: Request): (r: Array)
    ensures !isFrontend ==> r == rule
    ensures isFrontend ==> Read(r, CreatedFrom) == Str(if req.isSeller then VendorDashboard else "")
    ensures forall k :: k != CreatedFrom ==> Get(r, k) == Get(rule, k)
    ensures Keys(r) == if isFrontend && CreatedFrom !in Keys(rule) then Keys(rule) + [CreatedFrom] else Keys(rule)
  {
    if isFrontend then
      var stamp := Str(if req.isSeller then VendorDashboard else "");
      SetKeys(rule, CreatedFrom, stamp);
      SetGet(rule, CreatedFrom, stamp);
      Set(rule, CreatedFrom, stamp)
    else rule
  }

  /**
   * A rule saved from the dashboard is listed for sellers exactly when a vendor saved it;
   * a rule saved elsewhere keeps whatever visibility it had.
   */
  lemma SavedRuleVisibility(rule: Array, isFrontend: bool, req: Request)
    ensures isFrontend ==> (IsVendorCreated(Arr(AddMetaOnVendorCreatedRule(rule, isFrontend, req))) <==> req.isSeller)
    ensures !isFrontend ==> (IsVendorCreated(Arr(AddMetaOnVendorCreatedRule(rule, isFrontend, req))) <==> IsVendorCreated(Arr(rule)))
  {
  }
}
