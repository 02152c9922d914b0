# WholesaleX for WCFM: a verified model of its request-scoped transforms

WholesaleX for WCFM is a WordPress add-on. It brings the WholesaleX wholesale-pricing plugin into the dashboard that WCFM (WC Frontend Manager) gives each marketplace vendor. Most of the add-on wires hooks and prints HTML. Its logic is a set of filters that take a PHP array, or a flag, and return it changed for the current request. This project models those filters in Dafny and proves what they promise:

- **Tenant scoping of dynamic rules.** In the vendor's rule editor, three option filters remove the rule types, product filters and conditions that belong to the site operator. A collection filter keeps only the rules a vendor created. A provenance tagger marks rules saved from the vendor dashboard.
- **Conversation scoping.** One transform adds a meta clause to the conversation query. The view and REST permission filters can grant access but never revoke it. Others add the vendor to the allowed authors and pick the reply bubble's CSS class.
- **The recursive sanitizer.** It cleans every leaf of a nested array.
- **The tier-field schema for the product editor.** It builds one section per B2B and per B2C role, and keys the per-product discounts.
- **Query-var registration** for the two dashboard pages.
- **The dependency gate of the core class.** It builds a status for each required plugin, passes only when all of them are active and WholesaleX is recent enough, and decides what the constructor wires up.

PHP arrays are modelled as ordered association lists (`OrderedMaps`, `Php`):

- `$a[k] = v` overwrites in place or appends.
- `unset` removes the entry.
- `$a[] = v` uses the next integer index.
- A missing key reads as `null`.
- A canonical decimal string key becomes an integer key.

The current request becomes an explicit `Request` value:

- the WCFM endpoint;
- the vendor id from `get_vendor_id`;
- the seller status from `wcfm_is_vendor`.

Calls into code outside the add-on become parameters:

- `sanitize_text_field`;
- the `__()` translations;
- `file_exists`;
- `version_compare`;
- the stored WholesaleX settings;
- the roles list;
- each product's discounts.

Each loop of the source is a method proved against a specification function. The properties are proved as lemmas about those functions.

Two behaviours of the code a reader might not expect:

- **Saving a rule from the frontend as a non-vendor.** The code overwrites `created_from` with `''`. A missing value does not stay missing.
- **Sanitizing a value that is not an array.** The code returns the value unchanged.

## Model

| member | source | states |
|---|---|---|
| DynamicRules.DynamicRuleTypesForVendors | includes/public/class-wholesalex-wcfm-b2b-multivendor-marketplace-public.php:462-490 | In the vendor rule editor the result is the rule types minus the set entries of the seven operator-only types; elsewhere it is the input. |
| DynamicRules.DynamicRulesProductFilterVendors | includes/public/class-wholesalex-wcfm-b2b-multivendor-marketplace-public.php:500-516 | The same scoping with the denylist `all_products`, `cat_in_list`, `cat_not_in_list`. |
| DynamicRules.DynamicRulesConditionsVendors | includes/public/class-wholesalex-wcfm-b2b-multivendor-marketplace-public.php:526-542 | The same scoping with the denylist `cart_total_qty`, `cart_total_value`, `cart_total_weight`. |
| DynamicRules.UnsetIfSet | includes/public/class-wholesalex-wcfm-b2b-multivendor-marketplace-public.php:466-467 | One `if isset unset` step removes one more key from the set of removed keys, whether or not it was present. |
| DynamicRules.ScopedOptionsExact | includes/public/class-wholesalex-wcfm-b2b-multivendor-marketplace-public.php:465-489 | In the editor, a key reads as missing exactly when it is denied and set; every other key keeps its value. Outside the editor nothing changes. |
| DynamicRules.ScopedOptionsSubMap | includes/public/class-wholesalex-wcfm-b2b-multivendor-marketplace-public.php:465-489 | The result is an order-preserving subsequence of the input, and every key it keeps has its input value. |
| DynamicRules.ScopedOptionsIdempotent | includes/public/class-wholesalex-wcfm-b2b-multivendor-marketplace-public.php:465-489 | Filtering twice equals filtering once. |
| DynamicRules.WithoutSetKeysGet | includes/public/class-wholesalex-wcfm-b2b-multivendor-marketplace-public.php:466-486 | Removing the set keys of a denylist drops exactly those keys and leaves the rest as they were. |
| DynamicRules.WithoutSetKeysIsSubsequence | includes/public/class-wholesalex-wcfm-b2b-multivendor-marketplace-public.php:466-486 | Removing keys never adds or reorders entries. |
| DynamicRules.WithoutSetKeysCompose | includes/public/class-wholesalex-wcfm-b2b-multivendor-marketplace-public.php:466-486 | Removing one key after another equals removing both at once; this is why the unsets can run in any order. |
| DynamicRules.WithoutSetKeysDistinct | includes/public/class-wholesalex-wcfm-b2b-multivendor-marketplace-public.php:466-486 | The filtered array still has distinct keys. |
| DynamicRules.GetVendorsDynamicRules | includes/public/class-wholesalex-wcfm-b2b-multivendor-marketplace-public.php:552-568 | In the vendor rule editor the result is the list, renumbered from 0, of the rules tagged `created_from = 'vendor_dashboard'`, in order; elsewhere it is the input. |
| DynamicRules.VendorCreatedMembers | includes/public/class-wholesalex-wcfm-b2b-multivendor-marketplace-public.php:559-563 | A rule is kept iff it is one of the input rules and is tagged as vendor-created. |
| DynamicRules.VendorCreatedIsSubsequence | includes/public/class-wholesalex-wcfm-b2b-multivendor-marketplace-public.php:559-563 | The kept rules keep their relative order. |
| DynamicRules.VendorCreatedAppend | includes/public/class-wholesalex-wcfm-b2b-multivendor-marketplace-public.php:559-563 | One more rule extends the kept list by that rule exactly when it is vendor-created. |
| DynamicRules.AddMetaOnVendorCreatedRule | includes/public/class-wholesalex-wcfm-b2b-multivendor-marketplace-public.php:445-452 | A backend save changes nothing. A frontend save sets `created_from` to `'vendor_dashboard'` for a seller and to `''` otherwise, overwriting any earlier value. Every other key is untouched, and a key is added only when `created_from` was missing. |
| DynamicRules.SavedRuleVisibility | includes/public/class-wholesalex-wcfm-b2b-multivendor-marketplace-public.php:445-452 | A rule saved from the frontend becomes visible in the vendor rule list iff the saver is a seller. A backend save keeps its visibility. |
| Conversations.ModifyConversationsArgs | includes/public/class-wholesalex-wcfm-b2b-multivendor-marketplace-public.php:622-645 | The result is an error exactly when `meta_query` holds a scalar that cannot become an array. Otherwise every other arg is unchanged and `meta_query` becomes the old clauses followed by exactly one new clause. On the frontend that clause is `wholesalex_conversation_vid = vendor id`, elsewhere `NOT EXISTS`. |
| Conversations.MetaQueryGuardIsDead | includes/public/class-wholesalex-wcfm-b2b-multivendor-marketplace-public.php:629 | The initialisation guard `!isset && is_array` holds for no args. |
| Conversations.ModifyConversationsArgsIntended | includes/public/class-wholesalex-wcfm-b2b-multivendor-marketplace-public.php:622-645 | With the guard read as `!isset \|\| !is_array`, the transform never fails and appends exactly one clause. |
| Conversations.IntendedAgreesWhenAppendable | includes/public/class-wholesalex-wcfm-b2b-multivendor-marketplace-public.php:629-641 | Whenever the code as written succeeds, it gives the same args as the corrected guard. |
| Conversations.StringMetaQueryFails | includes/public/class-wholesalex-wcfm-b2b-multivendor-marketplace-public.php:629-632 | A string `meta_query` makes the code as written fail; the corrected guard replaces it with the single clause. |
| Conversations.SetRestapiPermission | includes/public/class-wholesalex-wcfm-b2b-multivendor-marketplace-public.php:130-132 | The permission is kept when granted, granted to sellers, and granted to nobody else. |
| Conversations.AllowVendorToViewConversation | includes/public/class-wholesalex-wcfm-b2b-multivendor-marketplace-public.php:735-743 | A granted view stays granted. Otherwise the view is granted iff the vendor id loosely equals the conversation's stored vendor tag. |
| Conversations.ViewGrantForTag | includes/public/class-wholesalex-wcfm-b2b-multivendor-marketplace-public.php:735-743 | An untagged conversation (empty meta) grants nothing; a conversation tagged with the vendor's own id does. |
| Conversations.ViewGrantForPaddedTag | includes/public/class-wholesalex-wcfm-b2b-multivendor-marketplace-public.php:735-741 | A tag holding the vendor's id with surrounding whitespace, such as `"7 "`, still grants the view. |
| Conversations.ViewGrantIsPerVendor | includes/public/class-wholesalex-wcfm-b2b-multivendor-marketplace-public.php:735-743 | A tag grants the view to at most one vendor id. |
| Conversations.AddVendorIdAsValidPostAuthor | includes/public/class-wholesalex-wcfm-b2b-multivendor-marketplace-public.php:751-757 | Afterwards the vendor id is an allowed author. The old list is a prefix of the result, which is at most one longer, and it grows iff the id was missing. |
| Conversations.AddVendorIdIdempotent | includes/public/class-wholesalex-wcfm-b2b-multivendor-marketplace-public.php:751-757 | Adding the vendor twice equals adding it once. |
| Conversations.AddConversationVendorReplyClass | includes/public/class-wholesalex-wcfm-b2b-multivendor-marketplace-public.php:768-774 | A reply whose author loosely equals the vendor id keeps the given class; every other reply gets `wsx-reply-left`. |
| Conversations.ReplyClassForPaddedAuthor | includes/public/class-wholesalex-wcfm-b2b-multivendor-marketplace-public.php:769-773 | A reply whose author is the vendor's id with surrounding whitespace keeps its class. |
| Conversations.ReplyClassByAuthor | includes/public/class-wholesalex-wcfm-b2b-multivendor-marketplace-public.php:768-774 | The vendor's own replies keep the class; every other author's replies are placed left. |
| Php.LooseEqualsUnique | includes/public/class-wholesalex-wcfm-b2b-multivendor-marketplace-public.php:737 | Under PHP 8's `==`, one stored string equals at most one integer. |
| Php.LooseEqualsRendering | includes/public/class-wholesalex-wcfm-b2b-multivendor-marketplace-public.php:737 | An integer equals its own decimal rendering and never equals the empty string. |
| Php.LooseEqualsPadded | includes/public/class-wholesalex-wcfm-b2b-multivendor-marketplace-public.php:737 | PHP 8's `==` drops whitespace around a numeric string, so an integer also equals its rendering with leading or trailing whitespace (`7 == "7 "`). |
| Sanitizer.Sanitize | includes/public/class-wholesalex-wcfm-b2b-multivendor-marketplace-public.php:1133-1142 | The loop rewrites each entry in place, giving the recursively sanitized value. A non-array input comes back unchanged. |
| Sanitizer.SanitizedKeepsShape | includes/public/class-wholesalex-wcfm-b2b-multivendor-marketplace-public.php:1133-1142 | The keys, their order and the nesting are the same at every level. |
| Sanitizer.SanitizedCleansEachLeaf | includes/public/class-wholesalex-wcfm-b2b-multivendor-marketplace-public.php:1134-1140 | At every level the result has the input's keys in order. Arrays stay arrays, and every other value becomes `sanitize_text_field` of the value at the same place in the input. |
| Sanitizer.SanitizedIdempotent | includes/public/class-wholesalex-wcfm-b2b-multivendor-marketplace-public.php:1133-1142 | When `sanitize_text_field` is idempotent, sanitizing twice equals sanitizing once. |
| ProductFields.BuildRoleSections | includes/public/class-wholesalex-wcfm-b2b-multivendor-marketplace-public.php:881-956 | The loop over a role list builds the role-section map that `SectionsOf` specifies. |
| ProductFields.SectionsKeys | includes/public/class-wholesalex-wcfm-b2b-multivendor-marketplace-public.php:881-884 | A key names a section iff some role carries that `value`. Roles without a `value` are skipped. |
| ProductFields.SectionsDistinct | includes/public/class-wholesalex-wcfm-b2b-multivendor-marketplace-public.php:885 | No two sections share a key. |
| ProductFields.SectionsLastRoleWins | includes/public/class-wholesalex-wcfm-b2b-multivendor-marketplace-public.php:885 | When roles share a value, the section is the one the last of them builds. |
| ProductFields.SectionsAreBuilt | includes/public/class-wholesalex-wcfm-b2b-multivendor-marketplace-public.php:881-885 | Every section is the one built from a role whose `value` is the section's key. |
| ProductFields.SectionsPrices | includes/public/class-wholesalex-wcfm-b2b-multivendor-marketplace-public.php:881-909 | Every section of a role list has `_prices` in its `attr` iff the list is the B2B list. |
| ProductFields.SectionsTiers | includes/public/class-wholesalex-wcfm-b2b-multivendor-marketplace-public.php:881-970 | Every section of a role list has type `tiers`, `pro_data.value` 3 for the B2B list and 2 for the B2C list, and its tier block under the `value . 'tier'` key of a role that writes it. |
| ProductFields.TierSectionLimit | includes/public/class-wholesalex-wcfm-b2b-multivendor-marketplace-public.php:886-892 | A section has type `tiers`, and its `pro_data.value` is 3 for B2B roles and 2 for B2C roles. |
| ProductFields.TierSectionPrices | includes/public/class-wholesalex-wcfm-b2b-multivendor-marketplace-public.php:893-909 | A section's `attr` has a `_prices` block iff the role is a B2B role. |
| ProductFields.TierKeyIsString | includes/public/class-wholesalex-wcfm-b2b-multivendor-marketplace-public.php:909 | The key `value . 'tier'` always stays a string key. |
| ProductFields.TierKeyNotPrices | includes/public/class-wholesalex-wcfm-b2b-multivendor-marketplace-public.php:893-909 | The tier key `value . 'tier'` never collides with `_prices`. |
| ProductFields.TierSectionTierKey | includes/public/class-wholesalex-wcfm-b2b-multivendor-marketplace-public.php:909-953 | The tier block is stored under `value . 'tier'`. |
| ProductFields.TierBlockDiscountTypes | includes/public/class-wholesalex-wcfm-b2b-multivendor-marketplace-public.php:918-929 | The `_discount_type` field of a tier row is the select built from the discount-type options. |
| ProductFields.DiscountTypeKeys | includes/public/class-wholesalex-wcfm-b2b-multivendor-marketplace-public.php:921-926 | The discount-type options are exactly `''`, `amount`, `percentage`, `fixed_price`, in that order. |
| ProductFields.GetProductFields | includes/public/class-wholesalex-wcfm-b2b-multivendor-marketplace-public.php:877-1034 | The schema is `_b2c_section` then `_b2b_section`, holding the B2C and B2B role sections. |
| ProductFields.ProductFieldsSections | includes/public/class-wholesalex-wcfm-b2b-multivendor-marketplace-public.php:1021-1033 | The B2B section holds the B2B role sections, each with `_prices`; the B2C section holds the B2C ones, none with `_prices`. |
| ProductFields.BuildChildDiscounts | includes/public/class-wholesalex-wcfm-b2b-multivendor-marketplace-public.php:797-800 | The loop over the children builds the discount map that `ChildDiscounts` specifies. |
| ProductFields.ChildDiscountsByChild | includes/public/class-wholesalex-wcfm-b2b-multivendor-marketplace-public.php:797-800 | The discounts of a variable product are keyed by exactly its children, each with its own discount. |
| ProductFields.ChildDiscountsDistinct | includes/public/class-wholesalex-wcfm-b2b-multivendor-marketplace-public.php:797-800 | No child id appears twice. |
| ProductFields.ProductDiscounts | includes/public/class-wholesalex-wcfm-b2b-multivendor-marketplace-public.php:789-806 | The discounts are the children's for a variable product, the product's own for any other type, and none for an unknown product. |
| ProductFields.DiscountsKeying | includes/public/class-wholesalex-wcfm-b2b-multivendor-marketplace-public.php:793-805 | An unknown product has no discounts. A simple product's discounts sit under its own id alone. A variable product's key set is exactly its children. |
| ProductFields.AddWholesalexPricing | includes/public/class-wholesalex-wcfm-b2b-multivendor-marketplace-public.php:783-824 | Product id 0 produces nothing. Otherwise the page gets the schema and the discounts, and shows the settings box of its own product type. |
| QueryVars.AddWholesalexEndpoints | includes/public/class-wholesalex-wcfm-b2b-multivendor-marketplace-public.php:92-102 | Each page's query var is set to its own name when its setting, defaulting to `'yes'`, is truthy. The conversations page also needs the add-on active. No other query var changes. |
| QueryVars.AddWholesalexEndpointsIntended | includes/public/class-wholesalex-wcfm-b2b-multivendor-marketplace-public.php:112-116 | The corrected registration sets a query var exactly when its setting is `'yes'`, as the titles and menus decide. |
| QueryVars.StoredNoStillRegisters | includes/public/class-wholesalex-wcfm-b2b-multivendor-marketplace-public.php:94 | A stored `'no'` hides the page from the title and menu but still registers its query var as written; the corrected version does not register it. |
| QueryVars.IntendedAgreesOnYesOrFalsy | includes/public/class-wholesalex-wcfm-b2b-multivendor-marketplace-public.php:94-98 | Both versions agree whenever each setting is `'yes'`, unset or falsy. |
| Dependencies.WholesalexWcfm.constructor | includes/class-wholesalex-wcfm-b2b-multivendor-marketplace.php:81-104 | The version is `WHOLESALEX_WCFM_VERSION` or `'1.0.0'`, and the plugins are stored. The public hooks are wired iff the gate passes; otherwise the notices are, with the WholesaleX notice for an admin who may activate plugins. |
| Dependencies.WholesalexWcfm.CheckRequiredPluginsStatus | includes/class-wholesalex-wcfm-b2b-multivendor-marketplace.php:500-520 | The loop builds the status map that `StatusesOf` specifies, merging in the network-activated plugins on multisite. |
| Dependencies.WholesalexWcfm.IsDependencyPass | includes/class-wholesalex-wcfm-b2b-multivendor-marketplace.php:523-531 | The gate passes iff every status is active and `WHOLESALEX_VER` is defined and at least 1.2.4. |
| Dependencies.WholesalexWcfm.DefineNotices | includes/class-wholesalex-wcfm-b2b-multivendor-marketplace.php:256-270 | The WholesaleX notice is added iff the user is an admin who may activate plugins and `WholesaleX` is among the statuses. |
| Dependencies.StatusesPointwise | includes/class-wholesalex-wcfm-b2b-multivendor-marketplace.php:508-517 | With distinct plugin keys, after any number of passes the statuses list each plugin's key with that plugin's status, in the plugins' order. |
| Dependencies.StatusesKeys | includes/class-wholesalex-wcfm-b2b-multivendor-marketplace.php:508-517 | The status map has exactly the keys of the plugin map, in the same order. |
| Dependencies.StatusesByPlugin | includes/class-wholesalex-wcfm-b2b-multivendor-marketplace.php:508-517 | Each plugin's key holds that plugin's status: its path unchanged, whether its file exists, and whether it is active. |
| Dependencies.ActiveImpliesExists | includes/class-wholesalex-wcfm-b2b-multivendor-marketplace.php:509-510 | After any number of passes, a plugin counts as active only if its file exists. |
| Dependencies.SitewideCountsAsActive | includes/class-wholesalex-wcfm-b2b-multivendor-marketplace.php:501-504 | On multisite, a plugin that is only network-activated still counts as active. |
| Dependencies.PassMeansEveryPluginActive | includes/class-wholesalex-wcfm-b2b-multivendor-marketplace.php:500-531 | The gate passes iff every required plugin's file exists and is in the active list, and WholesaleX is at least 1.2.4. |
| Dependencies.NoWholesalexNoPass | includes/class-wholesalex-wcfm-b2b-multivendor-marketplace.php:530 | The gate fails while `WHOLESALEX_VER` is undefined, whatever the plugins. |
| Dependencies.RequiredPluginsDistinct | wholesalex-wcfm-b2b-multivendor-marketplace.php:66-70 | The add-on's own plugin list has distinct keys, so the status lemmas that need distinct keys apply to it. |
| Dependencies.RequiredPluginsGate | wholesalex-wcfm-b2b-multivendor-marketplace.php:66-71 | For the add-on's own list, the statuses are keyed WooCommerce, WholesaleX and WCFM, and the gate passes iff their three plugin files exist and are active and WholesaleX is at least 1.2.4. |

## Left out

- Hook wiring is not modelled: the loader, `define_public_hooks`, `set_locale` and `run`. Every `apply_filters` the modelled code passes its result through is the identity.
- HTML, JavaScript and CSS output is not modelled. This covers the settings boxes the pricing hooks print, which appear only as a flag, and the endpoint views and notices.
- Script loading is not modelled. `wp_enqueue_script` (including the `wholesalex_product` script) and `wp_localize_script` appear only as the data they would hand over (`PricingPage`).
- Translation is not modelled: `__()` is an uninterpreted `tr` parameter.
- Plugin installation and activation are not modelled. Nor are membership registration and `add_vendor_as_recipient`, which do `$_POST`, option and user-meta I/O.
- The getters `get_plugin_name`, `get_version` and `get_loader` return fields; the model reads the fields directly.
- Foreign calls are uninterpreted parameters and are not specified:
  - `sanitize_text_field`, `version_compare`, `file_exists`;
  - `wholesalex()->get_setting`, `get_roles`, `get_single_product_discount`;
  - `wc_get_product`, `get_post_meta`, `wcfm_is_vendor`.
- `is_conversation_active` and `function_exists` become booleans.
- How WP_Query evaluates the meta clauses is not modelled.
- Floats are not modelled, so a string such as `"7.0"` or `"7e0"`, which PHP compares as a float, is treated as non-numeric. Loose `==` is PHP 8's rule for an integer against a string that is an integer numeric string after dropping surrounding whitespace (space, `\t`, `\n`, `\r`, `\v`, `\f`), and against any other string. PHP 7 behaviour is not modelled.
- Php.NextIndex follows PHP before 8.3: `$a[] = v` never picks a key below 0. Since PHP 8.3 an array whose largest integer key is negative continues from that key plus one. `GetVendorsDynamicRules` appends to a list that starts empty, so it is unaffected. `ModifyConversationsArgs` appends a clause to `meta_query`, so a caller's `meta_query` whose integer keys are all negative gets key 0 here rather than the PHP 8.3 key.
- Integers are unbounded; PHP's `PHP_INT_MAX` overflow to float is not modelled.
- The option filters require distinct keys. A PHP array always has distinct keys, so this is the model's array invariant, not an extra demand on callers.
- Conversations.AddVendorIdAsValidPostAuthor: the allowed authors are modelled as integers. The loose `in_array` on a list that mixes strings and integers is not modelled.
- ProductFields.Sprintf replaces every `%s` and `%%` with the one argument. Other sprintf directives, and the error PHP 8 raises for a format with more `%s` than arguments, are not modelled.
- ProductFields.Role: a role `value` is modelled as a string. Integer role values, and the array-key cast such a value would go through, are not modelled.
- ProductFields.AddWholesalexPricing: the product id is an integer. A string id such as `"0"`, which PHP also treats as false, is not modelled.
- Conversations.ModifyConversationsArgs: a failure is an error value, not a thrown PHP `Error`.

## Findings

| source | as written | input that shows it | evidently intended | confidence | as-written member | corrected member |
|---|---|---|---|---|---|---|
| includes/public/class-wholesalex-wcfm-b2b-multivendor-marketplace-public.php:94 | The dynamic-rules query var is registered whenever `get_setting('wcfm_vendor_dynamic_rule_status', 'yes')` is truthy. | Stored setting `'no'`: the page's title and menu entry are off (lines 114, 152), but the endpoint is still registered. | Register exactly when the setting is `'yes'`, as lines 114 and 152 test. | medium, not executed | QueryVars.StoredNoStillRegisters | QueryVars.AddWholesalexEndpointsIntended |
| includes/public/class-wholesalex-wcfm-b2b-multivendor-marketplace-public.php:629 | `! isset( $args['meta_query'] ) && is_array( $args['meta_query'] )` is never true, so `meta_query` is never initialised. | `meta_query => 'x'`: line 632 then appends to a string, which PHP 8 rejects with an Error. | `! isset( ... ) \|\| ! is_array( ... )`, so that the clause list is created when missing or not an array. | high, not executed | Conversations.StringMetaQueryFails | Conversations.ModifyConversationsArgsIntended |
