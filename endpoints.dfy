/**
 * Registration of the two WholesaleX pages as WCFM query vars
 * (`add_wholesalex_endpoints`), as written and as the page titles and menu entries
 * beside it decide the same question.
 */
module QueryVars {
  import opened Wrappers
  import opened OrderedMaps
  import opened Php

  const DynamicRulesVar: string := "wholesalex-dynamic-rules"
  const ConversationsVar: string := "wholesalex-conversations"

  /**
   * The two settings the endpoints depend on as stored by WholesaleX (None when never saved),
   * and whether the conversation add-on is active (`is_conversation_active`).
   */
  datatype Settings = Settings(dynamicRuleStatus: Option<Value>, conversationStatus: Option<Value>, conversationActive: bool)

  /** `wholesalex()->get_setting($key, 'yes')`: the stored value, or 'yes' when none is stored. */
  function SettingOrYes(stored: Option<Value>): Value {
    stored.GetOr(Str("yes"))
  }

  /** The setting switches the page on in the titles and menus: it is exactly 'yes'. */
  predicate IsYes(stored: Option<Value>) {
    SettingOrYes(stored) == Str("yes")
  }

  /** `add_wholesalex_endpoints` as written: a setting switches its page on whenever it is truthy. */
  function AddWholesalexEndpoints(queryVars: Array, wholesalexLoaded: bool, settings: Settings): (r: Array)
    ensures Get(r, StrKey(DynamicRulesVar)) ==
      if wholesalexLoaded && Truthy(SettingOrYes(settings.dynamicRuleStatus)) then Some(Str(DynamicRulesVar))
      else Get(queryVars, StrKey(DynamicRulesVar))
    ensures Get(r, StrKey(ConversationsVar)) ==
      if wholesalexLoaded && Truthy(SettingOrYes(settings.conversationStatus)) && settings.conversationActive then Some(Str(ConversationsVar))
      else Get(queryVars, StrKey(ConversationsVar))
    ensures forall k :: k != StrKey(DynamicRulesVar) && k != StrKey(ConversationsVar) ==> Get(r, k) == Get(queryVars, k)
  {
    SetGet(queryVars, StrKey(DynamicRulesVar), Str(DynamicRulesVar));
    var withRules :=
      if wholesalexLoaded && Truthy(SettingOrYes(settings.dynamicRuleStatus)) then
        Set(queryVars, StrKey(DynamicRulesVar), Str(DynamicRulesVar))
      else queryVars;
    SetGet(withRules, StrKey(ConversationsVar), Str(ConversationsVar));
    if wholesalexLoaded && Truthy(SettingOrYes(settings.conversationStatus)) && settings.conversationActive then
      Set(withRules, StrKey(ConversationsVar), Str(ConversationsVar))
    else withRules
  }

  /** The registration the titles and menus agree with: a page's query var is added exactly when its setting is 'yes'. */
  function AddWholesalexEndpointsIntended(queryVars: Array, wholesalexLoaded: bool, settings: Settings): (r: Array)
    ensures Get(r, StrKey(DynamicRulesVar)) ==
      if wholesalexLoaded && IsYes(settings.dynamicRuleStatus) then Some(Str(DynamicRulesVar))
      else Get(queryVars, StrKey(DynamicRulesVar))
    ensures Get(r, StrKey(ConversationsVar)) ==
      if wholesalexLoaded && IsYes(settings.conversationStatus) && settings.conversationActive then Some(Str(ConversationsVar))
      else Get(queryVars, StrKey(ConversationsVar))
    ensures forall k :: k != StrKey(DynamicRulesVar) && k != StrKey(ConversationsVar) ==> Get(r, k) == Get(queryVars, k)
  {
    SetGet(queryVars, StrKey(DynamicRulesVar), Str(DynamicRulesVar));
    var withRules :=
      if wholesalexLoaded && IsYes(settings.dynamicRuleStatus) then
        Set(queryVars, StrKey(DynamicRulesVar), Str(DynamicRulesVar))
      else queryVars;
    SetGet(withRules, StrKey(ConversationsVar), Str(ConversationsVar));
    if wholesalexLoaded && IsYes(settings.conversationStatus) && settings.conversationActive then
      Set(withRules, StrKey(ConversationsVar), Str(ConversationsVar))
    else withRules
  }

  /**
   * A stored 'no' switches the dynamic-rules page off in the title and menu, but the
   * query var is still registered, because 'no' is a truthy string.
   */
  lemma StoredNoStillRegisters(queryVars: Array)
    requires StrKey(DynamicRulesVar) !in Keys(queryVars)
    ensures !IsYes(Some(Str("no")))
    ensures StrKey(DynamicRulesVar) in Keys(AddWholesalexEndpoints(queryVars, true, Settings(Some(Str("no")), None, false)))
    ensures StrKey(DynamicRulesVar) !in Keys(AddWholesalexEndpointsIntended(queryVars, true, Settings(Some(Str("no")), None, false)))
  {
  }

  /** Both versions agree whenever each setting is 'yes', unset, or falsy. */
  lemma IntendedAgreesOnYesOrFalsy(queryVars: Array, wholesalexLoaded: bool, settings: Settings)
    requires IsYes(settings.dynamicRuleStatus) || !Truthy(SettingOrYes(settings.dynamicRuleStatus))
    requires IsYes(settings.conversationStatus) || !Truthy(SettingOrYes(settings.conversationStatus))
    ensures AddWholesalexEndpoints(queryVars, wholesalexLoaded, settings) == AddWholesalexEndpointsIntended(queryVars, wholesalexLoaded, settings)
  {
  }
}
