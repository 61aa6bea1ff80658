/** The compliance-rule screen (`ComplianceComponent`): the form helpers that stand for a
    rule's configuration, the translation between helpers and stored configuration in
    `saveRule` and `editRule`, and the list updates applied to the backend's answers. */
module RuleEditor {
  import opened Js
  import opened Text
  import opened Seqs
  import opened CommaList
  import opened Models

  /** The seven configuration helpers of the form. */
  datatype ConfigHelpers = ConfigHelpers(
    lengthConfig: map<string, JsValue>,
    prohibitedContentConfig: map<string, JsValue>,
    requiredFieldsConfigText: string,
    prohibitedContentConfigText: string,
    allowedCategoriesConfigText: string,
    metadataConfigText: string,
    customConfigText: string)

  /** Every helper empty: `{}` and `''`. */
  const NoHelpers: ConfigHelpers := ConfigHelpers(map[], map[], "", "", "", "", "")

  /** `initializeRule`. */
  const InitialRule: ComplianceRule := ComplianceRule(None, "", "", 0, "", Obj(map[]), true, ErrorSeverity)

  /** The validator types whose configuration is one list under one key. */
  const SingleListTypes: set<string> := {"required_fields", "category", "metadata"}

  /** The key holding the list for each list-valued validator type. */
  function ListKey(validatorType: string): string
  {
    if validatorType == "required_fields" then "fields"
    else if validatorType == "category" then "allowed_categories"
    else if validatorType == "metadata" then "required_fields"
    else "keywords"
  }

  /** The text helper holding the list for each list-valued validator type. */
  function ListText(validatorType: string, h: ConfigHelpers): string
  {
    if validatorType == "required_fields" then h.requiredFieldsConfigText
    else if validatorType == "category" then h.allowedCategoriesConfigText
    else if validatorType == "metadata" then h.metadataConfigText
    else h.prohibitedContentConfigText
  }

  /** The configuration `saveRule` builds from the helpers; `None` when the custom text
      is not valid JSON. `jsonParse` stands for `JSON.parse`, `None` for a throw. Only
      the custom branch can fail, and only on a non-empty text; the shape of each
      branch's result is stated by `ListConfigurationShape`, `ProhibitedContentShape`
      and `OtherConfigurationShape`. */
  function BuildConfiguration(validatorType: string, h: ConfigHelpers, jsonParse: string -> Option<JsValue>): (r: Option<JsValue>)
    ensures r.None? <==>
      validatorType !in SingleListTypes && validatorType != "length" && validatorType != "prohibited_content"
      && h.customConfigText != "" && jsonParse(h.customConfigText).None?
  {
    if validatorType == "length" then Some(Obj(h.lengthConfig))
    else if validatorType == "required_fields" then Some(Obj(map["fields" := StrList(Parse(h.requiredFieldsConfigText))]))
    else if validatorType == "prohibited_content" then
      Some(Obj(h.prohibitedContentConfig["keywords" := StrList(Parse(h.prohibitedContentConfigText))]))
    else if validatorType == "category" then Some(Obj(map["allowed_categories" := StrList(Parse(h.allowedCategoriesConfigText))]))
    else if validatorType == "metadata" then Some(Obj(map["required_fields" := StrList(Parse(h.metadataConfigText))]))
    else if h.customConfigText != "" then jsonParse(h.customConfigText)
    else Some(Obj(map[]))
  }

  /** A list of clean items, as the comma parse produces them. */
  predicate CleanList(v: JsValue)
  {
    v.StrList? && forall i :: 0 <= i < |v.items| ==> Clean(v.items[i])
  }

  /** For the single-list types `saveRule` builds an object holding exactly the list's
      key, whose value is the clean comma parse of the list's text helper. */
  lemma ListConfigurationShape(validatorType: string, h: ConfigHelpers, jsonParse: string -> Option<JsValue>)
    requires validatorType in SingleListTypes
    ensures var r := BuildConfiguration(validatorType, h, jsonParse);
      && r.Some? && r.value.Obj? && r.value.props.Keys == {ListKey(validatorType)}
      && r.value.props[ListKey(validatorType)] == StrList(Parse(ListText(validatorType, h)))
      && CleanList(r.value.props[ListKey(validatorType)])
  {
    ParseItemsClean(ListText(validatorType, h));
  }

  /** Setting `keywords` to the parse of a text keeps the other keys and makes
      `keywords` a clean list. */
  lemma KeywordsUpdate(m: map<string, JsValue>, text: string)
    ensures var u := m["keywords" := StrList(Parse(text))];
      && u.Keys == m.Keys + {"keywords"}
      && u["keywords"] == StrList(Parse(text))
      && CleanList(u["keywords"])
      && forall k :: k in m && k != "keywords" ==> u[k] == m[k]
  {
    KeywordsSet(m, StrList(Parse(text)));
    ParsedListClean(text);
  }

  /** Setting `keywords` adds that key, holding the new value, and keeps the others. */
  lemma KeywordsSet(m: map<string, JsValue>, v: JsValue)
    ensures var u := m["keywords" := v];
      && u.Keys == m.Keys + {"keywords"} && u["keywords"] == v
      && forall k :: k in m && k != "keywords" ==> u[k] == m[k]
  {
  }

  /** The comma parse of a text is a clean list. */
  lemma ParsedListClean(text: string)
    ensures CleanList(StrList(Parse(text)))
  {
    ParseItemsClean(text);
  }

  /** For `prohibited_content` `saveRule` keeps the other keys of the helper object and
      always sets `keywords` to the clean comma parse of the keyword text. */
  lemma ProhibitedContentShape(validatorType: string, h: ConfigHelpers, jsonParse: string -> Option<JsValue>)
    requires validatorType == "prohibited_content"
    ensures var r := BuildConfiguration(validatorType, h, jsonParse);
      && r.Some? && r.value.Obj? && r.value.props.Keys == h.prohibitedContentConfig.Keys + {"keywords"}
      && r.value.props["keywords"] == StrList(Parse(h.prohibitedContentConfigText))
      && CleanList(r.value.props["keywords"])
      && forall k :: k in h.prohibitedContentConfig && k != "keywords" ==> r.value.props[k] == h.prohibitedContentConfig[k]
  {
    BuildProhibitedContent(h, jsonParse);
    KeywordsUpdate(h.prohibitedContentConfig, h.prohibitedContentConfigText);
  }

  /** The `prohibited_content` branch of `saveRule`'s switch. */
  lemma BuildProhibitedContent(h: ConfigHelpers, jsonParse: string -> Option<JsValue>)
    ensures BuildConfiguration("prohibited_content", h, jsonParse) ==
      Some(Obj(h.prohibitedContentConfig["keywords" := StrList(Parse(h.prohibitedContentConfigText))]))
  {
  }

  /** For `length` `saveRule` sends a copy of the length helper; for every other type
      the parsed custom text, `{}` for an empty text, and a failure only on invalid
      JSON. */
  lemma OtherConfigurationShape(validatorType: string, h: ConfigHelpers, jsonParse: string -> Option<JsValue>)
    requires validatorType !in SingleListTypes + {"prohibited_content"}
    ensures var r := BuildConfiguration(validatorType, h, jsonParse);
      && (validatorType == "length" ==> r == Some(Obj(h.lengthConfig)))
      && (validatorType != "length" ==>
            (r.None? <==> h.customConfigText != "" && jsonParse(h.customConfigText).None?)
            && (h.customConfigText == "" ==> r == Some(Obj(map[])))
            && (h.customConfigText != "" ==> r == jsonParse(h.customConfigText)))
  {
  }

  /** What `editRule` leaves in the helpers, and whether it threw on the way: a stored
      list that is neither nullish nor an array, or a configuration that is `null`, makes
      `.join` or the property read throw after the earlier assignments were made. */
  datatype EditOutcome = EditOutcome(helpers: ConfigHelpers, threw: bool)

  /** `configuration[key]?.join(', ') || ''`. */
  function ListTextOf(configuration: JsValue, key: string): Option<string>
  {
    var v := Property(configuration, key);
    if v.None? then None else JoinedOrEmpty(v.value)
  }

  /** The helpers after `editRule` populates them from a stored rule; the helpers of
      the other validator types keep their values. `jsonStringify` stands for
      `JSON.stringify(_, null, 2)`. */
  function EditedHelpers(rule: ComplianceRule, h: ConfigHelpers, jsonStringify: JsValue -> string): EditOutcome
  {
    var c := rule.configuration;
    if rule.validator_type == "length" then EditOutcome(h.(lengthConfig := Spread(c)), false)
    else if rule.validator_type == "required_fields" then
      var t := ListTextOf(c, "fields");
      if t.None? then EditOutcome(h, true) else EditOutcome(h.(requiredFieldsConfigText := t.value), false)
    else if rule.validator_type == "prohibited_content" then
      var h1 := h.(prohibitedContentConfig := Spread(c));
      var t := ListTextOf(c, "keywords");
      if t.None? then EditOutcome(h1, true) else EditOutcome(h1.(prohibitedContentConfigText := t.value), false)
    else if rule.validator_type == "category" then
      var t := ListTextOf(c, "allowed_categories");
      if t.None? then EditOutcome(h, true) else EditOutcome(h.(allowedCategoriesConfigText := t.value), false)
    else if rule.validator_type == "metadata" then
      var t := ListTextOf(c, "required_fields");
      if t.None? then EditOutcome(h, true) else EditOutcome(h.(metadataConfigText := t.value), false)
    else EditOutcome(h.(customConfigText := jsonStringify(c)), false)
  }

  /** A stored configuration the form can show and save back unchanged: an object for
      `length`; an object with exactly its list key holding clean items for the
      single-list types; an object whose `keywords` is a clean list for
      `prohibited_content`; JSON that reads back as itself otherwise. */
  predicate FormRepresentable(rule: ComplianceRule, jsonParse: string -> Option<JsValue>, jsonStringify: JsValue -> string)
  {
    var c := rule.configuration;
    if rule.validator_type == "length" then c.Obj?
    else if rule.validator_type in SingleListTypes then
      c.Obj? && c.props.Keys == {ListKey(rule.validator_type)} && CleanList(c.props[ListKey(rule.validator_type)])
    else if rule.validator_type == "prohibited_content" then
      c.Obj? && "keywords" in c.props && CleanList(c.props["keywords"])
    else jsonStringify(c) != "" && jsonParse(jsonStringify(c)) == Some(c)
  }

  /** A stored clean list is shown as its `', '` join, which parses back to the list. */
  lemma StoredListText(c: JsValue, key: string)
    requires c.Obj? && key in c.props && CleanList(c.props[key])
    ensures ListTextOf(c, key) == Some(Format(c.props[key].items))
    ensures Parse(Format(c.props[key].items)) == c.props[key].items
  {
    ParseFormat(c.props[key].items);
  }

  /** An object with exactly one key is that key's entry alone. */
  lemma SingleKeyMap(m: map<string, JsValue>, key: string)
    requires m.Keys == {key}
    ensures map[key := m[key]] == m
  {
  }

  /** Round trip for `required_fields`: the saved object is the stored one. */
  lemma RequiredFieldsRoundTrip(rule: ComplianceRule, h: ConfigHelpers, jsonParse: string -> Option<JsValue>, jsonStringify: JsValue -> string)
    requires rule.validator_type == "required_fields"
    requires FormRepresentable(rule, jsonParse, jsonStringify)
    ensures !EditedHelpers(rule, h, jsonStringify).threw
    ensures BuildConfiguration(rule.validator_type, EditedHelpers(rule, h, jsonStringify).helpers, jsonParse) == Some(rule.configuration)
  {
    var props := rule.configuration.props;
    var xs := props["fields"].items;
    StoredListText(rule.configuration, "fields");
    assert EditedHelpers(rule, h, jsonStringify) == EditOutcome(h.(requiredFieldsConfigText := Format(xs)), false);
    SingleKeyMap(props, "fields");
  }

  /** Round trip for `category`: the saved object is the stored one. */
  lemma CategoryRoundTrip(rule: ComplianceRule, h: ConfigHelpers, jsonParse: string -> Option<JsValue>, jsonStringify: JsValue -> string)
    requires rule.validator_type == "category"
    requires FormRepresentable(rule, jsonParse, jsonStringify)
    ensures !EditedHelpers(rule, h, jsonStringify).threw
    ensures BuildConfiguration(rule.validator_type, EditedHelpers(rule, h, jsonStringify).helpers, jsonParse) == Some(rule.configuration)
  {
    var props := rule.configuration.props;
    var xs := props["allowed_categories"].items;
    StoredListText(rule.configuration, "allowed_categories");
    assert EditedHelpers(rule, h, jsonStringify) == EditOutcome(h.(allowedCategoriesConfigText := Format(xs)), false);
    SingleKeyMap(props, "allowed_categories");
  }

  /** Round trip for `metadata`: the saved object is the stored one. */
  lemma MetadataRoundTrip(rule: ComplianceRule, h: ConfigHelpers, jsonParse: string -> Option<JsValue>, jsonStringify: JsValue -> string)
    requires rule.validator_type == "metadata"
    requires FormRepresentable(rule, jsonParse, jsonStringify)
    ensures !EditedHelpers(rule, h, jsonStringify).threw
    ensures BuildConfiguration(rule.validator_type, EditedHelpers(rule, h, jsonStringify).helpers, jsonParse) == Some(rule.configuration)
  {
    var props := rule.configuration.props;
    var xs := props["required_fields"].items;
    StoredListText(rule.configuration, "required_fields");
    assert EditedHelpers(rule, h, jsonStringify) == EditOutcome(h.(metadataConfigText := Format(xs)), false);
    SingleKeyMap(props, "required_fields");
  }

  /** Round trip for `prohibited_content`: the spread helper object gets its `keywords`
      back, which gives the stored object. */
  lemma ProhibitedContentRoundTrip(rule: ComplianceRule, h: ConfigHelpers, jsonParse: string -> Option<JsValue>, jsonStringify: JsValue -> string)
    requires rule.validator_type == "prohibited_content"
    requires FormRepresentable(rule, jsonParse, jsonStringify)
    ensures !EditedHelpers(rule, h, jsonStringify).threw
    ensures BuildConfiguration(rule.validator_type, EditedHelpers(rule, h, jsonStringify).helpers, jsonParse) == Some(rule.configuration)
  {
    var props := rule.configuration.props;
    var xs := props["keywords"].items;
    StoredListText(rule.configuration, "keywords");
    var h1 := h.(prohibitedContentConfig := props, prohibitedContentConfigText := Format(xs));
    assert EditedHelpers(rule, h, jsonStringify) == EditOutcome(h1, false);
    BuildProhibitedContent(h1, jsonParse);
    assert "keywords" in props && props["keywords"] == StrList(xs);
    assert props["keywords" := StrList(xs)] == props;
  }

  /** Round trip: populating the form from a representable rule and saving it again
      gives back the stored configuration, whatever the helpers held before. */
  lemma RuleFormRoundTrip(rule: ComplianceRule, h: ConfigHelpers, jsonParse: string -> Option<JsValue>, jsonStringify: JsValue -> string)
    requires FormRepresentable(rule, jsonParse, jsonStringify)
    ensures !EditedHelpers(rule, h, jsonStringify).threw
    ensures BuildConfiguration(rule.validator_type, EditedHelpers(rule, h, jsonStringify).helpers, jsonParse) == Some(rule.configuration)
  {
    if rule.validator_type == "required_fields" {
      RequiredFieldsRoundTrip(rule, h, jsonParse, jsonStringify);
    } else if rule.validator_type == "category" {
      CategoryRoundTrip(rule, h, jsonParse, jsonStringify);
    } else if rule.validator_type == "metadata" {
      MetadataRoundTrip(rule, h, jsonParse, jsonStringify);
    } else if rule.validator_type == "prohibited_content" {
      ProhibitedContentRoundTrip(rule, h, jsonParse, jsonStringify);
    }
  }

  /** What `saveRule` hands to the backend. */
  datatype RuleRequest =
    | NoRequest
    | UpdateRule(id: int, rule: ComplianceRule)
    | CreateRule(rule: ComplianceRule)

  /** The screen's state. */
  class ComplianceComponent {
    var complianceRules: seq<ComplianceRule>
    var feeds: seq<FeedConfig>
    var currentRule: ComplianceRule
    var editingRule: Option<ComplianceRule>
    var showCreateForm: bool
    var error: string
    var lengthConfig: map<string, JsValue>
    var prohibitedContentConfig: map<string, JsValue>
    var requiredFieldsConfigText: string
    var prohibitedContentConfigText: string
    var allowedCategoriesConfigText: string
    var metadataConfigText: string
    var customConfigText: string

    /** The helpers as one value. */
    function Helpers(): ConfigHelpers
      reads this
    {
      ConfigHelpers(lengthConfig, prohibitedContentConfig, requiredFieldsConfigText, prohibitedContentConfigText,
                    allowedCategoriesConfigText, metadataConfigText, customConfigText)
    }

    constructor ()
      ensures complianceRules == [] && feeds == []
      ensures currentRule == InitialRule && editingRule == None && !showCreateForm && error == ""
      ensures Helpers() == NoHelpers
    {
      complianceRules, feeds := [], [];
      currentRule, editingRule, showCreateForm, error := InitialRule, None, false, "";
      lengthConfig, prohibitedContentConfig := map[], map[];
      requiredFieldsConfigText, prohibitedContentConfigText, allowedCategoriesConfigText := "", "", "";
      metadataConfigText, customConfigText := "", "";
    }

    /** `onValidatorTypeChange`: all seven helpers back to empty. */
    method OnValidatorTypeChange()
      modifies this
      ensures Helpers() == NoHelpers
      ensures complianceRules == old(complianceRules) && feeds == old(feeds)
      ensures currentRule == old(currentRule) && editingRule == old(editingRule)
      ensures showCreateForm == old(showCreateForm) && error == old(error)
    {
      lengthConfig := map[];
      prohibitedContentConfig := map[];
      requiredFieldsConfigText := "";
      prohibitedContentConfigText := "";
      allowedCategoriesConfigText := "";
      metadataConfigText := "";
      customConfigText := "";
    }

    /** `saveRule`: builds the configuration of the current rule from the helpers of its
        validator type, then asks for an update when the rule being edited has a
        (truthy) id and for a creation otherwise. Invalid custom JSON sets the error and
        stops before any request, leaving the configuration as it was. */
    method SaveRule(jsonParse: string -> Option<JsValue>) returns (request: RuleRequest)
      modifies this
      ensures var built := BuildConfiguration(old(currentRule.validator_type), old(Helpers()), jsonParse);
        && (built.None? ==>
              request == NoRequest && currentRule == old(currentRule) && error == "Invalid JSON in custom configuration")
        && (built.Some? ==>
              currentRule == old(currentRule).(configuration := built.value) && error == old(error)
              && request == (if editingRule.Some? && TruthyNum(editingRule.value.id)
                             then UpdateRule(editingRule.value.id.value, currentRule)
                             else CreateRule(currentRule)))
      ensures Helpers() == old(Helpers()) && editingRule == old(editingRule)
      ensures complianceRules == old(complianceRules) && feeds == old(feeds) && showCreateForm == old(showCreateForm)
    {
      var configuration := BuildConfiguration(currentRule.validator_type, Helpers(), jsonParse);
      if configuration.None? {
        error := "Invalid JSON in custom configuration";
        return NoRequest;
      }
      currentRule := currentRule.(configuration := configuration.value);
      if editingRule.Some? && TruthyNum(editingRule.value.id) {
        request := UpdateRule(editingRule.value.id.value, currentRule);
      } else {
        request := CreateRule(currentRule);
      }
    }

    /** The `switch` of `editRule`: populates the helpers of the rule's validator type
        from its configuration, or throws on a list that is not an array. */
    method PopulateHelpers(rule: ComplianceRule, jsonStringify: JsValue -> string) returns (threw: bool)
      modifies this
      ensures Helpers() == EditedHelpers(rule, old(Helpers()), jsonStringify).helpers
      ensures threw == EditedHelpers(rule, old(Helpers()), jsonStringify).threw
      ensures editingRule == old(editingRule) && currentRule == old(currentRule) && showCreateForm == old(showCreateForm)
      ensures complianceRules == old(complianceRules) && feeds == old(feeds) && error == old(error)
    {
      var c := rule.configuration;
      threw := false;
      if rule.validator_type == "length" {
        lengthConfig := Spread(c);
      } else if rule.validator_type == "required_fields" {
        var t := ListTextOf(c, "fields");
        if t.None? { return true; }
        requiredFieldsConfigText := t.value;
      } else if rule.validator_type == "prohibited_content" {
        prohibitedContentConfig := Spread(c);
        var t := ListTextOf(c, "keywords");
        if t.None? { return true; }
        prohibitedContentConfigText := t.value;
      } else if rule.validator_type == "category" {
        var t := ListTextOf(c, "allowed_categories");
        if t.None? { return true; }
        allowedCategoriesConfigText := t.value;
      } else if rule.validator_type == "metadata" {
        var t := ListTextOf(c, "required_fields");
        if t.None? { return true; }
        metadataConfigText := t.value;
      } else {
        customConfigText := jsonStringify(c);
      }
    }

    /** `editRule`: remembers the rule, copies it (with a copy of its configuration's
        keys) into the form and populates the helpers of its validator type; the form
        opens unless populating threw. */
    method EditRule(rule: ComplianceRule, jsonStringify: JsValue -> string) returns (threw: bool)
      modifies this
      ensures editingRule == Some(rule)
      ensures currentRule == rule.(configuration := Obj(Spread(rule.configuration)))
      ensures Helpers() == EditedHelpers(rule, old(Helpers()), jsonStringify).helpers
      ensures threw == EditedHelpers(rule, old(Helpers()), jsonStringify).threw
      ensures showCreateForm == (if threw then old(showCreateForm) else true)
      ensures complianceRules == old(complianceRules) && feeds == old(feeds) && error == old(error)
    {
      editingRule := Some(rule);
      currentRule := rule.(configuration := Obj(Spread(rule.configuration)));
      threw := PopulateHelpers(rule, jsonStringify);
      if !threw {
        showCreateForm := true;
      }
    }

    /** `cancelRuleEdit`: closes the form and restores a fresh rule and empty helpers. */
    method CancelRuleEdit()
      modifies this
      ensures !showCreateForm && editingRule == None && currentRule == InitialRule && error == ""
      ensures Helpers() == NoHelpers
      ensures complianceRules == old(complianceRules) && feeds == old(feeds)
    {
      showCreateForm := false;
      editingRule := None;
      currentRule := InitialRule;
      OnValidatorTypeChange();
      error := "";
    }

    /** The update callback of `saveRule`: the first listed rule with the returned
        rule's id is replaced, nothing changes when there is none, and the form is
        reset. */
    method OnRuleUpdated(rule: ComplianceRule)
      modifies this
      ensures var i := FindIndex(old(complianceRules), (r: ComplianceRule) => r.id == rule.id);
        complianceRules == if i >= 0 then old(complianceRules)[i := rule] else old(complianceRules)
      ensures !showCreateForm && editingRule == None && currentRule == InitialRule && error == ""
      ensures Helpers() == NoHelpers && feeds == old(feeds)
    {
      var index := FindIndex(complianceRules, (r: ComplianceRule) => r.id == rule.id);
      if index >= 0 {
        complianceRules := complianceRules[index := rule];
      }
      CancelRuleEdit();
    }

    /** The create callback of `saveRule`: the new rule goes first and the form is
        reset. */
    method OnRuleCreated(rule: ComplianceRule)
      modifies this
      ensures complianceRules == [rule] + old(complianceRules)
      ensures !showCreateForm && editingRule == None && currentRule == InitialRule && error == ""
      ensures Helpers() == NoHelpers && feeds == old(feeds)
    {
      complianceRules := [rule] + complianceRules;
      CancelRuleEdit();
    }

    /** `getFeedName`: the name of the first feed with that id, else `Unknown Feed`. */
    function GetFeedName(feedId: int): (name: string)
      reads this
      ensures (forall i :: 0 <= i < |feeds| ==> feeds[i].id != Some(feedId)) ==> name == "Unknown Feed"
      ensures forall i :: 0 <= i < |feeds| && feeds[i].id == Some(feedId) ==>
        (forall j :: 0 <= j < i ==> feeds[j].id != Some(feedId)) ==> name == feeds[i].name
    {
      var i := FindIndex(feeds, (f: FeedConfig) => f.id == Some(feedId));
      if i >= 0 then feeds[i].name else "Unknown Feed"
    }
  }

  /** Editing a representable rule and saving it without changes asks the backend to
      store the rule exactly as it was (an update when it has an id, a creation
      otherwise). */
  method EditThenSaveRule(screen: ComplianceComponent, rule: ComplianceRule,
                          jsonParse: string -> Option<JsValue>, jsonStringify: JsValue -> string)
    returns (request: RuleRequest)
    requires FormRepresentable(rule, jsonParse, jsonStringify)
    modifies screen
    ensures request == if TruthyNum(rule.id) then UpdateRule(rule.id.value, rule) else CreateRule(rule)
    ensures screen.currentRule == rule && screen.showCreateForm
  {
    RuleFormRoundTrip(rule, screen.Helpers(), jsonParse, jsonStringify);
    var threw := screen.EditRule(rule, jsonStringify);
    request := screen.SaveRule(jsonParse);
  }
}
