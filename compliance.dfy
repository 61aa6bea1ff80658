/** The client-side compliance pre-check (`ComplianceService`): the configurable
    validators, their combination into a verdict for an (article, feed) pair, and the
    verdict cache keyed by the pair. */
module Compliance {
  import opened Js
  import opened Text
  import opened Seqs
  import opened Models

  // ---------------------------------------------------------------------------
  // Length bounds
  // ---------------------------------------------------------------------------

  /** `bound && length < bound`: a bound that is absent, `null` or 0 never fires. */
  predicate BelowMin(length: nat, bound: Option<int>)
  {
    TruthyNum(bound) && length < bound.value
  }

  /** `bound && length > bound`. */
  predicate AboveMax(length: nat, bound: Option<int>)
  {
    TruthyNum(bound) && length > bound.value
  }

  /** The at most two length errors of one text field: `minRule` and `maxRule` name the
      rules, `subject` is how the messages name the field. */
  function LengthErrors(minRule: string, maxRule: string, subject: string, field: string, length: nat,
                        minLength: Option<int>, maxLength: Option<int>): seq<ComplianceError>
  {
    (if BelowMin(length, minLength) then [LengthError(minRule, subject + " must be at least ", minLength.value, field, length)] else [])
    + (if AboveMax(length, maxLength) then [LengthError(maxRule, subject + " must not exceed ", maxLength.value, field, length)] else [])
  }

  /** `${lead}${bound} characters. Current: ${length}`, reported on `field` with the
      length as the offending value. */
  function LengthError(rule: string, lead: string, bound: int, field: string, length: nat): ComplianceError
  {
    ComplianceError(rule, lead + IntToString(bound) + " characters. Current: " + NatToString(length), Some(field), Num(length))
  }

  /** `validateArticleLength`: the body against an optional minimum and maximum. */
  function ValidateArticleLength(article: Article, minLength: Option<int>, maxLength: Option<int>): (errors: seq<ComplianceError>)
    ensures |errors| == (if BelowMin(|article.body|, minLength) then 1 else 0) + (if AboveMax(|article.body|, maxLength) then 1 else 0)
    ensures forall e :: e in errors ==> e.field == Some("body") && e.value == Num(|article.body|)
    ensures BelowMin(|article.body|, minLength) ==> errors[0].rule == "body_min_length"
    ensures AboveMax(|article.body|, maxLength) ==> errors[|errors| - 1].rule == "body_max_length"
    ensures |errors| == 2 ==> minLength.value > maxLength.value
  {
    LengthErrors("body_min_length", "body_max_length", "Article body", "body", |article.body|, minLength, maxLength)
  }

  /** `validateTitleLength`: the title against an optional minimum and maximum. */
  function ValidateTitleLength(article: Article, minLength: Option<int>, maxLength: Option<int>): (errors: seq<ComplianceError>)
    ensures |errors| == (if BelowMin(|article.title|, minLength) then 1 else 0) + (if AboveMax(|article.title|, maxLength) then 1 else 0)
    ensures forall e :: e in errors ==> e.field == Some("title") && e.value == Num(|article.title|)
    ensures BelowMin(|article.title|, minLength) ==> errors[0].rule == "title_min_length"
    ensures AboveMax(|article.title|, maxLength) ==> errors[|errors| - 1].rule == "title_max_length"
    ensures |errors| == 2 ==> minLength.value > maxLength.value
  {
    LengthErrors("title_min_length", "title_max_length", "Title", "title", |article.title|, minLength, maxLength)
  }

  // ---------------------------------------------------------------------------
  // Required fields
  // ---------------------------------------------------------------------------

  /** The names a plain object inherits from `Object.prototype`: looking them up on an
      article gives a function (or the prototype), which is truthy. */
  const PrototypeMembers: set<string> := {
    "constructor", "hasOwnProperty", "isPrototypeOf", "propertyIsEnumerable", "toLocaleString",
    "toString", "valueOf", "__proto__", "__defineGetter__", "__defineSetter__",
    "__lookupGetter__", "__lookupSetter__"}

  /** `(article as any)[field]`. */
  function FieldValue(article: Article, field: string): JsValue
  {
    if field == "id" then (if article.id.Some? then Num(article.id.value) else Undefined)
    else if field == "title" then Str(article.title)
    else if field == "body" then Str(article.body)
    else if field == "author" then Str(article.author)
    else if field == "category" then Str(article.category)
    else if field == "thumbnail_url" then (if article.thumbnail_url.Some? then Str(article.thumbnail_url.value) else Undefined)
    else if field == "metadata" then article.metadata
    else if field == "created_at" then (if article.created_at.Some? then Str(article.created_at.value) else Undefined)
    else if field == "updated_at" then (if article.updated_at.Some? then Str(article.updated_at.value) else Undefined)
    else if field in PrototypeMembers then Fn
    else Undefined
  }

  /** `!value || (typeof value === 'string' && value.trim() === '')`. */
  predicate IsMissing(value: JsValue)
  {
    !Truthy(value) || (value.Str? && Trim(value.s) == "")
  }

  function MissingFieldError(article: Article, field: string): Option<ComplianceError>
  {
    var value := FieldValue(article, field);
    if IsMissing(value) then
      Some(ComplianceError("required_field", "Required field '" + field + "' is missing or empty", Some(field), value))
    else None
  }

  /** The errors `validateRequiredFields` reports, as a function of its inputs. */
  function RequiredFieldErrors(article: Article, requiredFields: seq<string>): seq<ComplianceError>
  {
    Keep(requiredFields, f => MissingFieldError(article, f))
  }

  /** One more field contributes its error, if any, at the end. */
  lemma RequiredFieldErrorsSnoc(article: Article, fields: seq<string>, field: string)
    ensures RequiredFieldErrors(article, fields + [field]) ==
      RequiredFieldErrors(article, fields)
      + (if IsMissing(FieldValue(article, field)) then
           [ComplianceError("required_field", "Required field '" + field + "' is missing or empty", Some(field), FieldValue(article, field))]
         else [])
  {
    KeepSnoc(fields, field, f => MissingFieldError(article, f));
  }

  /** `validateRequiredFields`: one pass over the listed fields, pushing an error for each
      missing one. */
  method ValidateRequiredFields(article: Article, requiredFields: seq<string>) returns (errors: seq<ComplianceError>)
    ensures errors == RequiredFieldErrors(article, requiredFields)
  {
    errors := [];
    var i := 0;
    while i < |requiredFields|
      invariant 0 <= i <= |requiredFields|
      invariant errors == RequiredFieldErrors(article, requiredFields[..i])
    {
      var field := requiredFields[i];
      var value := FieldValue(article, field);
      if !Truthy(value) || (value.Str? && Trim(value.s) == "") {
        errors := errors + [ComplianceError("required_field", "Required field '" + field + "' is missing or empty", Some(field), value)];
      }
      RequiredFieldErrorsSnoc(article, requiredFields[..i], field);
      assert requiredFields[..i + 1] == requiredFields[..i] + [field];
      i := i + 1;
    }
    assert requiredFields[..i] == requiredFields;
  }

  /** Exactly one `required_field` error per listed field that is falsy or blank, in list
      order, and no other error. */
  lemma RequiredFieldErrorsSpec(article: Article, fields: seq<string>, more: seq<string>)
    ensures forall e :: e in RequiredFieldErrors(article, fields) <==>
      exists i :: 0 <= i < |fields| && IsMissing(FieldValue(article, fields[i])) &&
        e == ComplianceError("required_field", "Required field '" + fields[i] + "' is missing or empty", Some(fields[i]), FieldValue(article, fields[i]))
    ensures RequiredFieldErrors(article, fields) == [] <==> forall i :: 0 <= i < |fields| ==> !IsMissing(FieldValue(article, fields[i]))
    ensures RequiredFieldErrors(article, fields + more) == RequiredFieldErrors(article, fields) + RequiredFieldErrors(article, more)
  {
    var emit := f => MissingFieldError(article, f);
    forall e ensures e in RequiredFieldErrors(article, fields) <==>
      exists i :: 0 <= i < |fields| && IsMissing(FieldValue(article, fields[i])) &&
        e == ComplianceError("required_field", "Required field '" + fields[i] + "' is missing or empty", Some(fields[i]), FieldValue(article, fields[i]))
    {
      KeepMember(fields, emit, e);
    }
    KeepEmpty(fields, emit);
    KeepAppend(fields, more, emit);
  }

  // ---------------------------------------------------------------------------
  // Prohibited content
  // ---------------------------------------------------------------------------

  /** `(article.title + ' ' + article.body).toLowerCase()`. */
  function SearchText(article: Article): string
  {
    ToLower(article.title + " " + article.body)
  }

  function ProhibitedTopicError(content: string, topic: string): Option<ComplianceError>
  {
    if Contains(content, ToLower(topic)) then
      Some(ComplianceError("prohibited_content", "Article contains prohibited topic: '" + topic + "'", Some("content"), Str(topic)))
    else None
  }

  /** The errors `validateProhibitedContent` reports, as a function of its inputs. */
  function ProhibitedContentErrors(article: Article, prohibitedTopics: seq<string>): seq<ComplianceError>
  {
    Keep(prohibitedTopics, t => ProhibitedTopicError(SearchText(article), t))
  }

  /** One more topic contributes its error, if any, at the end. */
  lemma ProhibitedContentErrorsSnoc(article: Article, topics: seq<string>, topic: string)
    ensures ProhibitedContentErrors(article, topics + [topic]) ==
      ProhibitedContentErrors(article, topics)
      + (if Contains(SearchText(article), ToLower(topic)) then
           [ComplianceError("prohibited_content", "Article contains prohibited topic: '" + topic + "'", Some("content"), Str(topic))]
         else [])
  {
    KeepSnoc(topics, topic, t => ProhibitedTopicError(SearchText(article), t));
  }

  /** `validateProhibitedContent`: one pass over the topics, pushing an error for each
      topic whose lower-case form occurs in the lower-cased title and body. */
  method ValidateProhibitedContent(article: Article, prohibitedTopics: seq<string>) returns (errors: seq<ComplianceError>)
    ensures errors == ProhibitedContentErrors(article, prohibitedTopics)
  {
    errors := [];
    var content := ToLower(article.title + " " + article.body);
    var i := 0;
    while i < |prohibitedTopics|
      invariant 0 <= i <= |prohibitedTopics|
      invariant errors == ProhibitedContentErrors(article, prohibitedTopics[..i])
    {
      var topic := prohibitedTopics[i];
      if Contains(content, ToLower(topic)) {
        errors := errors + [ComplianceError("prohibited_content", "Article contains prohibited topic: '" + topic + "'", Some("content"), Str(topic))];
      }
      ProhibitedContentErrorsSnoc(article, prohibitedTopics[..i], topic);
      assert prohibitedTopics[..i + 1] == prohibitedTopics[..i] + [topic];
      i := i + 1;
    }
    assert prohibitedTopics[..i] == prohibitedTopics;
  }

  /** One `prohibited_content` error per topic found, case-insensitively, as a substring
      of title and body; its value is the topic as configured; in list order. */
  lemma ProhibitedContentErrorsSpec(article: Article, topics: seq<string>, more: seq<string>)
    ensures forall e :: e in ProhibitedContentErrors(article, topics) <==>
      exists i :: 0 <= i < |topics| && Contains(SearchText(article), ToLower(topics[i])) &&
        e == ComplianceError("prohibited_content", "Article contains prohibited topic: '" + topics[i] + "'", Some("content"), Str(topics[i]))
    ensures ProhibitedContentErrors(article, topics) == [] <==> forall i :: 0 <= i < |topics| ==> !Contains(SearchText(article), ToLower(topics[i]))
    ensures ProhibitedContentErrors(article, topics + more) == ProhibitedContentErrors(article, topics) + ProhibitedContentErrors(article, more)
  {
    var emit := t => ProhibitedTopicError(SearchText(article), t);
    forall e ensures e in ProhibitedContentErrors(article, topics) <==>
      exists i :: 0 <= i < |topics| && Contains(SearchText(article), ToLower(topics[i])) &&
        e == ComplianceError("prohibited_content", "Article contains prohibited topic: '" + topics[i] + "'", Some("content"), Str(topics[i]))
    {
      KeepMember(topics, emit, e);
    }
    KeepEmpty(topics, emit);
    KeepAppend(topics, more, emit);
  }

  // ---------------------------------------------------------------------------
  // Category and thumbnail
  // ---------------------------------------------------------------------------

  /** `validateCategory`: a case-sensitive, exact membership test. */
  function ValidateCategory(article: Article, allowedCategories: seq<string>): (errors: seq<ComplianceError>)
    ensures |errors| <= 1
    ensures errors == [] <==> article.category in allowedCategories
    ensures errors != [] ==> errors[0].rule == "invalid_category" && errors[0].field == Some("category") && errors[0].value == Str(article.category)
  {
    if article.category !in allowedCategories then
      [ComplianceError("invalid_category",
                       "Category '" + article.category + "' is not allowed. Allowed: " + Join(allowedCategories, ", "),
                       Some("category"), Str(article.category))]
    else []
  }

  /** The thumbnail check of `preValidateArticle`. */
  function ThumbnailErrors(article: Article, guidelines: Guidelines): (errors: seq<ComplianceError>)
    ensures |errors| <= 1
    ensures errors != [] <==> guidelines.thumbnail_required && !TruthyStr(article.thumbnail_url)
    ensures errors != [] ==> errors[0].rule == "thumbnail_required" && errors[0].field == Some("thumbnail") && errors[0].value == Null
  {
    if guidelines.thumbnail_required && !TruthyStr(article.thumbnail_url) then
      [ComplianceError("thumbnail_required", "Thumbnail is required for this feed", Some("thumbnail"), Null)]
    else []
  }

  // ---------------------------------------------------------------------------
  // Pre-validation
  // ---------------------------------------------------------------------------

  /** The errors of `preValidateArticle`, in the order the checks run. The list checks
      run only when their list is present. */
  function PreValidationErrors(article: Article, g: Guidelines): seq<ComplianceError>
  {
    ValidateTitleLength(article, g.title_min_length, g.title_max_length)
    + ValidateArticleLength(article, g.body_min_length, g.body_max_length)
    + (if g.required_fields.Some? then RequiredFieldErrors(article, g.required_fields.value) else [])
    + (if g.prohibited_topics.Some? then ProhibitedContentErrors(article, g.prohibited_topics.value) else [])
    + (if g.allowed_categories.Some? then ValidateCategory(article, g.allowed_categories.value) else [])
    + ThumbnailErrors(article, g)
  }

  /** The verdict `preValidateArticle` returns: it passes when there is no error, and it
      never carries warnings. */
  function PreValidation(article: Article, g: Guidelines, auditLogId: string): ComplianceResult
  {
    var errors := PreValidationErrors(article, g);
    ComplianceResult(|errors| == 0, errors, [], auditLogId)
  }

  /** `preValidateArticle`: runs the checks in the order title, body, required fields,
      prohibited content, category, thumbnail and appends their errors. The audit id,
      which the source builds from the clock and a random number, is a parameter. */
  method PreValidateArticle(article: Article, feed: FeedConfig, auditLogId: string) returns (result: ComplianceResult)
    ensures result == PreValidation(article, feed.guidelines, auditLogId)
    ensures result.passed <==> result.errors == []
    ensures result.warnings == []
  {
    var g := feed.guidelines;
    var title := ValidateTitleLength(article, g.title_min_length, g.title_max_length);
    var body := ValidateArticleLength(article, g.body_min_length, g.body_max_length);
    var required: seq<ComplianceError> := [];
    if g.required_fields.Some? {
      required := ValidateRequiredFields(article, g.required_fields.value);
    }
    var prohibited: seq<ComplianceError> := [];
    if g.prohibited_topics.Some? {
      prohibited := ValidateProhibitedContent(article, g.prohibited_topics.value);
    }
    var category: seq<ComplianceError> := [];
    if g.allowed_categories.Some? {
      category := ValidateCategory(article, g.allowed_categories.value);
    }
    var errors := title + body + required + prohibited + category + ThumbnailErrors(article, g);
    result := ComplianceResult(|errors| == 0, errors, [], auditLogId);
  }

  /** The pre-check passes exactly when every configured constraint holds: bounds that
      are set and non-zero, every listed required field present, no listed topic found,
      the category allowed when a list is given, a thumbnail URL when one is required. */
  lemma PreValidationPassesIff(article: Article, g: Guidelines, auditLogId: string)
    ensures PreValidation(article, g, auditLogId).passed <==>
      && !BelowMin(|article.title|, g.title_min_length) && !AboveMax(|article.title|, g.title_max_length)
      && !BelowMin(|article.body|, g.body_min_length) && !AboveMax(|article.body|, g.body_max_length)
      && (g.required_fields.Some? ==>
            forall i :: 0 <= i < |g.required_fields.value| ==> !IsMissing(FieldValue(article, g.required_fields.value[i])))
      && (g.prohibited_topics.Some? ==>
            forall i :: 0 <= i < |g.prohibited_topics.value| ==> !Contains(SearchText(article), ToLower(g.prohibited_topics.value[i])))
      && (g.allowed_categories.Some? ==> article.category in g.allowed_categories.value)
      && (g.thumbnail_required ==> TruthyStr(article.thumbnail_url))
  {
    if g.required_fields.Some? {
      RequiredFieldErrorsSpec(article, g.required_fields.value, []);
    }
    if g.prohibited_topics.Some? {
      ProhibitedContentErrorsSpec(article, g.prohibited_topics.value, []);
    }
  }

  /** A title one character over a maximum of 100 gives exactly one error, the
      `title_max_length` one, with the actual length as its value. */
  lemma TitleOverMaximumScenario(g: Guidelines, article: Article)
    requires g == EmptyGuidelines.(title_max_length := Some(100))
    requires |article.title| == 101
    ensures !PreValidation(article, g, "").passed
    ensures |PreValidation(article, g, "").errors| == 1
    ensures PreValidation(article, g, "").errors[0].rule == "title_max_length"
    ensures PreValidation(article, g, "").errors[0].value == Num(101)
  {
  }

  /** A field holding a string with no white space at either end is not missing. */
  lemma TrimmedFieldPresent(article: Article, field: string)
    requires FieldValue(article, field).Str? && Trimmed(FieldValue(article, field).s)
    ensures MissingFieldError(article, field) == None
  {
    TrimOfTrimmed(FieldValue(article, field).s);
  }

  /** With `[author, category]` required, an empty author is reported and a present
      category is not. */
  lemma EmptyAuthorScenario(g: Guidelines, article: Article)
    requires g == EmptyGuidelines.(required_fields := Some(["author", "category"]))
    requires article.author == "" && article.category == "news"
    ensures PreValidation(article, g, "").errors ==
      [ComplianceError("required_field", "Required field 'author' is missing or empty", Some("author"), Str(""))]
  {
    EmptyAuthorRequiredErrors(article);
    assert ValidateTitleLength(article, None, None) == [];
    assert ValidateArticleLength(article, None, None) == [];
    assert ThumbnailErrors(article, g) == [];
  }

  lemma EmptyAuthorError(article: Article)
    requires article.author == ""
    ensures MissingFieldError(article, "author") ==
      Some(ComplianceError("required_field", "Required field 'author' is missing or empty", Some("author"), Str("")))
  {
    assert "Required field '" + "author" + "' is missing or empty" == "Required field 'author' is missing or empty";
  }

  lemma EmptyAuthorRequiredErrors(article: Article)
    requires article.author == "" && article.category == "news"
    ensures RequiredFieldErrors(article, ["author", "category"]) ==
      [ComplianceError("required_field", "Required field 'author' is missing or empty", Some("author"), Str(""))]
  {
    TrimmedFieldPresent(article, "category");
    EmptyAuthorError(article);
    RequiredFieldErrorsSnoc(article, [], "author");
    assert [] + ["author"] == ["author"];
    RequiredFieldErrorsSnoc(article, ["author"], "category");
    assert ["author"] + ["category"] == ["author", "category"];
  }

  /** The pre-check reads the top-level guidelines only: whatever `api_specifications`
      holds (where the feed form puts its terms), the verdict is the same. */
  lemma ApiSpecificationTermsIgnored(article: Article, g: Guidelines, spec: ApiSpecifications?, auditLogId: string)
    ensures PreValidation(article, g.(api_specifications := spec), auditLogId) == PreValidation(article, g, auditLogId)
  {
  }

  /** So a feed whose only guidelines are its specifications passes every article. */
  lemma ApiSpecificationsAloneAlwaysPass(article: Article, spec: ApiSpecifications?)
    ensures PreValidation(article, EmptyGuidelines.(api_specifications := spec), "").passed
  {
    ApiSpecificationTermsIgnored(article, EmptyGuidelines, spec, "");
  }

  // ---------------------------------------------------------------------------
  // Verdict cache
  // ---------------------------------------------------------------------------

  /** The key `${articleId}-${feedId}`. */
  function CacheKey(articleId: int, feedId: int): string
  {
    IntToString(articleId) + "-" + IntToString(feedId)
  }

  /** Distinct (article, feed) pairs have distinct keys, so one pair's entry never
      overwrites another's. */
  lemma CacheKeyInjective(a1: int, f1: int, a2: int, f2: int)
    requires CacheKey(a1, f1) == CacheKey(a2, f2)
    ensures a1 == a2 && f1 == f2
  {
    var s1, s2 := IntToString(a1), IntToString(a2);
    var k := CacheKey(a1, f1);
    assert k[|s1|] == '-';
    assert CacheKey(a2, f2)[|s2|] == '-';
    assert |s1| == |s2|;
    assert s1 == k[..|s1|] == s2;
    assert IntToString(f1) == k[|s1| + 1..] == IntToString(f2);
    IntToStringInjective(a1, a2);
    IntToStringInjective(f1, f2);
  }

  /** The service's state: the cache map, and the current value of the observable
      snapshot that the service publishes after every write. */
  class ComplianceService {
    var complianceCache: map<string, ComplianceResult>
    var complianceResults: map<string, ComplianceResult>

    constructor ()
      ensures complianceCache == map[] && complianceResults == map[]
      ensures forall a, f :: GetCachedComplianceResult(a, f) == None
    {
      complianceCache := map[];
      complianceResults := map[];
    }

    /** `getCachedComplianceResult`: the cached verdict, `None` for `null`. */
    function GetCachedComplianceResult(articleId: int, feedId: int): Option<ComplianceResult>
      reads this
    {
      var key := CacheKey(articleId, feedId);
      if key in complianceCache then Some(complianceCache[key]) else None
    }

    /** `cacheComplianceResult`: stores the verdict under the pair's key and publishes a
        snapshot with that key added. */
    method CacheComplianceResult(articleId: int, feedId: int, result: ComplianceResult)
      modifies this
      ensures complianceCache == old(complianceCache)[CacheKey(articleId, feedId) := result]
      ensures complianceResults == old(complianceResults)[CacheKey(articleId, feedId) := result]
      ensures GetCachedComplianceResult(articleId, feedId) == Some(result)
      ensures forall a, f :: (a != articleId || f != feedId) ==>
        GetCachedComplianceResult(a, f) == old(GetCachedComplianceResult(a, f))
    {
      var key := CacheKey(articleId, feedId);
      complianceCache := complianceCache[key := result];
      complianceResults := complianceResults[key := result];
      forall a, f | a != articleId || f != feedId
        ensures GetCachedComplianceResult(a, f) == old(GetCachedComplianceResult(a, f))
      {
        if CacheKey(a, f) == key {
          CacheKeyInjective(a, f, articleId, feedId);
        }
      }
    }
  }
}
