/** The records the screens and services exchange (the TypeScript interfaces of the
    article, feed and compliance models). Field names follow the JSON keys the backend
    uses, so that they read as in the stored data. */
module Models {
  import opened Js

  /** An article. `metadata` is free-form; an absent optional key is `None`. */
  datatype Article = Article(
    id: Option<int>,
    title: string,
    body: string,
    author: string,
    category: string,
    thumbnail_url: Option<string>,
    metadata: JsValue,
    created_at: Option<string>,
    updated_at: Option<string>)

  /** One violation: the rule that fired, a message, the field it is about and the
      offending value. */
  datatype ComplianceError = ComplianceError(rule: string, message: string, field: Option<string>, value: JsValue)

  /** One advisory. */
  datatype ComplianceWarning = ComplianceWarning(rule: string, message: string, field: Option<string>)

  /** A verdict for one (article, feed) pair. */
  datatype ComplianceResult = ComplianceResult(
    passed: bool,
    errors: seq<ComplianceError>,
    warnings: seq<ComplianceWarning>,
    audit_log_id: string)

  /** The `api_specifications` object inside a feed's guidelines. It is an object in the
      heap, not a value: the feed form shares it between the feed being edited and the
      listed feed, and changes it in place. `others` are the keys the form never touches. */
  class ApiSpecifications {
    var prohibited_terms: Option<seq<string>>
    var required_fields: Option<seq<string>>
    var allowed_categories: Option<seq<string>>
    var title_min_length: Option<int>
    var title_max_length: Option<int>
    var content_min_length: Option<int>
    var content_max_length: Option<int>
    var others: map<string, JsValue>

    /** `{}`: an object with none of the keys. */
    constructor ()
      ensures prohibited_terms == None && required_fields == None && allowed_categories == None
      ensures title_min_length == None && title_max_length == None
      ensures content_min_length == None && content_max_length == None
      ensures others == map[]
    {
      prohibited_terms, required_fields, allowed_categories := None, None, None;
      title_min_length, title_max_length := None, None;
      content_min_length, content_max_length := None, None;
      others := map[];
    }
  }

  /** A feed's publishing guidelines. `None` stands for an absent key or `null`;
      `api_specifications` is `null` when the key is absent. */
  datatype Guidelines = Guidelines(
    title_min_length: Option<int>,
    title_max_length: Option<int>,
    body_min_length: Option<int>,
    body_max_length: Option<int>,
    required_fields: Option<seq<string>>,
    prohibited_topics: Option<seq<string>>,
    allowed_categories: Option<seq<string>>,
    thumbnail_required: bool,
    api_specifications: ApiSpecifications?)

  /** `{}` as guidelines. */
  const EmptyGuidelines: Guidelines := Guidelines(None, None, None, None, None, None, None, false, null)

  /** A distribution feed. */
  datatype FeedConfig = FeedConfig(
    id: Option<int>,
    name: string,
    feed_type: string,
    guidelines: Guidelines,
    is_active: bool)

  /** Publishing statistics of one feed. */
  datatype FeedStats = FeedStats(
    total_published: int,
    success_rate: real,
    last_24h_published: int,
    last_24h_failed: int)

  datatype Severity = ErrorSeverity | WarningSeverity

  /** A user-authored compliance rule; `configuration` depends on `validator_type`. */
  datatype ComplianceRule = ComplianceRule(
    id: Option<int>,
    name: string,
    description: string,
    feed_id: int,
    validator_type: string,
    configuration: JsValue,
    is_active: bool,
    severity: Severity)
}
