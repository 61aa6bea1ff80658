/** The fixed per-brand compliance profiles (`ComplianceValidators`): MSN, Google News
    and Apple News, each with hard-coded thresholds, and the dispatcher that picks one by
    feed type. */
module BrandValidators {
  import opened Js
  import opened Text
  import opened Seqs
  import opened Models

  /** The fields of the untyped article the profiles read. `title` and `body` are
      strings (their `.length` is read unguarded); `None` is `undefined` or `null`. The
      profiles read a `thumbnail` key, which the article record does not have (it has
      `thumbnail_url`). */
  datatype BrandArticle = BrandArticle(
    title: string,
    body: string,
    author: Option<string>,
    category: Option<string>,
    thumbnail: Option<string>)

  /** `{ passed, errors, warnings }` of one profile. */
  datatype ProfileResult = ProfileResult(passed: bool, errors: seq<string>, warnings: seq<string>)

  /** An article record as the profiles see it: there is no `thumbnail` key. */
  function FromArticle(article: Article): BrandArticle
  {
    BrandArticle(article.title, article.body, Some(article.author), Some(article.category), None)
  }

  /** `(article.title + ' ' + article.body).toLowerCase()`. */
  function BrandContent(article: BrandArticle): string
  {
    ToLower(article.title + " " + article.body)
  }

  // ---------------------------------------------------------------------------
  // MSN
  // ---------------------------------------------------------------------------

  const MsnKeywords: seq<string> := ["gambling", "adult content", "violence"]
  const MsnRequiredFields: seq<string> := ["author", "category"]

  /** `article[field]` for the two fields MSN requires. */
  function FieldOf(article: BrandArticle, field: string): Option<string>
  {
    if field == "author" then article.author
    else if field == "category" then article.category
    else None
  }

  function KeywordError(content: string, keyword: string): Option<string>
  {
    if Contains(content, keyword) then Some("Article contains prohibited content: " + keyword) else None
  }

  /** `!article[field] || article[field].trim() === ''`. */
  predicate BlankField(value: Option<string>)
  {
    !TruthyStr(value) || Trim(value.value) == ""
  }

  function MissingFieldMessage(article: BrandArticle, field: string): Option<string>
  {
    if BlankField(FieldOf(article, field)) then Some("Required field missing: " + field) else None
  }

  /** The MSN threshold errors, in the order the checks run. */
  function MsnLimitErrors(article: BrandArticle): seq<string>
  {
    (if |article.title| > 100 then ["MSN title cannot exceed 100 characters"] else [])
    + (if |article.body| < 300 then ["MSN articles must be at least 300 characters"] else [])
    + (if !TruthyStr(article.thumbnail) then ["MSN requires a thumbnail image"] else [])
  }

  /** One message per keyword contained in `content`, in list order. */
  function KeywordErrors(content: string, keywords: seq<string>): seq<string>
  {
    Keep(keywords, kw => KeywordError(content, kw))
  }

  /** One message per blank field, in list order. */
  function FieldErrors(article: BrandArticle, fields: seq<string>): seq<string>
  {
    Keep(fields, f => MissingFieldMessage(article, f))
  }

  function MsnKeywordErrors(article: BrandArticle): seq<string>
  {
    KeywordErrors(BrandContent(article), MsnKeywords)
  }

  function MsnFieldErrors(article: BrandArticle): seq<string>
  {
    FieldErrors(article, MsnRequiredFields)
  }

  /** The result of `validateMSNCompliance`, as a function of the article. */
  function Msn(article: BrandArticle): ProfileResult
  {
    var errors := MsnLimitErrors(article) + MsnKeywordErrors(article) + MsnFieldErrors(article);
    var warnings := if |article.body| > 5000 then ["MSN prefers articles under 5000 characters"] else [];
    ProfileResult(|errors| == 0, errors, warnings)
  }

  /** One more keyword contributes its message, if any, at the end. */
  lemma KeywordErrorsSnoc(content: string, keywords: seq<string>, keyword: string)
    ensures KeywordErrors(content, keywords + [keyword]) ==
      KeywordErrors(content, keywords) + (if Contains(content, keyword) then ["Article contains prohibited content: " + keyword] else [])
  {
    KeepSnoc(keywords, keyword, kw => KeywordError(content, kw));
  }

  /** One more field contributes its message, if any, at the end. */
  lemma FieldErrorsSnoc(article: BrandArticle, fields: seq<string>, field: string)
    ensures FieldErrors(article, fields + [field]) ==
      FieldErrors(article, fields) + (if BlankField(FieldOf(article, field)) then ["Required field missing: " + field] else [])
  {
    KeepSnoc(fields, field, f => MissingFieldMessage(article, f));
  }

  /** The keyword loop of `validateMSNCompliance`: one message per keyword contained in
      `content`, in list order. */
  method CollectKeywordErrors(content: string, keywords: seq<string>) returns (errors: seq<string>)
    ensures errors == KeywordErrors(content, keywords)
  {
    errors := [];
    var i := 0;
    while i < |keywords|
      invariant 0 <= i <= |keywords|
      invariant errors == KeywordErrors(content, keywords[..i])
    {
      var keyword := keywords[i];
      if Contains(content, keyword) {
        errors := errors + ["Article contains prohibited content: " + keyword];
      }
      KeywordErrorsSnoc(content, keywords[..i], keyword);
      assert keywords[..i + 1] == keywords[..i] + [keyword];
      i := i + 1;
    }
    assert keywords[..i] == keywords;
  }

  /** The required-field loop of `validateMSNCompliance`: one message per blank field, in
      list order. */
  method CollectMissingFields(article: BrandArticle, fields: seq<string>) returns (errors: seq<string>)
    ensures errors == FieldErrors(article, fields)
  {
    errors := [];
    var j := 0;
    while j < |fields|
      invariant 0 <= j <= |fields|
      invariant errors == FieldErrors(article, fields[..j])
    {
      var field := fields[j];
      if BlankField(FieldOf(article, field)) {
        errors := errors + ["Required field missing: " + field];
      }
      FieldErrorsSnoc(article, fields[..j], field);
      assert fields[..j + 1] == fields[..j] + [field];
      j := j + 1;
    }
    assert fields[..j] == fields;
  }

  /** `validateMSNCompliance`: the threshold checks, then one pass over the keywords and
      one over the required fields. */
  method ValidateMsnCompliance(article: BrandArticle) returns (result: ProfileResult)
    ensures result == Msn(article)
  {
    var errors: seq<string> := [];
    var warnings: seq<string> := [];
    if |article.title| > 100 {
      errors := errors + ["MSN title cannot exceed 100 characters"];
    }
    if |article.body| < 300 {
      errors := errors + ["MSN articles must be at least 300 characters"];
    }
    if |article.body| > 5000 {
      warnings := warnings + ["MSN prefers articles under 5000 characters"];
    }
    if !TruthyStr(article.thumbnail) {
      errors := errors + ["MSN requires a thumbnail image"];
    }
    assert errors == MsnLimitErrors(article);
    var keywordErrors := CollectKeywordErrors(ToLower(article.title + " " + article.body), MsnKeywords);
    assert keywordErrors == MsnKeywordErrors(article);
    var fieldErrors := CollectMissingFields(article, MsnRequiredFields);
    assert fieldErrors == MsnFieldErrors(article);
    errors := errors + keywordErrors + fieldErrors;
    result := ProfileResult(|errors| == 0, errors, warnings);
  }

  /** The keyword errors come in the fixed order gambling, adult content, violence, one
      for each keyword found in the lower-cased title and body. */
  lemma MsnKeywordOrder(article: BrandArticle)
    ensures MsnKeywordErrors(article) ==
      Emitted(KeywordError(BrandContent(article), "gambling"))
      + Emitted(KeywordError(BrandContent(article), "adult content"))
      + Emitted(KeywordError(BrandContent(article), "violence"))
  {
    var emit := kw => KeywordError(BrandContent(article), kw);
    assert MsnKeywordErrors(article) == Keep(MsnKeywords, emit);
    assert MsnKeywords == [] + ["gambling"] + ["adult content"] + ["violence"];
    KeepSnoc([], "gambling", emit);
    KeepSnoc(["gambling"], "adult content", emit);
    assert [] + ["gambling"] == ["gambling"];
    assert ["gambling"] + ["adult content"] == ["gambling", "adult content"];
    KeepSnoc(["gambling", "adult content"], "violence", emit);
  }

  /** The field errors: author first, then category, each when blank. */
  lemma MsnFieldOrder(article: BrandArticle)
    ensures MsnFieldErrors(article) ==
      (if BlankField(article.author) then ["Required field missing: author"] else [])
      + (if BlankField(article.category) then ["Required field missing: category"] else [])
  {
    var emit := f => MissingFieldMessage(article, f);
    assert MsnFieldErrors(article) == Keep(MsnRequiredFields, emit);
    assert "Required field missing: " + "author" == "Required field missing: author";
    assert "Required field missing: " + "category" == "Required field missing: category";
    assert emit("author") == if BlankField(article.author) then Some("Required field missing: author") else None;
    assert emit("category") == if BlankField(article.category) then Some("Required field missing: category") else None;
    KeepSnoc([], "author", emit);
    assert [] + ["author"] == ["author"];
    KeepSnoc(["author"], "category", emit);
    assert ["author"] + ["category"] == MsnRequiredFields;
  }

  /** MSN passes exactly when the title is at most 100 characters, the body at least
      300, there is a thumbnail, no keyword occurs and author and category are given;
      a body over 5000 characters only warns. */
  lemma MsnPassesIff(article: BrandArticle)
    ensures Msn(article).passed <==>
      && |article.title| <= 100 && |article.body| >= 300 && TruthyStr(article.thumbnail)
      && !Contains(BrandContent(article), "gambling")
      && !Contains(BrandContent(article), "adult content")
      && !Contains(BrandContent(article), "violence")
      && !BlankField(article.author) && !BlankField(article.category)
    ensures Msn(article).warnings != [] <==> |article.body| > 5000
    ensures Msn(article).passed <==> Msn(article).errors == []
  {
    MsnKeywordOrder(article);
    MsnFieldOrder(article);
  }

  // ---------------------------------------------------------------------------
  // Google News
  // ---------------------------------------------------------------------------

  /** The clickbait regular expressions, all literal phrases with the `i` flag. */
  const ClickbaitPatterns: seq<string> := ["you won't believe", "shocking", "this will blow your mind"]

  const ClickbaitWarning: string := "Title may be considered clickbait by Google News"

  /** `pattern.test(title)` for a literal pattern matched without regard to case. */
  function ClickbaitMatch(title: string, pattern: string): Option<string>
  {
    if Contains(ToLower(title), pattern) then Some(ClickbaitWarning) else None
  }

  function GoogleErrors(article: BrandArticle): seq<string>
  {
    (if |article.title| > 110 then ["Google News title cannot exceed 110 characters"] else [])
    + (if |article.body| < 200 then ["Google News articles must be at least 200 characters"] else [])
    + (if !TruthyStr(article.author) then ["Google News requires author attribution"] else [])
  }

  /** One warning per pattern found in `title`, in list order. */
  function ClickbaitWarnings(title: string, patterns: seq<string>): seq<string>
  {
    Keep(patterns, p => ClickbaitMatch(title, p))
  }

  /** One more pattern contributes its warning, if any, at the end. */
  lemma ClickbaitWarningsSnoc(title: string, patterns: seq<string>, pattern: string)
    ensures ClickbaitWarnings(title, patterns + [pattern]) ==
      ClickbaitWarnings(title, patterns) + (if Contains(ToLower(title), pattern) then [ClickbaitWarning] else [])
  {
    KeepSnoc(patterns, pattern, p => ClickbaitMatch(title, p));
  }

  function GoogleWarnings(article: BrandArticle): seq<string>
  {
    ClickbaitWarnings(article.title, ClickbaitPatterns)
  }

  /** The result of `validateGoogleNewsCompliance`, as a function of the article. */
  function Google(article: BrandArticle): ProfileResult
  {
    var errors := GoogleErrors(article);
    ProfileResult(|errors| == 0, errors, GoogleWarnings(article))
  }

  /** `validateGoogleNewsCompliance`: the threshold checks, then one pass over the
      clickbait patterns. */
  method ValidateGoogleNewsCompliance(article: BrandArticle) returns (result: ProfileResult)
    ensures result == Google(article)
  {
    var errors: seq<string> := [];
    var warnings: seq<string> := [];
    if |article.title| > 110 {
      errors := errors + ["Google News title cannot exceed 110 characters"];
    }
    if |article.body| < 200 {
      errors := errors + ["Google News articles must be at least 200 characters"];
    }
    if !TruthyStr(article.author) {
      errors := errors + ["Google News requires author attribution"];
    }
    assert errors == GoogleErrors(article);
    var i := 0;
    while i < |ClickbaitPatterns|
      invariant 0 <= i <= |ClickbaitPatterns|
      invariant warnings == ClickbaitWarnings(article.title, ClickbaitPatterns[..i])
    {
      var pattern := ClickbaitPatterns[i];
      if Contains(ToLower(article.title), pattern) {
        warnings := warnings + [ClickbaitWarning];
      }
      ClickbaitWarningsSnoc(article.title, ClickbaitPatterns[..i], pattern);
      assert ClickbaitPatterns[..i + 1] == ClickbaitPatterns[..i] + [pattern];
      i := i + 1;
    }
    assert ClickbaitPatterns[..i] == ClickbaitPatterns;
    result := ProfileResult(|errors| == 0, errors, warnings);
  }

  /** One identical warning per clickbait phrase found in the title, so zero to three;
      clickbait never makes the profile fail. */
  lemma GoogleClickbaitWarnings(article: BrandArticle)
    ensures |Google(article).warnings| ==
      (if Contains(ToLower(article.title), "you won't believe") then 1 else 0)
      + (if Contains(ToLower(article.title), "shocking") then 1 else 0)
      + (if Contains(ToLower(article.title), "this will blow your mind") then 1 else 0)
    ensures forall w :: w in Google(article).warnings ==> w == ClickbaitWarning
    ensures Google(article).passed <==> Google(article).errors == []
  {
    ClickbaitWarningsSnoc(article.title, [], "you won't believe");
    assert [] + ["you won't believe"] == ["you won't believe"];
    ClickbaitWarningsSnoc(article.title, ["you won't believe"], "shocking");
    assert ["you won't believe"] + ["shocking"] == ["you won't believe", "shocking"];
    ClickbaitWarningsSnoc(article.title, ["you won't believe", "shocking"], "this will blow your mind");
    assert ["you won't believe", "shocking"] + ["this will blow your mind"] == ClickbaitPatterns;
  }

  /** Google News passes exactly when the title is at most 110 characters, the body at
      least 200 and an author is given; an author of white space only counts as given. */
  lemma GooglePassesIff(article: BrandArticle)
    ensures Google(article).passed <==>
      |article.title| <= 110 && |article.body| >= 200 && TruthyStr(article.author)
    ensures article.author == Some(" ") ==> "Google News requires author attribution" !in Google(article).errors
  {
  }

  // ---------------------------------------------------------------------------
  // Apple News
  // ---------------------------------------------------------------------------

  const ApplePreferredCategories: seq<string> := ["technology", "business", "entertainment", "sports", "health"]

  /** `preferredCategories.includes(article.category?.toLowerCase())`; an absent
      category is `undefined`, which is not in the list. */
  predicate PreferredCategory(category: Option<string>)
  {
    category.Some? && ToLower(category.value) in ApplePreferredCategories
  }

  function AppleErrors(article: BrandArticle): seq<string>
  {
    (if |article.title| > 120 then ["Apple News title cannot exceed 120 characters"] else [])
    + (if !TruthyStr(article.thumbnail) then ["Apple News requires high-quality images"] else [])
    + (if |article.body| < 250 then ["Apple News articles should be at least 250 characters"] else [])
  }

  /** `validateAppleNewsCompliance`. */
  function Apple(article: BrandArticle): (result: ProfileResult)
    ensures result.passed <==> |article.title| <= 120 && TruthyStr(article.thumbnail) && |article.body| >= 250
    ensures result.passed <==> result.errors == []
    ensures result.warnings == [] <==> PreferredCategory(article.category)
    ensures |result.warnings| <= 1
  {
    var errors := AppleErrors(article);
    var warnings := if !PreferredCategory(article.category) then ["Category may not be optimal for Apple News distribution"] else [];
    ProfileResult(|errors| == 0, errors, warnings)
  }

  // ---------------------------------------------------------------------------
  // Dispatcher
  // ---------------------------------------------------------------------------

  /** The always-pass validator for unknown feed types. */
  function PassAll(article: BrandArticle): ProfileResult
  {
    ProfileResult(true, [], [])
  }

  /** `getValidatorForFeed`: the profile for the lower-cased feed type, or a validator
      that always passes. */
  function GetValidatorForFeed(feedType: string): (validator: BrandArticle -> ProfileResult)
    ensures ToLower(feedType) == "msn" ==> forall a :: validator(a) == Msn(a)
    ensures ToLower(feedType) == "google news" ==> forall a :: validator(a) == Google(a)
    ensures ToLower(feedType) == "apple news" ==> forall a :: validator(a) == Apple(a)
    ensures ToLower(feedType) !in {"msn", "google news", "apple news"} ==>
      forall a :: validator(a) == ProfileResult(true, [], [])
  {
    var key := ToLower(feedType);
    if key == "msn" then Msn
    else if key == "google news" then Google
    else if key == "apple news" then Apple
    else PassAll
  }

  /** The feed type is matched without regard to case. */
  lemma DispatchIgnoresCase(article: BrandArticle)
    ensures GetValidatorForFeed("MSN")(article) == Msn(article)
    ensures GetValidatorForFeed("Google News")(article) == Google(article)
    ensures GetValidatorForFeed("APPLE NEWS")(article) == Apple(article)
  {
    assert ToLower("MSN") == "msn";
    assert ToLower("Google News") == "google news";
    assert ToLower("APPLE NEWS") == "apple news";
  }

  /** An article record has no `thumbnail` key, so MSN and Apple News always reject it,
      whatever its `thumbnail_url`. */
  lemma ArticleRecordLacksThumbnail(article: Article)
    ensures "MSN requires a thumbnail image" in Msn(FromArticle(article)).errors
    ensures "Apple News requires high-quality images" in Apple(FromArticle(article)).errors
    ensures !Msn(FromArticle(article)).passed && !Apple(FromArticle(article)).passed
  {
    var b := FromArticle(article);
    assert MsnLimitErrors(b)[|MsnLimitErrors(b)| - 1] == "MSN requires a thumbnail image";
    assert Msn(b).errors[|MsnLimitErrors(b)| - 1] == "MSN requires a thumbnail image";
  }
}
