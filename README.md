# Content-compliance front end, modelled in Dafny

This project models the decision logic of an Angular front end for a
publishing platform. Editors write articles (title, body, author, category,
thumbnail), configure distribution feeds with publishing guidelines, and
author compliance rules. Before an article is published, its compliance is
checked against a feed.

The model covers:

- **Client-side pre-check** (`Compliance`, from `compliance.service.ts`). It
  has the length, required-field, prohibited-content, category and thumbnail
  validators. `PreValidateArticle` concatenates their errors into a verdict that
  passes exactly when there is no error. The verdict cache is keyed by
  (article id, feed id).
- **Per-brand profiles** (`BrandValidators`, from `compliance-validators.ts`).
  MSN, Google News and Apple News each have fixed thresholds, keyword,
  clickbait and category heuristics. A case-insensitive dispatcher falls back
  to an always-pass validator for other feed types.
- **Rule form** (`RuleEditor`, from `ompliance.component.ts`). It maps between
  the form helpers and the stored configuration of each validator type. The
  model includes the resets and the list updates applied to the backend's
  answers.
- **Feed form** (`FeedEditor`, from `feeds.component.ts`). It maps the
  guideline form into the `api_specifications` object and back. The
  specifications object is a heap object shared between the edited feed and the
  listed feed, so the model states that aliasing. It also covers deletion and
  the status toggle.
- **Comma-separated lists** (`CommaList`). Both forms read a list with
  split/trim/filter and show it again with `join(', ')`. The model proves that
  this round trip gives back any list of clean items.
- **Article screen** (`ArticleScreen`, from `articles.component.ts`). It
  normalises the backend's compliance answer into errors and warnings, builds
  publish requests from the feed selection, classifies multi-feed publish
  outcomes, and enforces page bounds.
- **Audit log** (`Audit`), **notification list** (`Notifications`) and
  **HTTP-error message selection** (`Errors`).

Supporting modules: `Js` (JavaScript values and truthiness), `Text` (ASCII
lower-casing, `trim`, `includes`, `split`, `join`, integer rendering), `Seqs`
(`filter`/`map`/`forEach`-and-`push`, `findIndex`, the ascending key order of
`Object.entries`) and `Models` (the TypeScript interfaces as datatypes).

In these places the model follows the code as written, including behaviour its
authors may not have meant:

- A negative length bound is truthy in JavaScript, so the check fires.
  `Compliance.LengthErrors` keeps that behaviour; it does not treat the bound
  as absent.
- The front end has no rule dispatcher, no override resolution between
  `api_specifications` and the top-level guidelines, no batch evaluator and no
  metadata fallback for required fields. None of these is modelled.
- `preValidateArticle` reads the top-level `guidelines.prohibited_topics`, but
  the feed form writes `guidelines.api_specifications.prohibited_terms`. The
  mismatch is kept: see `Compliance.ApiSpecificationTermsIgnored`.
- The brand profiles read `article.thumbnail`, but the article record has
  `thumbnail_url`. So MSN and Apple News would reject any record shaped like the
  `Article` interface; no caller in the shown source passes one to them: see
  `BrandValidators.ArticleRecordLacksThumbnail`.

## Model

| member | source | states |
|---|---|---|
| `Compliance.ValidateArticleLength` | src/app/services/compliance.service.ts:19-41 | one `body_min_length` error iff a truthy minimum exceeds the body length, one `body_max_length` error iff the length exceeds a truthy maximum, min before max, each on field `body` with the length as value; two errors only when min > max |
| `Compliance.ValidateTitleLength` | src/app/services/compliance.service.ts:43-65 | the same for the title, with rules `title_min_length`/`title_max_length` and field `title`; a bound of 0 or absent is skipped |
| `Compliance.ValidateRequiredFields` | src/app/services/compliance.service.ts:67-83 | the `forEach`/`push` loop computes the required-field error list of its inputs |
| `Compliance.RequiredFieldErrorsSpec` | src/app/services/compliance.service.ts:67-83 | an error is reported iff it is the `required_field` error of a listed field whose value is falsy or blank; none iff every listed field is present; the list order is kept (errors distribute over concatenation) |
| `Compliance.ValidateProhibitedContent` | src/app/services/compliance.service.ts:85-101 | the loop computes the prohibited-content error list of its inputs |
| `Compliance.ProhibitedContentErrorsSpec` | src/app/services/compliance.service.ts:85-101 | one `prohibited_content` error per topic whose lower-case form is a substring of lower-case(title + ' ' + body), valued with the topic as configured, in list order; none iff no topic matches |
| `Compliance.ValidateCategory` | src/app/services/compliance.service.ts:103-116 | exactly one `invalid_category` error iff the category is not an exact, case-sensitive member of the allowed list |
| `Compliance.ThumbnailErrors` | src/app/services/compliance.service.ts:152-160 | one `thumbnail_required` error iff a thumbnail is required and `thumbnail_url` is falsy |
| `Compliance.PreValidateArticle` | src/app/services/compliance.service.ts:119-167 | errors are concatenated in the order title, body, required, prohibited, category, thumbnail; absent lists are skipped; warnings are empty; `passed` iff errors is empty |
| `Compliance.PreValidationPassesIff` | src/app/services/compliance.service.ts:119-167 | the pre-check passes iff every configured constraint holds |
| `Compliance.TitleOverMaximumScenario` | src/app/services/compliance.service.ts:55-62 | a 101-character title against a maximum of 100 fails with exactly one `title_max_length` error valued 101 |
| `Compliance.EmptyAuthorScenario` | src/app/services/compliance.service.ts:67-83 | with `[author, category]` required, an empty author gives exactly one `required_field` error on `author` |
| `Compliance.ApiSpecificationTermsIgnored` | src/app/services/compliance.service.ts:119-167 | whatever `api_specifications` holds, the pre-check's verdict is the same: terms stored there are never checked |
| `Compliance.ApiSpecificationsAloneAlwaysPass` | src/app/services/compliance.service.ts:142-145 | a feed whose only guidelines are its `api_specifications` passes every article |
| `Compliance.CacheKeyInjective` | src/app/services/compliance.service.ts:171 | distinct (article, feed) pairs have distinct `${a}-${f}` keys |
| `Compliance.ComplianceService.constructor` | src/app/services/compliance.service.ts:11-12 | a fresh cache answers `null` for every pair |
| `Compliance.ComplianceService.CacheComplianceResult` | src/app/services/compliance.service.ts:170-184 | afterwards looking up (a, f) gives the result, every other pair is unchanged, and the snapshot gains the key and keeps its other entries |
| `BrandValidators.CollectKeywordErrors` | src/app/services/compliance-validators.ts:25-32 | the keyword loop yields one message per keyword contained in the content, in list order |
| `BrandValidators.CollectMissingFields` | src/app/services/compliance-validators.ts:35-40 | the field loop yields one message per falsy or blank field, in list order |
| `BrandValidators.ValidateMsnCompliance` | src/app/services/compliance-validators.ts:3-47 | the sequential checks compute the MSN profile result of the article |
| `BrandValidators.MsnKeywordOrder` | src/app/services/compliance-validators.ts:25-32 | keyword errors come in the fixed order gambling, adult content, violence, one per keyword found in lower-case(title + ' ' + body) |
| `BrandValidators.MsnFieldOrder` | src/app/services/compliance-validators.ts:35-40 | an error for `author` and then for `category`, each when the field is falsy or whitespace-only |
| `BrandValidators.MsnPassesIff` | src/app/services/compliance-validators.ts:8-46 | MSN passes iff title <= 100, body >= 300, a truthy `thumbnail`, no keyword and author and category given; a body over 5000 only warns; `passed` iff no error |
| `BrandValidators.ValidateGoogleNewsCompliance` | src/app/services/compliance-validators.ts:49-84 | the checks and the clickbait loop compute the Google News profile result |
| `BrandValidators.GoogleClickbaitWarnings` | src/app/services/compliance-validators.ts:67-83 | one identical warning per clickbait phrase found case-insensitively in the title (0 to 3); `passed` iff no error, so clickbait never fails the profile |
| `BrandValidators.GooglePassesIff` | src/app/services/compliance-validators.ts:54-64 | Google News passes iff title <= 110, body >= 200 and the author is truthy; a whitespace-only author is not flagged |
| `BrandValidators.Apple` | src/app/services/compliance-validators.ts:86-114 | Apple News passes iff title <= 120, a truthy thumbnail and body >= 250; a category outside the five preferred ones, lower-cased, gives one warning only |
| `BrandValidators.GetValidatorForFeed` | src/app/services/compliance-validators.ts:116-127 | the lower-cased feed type selects MSN, Google News or Apple News; any other type gives `passed: true` with empty lists |
| `BrandValidators.DispatchIgnoresCase` | src/app/services/compliance-validators.ts:116-127 | `MSN`, `Google News` and `APPLE NEWS` select their profiles |
| `BrandValidators.ArticleRecordLacksThumbnail` | src/app/services/compliance-validators.ts:20-22 | an article record (which has `thumbnail_url`, not `thumbnail`) always fails MSN and Apple News with the thumbnail error |
| `CommaList.ParseItemsClean` | src/app/components/ompliance.component.ts:269 | every item of the split/trim/filter parse is non-empty, trimmed and comma-free |
| `CommaList.ParseConcat` | src/app/components/ompliance.component.ts:269 | items come out in input order: the parse of `a,b` is the parse of `a` then that of `b` |
| `CommaList.ParseFormat` | src/app/components/ompliance.component.ts:335-345 | parsing the `', '` join of clean items gives the items back |
| `CommaList.JoinedOrEmpty` | src/app/components/ompliance.component.ts:335 | the `join` of `v`, or `''` when `v` is nullish, is `''` for a nullish value and the join for a list; it throws on anything else |
| `CommaList.FormatOrEmpty` | src/app/components/feeds.component.ts:524-526 | an absent list shows as `''`, a present one as its `', '` join |
| `RuleEditor.BuildConfiguration` | src/app/components/ompliance.component.ts:263-295 | the configuration is missing only when the type is not `length`, `prohibited_content` or a list type and the custom text is non-empty invalid JSON; each branch's shape is stated by the three shape lemmas below |
| `RuleEditor.ListConfigurationShape` | src/app/components/ompliance.component.ts:267-287 | `required_fields`, `category` and `metadata` become an object with exactly `fields`, `allowed_categories` or `required_fields`, holding the clean parse of its text |
| `RuleEditor.ProhibitedContentShape` | src/app/components/ompliance.component.ts:272-276 | other keys of the helper object are kept; `keywords` is always the parse of the keyword text |
| `RuleEditor.OtherConfigurationShape` | src/app/components/ompliance.component.ts:263-295 | `length` copies the length helper; other types give the parsed custom text, `{}` for empty text, and fail only on invalid JSON |
| `RuleEditor.StoredListText` | src/app/components/ompliance.component.ts:335-345 | a stored clean list is shown as its join, which parses back to the list |
| `RuleEditor.RequiredFieldsRoundTrip` | src/app/components/ompliance.component.ts:334-336 | `editRule` then `saveRule` reproduces a `required_fields` configuration |
| `RuleEditor.ProhibitedContentRoundTrip` | src/app/components/ompliance.component.ts:337-340 | the same for `prohibited_content`, other keys included |
| `RuleEditor.CategoryRoundTrip` | src/app/components/ompliance.component.ts:341-343 | the same for `category` |
| `RuleEditor.MetadataRoundTrip` | src/app/components/ompliance.component.ts:344-346 | the same for `metadata` |
| `RuleEditor.RuleFormRoundTrip` | src/app/components/ompliance.component.ts:325-349 | for every representable rule, populating the form and saving gives the stored configuration back, whatever the helpers held |
| `RuleEditor.ComplianceComponent.OnValidatorTypeChange` | src/app/components/ompliance.component.ts:250-259 | all seven helpers become empty and nothing else changes |
| `RuleEditor.ComplianceComponent.SaveRule` | src/app/components/ompliance.component.ts:261-323 | invalid JSON sets the error, leaves the rule unchanged and sends nothing; otherwise the configuration is stored and an update (truthy id) or creation is sent |
| `RuleEditor.ComplianceComponent.PopulateHelpers` | src/app/components/ompliance.component.ts:330-349 | only the helpers of the rule's type change, or the populate throws on a non-list value |
| `RuleEditor.ComplianceComponent.EditRule` | src/app/components/ompliance.component.ts:325-352 | remembers the rule, copies it into the form, populates the helpers and opens the form unless populating threw |
| `RuleEditor.ComplianceComponent.CancelRuleEdit` | src/app/components/ompliance.component.ts:354-360 | restores the initial rule (severity `error`, active, feed 0, empty configuration), empty helpers, closed form and no error |
| `RuleEditor.ComplianceComponent.OnRuleUpdated` | src/app/components/ompliance.component.ts:299-304 | only the entry at the first matching id's index is replaced; nothing changes if the id is absent |
| `RuleEditor.ComplianceComponent.OnRuleCreated` | src/app/components/ompliance.component.ts:313-316 | the new rule is prepended |
| `RuleEditor.ComplianceComponent.GetFeedName` | src/app/components/ompliance.component.ts:383-386 | the name of the first feed with the id, else `Unknown Feed` |
| `RuleEditor.EditThenSaveRule` | src/app/components/ompliance.component.ts:261-352 | editing a representable rule and saving it unchanged sends the rule exactly as stored |
| `FeedEditor.SpecFromForm` | src/app/components/feeds.component.ts:453-482 | the three lists are the comma parse of their texts (always clean); bounds are kept and falsy ones become null; `body_*` goes to `content_*` |
| `FeedEditor.FormFromSpec` | src/app/components/feeds.component.ts:521-532 | lists are joined (absent lists become `''`), falsy bounds become null, `content_*` goes to `body_*` |
| `FeedEditor.FeedFormRoundTrip` | src/app/components/feeds.component.ts:521-532 | well-formed stored values survive `editFeed` followed by `saveFeed` unchanged |
| `FeedEditor.SaveAfterSaveIsStable` | src/app/components/feeds.component.ts:453-482 | a second edit-and-save writes what the first save wrote |
| `FeedEditor.SaveRequest` | src/app/components/feeds.component.ts:485-513 | an update iff the edited feed has a truthy id, else a creation, carrying the saved feed |
| `FeedEditor.WriteValues` | src/app/components/feeds.component.ts:453-482 | the seven keys are written in place and other keys of the object are untouched |
| `FeedEditor.FeedsComponent.EnsureSpecifications` | src/app/components/feeds.component.ts:448-450 | an empty specifications object is created only when none exists; an existing one is kept |
| `FeedEditor.FeedsComponent.StoreForm` | src/app/components/feeds.component.ts:446-482 | the specifications object ends up holding the form's values and keeps its unknown keys |
| `FeedEditor.FeedsComponent.SaveFeed` | src/app/components/feeds.component.ts:446-514 | stores the form into the (possibly shared) specifications object and sends an update or creation of the feed |
| `FeedEditor.FeedsComponent.EditFeed` | src/app/components/feeds.component.ts:517-541 | the form shows the specifications' values, and the edited feed shares the listed feed's specifications object |
| `FeedEditor.FeedsComponent.CancelFeedEdit` | src/app/components/feeds.component.ts:558-566 | restores the initial feed (active, empty guidelines), empty texts, closed form and no error |
| `FeedEditor.FeedsComponent.OnFeedUpdated` | src/app/components/feeds.component.ts:489-496 | only the entry at the first matching id's index is replaced, then the form resets |
| `FeedEditor.FeedsComponent.OnFeedCreated` | src/app/components/feeds.component.ts:503-507 | the new feed is prepended, then the form resets |
| `FeedEditor.FeedsComponent.DeleteFeedRequest` | src/app/components/feeds.component.ts:543-545 | a deletion is requested iff the user confirmed |
| `FeedEditor.FeedsComponent.OnFeedDeleted` | src/app/components/feeds.component.ts:546-549 | every feed with the id goes, the others keep their order, and the id's stats entry goes |
| `FeedEditor.FeedsComponent.ToggleFeedStatus` | src/app/components/feeds.component.ts:580-582 | sends a copy of the feed with `is_active` negated |
| `FeedEditor.FeedsComponent.OnFeedStatusUpdated` | src/app/components/feeds.component.ts:583-588 | only the entry at the first matching index is replaced; the list is unchanged if the id is not found |
| `FeedEditor.EditThenSaveFeed` | src/app/components/feeds.component.ts:517-532 | editing a feed with well-formed specifications and saving writes the same values back into the shared object |
| `FeedEditor.EditedTermsReachListedFeed` | src/app/components/feeds.component.ts:519 | because `editFeed` copies the guidelines shallowly, saving edited terms changes the listed feed's specifications at once |
| `ArticleScreen.EntryField` | src/app/components/articles.component.ts:400 | the error's field is present iff there are details with a non-empty field |
| `ArticleScreen.Normalize` | src/app/components/articles.component.ts:391-392 | the normalised `passed` is true iff `overall_status === 'PASSED'` |
| `ArticleScreen.NormalizeSpec` | src/app/components/articles.component.ts:395-408 | `errors` are the failed entries in order, and `warnings` the passed entries with issues, joined by `', '`; no entry gives both; absent results give none |
| `ArticleScreen.NormalizeMembers` | src/app/components/articles.component.ts:395-408 | an error comes exactly from a failed entry, and a warning exactly from a passed entry with issues |
| `ArticleScreen.CleanAnswerHasNoFindings` | src/app/components/articles.component.ts:395-408 | entries that all passed without issues give empty lists |
| `ArticleScreen.CheckRequestsSpec` | src/app/components/articles.component.ts:388-390 | every requested check is for feed 6, and none is requested iff no listed feed has id 6 |
| `ArticleScreen.CollectCheckRequests` | src/app/components/articles.component.ts:388-417 | the `forEach` computes one request per listed feed with id 6, in list order |
| `ArticleScreen.HasSelectedFeeds` | src/app/components/articles.component.ts:353-355 | true iff some feed is ticked |
| `ArticleScreen.SelectedFeedIdsSpec` | src/app/components/articles.component.ts:445-447 | the selected ids are exactly the ticked ones, ascending, and there are some iff `hasSelectedFeeds` |
| `ArticleScreen.PublishRequests` | src/app/components/articles.component.ts:454-457 | one request per id, in order, with `scheduled_at` set (to the scheduled time) iff scheduling is on |
| `ArticleScreen.PublishCallFor` | src/app/components/articles.component.ts:459-479 | exactly one request uses the single-feed call; more use the multi-feed call |
| `ArticleScreen.PublishCallCoversSelection` | src/app/components/articles.component.ts:445-457 | the requests cover exactly the ticked feeds, once each, in ascending order |
| `ArticleScreen.MultiPublishOutcome` | src/app/components/articles.component.ts:492-504 | a full success counts every result; a partial one has 0 < passed < total |
| `ArticleScreen.MultiPublishOutcomeSpec` | src/app/components/articles.component.ts:492-504 | all passed (vacuously for none) gives full success; some passed gives the partial path; none of at least one gives the error path |
| `ArticleScreen.PageStepFor` | src/app/components/articles.component.ts:259-263 | a load happens iff 1 <= page <= `last_page`; before any page is loaded, a page >= 1 throws |
| `ArticleScreen.ArticlesRequestAsWritten` | src/app/components/articles.component.ts:240-242 | the list request carries no page |
| `ArticleScreen.PageIgnoredAsWritten` | src/app/components/articles.component.ts:240-242 | as written, page 2 makes the same request as page 1 |
| `ArticleScreen.ArticlesRequestFor` | src/app/components/articles.component.ts:240-242 | the corrected request names the page |
| `ArticleScreen.ArticlesRequestDistinguishesPages` | src/app/components/articles.component.ts:240-242 | corrected, different pages make different requests |
| `ArticleScreen.ArticlesComponent.LoadArticles` | src/app/components/articles.component.ts:240-242 | corrected (see Findings): sets `loading` and sends the request that names the page; the source sends no page (`ArticlesRequestAsWritten`) |
| `ArticleScreen.ArticlesComponent.OnArticlesLoaded` | src/app/components/articles.component.ts:243-251 | stores the page's articles and pagination and clears `loading` |
| `ArticleScreen.ArticlesComponent.GoToPage` | src/app/components/articles.component.ts:259-263 | loads only within 1 .. `last_page` (as written), otherwise changes nothing; corrected (see Findings): the load sends the request that names the page, which the source's does not |
| `ArticleScreen.ArticlesComponent.CheckCompliance` | src/app/components/articles.component.ts:382-390 | with no feeds it sets the error and makes no call; otherwise it requests a check only for feed 6 |
| `ArticleScreen.ArticlesComponent.OnComplianceChecked` | src/app/components/articles.component.ts:391-410 | the normalised answer is stored under the article's id |
| `ArticleScreen.ArticlesComponent.ShowPublishModal` | src/app/components/articles.component.ts:337-342 | opens the dialog for the article with no feed ticked |
| `ArticleScreen.ArticlesComponent.ClosePublishModal` | src/app/components/articles.component.ts:344-351 | closes the dialog and forgets the selection and schedule |
| `ArticleScreen.ArticlesComponent.PublishArticle` | src/app/components/articles.component.ts:442-480 | no article: nothing; no ticked feed: error and no call; otherwise the single or multi call with one request per ticked feed |
| `ArticleScreen.ArticlesComponent.HandleMultiplePublishResults` | src/app/components/articles.component.ts:492-504 | full success closes the dialog, partial success changes nothing here, total failure sets the error |
| `Audit.AuditEntryId` | src/app/services/audit.service.ts:37 | ids start with `audit-` |
| `Audit.AuditEntryIdClock` | src/app/services/audit.service.ts:37 | equal ids come from the same clock reading |
| `Audit.Snapshot` | src/app/services/audit.service.ts:79-84 | the persisted snapshot is the first min(1000, n) entries |
| `Audit.SnapshotAfterLog` | src/app/services/audit.service.ts:79-84 | a new entry enters the snapshot in front, pushing the oldest out once it is full |
| `Audit.ForArticle` | src/app/services/audit.service.ts:71-73 | exactly the entries about the article, in log order |
| `Audit.ForFeed` | src/app/services/audit.service.ts:75-77 | exactly the entries about the feed, in log order |
| `Audit.QueriesAfterLog` | src/app/services/audit.service.ts:71-77 | a new entry heads the queries it matches and leaves the others unchanged |
| `Audit.PublishAction` | src/app/services/audit.service.ts:57 | `publish_success` iff success, else `publish_failure` |
| `Audit.AuditService.constructor` | src/app/services/audit.service.ts:20-33 | starts from the stored log, or empty when there is none |
| `Audit.AuditService.Persist` | src/app/services/audit.service.ts:79-87 | the stored snapshot is taken and the in-memory log is not truncated |
| `Audit.AuditService.Record` | src/app/services/audit.service.ts:46-48 | prepends the entry, persists, and returns its id |
| `Audit.AuditService.LogComplianceCheck` | src/app/services/audit.service.ts:35-49 | prepends exactly one `compliance_check` entry with the given ids and result, returns its id, and shifts older entries back by one |
| `Audit.AuditService.LogPublishAttempt` | src/app/services/audit.service.ts:51-65 | the same with action `publish_success` or `publish_failure` |
| `Audit.AuditService.GetAuditLog` | src/app/services/audit.service.ts:67-69 | the first min(limit, n) entries (100 by default; a negative limit counts from the back), without changing the log |
| `Audit.AuditService.ClearAuditLog` | src/app/services/audit.service.ts:89-92 | leaves the log empty and removes the stored snapshot |
| `Audit.LogTwice` | src/app/services/audit.service.ts:35-65 | the newest log call is always at index 0, the earlier one next, older entries after |
| `Notifications.NotificationId` | src/app/services/notification.service.ts:23 | ids start with `notif-` |
| `Notifications.EarlierIdsDiffer` | src/app/services/notification.service.ts:23 | ids taken at different clock readings differ |
| `Notifications.WithoutId` | src/app/services/notification.service.ts:36-39 | keeps exactly the notifications with another id |
| `Notifications.WithoutUnknownId` | src/app/services/notification.service.ts:36-39 | removing an unknown id leaves the list unchanged |
| `Notifications.RemoveUndoesShow` | src/app/services/notification.service.ts:20-39 | removing a just-shown notification's fresh id gives the previous list back |
| `Notifications.DefaultAutoHide` | src/app/services/notification.service.ts:46-60 | `error` defaults `autoHide` to false, the other kinds to true, and an explicit value wins |
| `Notifications.NotificationService.constructor` | src/app/services/notification.service.ts:17 | starts with no notification |
| `Notifications.NotificationService.Show` | src/app/services/notification.service.ts:20-34 | prepends one notification with the given fields before the unchanged list; a removal is scheduled iff `autoHide !== false` |
| `Notifications.NotificationService.Remove` | src/app/services/notification.service.ts:36-39 | drops every notification with the id and keeps the rest in order |
| `Notifications.NotificationService.Clear` | src/app/services/notification.service.ts:41-43 | leaves the list empty |
| `Notifications.NotificationService.Notify` | src/app/services/notification.service.ts:46-60 | `success`, `error`, `warning` and `info` show with their default `autoHide` |
| `Notifications.ErrorStaysSuccessGoes` | src/app/services/notification.service.ts:31-33 | by default an error gets no scheduled removal and a success does |
| `Errors.StatusMessage` | src/app/utils/error-handler.ts:17-29 | a fixed message exists iff the status is 0, 401, 403, 404, 422 or >= 500 |
| `Errors.UserMessage` | src/app/utils/error-handler.ts:13-29 | a body message wins; otherwise the status's message; otherwise `An unexpected error occurred` |
| `Errors.MessageBeatsStatus` | src/app/utils/error-handler.ts:15-16 | a body message is used whatever the status |
| `Errors.FullMessage` | src/app/utils/error-handler.ts:31 | `context + ': ' + msg` for a non-empty context, else `msg` |
| `Errors.FullMessageEndsWithMessage` | src/app/utils/error-handler.ts:31 | the user message can be read back from the end of the full message, and the context from its start |
| `Errors.ComplianceErrorTextLines` | src/app/utils/error-handler.ts:41 | splitting the body at newlines gives the `rule: message` lines back, in order |
| `Errors.ErrorHandler.HandleHttpError` | src/app/utils/error-handler.ts:12-36 | sends exactly the returned full message as one error notification |
| `Errors.ErrorHandler.HandleComplianceError` | src/app/utils/error-handler.ts:38-43 | sends nothing for no errors, else one error notification with the joined lines |
| `Errors.ErrorHandler.HandleValidationError` | src/app/utils/error-handler.ts:45-47 | sends one warning `field: message` |

## Left out

- HTTP calls, RxJS subscriptions, asynchrony and the error callbacks of every request. A request is a returned value, and each success callback is a method applied to a given answer. `api.service.ts` is not part of this model.
- The monitoring screen, the date pipe, application bootstrap and tab switching, component templates and styles. The same goes for `window.scrollTo`, `alert`, `confirm` (a `confirmed` parameter) and `console`.
- Operations of the modelled screens outside the compliance core. In the rule screen: `toggleRuleStatus`, `testRule`, `formatConfiguration` and the loaders. In the feed screen: `loadFeeds` and `loadFeedStats`. In the article screen: article editing (`saveArticle`, `editArticle`, `deleteArticle`, `cancelEdit`), `checkSingleFeedCompliance` and `handlePublishResult`.
- `localStorage`: the audit service takes the loaded log as a constructor parameter and records the snapshot it would write. Timestamps are clock readings (integers), not `Date` objects.
- `setTimeout`: a notification's scheduled removal is recorded as its id in `scheduled`. The removal five seconds later is a separate `Remove` call.
- `Date.now()` and `Math.random()`: clock readings, random suffixes and the pre-check's audit id are parameters.
- `JSON.parse` and `JSON.stringify` are opaque function parameters; a throw is `None`.
- The clickbait regular expressions are case-insensitive substring tests. `toLowerCase` is modelled over ASCII letters only. String `length` is the number of characters, not of UTF-16 code units.
- Numbers are integers: NaN and fractional bounds are not modelled.
- Spreading a configuration that is a string or an array (`{ ...config }`) is modelled as giving no keys. JavaScript would copy index keys.
- ArticleScreen.ArticlesComponent.LoadArticles and ArticleScreen.ArticlesComponent.GoToPage: the screen's state model sends the corrected request `ArticlesRequestFor(page)`. The source's `getArticles()` takes no page, so its request is `ArticlesRequestAsWritten(page)` for every page; the as-written behaviour is stated by `PageIgnoredAsWritten`.
- FeedEditor.FormFromSpec and FeedEditor.FeedsComponent.EditFeed: stored specification lists are typed as an optional list of strings. The TypeError that `editFeed` raises when a stored list is present but not an array (`.join` on a string, `src/app/components/feeds.component.ts:524-526`) is not modelled. The rule form models that throw through `CommaList.JoinedOrEmpty`.
- The brand profiles assume `title` and `body` are strings and `author`/`category` are strings or absent. A non-string value, on which JavaScript would throw, is not modelled.

## Findings

| source | as written | input that shows it | evidently intended | confidence | as-written member | corrected member |
|---|---|---|---|---|---|---|
| src/app/components/articles.component.ts:240-242 | `loadArticles(page)` calls `getArticles()` without the page, so pagination never leaves the default page | `goToPage(2)` with `last_page` 3 makes the same request as page 1 | the request carries the page | not executed; high | `ArticleScreen.PageIgnoredAsWritten` | `ArticleScreen.ArticlesRequestDistinguishesPages` |
