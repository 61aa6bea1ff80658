/** The article screen (`ArticlesComponent`): normalising the backend's compliance answer
    into error and warning lists, choosing which compliance checks to request, building
    publish requests from the feed selection, classifying a multi-feed publish, and the
    page bounds of the article list. */
module ArticleScreen {
  import opened Js
  import opened Text
  import opened Seqs
  import opened Models

  // ---------------------------------------------------------------------------
  // The compliance answer and its normalisation

  /** The `details` of one rule result: the field it is about and its issues. */
  datatype EntryDetails = EntryDetails(field: Option<string>, issues: Option<seq<string>>)

  /** One value of the answer's `results` object, in `Object.values` order. */
  datatype CheckEntry = CheckEntry(rule: string, message: string, passed: bool, details: Option<EntryDetails>)

  /** The backend's answer to a compliance check; `results` is `None` when it is absent
      or falsy. */
  datatype CheckResponse = CheckResponse(overall_status: JsValue, results: Option<seq<CheckEntry>>)

  /** The answer after `checkCompliance` has overwritten `passed`, `errors` and
      `warnings` on it. */
  datatype NormalizedCheck = NormalizedCheck(
    response: CheckResponse,
    passed: bool,
    errors: seq<ComplianceError>,
    warnings: seq<ComplianceWarning>)

  /** `result.results || {}` as a list of values. */
  function Entries(response: CheckResponse): seq<CheckEntry>
  {
    if response.results.Some? then response.results.value else []
  }

  /** `r.details?.field || null`. */
  function EntryField(e: CheckEntry): (r: Option<string>)
    ensures r.Some? <==> e.details.Some? && TruthyStr(e.details.value.field)
  {
    if e.details.Some? && TruthyStr(e.details.value.field) then e.details.value.field else None
  }

  /** `r.details?.issues?.length > 0`. */
  predicate HasIssues(e: CheckEntry)
  {
    e.details.Some? && e.details.value.issues.Some? && |e.details.value.issues.value| > 0
  }

  predicate Failed(e: CheckEntry)
  {
    !e.passed
  }

  predicate PassedWithIssues(e: CheckEntry)
  {
    e.passed && HasIssues(e)
  }

  /** The error a failed entry becomes: its rule, its message and its field; the
      normalised error has no `value`. */
  function EntryError(e: CheckEntry): ComplianceError
  {
    ComplianceError(e.rule, e.message, EntryField(e), Undefined)
  }

  /** The warning a passed entry with issues becomes: its rule and its issues joined
      with `', '`. */
  function EntryWarning(e: CheckEntry): ComplianceWarning
  {
    ComplianceWarning(e.rule, if e.details.Some? && e.details.value.issues.Some? then Join(e.details.value.issues.value, ", ") else "", None)
  }

  function ErrorOf(e: CheckEntry): Option<ComplianceError>
  {
    if Failed(e) then Some(EntryError(e)) else None
  }

  function WarningOf(e: CheckEntry): Option<ComplianceWarning>
  {
    if PassedWithIssues(e) then Some(EntryWarning(e)) else None
  }

  /** The normalisation in the success callback of `checkCompliance`. */
  function Normalize(response: CheckResponse): (r: NormalizedCheck)
    ensures r.response == response
    ensures r.passed <==> response.overall_status == Str("PASSED")
  {
    NormalizedCheck(response, response.overall_status == Str("PASSED"),
                    Keep(Entries(response), ErrorOf), Keep(Entries(response), WarningOf))
  }

  /** `errors` are exactly the failed entries, in order, each with its rule, message and
      field; `warnings` are exactly the passed entries with issues, in order, each with
      its issues joined by `', '`. No entry gives both, so together they are at most one
      per entry. */
  lemma NormalizeSpec(response: CheckResponse)
    ensures Normalize(response).errors == Map(Filter(Entries(response), Failed), EntryError)
    ensures Normalize(response).warnings == Map(Filter(Entries(response), PassedWithIssues), EntryWarning)
    ensures |Normalize(response).errors| + |Normalize(response).warnings| <= |Entries(response)|
    ensures response.results.None? ==> Normalize(response).errors == [] && Normalize(response).warnings == []
  {
    var entries := Entries(response);
    KeepAsFilterMap(entries, ErrorOf, Failed, EntryError);
    KeepAsFilterMap(entries, WarningOf, PassedWithIssues, EntryWarning);
    KeepDisjoint(entries, ErrorOf, WarningOf);
  }

  /** Membership, entry by entry: an error is normalised from a failed entry and a
      warning from a passed entry with issues. */
  lemma NormalizeMembers(response: CheckResponse, e: ComplianceError, w: ComplianceWarning)
    ensures e in Normalize(response).errors <==>
      exists i :: 0 <= i < |Entries(response)| && Failed(Entries(response)[i]) && e == EntryError(Entries(response)[i])
    ensures w in Normalize(response).warnings <==>
      exists i :: 0 <= i < |Entries(response)| && PassedWithIssues(Entries(response)[i]) && w == EntryWarning(Entries(response)[i])
  {
    KeepMember(Entries(response), ErrorOf, e);
    KeepMember(Entries(response), WarningOf, w);
  }

  /** An answer whose entries all passed without issues normalises to empty lists,
      whatever its `overall_status`. */
  lemma CleanAnswerHasNoFindings(response: CheckResponse)
    requires forall i :: 0 <= i < |Entries(response)| ==> Entries(response)[i].passed && !HasIssues(Entries(response)[i])
    ensures Normalize(response).errors == [] && Normalize(response).warnings == []
  {
    KeepEmpty(Entries(response), ErrorOf);
    KeepEmpty(Entries(response), WarningOf);
  }

  // ---------------------------------------------------------------------------
  // Which compliance checks are requested

  /** The only feed `checkCompliance` asks about. */
  const CheckedFeedId := 6

  /** A call of the backend's compliance check for an article (whose id may be
      missing) and a feed. */
  datatype CheckRequest = CheckRequest(articleId: Option<int>, feedId: int)

  function CheckRequestFor(articleId: Option<int>, feed: FeedConfig): Option<CheckRequest>
  {
    if feed.id == Some(CheckedFeedId) then Some(CheckRequest(articleId, CheckedFeedId)) else None
  }

  /** The calls the `forEach` over the feeds makes: one per listed feed with id 6. */
  function CheckRequests(articleId: Option<int>, feeds: seq<FeedConfig>): seq<CheckRequest>
  {
    Keep(feeds, (f: FeedConfig) => CheckRequestFor(articleId, f))
  }

  lemma CheckRequestsSnoc(articleId: Option<int>, feeds: seq<FeedConfig>, feed: FeedConfig)
    ensures CheckRequests(articleId, feeds + [feed]) == CheckRequests(articleId, feeds) + Emitted(CheckRequestFor(articleId, feed))
  {
    KeepSnoc(feeds, feed, (f: FeedConfig) => CheckRequestFor(articleId, f));
  }

  /** Every requested check is for the article and feed 6, and there is none exactly
      when no listed feed has id 6. */
  lemma CheckRequestsSpec(articleId: Option<int>, feeds: seq<FeedConfig>, r: CheckRequest)
    ensures r in CheckRequests(articleId, feeds) ==> r == CheckRequest(articleId, CheckedFeedId)
    ensures CheckRequests(articleId, feeds) == [] <==> forall i :: 0 <= i < |feeds| ==> feeds[i].id != Some(CheckedFeedId)
  {
    var emit := (f: FeedConfig) => CheckRequestFor(articleId, f);
    KeepMember(feeds, emit, r);
    KeepEmpty(feeds, emit);
  }

  /** The `forEach` of `checkCompliance`, one feed after the other. */
  method CollectCheckRequests(articleId: Option<int>, feeds: seq<FeedConfig>) returns (requests: seq<CheckRequest>)
    ensures requests == CheckRequests(articleId, feeds)
  {
    requests := [];
    var i := 0;
    while i < |feeds|
      invariant 0 <= i <= |feeds|
      invariant requests == CheckRequests(articleId, feeds[..i])
    {
      CheckRequestsSnoc(articleId, feeds[..i], feeds[i]);
      assert feeds[..i + 1] == feeds[..i] + [feeds[i]];
      if feeds[i].id == Some(CheckedFeedId) {
        requests := requests + [CheckRequest(articleId, CheckedFeedId)];
      }
      i := i + 1;
    }
    assert feeds[..i] == feeds;
  }

  // ---------------------------------------------------------------------------
  // Feed selection and publish requests

  /** `hasSelectedFeeds`: some feed is ticked. */
  function HasSelectedFeeds(selected: map<nat, bool>): (r: bool)
    ensures r <==> exists id :: id in selected && selected[id]
  {
    true in selected.Values
  }

  /** The ticked feed ids: `Object.entries` lists integer keys in ascending order and
      the filter keeps the ticked ones, which gives the ticked ids in ascending order. */
  function SelectedFeedIds(selected: map<nat, bool>): seq<nat>
  {
    Ascending(set id | id in selected && selected[id])
  }

  /** The selected ids are exactly the ticked ones, strictly ascending, and there are
      some exactly when `hasSelectedFeeds` holds. */
  lemma SelectedFeedIdsSpec(selected: map<nat, bool>)
    ensures forall id :: id in SelectedFeedIds(selected) <==> id in selected && selected[id]
    ensures forall i, j :: 0 <= i < j < |SelectedFeedIds(selected)| ==> SelectedFeedIds(selected)[i] < SelectedFeedIds(selected)[j]
    ensures |SelectedFeedIds(selected)| > 0 <==> HasSelectedFeeds(selected)
  {
    if |SelectedFeedIds(selected)| > 0 {
      assert SelectedFeedIds(selected)[0] in SelectedFeedIds(selected);
    }
    if HasSelectedFeeds(selected) {
      var id :| id in selected && selected[id];
      assert id in SelectedFeedIds(selected);
    }
  }

  /** One entry of a publish call. */
  datatype PublishRequest = PublishRequest(feed_id: nat, scheduled_at: Option<string>)

  /** One request per selected id, scheduled at `scheduledTime` only when scheduling is on. */
  function PublishRequests(ids: seq<nat>, schedulePublish: bool, scheduledTime: string): (r: seq<PublishRequest>)
    ensures |r| == |ids|
    ensures forall i :: 0 <= i < |r| ==> r[i].feed_id == ids[i]
    ensures forall i :: 0 <= i < |r| ==> (r[i].scheduled_at.Some? <==> schedulePublish)
    ensures forall i :: 0 <= i < |r| ==> (schedulePublish ==> r[i].scheduled_at == Some(scheduledTime))
  {
    Map(ids, (id: nat) => PublishRequest(id, if schedulePublish then Some(scheduledTime) else None))
  }

  /** What `publishArticle` sends. */
  datatype PublishCall =
    | NoPublish
    | PublishSingle(articleId: Option<int>, request: PublishRequest)
    | PublishMultiple(articleId: Option<int>, requests: seq<PublishRequest>)

  /** A single selection uses the single-feed call; more use the multi-feed call. */
  function PublishCallFor(articleId: Option<int>, requests: seq<PublishRequest>): (c: PublishCall)
    requires |requests| >= 1
    ensures c.PublishSingle? <==> |requests| == 1
    ensures c.PublishSingle? ==> c == PublishSingle(articleId, requests[0])
    ensures c.PublishMultiple? ==> c == PublishMultiple(articleId, requests)
    ensures !c.NoPublish?
  {
    if |requests| == 1 then PublishSingle(articleId, requests[0]) else PublishMultiple(articleId, requests)
  }

  /** The requests of a publish call sent for a selection are for exactly the ticked
      feeds, each once, in ascending id order. */
  lemma PublishCallCoversSelection(articleId: Option<int>, selected: map<nat, bool>, schedulePublish: bool, scheduledTime: string)
    requires HasSelectedFeeds(selected)
    ensures var requests := PublishRequests(SelectedFeedIds(selected), schedulePublish, scheduledTime);
      && |requests| >= 1
      && (forall id :: (exists i :: 0 <= i < |requests| && requests[i].feed_id == id) <==> id in selected && selected[id])
      && (forall i, j :: 0 <= i < j < |requests| ==> requests[i].feed_id < requests[j].feed_id)
  {
    SelectedFeedIdsSpec(selected);
    var ids := SelectedFeedIds(selected);
    var requests := PublishRequests(ids, schedulePublish, scheduledTime);
    forall id ensures (exists i :: 0 <= i < |requests| && requests[i].feed_id == id) <==> id in selected && selected[id] {
      if id in selected && selected[id] {
        assert id in ids;
        var i :| 0 <= i < |ids| && ids[i] == id;
        assert requests[i].feed_id == id;
      }
    }
  }

  // ---------------------------------------------------------------------------
  // Multi-feed publish outcome

  /** How `handleMultiplePublishResults` classifies the per-feed verdicts. */
  datatype PublishOutcome =
    | PublishedToAll(total: nat)
    | PublishedToSome(passedCount: nat, total: nat)
    | PublishedToNone

  function PassedResult(r: ComplianceResult): bool
  {
    r.passed
  }

  function MultiPublishOutcome(results: seq<ComplianceResult>): (o: PublishOutcome)
    ensures o.PublishedToAll? ==> o.total == |results|
    ensures o.PublishedToSome? ==> 0 < o.passedCount < o.total == |results|
  {
    var passedCount := |Filter(results, PassedResult)|;
    if passedCount == |results| then PublishedToAll(|results|)
    else if passedCount > 0 then PublishedToSome(passedCount, |results|)
    else PublishedToNone
  }

  /** All verdicts passed (vacuously so for none) gives the full-success path; some
      but not all gives the partial path; none (of at least one) gives the error path. */
  lemma MultiPublishOutcomeSpec(results: seq<ComplianceResult>)
    ensures MultiPublishOutcome(results).PublishedToAll? <==> forall i :: 0 <= i < |results| ==> results[i].passed
    ensures MultiPublishOutcome(results).PublishedToNone? <==>
      |results| > 0 && forall i :: 0 <= i < |results| ==> !results[i].passed
    ensures MultiPublishOutcome(results).PublishedToSome? <==>
      (exists i :: 0 <= i < |results| && results[i].passed) && (exists j :: 0 <= j < |results| && !results[j].passed)
    ensures MultiPublishOutcome(results).PublishedToSome? ==>
      MultiPublishOutcome(results).passedCount == |Filter(results, PassedResult)|
  {
    FilterAll(results, PassedResult);
    FilterNone(results, PassedResult);
  }

  // ---------------------------------------------------------------------------
  // Pages

  /** The pagination block a page of articles carries; a key the answer lacks is `None`. */
  datatype Pagination = Pagination(current_page: Option<int>, last_page: Option<int>, total: Option<int>)

  /** A page of articles as the backend answers it. */
  datatype ArticlesPage = ArticlesPage(data: seq<Article>, current_page: Option<int>, last_page: Option<int>, total: Option<int>)

  /** What `goToPage` does: load the page, do nothing, or throw because no page has
      been loaded yet (`this.pagination` is still `undefined`). */
  datatype PageStep = LoadPage(page: int) | StayOnPage | PageTypeError

  /** `page >= 1 && page <= this.pagination.last_page`, with JavaScript's
      short-circuit: a page below 1 never reads the pagination, and a missing
      `last_page` compares false. */
  function PageStepFor(pagination: Option<Pagination>, page: int): (r: PageStep)
    ensures r.LoadPage? <==> pagination.Some? && pagination.value.last_page.Some? && 1 <= page <= pagination.value.last_page.value
    ensures r.LoadPage? ==> r.page == page
    ensures r.PageTypeError? <==> page >= 1 && pagination.None?
  {
    if page < 1 then StayOnPage
    else if pagination.None? then PageTypeError
    else if pagination.value.last_page.Some? && page <= pagination.value.last_page.value then LoadPage(page)
    else StayOnPage
  }

  /** A request for the article list; `page` is the page it asks for, when it asks. */
  datatype ArticlesQuery = ListArticles(page: Option<int>)

  /** `loadArticles(page)` as written: `getArticles()` is called without the page. */
  function ArticlesRequestAsWritten(page: int): (r: ArticlesQuery)
    ensures r.page.None?
  {
    ListArticles(None)
  }

  /** Under the code as written, going to page 2 makes the very request the first page
      makes, so the list never leaves the backend's default page. */
  lemma PageIgnoredAsWritten()
    ensures ArticlesRequestAsWritten(2) == ArticlesRequestAsWritten(1)
    ensures ArticlesRequestAsWritten(2).page != Some(2)
  {
  }

  /** `loadArticles(page)` as intended: the request names the page. */
  function ArticlesRequestFor(page: int): (r: ArticlesQuery)
    ensures r.page == Some(page)
  {
    ListArticles(Some(page))
  }

  /** With the page in the request, different pages make different requests. */
  lemma {:induction false} ArticlesRequestDistinguishesPages(p: int, q: int)
    requires p != q
    ensures ArticlesRequestFor(p) != ArticlesRequestFor(q)
  {
    assert ArticlesRequestFor(p).page == Some(p);
  }

  // ---------------------------------------------------------------------------
  // The screen's state

  class ArticlesComponent {
    var articles: seq<Article>
    var pagination: Option<Pagination>
    var feeds: seq<FeedConfig>
    var showPublishModalFlag: bool
    var selectedArticle: Option<Article>
    var selectedFeeds: map<nat, bool>
    var schedulePublish: bool
    var scheduledTime: string
    var complianceResults: map<Option<int>, NormalizedCheck>
    var loading: bool
    var error: string

    constructor ()
      ensures articles == [] && pagination.None? && feeds == [] && !showPublishModalFlag
      ensures selectedArticle.None? && selectedFeeds == map[] && !schedulePublish && scheduledTime == ""
      ensures complianceResults == map[] && !loading && error == ""
    {
      articles, pagination, feeds, showPublishModalFlag := [], None, [], false;
      selectedArticle, selectedFeeds, schedulePublish, scheduledTime := None, map[], false, "";
      complianceResults, loading, error := map[], false, "";
    }

    /** `loadArticles(page)`, corrected: marks the list as loading and sends the
        request that names the page. The code as written sends no page at all
        (`ArticlesRequestAsWritten`). */
    method LoadArticles(page: int) returns (request: ArticlesQuery)
      modifies this
      ensures request == ArticlesRequestFor(page) && loading
      ensures articles == old(articles) && pagination == old(pagination) && error == old(error)
      ensures complianceResults == old(complianceResults) && selectedFeeds == old(selectedFeeds)
    {
      loading := true;
      request := ArticlesRequestFor(page);
    }

    /** The success callback of `loadArticles`: the page's articles and pagination. */
    method OnArticlesLoaded(res: ArticlesPage)
      modifies this
      ensures articles == res.data && pagination == Some(Pagination(res.current_page, res.last_page, res.total))
      ensures !loading && error == old(error) && feeds == old(feeds)
    {
      articles := res.data;
      pagination := Some(Pagination(res.current_page, res.last_page, res.total));
      loading := false;
    }

    /** `goToPage`: a load only within 1 .. `last_page`, with the corrected request
        that names the page; `PageTypeError` before any page was loaded, with nothing
        changed. */
    method GoToPage(page: int) returns (step: PageStep, request: Option<ArticlesQuery>)
      modifies this
      ensures step == PageStepFor(old(pagination), page)
      ensures request.Some? <==> step.LoadPage?
      ensures request.Some? ==> request.value == ArticlesRequestFor(page) && loading
      ensures request.None? ==> loading == old(loading)
      ensures articles == old(articles) && pagination == old(pagination) && error == old(error)
      ensures complianceResults == old(complianceResults) && selectedFeeds == old(selectedFeeds)
    {
      step := PageStepFor(pagination, page);
      if step.LoadPage? {
        var r := LoadArticles(page);
        request := Some(r);
      } else {
        request := None;
      }
    }

    /** `checkCompliance`: with no feeds an error and no call; otherwise one call per
        listed feed with id 6, in list order. */
    method CheckCompliance(article: Article) returns (requests: seq<CheckRequest>)
      modifies this
      ensures old(feeds) == [] ==> requests == [] && error == "No feeds available for compliance check"
      ensures old(feeds) != [] ==> requests == CheckRequests(article.id, old(feeds)) && error == old(error)
      ensures feeds == old(feeds) && complianceResults == old(complianceResults) && articles == old(articles)
    {
      if |feeds| == 0 {
        error := "No feeds available for compliance check";
        return [];
      }
      requests := CollectCheckRequests(article.id, feeds);
    }

    /** The success callback of `checkCompliance`: the normalised answer is stored under
        the article's id. */
    method OnComplianceChecked(articleId: Option<int>, response: CheckResponse)
      modifies this
      ensures complianceResults == old(complianceResults)[articleId := Normalize(response)]
      ensures error == old(error) && feeds == old(feeds) && selectedFeeds == old(selectedFeeds)
    {
      complianceResults := complianceResults[articleId := Normalize(response)];
    }

    /** `showPublishModal`: opens the dialog for the article with nothing ticked. */
    method ShowPublishModal(article: Article)
      modifies this
      ensures selectedArticle == Some(article) && selectedFeeds == map[] && showPublishModalFlag
      ensures schedulePublish == old(schedulePublish) && scheduledTime == old(scheduledTime) && error == old(error)
    {
      selectedArticle := Some(article);
      selectedFeeds := map[];
      showPublishModalFlag := true;
    }

    /** `closePublishModal`: closes the dialog and forgets the selection and schedule. */
    method ClosePublishModal()
      modifies this
      ensures !showPublishModalFlag && selectedArticle.None? && selectedFeeds == map[]
      ensures !schedulePublish && scheduledTime == ""
      ensures error == old(error) && complianceResults == old(complianceResults) && articles == old(articles)
    {
      showPublishModalFlag := false;
      selectedArticle := None;
      selectedFeeds := map[];
      schedulePublish := false;
      scheduledTime := "";
    }

    /** `publishArticle`: nothing without a selected article; an error and no call
        without a ticked feed; otherwise one request per ticked feed, sent with the
        single-feed call when there is one and the multi-feed call when there are more. */
    method PublishArticle() returns (call: PublishCall)
      modifies this
      ensures old(selectedArticle).None? ==> call == NoPublish && error == old(error)
      ensures old(selectedArticle).Some? && SelectedFeedIds(old(selectedFeeds)) == [] ==>
        call == NoPublish && error == "Please select at least one feed"
      ensures old(selectedArticle).Some? && SelectedFeedIds(old(selectedFeeds)) != [] ==>
        call == PublishCallFor(old(selectedArticle).value.id,
                               PublishRequests(SelectedFeedIds(old(selectedFeeds)), old(schedulePublish), old(scheduledTime)))
        && error == old(error)
      ensures selectedArticle == old(selectedArticle) && selectedFeeds == old(selectedFeeds)
      ensures complianceResults == old(complianceResults) && showPublishModalFlag == old(showPublishModalFlag)
    {
      if selectedArticle.None? {
        return NoPublish;
      }
      var ids := SelectedFeedIds(selectedFeeds);
      if |ids| == 0 {
        error := "Please select at least one feed";
        return NoPublish;
      }
      var requests := PublishRequests(ids, schedulePublish, scheduledTime);
      if |requests| == 1 {
        call := PublishSingle(selectedArticle.value.id, requests[0]);
      } else {
        call := PublishMultiple(selectedArticle.value.id, requests);
      }
    }

    /** `handleMultiplePublishResults`: full success closes the dialog; a partial
        success changes nothing here; a total failure sets the error. */
    method HandleMultiplePublishResults(results: seq<ComplianceResult>) returns (outcome: PublishOutcome)
      modifies this
      ensures outcome == MultiPublishOutcome(results)
      ensures outcome.PublishedToAll? ==> !showPublishModalFlag && selectedArticle.None? && selectedFeeds == map[] && error == old(error)
      ensures outcome.PublishedToSome? ==> showPublishModalFlag == old(showPublishModalFlag) && selectedFeeds == old(selectedFeeds) && error == old(error)
      ensures outcome.PublishedToNone? ==>
        error == "Article failed compliance checks for all feeds and was not published" && selectedFeeds == old(selectedFeeds)
      ensures complianceResults == old(complianceResults) && articles == old(articles)
    {
      outcome := MultiPublishOutcome(results);
      if outcome.PublishedToAll? {
        ClosePublishModal();
      } else if outcome.PublishedToNone? {
        error := "Article failed compliance checks for all feeds and was not published";
      }
    }
  }
}
