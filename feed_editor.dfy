/** The feed screen (`FeedsComponent`): the guideline form, its translation to and from
    the `api_specifications` object, and the list and statistics updates applied to
    the backend's answers. */
module FeedEditor {
  import opened Js
  import opened Text
  import opened Seqs
  import opened CommaList
  import opened Models

  /** The values the form reads from and writes to an `api_specifications` object. */
  datatype SpecValues = SpecValues(
    prohibited_terms: Option<seq<string>>,
    required_fields: Option<seq<string>>,
    allowed_categories: Option<seq<string>>,
    title_min_length: Option<int>,
    title_max_length: Option<int>,
    content_min_length: Option<int>,
    content_max_length: Option<int>)

  /** The form's view of a feed's guidelines: three list texts and four bounds, with
      the body bounds under their guideline names. */
  datatype FeedForm = FeedForm(
    prohibitedTopicsText: string,
    requiredFieldsText: string,
    allowedCategoriesText: string,
    title_min_length: Option<int>,
    title_max_length: Option<int>,
    body_min_length: Option<int>,
    body_max_length: Option<int>)

  /** The values of a specifications object; a missing object reads as `{}`. */
  function ValuesOf(spec: ApiSpecifications?): SpecValues
    reads spec
  {
    if spec == null then SpecValues(None, None, None, None, None, None, None)
    else SpecValues(spec.prohibited_terms, spec.required_fields, spec.allowed_categories,
                    spec.title_min_length, spec.title_max_length, spec.content_min_length, spec.content_max_length)
  }

  /** What `editFeed` shows for the stored values: lists joined with `', '` (an absent
      list as `''`), bounds `|| null`, and `content_*` under `body_*`. */
  function FormFromSpec(v: SpecValues): (f: FeedForm)
    ensures v.prohibited_terms.None? ==> f.prohibitedTopicsText == ""
    ensures v.required_fields.None? ==> f.requiredFieldsText == ""
    ensures v.allowed_categories.None? ==> f.allowedCategoriesText == ""
    ensures f.body_min_length == OrNull(v.content_min_length) && f.body_max_length == OrNull(v.content_max_length)
    ensures f.title_min_length == OrNull(v.title_min_length) && f.title_max_length == OrNull(v.title_max_length)
  {
    FeedForm(FormatOrEmpty(v.prohibited_terms), FormatOrEmpty(v.required_fields), FormatOrEmpty(v.allowed_categories),
             OrNull(v.title_min_length), OrNull(v.title_max_length),
             OrNull(v.content_min_length), OrNull(v.content_max_length))
  }

  /** Stored values the form reproduces: every list present and clean, every bound
      absent or non-zero. */
  predicate WellFormedSpec(v: SpecValues)
  {
    && v.prohibited_terms.Some? && (forall i :: 0 <= i < |v.prohibited_terms.value| ==> Clean(v.prohibited_terms.value[i]))
    && v.required_fields.Some? && (forall i :: 0 <= i < |v.required_fields.value| ==> Clean(v.required_fields.value[i]))
    && v.allowed_categories.Some? && (forall i :: 0 <= i < |v.allowed_categories.value| ==> Clean(v.allowed_categories.value[i]))
    && v.title_min_length != Some(0) && v.title_max_length != Some(0)
    && v.content_min_length != Some(0) && v.content_max_length != Some(0)
  }

  /** What `saveFeed` writes: each list the comma parse of its text, each bound
      `|| null`, and `body_*` under `content_*`. What it writes is always well formed. */
  function SpecFromForm(f: FeedForm): (v: SpecValues)
    ensures WellFormedSpec(v)
    ensures v.content_min_length == OrNull(f.body_min_length) && v.content_max_length == OrNull(f.body_max_length)
    ensures v.title_min_length == OrNull(f.title_min_length) && v.title_max_length == OrNull(f.title_max_length)
  {
    ParseItemsClean(f.prohibitedTopicsText);
    ParseItemsClean(f.requiredFieldsText);
    ParseItemsClean(f.allowedCategoriesText);
    SpecValues(Some(Parse(f.prohibitedTopicsText)), Some(Parse(f.requiredFieldsText)), Some(Parse(f.allowedCategoriesText)),
               OrNull(f.title_min_length), OrNull(f.title_max_length),
               OrNull(f.body_min_length), OrNull(f.body_max_length))
  }

  /** Round trip: showing well-formed stored values in the form and saving them without
      edits writes the same values back. */
  lemma FeedFormRoundTrip(v: SpecValues)
    requires WellFormedSpec(v)
    ensures SpecFromForm(FormFromSpec(v)) == v
  {
    ParseFormat(v.prohibited_terms.value);
    ParseFormat(v.required_fields.value);
    ParseFormat(v.allowed_categories.value);
  }

  /** Saving normalises: what one save writes, a second edit-and-save writes again. */
  lemma SaveAfterSaveIsStable(f: FeedForm)
    ensures SpecFromForm(FormFromSpec(SpecFromForm(f))) == SpecFromForm(f)
  {
    FeedFormRoundTrip(SpecFromForm(f));
  }

  /** The assignments of `saveFeed` into a specifications object: each of the seven
      keys gets its value; the object's other keys are untouched. */
  method WriteValues(spec: ApiSpecifications, v: SpecValues)
    modifies spec
    ensures ValuesOf(spec) == v
    ensures spec.others == old(spec.others)
  {
    spec.prohibited_terms := v.prohibited_terms;
    spec.required_fields := v.required_fields;
    spec.allowed_categories := v.allowed_categories;
    spec.title_min_length := v.title_min_length;
    spec.title_max_length := v.title_max_length;
    spec.content_min_length := v.content_min_length;
    spec.content_max_length := v.content_max_length;
  }

  /** `initializeFeed`. */
  const InitialFeed: FeedConfig := FeedConfig(None, "", "", EmptyGuidelines, true)

  /** What the screen hands to the backend. */
  datatype FeedRequest =
    | NoRequest
    | UpdateFeed(id: int, feed: FeedConfig)
    | CreateFeed(feed: FeedConfig)
    | DeleteFeed(deleteId: int)
    | ToggleStatus(feedId: Option<int>, feed: FeedConfig)

  /** The request `saveFeed` sends: an update of the edited feed's id when that id is
      truthy, a creation otherwise; either way it carries the feed as saved. */
  function SaveRequest(editingFeed: Option<FeedConfig>, feed: FeedConfig): (r: FeedRequest)
    ensures r.UpdateFeed? <==> editingFeed.Some? && TruthyNum(editingFeed.value.id)
    ensures r.UpdateFeed? ==> r.id == editingFeed.value.id.value
    ensures (r.UpdateFeed? || r.CreateFeed?) && r.feed == feed
  {
    if editingFeed.Some? && TruthyNum(editingFeed.value.id) then UpdateFeed(editingFeed.value.id.value, feed)
    else CreateFeed(feed)
  }

  /** The screen's state. */
  class FeedsComponent {
    var feeds: seq<FeedConfig>
    var currentFeed: FeedConfig
    var editingFeed: Option<FeedConfig>
    var showCreateForm: bool
    var feedStats: map<int, FeedStats>
    var error: string
    var prohibitedTopicsText: string
    var requiredFieldsText: string
    var allowedCategoriesText: string

    /** The form as one value. */
    function Form(): FeedForm
      reads this
    {
      var g := currentFeed.guidelines;
      FeedForm(prohibitedTopicsText, requiredFieldsText, allowedCategoriesText,
               g.title_min_length, g.title_max_length, g.body_min_length, g.body_max_length)
    }

    constructor ()
      ensures feeds == [] && feedStats == map[] && currentFeed == InitialFeed && editingFeed == None
      ensures !showCreateForm && error == ""
      ensures prohibitedTopicsText == "" && requiredFieldsText == "" && allowedCategoriesText == ""
    {
      feeds, feedStats, currentFeed, editingFeed := [], map[], InitialFeed, None;
      showCreateForm, error := false, "";
      prohibitedTopicsText, requiredFieldsText, allowedCategoriesText := "", "", "";
    }

    /** The first step of `saveFeed`: the guidelines get an empty specifications object
        only when they have none; an existing one is kept. */
    method EnsureSpecifications() returns (spec: ApiSpecifications)
      modifies this
      ensures spec == currentFeed.guidelines.api_specifications
      ensures old(currentFeed.guidelines.api_specifications) != null ==> spec == old(currentFeed.guidelines.api_specifications)
      ensures old(currentFeed.guidelines.api_specifications) == null ==> fresh(spec) && ValuesOf(spec) == ValuesOf(null) && spec.others == map[]
      ensures currentFeed == old(currentFeed).(guidelines := old(currentFeed.guidelines).(api_specifications := spec))
      ensures feeds == old(feeds) && feedStats == old(feedStats) && editingFeed == old(editingFeed)
      ensures Form() == old(Form()) && showCreateForm == old(showCreateForm) && error == old(error)
    {
      if currentFeed.guidelines.api_specifications == null {
        spec := new ApiSpecifications();
        currentFeed := currentFeed.(guidelines := currentFeed.guidelines.(api_specifications := spec));
      } else {
        spec := currentFeed.guidelines.api_specifications;
      }
    }

    /** The writing half of `saveFeed`: makes sure the guidelines have a specifications
        object (creating an empty one only when there is none) and writes the form into
        it in place. Keys of an existing object that the form does not know are kept. */
    method StoreForm() returns (spec: ApiSpecifications)
      modifies this, currentFeed.guidelines.api_specifications
      ensures spec == currentFeed.guidelines.api_specifications
      ensures old(currentFeed.guidelines.api_specifications) != null ==> spec == old(currentFeed.guidelines.api_specifications)
      ensures old(currentFeed.guidelines.api_specifications) != null ==> spec.others == old(spec.others)
      ensures old(currentFeed.guidelines.api_specifications) == null ==> fresh(spec) && spec.others == map[]
      ensures ValuesOf(spec) == SpecFromForm(old(Form()))
      ensures currentFeed == old(currentFeed).(guidelines := old(currentFeed.guidelines).(api_specifications := spec))
      ensures feeds == old(feeds) && feedStats == old(feedStats) && editingFeed == old(editingFeed)
      ensures Form() == old(Form()) && showCreateForm == old(showCreateForm) && error == old(error)
    {
      var values := SpecFromForm(Form());
      spec := EnsureSpecifications();
      WriteValues(spec, values);
    }

    /** `saveFeed`: stores the form (see `StoreForm`), then asks for an update when the
        feed being edited has a (truthy) id, a creation otherwise. */
    method SaveFeed() returns (request: FeedRequest)
      modifies this, currentFeed.guidelines.api_specifications
      ensures currentFeed.guidelines.api_specifications != null
      ensures old(currentFeed.guidelines.api_specifications) != null ==>
        currentFeed.guidelines.api_specifications == old(currentFeed.guidelines.api_specifications)
      ensures old(currentFeed.guidelines.api_specifications) != null ==>
        currentFeed.guidelines.api_specifications.others == old(currentFeed.guidelines.api_specifications.others)
      ensures old(currentFeed.guidelines.api_specifications) == null ==>
        fresh(currentFeed.guidelines.api_specifications) && currentFeed.guidelines.api_specifications.others == map[]
      ensures ValuesOf(currentFeed.guidelines.api_specifications) == SpecFromForm(old(Form()))
      ensures currentFeed == old(currentFeed).(guidelines := old(currentFeed.guidelines).(api_specifications := currentFeed.guidelines.api_specifications))
      ensures request == SaveRequest(editingFeed, currentFeed)
      ensures feeds == old(feeds) && feedStats == old(feedStats) && editingFeed == old(editingFeed)
      ensures Form() == old(Form()) && showCreateForm == old(showCreateForm) && error == old(error)
    {
      var spec := StoreForm();
      request := SaveRequest(editingFeed, currentFeed);
    }

    /** `editFeed`: remembers the feed, copies it with a shallow copy of its guidelines
        (the specifications object is shared, not copied) and fills the form from the
        specifications object. */
    method EditFeed(feed: FeedConfig)
      modifies this
      ensures editingFeed == Some(feed) && showCreateForm
      ensures currentFeed.guidelines.api_specifications == feed.guidelines.api_specifications
      ensures currentFeed == feed.(guidelines := feed.guidelines.(
        title_min_length := Form().title_min_length, title_max_length := Form().title_max_length,
        body_min_length := Form().body_min_length, body_max_length := Form().body_max_length))
      ensures Form() == FormFromSpec(ValuesOf(feed.guidelines.api_specifications))
      ensures feeds == old(feeds) && feedStats == old(feedStats) && error == old(error)
    {
      editingFeed := Some(feed);
      currentFeed := feed;
      var apiSpec := ValuesOf(feed.guidelines.api_specifications);
      prohibitedTopicsText := FormatOrEmpty(apiSpec.prohibited_terms);
      requiredFieldsText := FormatOrEmpty(apiSpec.required_fields);
      allowedCategoriesText := FormatOrEmpty(apiSpec.allowed_categories);
      currentFeed := currentFeed.(guidelines := currentFeed.guidelines.(
        title_min_length := OrNull(apiSpec.title_min_length),
        title_max_length := OrNull(apiSpec.title_max_length),
        body_min_length := OrNull(apiSpec.content_min_length),
        body_max_length := OrNull(apiSpec.content_max_length)));
      showCreateForm := true;
    }

    /** `cancelFeedEdit`: closes the form, restores a fresh feed and empties the texts. */
    method CancelFeedEdit()
      modifies this
      ensures !showCreateForm && editingFeed == None && currentFeed == InitialFeed && error == ""
      ensures prohibitedTopicsText == "" && requiredFieldsText == "" && allowedCategoriesText == ""
      ensures feeds == old(feeds) && feedStats == old(feedStats)
    {
      showCreateForm := false;
      editingFeed := None;
      currentFeed := InitialFeed;
      prohibitedTopicsText := "";
      requiredFieldsText := "";
      allowedCategoriesText := "";
      error := "";
    }

    /** The update callback of `saveFeed`: the first listed feed with the returned id is
        replaced, nothing changes when there is none, and the form is reset. */
    method OnFeedUpdated(feed: FeedConfig)
      modifies this
      ensures var i := FindIndex(old(feeds), (f: FeedConfig) => f.id == feed.id);
        feeds == if i >= 0 then old(feeds)[i := feed] else old(feeds)
      ensures !showCreateForm && editingFeed == None && currentFeed == InitialFeed && error == ""
      ensures prohibitedTopicsText == "" && requiredFieldsText == "" && allowedCategoriesText == ""
      ensures feedStats == old(feedStats)
    {
      var index := FindIndex(feeds, (f: FeedConfig) => f.id == feed.id);
      if index >= 0 {
        feeds := feeds[index := feed];
      }
      CancelFeedEdit();
    }

    /** The create callback of `saveFeed`: the new feed goes first and the form is
        reset. */
    method OnFeedCreated(feed: FeedConfig)
      modifies this
      ensures feeds == [feed] + old(feeds)
      ensures !showCreateForm && editingFeed == None && currentFeed == InitialFeed && error == ""
      ensures prohibitedTopicsText == "" && requiredFieldsText == "" && allowedCategoriesText == ""
      ensures feedStats == old(feedStats)
    {
      feeds := [feed] + feeds;
      CancelFeedEdit();
    }

    /** `deleteFeed`: a deletion is requested only when the user confirmed. The
        confirmation dialog is the parameter `confirmed`. */
    method DeleteFeedRequest(id: int, confirmed: bool) returns (request: FeedRequest)
      ensures request == if confirmed then DeleteFeed(id) else NoRequest
    {
      request := if confirmed then DeleteFeed(id) else NoRequest;
    }

    /** The success callback of `deleteFeed`: every feed with that id goes, the others
        stay in their order, and the id's statistics entry goes. */
    method OnFeedDeleted(id: int)
      modifies this
      ensures feeds == Filter(old(feeds), (f: FeedConfig) => f.id != Some(id))
      ensures forall f :: f in feeds <==> f in old(feeds) && f.id != Some(id)
      ensures feedStats == old(feedStats) - {id}
      ensures currentFeed == old(currentFeed) && editingFeed == old(editingFeed) && Form() == old(Form())
    {
      feeds := Filter(feeds, (f: FeedConfig) => f.id != Some(id));
      feedStats := map k | k in feedStats && k != id :: feedStats[k];
      forall f ensures f in feeds <==> f in old(feeds) && f.id != Some(id) {
        FilterMember(old(feeds), (g: FeedConfig) => g.id != Some(id), f);
      }
    }

    /** `toggleFeedStatus`: sends a copy of the feed with `is_active` negated. The id is
        used as it is, even when the feed has none. */
    method ToggleFeedStatus(feed: FeedConfig) returns (request: FeedRequest)
      ensures request == ToggleStatus(feed.id, feed.(is_active := !feed.is_active))
    {
      request := ToggleStatus(feed.id, feed.(is_active := !feed.is_active));
    }

    /** The success callback of `toggleFeedStatus`: the first listed feed with the
        returned id is replaced; the form is not touched. */
    method OnFeedStatusUpdated(updated: FeedConfig)
      modifies this
      ensures var i := FindIndex(old(feeds), (f: FeedConfig) => f.id == updated.id);
        feeds == if i >= 0 then old(feeds)[i := updated] else old(feeds)
      ensures |feeds| == |old(feeds)|
      ensures currentFeed == old(currentFeed) && editingFeed == old(editingFeed) && Form() == old(Form())
      ensures feedStats == old(feedStats) && showCreateForm == old(showCreateForm)
    {
      var index := FindIndex(feeds, (f: FeedConfig) => f.id == updated.id);
      if index >= 0 {
        feeds := feeds[index := updated];
      }
    }
  }

  /** Editing a feed with well-formed specifications and saving it without edits writes
      the same values back into the shared specifications object and sends the feed
      with that very object. */
  method EditThenSaveFeed(screen: FeedsComponent, feed: FeedConfig) returns (request: FeedRequest)
    requires feed.guidelines.api_specifications != null
    requires WellFormedSpec(ValuesOf(feed.guidelines.api_specifications))
    modifies screen, feed.guidelines.api_specifications
    ensures ValuesOf(feed.guidelines.api_specifications) == old(ValuesOf(feed.guidelines.api_specifications))
    ensures (request.UpdateFeed? || request.CreateFeed?) && request.feed.guidelines.api_specifications == feed.guidelines.api_specifications
  {
    screen.EditFeed(feed);
    FeedFormRoundTrip(ValuesOf(feed.guidelines.api_specifications));
    request := screen.SaveFeed();
  }

  /** Because the specifications object is shared, saving an edited list changes the
      listed feed's specifications at once, before any answer from the backend. */
  method EditedTermsReachListedFeed(screen: FeedsComponent, feed: FeedConfig, terms: string)
    requires feed.guidelines.api_specifications != null
    modifies screen, feed.guidelines.api_specifications
    ensures feed.guidelines.api_specifications.prohibited_terms == Some(Parse(terms))
  {
    screen.EditFeed(feed);
    screen.prohibitedTopicsText := terms;
    var request := screen.SaveFeed();
  }
}
