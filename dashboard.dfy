/** The admin dashboard of the full version: it caches the whole feedback list,
    shows four stat cards computed from it, and lists the items that pass the
    four filter selects as cards with contextual actions. The markup is not
    modelled; what each card shows is. */
module Dashboard {
  import opened JsValues
  import opened JsArrays
  import opened JsText
  import opened Feedback

  /** The four filter selects; a filter that is null (or the empty string)
      imposes no constraint. */
  datatype Filters = Filters(
    status: Option<string>,
    tier: Option<string>,
    priority: Option<string>,
    category: Option<string>)

  const NO_FILTERS: Filters := Filters(None, None, None, None)

  datatype FilterField = StatusFilter | TierFilter | PriorityFilter | CategoryFilter

  /** `e.target.value || null`: the "all" option stores null. */
  function SelectValue(value: string): (r: Option<string>)
    ensures r.None? <==> value == ""
    ensures r.Some? ==> r.value == value
  {
    if value == "" then None else Some(value)
  }

  /** `filters[field] = v`, leaving the other three filters alone. */
  function WithFilter(filters: Filters, field: FilterField, v: Option<string>): Filters {
    match field
    case StatusFilter => filters.(status := v)
    case TierFilter => filters.(tier := v)
    case PriorityFilter => filters.(priority := v)
    case CategoryFilter => filters.(category := v)
  }

  /** `f.status === filter` when the filter is set. */
  predicate StatusPasses(item: FeedbackItem, filter: Option<string>) {
    !Truthy(filter) || item.status == filter
  }

  /** `f.tier == filter` when the filter is set: loose equality, so the
      select's text `"2"` matches the number 2. */
  predicate TierPasses(item: FeedbackItem, filter: Option<string>) {
    !Truthy(filter) || LooseEqualsNumber(item.tier, filter.value)
  }

  predicate PriorityPasses(item: FeedbackItem, filter: Option<string>) {
    !Truthy(filter) || item.priority == filter
  }

  predicate CategoryPasses(item: FeedbackItem, filter: Option<string>) {
    !Truthy(filter) || item.category == filter
  }

  /** An item is listed when it passes every filter. */
  predicate Matches(item: FeedbackItem, filters: Filters) {
    && StatusPasses(item, filters.status)
    && TierPasses(item, filters.tier)
    && PriorityPasses(item, filters.priority)
    && CategoryPasses(item, filters.category)
  }

  /** The listed items, decided in one pass over the cache. */
  function Filter(items: seq<FeedbackItem>, filters: Filters): (r: seq<FeedbackItem>)
    ensures |r| <= |items|
    ensures forall i :: 0 <= i < |r| ==> Matches(r[i], filters)
  {
    if items == [] then []
    else (if Matches(items[0], filters) then [items[0]] else []) + Filter(items[1..], filters)
  }

  /** The one-pass filter is `items.filter` with the conjunction of the filters. */
  lemma {:induction false} FilterIsKeep(items: seq<FeedbackItem>, filters: Filters, p: FeedbackItem -> bool)
    requires forall i :: 0 <= i < |items| ==> p(items[i]) == Matches(items[i], filters)
    ensures Filter(items, filters) == Keep(items, p)
  {
    if items != [] {
      FilterIsKeep(items[1..], filters, p);
    }
  }

  /** The dashboard's filtering: starting from the whole cache, each filter
      that is set narrows the list once more. */
  method ApplyFilters(items: seq<FeedbackItem>, filters: Filters) returns (filtered: seq<FeedbackItem>)
    ensures filtered == Filter(items, filters)
  {
    ghost var upToStatus := (f: FeedbackItem) => StatusPasses(f, filters.status);
    ghost var upToTier := (f: FeedbackItem) => upToStatus(f) && TierPasses(f, filters.tier);
    ghost var upToPriority := (f: FeedbackItem) => upToTier(f) && PriorityPasses(f, filters.priority);
    ghost var upToCategory := (f: FeedbackItem) => upToPriority(f) && CategoryPasses(f, filters.category);

    filtered := items;
    if Truthy(filters.status) {
      var v := filters.status;
      filtered := Keep(filtered, (f: FeedbackItem) => f.status == v);
      KeepAgree(items, (f: FeedbackItem) => f.status == v, upToStatus);
    } else {
      KeepAll(items, upToStatus);
    }
    assert filtered == Keep(items, upToStatus);

    if Truthy(filters.tier) {
      var v := filters.tier.value;
      var p := (f: FeedbackItem) => LooseEqualsNumber(f.tier, v);
      KeepKeep(items, upToStatus, p, upToTier);
      filtered := Keep(filtered, p);
    } else {
      KeepAgree(items, upToStatus, upToTier);
    }
    assert filtered == Keep(items, upToTier);

    if Truthy(filters.priority) {
      var v := filters.priority;
      var p := (f: FeedbackItem) => f.priority == v;
      KeepKeep(items, upToTier, p, upToPriority);
      filtered := Keep(filtered, p);
    } else {
      KeepAgree(items, upToTier, upToPriority);
    }
    assert filtered == Keep(items, upToPriority);

    if Truthy(filters.category) {
      var v := filters.category;
      var p := (f: FeedbackItem) => f.category == v;
      KeepKeep(items, upToPriority, p, upToCategory);
      filtered := Keep(filtered, p);
    } else {
      KeepAgree(items, upToPriority, upToCategory);
    }
    FilterIsKeep(items, filters, upToCategory);
  }

  /** The listed items are exactly the cached items that pass every filter,
      each as often as it is cached. */
  lemma FilterExact(items: seq<FeedbackItem>, filters: Filters, x: FeedbackItem)
    ensures x in Filter(items, filters) <==> x in items && Matches(x, filters)
    ensures multiset(Filter(items, filters))[x] == if Matches(x, filters) then multiset(items)[x] else 0
  {
    var p := (f: FeedbackItem) => Matches(f, filters);
    FilterIsKeep(items, filters, p);
    KeepMembers(items, p, x);
    KeepMultiplicity(items, p, x);
  }

  /** The listed items keep the order the server sent them in. */
  lemma FilterKeepsOrder(items: seq<FeedbackItem>, filters: Filters)
    ensures IsSubsequence(Filter(items, filters), items)
  {
    var p := (f: FeedbackItem) => Matches(f, filters);
    FilterIsKeep(items, filters, p);
    KeepIsSubsequence(items, p);
  }

  /** Filtering the listed items again with the same filters lists the same items. */
  lemma FilterIdempotent(items: seq<FeedbackItem>, filters: Filters)
    ensures Filter(Filter(items, filters), filters) == Filter(items, filters)
  {
    var p := (f: FeedbackItem) => Matches(f, filters);
    FilterIsKeep(items, filters, p);
    FilterIsKeep(Filter(items, filters), filters, p);
    KeepIdempotent(items, p);
  }

  /** With no filter set (all null, or all the "all" option) the whole cache is listed. */
  lemma FilterUnconstrained(items: seq<FeedbackItem>, filters: Filters)
    requires !Truthy(filters.status) && !Truthy(filters.tier)
    requires !Truthy(filters.priority) && !Truthy(filters.category)
    ensures Filter(items, filters) == items
  {
    var p := (f: FeedbackItem) => Matches(f, filters);
    FilterIsKeep(items, filters, p);
    KeepAll(items, p);
  }

  /** The tier select offers the numerals of the tiers; choosing one lists
      exactly the items of that tier. */
  lemma TierFilterSelectsTier(item: FeedbackItem, n: nat)
    ensures TierPasses(item, Some(NatToString(n))) <==> item.tier == Some(n)
  {
    LooseEqualsNumeral(item.tier, n);
  }

  predicate IsWaiting(item: FeedbackItem) {
    item.status.Some? && item.status.value in WAITING_STATUSES
  }

  /** The stat cards: all cached items, those with status `neu`, those
      waiting on a user, admin or owner decision, and those `geloest`. An item
      is counted on at most one of the last three cards. */
  function StatsOf(items: seq<FeedbackItem>): (s: Stats)
    ensures s.total == |items|
    ensures s.neu == Count(items, IsNeu)
    ensures s.waiting == Count(items, IsWaiting)
    ensures s.resolved == Count(items, IsResolved)
    ensures s.neu + s.waiting + s.resolved <= s.total
    ensures s.neu == 0 <==> forall i :: 0 <= i < |items| ==> items[i].status != Some("neu")
    ensures s.waiting == 0 <==> forall i :: 0 <= i < |items| ==> !IsWaiting(items[i])
    ensures s.resolved == 0 <==> forall i :: 0 <= i < |items| ==> items[i].status != Some("geloest")
  {
    CountExclusive(items, IsNeu, IsWaiting, IsResolved);
    Stats(|items|, Count(items, IsNeu), Count(items, IsWaiting), Count(items, IsResolved))
  }

  /** The stats of two lists together are the sums of their stats. */
  lemma StatsOfAppend(a: seq<FeedbackItem>, b: seq<FeedbackItem>)
    ensures StatsOf(a + b) == StatsOf(a).Plus(StatsOf(b))
  {
    CountAppend(a, b, IsNeu);
    CountAppend(a, b, IsWaiting);
    CountAppend(a, b, IsResolved);
  }

  /** One item counts once in the total and once on the card of its status. */
  lemma StatsOfOne(item: FeedbackItem)
    ensures StatsOf([item]) == Stats(1,
                                     if item.status == Some("neu") then 1 else 0,
                                     if IsWaiting(item) then 1 else 0,
                                     if item.status == Some("geloest") then 1 else 0)
  {
    CountOne(item, IsNeu);
    CountOne(item, IsWaiting);
    CountOne(item, IsResolved);
  }

  /** The actions a card offers. */
  datatype CardAction = Triage | Approve | Reject | GitHub

  /** Triage and GitHub always; approve and reject only while the item waits. */
  function Actions(status: string): (acts: seq<CardAction>)
    ensures |acts| > 0 && acts[0] == Triage && acts[|acts| - 1] == GitHub
    ensures Approve in acts <==> StartsWith(status, "waiting")
    ensures Reject in acts <==> StartsWith(status, "waiting")
  {
    [Triage] + (if StartsWith(status, "waiting") then [Approve, Reject] else []) + [GitHub]
  }

  /** `truncate(str, length)`: empty for a missing or empty text, the text
      itself when it fits, else its first `length` characters and `...`. */
  function Truncate(s: Option<string>, length: nat): (r: string)
    ensures |r| <= length + 3
    ensures !Truthy(s) ==> r == ""
    ensures Truthy(s) && |s.value| <= length ==> r == s.value
    ensures Truthy(s) && |s.value| > length ==>
              |r| == length + 3 && r[..length] == s.value[..length] && r[length..] == "..."
  {
    if !Truthy(s) then ""
    else if |s.value| <= length then s.value
    else s.value[..length] + "..."
  }

  /** Truncating a truncated text changes nothing. */
  lemma TruncateIdempotent(s: Option<string>, length: nat)
    ensures Truncate(Some(Truncate(s, length)), length) == Truncate(s, length)
  {
    var r := Truncate(s, length);
    if Truthy(s) && |s.value| > length {
      assert r[..length] + "..." == r;
    }
  }

  /** What one card shows. */
  datatype Card = Card(
    id: string,
    status: Badge,
    priority: Badge,
    category: CategoryBadge,
    tier: TierBadge,
    message: string,
    context: string,
    aiSummary: Option<string>,
    actions: seq<CardAction>)

  /** `renderFeedbackCard`. It calls `feedback.status.startsWith`, which throws
      a TypeError when the status is missing (Failure). */
  function CardFor(item: FeedbackItem): (r: Result<Card, string>)
    ensures r.Failure? <==> item.status.None?
    ensures r.Success? ==>
              && r.value.id == item.id
              && r.value.message == Truncate(item.message, 150)
              && |r.value.message| <= 153
              && (r.value.aiSummary.Some? <==> Truthy(item.aiSummary))
              && r.value.actions == Actions(item.status.value)
  {
    if item.status.None? then Failure("TypeError: status is undefined")
    else
      Success(Card(
        item.id,
        StatusBadge(item.status),
        PriorityBadge(item.priority),
        CategoryBadgeOf(item.category),
        TierBadgeOf(item.tier),
        Truncate(item.message, 150),
        Or(item.tabContext, "Unbekannt"),
        if Truthy(item.aiSummary) then Some(Truncate(item.aiSummary, 100)) else None,
        Actions(item.status.value)))
  }

  /** `filtered.map(renderFeedbackCard)`: one card per item, in order, or
      the first item's TypeError. */
  function Cards(items: seq<FeedbackItem>): (r: Result<seq<Card>, string>)
    ensures r.Success? <==> forall i :: 0 <= i < |items| ==> items[i].status.Some?
    ensures r.Success? ==> |r.value| == |items|
  {
    MapOrThrow(items, CardFor)
  }

  /** Each card is the rendering of the item at the same position. */
  lemma CardsPointwise(items: seq<FeedbackItem>, i: nat)
    requires Cards(items).Success? && i < |items|
    ensures CardFor(items[i]) == Success(Cards(items).value[i])
  {
    MapOrThrowPointwise(items, CardFor, i);
  }

  /** An item without a status stops the whole list at the first such item. */
  lemma CardsFailAtFirstMissingStatus(items: seq<FeedbackItem>, i: nat)
    requires i < |items| && items[i].status.None?
    requires forall j :: 0 <= j < i ==> items[j].status.Some?
    ensures Cards(items) == Failure(CardFor(items[i]).error)
  {
    MapOrThrowFirstFailure(items, CardFor, i);
  }

  /** What the list area shows. */
  datatype ListView = Loading | NothingFound | Showing(cards: seq<Card>) | LoadFailed

  /** `renderFeedbackList` after filtering: the empty-state text, the cards,
      or the exception a card threw. */
  function ListFor(filtered: seq<FeedbackItem>): (r: Result<ListView, string>)
    ensures filtered == [] ==> r == Success(NothingFound)
    ensures filtered != [] ==> (r.Success? <==> Cards(filtered).Success?)
    ensures r.Success? && filtered != [] ==> r.value == Showing(Cards(filtered).value)
    ensures r.Failure? ==> r.error == Cards(filtered).error
  {
    if filtered == [] then Success(NothingFound)
    else
      match Cards(filtered)
      case Failure(e) => Failure(e)
      case Success(cs) => Success(Showing(cs))
  }

  /** `this.feedbacks.find(f => f.id === feedbackId)`: the first cached item
      with that id. */
  function FindById(items: seq<FeedbackItem>, id: string): (r: Option<FeedbackItem>)
    ensures r.None? <==> forall i :: 0 <= i < |items| ==> items[i].id != id
    ensures r.Some? ==> exists i :: 0 <= i < |items| && items[i] == r.value && items[i].id == id &&
                                    forall j :: 0 <= j < i ==> items[j].id != id
  {
    Find(items, (f: FeedbackItem) => f.id == id)
  }

  class AdminDashboard {
    /** The cached list, replaced wholesale by every successful load. */
    var feedbacks: seq<FeedbackItem>
    var filters: Filters
    /** The stat cards; None while they still show `-`. */
    var stats: Option<Stats>
    var view: ListView
    /** The item shown in the detail view, if it is open. */
    var detail: Option<FeedbackItem>
    /** The filters the list area was last rendered with. */
    ghost var shownFilters: Filters

    /** The stat cards always describe the whole cache, and the list area,
        when it shows cards, shows the cache filtered by `shownFilters`. */
    ghost predicate Valid()
      reads this
    {
      StatsValid() && ViewValid()
    }

    ghost predicate StatsValid()
      reads this
    {
      && (stats.Some? ==> stats.value == StatsOf(feedbacks))
      && (stats.None? ==> feedbacks == [])
    }

    ghost predicate ViewValid()
      reads this
    {
      view.NothingFound? || view.Showing? ==> ListFor(Filter(feedbacks, shownFilters)) == Success(view)
    }

    constructor ()
      ensures Valid()
      ensures feedbacks == [] && filters == NO_FILTERS && stats == None
      ensures view == Loading && detail == None
    {
      feedbacks, filters, stats, view, detail := [], NO_FILTERS, None, Loading, None;
      shownFilters := NO_FILTERS;
    }

    /** Filters the cache and redraws the list. When a card throws, the
        exception escapes and the list area is left as it was. */
    method RenderFeedbackList() returns (threw: bool)
      requires StatsValid()
      modifies this`view, this`shownFilters
      ensures StatsValid()
      ensures !threw ==> ViewValid()
      ensures threw <==> ListFor(Filter(feedbacks, filters)).Failure?
      ensures !threw ==> view == ListFor(Filter(feedbacks, filters)).value && shownFilters == filters
      ensures threw ==> view == old(view) && shownFilters == old(shownFilters)
    {
      var filtered := ApplyFilters(feedbacks, filters);
      var list := ListFor(filtered);
      if list.Failure? {
        return true;
      }
      view, shownFilters := list.value, filters;
      threw := false;
    }

    /** The change handler of a filter select. */
    method SetFilter(field: FilterField, value: string) returns (threw: bool)
      requires Valid()
      modifies this`filters, this`view, this`shownFilters
      ensures Valid()
      ensures filters == WithFilter(old(filters), field, SelectValue(value))
      ensures shownFilters == if threw then old(shownFilters) else filters
      ensures threw <==> ListFor(Filter(feedbacks, filters)).Failure?
      ensures !threw ==> view == ListFor(Filter(feedbacks, filters)).value
      ensures threw ==> view == old(view)
    {
      filters := WithFilter(filters, field, SelectValue(value));
      threw := RenderFeedbackList();
    }

    /** `loadFeedbacks` with the outcome of the request. A 2xx response
        replaces the cache, recomputes the stats and redraws the list (a
        card that throws there is caught and shows the load error); an error
        response changes nothing; an exception shows the load error. */
    method LoadFeedbacks(outcome: LoadOutcome)
      requires Valid()
      modifies this`feedbacks, this`stats, this`view, this`shownFilters
      ensures Valid()
      ensures outcome.Loaded? ==>
                && feedbacks == outcome.items
                && stats == Some(StatsOf(outcome.items))
                && view == (match ListFor(Filter(outcome.items, filters))
                            case Success(v) => v
                            case Failure(_) => LoadFailed)
      ensures outcome.HttpError? ==>
                feedbacks == old(feedbacks) && stats == old(stats) && view == old(view)
      ensures outcome.Threw? ==>
                feedbacks == old(feedbacks) && stats == old(stats) && view == LoadFailed
    {
      match outcome
      case Loaded(items) =>
        feedbacks := items;
        stats := Some(StatsOf(feedbacks));
        var threw := RenderFeedbackList();
        if threw {
          view := LoadFailed;
        }
      case HttpError(_, _) =>
      case Threw(_) =>
        view := LoadFailed;
    }

    /** Opens the detail view of the first cached item with the given id;
        an unknown id does nothing. */
    method OpenDetail(id: string)
      modifies this`detail
      ensures FindById(feedbacks, id).Some? ==> detail == FindById(feedbacks, id)
      ensures FindById(feedbacks, id).None? ==> detail == old(detail)
    {
      var found := FindById(feedbacks, id);
      if found.Some? {
        detail := found;
      }
    }

    method CloseDetail()
      modifies this`detail
      ensures detail == None
    {
      detail := None;
    }
  }
}
