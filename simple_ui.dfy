/** The simple version of the feedback components: a floating button whose
    modal only takes a message, and an admin list without filters or actions.
    It keeps its own, older status table and counts the waiting items by
    name prefix instead of by the three known waiting statuses. */
module SimpleUi {
  import opened JsValues
  import opened JsArrays
  import opened JsText
  import opened Feedback
  import Widget
  import Dashboard

  /** The status table of the simple version: the full table without `testing`. */
  const LEGACY_STATUS_TABLE: map<string, Badge> := map[
    "neu" := Badge("Neu", "#6B7280", "\U{1F4E5}"),
    "triaged" := Badge("Triaged", "#3B82F6", "\U{1F50D}"),
    "waiting_user" := Badge("Warte auf Auswahl", "#F59E0B", "\U{1F464}"),
    "waiting_admin" := Badge("Warte auf Admin", "#F59E0B", "\U{23F3}"),
    "waiting_owner" := Badge("Warte auf Owner", "#EF4444", "\U{1F534}"),
    "in_arbeit" := Badge("In Arbeit", "#8B5CF6", "\U{1F527}"),
    "geloest" := Badge("Gel\U{00F6}st", "#10B981", "\U{2705}"),
    "abgelehnt" := Badge("Abgelehnt", "#EF4444", "\U{274C}")
  ]

  lemma LegacyTableLacksTesting()
    ensures LEGACY_STATUS_TABLE == STATUS_TABLE - {"testing"}
  {
  }

  /** The status badge of a row: an unknown or missing status shows as `neu`. */
  function LegacyStatusBadge(status: Option<string>): (b: Badge)
    ensures status.Some? && status.value in LEGACY_STATUS_TABLE ==> b == LEGACY_STATUS_TABLE[status.value]
    ensures status.None? || status.value !in LEGACY_STATUS_TABLE ==> b == LEGACY_STATUS_TABLE["neu"]
  {
    LookupOr(LEGACY_STATUS_TABLE, status, "neu")
  }

  /** Both versions show the same status badge, except for `testing`, which
      the simple version shows as `neu`. */
  lemma LegacyBadgeAgrees(status: Option<string>)
    ensures LegacyStatusBadge(status) == StatusBadge(status) <==> status != Some("testing")
  {
    LegacyTableLacksTesting();
  }

  /** `(f.status || '').startsWith('waiting')` */
  predicate HasWaitingPrefix(item: FeedbackItem) {
    StartsWith(item.status.GetOr(""), "waiting")
  }

  /** The stat cards of the simple version. */
  function SimpleStats(items: seq<FeedbackItem>): (s: Stats)
    ensures s.total == |items|
    ensures s.neu == Count(items, IsNeu)
    ensures s.waiting == Count(items, HasWaitingPrefix)
    ensures s.resolved == Count(items, IsResolved)
    ensures s.neu + s.waiting + s.resolved <= s.total
    ensures s.neu == 0 <==> forall i :: 0 <= i < |items| ==> items[i].status != Some("neu")
    ensures s.waiting == 0 <==> forall i :: 0 <= i < |items| ==> !HasWaitingPrefix(items[i])
    ensures s.resolved == 0 <==> forall i :: 0 <= i < |items| ==> items[i].status != Some("geloest")
  {
    forall i | 0 <= i < |items| ensures !(IsNeu(items[i]) && HasWaitingPrefix(items[i]))
      && !(IsResolved(items[i]) && HasWaitingPrefix(items[i]))
    {
      assert "geloest"[0] != 'w';
    }
    CountExclusive(items, IsNeu, HasWaitingPrefix, IsResolved);
    Stats(|items|, Count(items, IsNeu), Count(items, HasWaitingPrefix), Count(items, IsResolved))
  }

  /** The stats of two lists together are the sums of their stats. */
  lemma SimpleStatsAppend(a: seq<FeedbackItem>, b: seq<FeedbackItem>)
    ensures SimpleStats(a + b) == SimpleStats(a).Plus(SimpleStats(b))
  {
    CountAppend(a, b, IsNeu);
    CountAppend(a, b, HasWaitingPrefix);
    CountAppend(a, b, IsResolved);
  }

  /** One item counts once in the total and on the card of its status; it
      waits when its status, or `''` for a missing one, starts with `waiting`. */
  lemma SimpleStatsOne(item: FeedbackItem)
    ensures SimpleStats([item]) == Stats(1,
                                         if item.status == Some("neu") then 1 else 0,
                                         if StartsWith(item.status.GetOr(""), "waiting") then 1 else 0,
                                         if item.status == Some("geloest") then 1 else 0)
  {
    CountOne(item, IsNeu);
    CountOne(item, HasWaitingPrefix);
    CountOne(item, IsResolved);
  }

  /** Every status the full version counts as waiting has the prefix. */
  lemma WaitingHasPrefix(item: FeedbackItem)
    ensures Dashboard.IsWaiting(item) ==> HasWaitingPrefix(item)
  {
    if Dashboard.IsWaiting(item) {
      var s := item.status.value;
      assert s[..7] == "waiting";
    }
  }

  /** For the statuses of the table the two tests agree. */
  lemma WaitingAgreesOnKnownStatus(item: FeedbackItem)
    requires item.status.None? || item.status.value in STATUS_TABLE
    ensures Dashboard.IsWaiting(item) <==> HasWaitingPrefix(item)
  {
    WaitingHasPrefix(item);
    if item.status.Some? && HasWaitingPrefix(item) {
      var s := item.status.value;
      assert s[0] == 'w';
      assert s in {"neu", "triaged", "waiting_user", "waiting_admin", "waiting_owner",
                   "in_arbeit", "testing", "geloest", "abgelehnt"};
    }
  }

  /** The simple version never counts fewer waiting items. */
  lemma SimpleCountsAtLeastAsManyWaiting(items: seq<FeedbackItem>)
    ensures Dashboard.StatsOf(items).waiting <= SimpleStats(items).waiting
  {
    forall i | 0 <= i < |items| ensures Dashboard.IsWaiting(items[i]) ==> HasWaitingPrefix(items[i]) {
      WaitingHasPrefix(items[i]);
    }
    CountMonotone(items, Dashboard.IsWaiting, HasWaitingPrefix);
  }

  /** When every status is one the table knows, both versions show the same stats. */
  lemma SimpleStatsAgree(items: seq<FeedbackItem>)
    requires forall i :: 0 <= i < |items| ==> items[i].status.None? || items[i].status.value in STATUS_TABLE
    ensures SimpleStats(items) == Dashboard.StatsOf(items)
  {
    forall i | 0 <= i < |items| ensures Dashboard.IsWaiting(items[i]) == HasWaitingPrefix(items[i]) {
      WaitingAgreesOnKnownStatus(items[i]);
    }
    KeepAgree(items, Dashboard.IsWaiting, HasWaitingPrefix);
  }

  /** One item of the simple list. */
  datatype Row = Row(
    tierText: string,
    tierColor: string,
    status: Badge,
    message: string,
    context: string,
    aiSummary: Option<string>)

  /** `Tier ${f.tier || '?'}`: a missing tier and tier 0 both print `?`. */
  function TierText(tier: Option<int>): (r: string)
    ensures StartsWith(r, "Tier ")
    ensures r == "Tier ?" <==> tier.None? || tier.value == 0
    ensures tier.Some? && tier.value != 0 ==> r == "Tier " + IntToString(tier.value)
  {
    if tier.Some? && tier.value != 0 then
      var digits := IntToString(tier.value);
      assert digits[0] != '?';
      assert (("Tier " + digits)[5..] == digits);
      "Tier " + digits
    else "Tier ?"
  }

  function RowFor(item: FeedbackItem): (r: Row)
    ensures r.tierColor == TierBadgeOf(item.tier).color
    ensures r.tierText == TierText(item.tier)
    ensures r.tierText == "Tier ?" <==> item.tier.None? || item.tier.value == 0
    ensures r.status == LegacyStatusBadge(item.status)
    ensures r.message == "(keine Nachricht)" <==> !Truthy(item.message) || item.message.value == "(keine Nachricht)"
    ensures Truthy(item.message) ==> r.message == item.message.value
    ensures Truthy(item.tabContext) ==> r.context == item.tabContext.value
    ensures !Truthy(item.tabContext) ==> r.context == "unbekannt"
    ensures r.aiSummary.Some? <==> Truthy(item.aiSummary)
    ensures Truthy(item.aiSummary) ==> r.aiSummary == item.aiSummary
  {
    Row(
      TierText(item.tier),
      TierBadgeOf(item.tier).color,
      LegacyStatusBadge(item.status),
      Or(item.message, "(keine Nachricht)"),
      Or(item.tabContext, "unbekannt"),
      if Truthy(item.aiSummary) then item.aiSummary else None)
  }

  /** `this.feedbacks.map(...)`: one row per item, in the server's order. */
  function Rows(items: seq<FeedbackItem>): (r: seq<Row>)
    ensures |r| == |items|
  {
    Map(items, RowFor)
  }

  lemma RowsPointwise(items: seq<FeedbackItem>, i: nat)
    requires i < |items|
    ensures Rows(items)[i] == RowFor(items[i])
  {
    MapPointwise(items, RowFor, i);
  }

  /** What the list area shows. */
  datatype SimpleView =
    | Loading
    | EmptyState
    | RowList(rows: seq<Row>)
    | ApiError(text: string)
    | NetworkError(text: string)

  /** `renderList`: the empty-state text, or every cached item as a row. */
  function RenderList(items: seq<FeedbackItem>): (v: SimpleView)
    ensures v.EmptyState? <==> items == []
    ensures !v.EmptyState? ==> v.RowList? && v.rows == Rows(items)
  {
    if items == [] then EmptyState else RowList(Rows(items))
  }

  /** `API Fehler: ${err.detail || resp.status}` */
  function ApiErrorText(code: nat, detail: Option<string>): (r: string)
    ensures StartsWith(r, "API Fehler: ")
    ensures Truthy(detail) ==> r[12..] == detail.value
    ensures !Truthy(detail) ==> r[12..] == NatToString(code)
  {
    "API Fehler: " + Or(detail, NatToString(code))
  }

  /** `location.hash.replace('#','') || 'unknown'` */
  function TabContext(hash: string): (r: string)
    ensures r != ""
    ensures StartsWith(hash, "#") && |hash| > 1 ==> r == hash[1..]
    ensures hash == "" || hash == "#" ==> r == "unknown"
  {
    var page := RemoveFirst(hash, '#');
    if page == "" then "unknown" else page
  }

  /** For a hash with a page name after `#`, both versions report the same page. */
  lemma TabContextAgrees(path: string, hash: string)
    requires StartsWith(hash, "#") && |hash| > 1
    ensures TabContext(hash) == Widget.CurrentPage(path, hash)
  {
  }

  /** The body of the simple version's submit request. */
  datatype SimpleSubmission = SimpleSubmission(
    message: string,
    tabContext: string,
    screenSize: string,
    pageUrl: string)

  /** The body the simple version sends: the trimmed message with the page
      context, or nothing when the message is only whitespace. */
  function SimpleRequest(draft: string, page: Page): (r: Option<SimpleSubmission>)
    ensures r.None? <==> Widget.SubmittedMessage(draft).None?
    ensures r.Some? ==> && Some(r.value.message) == Widget.SubmittedMessage(draft)
                        && r.value.tabContext == TabContext(page.hash)
                        && r.value.screenSize == ScreenSize(page)
                        && r.value.pageUrl == page.href
  {
    match Widget.SubmittedMessage(draft)
    case None => None
    case Some(message) => Some(SimpleSubmission(message, TabContext(page.hash), ScreenSize(page), page.href))
  }

  const THANKS_ALERT := "\U{2705} Danke f\U{00FC}r dein Feedback!"
  const SIMPLE_NETWORK_ALERT := "Netzwerkfehler. Bitte versuche es sp\U{00E4}ter."

  /** The alert's fallback when an error response has no `detail`. */
  const SIMPLE_REFUSED_FALLBACK := "Unbekannt"

  class SimpleWidget {
    var isOpen: bool
    /** The text in the message box. */
    var draft: string

    constructor ()
      ensures !isOpen && draft == ""
    {
      isOpen, draft := false, "";
    }

    method OpenModal()
      modifies this`isOpen
      ensures isOpen
    {
      isOpen := true;
    }

    method CloseModal()
      modifies this`isOpen
      ensures !isOpen
    {
      isOpen := false;
    }

    /** Ctrl+Shift+F */
    method Shortcut()
      modifies this`isOpen
      ensures isOpen == !old(isOpen)
    {
      if isOpen {
        CloseModal();
      } else {
        OpenModal();
      }
    }

    method Edit(text: string)
      modifies this`draft
      ensures draft == text
    {
      draft := text;
    }

    /** Sends the trimmed message with the page context. Every path ends in
        an alert; only success clears the message box and closes the modal. */
    method Submit(page: Page, outcome: SendOutcome) returns (request: Option<SimpleSubmission>, alert: string)
      modifies this`draft, this`isOpen
      ensures request == SimpleRequest(old(draft), page)
      ensures request.None? ==> alert == Widget.EMPTY_MESSAGE_ALERT
      ensures request.Some? && outcome.Accepted? ==> alert == THANKS_ALERT && draft == "" && !isOpen
      ensures request.Some? && outcome.Refused? ==> alert == RefusedAlert(outcome.detail, SIMPLE_REFUSED_FALLBACK)
      ensures request.Some? && outcome.NetworkFailure? ==> alert == SIMPLE_NETWORK_ALERT
      ensures !(request.Some? && outcome.Accepted?) ==> draft == old(draft) && isOpen == old(isOpen)
    {
      request := SimpleRequest(draft, page);
      if request.None? {
        alert := Widget.EMPTY_MESSAGE_ALERT;
        return;
      }
      if outcome.Accepted? {
        alert, draft := THANKS_ALERT, "";
        CloseModal();
      } else if outcome.Refused? {
        alert := RefusedAlert(outcome.detail, SIMPLE_REFUSED_FALLBACK);
      } else {
        alert := SIMPLE_NETWORK_ALERT;
      }
    }
  }

  class SimpleDashboard {
    var feedbacks: seq<FeedbackItem>
    /** The stat cards; None while they still show `-`. */
    var stats: Option<Stats>
    var view: SimpleView

    /** The stat cards describe the cache, and a list of rows (or the empty
        state) is the rendering of the whole cache. */
    ghost predicate Valid()
      reads this
    {
      && (stats.Some? ==> stats.value == SimpleStats(feedbacks))
      && (stats.None? ==> feedbacks == [])
      && (view.EmptyState? || view.RowList? ==> view == RenderList(feedbacks))
    }

    constructor ()
      ensures Valid()
      ensures feedbacks == [] && stats == None && view == Loading
    {
      feedbacks, stats, view := [], None, Loading;
    }

    /** `loadFeedbacks` with the outcome of the request. Without the list
        element it returns before requesting anything. */
    method LoadFeedbacks(listPresent: bool, outcome: LoadOutcome) returns (requested: bool)
      requires Valid()
      modifies this`feedbacks, this`stats, this`view
      ensures Valid()
      ensures requested == listPresent
      ensures !requested ==> feedbacks == old(feedbacks) && stats == old(stats) && view == old(view)
      ensures requested && outcome.Loaded? ==>
                feedbacks == outcome.items && stats == Some(SimpleStats(outcome.items))
                && view == RenderList(outcome.items)
      ensures requested && outcome.HttpError? ==>
                feedbacks == old(feedbacks) && stats == old(stats)
                && view == ApiError(ApiErrorText(outcome.code, outcome.detail))
      ensures requested && outcome.Threw? ==>
                feedbacks == old(feedbacks) && stats == old(stats)
                && view == NetworkError("Netzwerkfehler: " + outcome.reason)
    {
      if !listPresent {
        return false;
      }
      requested := true;
      match outcome
      case Loaded(items) =>
        feedbacks := items;
        stats := Some(SimpleStats(feedbacks));
        view := RenderList(feedbacks);
      case HttpError(code, detail) =>
        view := ApiError(ApiErrorText(code, detail));
      case Threw(reason) =>
        view := NetworkError("Netzwerkfehler: " + reason);
    }
  }
}
