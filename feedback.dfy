/** The data both feedback components share: the feedback record the backend
    sends, the label tables the cards look their badges up in, the aggregate
    counts shown on the stat cards, and the outcomes of the HTTP calls, which
    the components receive as inputs. */
module Feedback {
  import opened JsValues
  import JsText

  /** One feedback record as the list endpoint returns it. Properties the
      backend may leave out or set to null are options; the id is always set. */
  datatype FeedbackItem = FeedbackItem(
    id: string,
    message: Option<string>,
    status: Option<string>,
    tier: Option<int>,
    priority: Option<string>,
    category: Option<string>,
    tabContext: Option<string>,
    aiSummary: Option<string>)

  /** A status or priority badge. */
  datatype Badge = Badge(title: string, color: string, icon: string)

  datatype CategoryBadge = CategoryBadge(title: string, icon: string)

  datatype TierBadge = TierBadge(title: string, color: string, description: string)

  /** The status table of the full version, keyed by status name. */
  const STATUS_TABLE: map<string, Badge> := map[
    "neu" := Badge("Neu", "#6B7280", "\U{1F4E5}"),
    "triaged" := Badge("Triaged", "#3B82F6", "\U{1F50D}"),
    "waiting_user" := Badge("Warte auf Auswahl", "#F59E0B", "\U{1F464}"),
    "waiting_admin" := Badge("Warte auf Admin", "#F59E0B", "\U{23F3}"),
    "waiting_owner" := Badge("Warte auf Owner", "#EF4444", "\U{1F534}"),
    "in_arbeit" := Badge("In Arbeit", "#8B5CF6", "\U{1F527}"),
    "testing" := Badge("Testing", "#F97316", "\U{1F9EA}"),
    "geloest" := Badge("Gel\U{00F6}st", "#10B981", "\U{2705}"),
    "abgelehnt" := Badge("Abgelehnt", "#EF4444", "\U{274C}")
  ]

  /** The tier table, keyed by tier number. */
  const TIER_TABLE: map<int, TierBadge> := map[
    1 := TierBadge("Automatisch", "#10B981", "Wird automatisch implementiert"),
    2 := TierBadge("User-Auswahl", "#F59E0B", "Du w\U{00E4}hlst die L\U{00F6}sung"),
    3 := TierBadge("Admin-Freigabe", "#3B82F6", "Admin muss freigeben"),
    4 := TierBadge("Owner-Freigabe", "#EF4444", "Plattform-Owner entscheidet")
  ]

  const PRIORITY_TABLE: map<string, Badge> := map[
    "critical" := Badge("Kritisch", "#EF4444", "\U{1F534}"),
    "high" := Badge("Hoch", "#F97316", "\U{1F7E0}"),
    "medium" := Badge("Mittel", "#F59E0B", "\U{1F7E1}"),
    "low" := Badge("Niedrig", "#10B981", "\U{1F7E2}")
  ]

  const CATEGORY_TABLE: map<string, CategoryBadge> := map[
    "bug" := CategoryBadge("Bug", "\U{1F41B}"),
    "ux" := CategoryBadge("UX", "\U{1F3A8}"),
    "feature" := CategoryBadge("Feature", "\U{2728}"),
    "question" := CategoryBadge("Frage", "\U{2753}"),
    "other" := CategoryBadge("Sonstiges", "\U{1F4DD}")
  ]

  /** The three statuses in which an item waits for a decision. */
  const WAITING_STATUSES: set<string> := {"waiting_user", "waiting_admin", "waiting_owner"}

  /** `table[key] || table[fallback]` for a key that may be missing. */
  function LookupOr<V>(table: map<string, V>, key: Option<string>, fallback: string): (v: V)
    requires fallback in table
    ensures key.Some? && key.value in table ==> v == table[key.value]
    ensures key.None? || key.value !in table ==> v == table[fallback]
  {
    if key.Some? && key.value in table then table[key.value] else table[fallback]
  }

  /** The status badge: an unknown or missing status shows as `neu`. */
  function StatusBadge(status: Option<string>): (b: Badge)
    ensures status.Some? && status.value in STATUS_TABLE ==> b == STATUS_TABLE[status.value]
    ensures status.None? || status.value !in STATUS_TABLE ==> b == STATUS_TABLE["neu"]
  {
    LookupOr(STATUS_TABLE, status, "neu")
  }

  /** The priority badge: an unknown or missing priority shows as `medium`. */
  function PriorityBadge(priority: Option<string>): (b: Badge)
    ensures priority.Some? && priority.value in PRIORITY_TABLE ==> b == PRIORITY_TABLE[priority.value]
    ensures priority.None? || priority.value !in PRIORITY_TABLE ==> b == PRIORITY_TABLE["medium"]
  {
    LookupOr(PRIORITY_TABLE, priority, "medium")
  }

  /** The category badge: an unknown or missing category shows as `other`. */
  function CategoryBadgeOf(category: Option<string>): (b: CategoryBadge)
    ensures category.Some? && category.value in CATEGORY_TABLE ==> b == CATEGORY_TABLE[category.value]
    ensures category.None? || category.value !in CATEGORY_TABLE ==> b == CATEGORY_TABLE["other"]
  {
    LookupOr(CATEGORY_TABLE, category, "other")
  }

  /** The tier badge: a tier outside 1..4, or none, shows as tier 3. */
  function TierBadgeOf(tier: Option<int>): (b: TierBadge)
    ensures tier.Some? && 1 <= tier.value <= 4 ==> b == TIER_TABLE[tier.value]
    ensures tier.None? || !(1 <= tier.value <= 4) ==> b == TIER_TABLE[3]
  {
    if tier.Some? && tier.value in TIER_TABLE then TIER_TABLE[tier.value] else TIER_TABLE[3]
  }

  /** The numbers on the four stat cards. */
  datatype Stats = Stats(total: nat, neu: nat, waiting: nat, resolved: nat) {
    /** The cards of two lists shown together. */
    function Plus(other: Stats): Stats {
      Stats(total + other.total, neu + other.neu, waiting + other.waiting, resolved + other.resolved)
    }
  }

  predicate IsNeu(item: FeedbackItem) {
    item.status == Some("neu")
  }

  predicate IsResolved(item: FeedbackItem) {
    item.status == Some("geloest")
  }

  /** What a request for the list produced: a JSON list on a 2xx response,
      an error response with its status code and optional `detail`, or an
      exception (network failure, or a body that is not JSON). */
  datatype LoadOutcome =
    | Loaded(items: seq<FeedbackItem>)
    | HttpError(code: nat, detail: Option<string>)
    | Threw(reason: string)

  /** What a submission produced, in the same three shapes. */
  datatype SendOutcome =
    | Accepted
    | Refused(detail: Option<string>)
    | NetworkFailure

  /** The alert after an error response: `Fehler: ` and the response's
      `detail`, or the component's fallback text. */
  function RefusedAlert(detail: Option<string>, fallback: string): (r: string)
    ensures JsText.StartsWith(r, "Fehler: ")
    ensures Truthy(detail) ==> r[8..] == detail.value
    ensures !Truthy(detail) ==> r[8..] == fallback
  {
    "Fehler: " + Or(detail, fallback)
  }

  /** The parts of `window` and `navigator` a submission reads. */
  datatype Page = Page(
    path: string,
    hash: string,
    href: string,
    width: nat,
    height: nat,
    userAgent: string)

  /** `${innerWidth}x${innerHeight}` */
  function ScreenSize(page: Page): (r: string)
    ensures var w := JsText.NatToString(page.width);
            && |r| > |w|
            && r[..|w|] == w
            && r[|w|] == 'x'
            && r[|w| + 1..] == JsText.NatToString(page.height)
  {
    var w := JsText.NatToString(page.width);
    assert (w + "x" + JsText.NatToString(page.height))[|w|] == 'x';
    w + "x" + JsText.NatToString(page.height)
  }
}
