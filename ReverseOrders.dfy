/**
 * The listing endpoint pages/api/shipdelight/get-reverse-orders.ts: choose a filter
 * from the search term, try the carrier's tracking endpoint with one payload after
 * another until one yields tracking records, filter those records by status, search
 * term and "is it a return", cut out one page and turn each record into a table row.
 *
 * The carrier's answer to each strategy is an input; timestamps are integers
 * (milliseconds since the epoch).
 */
module ReverseOrders {
  import opened Wrappers
  import opened Strings
  import opened Sequences
  import opened ShipdelightService

  /** One entry of `tracking_history`. */
  datatype HistoryEvent = HistoryEvent(
    status: string, statusCode: string, location: string, remarks: string, updatedAt: int)

  /** One tracking record as the carrier returns it. A missing `tracking_history` is []. */
  datatype TrackingItem = TrackingItem(
    airwaybilno: string, orderno: string, ordertype: string,
    latestStatusCode: string, latestStatus: string, history: seq<HistoryEvent>)

  /** The carrier's reverse-movement status codes. */
  const ReverseStatusCodes: seq<string> := [
    "R001", "R002", "R003", "R004", "R011", "R085", "R086", "R087", "R088", "R100", "R1000",
    "R101", "R102", "R103", "R104", "R106", "R107", "R109", "R1100", "R1101", "R1102",
    "R1103", "R111", "R112", "R113", "R114", "R117", "R118", "R119", "R120", "R1200",
    "R1201", "R1202", "R1203", "R1204", "R1205", "R1206", "R1207", "R1208", "R121",
    "R122", "R123", "R124", "R125", "R126", "R127", "R128", "R129", "R130", "R131",
    "R200", "R201", "R202", "R203", "R204", "R205", "R206", "R300", "R400", "R600", "R85"
  ]

  const ReverseKeywords: seq<string> := ["REVERSE", "RETURN", "EXCHANGE"]

  /** The query string, with its defaults (`page` 1, `limit` 50, empty `status` and
      `search`) already applied and `page`/`limit` already read as integers. */
  datatype Query = Query(page: int, limit: int, status: string, search: string)

  // ---- Choosing the filter and the strategies ----

  datatype TrackingFilter = TrackingFilter(filterType: string, filterValue: string)

  /** The body of one tracking request: `{}` or `{filter_type, filter_value}`. */
  datatype Payload = EmptyPayload | FilterPayload(filter: TrackingFilter)

  /** The initial filter: an airway-bill search for an all-digit term, an order-number
      search for a term starting with '#', and the REVERSE order type otherwise. */
  function InitialFilter(search: string): (f: TrackingFilter)
    ensures IsDigitString(search) ==> f == TrackingFilter("airwaybilno", search)
    ensures !IsDigitString(search) && StartsWith(search, "#") ==> f == TrackingFilter("orderno", search)
    ensures f.filterType == "ordertype" <==> !IsDigitString(search) && !StartsWith(search, "#")
    ensures f.filterType == "ordertype" ==> f.filterValue == "REVERSE"
    ensures search == "" ==> f == TrackingFilter("ordertype", "REVERSE")
  {
    var initial := TrackingFilter("ordertype", "REVERSE");
    if search != "" then
      if IsDigitString(search) then TrackingFilter("airwaybilno", search)
      else if StartsWith(search, "#") then TrackingFilter("orderno", search)
      else initial
    else initial
  }

  /** The request payloads, in the order they are tried. */
  function Strategies(search: string): (s: seq<Payload>)
    ensures |s| == 6
    ensures s[0] == EmptyPayload && s[1] == FilterPayload(InitialFilter(search))
  {
    [ EmptyPayload,
      FilterPayload(InitialFilter(search)),
      FilterPayload(TrackingFilter("status_code", "R085")),
      FilterPayload(TrackingFilter("status_code", "R087")),
      FilterPayload(TrackingFilter("status_code", "R100")),
      FilterPayload(TrackingFilter("ordertype", "REVERSE")) ]
  }

  /** What the carrier answered to one strategy. */
  datatype CarrierReply =
      /** `fetch` or reading the body threw. */
    | Unreachable
      /** The body is not JSON. */
    | NotJson
      /** The parsed body; a missing `tracking` is []. */
    | Parsed(success: bool, tracking: seq<TrackingItem>)

  /** The answer a strategy loop accepts: `success` and a non-empty `tracking`. */
  predicate HasData(reply: CarrierReply) {
    reply.Parsed? && reply.success && |reply.tracking| > 0
  }

  /** The strategy loop: send the payloads in order and stop at the first answer with
      data. `attempted` lists the payloads actually sent. */
  method RunStrategies(strategies: seq<Payload>, replies: seq<CarrierReply>)
    returns (data: Option<seq<TrackingItem>>, attempted: seq<Payload>)
    requires |replies| == |strategies|
    ensures match FindFirst(replies, HasData)
      case Some(k) => data == Some(replies[k].tracking) && attempted == strategies[..k + 1]
      case None => data == None && attempted == strategies
  {
    data, attempted := None, [];
    var i := 0;
    while i < |strategies|
      invariant 0 <= i <= |strategies|
      invariant attempted == strategies[..i]
      invariant data == None
      invariant forall j :: 0 <= j < i ==> !HasData(replies[j])
    {
      attempted := attempted + [strategies[i]];
      var reply := replies[i];
      if reply.Unreachable? || reply.NotJson? {
        // the error is logged and the next strategy is tried
        i := i + 1;
        continue;
      }
      if reply.success && |reply.tracking| > 0 {
        data := Some(reply.tracking);
        break;
      }
      i := i + 1;
    }
    assert attempted == strategies[..i] || attempted == strategies[..i + 1];
    assert i == |strategies| ==> strategies[..i] == strategies;
  }

  // ---- The three filters ----

  /** `item.latest_status.toUpperCase().includes(status.toUpperCase())`. */
  predicate MatchesStatus(item: TrackingItem, status: string) {
    Contains(ToUpper(item.latestStatus), ToUpper(status))
  }

  /** A non-empty history remark that includes the term, ignoring case. */
  predicate RemarkMentions(h: HistoryEvent, search: string) {
    h.remarks != "" && Contains(ToLower(h.remarks), ToLower(search))
  }

  /** The free-text match: the order number includes the term, or some remark does. */
  predicate MatchesSearch(item: TrackingItem, search: string) {
    Contains(item.orderno, search) || exists h :: h in item.history && RemarkMentions(h, search)
  }

  predicate IsReverseCode(code: string) {
    code != "" && code in ReverseStatusCodes
  }

  predicate HasReverseKeyword(text: string) {
    text != "" && exists kw :: kw in ReverseKeywords && Contains(ToUpper(text), kw)
  }

  /** The classifier applied to a listing without a search term. */
  predicate IsReverseOrder(item: TrackingItem) {
    || item.ordertype == "REVERSE"
    || IsReverseCode(item.latestStatusCode)
    || (exists h :: h in item.history && IsReverseCode(h.statusCode))
    || HasReverseKeyword(item.latestStatus)
    || (exists h :: h in item.history && (HasReverseKeyword(h.status) || HasReverseKeyword(h.remarks)))
  }

  /** A search term that is neither an airway-bill number nor an order number. */
  predicate IsFreeTextSearch(search: string) {
    search != "" && !IsDigitString(search) && !StartsWith(search, "#")
  }

  function StatusTest(status: string): TrackingItem -> bool {
    item => MatchesStatus(item, status)
  }

  function SearchTest(search: string): TrackingItem -> bool {
    item => MatchesSearch(item, search)
  }

  /** Whether a record survives the three filters for this status and search term. */
  predicate Keeps(status: string, search: string, item: TrackingItem) {
    && (status != "" ==> MatchesStatus(item, status))
    && (IsFreeTextSearch(search) ==> MatchesSearch(item, search))
    && (search == "" ==> IsReverseOrder(item))
  }

  /** The records left after the filters: in their original order, exactly those the
      filters keep, each as often as the carrier sent it. */
  function FilterStages(status: string, search: string, tracking: seq<TrackingItem>): (r: seq<TrackingItem>)
    ensures IsSubsequence(r, tracking)
    ensures forall x :: multiset(r)[x] == if Keeps(status, search, x) then multiset(tracking)[x] else 0
    ensures forall x :: x in r <==> x in tracking && Keeps(status, search, x)
  {
    var s1 := if status != "" then FilterSeq(tracking, StatusTest(status)) else tracking;
    var s2 := if IsFreeTextSearch(search) then FilterSeq(s1, SearchTest(search)) else s1;
    var s3 := if InitialFilter(search).filterType == "ordertype" && search == "" then FilterSeq(s2, IsReverseOrder) else s2;
    FilterSeqMembers(tracking, StatusTest(status));
    FilterSeqCounts(tracking, StatusTest(status));
    FilterSeqMembers(s1, SearchTest(search));
    FilterSeqCounts(s1, SearchTest(search));
    FilterSeqMembers(s2, IsReverseOrder);
    FilterSeqCounts(s2, IsReverseOrder);
    SubsequenceReflexive(tracking);
    SubsequenceReflexive(s1);
    SubsequenceReflexive(s2);
    SubsequenceTransitive(s2, s1, tracking);
    SubsequenceTransitive(s3, s2, tracking);
    s3
  }

  /** `filteredTracking`, reassigned one stage after another. */
  method ApplyFilters(status: string, search: string, tracking: seq<TrackingItem>)
    returns (filtered: seq<TrackingItem>)
    ensures filtered == FilterStages(status, search, tracking)
  {
    filtered := tracking;
    if status != "" {
      filtered := FilterSeq(filtered, StatusTest(status));
    }
    if search != "" && !IsDigitString(search) && !StartsWith(search, "#") {
      filtered := FilterSeq(filtered, SearchTest(search));
    }
    if InitialFilter(search).filterType == "ordertype" && search == "" {
      filtered := FilterSeq(filtered, IsReverseOrder);
    }
  }

  /** The status filter on its own keeps the matching records and nothing else. */
  lemma StatusFilterExact(status: string, tracking: seq<TrackingItem>)
    requires status != ""
    ensures forall x :: (multiset(FilterStages(status, "#", tracking))[x]
      == if MatchesStatus(x, status) then multiset(tracking)[x] else 0)
  {
    assert StartsWith("#", "#");
  }

  /** The classifier runs exactly for an empty search term, and the free-text filter
      exactly for a term that selected the REVERSE order type. */
  lemma FilterStagesChosenBySearch(search: string)
    ensures IsFreeTextSearch(search) <==> search != "" && InitialFilter(search).filterType == "ordertype"
    ensures (InitialFilter(search).filterType == "ordertype" && search == "") <==> search == ""
  {
  }

  /** A record whose order type is REVERSE is a return whatever its status says. */
  lemma ReverseTypeIsReturn(item: TrackingItem)
    requires item.ordertype == "REVERSE"
    ensures Keeps("", "", item)
  {
  }

  /** A record with an allow-listed latest status code is a return whatever its order type. */
  lemma ReverseCodeIsReturn(item: TrackingItem)
    requires IsReverseCode(item.latestStatusCode)
    ensures Keeps("", "", item)
  {
  }

  /** A record whose history mentions a return in a remark is a return. */
  lemma ReturnRemarkIsReturn(item: TrackingItem, h: HistoryEvent)
    requires h in item.history
    requires Contains(ToUpper(h.remarks), "RETURN")
    ensures Keeps("", "", item)
  {
    assert |ToUpper(h.remarks)| == |h.remarks|;
    assert "RETURN" in ReverseKeywords;
  }

  // ---- Pagination ----

  /** How `Array.prototype.slice` reads an index: negative counts from the end; the
      result is clipped to [0, n]. */
  function SliceIndex(i: int, n: nat): (k: nat)
    ensures k <= n
  {
    if i < 0 then (if n + i < 0 then 0 else n + i) else if i < n then i else n
  }

  /** `s.slice(start, end)`. */
  function JsSlice<T>(s: seq<T>, start: int, end: int): seq<T> {
    var a, b := SliceIndex(start, |s|), SliceIndex(end, |s|);
    if a < b then s[a..b] else []
  }

  /** `r` is the part of `s` that lies in the window [start, start + limit). */
  ghost predicate IsWindow<T>(r: seq<T>, s: seq<T>, start: int, limit: int) {
    && |r| == (if start >= |s| then 0 else if start + limit <= |s| then limit else |s| - start)
    && forall k :: 0 <= k < |r| ==> 0 <= start + k < |s| && r[k] == s[start + k]
  }

  /** The records of page `page` of size `limit`: for a positive page and size, the
      window [(page-1)*limit, page*limit) of `s`; nothing for page 0. */
  function PageOf<T>(s: seq<T>, page: int, limit: int): (r: seq<T>)
    ensures page >= 1 && limit >= 1 ==> IsWindow(r, s, (page - 1) * limit, limit)
    ensures page == 0 ==> r == []
  {
    var start := (page - 1) * limit;
    if page >= 1 && limit >= 1 then
      assert start >= 0;
      WindowOfSlice(s, start, limit);
      JsSlice(s, start, start + limit)
    else
      JsSlice(s, start, start + limit)
  }

  /** A slice from a non-negative start is the window of `s` that starts there. */
  lemma WindowOfSlice<T>(s: seq<T>, start: int, limit: int)
    requires start >= 0 && limit >= 1
    ensures IsWindow(JsSlice(s, start, start + limit), s, start, limit)
  {
  }

  /** `Math.ceil(total / size)` as it appears in the JSON: null (None) for the
      Infinity or NaN a zero size gives. */
  function TotalPages(total: nat, size: int): (q: Option<int>)
    ensures q.None? <==> size == 0
    ensures size > 0 ==> q.value >= 0 && (q.value - 1) * size < total <= q.value * size
  {
    if size == 0 then None
    else if size > 0 then Some((total + size - 1) / size)
    else Some(-(total / -size))
  }

  // ---- Rows for the table ----

  predicate SortedByTime(s: seq<HistoryEvent>) {
    forall i, j :: 0 <= i < j < |s| ==> s[i].updatedAt <= s[j].updatedAt
  }

  /** Insert `e` after every element not later than it. */
  function InsertByTime(e: HistoryEvent, s: seq<HistoryEvent>): (r: seq<HistoryEvent>)
    requires SortedByTime(s)
    ensures SortedByTime(r)
    ensures multiset(r) == multiset(s) + multiset{e}
    decreases |s|
  {
    if s == [] || s[|s| - 1].updatedAt <= e.updatedAt then s + [e]
    else
      var last := s[|s| - 1];
      var init := s[..|s| - 1];
      assert s == init + [last];
      var r := InsertByTime(e, init);
      forall x | x in r ensures x.updatedAt <= last.updatedAt {
        assert x in multiset(r);
      }
      r + [last]
  }

  /** The history sorted by `updated_at`, earliest first; equal times keep their order. */
  function SortByTime(s: seq<HistoryEvent>): (r: seq<HistoryEvent>)
    ensures SortedByTime(r)
    ensures multiset(r) == multiset(s)
    decreases |s|
  {
    if s == [] then []
    else
      assert s == s[..|s| - 1] + [s[|s| - 1]];
      InsertByTime(s[|s| - 1], SortByTime(s[..|s| - 1]))
  }

  /** Sorting neither adds nor drops events. */
  lemma SortKeepsMembers(history: seq<HistoryEvent>)
    ensures forall h :: h in SortByTime(history) <==> h in history
  {
    var s := SortByTime(history);
    forall h
      ensures h in s <==> h in history
    {
      assert h in s <==> h in multiset(s);
      assert h in history <==> h in multiset(history);
    }
  }

  /** In a sorted sequence, the first element meeting `p` is not later than any other. */
  lemma SortedFirstMatch(s: seq<HistoryEvent>, p: HistoryEvent -> bool, k: nat, j: nat)
    requires SortedByTime(s)
    requires k < |s| && j < |s| && p(s[j])
    requires forall i :: 0 <= i < k ==> !p(s[i])
    ensures s[k].updatedAt <= s[j].updatedAt
  {
  }

  /** The first element `find` meets in the sorted history is the earliest of those
      matching, and there is one exactly when some event matches. */
  lemma FirstMatchIsEarliest(history: seq<HistoryEvent>, p: HistoryEvent -> bool)
    ensures var s := SortByTime(history);
      match FindFirst(s, p)
      case Some(k) =>
        && s[k] in history && p(s[k])
        && forall h :: h in history && p(h) ==> s[k].updatedAt <= h.updatedAt
      case None => forall h :: h in history ==> !p(h)
  {
    var s := SortByTime(history);
    SortKeepsMembers(history);
    match FindFirst(s, p)
    case Some(k) =>
      forall h | h in history && p(h)
        ensures s[k].updatedAt <= h.updatedAt
      {
        var j :| 0 <= j < |s| && s[j] == h;
        SortedFirstMatch(s, p, k, j);
      }
    case None =>
      forall h | h in history
        ensures !p(h)
      {
        var j :| 0 <= j < |s| && s[j] == h;
      }
  }

  /** The sorted history starts with the earliest event. */
  lemma SortedStartsEarliest(history: seq<HistoryEvent>)
    requires history != []
    ensures var s := SortByTime(history);
      s != [] && s[0] in history && forall h :: h in history ==> s[0].updatedAt <= h.updatedAt
  {
    var s := SortByTime(history);
    assert |s| == |multiset(s)| == |history|;
    assert s[0] in multiset(s);
    forall h | h in history ensures s[0].updatedAt <= h.updatedAt {
      assert h in multiset(history);
      var j :| 0 <= j < |s| && s[j] == h;
    }
  }

  /** The history event the source column is taken from. */
  predicate IsSourceEvent(h: HistoryEvent) {
    h.statusCode == "99" || Contains(h.status, "PICKUP") || Contains(h.status, "ORIGIN")
  }

  /** The history event the destination column is taken from. */
  predicate IsDestinationEvent(h: HistoryEvent) {
    || h.statusCode == "501" || Contains(h.status, "DELIVERED")
    || Contains(h.status, "DESTINATION") || Contains(h.status, "UNDELIVERED")
  }

  /** A remark that `trim()` does not reduce to nothing. */
  predicate HasReason(h: HistoryEvent) {
    h.remarks != "" && Trim(h.remarks) != ""
  }

  /** What `formatTimeAgo` says, before it is rendered as text. */
  datatype TimeAgo = NoTimestamp | MinutesAgo(minutes: int) | HoursAgo(hours: int) | ADayAgo | DaysAgo(days: int)

  const MinuteMs: int := 60000
  const HourMs: int := 3600000
  const DayMs: int := 86400000

  /** `formatTimeAgo`: the elapsed time rounded down to whole minutes below an hour,
      whole hours below a day, and whole days otherwise. */
  function TimeAgoOf(timestamp: Option<int>, nowMs: int): (t: TimeAgo)
    ensures t.NoTimestamp? <==> timestamp.None?
    ensures t.MinutesAgo? ==> var d := nowMs - timestamp.value;
      t.minutes < 60 && t.minutes * MinuteMs <= d < t.minutes * MinuteMs + MinuteMs
    ensures t.HoursAgo? ==> var d := nowMs - timestamp.value;
      1 <= t.hours < 24 && t.hours * HourMs <= d < t.hours * HourMs + HourMs
    ensures t.ADayAgo? ==> var d := nowMs - timestamp.value;
      DayMs <= d < 2 * DayMs
    ensures t.DaysAgo? ==> var d := nowMs - timestamp.value;
      t.days >= 2 && t.days * DayMs <= d < t.days * DayMs + DayMs
    ensures timestamp.Some? && nowMs - timestamp.value < HourMs ==> t.MinutesAgo?
    ensures timestamp.Some? && HourMs <= nowMs - timestamp.value < DayMs ==> t.HoursAgo?
  {
    if timestamp.None? then NoTimestamp
    else
      var diffMs := nowMs - timestamp.value;
      var diffMinutes := diffMs / MinuteMs;
      var diffHours := diffMs / HourMs;
      var diffDays := diffMs / DayMs;
      if diffMinutes < 60 then MinutesAgo(diffMinutes)
      else if diffHours < 24 then HoursAgo(diffHours)
      else if diffDays == 1 then ADayAgo
      else DaysAgo(diffDays)
  }

  /** The text of a `formatTimeAgo` result; only a missing timestamp gives "". */
  function RenderTimeAgo(t: TimeAgo): (r: string)
    ensures r == "" <==> t.NoTimestamp?
  {
    assert t.MinutesAgo? ==> |IntToString(t.minutes) + " minutes ago"| > 0;
    assert t.HoursAgo? ==> |IntToString(t.hours) + " hours ago"| > 0;
    assert t.DaysAgo? ==> |IntToString(t.days) + " days ago"| > 0;
    match t
    case NoTimestamp => ""
    case MinutesAgo(m) => IntToString(m) + " minutes ago"
    case HoursAgo(h) => IntToString(h) + " hours ago"
    case ADayAgo => "a day ago"
    case DaysAgo(d) => IntToString(d) + " days ago"
  }

  /** `formatTimeAgo`: empty exactly when there is no timestamp. */
  function FormatTimeAgo(timestamp: Option<int>, nowMs: int): (r: string)
    ensures r == "" <==> timestamp.None?
  {
    RenderTimeAgo(TimeAgoOf(timestamp, nowMs))
  }

  /** One row of the orders table: `ProcessedOrder`. */
  datatype ProcessedOrder = ProcessedOrder(
    company: string, companyId: string, user: string, timeAgo: string,
    awb: string, orderNumber: string, source: string, destination: string,
    reason: string, status: string)

  /** The location of the first matching event of the sorted history, "" if none. */
  function LocationOf(sorted: seq<HistoryEvent>, p: HistoryEvent -> bool): string {
    match FindFirst(sorted, p)
    case Some(k) => sorted[k].location
    case None => ""
  }

  function OrDefault(s: string, fallback: string): string {
    if s == "" then fallback else s
  }

  /** The row built for one tracking record. */
  function MapOrder(item: TrackingItem, nowMs: int): ProcessedOrder {
    var sorted := SortByTime(item.history);
    var createdAt := if |sorted| > 0 then Some(sorted[0].updatedAt) else None;
    var reason := match FindFirst(item.history, HasReason)
      case Some(k) => OrDefault(item.history[k].remarks, "Return")
      case None => "Return";
    ProcessedOrder(
      company := "Customer",
      companyId := item.orderno,
      user := item.orderno,
      timeAgo := FormatTimeAgo(createdAt, nowMs),
      awb := item.airwaybilno,
      orderNumber := item.orderno,
      source := OrDefault(LocationOf(sorted, IsSourceEvent), "Not specified"),
      destination := OrDefault(LocationOf(sorted, IsDestinationEvent), "Not specified"),
      reason := reason,
      status := OrDefault(item.latestStatus, "Pending"))
  }

  /** The defaults of a row: no column the table shows is ever empty except the time,
      and the reason is the first non-blank remark, or "Return". */
  lemma MapOrderDefaults(item: TrackingItem, nowMs: int)
    ensures var o := MapOrder(item, nowMs);
      && o.company == "Customer"
      && o.awb == item.airwaybilno && o.orderNumber == item.orderno
      && o.source != "" && o.destination != "" && o.reason != "" && o.status != ""
      && (item.latestStatus == "" ==> o.status == "Pending")
      && (item.latestStatus != "" ==> o.status == item.latestStatus)
      && ((forall h :: h in item.history ==> !HasReason(h)) ==> o.reason == "Return")
      && (forall k :: 0 <= k < |item.history| && HasReason(item.history[k])
            && (forall j :: 0 <= j < k ==> !HasReason(item.history[j]))
            ==> o.reason == item.history[k].remarks)
      && (item.history == [] <==> o.timeAgo == "")
      && (item.history == [] ==> o.source == "Not specified" && o.destination == "Not specified")
  {
    var o := MapOrder(item, nowMs);
    var sorted := SortByTime(item.history);
    assert |sorted| == |item.history| by {
      assert |multiset(sorted)| == |multiset(item.history)|;
    }
    if item.history != [] {
      var t := TimeAgoOf(Some(sorted[0].updatedAt), nowMs);
      assert RenderTimeAgo(t) != "" by {
        match t
        case MinutesAgo(m) => assert |IntToString(m) + " minutes ago"| > 0;
        case HoursAgo(h) => assert |IntToString(h) + " hours ago"| > 0;
        case ADayAgo =>
        case DaysAgo(d) => assert |IntToString(d) + " days ago"| > 0;
      }
    }
    forall h | h in item.history ensures !HasReason(h) || FindFirst(item.history, HasReason).Some? {
      var j :| 0 <= j < |item.history| && item.history[j] == h;
    }
  }

  /** The time column is computed from the earliest history event. */
  lemma TimeAgoFromEarliest(item: TrackingItem, nowMs: int)
    requires item.history != []
    ensures exists e :: (e in item.history
      && (forall h :: h in item.history ==> e.updatedAt <= h.updatedAt)
      && MapOrder(item, nowMs).timeAgo == FormatTimeAgo(Some(e.updatedAt), nowMs))
  {
    SortedStartsEarliest(item.history);
    var s := SortByTime(item.history);
    assert s[0] in item.history;
  }

  /** The source column comes from the earliest pickup or origin event, if there is one. */
  lemma SourceFromEarliestPickup(item: TrackingItem, nowMs: int)
    ensures (forall h :: h in item.history ==> !IsSourceEvent(h)) ==>
      MapOrder(item, nowMs).source == "Not specified"
    ensures (exists h :: h in item.history && IsSourceEvent(h)) ==>
      exists e :: e in item.history && IsSourceEvent(e)
        && (forall h :: h in item.history && IsSourceEvent(h) ==> e.updatedAt <= h.updatedAt)
        && MapOrder(item, nowMs).source == OrDefault(e.location, "Not specified")
  {
    FirstMatchIsEarliest(item.history, IsSourceEvent);
    var s := SortByTime(item.history);
    match FindFirst(s, IsSourceEvent)
    case Some(k) =>
      assert s[k] in item.history;
    case None =>
  }

  /** The destination column comes from the earliest delivery or destination event,
      if there is one. */
  lemma DestinationFromEarliestDelivery(item: TrackingItem, nowMs: int)
    ensures (forall h :: h in item.history ==> !IsDestinationEvent(h)) ==>
      MapOrder(item, nowMs).destination == "Not specified"
    ensures (exists h :: h in item.history && IsDestinationEvent(h)) ==>
      exists e :: e in item.history && IsDestinationEvent(e)
        && (forall h :: h in item.history && IsDestinationEvent(h) ==> e.updatedAt <= h.updatedAt)
        && MapOrder(item, nowMs).destination == OrDefault(e.location, "Not specified")
  {
    FirstMatchIsEarliest(item.history, IsDestinationEvent);
    var s := SortByTime(item.history);
    match FindFirst(s, IsDestinationEvent)
    case Some(k) =>
      assert s[k] in item.history;
    case None =>
  }

  // ---- The response ----

  datatype Pagination = Pagination(total: nat, totalPages: Option<int>, currentPage: int, perPage: int)

  /** The JSON the endpoint sends, by HTTP status. */
  datatype ListResponse =
      /** 405 `{error: 'Method not allowed'}` */
    | MethodNotAllowed
      /** 500 `{success: false, error}` */
    | ServerError(error: string)
      /** 200 `{success: true, data: {orders, pagination}}` */
    | Listed(orders: seq<ProcessedOrder>, pagination: Pagination)

  function HttpStatus(r: ListResponse): int {
    match r
    case MethodNotAllowed => 405
    case ServerError(_) => 500
    case Listed(_, _) => 200
  }

  const AllStrategiesFailed: string := "Failed to fetch orders: All API strategies failed"

  /** The page of rows and the pagination block for the filtered records. */
  function Present(filtered: seq<TrackingItem>, page: int, limit: int, nowMs: int): (r: ListResponse)
    ensures r.Listed?
    ensures r.pagination.total == |filtered| && r.pagination.totalPages == TotalPages(|filtered|, limit)
    ensures r.pagination.currentPage == page && r.pagination.perPage == limit
    ensures var rows := PageOf(filtered, page, limit);
      && |r.orders| == |rows|
      && forall k :: 0 <= k < |rows| ==> r.orders[k] == MapOrder(rows[k], nowMs)
  {
    var rows := PageOf(filtered, page, limit);
    Listed(
      seq(|rows|, k requires 0 <= k < |rows| => MapOrder(rows[k], nowMs)),
      Pagination(|filtered|, TotalPages(|filtered|, limit), page, limit))
  }

  /** The rows of a positive page are the rows of the records in its window, and a
      page is empty only when its window starts past the last record. */
  lemma PresentedPage(filtered: seq<TrackingItem>, page: int, limit: int, nowMs: int)
    requires page >= 1 && limit >= 1
    ensures var r := Present(filtered, page, limit, nowMs); var start := (page - 1) * limit;
      && |r.orders| <= limit
      && (|r.orders| == 0 <==> start >= |filtered|)
      && forall k :: 0 <= k < |r.orders| ==>
           start + k < |filtered| && r.orders[k] == MapOrder(filtered[start + k], nowMs)
  {
  }

  /** `total_pages` agrees with the pages: with a positive size, page `total_pages` is
      the last page that has rows. */
  lemma TotalPagesIsLastPage<T>(s: seq<T>, limit: int)
    requires limit >= 1
    ensures var last := TotalPages(|s|, limit).value;
      && PageOf(s, last + 1, limit) == []
      && (|s| > 0 ==> last >= 1 && PageOf(s, last, limit) != [])
  {
    var last := TotalPages(|s|, limit).value;
    assert (last + 1 - 1) * limit == last * limit;
    if |s| > 0 {
      assert last >= 1;
      assert (last - 1) * limit < |s|;
    }
  }

  /** The whole handler. `attempted` lists the tracking requests sent, in order. */
  method GetReverseOrders(
    cache: TokenCache, httpMethod: string, q: Query, nowMs: int,
    authReply: AuthReply, replies: seq<CarrierReply>)
    returns (resp: ListResponse, attempted: seq<Payload>)
    requires |replies| == |Strategies(q.search)|
    modifies cache
    ensures httpMethod != "GET" ==>
      resp == MethodNotAllowed && attempted == [] && cache.tokenData == old(cache.tokenData)
    ensures httpMethod == "GET" ==>
      var token := GetValidTokenStep(old(cache.tokenData), nowMs, authReply);
      && cache.tokenData == token.cache
      && (token.result.Err? ==>
            attempted == [] && resp == ServerError(OrDefault(token.result.message, "Failed to fetch orders")))
      && (token.result.Ok? ==>
            match FindFirst(replies, HasData)
            case None =>
              attempted == Strategies(q.search) && resp == ServerError(AllStrategiesFailed)
            case Some(k) =>
              && attempted == Strategies(q.search)[..k + 1]
              && resp == Present(FilterStages(q.status, q.search, replies[k].tracking), q.page, q.limit, nowMs))
    ensures resp.Listed? ==> FindFirst(replies, HasData).Some?
  {
    if httpMethod != "GET" {
      return MethodNotAllowed, [];
    }
    var token, _ := cache.GetValidToken(nowMs, authReply);
    if token.Err? {
      return ServerError(OrDefault(token.message, "Failed to fetch orders")), [];
    }
    var data;
    data, attempted := RunStrategies(Strategies(q.search), replies);
    if data.None? {
      return ServerError(AllStrategiesFailed), attempted;
    }
    var filtered := ApplyFilters(q.status, q.search, data.value);
    resp := Present(filtered, q.page, q.limit, nowMs);
  }
}
