/**
 * components/auto-complete/AutoComplete.tsx: the autocomplete controller.
 *
 * With the network and the timer abstracted away the component is a small
 * state machine. Its state is the React state (`search`, `suggestion`,
 * `selectedOption`, `error`), the two refs (the response cache keyed by URL and
 * the one pending debounced fetch) and the host-owned `show` flag, which the
 * host sets through `onOpen` / `onClose`. Two logs record what the outside
 * world observes: the values passed to `onSelect` and the URLs sent to the
 * network.
 *
 * Each handler is one atomic update applied in source order, the last write
 * winning, as React applies the state updates a handler queues. The step
 * functions below say what every handler does to the state; the class
 * `Controller` performs the same handlers step by step on its fields and is
 * proved to agree with them.
 */
module AutoComplete {
  import opened Wrappers
  import Decimal
  import SuggestionList

  /** The error text stored after a 404. */
  const NotFoundMessage: string := "Something went wrong."

  /** The keys the handlers tell apart; `Other` is any other key. */
  datatype Key = Escape | ArrowLeft | ArrowUp | ArrowRight | ArrowDown | Space | Enter | Tab | Shift | Other

  /** How a fetch of a URL ends. */
  datatype Response<T> =
    | Results(items: seq<T>)   // the body has a `results` field
    | NoResults                // the body has none
    | NotFound                 // the request fails with status 404
    | OtherFailure             // any other failure

  /**
   * The props the controller reads. An absent endpoint or filter is the empty
   * string: the source only tests them for truthiness, and `undefined` and
   * `''` are both falsy.
   */
  datatype Config<!T> = Config(id: string, queryEndpoint: string, queryFilter: string,
                              itemToString: T -> string)

  datatype State<T> = State(
    search: string,
    suggestion: seq<T>,
    selectedOption: int,               // -1: nothing highlighted
    error: string,
    cache: map<string, seq<T>>,        // queryCacheRef
    pending: Option<string>,           // the URL of the pending debounced fetch
    show: bool,                        // owned by the host
    selections: seq<string>,           // every value passed to onSelect
    requests: seq<string>)             // every URL sent to the network

  /** The state at mount: `useState('')`, `useState([])`, `useState(-1)`, empty refs. */
  function Initial<T>(show: bool): State<T> {
    State("", [], -1, "", map[], None, show, [], [])
  }

  // ---------------------------------------------------------------------
  // Pure parts: the URL and the index successors

  /** generateUrl: nothing without an endpoint, else the endpoint, followed
    * by the filter and the query when both are non-empty. */
  function GenerateUrl(queryEndpoint: string, queryFilter: string, query: string): (url: Option<string>)
    ensures url.None? <==> queryEndpoint == ""
    ensures url.Some? ==> queryEndpoint <= url.value
  {
    if queryEndpoint == "" then None
    else if queryFilter != "" && query != "" then Some(queryEndpoint + queryFilter + query)
    else Some(queryEndpoint)
  }

  function Min(a: int, b: int): int { if a <= b then a else b }
  function Max(a: int, b: int): int { if a >= b then a else b }

  /**
   * The index ArrowDown moves to on an open panel. `result` is always
   * undefined where the last index is computed (the closed branch has
   * returned), so the last index is that of `suggestion`. The index is
   * clamped only when it is at most the last index.
   */
  function ArrowDownIndex(selected: int, count: nat): (next: int)
    ensures -1 <= selected <= count - 1 ==> next == Min(selected + 1, count - 1)
    ensures selected >= count ==> next == selected + 1
    ensures selected >= -1 ==> next >= -1
  {
    var lastOptionIdx := count - 1;
    if selected == lastOptionIdx then lastOptionIdx else selected + 1
  }

  /** The index ArrowUp moves to on an open panel. */
  function ArrowUpIndex(selected: int): (next: int)
    ensures selected == -1 ==> next == -1
    ensures selected >= 0 ==> next == Max(selected - 1, 0) && next >= 0
  {
    if selected == -1 then -1
    else if selected == 0 then 0
    else selected - 1
  }

  /** The keys handleKeyUp ignores: every named key, so only `Other` searches. */
  predicate IgnoredOnKeyUp(key: Key) {
    match key
    case Other => false
    case _ => true
  }

  /** The selector of the list box (getSuggestionListNode). */
  function ListboxSelector(id: string): string {
    "#" + id + "-listbox"
  }

  /** The selector of the item at an index (getSuggestionItemNodeByIdx). */
  function ItemSelector(id: string, index: int): string {
    "#" + id + "-item" + "-" + Decimal.FromInt(index)
  }

  // ---------------------------------------------------------------------
  // The handlers, as functions of the state

  /** handleClose: resetStateBeforeClose, then the host's onClose. */
  function CloseStep<T>(s: State<T>): State<T> {
    s.(selectedOption := -1, show := false)
  }

  /** The host's onOpen. */
  function OpenStep<T>(s: State<T>): State<T> {
    s.(show := true)
  }

  /** fetchQuery: answer from the cache, or send the request and apply its outcome. */
  function FetchStep<T>(s: State<T>, url: string, response: Response<T>): (s': State<T>)
    ensures forall u :: u in s.cache ==> u in s'.cache && s'.cache[u] == s.cache[u]
    ensures s'.cache.Keys == s.cache.Keys + (if response.Results? then {url} else {})
    ensures s'.requests == s.requests + (if url in s.cache then [] else [url])
    ensures s'.(suggestion := s.suggestion, error := s.error, cache := s.cache, requests := s.requests) == s
  {
    if url in s.cache then s.(suggestion := s.cache[url])
    else
      var sent := s.(requests := s.requests + [url]);
      match response
      case Results(items) => sent.(suggestion := items, cache := sent.cache[url := items])
      case NoResults => sent.(suggestion := [])
      case NotFound => sent.(suggestion := [], error := NotFoundMessage)
      case OtherFailure => sent
  }

  /** handleSelect: set the text, report it through onSelect, close. */
  function SelectStep<T>(s: State<T>, item: string): State<T> {
    CloseStep(s.(search := item, selections := s.selections + [item]))
  }

  /** handleDropdownArrowButtonClick. */
  function ChevronStep<T>(cfg: Config<T>, s: State<T>, response: Response<T>): State<T> {
    if s.show then CloseStep(s)
    else if s.search == "" && cfg.queryEndpoint != "" then OpenStep(FetchStep(s, cfg.queryEndpoint, response))
    else s
  }

  /** handleCloseButtonClick. */
  function ClearButtonStep<T>(s: State<T>): State<T> {
    CloseStep(s.(search := "", selections := s.selections + [""], suggestion := []))
  }

  /** handleOutsideClick. */
  function OutsideClickStep<T>(s: State<T>): State<T> {
    if s.show then CloseStep(s.(search := "")) else s
  }

  /** handleChange, given the input's value. */
  function ChangeStep<T>(cfg: Config<T>, s: State<T>, query: string): State<T> {
    var typed := s.(search := query);
    if query == "" then CloseStep(typed)
    else
      var shown := OpenStep(typed);
      match GenerateUrl(cfg.queryEndpoint, cfg.queryFilter, query)
      case None => shown
      case Some(url) =>
        if url in shown.cache then shown.(suggestion := shown.cache[url])
        else shown.(pending := Some(url))
  }

  /** handleKeyUp: a searching key runs handleChange, then selects the first item. */
  function KeyUpStep<T>(cfg: Config<T>, s: State<T>, key: Key, value: string): State<T> {
    if IgnoredOnKeyUp(key) then s
    else ChangeStep(cfg, s, value).(selectedOption := 0)
  }

  /** handleArrowDownKeyPressed. */
  function ArrowDownStep<T>(cfg: Config<T>, s: State<T>, response: Response<T>): State<T> {
    if !s.show then
      match GenerateUrl(cfg.queryEndpoint, cfg.queryFilter, s.search)
      case None => s
      case Some(url) => OpenStep(FetchStep(s, url, response))
    else s.(selectedOption := ArrowDownIndex(s.selectedOption, |s.suggestion|))
  }

  /** handleArrowUpKeyPressed. */
  function ArrowUpStep<T>(s: State<T>): State<T> {
    if !s.show then s
    else s.(selectedOption := ArrowUpIndex(s.selectedOption))
  }

  /** The Enter case of handleKeyDown. */
  function EnterStep<T>(cfg: Config<T>, s: State<T>): State<T> {
    if 0 <= s.selectedOption < |s.suggestion|
    then SelectStep(s, cfg.itemToString(s.suggestion[s.selectedOption]))
    else s
  }

  /** handleKeyDown. */
  function KeyDownStep<T>(cfg: Config<T>, s: State<T>, key: Key, response: Response<T>): State<T> {
    match key
    case Enter => EnterStep(cfg, s)
    case ArrowUp => ArrowUpStep(s)
    case ArrowDown => ArrowDownStep(cfg, s, response)
    case Tab => CloseStep(s)
    case _ => s
  }

  /** The debounce timer fires: the pending fetch runs. */
  function TimerStep<T>(s: State<T>, response: Response<T>): State<T> {
    match s.pending
    case None => s
    case Some(url) => FetchStep(s.(pending := None), url, response)
  }

  // ---------------------------------------------------------------------
  // The controller as a state machine over events

  datatype Event<T> =
    | KeyUp(key: Key, value: string)
    | KeyDown(key: Key, response: Response<T>)
    | ChevronClick(response: Response<T>)
    | ClearButtonClick
    | OutsideClick
    | ItemClick(item: string)
    | TimerFires(response: Response<T>)

  function Step<T>(cfg: Config<T>, s: State<T>, e: Event<T>): State<T> {
    match e
    case KeyUp(key, value) => KeyUpStep(cfg, s, key, value)
    case KeyDown(key, response) => KeyDownStep(cfg, s, key, response)
    case ChevronClick(response) => ChevronStep(cfg, s, response)
    case ClearButtonClick => ClearButtonStep(s)
    case OutsideClick => OutsideClickStep(s)
    case ItemClick(item) => SelectStep(s, item)
    case TimerFires(response) => TimerStep(s, response)
  }

  function Run<T>(cfg: Config<T>, s: State<T>, events: seq<Event<T>>): State<T>
    decreases |events|
  {
    if events == [] then s else Run(cfg, Step(cfg, s, events[0]), events[1..])
  }

  /** n presses of the same key, each with the same response. */
  function Presses<T>(key: Key, response: Response<T>, n: nat): (events: seq<Event<T>>)
    ensures |events| == n
    ensures forall i :: 0 <= i < n ==> events[i] == KeyDown(key, response)
  {
    if n == 0 then [] else [KeyDown(key, response)] + Presses(key, response, n - 1)
  }

  /** A URL the controller may request: it extends a configured endpoint. */
  predicate IsRequestUrl<T>(cfg: Config<T>, url: string) {
    cfg.queryEndpoint != "" && cfg.queryEndpoint <= url
  }

  /**
   * What every reachable state satisfies: the index is never below -1; only
   * URLs built from a configured endpoint are cached, pending or requested
   * (so without an endpoint nothing is ever fetched); and the cache holds an
   * entry only for a URL whose request has been sent and answered.
   */
  predicate Invariant<T>(cfg: Config<T>, s: State<T>) {
    && s.selectedOption >= -1
    && (forall u :: u in s.cache ==> IsRequestUrl(cfg, u))
    && (s.pending.Some? ==> IsRequestUrl(cfg, s.pending.value))
    && (forall i :: 0 <= i < |s.requests| ==> IsRequestUrl(cfg, s.requests[i]))
    && (forall u :: u in s.cache ==> u in s.requests)
  }

  // ---------------------------------------------------------------------
  // Properties

  /** The URL is the endpoint, followed by filter and query when both are given. */
  lemma GenerateUrlComposes(queryEndpoint: string, queryFilter: string, query: string)
    requires queryEndpoint != ""
    ensures queryFilter != "" && query != "" ==>
              GenerateUrl(queryEndpoint, queryFilter, query) == Some(queryEndpoint + queryFilter + query)
    ensures queryFilter == "" || query == "" ==>
              GenerateUrl(queryEndpoint, queryFilter, query) == Some(queryEndpoint)
  {
  }

  /** With a filter, distinct queries get distinct URLs, so cache entries never mix queries. */
  lemma {:induction false} GenerateUrlSeparatesQueries(queryEndpoint: string, queryFilter: string,
                                                      q1: string, q2: string)
    requires queryEndpoint != "" && queryFilter != "" && q1 != q2
    ensures GenerateUrl(queryEndpoint, queryFilter, q1) != GenerateUrl(queryEndpoint, queryFilter, q2)
  {
    var n := |queryEndpoint + queryFilter|;
    if q1 != "" && q2 != "" {
      assert (queryEndpoint + queryFilter + q1)[n..] == q1;
      assert (queryEndpoint + queryFilter + q2)[n..] == q2;
    }
  }

  /** Without a filter every query shares the endpoint's URL and thus one cache entry. */
  lemma WithoutFilterAllQueriesShareUrl(queryEndpoint: string, query: string)
    ensures GenerateUrl(queryEndpoint, "", query) == GenerateUrl(queryEndpoint, "", "")
  {
  }

  /** A cached URL is answered from the cache; nothing is sent. */
  lemma FetchCacheHit<T>(s: State<T>, url: string, response: Response<T>)
    requires url in s.cache
    ensures FetchStep(s, url, response) == s.(suggestion := s.cache[url])
  {
  }

  /**
   * On a miss the request is sent; results are shown and cached under
   * exactly that URL, absent results show nothing and cache nothing, a 404
   * shows nothing and sets the error, any other failure changes nothing else.
   */
  lemma FetchOutcomes<T>(s: State<T>, url: string, response: Response<T>)
    requires url !in s.cache
    ensures var s' := FetchStep(s, url, response);
      var sent := s.(requests := s.requests + [url]);
      match response
      case Results(items) => s' == sent.(suggestion := items, cache := s.cache[url := items])
      case NoResults => s' == sent.(suggestion := [])
      case NotFound => s' == sent.(suggestion := [], error := NotFoundMessage)
      case OtherFailure => s' == sent
  {
  }

  /**
   * handleChange always sets the search text. An empty query closes the
   * panel and schedules nothing; otherwise the panel opens. Neither the
   * cache nor the network is touched.
   */
  lemma ChangeSetsSearchAndOpens<T>(cfg: Config<T>, s: State<T>, query: string)
    ensures var s' := ChangeStep(cfg, s, query);
      && s'.search == query
      && s'.cache == s.cache && s'.requests == s.requests && s'.error == s.error
      && (query == "" ==> s' == s.(search := "", selectedOption := -1, show := false))
      && (query != "" ==> s'.show && s'.selectedOption == s.selectedOption)
  {
  }

  /** A query whose URL is cached shows the cached list and schedules no fetch. */
  lemma ChangeCacheHit<T>(cfg: Config<T>, s: State<T>, query: string, url: string)
    requires query != "" && GenerateUrl(cfg.queryEndpoint, cfg.queryFilter, query) == Some(url)
    requires url in s.cache
    ensures ChangeStep(cfg, s, query) == s.(search := query, show := true, suggestion := s.cache[url])
  {
  }

  /** A query whose URL is not cached replaces any pending fetch by one for that URL. */
  lemma ChangeCacheMiss<T>(cfg: Config<T>, s: State<T>, query: string, url: string)
    requires query != "" && GenerateUrl(cfg.queryEndpoint, cfg.queryFilter, query) == Some(url)
    requires url !in s.cache
    ensures ChangeStep(cfg, s, query) == s.(search := query, show := true, pending := Some(url))
  {
  }

  /** The ignored keys leave the whole state unchanged on key-up. */
  lemma KeyUpIgnoredKeysChangeNothing<T>(cfg: Config<T>, s: State<T>, key: Key, value: string)
    requires IgnoredOnKeyUp(key)
    ensures Step(cfg, s, KeyUp(key, value)) == s
  {
  }

  /**
   * Any other key runs handleChange and then selects index 0: even when the
   * list is empty, and even when the change emptied the field and closed the
   * panel (the close's -1 is overwritten).
   */
  lemma KeyUpSelectsFirstOption<T>(cfg: Config<T>, s: State<T>, key: Key, value: string)
    requires !IgnoredOnKeyUp(key)
    ensures var s' := Step(cfg, s, KeyUp(key, value));
      && s' == ChangeStep(cfg, s, value).(selectedOption := 0)
      && s'.selectedOption == 0 && s'.search == value
      && (value == "" ==> !s'.show)
  {
  }

  /** Typing a query whose URL is cached sends nothing and schedules nothing. */
  lemma RepeatedQueryUsesCache<T>(cfg: Config<T>, s: State<T>, value: string, url: string)
    requires value != "" && GenerateUrl(cfg.queryEndpoint, cfg.queryFilter, value) == Some(url)
    requires url in s.cache
    ensures var s' := Step(cfg, s, KeyUp(Other, value));
      s'.requests == s.requests && s'.pending == s.pending && s'.suggestion == s.cache[url]
  {
  }

  /** ArrowDown on a closed panel keeps the index; with a URL it fetches and opens. */
  lemma ArrowDownWhileClosed<T>(cfg: Config<T>, s: State<T>, response: Response<T>)
    requires !s.show
    ensures var s' := Step(cfg, s, KeyDown(ArrowDown, response));
      && s'.selectedOption == s.selectedOption
      && match GenerateUrl(cfg.queryEndpoint, cfg.queryFilter, s.search)
         case None => s' == s
         case Some(url) => s' == FetchStep(s, url, response).(show := true)
  {
  }

  /** ArrowDown on an open panel advances the index, clamped to the last item. */
  lemma ArrowDownWhileOpen<T>(cfg: Config<T>, s: State<T>, response: Response<T>)
    requires s.show && -1 <= s.selectedOption <= |s.suggestion| - 1
    ensures Step(cfg, s, KeyDown(ArrowDown, response))
         == s.(selectedOption := Min(s.selectedOption + 1, |s.suggestion| - 1))
  {
  }

  /** ArrowUp: nothing on a closed panel, -1 stays -1, else one up but never below 0. */
  lemma ArrowUpMoves<T>(cfg: Config<T>, s: State<T>, response: Response<T>)
    ensures var s' := Step(cfg, s, KeyDown(ArrowUp, response));
      && (!s.show || s.selectedOption == -1 ==> s' == s)
      && (s.show && s.selectedOption >= 0 ==>
            s' == s.(selectedOption := Max(s.selectedOption - 1, 0)) && s'.selectedOption >= 0)
  {
  }

  /**
   * Enter on an index inside the list sets the text to the item's string,
   * reports it and closes with index -1; on any other index nothing changes.
   */
  lemma EnterCommitsHighlightedItem<T>(cfg: Config<T>, s: State<T>, response: Response<T>)
    ensures var s' := Step(cfg, s, KeyDown(Enter, response));
      if 0 <= s.selectedOption < |s.suggestion| then
        var itemStr := cfg.itemToString(s.suggestion[s.selectedOption]);
        s' == s.(search := itemStr, selections := s.selections + [itemStr],
                 selectedOption := -1, show := false)
      else s' == s
  {
  }

  /** Tab closes the panel with index -1 and changes nothing else. */
  lemma TabCloses<T>(cfg: Config<T>, s: State<T>, response: Response<T>)
    ensures Step(cfg, s, KeyDown(Tab, response)) == s.(selectedOption := -1, show := false)
  {
  }

  /**
   * The clear button empties the text and the list, reports the empty string
   * and closes with index -1.
   */
  lemma ClearButtonResets<T>(cfg: Config<T>, s: State<T>)
    ensures Step(cfg, s, ClearButtonClick)
         == s.(search := "", selections := s.selections + [""], suggestion := [],
               selectedOption := -1, show := false)
  {
  }

  /** An outside click on an open panel empties the text and closes with index -1. */
  lemma OutsideClickWhileOpen<T>(cfg: Config<T>, s: State<T>)
    requires s.show
    ensures Step(cfg, s, OutsideClick) == s.(search := "", selectedOption := -1, show := false)
  {
  }

  /** An outside click on a closed panel changes nothing. */
  lemma OutsideClickWhileClosed<T>(cfg: Config<T>, s: State<T>)
    requires !s.show
    ensures Step(cfg, s, OutsideClick) == s
  {
  }

  /** An item click sets the text to the item, reports it and closes with index -1. */
  lemma ItemClickCommits<T>(cfg: Config<T>, s: State<T>, item: string)
    ensures Step(cfg, s, ItemClick(item))
         == s.(search := item, selections := s.selections + [item], selectedOption := -1, show := false)
  {
  }

  /**
   * The chevron closes an open panel with index -1; on a closed panel with an
   * empty field and an endpoint it fetches the bare endpoint and opens;
   * otherwise nothing changes.
   */
  lemma ChevronClickToggles<T>(cfg: Config<T>, s: State<T>, response: Response<T>)
    ensures s.show ==> Step(cfg, s, ChevronClick(response)) == s.(selectedOption := -1, show := false)
    ensures !s.show ==>
              Step(cfg, s, ChevronClick(response))
              == (if s.search == "" && cfg.queryEndpoint != ""
                  then FetchStep(s, cfg.queryEndpoint, response).(show := true)
                  else s)
  {
  }

  /** Escape is not a close key: it changes nothing on key-down or key-up. */
  lemma EscapeChangesNothing<T>(cfg: Config<T>, s: State<T>, response: Response<T>, value: string)
    ensures Step(cfg, s, KeyDown(Escape, response)) == s
    ensures Step(cfg, s, KeyUp(Escape, value)) == s
  {
  }

  /** The timer fetches the pending URL and clears it; without one nothing happens. */
  lemma TimerRunsPendingFetch<T>(cfg: Config<T>, s: State<T>, response: Response<T>)
    ensures Step(cfg, s, TimerFires(response))
         == match s.pending
            case None => s
            case Some(url) => FetchStep(s.(pending := None), url, response)
  {
  }

  /** Every event keeps the invariant. */
  lemma StepPreservesInvariant<T>(cfg: Config<T>, s: State<T>, e: Event<T>)
    requires Invariant(cfg, s)
    ensures Invariant(cfg, Step(cfg, s, e))
  {
  }

  /** Every sequence of events keeps the invariant. */
  lemma {:induction false} RunPreservesInvariant<T>(cfg: Config<T>, s: State<T>, events: seq<Event<T>>)
    requires Invariant(cfg, s)
    ensures Invariant(cfg, Run(cfg, s, events))
    decreases |events|
  {
    if events != [] {
      StepPreservesInvariant(cfg, s, events[0]);
      RunPreservesInvariant(cfg, Step(cfg, s, events[0]), events[1..]);
    }
  }

  /** The mounted controller satisfies the invariant. */
  lemma InitialSatisfiesInvariant<T>(cfg: Config<T>, show: bool)
    ensures Invariant(cfg, Initial<T>(show))
  {
  }

  /** A cache entry, once stored, is never removed or replaced. */
  lemma {:induction false} RunKeepsCacheEntries<T>(cfg: Config<T>, s: State<T>, events: seq<Event<T>>, url: string)
    requires url in s.cache
    ensures url in Run(cfg, s, events).cache && Run(cfg, s, events).cache[url] == s.cache[url]
    decreases |events|
  {
    if events != [] {
      var next := Step(cfg, s, events[0]);
      assert url in next.cache && next.cache[url] == s.cache[url];
      RunKeepsCacheEntries(cfg, next, events[1..], url);
    }
  }

  /**
   * n ArrowDown presses on an open panel move the index to
   * min(index + n, last index): from 0, to min(n, M - 1) on M items.
   */
  lemma {:induction false} ArrowDownRepeated<T>(cfg: Config<T>, s: State<T>, response: Response<T>, n: nat)
    requires s.show && -1 <= s.selectedOption <= |s.suggestion| - 1
    ensures Run(cfg, s, Presses(ArrowDown, response, n))
         == s.(selectedOption := Min(s.selectedOption + n, |s.suggestion| - 1))
    decreases n
  {
    var events := Presses(ArrowDown, response, n);
    if n > 0 {
      var next := Step(cfg, s, events[0]);
      assert next == s.(selectedOption := Min(s.selectedOption + 1, |s.suggestion| - 1));
      assert events[1..] == Presses(ArrowDown, response, n - 1);
      ArrowDownRepeated(cfg, next, response, n - 1);
    }
  }

  /** n ArrowUp presses on an open panel from index i >= 0 reach max(i - n, 0): never below 0. */
  lemma {:induction false} ArrowUpRepeated<T>(cfg: Config<T>, s: State<T>, response: Response<T>, n: nat)
    requires s.show && s.selectedOption >= 0
    ensures Run(cfg, s, Presses(ArrowUp, response, n))
         == s.(selectedOption := Max(s.selectedOption - n, 0))
    decreases n
  {
    var events := Presses(ArrowUp, response, n);
    if n > 0 {
      var next := Step(cfg, s, events[0]);
      assert next == s.(selectedOption := Max(s.selectedOption - 1, 0));
      assert events[1..] == Presses(ArrowUp, response, n - 1);
      ArrowUpRepeated(cfg, next, response, n - 1);
    }
  }

  /**
   * The index is not always -1 or an index of the list: typing with no
   * endpoint selects 0 on an empty list, and ArrowDown then moves to 1.
   */
  lemma IndexCanLeaveSuggestions<T>(cfg: Config<T>, value: string, response: Response<T>)
    requires cfg.queryEndpoint == "" && value != ""
    ensures var s := Run(cfg, Initial<T>(false), [KeyUp(Other, value), KeyDown(ArrowDown, response)]);
      s.suggestion == [] && s.selectedOption == 1
  {
    var events: seq<Event<T>> := [KeyUp(Other, value), KeyDown(ArrowDown, response)];
    var s1 := Step(cfg, Initial<T>(false), events[0]);
    assert s1.show && s1.suggestion == [] && s1.selectedOption == 0;
    var s2 := Step(cfg, s1, events[1]);
    assert s2.suggestion == [] && s2.selectedOption == 1;
    assert events[1..][1..] == [];
    assert Run(cfg, s1, events[1..]) == Run(cfg, s2, []);
  }

  /** Distinct indices give distinct item selectors, so a lookup finds one element. */
  lemma ItemSelectorsAreDistinct(id: string, i: int, j: int)
    requires i != j
    ensures ItemSelector(id, i) != ItemSelector(id, j)
  {
    var k := |"#" + id + "-item" + "-"|;
    if ItemSelector(id, i) == ItemSelector(id, j) {
      assert ItemSelector(id, i)[k..] == Decimal.FromInt(i);
      assert ItemSelector(id, j)[k..] == Decimal.FromInt(j);
      Decimal.FromIntInjective(i, j);
    }
  }

  /**
   * The controller's selectors name the elements the suggestion list
   * renders: the list box, and the entry of every index of the list; a
   * negative index names no entry.
   */
  lemma SelectorsMatchSuggestionList<T>(id: string, items: seq<T>, activeItem: int,
                                        itemToString: T -> string, index: int)
    ensures ListboxSelector(id) == "#" + SuggestionList.ListboxId(id)
    ensures 0 <= index < |items| ==>
              ItemSelector(id, index) == "#" + SuggestionList.Entries(id, items, activeItem, itemToString)[index].id
    ensures index < 0 ==> forall j: nat :: ItemSelector(id, index) != "#" + SuggestionList.ItemId(id, j)
  {
    if index < 0 {
      forall j: nat ensures ItemSelector(id, index) != "#" + SuggestionList.ItemId(id, j) {
        var k := |"#" + id + "-item-"|;
        assert ItemSelector(id, index)[k] == '-';
        assert ("#" + SuggestionList.ItemId(id, j))[k] == Decimal.FromNat(j)[0];
      }
    }
  }

  // ---------------------------------------------------------------------
  // The component, performing its handlers on its fields

  class Controller<T> {
    const id: string
    const queryEndpoint: string
    const queryFilter: string
    const itemToString: T -> string

    var search: string
    var suggestion: seq<T>
    var selectedOption: int
    var error: string
    var queryCache: map<string, seq<T>>
    var pending: Option<string>
    var show: bool
    var selections: seq<string>
    var requests: seq<string>

    function Settings(): Config<T> {
      Config(id, queryEndpoint, queryFilter, itemToString)
    }

    function Snapshot(): State<T>
      reads this
    {
      State(search, suggestion, selectedOption, error, queryCache, pending, show, selections, requests)
    }

    ghost predicate Valid()
      reads this
    {
      Invariant(Settings(), Snapshot())
    }

    constructor (id: string, queryEndpoint: string, queryFilter: string,
                 itemToString: T -> string, show: bool)
      ensures this.id == id && this.queryEndpoint == queryEndpoint
      ensures this.queryFilter == queryFilter && this.itemToString == itemToString
      ensures Valid() && Snapshot() == Initial(show)
    {
      this.id := id;
      this.queryEndpoint := queryEndpoint;
      this.queryFilter := queryFilter;
      this.itemToString := itemToString;
      search := "";
      suggestion := [];
      selectedOption := -1;
      error := "";
      queryCache := map[];
      pending := None;
      this.show := show;
      selections := [];
      requests := [];
    }

    method HandleClose()
      requires Valid()
      modifies this
      ensures Valid() && Snapshot() == CloseStep(old(Snapshot()))
    {
      selectedOption := -1;  // resetStateBeforeClose
      show := false;         // onClose
    }

    method HandleSelect(item: string)
      requires Valid()
      modifies this
      ensures Valid() && Snapshot() == SelectStep(old(Snapshot()), item)
    {
      search := item;                   // setText
      selections := selections + [item];  // onSelect
      HandleClose();
    }

    method FetchQuery(url: string, response: Response<T>)
      requires Valid() && IsRequestUrl(Settings(), url)
      modifies this
      ensures Valid() && Snapshot() == FetchStep(old(Snapshot()), url, response)
    {
      if url in queryCache {
        suggestion := queryCache[url];
        return;
      }
      requests := requests + [url];
      match response {
        case Results(items) =>
          suggestion := items;
          queryCache := queryCache[url := items];
        case NoResults =>
          suggestion := [];
        case NotFound =>
          suggestion := [];
          error := NotFoundMessage;
        case OtherFailure =>
      }
    }

    method HandleDropdownArrowButtonClick(response: Response<T>)
      requires Valid()
      modifies this
      ensures Valid() && Snapshot() == ChevronStep(Settings(), old(Snapshot()), response)
    {
      if show {
        HandleClose();
        return;
      }
      if search == "" && !show && queryEndpoint != "" {
        FetchQuery(queryEndpoint, response);
        show := true;  // onOpen
      }
    }

    method HandleCloseButtonClick()
      requires Valid()
      modifies this
      ensures Valid() && Snapshot() == ClearButtonStep(old(Snapshot()))
    {
      search := "";
      selections := selections + [""];
      suggestion := [];
      HandleClose();
    }

    method HandleOutsideClick()
      requires Valid()
      modifies this
      ensures Valid() && Snapshot() == OutsideClickStep(old(Snapshot()))
    {
      if show {
        search := "";
        HandleClose();
      }
    }

    method HandleChange(query: string)
      requires Valid()
      modifies this
      ensures Valid() && Snapshot() == ChangeStep(Settings(), old(Snapshot()), query)
    {
      search := query;
      if query == "" {
        HandleClose();
        return;
      }
      if !show {
        show := true;  // onOpen
      }
      var url := GenerateUrl(queryEndpoint, queryFilter, query);
      if url.None? {
        return;
      }
      if url.value in queryCache {
        suggestion := queryCache[url.value];
        return;
      }
      pending := Some(url.value);  // clearTimeout, then setTimeout
    }

    method HandleTimerFires(response: Response<T>)
      requires Valid()
      modifies this
      ensures Valid() && Snapshot() == TimerStep(old(Snapshot()), response)
    {
      if pending.Some? {
        var url := pending.value;
        pending := None;
        FetchQuery(url, response);
      }
    }

    method HandleArrowDownKeyPressed(response: Response<T>)
      requires Valid()
      modifies this
      ensures Valid() && Snapshot() == ArrowDownStep(Settings(), old(Snapshot()), response)
    {
      if !show {
        var url := GenerateUrl(queryEndpoint, queryFilter, search);
        if url.None? {
          return;
        }
        FetchQuery(url.value, response);
        show := true;  // onOpen
        return;
      }
      var lastOptionIdx := |suggestion| - 1;
      selectedOption := if selectedOption == lastOptionIdx then lastOptionIdx else selectedOption + 1;
    }

    method HandleArrowUpKeyPressed()
      requires Valid()
      modifies this
      ensures Valid() && Snapshot() == ArrowUpStep(old(Snapshot()))
    {
      if !show {
        return;
      }
      if selectedOption != -1 {
        selectedOption := if selectedOption == 0 then 0 else selectedOption - 1;
      }
    }

    method HandleKeyUp(key: Key, value: string)
      requires Valid()
      modifies this
      ensures Valid() && Snapshot() == KeyUpStep(Settings(), old(Snapshot()), key, value)
    {
      if !IgnoredOnKeyUp(key) {
        HandleChange(value);
        selectedOption := 0;
      }
    }

    method HandleKeyDown(key: Key, response: Response<T>)
      requires Valid()
      modifies this
      ensures Valid() && Snapshot() == KeyDownStep(Settings(), old(Snapshot()), key, response)
    {
      match key {
        case Enter =>
          if 0 <= selectedOption < |suggestion| {
            var itemStr := itemToString(suggestion[selectedOption]);
            search := itemStr;
            selections := selections + [itemStr];
            HandleClose();
          }
        case ArrowUp =>
          HandleArrowUpKeyPressed();
        case ArrowDown =>
          HandleArrowDownKeyPressed(response);
        case Tab =>
          HandleClose();
        case _ =>
      }
    }
  }
}
