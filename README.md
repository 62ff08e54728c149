# Autocomplete input: a verified model of its controller

This project models the core of an autocomplete input widget: a text field
that queries a remote suggestion endpoint as the user types, keeps a cache of
responses keyed by request URL, debounces its requests through a single
pending timer, lets the user move a highlighted index through the suggestions
with the keyboard, and reports the committed text to its host.

The model has three parts.

- `AutoComplete` (auto_complete.dfy) is the controller of
  `components/auto-complete/AutoComplete.tsx`. Its state is the search text,
  the suggestion list, the selected index (-1 for none), the error text, the
  response cache, the one pending debounced fetch, and the host-owned `show`
  flag. Two logs hold what the outside world sees: the values passed to
  `onSelect` and the URLs sent to the network. Each handler is one atomic
  update applied in source order, and the last write wins. Pure step functions
  (`ChangeStep`, `KeyUpStep`, `ArrowDownStep`, ...) say what each handler does.
  The class `Controller` performs the same handlers on its fields, and each
  method is proved to agree with its step function. Lemmas state the handlers'
  properties, and an invariant is proved over every sequence of events.
- `GetFirstOption` (get_first_option.dfy) is `getNextNonDisabledIndex` of
  `utils/getFirstOption.ts`. It is a loop method proved against two recursive
  search functions. The DOM lookup becomes a predicate `disabled(i)` and a flag
  `baseExists`.
- `SuggestionList` (suggestion_list.dfy) is the projection of the items to
  list entries (id, text, active) in `components/auto-complete/SuggestionList.tsx`.
  The controller's element selectors are proved to name these entries.

`Decimal` renders integers the way a JavaScript template literal does; the
element ids use it. scenarios.dfy replays the demo page's setup: typing "Earth",
a 404, an outside click and a repeated query, asserted through the class.

Some behaviour differs from what the component's comments (AutoComplete.tsx:243-250,
295-296) and the usual combobox conventions lead one to expect (Escape closes,
the highlighted index is always -1 or an index of the list, every keystroke
cancels the pending fetch). The model follows the code:

- Escape does not close the panel. `handleKeyDown` has no Escape case; key-up
  only ignores Escape (`EscapeChangesNothing`).
- "Selected index is -1 or valid" is not an invariant. Key-up forces 0 even on
  an empty list, and ArrowDown clamps only an index at most the last one
  (`IndexCanLeaveSuggestions`). The proved invariant only bounds it below by -1.
- Index 0 is forced on every searching key-up, whether or not a new list
  arrives.
- A pending fetch is cancelled only when a new one is scheduled. An emptied
  field or a cache hit leaves it pending (`RepeatedQueryIsServedFromCache`).
- ArrowDown on a closed panel opens it only when an endpoint is configured.

## Model

| member | source | states |
|---|---|---|
| `GetFirstOption.FirstEnabledFrom` | utils/getFirstOption.ts:21-26 | the first enabled index in [from, itemCount) with all before it disabled, and -1 when all are disabled |
| `GetFirstOption.LastEnabledUpTo` | utils/getFirstOption.ts:27-33 | the last enabled index in [0, last] with all after it disabled, and -1 exactly when all are disabled |
| `GetFirstOption.GetNextNonDisabledIndex` | utils/getFirstOption.ts:10-36 | the two loops with early returns compute `NextNonDisabledIndex` |
| `GetFirstOption.BaseKeptWhenUsable` | utils/getFirstOption.ts:16-19 | a missing or enabled base node returns baseIndex unchanged |
| `GetFirstOption.ForwardFindsNearest` | utils/getFirstOption.ts:21-35 | a positive move from a disabled base returns the smallest enabled i with base < i < itemCount, and -1 exactly when none exists |
| `GetFirstOption.BackwardFindsNearest` | utils/getFirstOption.ts:27-35 | a move <= 0 (zero included) from a disabled base returns the largest enabled i with 0 <= i < base, and -1 exactly when none exists |
| `GetFirstOption.OnlySignOfMoveMatters` | utils/getFirstOption.ts:21 | two moves of the same sign give the same result |
| `GetFirstOption.FoundIndexIsEnabledItem` | utils/getFirstOption.ts:20-35 | from a disabled base inside the list, any result other than -1 is another index of the list whose item is enabled |
| `SuggestionList.Entries` | components/auto-complete/SuggestionList.tsx:19-23 | one entry per item in item order; entry i has id `customId-item-i`, text `itemToString(items[i])`, and is active iff i == activeItem |
| `SuggestionList.NoItemsNoEntries` | components/auto-complete/SuggestionList.tsx:19-20 | an empty item list yields no entries |
| `SuggestionList.ActiveEntryIsUnique` | components/auto-complete/SuggestionList.tsx:22 | at most one entry is active, and one is exactly when activeItem indexes the items (none for -1 or past the end) |
| `SuggestionList.EntryIdsAreDistinct` | components/auto-complete/SuggestionList.tsx:21 | distinct indices get distinct element ids |
| `AutoComplete.ItemSelectorsAreDistinct` | components/auto-complete/AutoComplete.tsx:80-83 | distinct indices, negative ones included, give distinct item selectors |
| `AutoComplete.SelectorsMatchSuggestionList` | components/auto-complete/AutoComplete.tsx:70-86 | the list selector is `#` + the list box id; the item selector for an index of the list is `#` + that entry's id; a negative index names no entry |
| `AutoComplete.GenerateUrl` | components/auto-complete/AutoComplete.tsx:153-161 | no URL exactly when no endpoint is configured; every URL extends the endpoint |
| `AutoComplete.GenerateUrlComposes` | components/auto-complete/AutoComplete.tsx:155-158 | endpoint ++ filter ++ query when filter and query are both non-empty, else the endpoint alone |
| `AutoComplete.GenerateUrlSeparatesQueries` | components/auto-complete/AutoComplete.tsx:157 | with a filter, distinct queries get distinct URLs (cache keys) |
| `AutoComplete.WithoutFilterAllQueriesShareUrl` | components/auto-complete/AutoComplete.tsx:157 | without a filter every query maps to the endpoint's URL |
| `AutoComplete.ArrowDownIndex` | components/auto-complete/AutoComplete.tsx:261-266 | for -1 <= index <= last the next index is min(index + 1, last); an index past the end moves on to index + 1; it never drops below -1 |
| `AutoComplete.ArrowUpIndex` | components/auto-complete/AutoComplete.tsx:286-290 | -1 stays -1; index >= 0 becomes max(index - 1, 0) |
| `AutoComplete.FetchStep` | components/auto-complete/AutoComplete.tsx:114-147 | existing cache entries are kept unchanged; the cache gains a key only for the fetched URL and only with results; a request is logged exactly on a cache miss; only suggestion, error, cache and the log change |
| `AutoComplete.FetchCacheHit` | components/auto-complete/AutoComplete.tsx:116-120 | a cached URL sets the suggestion to the cached list and sends nothing |
| `AutoComplete.FetchOutcomes` | components/auto-complete/AutoComplete.tsx:122-146 | on a miss: results are shown and cached under exactly that URL; absent results show [] and leave the cache; a 404 shows [] and sets 'Something went wrong.'; any other failure changes nothing but the request log |
| `AutoComplete.ChangeSetsSearchAndOpens` | components/auto-complete/AutoComplete.tsx:209-219 | search becomes the query; an empty query closes with index -1 and schedules nothing; any other opens the panel; cache and network untouched |
| `AutoComplete.ChangeCacheHit` | components/auto-complete/AutoComplete.tsx:222-230 | a cached URL shows the cached list and schedules no timer |
| `AutoComplete.ChangeCacheMiss` | components/auto-complete/AutoComplete.tsx:232-237 | an uncached URL replaces any pending fetch by one for that URL, so at most one is pending |
| `AutoComplete.TimerRunsPendingFetch` | components/auto-complete/AutoComplete.tsx:233-237 | the timer fetches the pending URL and clears it; without one nothing happens |
| `AutoComplete.KeyUpIgnoredKeysChangeNothing` | components/auto-complete/AutoComplete.tsx:300-311 | Esc, arrows, space, enter, tab and shift leave the whole state unchanged on key-up |
| `AutoComplete.KeyUpSelectsFirstOption` | components/auto-complete/AutoComplete.tsx:314-318 | any other key runs handleChange and then sets the index to 0, also on an empty list and when the field was emptied and the panel closed |
| `AutoComplete.RepeatedQueryUsesCache` | components/auto-complete/AutoComplete.tsx:226-230 | typing a query whose URL is cached sends no request and schedules no fetch |
| `AutoComplete.ArrowDownWhileClosed` | components/auto-complete/AutoComplete.tsx:251-258 | on a closed panel the index is unchanged; with a URL the fetch runs and the panel opens, without one nothing changes |
| `AutoComplete.ArrowDownWhileOpen` | components/auto-complete/AutoComplete.tsx:260-269 | on an open panel with -1 <= index <= last, the index becomes min(index + 1, last) and nothing else changes |
| `AutoComplete.ArrowDownRepeated` | components/auto-complete/AutoComplete.tsx:260-269 | n presses on an open panel give min(index + n, last) |
| `AutoComplete.ArrowUpMoves` | components/auto-complete/AutoComplete.tsx:284-292 | nothing on a closed panel; -1 stays -1; index >= 0 becomes max(index - 1, 0) |
| `AutoComplete.ArrowUpRepeated` | components/auto-complete/AutoComplete.tsx:284-292 | n presses from index i >= 0 give max(i - n, 0), never below 0 |
| `AutoComplete.IndexCanLeaveSuggestions` | components/auto-complete/AutoComplete.tsx:261-266 | with no endpoint, typing then ArrowDown leaves index 1 on an empty list |
| `AutoComplete.EnterCommitsHighlightedItem` | components/auto-complete/AutoComplete.tsx:332-340 | an index inside the list sets search to itemToString(item), reports it and closes with index -1; any other index changes nothing |
| `AutoComplete.TabCloses` | components/auto-complete/AutoComplete.tsx:352-354 | Tab closes with index -1 and changes nothing else |
| `AutoComplete.ClearButtonResets` | components/auto-complete/AutoComplete.tsx:186-191 | the clear button empties search and suggestion, reports '' and closes with index -1 |
| `AutoComplete.OutsideClickWhileOpen` | components/auto-complete/AutoComplete.tsx:197-202 | an outside click on an open panel empties search and closes with index -1 |
| `AutoComplete.OutsideClickWhileClosed` | components/auto-complete/AutoComplete.tsx:197-202 | an outside click on a closed panel changes nothing |
| `AutoComplete.ItemClickCommits` | components/auto-complete/AutoComplete.tsx:52-56 | an item click sets search to the item, reports it and closes with index -1 |
| `AutoComplete.ChevronClickToggles` | components/auto-complete/AutoComplete.tsx:166-180 | an open panel closes with index -1; a closed one with empty search and an endpoint fetches the endpoint and opens; otherwise nothing changes |
| `AutoComplete.EscapeChangesNothing` | components/auto-complete/AutoComplete.tsx:330-355 | Escape changes nothing on key-down or key-up |
| `AutoComplete.InitialSatisfiesInvariant` | components/auto-complete/AutoComplete.tsx:35-41 | the mounted state satisfies the invariant |
| `AutoComplete.StepPreservesInvariant` | components/auto-complete/AutoComplete.tsx:43-355 | every event keeps index >= -1, keeps every cached, pending and requested URL an extension of a configured endpoint, and keeps every cached URL among those already requested |
| `AutoComplete.RunPreservesInvariant` | components/auto-complete/AutoComplete.tsx:43-355 | every sequence of events keeps the invariant, so no URL is ever cached before its request was sent and answered |
| `AutoComplete.RunKeepsCacheEntries` | components/auto-complete/AutoComplete.tsx:133-135 | a cache entry, once stored, is never removed or replaced |
| `AutoComplete.Controller.constructor` | components/auto-complete/AutoComplete.tsx:35-41 | the initial state: empty search, list, error and cache, index -1, no pending fetch |
| `AutoComplete.Controller.HandleClose` | components/auto-complete/AutoComplete.tsx:105-108 | index -1 and the panel closed, as `CloseStep` |
| `AutoComplete.Controller.HandleSelect` | components/auto-complete/AutoComplete.tsx:52-56 | the new state is `SelectStep` of the old one, keeping the invariant |
| `AutoComplete.Controller.FetchQuery` | components/auto-complete/AutoComplete.tsx:114-147 | the new state is `FetchStep` of the old one, keeping the invariant |
| `AutoComplete.Controller.HandleDropdownArrowButtonClick` | components/auto-complete/AutoComplete.tsx:166-180 | the new state is `ChevronStep` of the old one, keeping the invariant |
| `AutoComplete.Controller.HandleCloseButtonClick` | components/auto-complete/AutoComplete.tsx:186-191 | the new state is `ClearButtonStep` of the old one, keeping the invariant |
| `AutoComplete.Controller.HandleOutsideClick` | components/auto-complete/AutoComplete.tsx:197-202 | the new state is `OutsideClickStep` of the old one, keeping the invariant |
| `AutoComplete.Controller.HandleChange` | components/auto-complete/AutoComplete.tsx:207-240 | the new state is `ChangeStep` of the old one, keeping the invariant |
| `AutoComplete.Controller.HandleTimerFires` | components/auto-complete/AutoComplete.tsx:233-237 | the new state is `TimerStep` of the old one, keeping the invariant |
| `AutoComplete.Controller.HandleArrowDownKeyPressed` | components/auto-complete/AutoComplete.tsx:246-278 | the new state is `ArrowDownStep` of the old one, keeping the invariant |
| `AutoComplete.Controller.HandleArrowUpKeyPressed` | components/auto-complete/AutoComplete.tsx:284-292 | the new state is `ArrowUpStep` of the old one, keeping the invariant |
| `AutoComplete.Controller.HandleKeyUp` | components/auto-complete/AutoComplete.tsx:298-322 | the new state is `KeyUpStep` of the old one, keeping the invariant |
| `AutoComplete.Controller.HandleKeyDown` | components/auto-complete/AutoComplete.tsx:328-366 | the new state is `KeyDownStep` of the old one, keeping the invariant |

## Left out

- The network and JSON: `fetch`, `res.json()` and the error object are not modelled. How a fetch ends is an input value: results, no results, 404, or other failure. In a browser `fetch` does not reject on a 404; the model takes the source's 404 branch as a given outcome.
- Real time: `setTimeout`/`clearTimeout`, the 250 ms delay and the unmount cleanup are not modelled. The model keeps the pending URL and an explicit "timer fires" event. Firing clears the pending URL, because a fired timer is no longer pending.
- Async interleaving: each event, including a fetch and its completion, is one atomic step. The stale-response race between overlapping fetches and the `await` in ArrowDown are therefore not modelled.
- Scrolling: `triggerScrollByIdx` and utils/scrollIntoView.ts are DOM geometry and animation. They are not modelled and no scroll request is recorded. Only the selectors are modelled.
- utils/keys.ts is not part of this model. Keys are named (`Escape`, `ArrowUp`, ..., `Other`), not numbered.
- Presentation: OutsideClickHandler.tsx (it is the source of the outside-click event), SuggestionItem.tsx (an item click forwards its text to `handleSelect`), the render block, aria attributes, icons, `console.log`, `focus()`, `preventDefault()`, `defaultValue` (it sets the DOM value only), and the unused `error` rendering are not modelled.
- The demo host pages/index.tsx contributes only this: `onOpen`/`onClose` set `show` to true/false.
- Render conditions: the chevron is shown only on an empty field and the clear button only on a non-empty one. The list renders only when `show` holds and the list is non-empty. The model lets every event happen in every state, as the handlers themselves allow.
- Cache lookups: a cached array is always truthy, so the model's cache test is key membership. Keys inherited from the object prototype are not modelled.
- AutoComplete.EnterCommitsHighlightedItem: every item is treated as present. The source would also ignore a falsy item (null, 0, '') at the index, which the demo's objects never are.
- GetFirstOption.GetNextNonDisabledIndex: `disabled` is total. The source would throw if a node looked up inside a loop were missing; only the base lookup may miss (`baseExists`).
- GetFirstOption.ForwardFindsNearest: stated for baseIndex >= -1. For a smaller base a non-disabled index -1 would be found, and that result is indistinguishable from "not found".
