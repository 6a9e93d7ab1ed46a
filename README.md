# User dashboard — a verified model

This project models the behaviour of a React user-directory dashboard. It covers:

- **Search.** A user types a name, the input is validated, and the mock user collection is
  filtered by a case-insensitive substring match on "name surname".
- **Role filtering.** The results can be narrowed by six role filters. The filter toggle keeps a
  non-empty, duplicate-free set of active roles and resets to "all" when the last one is removed.
- **Search hook.** The hook aborts each search when the next one starts, so the last query wins.
- **Scrolling.**
  - Wheel events over the page are proxied, one animation frame at a time, into the results pane.
  - The header collapses in two ways: the dashboard's continuous progress `min(scrollTop/150, 1)`,
    and the header hook's 50/30 hysteresis machine. The two are kept separate.
  - Fades show at the top and bottom of the results pane.
- **Details dialog.** It traps Tab focus, closes on Escape or on an overlay click, and gives focus
  back when it closes.
- **Badges.** The filter buttons and the badge atom's class name.

Code that is pure in the program is modelled as functions and lemmas. Pieces of state that
handlers update step by step are modelled as classes with `modifies` clauses, proved against
specification functions:

- `Dashboard.UserDashboard`;
- `UsersSearch.Controller`;
- `WheelProxy.Proxy`;
- `HeaderScrub.Scrub`;
- `ScrollFades.Fades`;
- `SearchInput.SearchBox`;
- `UserModal.Modal`.

The search hook's `AbortController` becomes a generation number: search *k* is the *k*-th search
started, and its fetch may write only while no later search has started.

Modules:

- `Types`: the `User` record, the `UserRole` categories and the fixed role order.
- `Seqs`: `Array.prototype.filter` and its laws.
- `Strings`: `toLowerCase`, `toUpperCase`, `includes`, `trim`, and the regular-expression classes
  `\s`, `\d` and `[a-zA-Z]`.
- `Dom`: a scrollable element, shared by reference between the wheel proxy and the dashboard.
- One module per core source file.

## Model

All paths below are relative to the repository root.

| member | source | states |
|---|---|---|
| UserMatch.FetchUsersMembership | src/app/user-dashboard/user-dashboard.tsx:62-65 | a user is returned iff it is in the collection and the lower-cased query occurs at some position of its lower-cased "name surname" |
| UserMatch.FetchUsersKeepsOrder | src/app/user-dashboard/user-dashboard.tsx:62-65 | the results keep the collection's order (searching a concatenation concatenates the results) |
| UserMatch.FetchUsersNoMatch | src/app/user-dashboard/user-dashboard.tsx:62-65 | a query no full name contains yields no results |
| UserMatch.FetchUsersEmptyQuery | src/app/user-dashboard/hooks/use-users-search.ts:18-21 | the empty query returns the whole collection in order |
| UserMatch.FetchUsersIgnoresCase | src/app/user-dashboard/hooks/use-users-search.ts:19-20 | a query and its lower-cased form give the same results |
| Strings.IncludesIffOccurs | src/app/user-dashboard/user-dashboard.tsx:64 | `includes` holds exactly when the needle occurs at some position of the haystack |
| Strings.TrimEmptyIffBlank | src/app/user-dashboard/components/search-input/search-input.tsx:7-8 | `trim()` gives "" exactly when every character is white space |
| Strings.LowerIdempotent | src/app/user-dashboard/user-dashboard.tsx:63-64 | lower-casing an already lower-cased string changes nothing |
| Strings.LowerChangesOnlyCapitals | src/app/user-dashboard/user-dashboard.tsx:63-64 | lower-casing leaves a string unchanged iff it holds no capital A-Z |
| Strings.TrimStart | src/app/user-dashboard/components/search-input/search-input.tsx:7 | the result is a suffix of the input that does not start with white space, and everything dropped before it is white space |
| Strings.TrimEnd | src/app/user-dashboard/components/search-input/search-input.tsx:7 | the result is a prefix of the input that does not end with white space, and everything dropped after it is white space |
| Seqs.Filter | src/app/user-dashboard/user-dashboard.tsx:241 | the result is no longer than the input; it holds only elements of the input that satisfy the predicate, and every such element |
| Seqs.FilterConcat | src/app/user-dashboard/user-dashboard.tsx:241 | filtering distributes over concatenation: nothing is reordered |
| Seqs.FilterAllOrNone | src/app/user-dashboard/user-dashboard.tsx:98-99 | a predicate that keeps everything is the identity; one that keeps nothing gives [] |
| Seqs.FilterAgrees | src/app/user-dashboard/hooks/use-users-search.ts:18-21 | predicates that agree on every element give the same filter |
| Seqs.FilterIdempotent | src/app/user-dashboard/user-dashboard.tsx:241 | filtering twice by a predicate is filtering once |
| Seqs.DistinctElementCount | src/app/user-dashboard/user-dashboard.tsx:89 | a duplicate-free list has as many distinct elements as positions |
| Seqs.FilterKeepsNoDuplicates | src/app/user-dashboard/user-dashboard.tsx:98 | filtering keeps a duplicate-free list duplicate-free |
| Dashboard.FullLengthMeansAllRoles | src/app/user-dashboard/user-dashboard.tsx:89 | for duplicate-free filters, length 6 holds iff every role is active, so the length test means "all active" |
| Dashboard.ToggleFromAllNarrows | src/app/user-dashboard/user-dashboard.tsx:89-93 | with all roles active, a click selects only the clicked role |
| Dashboard.ToggleNarrowed | src/app/user-dashboard/user-dashboard.tsx:95-102 | when narrowed: clicking an active role removes it, keeps every other role and shortens the list by one; removing the last one resets to all six; clicking an inactive role appends it at the end |
| Dashboard.CountWithout | src/app/user-dashboard/user-dashboard.tsx:98 | removing a role present once shortens a duplicate-free list by exactly one |
| Dashboard.ToggleKeepsValid | src/app/user-dashboard/user-dashboard.tsx:87-104 | every toggle keeps the active filters non-empty and duplicate-free |
| Dashboard.SelectSequences | src/app/user-dashboard/user-dashboard.tsx:87-104 | from all: clicking a role twice restores all six; clicking r then s gives [r, s] |
| Dashboard.FilteredUsersSpec | src/app/user-dashboard/user-dashboard.tsx:241 | a result is shown iff its role is active; order is kept; with all six active every result is shown |
| Dashboard.Progress | src/app/user-dashboard/user-dashboard.tsx:177 | the progress lies in [0, 1]; it is 1 iff the offset is at least 150 and 0 iff the offset is 0 |
| Dashboard.ProgressMonotone | src/app/user-dashboard/user-dashboard.tsx:177 | scrolling further never lowers the progress |
| Dashboard.UserDashboard.constructor | src/app/user-dashboard/user-dashboard.tsx:26-36 | initial state (no users, all filters, no selection, no fades, progress 0, cards), with `isMobile` set by the mount-time width check |
| Dashboard.UserDashboard.StartSearch | src/app/user-dashboard/user-dashboard.tsx:71-79 | the results pane scrolls to 0 with its heights kept, progress resets, loading and searched are set, and the query joins the outstanding fetches; nothing else changes |
| Dashboard.UserDashboard.ResolveSearch | src/app/user-dashboard/user-dashboard.tsx:80-82 | the oldest outstanding fetch stores the users matching its query and clears loading |
| Dashboard.UserDashboard.HandleFilterChange | src/app/user-dashboard/user-dashboard.tsx:87-104 | filters become `ToggleFilter` of the old ones and stay valid |
| Dashboard.UserDashboard.SelectUser | src/app/user-dashboard/user-dashboard.tsx:106-112 | opening or closing the details sets the selected user |
| Dashboard.UserDashboard.CheckScrollPosition | src/app/user-dashboard/user-dashboard.tsx:168-186 | with the pane present, the fades follow it; on desktop after a search the progress is `Progress(scrollTop)`, and the header is fully collapsed iff the offset is at least 150; with no pane nothing changes |
| Dashboard.UserDashboard.CheckMobile | src/app/user-dashboard/user-dashboard.tsx:243-262 | below 768 the page is mobile, shows cards and resets progress; otherwise it shows the desktop view |
| Dashboard.UserDashboard.HandleViewChange | src/app/user-dashboard/user-dashboard.tsx:270-278 | on desktop the view and the remembered desktop view become the new view; on mobile nothing changes |
| Dashboard.SyncWheelEffect | src/app/user-dashboard/user-dashboard.tsx:192-239 | the old listener is cleaned up; a new one is attached iff container and pane exist, a search was made, the page is on desktop and no user is selected; either way no handle, no queued frame and no pending delta remain |
| Dashboard.WheelFrame | src/app/user-dashboard/user-dashboard.tsx:212-227 | with the pane gone, only the frame is consumed (delta and handle stay, the dashboard is unchanged); otherwise the pane moves by the clamped delta, the delta is zeroed, the handle cleared, one update counted, both fades follow the pane, and on desktop after a search the progress equals `Progress` of the new offset |
| Dashboard.BadgesAfterFirstClick | src/app/user-dashboard/user-dashboard.tsx:89-93 | after the first click from all, only the clicked role's button is pressed and highlighted active; every other one is highlighted inactive |
| SearchInput.ValidateInputOutcomes | src/app/user-dashboard/components/search-input/search-input.tsx:6-18 | blank input → empty error; otherwise a character outside letters/white space → numbers error iff a digit is present, characters error otherwise; otherwise accepted (all four as iff) |
| SearchInput.DigitsAreRejected | src/app/user-dashboard/components/search-input/search-input.tsx:11-14 | any input holding a digit is rejected with the numbers error |
| SearchInput.MessagesAreDistinct | src/app/user-dashboard/components/search-input/search-input.tsx:9-17 | only acceptance shows "" and the three messages differ |
| SearchInput.SearchBox.constructor | src/app/user-dashboard/components/search-input/search-input.tsx:27-28 | the query starts empty with no error |
| SearchInput.SearchBox.HandleChange | src/app/user-dashboard/components/search-input/search-input.tsx:30-36 | the query becomes the typed value and no error remains |
| SearchInput.SearchBox.HandleClear | src/app/user-dashboard/components/search-input/search-input.tsx:38-41 | query and error are emptied and the clear button disappears |
| SearchInput.SearchBox.HandleSearch | src/app/user-dashboard/components/search-input/search-input.tsx:43-51 | the error becomes the validation outcome, and the untrimmed query is submitted iff it is accepted |
| SearchInput.SearchBox.HandleKeyDown | src/app/user-dashboard/components/search-input/search-input.tsx:53-57 | Enter behaves as `HandleSearch`; any other key changes nothing and submits nothing |
| UsersSearch.OnlyCurrentSearchWrites | src/app/user-dashboard/hooks/use-users-search.ts:46-58 | a settling search changes users or loading only if it is the current search and still in flight |
| UsersSearch.StartSupersedes | src/app/user-dashboard/hooks/use-users-search.ts:34-43 | a start makes a new current search, leaves users alone and sets loading and searched |
| UsersSearch.RunKeepsInvariants | src/app/user-dashboard/hooks/use-users-search.ts:32-62 | any event sequence keeps "searched iff some search started", "loading iff the current search is in flight" and "settled means the current query's results" |
| UsersSearch.RunTracksLatestQuery | src/app/user-dashboard/hooks/use-users-search.ts:38-39 | the current query is the one of the last search started |
| UsersSearch.HasSearchedStays | src/app/user-dashboard/hooks/use-users-search.ts:43 | `hasSearched` is never reset |
| UsersSearch.LastWriteWins | src/app/user-dashboard/hooks/use-users-search.ts:32-62 | from the initial state, after any interleaving, once searched and not loading the users are the results of the last query started |
| UsersSearch.StaleSettlementsChangeNothing | src/app/user-dashboard/hooks/use-users-search.ts:14-17 | any number of settlements of superseded searches leave the state unchanged |
| UsersSearch.Controller.constructor | src/app/user-dashboard/hooks/use-users-search.ts:6-9 | the hook starts in `Initial`: no users, not loading, not searched, no controller |
| UsersSearch.Controller.Search | src/app/user-dashboard/hooks/use-users-search.ts:32-43 | the new state is `Step(Start(q))`; the effects are abort (if a controller exists), `onSearchStart` (if given), then loading and searched, in that order |
| UsersSearch.Controller.SettleSearch | src/app/user-dashboard/hooks/use-users-search.ts:45-59 | the new state is `Step(Settle(k))`; the result is applied iff k is the current search and it is in flight |
| WheelProxy.ClampScroll | src/app/user-dashboard/hooks/use-wheel-proxy-scroll.ts:41-42 | the new offset is at most max(0, max offset); it is exact inside the range and pinned to the nearer end outside it |
| WheelProxy.ClampIdempotent | src/app/user-dashboard/hooks/use-wheel-proxy-scroll.ts:42 | a clamped offset stays put under a zero delta |
| WheelProxy.ClampMonotone | src/app/user-dashboard/hooks/use-wheel-proxy-scroll.ts:42 | a larger delta never scrolls less far |
| WheelProxy.Proxy.constructor | src/app/user-dashboard/hooks/use-wheel-proxy-scroll.ts:13-14 | the proxy starts detached, with no pending delta, no handle and no queued frame |
| WheelProxy.Proxy.Install | src/app/user-dashboard/hooks/use-wheel-proxy-scroll.ts:16-19 | the listener is attached iff enabled and both elements exist |
| WheelProxy.Proxy.Wheel | src/app/user-dashboard/hooks/use-wheel-proxy-scroll.ts:21-34 | the event is consumed iff attached, the target exists and it is not over an input; the delta accumulates; a frame is queued only when no handle is held |
| WheelProxy.Proxy.Flush | src/app/user-dashboard/hooks/use-wheel-proxy-scroll.ts:34-49 | with the target gone nothing changes but the frame (the handle stays set); otherwise the pane moves to the clamped offset, the delta is zeroed, one update is reported and the handle is cleared |
| WheelProxy.Proxy.Cleanup | src/app/user-dashboard/hooks/use-wheel-proxy-scroll.ts:53-60 | detached, no handle, no queued frame, no pending delta |
| WheelProxy.WheelMovesPaneByDelta | src/app/user-dashboard/user-dashboard.test.tsx:251-285 | a 2000/500 pane at 0 given one wheel event of 120 ends at 120, with nothing pending and no frame queued |
| WheelProxy.VanishedTargetStallsScrolling | src/app/user-dashboard/hooks/use-wheel-proxy-scroll.ts:35-36 | after a frame runs with the target gone, later wheel events accumulate (100 pending) but queue no frame, and the pane stays at 0 |
| HeaderScrub.NextCollapsed | src/app/user-dashboard/hooks/use-header-scrub.ts:30-37 | the state changes only past the thresholds (expand below 30, collapse above 50) and never for offsets in [30, 50] |
| HeaderScrub.CollapsesOnlyAboveThreshold | src/app/user-dashboard/hooks/use-header-scrub.ts:35-36 | from expanded, it collapses iff the offset exceeds 50 |
| HeaderScrub.ExpandsOnlyBelowThreshold | src/app/user-dashboard/hooks/use-header-scrub.ts:33-34 | from collapsed, it expands iff the offset is below 30 |
| HeaderScrub.SameOffsetTwice | src/app/user-dashboard/hooks/use-header-scrub.ts:30-37 | repeating an offset changes nothing more |
| HeaderScrub.NoFlicker | src/app/user-dashboard/hooks/use-header-scrub.ts:3-4 | two consecutive state changes need offsets more than 20 apart |
| HeaderScrub.Scrub.constructor | src/app/user-dashboard/hooks/use-header-scrub.ts:14-15 | the header starts expanded, with the ref agreeing and nothing written |
| HeaderScrub.Scrub.ScrollProgress | src/app/user-dashboard/hooks/use-header-scrub.ts:51 | the exposed progress is 0 or 1, and 1 iff collapsed |
| HeaderScrub.Scrub.UpdateScrollProgress | src/app/user-dashboard/hooks/use-header-scrub.ts:26-49 | no-op on mobile or before a search; otherwise the state becomes `NextCollapsed` and "1"/"0" is written only on a change with a container |
| HeaderScrub.Scrub.ResetHeaderScrub | src/app/user-dashboard/hooks/use-header-scrub.ts:18-24 | expands, and writes "0" when the container exists |
| ScrollFades.FadesAtTheEnds | src/app/user-dashboard/hooks/use-scroll-fades.ts:12-13 | the bottom fade shows iff more than one pixel is left below; neither fade shows at its end of the range |
| ScrollFades.FlushToBottomClearsBottomFade | src/app/user-dashboard/hooks/use-scroll-fades.ts:13 | a wheel flush that reaches the bottom leaves no bottom fade |
| ScrollFades.Fades.constructor | src/app/user-dashboard/hooks/use-scroll-fades.ts:4-5 | both fades start hidden |
| ScrollFades.Fades.CheckScrollPosition | src/app/user-dashboard/hooks/use-scroll-fades.ts:7-16 | no element: zeros and nothing changes; otherwise both flags follow the element and its metrics are returned |
| UserModal.TrapIgnoresOtherKeys | src/app/user-dashboard/components/user-modal/user-modal.tsx:38-43 | keys other than Tab, or a dialog with no focusable element, are not trapped |
| UserModal.TrapWrapsAtTheEnds | src/app/user-dashboard/components/user-modal/user-modal.tsx:45-54 | Shift+Tab on the first goes to the last; Tab on the last goes to the first |
| UserModal.TrapLeavesTheMiddleAlone | src/app/user-dashboard/components/user-modal/user-modal.tsx:48-54 | elsewhere the trap does not intervene; with one element focus stays on it |
| UserModal.FocusAfterTab | src/app/user-dashboard/components/user-modal/user-modal.tsx:38-56 | after Tab or Shift+Tab, focus is still on a focusable element of the dialog |
| UserModal.FocusCycles | src/app/user-dashboard/components/user-modal/user-modal.tsx:38-56 | Tab and Shift+Tab step through the focusables in order, wrapping at both ends |
| UserModal.Modal.constructor | src/app/user-dashboard/components/user-modal/user-modal.tsx:12-14 | opening saves the page focus and focuses the close button |
| UserModal.Modal.Unmount | src/app/user-dashboard/components/user-modal/user-modal.tsx:16-18 | closing gives focus back to the saved element |
| UserModal.Modal.DocumentKeyDown | src/app/user-dashboard/components/user-modal/user-modal.tsx:21-30 | Escape requests close once; other keys do nothing |
| UserModal.Modal.OverlayClick | src/app/user-dashboard/components/user-modal/user-modal.tsx:32-36 | only a click on the overlay itself requests close |
| UserModal.Modal.KeyDown | src/app/user-dashboard/components/user-modal/user-modal.tsx:38-56 | the default is prevented iff the trap intervenes, and then focus moves to its target |
| UserModal.OpenThenCloseRestoresFocus | src/app/user-dashboard/components/user-modal/user-modal.tsx:12-19 | opening then closing focuses the close button, then returns focus to where it was |
| FilterBadges.Buttons | src/app/user-dashboard/components/filter-badges/filter-badges.tsx:25 | six buttons, one per role, in role order |
| FilterBadges.ButtonStates | src/app/user-dashboard/components/filter-badges/filter-badges.tsx:19-35 | pressed iff the role is active, whatever `allActive` is; no highlight when all are active, otherwise exactly one of active/inactive, active iff the role is active |
| FilterBadges.ButtonsNameEachRoleOnce | src/app/user-dashboard/components/filter-badges/filter-badges.tsx:25-42 | distinct buttons report distinct roles; the text is the role upper-cased and the badge uses the role's variant class |
| Badge.VariantClassShape | src/components/atoms/badge/index.tsx:17 | the class is "badge", then the variant's first character upper-cased, then the rest unchanged |
| Badge.VariantClassInjective | src/components/atoms/badge/index.tsx:17 | different lower-case variants give different classes |
| Badge.UpperOfLetter | src/components/atoms/badge/index.tsx:17 | upper-casing a lower-case letter gives the capital 32 code points below |
| Badge.RoleVariantClasses | src/components/atoms/badge/index.tsx:5-17 | the six roles map to badgeAdmin … badgeInactive, all different |

## Left out

- Rendering (JSX, CSS modules, `cn`), the skeletons and tables, and `applyHeaderScrub`. These are
  pixel geometry over `getBoundingClientRect` and computed fonts in floating point, and no model of
  layout exists here. The `--scroll-progress` writes of the dashboard are left out for the same
  reason; the header hook's writes are modelled as a list of values.
- `src/app/user-dashboard/hooks/use-is-mobile.ts` is not part of this model. The dashboard's own
  width check is modelled as `CheckMobile(width)`, with the window width as a parameter.
- Timers, promises and `requestAnimationFrame` become explicit events: `ResolveSearch`,
  `SettleSearch(k)` and `Flush`. The 100 ms re-check after a search is just another call of
  `CheckScrollPosition`.
- The dashboard's `handleSearch` has no abort. Every fetch takes the same 1000 ms, so outstanding
  fetches resolve in start order, and the model keeps them as a queue.
- The search input is disabled while loading. This is a rendering attribute, so the model does
  not stop a second search from starting.
- React's batching and stale closures are not modelled: each handler acts on the current state.
- The mock JSON collection is an arbitrary sequence of users (`mock`).
- Element `closest(...)` matching is the boolean `typingTarget` of a wheel event.
- The dialog's `querySelectorAll` result is the list `focusables`. For `FocusCycles`, the
  browser's own Tab order is assumed to be the document order of those elements.
- `Strings.Lower`, `Strings.Upper`: only ASCII letters change case. JavaScript also maps
  non-ASCII letters, and this affects only names with such letters.
- `WheelProxy.ClampScroll`, `Dom.Pane`: scroll offsets and wheel deltas are integers. Browsers
  allow fractional `deltaY` and `scrollTop`.
- `Dashboard.Progress`: exact rational division instead of IEEE double division.
- The `onScrollUpdate` callback of the hook is counted (`updates`) rather than called. In the
  dashboard it is `CheckScrollPosition`, which `Dashboard.WheelFrame` calls.
