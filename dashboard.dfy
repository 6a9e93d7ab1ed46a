/**
 * The dashboard page (`UserDashboard`): the role-filter toggle, the filtering of the search
 * results by role, the continuous header-collapse progress, the mobile/desktop view rule, and
 * the page state those handlers update.
 */
module Dashboard {
  import opened Types
  import opened Seqs
  import opened UserMatch
  import opened Dom
  import ScrollFades
  import WheelProxy
  import FilterBadges

  const MobileBreakpoint := 768
  const ScrollCollapseDistance := 150

  datatype ViewType = ListView | CardsView

  /** The invariant of the active filters: never empty and no role twice (every entry is one of the six roles by its type). */
  predicate ValidFilters(f: seq<UserRole>)
  {
    |f| > 0 && NoDuplicates(f)
  }

  /** The updater `handleFilterChange` passes to `setActiveFilters`. */
  function ToggleFilter(prev: seq<UserRole>, role: UserRole): seq<UserRole>
  {
    if |prev| == |AllRoles| then [role]
    else if role in prev then
      var newFilters := Filter(prev, (r: UserRole) => r != role);
      if |newFilters| == 0 then AllRoles else newFilters
    else prev + [role]
  }

  /**
   * A duplicate-free list of roles has at most six entries, and it has six exactly when it holds
   * every role: the length test `prev.length === ALL_ROLES.length` means "all roles active".
   */
  lemma FullLengthMeansAllRoles(f: seq<UserRole>)
    requires NoDuplicates(f)
    ensures |f| <= |AllRoles|
    ensures |f| == |AllRoles| <==> forall r: UserRole :: r in f
  {
    var present := set x | x in f;
    var all := set x | x in AllRoles;
    DistinctElementCount(f);
    AllRolesListsEachRoleOnce(Admin);
    DistinctElementCount(AllRoles);
    assert present <= all by {
      forall x | x in present ensures x in all {
        AllRolesListsEachRoleOnce(x);
      }
    }
    assert all == present + (all - present);
    assert |all| == |present| + |all - present|;
    if |f| == |AllRoles| {
      assert all - present == {};
      forall r: UserRole ensures r in f {
        AllRolesListsEachRoleOnce(r);
        assert r in all;
      }
    }
    if forall r: UserRole :: r in f {
      assert all <= present;
      assert all - present == {};
    }
  }

  /** With every role active, selecting a role narrows the filters to exactly that role. */
  lemma ToggleFromAllNarrows(prev: seq<UserRole>, role: UserRole)
    requires |prev| == |AllRoles|
    ensures ToggleFilter(prev, role) == [role]
  {
  }

  /**
   * With the filters narrowed, selecting an active role removes it and keeps every other role,
   * except that removing the last one resets to all six; selecting an inactive role appends it
   * at the end.
   */
  lemma {:induction false} ToggleNarrowed(prev: seq<UserRole>, role: UserRole)
    requires ValidFilters(prev) && |prev| < |AllRoles|
    ensures role in prev && |prev| == 1 ==> ToggleFilter(prev, role) == AllRoles
    ensures role in prev && |prev| > 1 ==>
      && role !in ToggleFilter(prev, role)
      && |ToggleFilter(prev, role)| == |prev| - 1
      && forall r: UserRole :: r != role ==> (r in ToggleFilter(prev, role) <==> r in prev)
    ensures role !in prev ==> ToggleFilter(prev, role) == prev + [role]
  {
    if role in prev {
      var kept := Filter(prev, (r: UserRole) => r != role);
      FilterKeepsNoDuplicates(prev, r => r != role);
      forall r: UserRole | r != role && r in prev ensures r in kept {
        var i :| 0 <= i < |prev| && prev[i] == r;
      }
      forall r: UserRole | r in kept ensures r in prev && r != role {
        var i :| 0 <= i < |kept| && kept[i] == r;
      }
      if |prev| == 1 {
        assert prev == [role];
        FilterAllOrNone(prev, (r: UserRole) => r != role);
      } else {
        var other := if prev[0] == role then prev[1] else prev[0];
        assert other != role && other in prev;
        assert other in kept;
        CountWithout(prev, role);
      }
    }
  }

  /** Dropping one role present once from a duplicate-free list shortens it by exactly one. */
  lemma {:induction false} CountWithout(s: seq<UserRole>, role: UserRole)
    requires NoDuplicates(s) && role in s
    ensures |Filter(s, r => r != role)| == |s| - 1
  {
    var p := (r: UserRole) => r != role;
    if s[0] == role {
      var rest := s[1..];
      assert role !in rest by {
        forall i | 0 <= i < |rest| ensures rest[i] != role {
          assert rest[i] == s[i + 1];
        }
      }
      FilterAllOrNone(rest, p);
      assert Filter(s, p) == Filter(rest, p);
    } else {
      var rest := s[1..];
      assert role in rest;
      assert NoDuplicates(rest) by {
        forall i, j | 0 <= i < j < |rest| ensures rest[i] != rest[j] {
          assert rest[i] == s[i + 1] && rest[j] == s[j + 1];
        }
      }
      CountWithout(rest, role);
      assert Filter(s, p) == [s[0]] + Filter(rest, p);
    }
  }

  /** Every toggle keeps the filters non-empty and free of duplicates. */
  lemma ToggleKeepsValid(prev: seq<UserRole>, role: UserRole)
    requires ValidFilters(prev)
    ensures ValidFilters(ToggleFilter(prev, role))
  {
    if |prev| != |AllRoles| {
      if role in prev {
        FilterKeepsNoDuplicates(prev, r => r != role);
      } else {
        var next := prev + [role];
        forall i, j | 0 <= i < j < |next| ensures next[i] != next[j] {
          if j == |prev| {
            assert next[i] == prev[i] && prev[i] in prev;
          }
        }
      }
    }
  }

  /** From all six: selecting a role and selecting it again restores all six; selecting a second role gives both. */
  lemma SelectSequences(r: UserRole, s: UserRole)
    ensures ToggleFilter(ToggleFilter(AllRoles, r), r) == AllRoles
    ensures r != s ==> ToggleFilter(ToggleFilter(AllRoles, r), s) == [r, s]
  {
    var p := (x: UserRole) => x != r;
    assert Filter([r], p) == [] by {
      FilterAllOrNone([r], p);
    }
  }

  /** `users.filter(user => activeFilters.includes(user.userRole))`. */
  function FilteredUsers(users: seq<User>, activeFilters: seq<UserRole>): seq<User>
  {
    Filter(users, (u: User) => u.userRole in activeFilters)
  }

  /**
   * The users shown are the results whose role is active, in result order: nothing else is
   * dropped, nothing is reordered, and with all six roles active every result is shown.
   */
  lemma FilteredUsersSpec(users: seq<User>, more: seq<User>, activeFilters: seq<UserRole>, u: User)
    ensures u in FilteredUsers(users, activeFilters) <==> u in users && u.userRole in activeFilters
    ensures FilteredUsers(users + more, activeFilters) ==
      FilteredUsers(users, activeFilters) + FilteredUsers(more, activeFilters)
    ensures ValidFilters(activeFilters) && |activeFilters| == |AllRoles| ==>
      FilteredUsers(users, activeFilters) == users
  {
    var p := (x: User) => x.userRole in activeFilters;
    var r := FilteredUsers(users, activeFilters);
    if u in r {
      var k :| 0 <= k < |r| && r[k] == u;
    }
    if u in users && p(u) {
      var k :| 0 <= k < |users| && users[k] == u;
    }
    FilterConcat(users, more, p);
    if ValidFilters(activeFilters) && |activeFilters| == |AllRoles| {
      FullLengthMeansAllRoles(activeFilters);
      FilterAllOrNone(users, p);
    }
  }

  /** `Math.min(scrollTop / SCROLL_COLLAPSE_DISTANCE, 1)`. */
  function Progress(scrollTop: nat): (r: real)
    ensures 0.0 <= r <= 1.0
    ensures r == 1.0 <==> scrollTop >= ScrollCollapseDistance
    ensures r == 0.0 <==> scrollTop == 0
  {
    var ratio := scrollTop as real / ScrollCollapseDistance as real;
    if ratio < 1.0 then ratio else 1.0
  }

  /** Scrolling further down never reduces the progress. */
  lemma ProgressMonotone(a: nat, b: nat)
    requires a <= b
    ensures Progress(a) <= Progress(b)
  {
  }

  /** The page state of the dashboard; `resultsList` is `resultsListRef.current`. */
  class UserDashboard {
    const mock: seq<User>
    var users: seq<User>
    var isLoading: bool
    var hasSearched: bool
    var pendingQueries: seq<string>
    var activeFilters: seq<UserRole>
    var selectedUser: Option<User>
    var showTopFade: bool
    var showBottomFade: bool
    var view: ViewType
    var isMobile: bool
    var desktopView: ViewType
    var scrollProgress: real
    var resultsList: Pane?

    /**
     * The filters stay valid; progress stays in [0, 1] and is 0 on mobile and before any search;
     * mobile always shows cards, desktop the chosen desktop view; loading means a fetch is out.
     */
    ghost predicate Valid()
      reads this
    {
      && ValidFilters(activeFilters)
      && 0.0 <= scrollProgress <= 1.0
      && (isMobile ==> view == CardsView && scrollProgress == 0.0)
      && (!isMobile ==> view == desktopView)
      && (!hasSearched ==> scrollProgress == 0.0 && pendingQueries == [])
      && (isLoading ==> pendingQueries != [])
    }

    /** The first render followed by the mount-time `checkMobile`. */
    constructor (mock: seq<User>, resultsList: Pane?, width: int)
      ensures Valid()
      ensures this.mock == mock && this.resultsList == resultsList
      ensures users == [] && !isLoading && !hasSearched && pendingQueries == []
      ensures activeFilters == AllRoles && selectedUser == None
      ensures isMobile == (width < MobileBreakpoint) && view == CardsView && desktopView == CardsView
      ensures scrollProgress == 0.0 && !showTopFade && !showBottomFade
    {
      this.mock := mock;
      this.resultsList := resultsList;
      users, isLoading, hasSearched, pendingQueries := [], false, false, [];
      activeFilters, selectedUser := AllRoles, None;
      showTopFade, showBottomFade := false, false;
      view, desktopView, scrollProgress := CardsView, CardsView, 0.0;
      isMobile := width < MobileBreakpoint;
      ToggleKeepsValid([Admin], Admin);
    }

    /** The users on screen. */
    function Displayed(): seq<User>
      reads this
    {
      FilteredUsers(users, activeFilters)
    }

    /** The condition under which the dashboard's wheel effect attaches its listener. */
    predicate WheelEnabled()
      reads this
    {
      hasSearched && !isMobile && selectedUser.None?
    }

    /** `isFullyCollapsed`: the header can collapse (searched, desktop) and the progress has reached 1. */
    predicate IsFullyCollapsed()
      reads this
    {
      hasSearched && !isMobile && scrollProgress >= 1.0
    }

    /**
     * The first half of `handleSearch`: scroll the results to the top, reset the header, mark
     * loading and searched, and start a fetch. There is no abort: an earlier fetch still lands.
     */
    method StartSearch(query: string)
      requires Valid()
      modifies this`scrollProgress, this`isLoading, this`hasSearched, this`pendingQueries, resultsList
      ensures Valid()
      ensures resultsList != null ==> resultsList.scrollTop == 0
      ensures resultsList != null ==>
        resultsList.scrollHeight == old(resultsList.scrollHeight) && resultsList.clientHeight == old(resultsList.clientHeight)
      ensures scrollProgress == 0.0 && isLoading && hasSearched
      ensures pendingQueries == old(pendingQueries) + [query]
    {
      if resultsList != null {
        resultsList.scrollTop := 0;
      }
      scrollProgress := 0.0;
      isLoading := true;
      hasSearched := true;
      pendingQueries := pendingQueries + [query];
    }

    /**
     * The second half of `handleSearch`, after the 1000 ms fetch: the oldest outstanding fetch
     * (all take the same time) stores its matches and clears loading.
     */
    method ResolveSearch()
      requires Valid() && pendingQueries != []
      modifies this`users, this`isLoading, this`pendingQueries
      ensures Valid()
      ensures users == FetchUsers(mock, old(pendingQueries[0]))
      ensures pendingQueries == old(pendingQueries[1..]) && !isLoading
    {
      var results := FetchUsers(mock, pendingQueries[0]);
      users := results;
      pendingQueries := pendingQueries[1..];
      isLoading := false;
    }

    /** `handleFilterChange`. */
    method HandleFilterChange(role: UserRole)
      requires Valid()
      modifies this`activeFilters
      ensures Valid() && activeFilters == ToggleFilter(old(activeFilters), role)
    {
      ToggleKeepsValid(activeFilters, role);
      activeFilters := ToggleFilter(activeFilters, role);
    }

    /** `handleViewDetails` / `handleCloseModal`. */
    method SelectUser(u: Option<User>)
      requires Valid()
      modifies this`selectedUser
      ensures Valid() && selectedUser == u
    {
      selectedUser := u;
    }

    /**
     * `checkScrollPosition`: with the results element present, set both fades from it and,
     * on desktop after a search, set the progress from its offset.
     */
    method CheckScrollPosition()
      requires Valid()
      modifies this`showTopFade, this`showBottomFade, this`scrollProgress
      ensures Valid()
      ensures resultsList == null ==> unchanged(this)
      ensures resultsList != null ==>
        && showTopFade == ScrollFades.ShowTopFade(resultsList.scrollTop)
        && showBottomFade == ScrollFades.ShowBottomFade(resultsList.scrollTop, resultsList.scrollHeight, resultsList.clientHeight)
        && scrollProgress == (if !isMobile && hasSearched then Progress(resultsList.scrollTop) else old(scrollProgress))
      ensures resultsList != null && !isMobile && hasSearched ==>
        (IsFullyCollapsed() <==> resultsList.scrollTop >= ScrollCollapseDistance)
    {
      var element := resultsList;
      if element == null {
        return;
      }
      var scrollTop: nat, scrollHeight: int, clientHeight: int := element.scrollTop, element.scrollHeight, element.clientHeight;
      showTopFade := scrollTop > 0;
      showBottomFade := scrollTop + clientHeight < scrollHeight - 1;
      if !isMobile && hasSearched {
        scrollProgress := Progress(scrollTop);
      }
    }

    /** `checkMobile`: below 768 the page is mobile, shows cards and resets the header; otherwise it restores the desktop view. */
    method CheckMobile(width: int)
      requires Valid()
      modifies this`isMobile, this`view, this`scrollProgress
      ensures Valid()
      ensures isMobile == (width < MobileBreakpoint)
      ensures isMobile ==> view == CardsView && scrollProgress == 0.0
      ensures !isMobile ==> view == desktopView && scrollProgress == old(scrollProgress)
    {
      var mobile := width < MobileBreakpoint;
      isMobile := mobile;
      if mobile {
        view := CardsView;
        scrollProgress := 0.0;
      } else {
        view := desktopView;
      }
    }

    /** `handleViewChange`: on desktop switch and remember the view; on mobile do nothing. */
    method HandleViewChange(newView: ViewType)
      requires Valid()
      modifies this`desktopView, this`view
      ensures Valid()
      ensures isMobile ==> view == old(view) && desktopView == old(desktopView)
      ensures !isMobile ==> view == newView && desktopView == newView
    {
      if !isMobile {
        desktopView := newView;
        view := newView;
      }
    }
  }

  /**
   * The dashboard's wheel effect re-runs: the previous listener, if any, is cleaned up, and a new
   * one is attached only after a search, on desktop, with no user selected.
   */
  method SyncWheelEffect(d: UserDashboard, w: WheelProxy.Proxy, hasContainer: bool)
    requires w.Valid()
    modifies w`installed, w`hasHandle, w`framesQueued, w`pending
    ensures w.Valid()
    ensures w.installed == (hasContainer && w.target != null && d.WheelEnabled())
    ensures !w.hasHandle && w.framesQueued == 0 && w.pending == 0
  {
    if w.installed {
      w.Cleanup();
    }
    w.Install(d.WheelEnabled(), hasContainer);
  }

  /**
   * A frame of the dashboard's wheel proxy: the flush moves the results pane, then (as its
   * `onScrollUpdate`) the dashboard re-reads the pane, so on desktop after a search the header
   * progress follows the clamped offset.
   */
  method WheelFrame(d: UserDashboard, w: WheelProxy.Proxy)
    requires d.Valid() && w.Valid() && w.framesQueued > 0 && d.resultsList == w.target
    modifies d`showTopFade, d`showBottomFade, d`scrollProgress
    modifies w`pending, w`hasHandle, w`framesQueued, w`updates, w.target
    ensures d.Valid() && w.Valid() && w.framesQueued == 0
    ensures w.target == null ==>
      && w.pending == old(w.pending) && w.hasHandle == old(w.hasHandle) && w.updates == old(w.updates)
      && unchanged(d)
    ensures w.target != null ==>
      && w.target.scrollTop == WheelProxy.ClampScroll(old(w.target.scrollTop), old(w.pending), old(w.target.MaxScrollTop()))
      && w.target.scrollHeight == old(w.target.scrollHeight) && w.target.clientHeight == old(w.target.clientHeight)
      && w.pending == 0 && !w.hasHandle && w.updates == old(w.updates) + 1
      && d.showTopFade == ScrollFades.ShowTopFade(w.target.scrollTop)
      && d.showBottomFade == ScrollFades.ShowBottomFade(w.target.scrollTop, w.target.scrollHeight, w.target.clientHeight)
      && d.scrollProgress == (if !d.isMobile && d.hasSearched then Progress(w.target.scrollTop) else old(d.scrollProgress))
  {
    w.Flush();
    if w.target != null {
      d.CheckScrollPosition();
    }
  }

  /**
   * The badges after the first click from the full set: only the clicked role's button is
   * pressed and highlighted active, every other one is unpressed and highlighted inactive.
   */
  lemma BadgesAfterFirstClick(role: UserRole, i: int)
    requires 0 <= i < |AllRoles|
    ensures var f := ToggleFilter(AllRoles, role);
      var b := FilterBadges.Buttons(f, |f| == |AllRoles|)[i];
      && (b.pressed <==> AllRoles[i] == role)
      && b.highlight == (if AllRoles[i] == role then FilterBadges.ActiveClass else FilterBadges.InactiveClass)
  {
    FilterBadges.ButtonStates([role], false, i);
  }
}
