/**
 * The role filter buttons (`FilterBadges`): one button per role, in the fixed role order,
 * each showing whether its role is among the active filters.
 */
module FilterBadges {
  import opened Types
  import opened Strings
  import Badge

  /** The highlight class a button carries: `active`, `inactive`, or neither. */
  datatype Highlight = ActiveClass | InactiveClass | NoHighlight

  /** What one button renders: the role it reports when clicked, `aria-pressed`, its highlight, its text and its badge's class. */
  datatype FilterButton = FilterButton(
    role: UserRole,
    pressed: bool,
    highlight: Highlight,
    text: string,
    ariaLabel: string,
    badgeClass: string)

  function ButtonFor(role: UserRole, activeFilters: seq<UserRole>, allActive: bool): FilterButton
  {
    var isActive := role in activeFilters;
    FilterButton(
      role,
      isActive,
      if !allActive && isActive then ActiveClass else if !allActive && !isActive then InactiveClass else NoHighlight,
      Upper(RoleName(role)),
      "Filter by " + RoleName(role) + " role",
      Badge.VariantClass(RoleName(role)))
  }

  /** `ROLES.map(...)`: the six buttons, in role order. */
  function Buttons(activeFilters: seq<UserRole>, allActive: bool): (r: seq<FilterButton>)
    ensures |r| == |AllRoles|
    ensures forall i :: 0 <= i < |r| ==> r[i].role == AllRoles[i]
  {
    seq(|AllRoles|, i requires 0 <= i < |AllRoles| => ButtonFor(AllRoles[i], activeFilters, allActive))
  }

  /**
   * A button is pressed exactly when its role is active, whatever `allActive` says; when all
   * are active no button is highlighted, and otherwise each carries exactly one of the two
   * highlights, `active` exactly when its role is active.
   */
  lemma ButtonStates(activeFilters: seq<UserRole>, allActive: bool, i: int)
    requires 0 <= i < |AllRoles|
    ensures Buttons(activeFilters, allActive)[i].pressed <==> AllRoles[i] in activeFilters
    ensures Buttons(activeFilters, allActive)[i].pressed == Buttons(activeFilters, !allActive)[i].pressed
    ensures allActive ==> Buttons(activeFilters, allActive)[i].highlight == NoHighlight
    ensures !allActive ==> Buttons(activeFilters, allActive)[i].highlight != NoHighlight
    ensures !allActive ==>
      (Buttons(activeFilters, allActive)[i].highlight == ActiveClass <==> AllRoles[i] in activeFilters)
  {
  }

  /**
   * Each role has exactly one button, so a click reports a different role for each button;
   * each button's text is its role upper-cased and its badge uses the role's variant class.
   */
  lemma ButtonsNameEachRoleOnce(activeFilters: seq<UserRole>, allActive: bool, i: int, j: int)
    requires 0 <= i < |AllRoles| && 0 <= j < |AllRoles|
    ensures Buttons(activeFilters, allActive)[i].role == Buttons(activeFilters, allActive)[j].role ==> i == j
    ensures Buttons(activeFilters, allActive)[i].text == Upper(RoleName(AllRoles[i]))
    ensures Buttons(activeFilters, allActive)[i].badgeClass == Badge.VariantClass(RoleName(AllRoles[i]))
  {
  }
}
