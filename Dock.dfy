/**
 * The macOS-style dock: each icon is magnified and lifted according to its
 * distance from the hovered icon, and hovering or clicking an icon makes it
 * the active one (the one whose tooltip shows).
 */
module Dock {
  import opened Wrappers

  function Distance(index: int, hovered: int): nat
  {
    if index >= hovered then index - hovered else hovered - index
  }

  /** The magnification at a given distance from the hovered icon. */
  function ScaleAt(d: nat): real
  {
    if d == 0 then 1.5
    else if d == 1 then 1.25
    else if d == 2 then 1.1
    else if d == 3 then 1.05
    else 1.0
  }

  /** The lift in pixels at a given distance from the hovered icon. */
  function LiftAt(d: nat): real
  {
    if d == 0 then -8.0
    else if d == 1 then -4.0
    else if d == 2 then -2.0
    else 0.0
  }

  /**
   * `calculateScale`: in [1, 1.5], the most for the hovered icon, and at
   * rest (1) exactly when nothing is hovered or the icon is four or more away.
   */
  function Scale(index: int, hovered: Option<int>): (s: real)
    ensures 1.0 <= s <= 1.5
    ensures hovered == Some(index) ==> s == 1.5
    ensures s == 1.0 <==> hovered.None? || Distance(index, hovered.value) >= 4
  {
    if hovered.None? then 1.0 else ScaleAt(Distance(index, hovered.value))
  }

  /**
   * `calculateTranslateY`: in [-8, 0], the most lift for the hovered icon,
   * and at rest (0) exactly when nothing is hovered or the icon is three or
   * more away.
   */
  function TranslateY(index: int, hovered: Option<int>): (y: real)
    ensures -8.0 <= y <= 0.0
    ensures hovered == Some(index) ==> y == -8.0
    ensures y == 0.0 <==> hovered.None? || Distance(index, hovered.value) >= 3
  {
    if hovered.None? then 0.0 else LiftAt(Distance(index, hovered.value))
  }

  /** Further from the hovered icon means no more magnification and no more lift. */
  lemma EffectMonotone(d1: nat, d2: nat)
    requires d1 <= d2
    ensures ScaleAt(d1) >= ScaleAt(d2)
    ensures LiftAt(d1) <= LiftAt(d2)
  {
  }

  /** Icons the same distance to the left and to the right look the same. */
  lemma Symmetric(hovered: int, k: nat)
    ensures Scale(hovered - k, Some(hovered)) == Scale(hovered + k, Some(hovered))
    ensures TranslateY(hovered - k, Some(hovered)) == TranslateY(hovered + k, Some(hovered))
  {
    assert Distance(hovered - k, hovered) == k == Distance(hovered + k, hovered);
  }

  /** The dock's item ids, in display order. */
  const DockItems: seq<string> := ["finder", "safari", "mail", "messages", "photos", "music", "settings"]

  class DockState {
    var activeIcon: Option<string>
    var hoveredIndex: Option<int>

    /** A hovered icon is one of the dock's items. */
    ghost predicate Valid()
      reads this
    {
      hoveredIndex.Some? ==> 0 <= hoveredIndex.value < |DockItems|
    }

    constructor()
      ensures Valid() && activeIcon == None && hoveredIndex == None
    {
      activeIcon := None;
      hoveredIndex := None;
    }

    /** Mouse-enter on the icon at `index`: it becomes both active and hovered. */
    method Enter(index: int)
      requires 0 <= index < |DockItems|
      modifies this
      ensures Valid()
      ensures activeIcon == Some(DockItems[index]) && hoveredIndex == Some(index)
    {
      activeIcon := Some(DockItems[index]);
      hoveredIndex := Some(index);
    }

    /** Mouse-leave: nothing is active and nothing is hovered. */
    method Leave()
      modifies this
      ensures Valid()
      ensures activeIcon == None && hoveredIndex == None
    {
      activeIcon := None;
      hoveredIndex := None;
    }

    /** A click on the icon at `index` makes it active and leaves the hover alone. */
    method Click(index: int)
      requires Valid() && 0 <= index < |DockItems|
      modifies this
      ensures Valid()
      ensures activeIcon == Some(DockItems[index]) && hoveredIndex == old(hoveredIndex)
    {
      activeIcon := Some(DockItems[index]);
    }

    /** `activeIcon === item.id` for the item at `index`. */
    function IsActive(index: int): bool
      requires 0 <= index < |DockItems|
      reads this
    {
      activeIcon == Some(DockItems[index])
    }
  }

  /** The dock's ids are distinct, so an active id marks at most one icon. */
  lemma AtMostOneActive(active: Option<string>, i: int, j: int)
    requires 0 <= i < |DockItems| && 0 <= j < |DockItems|
    requires active == Some(DockItems[i]) && active == Some(DockItems[j])
    ensures i == j
  {
  }
}
