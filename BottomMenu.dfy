/**
 * The bottom navigation menu: a chevron that shows and hides the bar, five
 * navigation items of which the clicked one becomes the activated menu, and
 * a LOCATION item that instead opens a popup offering a 2D or a 3D map.
 */
module BottomMenu {
  import opened Wrappers

  datatype NavItem = Project | Location | Facilities | Units | GalleryItem

  /** The item's `value`. */
  function Value(item: NavItem): string
  {
    match item
    case Project => "project"
    case Location => "location"
    case Facilities => "facilities"
    case Units => "units"
    case GalleryItem => "gallery"
  }

  /** The items in display order. */
  const NavigationItems: seq<NavItem> := [Project, Location, Facilities, Units, GalleryItem]

  /** Whether the item carries the active class. */
  predicate IsActive(item: NavItem, activated: Option<string>, popupOpen: bool)
    ensures item == Location && popupOpen ==> IsActive(item, activated, popupOpen)
    ensures activated == None && !popupOpen ==> !IsActive(item, activated, popupOpen)
  {
    (item == Units && (activated == Some("filter") || activated == Some("floorplan"))) ||
    (item == Project && activated == Some("project")) ||
    (item == Location && (activated == Some("location2d") || activated == Some("location3d") || popupOpen)) ||
    activated == Some(Value(item))
  }

  /** The menu value a click on the item activates; LOCATION activates none. */
  function ClickTarget(item: NavItem): (target: Option<string>)
    ensures target == None <==> item == Location
  {
    if item == Facilities then Some("facilities")
    else if item == Units then Some("filter")
    else if item == Project then Some("project")
    else if item == Location then None
    else Some(Value(item))
  }

  /** UNITS is lit by the filter, the floor plan or its own value; LOCATION by either map or the open popup. */
  lemma ActiveItems(activated: Option<string>, popupOpen: bool)
    ensures IsActive(Units, activated, popupOpen) <==>
      activated == Some("filter") || activated == Some("floorplan") || activated == Some("units")
    ensures IsActive(Location, activated, popupOpen) <==>
      activated == Some("location2d") || activated == Some("location3d") || activated == Some("location") || popupOpen
    ensures IsActive(Project, activated, popupOpen) <==> activated == Some("project")
    ensures IsActive(Facilities, activated, popupOpen) <==> activated == Some("facilities")
    ensures IsActive(GalleryItem, activated, popupOpen) <==> activated == Some("gallery")
  {
  }

  /**
   * With the popup closed at most one item is lit; with it open, LOCATION is
   * lit and at most one other item besides.
   */
  lemma AtMostOneActive(activated: Option<string>, popupOpen: bool, a: NavItem, b: NavItem)
    requires IsActive(a, activated, popupOpen) && IsActive(b, activated, popupOpen)
    ensures !popupOpen ==> a == b
    ensures popupOpen ==> a == b || a == Location || b == Location
  {
  }

  /** Clicking an item lights it, except LOCATION, which lights only while its popup is open. */
  lemma ClickLightsItem(item: NavItem, popupOpen: bool)
    requires item != Location
    ensures IsActive(item, ClickTarget(item), popupOpen)
  {
  }

  class MenuState {
    var isMenuVisible: bool
    var showLocationPopup: bool
    var activatedMenu: Option<string>

    constructor()
      ensures isMenuVisible && !showLocationPopup && activatedMenu == None
    {
      isMenuVisible := true;
      showLocationPopup := false;
      activatedMenu := None;
    }

    /** `toggleMenu`: flips the visibility and nothing else. */
    method ToggleMenu()
      modifies this
      ensures isMenuVisible == !old(isMenuVisible)
      ensures showLocationPopup == old(showLocationPopup) && activatedMenu == old(activatedMenu)
    {
      isMenuVisible := !isMenuVisible;
    }

    /** A click on a navigation item (the items exist only while the bar is visible). */
    method NavClick(item: NavItem)
      requires isMenuVisible
      modifies this
      ensures isMenuVisible
      ensures item == Location ==>
        showLocationPopup == !old(showLocationPopup) && activatedMenu == old(activatedMenu)
      ensures item != Location ==>
        activatedMenu == ClickTarget(item) && showLocationPopup == old(showLocationPopup)
    {
      if item == Facilities {
        activatedMenu := Some("facilities");
      } else if item == Units {
        activatedMenu := Some("filter");
      } else if item == Project {
        activatedMenu := Some("project");
      } else if item == Location {
        showLocationPopup := !showLocationPopup;
      } else {
        activatedMenu := Some(Value(item));
      }
    }

    /** `handleLocationTypeSelect`: choosing a map closes the popup and activates that map. */
    method SelectLocationType(is2d: bool)
      requires showLocationPopup
      modifies this
      ensures !showLocationPopup && isMenuVisible == old(isMenuVisible)
      ensures activatedMenu == Some(if is2d then "location2d" else "location3d")
    {
      showLocationPopup := false;
      if is2d {
        activatedMenu := Some("location2d");
      } else {
        activatedMenu := Some("location3d");
      }
    }

    /**
     * The document click listener, present while the popup is open: a click
     * outside both the popup and the navigation items closes the popup.
     */
    method DocumentClick(insidePopupOrItem: bool)
      modifies this
      ensures showLocationPopup == (old(showLocationPopup) && insidePopupOrItem)
      ensures activatedMenu == old(activatedMenu) && isMenuVisible == old(isMenuVisible)
    {
      if showLocationPopup && !insidePopupOrItem {
        showLocationPopup := false;
      }
    }
  }
}
