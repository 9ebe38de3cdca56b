/**
 * The state of the documentation viewer page around `parseMarkdown`: the
 * open sidebar dropdown, the image modal with its clamped zoom and its
 * drag-to-pan position, and the two resizable columns whose widths are
 * clamped percentages of the container.
 */
module DocViewer {
  import opened Wrappers
  import opened JsMath
  import Markdown

  /** `Math.max(lo, Math.min(hi, x))`. */
  function Clamp(lo: real, hi: real, x: real): (r: real)
    requires lo <= hi
    ensures lo <= r <= hi
    ensures lo <= x <= hi ==> r == x
    ensures x < lo ==> r == lo
    ensures hi < x ==> r == hi
  {
    Max(lo, Min(hi, x))
  }

  const MinZoom: real := 0.5
  const MaxZoom: real := 5.0

  predicate ZoomInRange(z: real)
  {
    MinZoom <= z <= MaxZoom
  }

  /** `handleZoomIn`: a quarter step up, capped at 5. */
  function ZoomIn(z: real): (r: real)
    ensures z <= 4.75 ==> r == z + 0.25
    ensures z > 4.75 ==> r == MaxZoom
  {
    Min(MaxZoom, z + 0.25)
  }

  /** `handleZoomOut`: a quarter step down, floored at 0.5. */
  function ZoomOut(z: real): (r: real)
    ensures z >= 0.75 ==> r == z - 0.25
    ensures z < 0.75 ==> r == MinZoom
  {
    Max(MinZoom, z - 0.25)
  }

  /** The wheel step: down (`deltaY > 0`) zooms out by 0.1, anything else zooms in. */
  function WheelDelta(deltaY: real): real
  {
    if deltaY > 0.0 then -0.1 else 0.1
  }

  /** The wheel handler's update, clamped to [0.5, 5]. */
  function WheelZoom(z: real, deltaY: real): (r: real)
    ensures ZoomInRange(r)
    ensures ZoomInRange(z) && deltaY > 0.0 ==> r <= z
    ensures ZoomInRange(z) && deltaY <= 0.0 ==> r >= z
  {
    Clamp(MinZoom, MaxZoom, z + WheelDelta(deltaY))
  }

  /** Each zoom step keeps the level in [0.5, 5]. */
  lemma ZoomStaysInRange(z: real, deltaY: real)
    requires ZoomInRange(z)
    ensures ZoomInRange(ZoomIn(z)) && ZoomInRange(ZoomOut(z)) && ZoomInRange(WheelZoom(z, deltaY))
    ensures ZoomIn(z) >= z && ZoomOut(z) <= z
  {
  }

  /** Zooming out undoes a zoom-in that was not capped, and the reverse. */
  lemma ZoomInOutInverse(z: real)
    requires ZoomInRange(z)
    ensures z <= 4.75 ==> ZoomOut(ZoomIn(z)) == z
    ensures z >= 0.75 ==> ZoomIn(ZoomOut(z)) == z
  {
  }

  /** Repeated zoom-ins reach the cap and stay there. */
  lemma ZoomInSaturates(z: real)
    requires ZoomInRange(z) && z > 4.75
    ensures ZoomIn(z) == MaxZoom && ZoomIn(ZoomIn(z)) == MaxZoom
  {
  }

  /** A wheel step down followed by a wheel step up restores a level away from the bounds. */
  lemma WheelDownUp(z: real)
    requires 0.6 <= z <= MaxZoom
    ensures WheelZoom(WheelZoom(z, 1.0), -1.0) == z
  {
  }

  const MinSidebar: real := 15.0
  const MaxSidebar: real := 35.0
  const MinCode: real := 20.0
  const MaxCode: real := 50.0

  /** The sidebar width while dragging: the pointer's offset from the container's left edge, in percent. */
  function SidebarWidthAt(clientX: real, left: real, containerWidth: real): (w: real)
    requires containerWidth > 0.0
    ensures MinSidebar <= w <= MaxSidebar
  {
    Clamp(MinSidebar, MaxSidebar, (clientX - left) / containerWidth * 100.0)
  }

  /** The code column width while dragging: the pointer's offset from the right edge, in percent. */
  function CodeWidthAt(clientX: real, right: real, containerWidth: real): (w: real)
    requires containerWidth > 0.0
    ensures MinCode <= w <= MaxCode
  {
    Clamp(MinCode, MaxCode, (right - clientX) / containerWidth * 100.0)
  }

  /**
   * The column widths stay in their bands, follow the pointer exactly inside
   * them, and the sidebar grows (the code column shrinks) as the pointer
   * moves right.
   */
  lemma ColumnWidths(x1: real, x2: real, left: real, right: real, w: real)
    requires w > 0.0 && x1 <= x2
    ensures MinSidebar <= SidebarWidthAt(x1, left, w) <= MaxSidebar
    ensures MinCode <= CodeWidthAt(x1, right, w) <= MaxCode
    ensures SidebarWidthAt(x1, left, w) <= SidebarWidthAt(x2, left, w)
    ensures CodeWidthAt(x1, right, w) >= CodeWidthAt(x2, right, w)
  {
    MulNonnegDiv(x2 - x1, w);
    assert (x2 - left) / w * 100.0 - (x1 - left) / w * 100.0 == (x2 - x1) / w * 100.0;
    assert (right - x1) / w * 100.0 - (right - x2) / w * 100.0 == (x2 - x1) / w * 100.0;
  }

  lemma MulNonnegDiv(d: real, w: real)
    requires d >= 0.0 && w > 0.0
    ensures d / w * 100.0 >= 0.0
  {
  }

  /** `toggleDropdown`: the open id closes, any other id opens. */
  function Toggle(open: Option<string>, docId: string): (r: Option<string>)
    ensures r == None || r == Some(docId)
  {
    if open == Some(docId) then None else Some(docId)
  }

  /** Toggling closes the dropdown exactly when that id was open, and otherwise opens that id. */
  lemma ToggleCloses(open: Option<string>, docId: string)
    ensures Toggle(open, docId) == None <==> open == Some(docId)
    ensures open != Some(docId) ==> Toggle(open, docId) == Some(docId)
    ensures open == None ==> Toggle(Toggle(open, docId), docId) == None
  {
  }

  datatype Point = Point(x: real, y: real)

  datatype Image = Image(src: string, alt: string)

  const NoContent: Markdown.Parsed := Markdown.Parsed([], [], [])

  /**
   * The content shown for a settled fetch: the parsed text, or nothing on a
   * failed fetch. An empty document shows the same as a failed fetch.
   */
  function Loaded(fetched: Option<string>, fileHeader: string -> Option<string>): (p: Markdown.Parsed)
    ensures fetched.None? || fetched == Some("") ==> p == NoContent
    ensures fetched.Some? ==> p == Markdown.Parse(fetched.value, fileHeader)
  {
    match fetched
    case Some(text) => Markdown.Parse(text, fileHeader)
    case None => NoContent
  }

  const Origin: Point := Point(0.0, 0.0)

  /** The page's state hooks, in declaration order, as one value. */
  datatype Page = Page(
    selectedDoc: Option<string>,
    loading: bool,
    parsedContent: Markdown.Parsed,
    openDropdown: Option<string>,
    modalImage: Option<Image>,
    zoomLevel: real,
    imagePosition: Point,
    isDragging: bool,
    dragStart: Point,
    sidebarWidth: real,
    codeWidth: real,
    isResizingSidebar: bool,
    isResizingCode: bool,
    highlightedCodeId: Option<string>)

  class DocPage {
    var selectedDoc: Option<string>
    var loading: bool
    var parsedContent: Markdown.Parsed
    var openDropdown: Option<string>
    var modalImage: Option<Image>
    var zoomLevel: real
    var imagePosition: Point
    var isDragging: bool
    var dragStart: Point
    var sidebarWidth: real
    var codeWidth: real
    var isResizingSidebar: bool
    var isResizingCode: bool
    var highlightedCodeId: Option<string>

    function Snapshot(): Page
      reads this
    {
      Page(selectedDoc, loading, parsedContent, openDropdown, modalImage, zoomLevel, imagePosition,
           isDragging, dragStart, sidebarWidth, codeWidth, isResizingSidebar, isResizingCode, highlightedCodeId)
    }

    /** Zoom and column widths are always inside their bands. */
    ghost predicate Valid()
      reads this
    {
      ZoomInRange(zoomLevel) &&
      MinSidebar <= sidebarWidth <= MaxSidebar &&
      MinCode <= codeWidth <= MaxCode
    }

    constructor()
      ensures Valid()
      ensures Snapshot() == Page(None, false, NoContent, None, None, 1.0, Origin, false, Origin,
                                 20.0, 40.0, false, false, None)
    {
      selectedDoc := None;
      loading := false;
      parsedContent := NoContent;
      openDropdown := None;
      modalImage := None;
      zoomLevel := 1.0;
      imagePosition := Origin;
      isDragging := false;
      dragStart := Origin;
      sidebarWidth := 20.0;
      codeWidth := 40.0;
      isResizingSidebar := false;
      isResizingCode := false;
      highlightedCodeId := None;
    }

    /**
     * `loadDocument` once the fetch has settled: `fetched` is the response
     * text, or None when the response was not ok or the fetch threw. The
     * loading flag is raised for the fetch and lowered in `finally`.
     */
    method LoadDocument(docId: string, fetched: Option<string>, fileHeader: string -> Option<string>)
      requires Valid()
      modifies this
      ensures Valid()
      ensures parsedContent == Loaded(fetched, fileHeader)
      ensures Snapshot() == old(Snapshot()).(
        selectedDoc := Some(docId), highlightedCodeId := None, openDropdown := None, loading := false,
        parsedContent := parsedContent)
    {
      BeginLoad(docId);
      var parsed := Loaded(fetched, fileHeader);
      EndLoad(parsed);
    }

    /** The synchronous part of `loadDocument`, before the fetch. */
    method BeginLoad(docId: string)
      requires Valid()
      modifies this
      ensures Valid()
      ensures Snapshot() == old(Snapshot()).(
        loading := true, selectedDoc := Some(docId), highlightedCodeId := None, openDropdown := None)
    {
      loading := true;
      selectedDoc := Some(docId);
      highlightedCodeId := None;
      openDropdown := None;
    }

    /** The settled fetch: the content is shown and `finally` lowers the loading flag. */
    method EndLoad(content: Markdown.Parsed)
      requires Valid()
      modifies this
      ensures Valid()
      ensures Snapshot() == old(Snapshot()).(parsedContent := content, loading := false)
    {
      parsedContent := content;
      loading := false;
    }

    method ToggleDropdown(docId: string)
      requires Valid()
      modifies this
      ensures Valid()
      ensures Snapshot() == old(Snapshot()).(openDropdown := Toggle(old(openDropdown), docId))
    {
      openDropdown := Toggle(openDropdown, docId);
    }

    /** `scrollToSection`: the dropdown closes only when the section element exists. */
    method ScrollToSection(found: bool)
      requires Valid()
      modifies this
      ensures Valid()
      ensures Snapshot() == if found then old(Snapshot()).(openDropdown := None) else old(Snapshot())
    {
      if found {
        openDropdown := None;
      }
    }

    /** A mouse-down outside the dropdown container closes an open dropdown. */
    method OutsideClick(insideDropdown: bool)
      requires Valid()
      modifies this
      ensures Valid()
      ensures Snapshot() == if insideDropdown then old(Snapshot()) else old(Snapshot()).(openDropdown := None)
    {
      if openDropdown.Some? && !insideDropdown {
        openDropdown := None;
      }
    }

    /** Escape closes the modal first; only with no modal does it close the dropdown. */
    method Escape()
      requires Valid()
      modifies this
      ensures Valid()
      ensures old(modalImage).Some? ==>
        Snapshot() == old(Snapshot()).(modalImage := None, zoomLevel := 1.0, imagePosition := Origin)
      ensures old(modalImage).None? ==> Snapshot() == old(Snapshot()).(openDropdown := None)
    {
      if modalImage.Some? {
        CloseModal();
      } else if openDropdown.Some? {
        openDropdown := None;
      }
    }

    method OpenModal(src: string, alt: string)
      requires Valid()
      modifies this
      ensures Valid()
      ensures Snapshot() == old(Snapshot()).(modalImage := Some(Image(src, alt)), zoomLevel := 1.0, imagePosition := Origin)
    {
      modalImage := Some(Image(src, alt));
      zoomLevel := 1.0;
      imagePosition := Origin;
    }

    method CloseModal()
      requires Valid()
      modifies this
      ensures Valid()
      ensures Snapshot() == old(Snapshot()).(modalImage := None, zoomLevel := 1.0, imagePosition := Origin)
    {
      modalImage := None;
      zoomLevel := 1.0;
      imagePosition := Origin;
    }

    method HandleZoomIn()
      requires Valid()
      modifies this
      ensures Valid()
      ensures Snapshot() == old(Snapshot()).(zoomLevel := ZoomIn(old(zoomLevel)))
    {
      ZoomStaysInRange(zoomLevel, 0.0);
      zoomLevel := ZoomIn(zoomLevel);
    }

    method HandleZoomOut()
      requires Valid()
      modifies this
      ensures Valid()
      ensures Snapshot() == old(Snapshot()).(zoomLevel := ZoomOut(old(zoomLevel)))
    {
      ZoomStaysInRange(zoomLevel, 0.0);
      zoomLevel := ZoomOut(zoomLevel);
    }

    method HandleResetZoom()
      requires Valid()
      modifies this
      ensures Valid()
      ensures Snapshot() == old(Snapshot()).(zoomLevel := 1.0, imagePosition := Origin)
    {
      zoomLevel := 1.0;
      imagePosition := Origin;
    }

    /** The wheel listener exists only while the modal is open and acts only with Ctrl or Meta held. */
    method Wheel(deltaY: real, ctrlOrMeta: bool)
      requires Valid()
      modifies this
      ensures Valid()
      ensures Snapshot() == if old(modalImage).Some? && ctrlOrMeta
        then old(Snapshot()).(zoomLevel := WheelZoom(old(zoomLevel), deltaY)) else old(Snapshot())
    {
      if modalImage.Some? && ctrlOrMeta {
        ZoomStaysInRange(zoomLevel, deltaY);
        zoomLevel := WheelZoom(zoomLevel, deltaY);
      }
    }

    /** Dragging starts only on a zoomed-in image. */
    method MouseDown(clientX: real, clientY: real)
      requires Valid()
      modifies this
      ensures Valid()
      ensures Snapshot() == if old(zoomLevel) > 1.0
        then old(Snapshot()).(isDragging := true,
                              dragStart := Point(clientX - old(imagePosition).x, clientY - old(imagePosition).y))
        else old(Snapshot())
    {
      if zoomLevel > 1.0 {
        isDragging := true;
        dragStart := Point(clientX - imagePosition.x, clientY - imagePosition.y);
      }
    }

    /** While dragging a zoomed-in image, the image follows the pointer. */
    method MouseMove(clientX: real, clientY: real)
      requires Valid()
      modifies this
      ensures Valid()
      ensures Snapshot() == if old(isDragging) && old(zoomLevel) > 1.0
        then old(Snapshot()).(imagePosition := Point(clientX - old(dragStart).x, clientY - old(dragStart).y))
        else old(Snapshot())
    {
      if isDragging && zoomLevel > 1.0 {
        imagePosition := Point(clientX - dragStart.x, clientY - dragStart.y);
      }
    }

    method MouseUp()
      requires Valid()
      modifies this
      ensures Valid()
      ensures Snapshot() == old(Snapshot()).(isDragging := false)
    {
      isDragging := false;
    }

    method SidebarResizeStart()
      requires Valid()
      modifies this
      ensures Valid()
      ensures Snapshot() == old(Snapshot()).(isResizingSidebar := true)
    {
      isResizingSidebar := true;
    }

    method CodeResizeStart()
      requires Valid()
      modifies this
      ensures Valid()
      ensures Snapshot() == old(Snapshot()).(isResizingCode := true)
    {
      isResizingCode := true;
    }

    /**
     * The document mouse-move listener while a resize is under way; the
     * container's left and right edges and its width are its bounding box.
     * The sidebar drag wins when both flags are set.
     */
    method ResizeMove(clientX: real, left: real, right: real, containerWidth: real)
      requires Valid() && containerWidth > 0.0
      modifies this
      ensures Valid()
      ensures Snapshot() ==
        if old(isResizingSidebar) then old(Snapshot()).(sidebarWidth := SidebarWidthAt(clientX, left, containerWidth))
        else if old(isResizingCode) then old(Snapshot()).(codeWidth := CodeWidthAt(clientX, right, containerWidth))
        else old(Snapshot())
    {
      ColumnWidths(clientX, clientX, left, right, containerWidth);
      if isResizingSidebar {
        sidebarWidth := SidebarWidthAt(clientX, left, containerWidth);
      } else if isResizingCode {
        codeWidth := CodeWidthAt(clientX, right, containerWidth);
      }
    }

    /** The document mouse-up listener ends both resizes. */
    method ResizeEnd()
      requires Valid()
      modifies this
      ensures Valid()
      ensures Snapshot() == old(Snapshot()).(isResizingSidebar := false, isResizingCode := false)
    {
      isResizingSidebar := false;
      isResizingCode := false;
    }
  }
}
