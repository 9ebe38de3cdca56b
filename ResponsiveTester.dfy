/**
 * The responsive tester's viewport state: a device preset (desktop, tablet,
 * mobile or custom) and the custom width and height. The viewport shown is
 * the preset's fixed size, or the custom fields for the custom preset.
 * Choosing a fixed preset also copies its size into the custom fields, so
 * switching to "Custom Size" afterwards keeps the viewport as it was.
 */
module ResponsiveTester {
  import opened Wrappers

  datatype DevicePreset = Desktop | Tablet | Mobile | Custom

  datatype Size = Size(width: int, height: int)

  datatype Breakpoint = Breakpoint(name: string, width: int, height: int)

  /** The fixed sizes of `devicePresets`. */
  function PresetSize(p: DevicePreset): (s: Size)
    requires p != Custom
    ensures s.width > 0 && s.height > 0
    ensures p == Desktop <==> s.width > s.height
  {
    match p
    case Desktop => Size(1920, 1080)
    case Tablet => Size(768, 1024)
    case Mobile => Size(375, 667)
  }

  /** `currentDimensions`: `devicePresets[devicePreset]`. */
  function CurrentDimensions(p: DevicePreset, customWidth: int, customHeight: int): (d: Size)
    ensures p == Custom ==> d == Size(customWidth, customHeight)
  {
    if p == Custom then Size(customWidth, customHeight) else PresetSize(p)
  }

  const CommonBreakpoints: seq<Breakpoint> := [
    Breakpoint("Mobile Small", 320, 568),
    Breakpoint("Mobile Medium", 375, 667),
    Breakpoint("Mobile Large", 414, 896),
    Breakpoint("Tablet Portrait", 768, 1024),
    Breakpoint("Tablet Landscape", 1024, 768),
    Breakpoint("Desktop Small", 1280, 720),
    Breakpoint("Desktop Medium", 1920, 1080),
    Breakpoint("Desktop Large", 2560, 1440)
  ]

  /** A breakpoint is highlighted when the viewport has exactly its width and height. */
  predicate Highlighted(bp: Breakpoint, current: Size)
  {
    current.width == bp.width && current.height == bp.height
  }

  /** No two common breakpoints share a size, so a viewport highlights at most one of them. */
  lemma AtMostOneHighlighted(current: Size, i: int, j: int)
    requires 0 <= i < |CommonBreakpoints| && 0 <= j < |CommonBreakpoints|
    requires Highlighted(CommonBreakpoints[i], current) && Highlighted(CommonBreakpoints[j], current)
    ensures i == j
  {
  }

  /** Each fixed preset's size is one of the common breakpoints, which it highlights. */
  lemma PresetsAreBreakpoints(p: DevicePreset)
    requires p != Custom
    ensures exists i :: 0 <= i < |CommonBreakpoints| && Highlighted(CommonBreakpoints[i], PresetSize(p))
  {
    var i := match p case Desktop => 6 case Tablet => 3 case Mobile => 1;
    assert Highlighted(CommonBreakpoints[i], PresetSize(p));
  }

  /** A number input's value: `parseInt(text) || fallback`, so NaN and 0 fall back. */
  function InputValue(parsed: Option<int>, fallback: int): (v: int)
    ensures v == fallback <==> parsed.None? || parsed.value == 0 || parsed.value == fallback
    ensures parsed.Some? && parsed.value != 0 ==> v == parsed.value
  {
    if parsed.None? || parsed.value == 0 then fallback else parsed.value
  }

  class Viewport {
    var devicePreset: DevicePreset
    var customWidth: int
    var customHeight: int
    var showBreakpoints: bool

    /** Outside the custom preset the custom fields hold the preset's size. */
    ghost predicate Valid()
      reads this
    {
      devicePreset != Custom ==> Size(customWidth, customHeight) == PresetSize(devicePreset)
    }

    /** The viewport shown; under the invariant it is always the custom fields. */
    function Current(): (s: Size)
      reads this
      ensures devicePreset != Custom ==> s == PresetSize(devicePreset)
      ensures Valid() ==> s == Size(customWidth, customHeight)
    {
      CurrentDimensions(devicePreset, customWidth, customHeight)
    }

    constructor()
      ensures Valid()
      ensures devicePreset == Desktop && Current() == Size(1920, 1080) && showBreakpoints
    {
      devicePreset := Desktop;
      customWidth := 1920;
      customHeight := 1080;
      showBreakpoints := true;
    }

    /** `setPreset`: a fixed preset also loads its size into the custom fields. */
    method SetPreset(p: DevicePreset)
      requires Valid()
      modifies this
      ensures Valid()
      ensures devicePreset == p
      ensures p != Custom ==> Size(customWidth, customHeight) == PresetSize(p) && Current() == PresetSize(p)
      ensures p == Custom ==> customWidth == old(customWidth) && customHeight == old(customHeight)
      ensures showBreakpoints == old(showBreakpoints)
    {
      devicePreset := p;
      if p == Desktop {
        customWidth, customHeight := 1920, 1080;
      } else if p == Tablet {
        customWidth, customHeight := 768, 1024;
      } else if p == Mobile {
        customWidth, customHeight := 375, 667;
      }
    }

    /** The "Custom Size" button: the viewport does not change. */
    method CustomSize()
      requires Valid()
      modifies this
      ensures Valid()
      ensures devicePreset == Custom && Current() == old(Current())
      ensures customWidth == old(customWidth) && customHeight == old(customHeight)
      ensures showBreakpoints == old(showBreakpoints)
    {
      devicePreset := Custom;
    }

    /** A click on a common breakpoint: custom preset at that size, which is then highlighted. */
    method ChooseBreakpoint(bp: Breakpoint)
      requires Valid() && showBreakpoints
      modifies this
      ensures Valid()
      ensures devicePreset == Custom && Current() == Size(bp.width, bp.height)
      ensures Highlighted(bp, Current())
      ensures showBreakpoints == old(showBreakpoints)
    {
      customWidth := bp.width;
      customHeight := bp.height;
      devicePreset := Custom;
    }

    /** The width input, shown only for the custom preset; `parsed` is what `parseInt` read. */
    method InputWidth(parsed: Option<int>)
      requires Valid() && devicePreset == Custom
      modifies this
      ensures Valid() && devicePreset == Custom
      ensures customWidth == InputValue(parsed, 1920) && customHeight == old(customHeight)
      ensures showBreakpoints == old(showBreakpoints)
    {
      customWidth := InputValue(parsed, 1920);
    }

    /** The height input, shown only for the custom preset. */
    method InputHeight(parsed: Option<int>)
      requires Valid() && devicePreset == Custom
      modifies this
      ensures Valid() && devicePreset == Custom
      ensures customHeight == InputValue(parsed, 1080) && customWidth == old(customWidth)
      ensures showBreakpoints == old(showBreakpoints)
    {
      customHeight := InputValue(parsed, 1080);
    }

    method SetShowBreakpoints(show: bool)
      requires Valid()
      modifies this
      ensures Valid()
      ensures showBreakpoints == show
      ensures devicePreset == old(devicePreset) && customWidth == old(customWidth) && customHeight == old(customHeight)
    {
      showBreakpoints := show;
    }
  }
}
