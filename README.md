# DevPalette core, modelled in Dafny

DevPalette is a gallery of React UI components and developer tools. This
project models the logic behind the pages and components, leaving out the
markup, and proves properties of that model:

- **Colour palette page.** Covers the six-digit hex parser and serialiser
  (`#RRGGBB`, with the `#` optional on input) and the RGB/HSL conversions
  with the classic piecewise `hue2rgb` conversion. Also covers hue
  rotation, lighten/darken, the palette generator, the canvas colour picker
  and the list of picked colours.
- **Documentation viewer.** Models `parseMarkdown`, the line-driven splitter
  that turns a Markdown document into text blocks, code blocks (`code-0`,
  `code-1`, …) and a section outline. This includes its slug function
  `createSectionId`. Around it sit the viewer's dropdown, the image modal's
  clamped zoom and drag-to-pan, and the resizable columns.
- **Component gallery.** The category tabs and the category-and-search filter.
- **Small interactive components:**
  - the macOS-style dock's magnification;
  - the fading carousel with its transition lock;
  - the bottom menu's activation and location popup;
  - the requirement-gated toggle buttons;
  - the responsive tester's device presets;
  - the compass heading and its strip offset;
  - the horizontal scroller's scroll-to-translate mapping.

The model is organised as follows:

- One module per source file: `Palette` and `Color` (`ColorPalette.tsx`),
  `Markdown` and `SectionId` (`parseMarkdown` and `createSectionId`),
  `DocViewer`, `Gallery`, `Dock`, `FadeGallery`, `BottomMenu`,
  `ConditionalButtons`, `ResponsiveTester`, `Heading` (`heading.ts` and the
  compass) and `Scroller`.
- Three helper modules cover what JavaScript provides:
  - `Wrappers` holds `Option`, standing for `null`/`undefined` results;
  - `JsMath` holds `Math.round`, `Math.min`/`max` and the truncating `%` over
    exact reals;
  - `Text` holds `trim`, `toLowerCase`, `includes`, `split('\n')`, `join` and
    decimal rendering over `seq<char>`.
- Arithmetic is done over exact `real`s. `Math.round(x)` is `floor(x + 0.5)`.
  The JavaScript `%` on a negative operand keeps the sign of the dividend,
  and is written out that way.

Where the code mutates state, the model does too:

- `parseMarkdown` is the class `Markdown.LineParser`. Its fields are the
  parser's local variables. Each of its methods is proved against a pure
  step function, and `Markdown.ParseMarkdown` is proved equal to the pure
  `Markdown.Parse`.
- Each modelled page or component that keeps state is a class: `DocPage`,
  `PalettePage`, `GalleryPage`, `Viewport`, `DockState`, `Carousel`,
  `MenuState`, `ButtonsState` and `DemoCompass`. Its fields are the
  component's `useState` hooks and its methods are the event handlers. Each
  handler's contract states the whole new state. Two hooks are not fields:
  the responsive tester's `codeLanguage` and `copiedCode` (see "Left out").
  DOM refs are not fields either; what the code reads through them is passed
  in as a parameter.

Events that arrive through timers or DOM listeners are explicit method calls:
the carousel's end of fade, the document clicks, the wheel and the mouse
moves. What the browser supplies is passed in as a parameter: the pixel under
the pointer, the fetched document text, the result of `parseInt`, whether a
click landed inside an element, and the container's geometry.

## Model

| member | source | states |
|---|---|---|
| `Color.HexToRgb` | src/pages/ColorPalette.tsx:607-616 | Succeeds exactly on an optional `#` followed by six hex digits in either case; every channel it reads is in [0, 255]. |
| `Color.HexOfNat` | src/pages/ColorPalette.tsx:620 | `toString(16)` of a natural number: lower-case hex digits, a single digit exactly below 16. |
| `Color.IntToHex` | src/pages/ColorPalette.tsx:620 | `toString(16)` of any integer: a minus sign exactly for a negative number, lower-case hex digits after it. |
| `Color.ChannelHex` | src/pages/ColorPalette.tsx:619-622 | The per-channel string is at least two characters (zero-padded), exactly two for a channel in [0, 255]. |
| `Color.RgbToHex` | src/pages/ColorPalette.tsx:618-623 | `#` followed by the three padded channels: at least seven characters, exactly seven for a byte colour. |
| `Color.ChannelHexOfByte` | src/pages/ColorPalette.tsx:619-622 | A channel in [0, 255] is written as exactly its two lower-case hex digits, high then low. |
| `Color.ChannelHexOutOfRange` | src/pages/ColorPalette.tsx:619-622 | A channel outside [0, 255] does not give two lower-case hex digits (a minus sign or a third digit appears). |
| `Color.RgbToHexOfByte` | src/pages/ColorPalette.tsx:618-623 | For byte channels the output is `#` followed by the six digits of r, g and b in order. |
| `Color.RgbToHexCanonical` | src/pages/ColorPalette.tsx:618-623 | The output is `#` plus six lower-case hex digits if and only if every channel is in [0, 255]. |
| `Color.HexRoundTrip` | src/pages/ColorPalette.tsx:607-623 | Parsing a serialised byte colour gives the colour back. |
| `Color.HexCanonicalForm` | src/pages/ColorPalette.tsx:607-623 | Serialising a parsed colour gives `#` and the input's six digits lower-cased: the reverse round trip, up to case and the optional `#`. |
| `Color.PairDigits` | src/pages/ColorPalette.tsx:611-621 | A pair of hex digits read as a channel is written back as the same pair, lower-cased. |
| `Color.RgbToHsl` | src/pages/ColorPalette.tsx:625-654 | Lightness is in [0, 100]; a grey has hue 0 and saturation 0. |
| `Color.RgbToHslRange` | src/pages/ColorPalette.tsx:625-654 | For byte channels h is in [0, 360) and s, l are in [0, 100]; s is 0 exactly for greys, and then h is 0. |
| `Color.SaturationFraction` | src/pages/ColorPalette.tsx:637-638 | For a colour with min < max in [0, 1], the saturation fraction is in (0, 1] on both branches of `l > 0.5`. |
| `Color.HueFraction` | src/pages/ColorPalette.tsx:640-650 | For a colour with max != min, the hue fraction from the matching `switch (max)` case is in [0, 1): the `+ 6` brings the red case's negative values back into range. |
| `Color.SaturationRange` | src/pages/ColorPalette.tsx:630-638 | s and l are in [0, 100]; s is 0 if and only if r = g = b. |
| `Color.HueRange` | src/pages/ColorPalette.tsx:636-653 | h is in [0, 360), and is 0 for a grey. |
| `Color.ToByte` | src/pages/ColorPalette.tsx:684-686 | `Math.round(x * 255)` of a fraction in [0, 1] is a byte. |
| `Color.UpperPivot` | src/pages/ColorPalette.tsx:675-676 | For l, s in [0, 1] the pivots satisfy 0 <= p <= q <= 1. |
| `Color.Hue2Rgb` | src/pages/ColorPalette.tsx:666-673 | With equal pivots every hue gives that pivot. |
| `Color.Hue2RgbBetween` | src/pages/ColorPalette.tsx:666-673 | `hue2rgb` stays between p and q for every shifted hue the caller passes. |
| `Color.HslToRgbRange` | src/pages/ColorPalette.tsx:656-688 | A colour in HSL range converts to three byte channels. |
| `Color.HslToRgb` | src/pages/ColorPalette.tsx:656-688 | Saturation 0 gives three equal channels (a grey). |
| `Color.NormalizeHue` | src/pages/ColorPalette.tsx:692-693 | The rotated hue lands in [0, 360) and differs from the raw sum by whole turns. |
| `Color.NormalizeHueCongruent` | src/pages/ColorPalette.tsx:692-693 | Hues that differ by whole turns normalise to the same value. |
| `Color.NormalizeHueInRange` | src/pages/ColorPalette.tsx:692-693 | A hue already in [0, 360) is left as it is. |
| `Color.RotateHue` | src/pages/ColorPalette.tsx:690-695 | Rotating a byte colour gives a byte colour. |
| `Color.RotateHuePeriodic` | src/pages/ColorPalette.tsx:690-695 | Rotating by whole extra turns gives the same colour. |
| `Color.RotateHueFullTurn` | src/pages/ColorPalette.tsx:690-695 | A rotation by 360 equals a rotation by 0. |
| `Color.ComplementaryColor` | src/pages/ColorPalette.tsx:697-699 | The complement is the rotation by 180 and is a byte colour. |
| `Color.Lighten` | src/pages/ColorPalette.tsx:705 | Only lightness changes: it becomes l + 100·amount, capped at 100. |
| `Color.Darken` | src/pages/ColorPalette.tsx:713 | Only lightness changes: it becomes l − 100·amount, floored at 0. |
| `Color.LightenColor` | src/pages/ColorPalette.tsx:701-707 | An unparsable input comes back unchanged; a parsable one gives a canonical lower-case hex colour. |
| `Color.DarkenColor` | src/pages/ColorPalette.tsx:709-715 | An unparsable input comes back unchanged; a parsable one gives a canonical lower-case hex colour. |
| `Color.DarkenWhiteIsBlack` | src/pages/ColorPalette.tsx:709-715 | Darkening white by 1 gives `#000000`. |
| `Palette.Rotated` | src/pages/ColorPalette.tsx:40-56 | Each rotated palette entry is a canonical lower-case hex colour. |
| `Palette.GeneratePalette` | src/pages/ColorPalette.tsx:29-71 | The input alone for an unparsable colour or unknown scheme. Otherwise 2/3/3/4/5 entries for complementary/analogous/triadic/tetradic/monochromatic. The input is kept at index 0 (hue schemes) or 2 (monochromatic) and every other entry is canonical hex. |
| `Palette.HuePalette` | src/pages/ColorPalette.tsx:33-57 | The four hue schemes: their lengths, the input first, canonical entries after it. |
| `Palette.Rotations` | src/pages/ColorPalette.tsx:40-56 | Each angle gives the serialised rotation by that angle, in order, and every entry is canonical hex. |
| `Palette.Lightened` | src/pages/ColorPalette.tsx:61-62 | Each non-negative amount gives the lightened colour, in order, as canonical hex. |
| `Palette.Darkened` | src/pages/ColorPalette.tsx:64-65 | Each non-negative amount gives the darkened colour, in order, as canonical hex. |
| `Palette.Monochromatic` | src/pages/ColorPalette.tsx:59-66 | Five entries with the input in the middle and canonical hex around it. |
| `Palette.PaletteEntriesParse` | src/pages/ColorPalette.tsx:29-71 | Every entry of the palette of a parsable colour parses again. |
| `Palette.TetradicHoldsComplement` | src/pages/ColorPalette.tsx:35-55 | The tetradic palette's third entry is the complementary colour. |
| `Palette.TriadicWrapsAround` | src/pages/ColorPalette.tsx:690-695 | The triadic rotation by 240 equals a rotation by −120. |
| `Palette.TetradicWrapsAround` | src/pages/ColorPalette.tsx:690-695 | The tetradic rotation by 270 equals a rotation by −90. |
| `Palette.GetColorAtPosition` | src/pages/ColorPalette.tsx:185-212 | Null exactly when there is no canvas or it has no 2D context. Otherwise it holds the canvas coordinates of the pointer and the pixel there. Its hex is canonical and parses back to the pixel, and its HSL is `rgbToHsl` of the pixel, in range. |
| `Palette.PickInsideBox` | src/pages/ColorPalette.tsx:189-194 | A pointer inside the displayed box maps to a pixel inside the canvas. |
| `Palette.ScaleIntoRange` | src/pages/ColorPalette.tsx:190-194 | An offset inside the box scales to an offset inside the canvas size. |
| `Palette.FitImage` | src/pages/ColorPalette.tsx:153-167 | For any non-negative image size, a zero-sized one included, the drawn size fits the container width and 600 px. It keeps the image's aspect ratio and never enlarges. An image that already fits keeps its size; any other ends at the width or height limit. |
| `Palette.Rescale` | src/pages/ColorPalette.tsx:161-165 | Scaling one side to a smaller target keeps the proportion and does not grow it. |
| `Palette.RescaleKeepsRatio` | src/pages/ColorPalette.tsx:160-167 | Rescaling a side preserves the width-to-height ratio. |
| `Palette.RemoveAt` | src/pages/ColorPalette.tsx:240 | Filtering out index i drops exactly element i and keeps the rest in order; an index outside the list changes nothing. |
| `Palette.PalettePage.constructor` | src/pages/ColorPalette.tsx:15-24 | Starts at `#3b82f6`, complementary, nothing copied, no image, no picked colours, magnifier hidden at (0, 0) showing `#000000`. |
| `Palette.PalettePage.Shown` | src/pages/ColorPalette.tsx:73-75 | The palette shown is `generatePalette` of the current base colour and scheme, never empty. |
| `Palette.PalettePage.SetBaseColor` | src/pages/ColorPalette.tsx:464-471 | The colour inputs set the base colour; every other field is unchanged. |
| `Palette.PalettePage.SetScheme` | src/pages/ColorPalette.tsx:493 | The scheme select sets the scheme; every other field is unchanged. |
| `Palette.PalettePage.RandomColor` | src/pages/ColorPalette.tsx:87-93 | The base colour becomes the drawn entry of the ten fixed colours, a valid hex colour; every other field is unchanged. |
| `Palette.PalettePage.CopyToClipboard` | src/pages/ColorPalette.tsx:77-85 | A successful clipboard write records the copied colour; a failed one changes nothing. |
| `Palette.PalettePage.CopiedTimeout` | src/pages/ColorPalette.tsx:81 | The timer clears the copied colour and nothing else. |
| `Palette.PalettePage.LoadImage` | src/pages/ColorPalette.tsx:96-130 | A new image replaces the old one and empties the picked colours; every other field is unchanged. |
| `Palette.PalettePage.ClearImage` | src/pages/ColorPalette.tsx:282-285 | Clearing drops the image and the picked colours; every other field is unchanged. |
| `Palette.PalettePage.CanvasClick` | src/pages/ColorPalette.tsx:215-221 | A successful pick is appended at the end of the list and its hex becomes the base colour. Without a canvas or its context nothing changes. |
| `Palette.PalettePage.CanvasMouseMove` | src/pages/ColorPalette.tsx:224-236 | A successful pick shows its hex in the magnifier at the pointer offset within the canvas box. Without a canvas or its context nothing changes. |
| `Palette.PalettePage.SetShowMagnifier` | src/pages/ColorPalette.tsx:300-301 | Mouse-enter and mouse-leave show and hide the magnifier and change nothing else. |
| `Palette.PalettePage.RemovePickedColor` | src/pages/ColorPalette.tsx:239-241 | The list loses exactly the element at the index; every other field is unchanged. |
| `Palette.PalettePage.UsePickedColor` | src/pages/ColorPalette.tsx:244-246 | The picked colour's hex becomes the base colour; every other field is unchanged. |
| `SectionId.DropRun` | src/pages/UnrealEngine.tsx:724 | Drops only characters outside `[a-z0-9]` from the front, and stops at a letter or digit or at the end. |
| `SectionId.DropRunSuffix` | src/pages/UnrealEngine.tsx:724 | What remains is a suffix of the input: one run is skipped and the rest kept. |
| `SectionId.Collapse` | src/pages/UnrealEngine.tsx:724 | The run replacement leaves only `a-z`, `0-9` and single dashes. It is never longer than its input and empties only the empty string. |
| `SectionId.TrimDashStart` | src/pages/UnrealEngine.tsx:725 | The result is no longer than the input, does not start with a dash, and every character dropped from the front is a dash. |
| `SectionId.TrimDashStartSuffix` | src/pages/UnrealEngine.tsx:725 | The result is a suffix of the input, so only the leading dashes are removed. |
| `SectionId.TrimDashEnd` | src/pages/UnrealEngine.tsx:725 | The result is no longer than the input, does not end with a dash, and every character dropped from the end is a dash. |
| `SectionId.TrimDashEndPrefix` | src/pages/UnrealEngine.tsx:725 | The result is a prefix of the input, so only the trailing dashes are removed. |
| `SectionId.Slug` | src/pages/UnrealEngine.tsx:721-726 | The id is never longer than the title, and an empty title gives an empty id. |
| `SectionId.SlugShape` | src/pages/UnrealEngine.tsx:721-726 | An id has only `a-z`, `0-9` and `-`, no dash at either end and never `--`. |
| `SectionId.SlugKeepsAlnum` | src/pages/UnrealEngine.tsx:721-726 | The id keeps every ASCII letter (lower-cased) and digit of the title, in order. |
| `SectionId.CollapseKeepsAlnum` | src/pages/UnrealEngine.tsx:724 | The run replacement keeps every letter and digit in order. |
| `SectionId.TrimDashStartKeepsAlnum` | src/pages/UnrealEngine.tsx:725 | Stripping leading dashes keeps every letter and digit. |
| `SectionId.TrimDashEndKeepsAlnum` | src/pages/UnrealEngine.tsx:725 | Stripping trailing dashes keeps every letter and digit. |
| `SectionId.CollapseOfSlugText` | src/pages/UnrealEngine.tsx:724 | On slug text without double dashes the run replacement changes nothing. |
| `SectionId.LowerOfSlugText` | src/pages/UnrealEngine.tsx:723 | Lower-casing leaves slug text unchanged. |
| `SectionId.SlugIdempotent` | src/pages/UnrealEngine.tsx:721-726 | `createSectionId` of an id is the id itself. |
| `Markdown.LeadingDigits` | src/pages/UnrealEngine.tsx:919 | Counts exactly the leading ASCII digits. |
| `Markdown.FirstAlt` | src/pages/UnrealEngine.tsx:927 | The lazy `(.+?)` of the image pattern: the shortest alt text that lets the rest of the line match. |
| `Markdown.ImageParts` | src/pages/UnrealEngine.tsx:927-934 | An image line is `![alt](url)` with non-empty alt and url and the shortest such alt. |
| `Markdown.FlushParagraph` | src/pages/UnrealEngine.tsx:728-736 | Empties the paragraph buffer; emits one paragraph, the lines joined by spaces, exactly when the buffer is non-empty and its text is not blank. |
| `Markdown.FlushCode` | src/pages/UnrealEngine.tsx:738-755 | Nothing without buffered code. Otherwise it emits one block with the file name or language label, the lines joined by newlines, id `code-N`, and the current section if any. It then advances N and resets the buffer, language and file name. |
| `Markdown.Push` | src/pages/UnrealEngine.tsx:849-953 | A block line flushes the paragraph and appends its block last. |
| `Markdown.Fence` | src/pages/UnrealEngine.tsx:831-841 | A fence flips code mode and leaves the sections and the current section alone. |
| `Markdown.Heading2Line` | src/pages/UnrealEngine.tsx:854-869 | A `## ` line adds one level-2 section with id `createSectionId(title)` and becomes the current section. |
| `Markdown.Heading3Line` | src/pages/UnrealEngine.tsx:871-907 | A `### ` line becomes the current section only if none is set. It adds a level-3 section only when it is not a file header. |
| `Markdown.Classify` | src/pages/UnrealEngine.tsx:848-961 | The line kinds are tried in source order: `## ` lines are section titles, `### ` lines sub-titles; blank lines are all whitespace and plain lines are not. |
| `Markdown.Outline` | src/pages/UnrealEngine.tsx:848-961 | Lines outside code never touch the code buffer, the code list, the counter, the language or the fence state. Sections are only appended. |
| `Markdown.Step` | src/pages/UnrealEngine.tsx:829-962 | Only a fence flips code mode; the code counter never decreases, and sections are only appended. |
| `Markdown.Run` | src/pages/UnrealEngine.tsx:829 | Over any lines the code counter never decreases and sections are only appended. |
| `Markdown.Finish` | src/pages/UnrealEngine.tsx:964-965 | After the final flushes no paragraph or code line stays buffered, and the sections are unchanged. |
| `Markdown.Parse` | src/pages/UnrealEngine.tsx:706-968 | An empty document gives no text, no code blocks and no sections. |
| `Markdown.Inside` | src/pages/UnrealEngine.tsx:831-846 | The lines between fences contain no fence line. |
| `Markdown.LineEvents` | src/pages/UnrealEngine.tsx:854-877 | A line carries at most one heading event. |
| `Markdown.LastH2` | src/pages/UnrealEngine.tsx:857 | The position of the last `## ` heading, or none. |
| `Markdown.FirstTitled` | src/pages/UnrealEngine.tsx:875-877 | The first non-empty `### ` title, or empty when there is none. |
| `Markdown.StartInv` | src/pages/UnrealEngine.tsx:707-718 | The initial parser state satisfies the parser invariant. |
| `Markdown.FlushedParagraphNotBlank` | src/pages/UnrealEngine.tsx:729-733 | Under the invariant a non-empty paragraph buffer is never blank, so the `text.trim()` test never drops one. |
| `Markdown.FlushParagraphInv` | src/pages/UnrealEngine.tsx:728-736 | Flushing a paragraph keeps the invariant. |
| `Markdown.FlushCodeInv` | src/pages/UnrealEngine.tsx:738-755 | Flushing code keeps the invariant and moves the buffered lines, in order, to the end of the emitted code. |
| `Markdown.PushInv` | src/pages/UnrealEngine.tsx:849-953 | Appending a non-paragraph block keeps the invariant. |
| `Markdown.OutlineInv` | src/pages/UnrealEngine.tsx:848-961 | Any line outside code keeps the invariant. |
| `Markdown.Heading2Inv` | src/pages/UnrealEngine.tsx:854-869 | A `## ` line keeps the invariant. |
| `Markdown.Heading3Inv` | src/pages/UnrealEngine.tsx:871-907 | A `### ` line keeps the invariant. |
| `Markdown.StepInv` | src/pages/UnrealEngine.tsx:829-962 | Every line keeps the invariant. |
| `Markdown.RunInv` | src/pages/UnrealEngine.tsx:829-962 | The whole line loop keeps the invariant. |
| `Markdown.StepCodeLines` | src/pages/UnrealEngine.tsx:831-846 | A fence toggles code mode; a line inside code is appended verbatim to the code buffer. |
| `Markdown.RunCodeLines` | src/pages/UnrealEngine.tsx:829-962 | After the loop, emitted plus buffered code lines are exactly the lines between fences, in order. |
| `Markdown.StepSections` | src/pages/UnrealEngine.tsx:849-908 | Only a heading line outside code adds sections. |
| `Markdown.RunSections` | src/pages/UnrealEngine.tsx:829-962 | The sections are those of the lines outside code, in document order. |
| `Markdown.StepParagraph` | src/pages/UnrealEngine.tsx:831-961 | A plain line outside code is appended to the paragraph. Every other line outside code, and every fence, empties it. |
| `Markdown.OutlineParagraph` | src/pages/UnrealEngine.tsx:848-961 | Plain lines extend the paragraph without emitting text; all other kinds flush it. |
| `Markdown.LabelReference` | src/pages/UnrealEngine.tsx:857-877 | The current section after a run of headings is the last `## ` title, else the first `### ` title, else the starting value. |
| `Markdown.StepLabel` | src/pages/UnrealEngine.tsx:857-877 | Only heading lines outside code change the current section. |
| `Markdown.RunLabel` | src/pages/UnrealEngine.tsx:829-962 | The current section after the loop follows the headings outside code. |
| `Markdown.RunSnoc` | src/pages/UnrealEngine.tsx:829 | The loop over lines plus one more line is the loop followed by one step. |
| `Markdown.RunPrefixStep` | src/pages/UnrealEngine.tsx:829 | Running the first j + 1 lines is running the first j and stepping over line j. |
| `Markdown.RunSectionReference` | src/pages/UnrealEngine.tsx:857-877 | From the start, the current section after any lines is the reference label of the headings outside fences. |
| `Markdown.FenceClosesBlock` | src/pages/UnrealEngine.tsx:832-834 | A closing fence with buffered code emits a block labelled with the current section, or with none when it is empty. |
| `Markdown.ClosedBlockSection` | src/pages/UnrealEngine.tsx:832-834 | A block closed by a fence is labelled with the last `## ` title before it, else the first `### ` title, else nothing. |
| `Markdown.UnclosedBlockSection` | src/pages/UnrealEngine.tsx:964-965 | An unterminated block is still emitted at the end, labelled the same way. |
| `Markdown.ParseInv` | src/pages/UnrealEngine.tsx:706-968 | The parse result satisfies the invariant. |
| `Markdown.ParseCodeIds` | src/pages/UnrealEngine.tsx:743 | Code block ids are `code-0`, `code-1`, … in emission order, all distinct. |
| `Markdown.ParseCodeHasNoFence` | src/pages/UnrealEngine.tsx:831-846 | No stored code line starts with a fence. |
| `Markdown.ParseParagraphsNotBlank` | src/pages/UnrealEngine.tsx:728-736 | No emitted paragraph is blank. |
| `Markdown.ParseCodeVerbatim` | src/pages/UnrealEngine.tsx:843-846 | The emitted code lines are exactly the document's lines between fences, in order, including an unterminated last block. |
| `Markdown.ParseSections` | src/pages/UnrealEngine.tsx:849-908 | The sections are those of the heading lines outside code, in document order. |
| `Markdown.LineParser.constructor` | src/pages/UnrealEngine.tsx:707-718 | The parser starts empty, outside code, with counter 0. |
| `Markdown.LineParser.EmitParagraph` | src/pages/UnrealEngine.tsx:728-736 | Implements the paragraph flush. |
| `Markdown.LineParser.EmitCodeBlock` | src/pages/UnrealEngine.tsx:738-755 | Implements the code flush. |
| `Markdown.LineParser.PushBlock` | src/pages/UnrealEngine.tsx:849-953 | Flushes the paragraph and appends a block. |
| `Markdown.LineParser.SectionHeading` | src/pages/UnrealEngine.tsx:854-869 | Implements the `## ` branch. |
| `Markdown.LineParser.SubHeading` | src/pages/UnrealEngine.tsx:871-907 | Implements the `### ` branch. |
| `Markdown.LineParser.ProcessOutline` | src/pages/UnrealEngine.tsx:848-961 | Implements the branches for lines outside code. |
| `Markdown.LineParser.ProcessLine` | src/pages/UnrealEngine.tsx:829-962 | Implements one iteration of the line loop. |
| `Markdown.LineParser.FenceLine` | src/pages/UnrealEngine.tsx:831-841 | Implements the fence branch. |
| `Markdown.LineParser.CloseBlock` | src/pages/UnrealEngine.tsx:832-834 | A closing fence flushes the code and leaves code mode. |
| `Markdown.LineParser.OpenBlock` | src/pages/UnrealEngine.tsx:835-839 | An opening fence flushes the paragraph, enters code mode and records the trimmed language. |
| `Markdown.ParseMarkdown` | src/pages/UnrealEngine.tsx:706-968 | The imperative parser returns exactly the pure `Parse` of the content. |
| `DocViewer.Clamp` | src/pages/UnrealEngine.tsx:181 | `max(lo, min(hi, x))` is in [lo, hi], equals x inside and the nearer bound outside. |
| `DocViewer.WheelZoom` | src/pages/UnrealEngine.tsx:180-181 | The wheel result is always in [0.5, 5]. From inside that range, scrolling down never zooms in and scrolling up never zooms out. |
| `DocViewer.ZoomIn` | src/pages/UnrealEngine.tsx:195-197 | Up by 0.25, capped at 5. |
| `DocViewer.ZoomOut` | src/pages/UnrealEngine.tsx:199-201 | Down by 0.25, floored at 0.5. |
| `DocViewer.ZoomStaysInRange` | src/pages/UnrealEngine.tsx:178-206 | Zoom-in, zoom-out and wheel steps keep the zoom in [0.5, 5]. |
| `DocViewer.ZoomInOutInverse` | src/pages/UnrealEngine.tsx:195-201 | An uncapped zoom-in is undone by a zoom-out, and the reverse. |
| `DocViewer.ZoomInSaturates` | src/pages/UnrealEngine.tsx:195-197 | Near the top, zoom-in reaches 5 and stays there. |
| `DocViewer.WheelDownUp` | src/pages/UnrealEngine.tsx:179-181 | A wheel step down then up restores a zoom away from the bounds. |
| `DocViewer.SidebarWidthAt` | src/pages/UnrealEngine.tsx:241-246 | The dragged sidebar width is always in [15, 35]. |
| `DocViewer.CodeWidthAt` | src/pages/UnrealEngine.tsx:247-253 | The dragged code width is always in [20, 50]. |
| `DocViewer.ColumnWidths` | src/pages/UnrealEngine.tsx:238-254 | The sidebar stays in [15, 35] and the code column in [20, 50]. The sidebar grows and the code column shrinks as the pointer moves right. |
| `DocViewer.Toggle` | src/pages/UnrealEngine.tsx:133-135 | The toggled dropdown is closed or the clicked id, nothing else. |
| `DocViewer.ToggleCloses` | src/pages/UnrealEngine.tsx:132-135 | Toggling the open id closes the dropdown; any other id opens that id. |
| `DocViewer.Loaded` | src/pages/UnrealEngine.tsx:105-115 | A failed fetch and an empty document both give empty content; otherwise the content is the parse of the fetched text. |
| `DocViewer.DocPage.constructor` | src/pages/UnrealEngine.tsx:70-90 | No document, not loading, empty content, nothing open or dragged, zoom 1 at the origin, sidebar 20%, code 40%, nothing highlighted; zoom and widths in range. |
| `DocViewer.DocPage.LoadDocument` | src/pages/UnrealEngine.tsx:98-119 | Selects the document, clears the highlight and the dropdown, and ends not loading with the parse of the fetched text (empty content when the fetch failed). Every other field is unchanged, and zoom and column widths stay in range. |
| `DocViewer.DocPage.BeginLoad` | src/pages/UnrealEngine.tsx:98-104 | Loading starts: the document is selected, the highlight and dropdown cleared. Every other field is unchanged, and zoom and column widths stay in range. |
| `DocViewer.DocPage.EndLoad` | src/pages/UnrealEngine.tsx:105-118 | The settled content is stored and loading ends. Every other field is unchanged, and zoom and column widths stay in range. |
| `DocViewer.DocPage.ToggleDropdown` | src/pages/UnrealEngine.tsx:133-135 | The dropdown becomes the toggle of the old one. Every other field is unchanged, and zoom and column widths stay in range. |
| `DocViewer.DocPage.ScrollToSection` | src/pages/UnrealEngine.tsx:122-130 | The dropdown closes when the section exists; otherwise nothing changes. Every other field is unchanged, and zoom and column widths stay in range. |
| `DocViewer.DocPage.OutsideClick` | src/pages/UnrealEngine.tsx:159-171 | A mouse-down outside the dropdown closes it; one inside changes nothing. Every other field is unchanged, and zoom and column widths stay in range. |
| `DocViewer.DocPage.Escape` | src/pages/UnrealEngine.tsx:146-156 | Escape closes the modal (resetting zoom and position), or with no modal the dropdown. Every other field is unchanged, and zoom and column widths stay in range. |
| `DocViewer.DocPage.OpenModal` | src/pages/UnrealEngine.tsx:92-96 | Shows the image with zoom 1 at the origin. Every other field is unchanged, and zoom and column widths stay in range. |
| `DocViewer.DocPage.CloseModal` | src/pages/UnrealEngine.tsx:189-193 | Hides the image and resets zoom to 1 and the position to the origin. Every other field is unchanged, and zoom and column widths stay in range. |
| `DocViewer.DocPage.HandleZoomIn` | src/pages/UnrealEngine.tsx:195-197 | The zoom takes the capped zoom-in step. Every other field is unchanged, and zoom and column widths stay in range. |
| `DocViewer.DocPage.HandleZoomOut` | src/pages/UnrealEngine.tsx:199-201 | The zoom takes the floored zoom-out step. Every other field is unchanged, and zoom and column widths stay in range. |
| `DocViewer.DocPage.HandleResetZoom` | src/pages/UnrealEngine.tsx:203-206 | Zoom 1 at the origin. Every other field is unchanged, and zoom and column widths stay in range. |
| `DocViewer.DocPage.Wheel` | src/pages/UnrealEngine.tsx:174-187 | With the modal open and Ctrl/Meta held, the zoom takes a clamped ±0.1 step; otherwise nothing changes. Every other field is unchanged, and zoom and column widths stay in range. |
| `DocViewer.DocPage.MouseDown` | src/pages/UnrealEngine.tsx:208-213 | Dragging starts only when zoomed in, remembering the pointer's offset from the image position; otherwise nothing changes. Every other field is unchanged, and zoom and column widths stay in range. |
| `DocViewer.DocPage.MouseMove` | src/pages/UnrealEngine.tsx:215-222 | While dragging a zoomed image, the image position follows the pointer; otherwise nothing changes. Every other field is unchanged, and zoom and column widths stay in range. |
| `DocViewer.DocPage.MouseUp` | src/pages/UnrealEngine.tsx:224-226 | Dragging stops. Every other field is unchanged, and zoom and column widths stay in range. |
| `DocViewer.DocPage.SidebarResizeStart` | src/pages/UnrealEngine.tsx:229-232 | The sidebar resize starts. Every other field is unchanged, and zoom and column widths stay in range. |
| `DocViewer.DocPage.CodeResizeStart` | src/pages/UnrealEngine.tsx:234-237 | The code-column resize starts. Every other field is unchanged, and zoom and column widths stay in range. |
| `DocViewer.DocPage.ResizeMove` | src/pages/UnrealEngine.tsx:240-255 | The dragged column takes the clamped pointer percentage, the sidebar drag first; with no drag nothing changes. Every other field is unchanged, and zoom and column widths stay in range. |
| `DocViewer.DocPage.ResizeEnd` | src/pages/UnrealEngine.tsx:257-260 | Mouse-up ends both resizes. Every other field is unchanged, and zoom and column widths stay in range. |
| `Gallery.Distinct` | src/pages/Gallery.tsx:12-13 | `Array.from(new Set(...))` holds each value of the input exactly once and nothing else. |
| `Gallery.FirstIndex` | src/pages/Gallery.tsx:12-13 | The first position of a value. |
| `Gallery.DistinctOrder` | src/pages/Gallery.tsx:12-13 | The distinct values come in order of first appearance. |
| `Gallery.Categories` | src/pages/Gallery.tsx:11-14 | "All" is the first tab, and every component's category has a tab. |
| `Gallery.CategoriesShape` | src/pages/Gallery.tsx:11-14 | "All" comes first, followed by every component category exactly once, and only those. |
| `Gallery.Filter` | src/pages/Gallery.tsx:16-26 | The filtered list is no longer than the component list. |
| `Gallery.MatchesSearch` | src/pages/Gallery.tsx:19-23 | An empty search matches every component. |
| `Gallery.Shown` | src/pages/Gallery.tsx:16-25 | The default view ("All", no search) shows every component; a shown component always matches the search. |
| `Gallery.FilterIsSubsequence` | src/pages/Gallery.tsx:16-26 | The filtered list is an order-preserving subsequence of the components. |
| `Gallery.FilterMembers` | src/pages/Gallery.tsx:16-25 | A component is listed if and only if it matches the tab and the search (soundness and completeness). |
| `Gallery.FilterCategory` | src/pages/Gallery.tsx:18 | Unless the tab is "All", every listed component has the selected category. |
| `Gallery.FilterAllEmpty` | src/pages/Gallery.tsx:18-22 | With "All" and no search every component is listed, in order. |
| `Gallery.SearchIgnoresCase` | src/pages/Gallery.tsx:19-23 | The search matches the same components for a query and its lower-cased form. |
| `Gallery.TitleMatch` | src/pages/Gallery.tsx:21 | A query found in the title, ignoring case, matches. |
| `Gallery.GalleryPage.constructor` | src/pages/Gallery.tsx:7 | The selected tab starts as "All". |
| `Gallery.GalleryPage.SelectCategory` | src/pages/Gallery.tsx:47 | A tab click selects that category. |
| `Gallery.GalleryPage.Visible` | src/pages/Gallery.tsx:16-26 | The grid is the filter of the components for the selected tab and the URL search; a component appears exactly when it is one of the components and matches both. |
| `Dock.Scale` | src/components/menus/macos-dock.tsx:19-28 | Scale is in [1, 1.5], 1.5 for the hovered icon, and 1 exactly when nothing is hovered or the icon is four or more away. |
| `Dock.TranslateY` | src/components/menus/macos-dock.tsx:30-38 | Lift is in [−8, 0], −8 for the hovered icon, and 0 exactly when nothing is hovered or the icon is three or more away. |
| `Dock.EffectMonotone` | src/components/menus/macos-dock.tsx:23-37 | Scale does not grow and lift does not deepen with distance. |
| `Dock.Symmetric` | src/components/menus/macos-dock.tsx:21-32 | Icons at equal distance on either side look the same. |
| `Dock.DockState.constructor` | src/components/menus/macos-dock.tsx:6-7 | Nothing active or hovered. |
| `Dock.DockState.Enter` | src/components/menus/macos-dock.tsx:55-58 | Mouse-enter sets both the active icon and the hovered index. |
| `Dock.DockState.Leave` | src/components/menus/macos-dock.tsx:59-62 | Mouse-leave clears both. |
| `Dock.DockState.Click` | src/components/menus/macos-dock.tsx:63 | A click makes the icon active and leaves the hover alone. |
| `Dock.AtMostOneActive` | src/components/menus/macos-dock.tsx:9-47 | The item ids are distinct, so at most one icon shows as active. |
| `FadeGallery.NextIndex` | src/components/Gallery/fade-gallery.tsx:39 | The next target is a valid index. |
| `FadeGallery.PreviousIndex` | src/components/Gallery/fade-gallery.tsx:44 | The previous target is a valid index. |
| `FadeGallery.IndicesAreModular` | src/components/Gallery/fade-gallery.tsx:38-46 | Next is (current + 1) mod n and previous is (current − 1 + n) mod n. |
| `FadeGallery.NextPreviousInverse` | src/components/Gallery/fade-gallery.tsx:38-46 | Previous undoes next and next undoes previous. |
| `FadeGallery.SingleSlideFixed` | src/components/Gallery/fade-gallery.tsx:39-44 | With one slide both arrows target the current slide. |
| `FadeGallery.Render` | src/components/Gallery/fade-gallery.tsx:78-84 | Only an empty list shows the placeholder. Otherwise the current slide shows, and arrows and dots need at least two slides. |
| `FadeGallery.Carousel.constructor` | src/components/Gallery/fade-gallery.tsx:23-24 | First slide, no fade. |
| `FadeGallery.Carousel.GoToSlide` | src/components/Gallery/fade-gallery.tsx:27-36 | A no-op for the current slide or during a fade; otherwise it moves there and locks. |
| `FadeGallery.Carousel.GoToNext` | src/components/Gallery/fade-gallery.tsx:38-41 | Moves to the next index unless locked; with one slide it does nothing. |
| `FadeGallery.Carousel.GoToPrevious` | src/components/Gallery/fade-gallery.tsx:43-46 | Moves to the previous index unless locked; with one slide it does nothing. |
| `FadeGallery.Carousel.TransitionEnd` | src/components/Gallery/fade-gallery.tsx:33-35 | The fade's end releases the lock. |
| `FadeGallery.Carousel.NextAndBack` | src/components/Gallery/fade-gallery.tsx:33-46 | Next, end of fade, previous: back at the starting slide. |
| `BottomMenu.ActiveItems` | src/components/menus/bottom-menu.tsx:84-96 | UNITS is lit by filter, floorplan or units. LOCATION is lit by either map, its own value or the open popup. Every other item is lit by its own value. |
| `BottomMenu.IsActive` | src/components/menus/bottom-menu.tsx:84-96 | LOCATION is lit while its popup is open; with nothing activated and the popup closed no item is lit. |
| `BottomMenu.ClickTarget` | src/components/menus/bottom-menu.tsx:97-109 | Every item but LOCATION activates a menu value on click. |
| `BottomMenu.AtMostOneActive` | src/components/menus/bottom-menu.tsx:84-96 | With the popup closed at most one item is lit; with it open, LOCATION and at most one other. |
| `BottomMenu.ClickLightsItem` | src/components/menus/bottom-menu.tsx:84-109 | Clicking any item but LOCATION lights it. |
| `BottomMenu.MenuState.constructor` | src/components/menus/bottom-menu.tsx:6-8 | Visible, popup closed, nothing activated. |
| `BottomMenu.MenuState.ToggleMenu` | src/components/menus/bottom-menu.tsx:19-21 | Flips visibility and changes nothing else. |
| `BottomMenu.MenuState.NavClick` | src/components/menus/bottom-menu.tsx:97-109 | LOCATION toggles the popup and keeps the activated menu. The others activate project, facilities, filter or gallery and keep the popup. |
| `BottomMenu.MenuState.SelectLocationType` | src/components/menus/bottom-menu.tsx:27-34 | Choosing a map closes the popup and activates `location2d` or `location3d`. |
| `BottomMenu.MenuState.DocumentClick` | src/components/menus/bottom-menu.tsx:36-51 | A click outside the popup and the items closes the popup and touches nothing else. |
| `ConditionalButtons.UnmetPressIgnored` | src/components/buttons/conditional-buttons.tsx:21-24 | While the requirement is unmet no press changes the active button. |
| `ConditionalButtons.MetPressToggles` | src/components/buttons/conditional-buttons.tsx:25 | An accepted press on the active button clears it; on another button it activates that one. |
| `ConditionalButtons.HandleClick` | src/components/buttons/conditional-buttons.tsx:19-28 | A click leaves the state, clears it, or activates the clicked button. Button 2, and Button 1 with the requirement met, toggle: the result is none exactly when that button was active. |
| `ConditionalButtons.Press` | src/components/buttons/conditional-buttons.tsx:19-28 | A press leaves the state, clears it, or activates the pressed button; with the requirement met it toggles that button. |
| `ConditionalButtons.PressTwice` | src/components/buttons/conditional-buttons.tsx:25 | Two accepted presses restore the state when the button was active or none was. After the other button was active they leave none. |
| `ConditionalButtons.ButtonsState.constructor` | src/components/buttons/conditional-buttons.tsx:10-11 | Value 0, nothing active. |
| `ConditionalButtons.ButtonsState.SetValue` | src/components/buttons/conditional-buttons.tsx:42 | The slider never changes the active button. |
| `ConditionalButtons.ButtonsState.Click` | src/components/buttons/conditional-buttons.tsx:19-28 | A click has the effect of the press as the page delivers it, gated by `checkRequirement`. |
| `ConditionalButtons.Button2OutlivesRequirement` | src/components/buttons/conditional-buttons.tsx:42-77 | Button 2 stays active after the value drops below 5, drawn disabled. |
| `ResponsiveTester.CurrentDimensions` | src/pages/ResponsiveTester.tsx:32-41 | For the custom preset the viewport is the custom fields. |
| `ResponsiveTester.PresetSize` | src/pages/ResponsiveTester.tsx:32-37 | Each fixed preset has a positive size, and only the desktop is landscape. |
| `ResponsiveTester.AtMostOneHighlighted` | src/pages/ResponsiveTester.tsx:21-30 | The breakpoint sizes are distinct, so at most one is highlighted. |
| `ResponsiveTester.PresetsAreBreakpoints` | src/pages/ResponsiveTester.tsx:21-37 | Each fixed preset's size is a common breakpoint. |
| `ResponsiveTester.InputValue` | src/pages/ResponsiveTester.tsx:295-306 | NaN and 0 fall back to the default; any other parsed number is kept. |
| `ResponsiveTester.Viewport.constructor` | src/pages/ResponsiveTester.tsx:14-19 | Desktop at 1920×1080, breakpoints shown. |
| `ResponsiveTester.Viewport.Current` | src/pages/ResponsiveTester.tsx:39-41 | A fixed preset shows its own size; under the invariant the viewport is always the custom fields. |
| `ResponsiveTester.Viewport.SetPreset` | src/pages/ResponsiveTester.tsx:200-212 | A fixed preset is selected and its size copied into the custom fields; custom keeps them. The breakpoint list is unchanged. |
| `ResponsiveTester.Viewport.CustomSize` | src/pages/ResponsiveTester.tsx:272 | Switching to custom keeps the custom fields, so the viewport does not change; the breakpoint list stays as it was. |
| `ResponsiveTester.Viewport.ChooseBreakpoint` | src/pages/ResponsiveTester.tsx:353-359 | A breakpoint click selects custom at its size, and that breakpoint is then highlighted; the breakpoint list stays shown. |
| `ResponsiveTester.Viewport.InputWidth` | src/pages/ResponsiveTester.tsx:292-299 | The width becomes the input with the 1920 fallback; the height, preset and breakpoint list are unchanged. |
| `ResponsiveTester.Viewport.InputHeight` | src/pages/ResponsiveTester.tsx:303-310 | The height becomes the input with the 1080 fallback; the width, preset and breakpoint list are unchanged. |
| `ResponsiveTester.Viewport.SetShowBreakpoints` | src/pages/ResponsiveTester.tsx:343-376 | Hides or shows the list and leaves the viewport alone. |
| `Heading.Normalize` | src/utils/heading.ts:20 | `((raw % 360) + 360) % 360` is in [0, 360) and differs from raw by whole turns. |
| `Heading.RadToDeg` | src/utils/heading.ts:7-9 | A full turn is 360 degrees, and the sign of the angle is kept. |
| `Heading.AlphaToHeadingDeg` | src/utils/heading.ts:11-22 | The heading is in [0, 360) and differs from 90 − alphaDeg + offset by whole turns. |
| `Heading.NormalizeCongruent` | src/utils/heading.ts:20 | Raw values a whole number of turns apart give the same heading. |
| `Heading.OffsetPeriodic` | src/utils/heading.ts:19-21 | Shifting the north offset by 360·k leaves the heading unchanged. |
| `Heading.NormalizeInRange` | src/utils/heading.ts:21 | A raw value already in [0, 360) is the heading. |
| `Heading.ZeroAlphaFacesEast` | src/utils/heading.ts:17-21 | With the default offset, alpha 0 gives heading 90. |
| `Heading.StripPercent` | src/components/compass/interactive-compass.tsx:13-16 | A heading in [0, 360) puts the strip at [308, 508)%. |
| `Heading.StripPercentIncreasing` | src/components/compass/interactive-compass.tsx:16 | The percentage strictly increases with the heading. |
| `Heading.CompassTranslate` | src/components/compass/interactive-compass.tsx:12-17 | The applied transform is the negated percentage, in (−508, −308]. |
| `Heading.DemoCompass.constructor` | src/components/compass/interactive-compass.tsx:7 | The direction starts at 0. |
| `Heading.DemoCompass.Tick` | src/components/compass/interactive-compass.tsx:22-27 | Each tick sets the direction to `(prev + 0.02) % 2π`, which stays in [0, 2π); `TickAdvances` states the step itself. |
| `Heading.TickInRange` | src/components/compass/interactive-compass.tsx:24 | A tick from [0, 2π) lands in [0, 2π). |
| `Heading.TickAdvances` | src/components/compass/interactive-compass.tsx:24 | A tick adds exactly 0.02 to a direction in [0, 2π), minus one full turn once the sum reaches 2π. |
| `Scroller.Progress` | src/components/scroll/horizontal-scroller.tsx:22 | Progress is in [0, 1]: 0 at or above the top, 1 at or past the bottom, proportional in between. |
| `Scroller.MaxTranslate` | src/components/scroll/horizontal-scroller.tsx:23-25 | The travel is non-negative: the overflow of the content, or 0. |
| `Scroller.TranslateX` | src/components/scroll/horizontal-scroller.tsx:16-28 | No transform is written exactly when the wrapper cannot scroll. |
| `Scroller.TranslateRange` | src/components/scroll/horizontal-scroller.tsx:22-26 | translateX is in [−maxTranslate, 0]. |
| `Scroller.TranslateEnds` | src/components/scroll/horizontal-scroller.tsx:22-26 | At the top it is 0; at or past the bottom it is −maxTranslate. |
| `Scroller.TranslateMonotone` | src/components/scroll/horizontal-scroller.tsx:22-26 | Scrolling further down never moves the strip back. |
| `Text.TrimStart` | src/pages/UnrealEngine.tsx:731 | Removes exactly the leading JavaScript whitespace. |
| `Text.TrimEnd` | src/pages/UnrealEngine.tsx:731 | Removes exactly the trailing JavaScript whitespace. |
| `Text.Trim` | src/pages/UnrealEngine.tsx:731 | `trim()` is no longer than its input and neither starts nor ends with whitespace. |
| `Text.TrimEmptyIff` | src/pages/UnrealEngine.tsx:731 | `trim()` is empty exactly for an all-whitespace string. |
| `Text.Lower` | src/pages/UnrealEngine.tsx:723 | Lower-cases each character and keeps the length. |
| `Text.Contains` | src/pages/Gallery.tsx:21 | The empty needle is found in any string, and a found needle is no longer than the haystack. |
| `Text.Split` | src/pages/UnrealEngine.tsx:707 | `split('\n')` gives at least one piece, none containing a line feed. |
| `Text.Join` | src/pages/UnrealEngine.tsx:730 | A non-empty join starts with its first piece. |
| `Text.SplitJoin` | src/pages/UnrealEngine.tsx:707-740 | Joining the pieces with line feeds gives the text back. |
| `Text.JoinSplit` | src/pages/UnrealEngine.tsx:707-740 | Splitting line-feed-free pieces joined by line feeds gives the pieces back. |
| `Text.JoinNotBlank` | src/pages/UnrealEngine.tsx:730-731 | A join whose first piece is not blank is not blank. |
| `Text.NatToString` | src/pages/UnrealEngine.tsx:743 | The decimal rendering is non-empty and all digits. |
| `Text.NatToStringRoundTrip` | src/pages/UnrealEngine.tsx:743 | Reading the rendering back gives the number. |
| `Text.NatToStringInjective` | src/pages/UnrealEngine.tsx:743 | Different counters give different ids. |
| `JsMath.Round` | src/pages/ColorPalette.tsx:684-686 | `Math.round` is within half of its argument. |
| `JsMath.Trunc` | src/utils/heading.ts:20 | The truncation toward zero behind JavaScript's `%`. |
| `JsMath.Min` | src/pages/UnrealEngine.tsx:181 | `Math.min`: a lower bound equal to one argument. |
| `JsMath.Max` | src/pages/UnrealEngine.tsx:181 | `Math.max`: an upper bound equal to one argument. |
| `JsMath.Rem360` | src/utils/heading.ts:20 | `x % 360` has the sign of x, magnitude below 360, and differs from x by whole turns. |
| `JsMath.RemTwoPi` | src/components/compass/interactive-compass.tsx:24 | `x % (2π)` keeps the sign of x, lies inside (−2π, 2π), and differs from x by a whole number of 2π turns. |

## Left out

- I/O is left out: `fetch` of the documents, clipboard reads and writes,
  `FileReader` image loading, and the canvas `getImageData` and `drawImage`
  calls. The fetched text, the loaded image and the pixel under the pointer
  are parameters instead.
- Timers and listeners are left out as mechanisms: `setTimeout` for the
  "copied" flags and for the carousel unlock, carousel autoplay and its
  hover pause, `requestAnimationFrame`, and listener registration. The
  events they deliver are explicit methods.
- Rendering is left out: JSX markup, class strings, the `key` props, and the
  3D scenes (`WaterShaderPlayground.ts`, `BasicWavePlaygroundScene.ts`).
- `parseInlineMarkdown` (`UnrealEngine.tsx`:757-827) is regex-driven
  formatting inside a paragraph. Paragraph and list text is kept raw.
- The file-header test of a `### ` line (`UnrealEngine.tsx`:879-889) is a
  function parameter `fileHeader`. It returns the extracted file name, or
  None when the header is not a file header. Its regular expressions are not
  modelled.
- `Text.Lower` lower-cases ASCII letters only. `toLowerCase` also folds
  other scripts, so the model does not cover the slug or the search on
  non-ASCII titles.
- `parseInt` of the responsive tester's inputs is a parameter (`Option<int>`,
  None for NaN). The number parser itself is not modelled.
- `Palette.GetColorAtPosition` requires a displayed canvas. Its box has
  positive width and height, as the browser gives for a rendered canvas; a
  zero-sized box would divide by zero.
- `DocViewer.DocPage.ResizeMove` requires a positive container width, as the
  browser gives for the rendered container; a zero width would give NaN.
- Floating point is not modelled. All arithmetic is over exact reals, so
  IEEE-754 rounding, `Math.PI` as a double, `toFixed` and a `%` result that
  reaches 360 through rounding are out of scope. No hex → HSL → hex round
  trip is claimed.
- The responsive tester's code-sample panel is left out. Its hooks are
  `codeLanguage` and `copiedCode` (`ResponsiveTester.tsx`:17-18), and
  `generateBreakpointCode` only builds display text from the viewport width.
- `FadeGallery.Carousel.constructor` fixes the slide count `count` for the
  carousel's lifetime. In the source, `items` is a prop that a parent may replace
  between renders. If it shrinks, `currentIndex` may then point past the end.
  That case is not modelled.
- `LayoutGenerator.tsx` and the embedded code-sample strings of each
  component are display text, not running logic.
- Navbar URL and search synchronisation is left out. The search query reaches
  the gallery filter as a plain parameter.
- The carousel's dot and arrow handlers are modelled for at least one slide.
  With no slides only the placeholder renders, so no handler can run.
