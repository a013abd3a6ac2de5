# Puppeteer core, modelled in Dafny

Puppeteer is a Rust/WebAssembly GUI builder. A user describes a page as a
column of rows. Each node carries a `PuppetStyle`: padding, margin, width,
height, minimum and maximum bounds, a flex alignment and a background
colour. Rendering a node creates a `div`, gives it the node's identifier,
applies the style as nine CSS property assignments in a fixed order, and
appends it to a mount point. This project models that core: the style
value types and their serialisers (`src/styles.rs`), the flexbox
enumerations and their printed forms (`src/flex.rs`), and the layout nodes
with the column's render step (`src/lib.rs`).

The modules follow the source:

- `Text` renders decimal integers, adds the double quotes that `{:?}` puts
  around a string, and lower-cases ASCII text.
- `Units` holds `PuppetUnit`, `PuppetLength`, `Transparency` and
  `PuppetColor`, each with its CSS text. It also has
  `hex_color_constraints`, a method with a loop.
- `Flex` holds the six flex enumerations and `FlexGap`, each with its
  default and its Display and Debug texts. The six enumerations also have a
  reader of their Display name.
- `Dom` is the browser target, reduced to what the core uses:
  - a `Document` whose `create_element` may fail;
  - an `Element` whose identifier is set with `set_id`;
  - style properties, each applied with a `set_property` call the element may refuse;
  - an `append_with_node_1` that may be refused.

  The refusals are fixed by oracle constants chosen when the objects are
  made.
- `Styles` holds two things:
  - the `Style` value with its defaults and the nine assignments it makes;
  - the `PuppetStyle` class, with setters that update it in place and the
    render step `ToHtml`.
- `Nodes` holds the `PuppetColumn` and `PuppetRow` classes: their
  constructors, `column_id`, `set_style` and the column's `to_html`.

Some behaviour that is easy to miss is modelled as the code has it:

- A unit of magnitude zero serialises to `auto`. This holds even for the
  default margin, which is `Pixels(0)`.
- A hex colour is checked on its lower-cased text but printed with its
  original case.
- The check only asks that every character is at most `'f'`. Upper-case
  `A`–`F` and punctuation such as `[` pass. `G`–`Z` fail once lower-cased.
- An `Rgba` colour is printed as `rgb(r,g,b,a)`.
- `Transparency` and the flex enumerations print their Display names with
  `{:?}` on a `&str`, so the names come out in double quotes.
- Style application stops at the first refused property. The assignments
  made before it stay applied.

## Model

| member | source | states |
|---|---|---|
| Text.NatToString | src/styles.rs:347 | the decimal text of an unsigned integer is a non-empty digit string that starts with '0' only for zero and has one digit exactly below ten |
| Text.DigitsRoundTrip | src/styles.rs:347 | reading the decimal text back gives the number again |
| Text.NatToStringInjective | src/styles.rs:371-378 | distinct numbers are printed differently |
| Text.Quoted | src/flex.rs:37-50 | `{:?}` on a name yields the name between two double quotes |
| Text.QuotedInjective | src/flex.rs:22-50 | distinct names give distinct quoted texts, so the printed Display and Debug forms keep the names apart |
| Text.ToLower | src/styles.rs:264 | lower-casing keeps the length and maps each character on its own (ASCII `A`–`Z` to `a`–`z`, others unchanged) |
| Units.UnitRoundTrip | src/styles.rs:340-359 | a non-zero unit is recovered from its CSS text; a zero unit becomes "auto", which no longer says whether it was pixels or percent |
| Units.UnitHtmlIsDisplayUnlessZero | src/styles.rs:340-369 | the CSS text equals the Display text except at magnitude zero, where Display prints "0px"/"0%" and the CSS text is "auto" |
| Units.UnitDebugInjective | src/styles.rs:371-378 | the Debug text determines both the variant and the magnitude |
| Units.LengthRoundTrip | src/styles.rs:393-406 | every predefined length is recovered from its CSS text |
| Units.LengthToHtmlInjective | src/styles.rs:393-406 | no two predefined lengths share a CSS text |
| Units.LengthQualifiedNames | src/styles.rs:408-443 | for every length, the Debug name is "PuppetLength::" followed by its Display name |
| Units.LengthDebugIsQualifiedDisplay | src/styles.rs:408-425 | the printed Debug text is the quoted qualified Display name |
| Units.AlphaIsTenths | src/styles.rs:163-177 | the alpha text is the decimal value of the level in tenths: "0", "0.1" … "0.9", "1" |
| Units.AlphaToHtmlInjective | src/styles.rs:163-177 | distinct alpha levels have distinct alpha texts |
| Units.TransparencyDefault | src/styles.rs:180-184 | the default alpha is opaque and prints as "1" |
| Units.TransparencyQualifiedNames | src/styles.rs:186-228 | for every level, the Debug name is "Transparency::" followed by its Display name |
| Units.TransparencyDebugIsQualifiedDisplay | src/styles.rs:186-206 | the printed Debug text is the quoted qualified Display name |
| Units.HexColorConstraints | src/styles.rs:238-259 | returns true exactly when the text has six characters and none is above 'f' |
| Units.ColorToHtmlCases | src/styles.rs:261-284 | an accepted hex colour prints as "#" plus its original text; a rejected one prints as "INVALID_COLOR"; an rgb or rgba colour prints as an "rgb(" … ")" call |
| Units.HexAcceptedExactly | src/styles.rs:264 | after lower-casing, a hex text passes exactly when it has six characters, each at most 'f' and none in 'G'–'Z' |
| Units.InvalidColorOnlyFromRejectedHex | src/styles.rs:261-284 | the sentinel "INVALID_COLOR" is produced exactly for rejected hex colours |
| Units.RgbaExtendsRgb | src/styles.rs:274-282 | the rgba text is the rgb text of the same channels, with ",alpha" inserted before the closing parenthesis; the function name stays "rgb" |
| Units.HexRepeatedAccepted | src/styles.rs:263-269 | six copies of any accepted character are printed verbatim behind '#' |
| Units.HexWhiteAccepted | src/styles.rs:263-269 | "FFFFFF" prints as "#FFFFFF" and keeps its upper case |
| Units.HexLowerAccepted | src/styles.rs:263-269 | "ffffff" prints as "#ffffff" |
| Units.HexPunctuationAccepted | src/styles.rs:249-256 | "[[[[[[" passes the check although it holds no hex digit |
| Units.HexRejectedExamples | src/styles.rs:238-273 | "12345" (too short), "zzzzzz" and "GGGGGG" (above 'f' once lower-cased) print as "INVALID_COLOR" |
| Units.ColorDefault | src/styles.rs:287-291 | the default colour is hex "FFFFFF" and prints as "#FFFFFF" |
| Units.RgbExamples | src/styles.rs:274-282 | Rgb(10,20,30) prints as "rgb(10,20,30)"; a fully transparent black Rgba prints as "rgb(0,0,0,0)" |
| Flex.Defaults | src/flex.rs:16-300 | the defaults: FlexDirection::Row, FlexWrap::Wrap, and Center for JustifyContent, AlignSelf, AlignItems and AlignContent (flex.rs 16-20, 59-63, 103-107, 153-157, 202-206, 250-254); a row gap of two pixels that serialises to "2px" (flex.rs 296-300) |
| Flex.FlexDirectionQualifiedNames | src/flex.rs:22-50 | every Debug name is "FlexDirection::" followed by the Display name |
| Flex.FlexDirectionNames | src/flex.rs:22-50 | the printed Debug text is the quoted qualified name and differs from the printed Display text; the Display name reads back as the variant |
| Flex.FlexDirectionNamesDistinct | src/flex.rs:37-50 | distinct directions have distinct Display names |
| Flex.FlexWrapQualifiedNames | src/flex.rs:65-91 | every Debug name is "FlexWrap::" followed by the Display name |
| Flex.FlexWrapNames | src/flex.rs:65-91 | the printed Debug text is the quoted qualified name and differs from the Display text; the Display name reads back as the variant |
| Flex.FlexWrapNamesDistinct | src/flex.rs:79-91 | distinct wrap modes have distinct Display names |
| Flex.JustifyContentQualifiedNames | src/flex.rs:109-141 | every Debug name is "JustifyContent::" followed by the Display name |
| Flex.JustifyContentNames | src/flex.rs:109-141 | the printed Debug text is the quoted qualified name and differs from the Display text; the Display name reads back as the variant |
| Flex.JustifyContentNamesDistinct | src/flex.rs:126-141 | distinct justifications have distinct Display names |
| Flex.AlignSelfQualifiedNames | src/flex.rs:159-191 | every Debug name is "AlignSelf::" followed by the Display name |
| Flex.AlignSelfNames | src/flex.rs:159-191 | the printed Debug text is the quoted qualified name and differs from the Display text; the Display name reads back as the variant |
| Flex.AlignSelfNamesDistinct | src/flex.rs:176-191 | distinct self-alignments have distinct Display names |
| Flex.AlignItemsQualifiedNames | src/flex.rs:208-238 | every Debug name is "AlignItems::" followed by the Display name |
| Flex.AlignItemsNames | src/flex.rs:208-238 | the printed Debug text is the quoted qualified name and differs from the Display text; the Display name reads back as the variant |
| Flex.AlignItemsNamesDistinct | src/flex.rs:224-238 | distinct item alignments have distinct Display names |
| Flex.AlignContentQualifiedNames | src/flex.rs:256-288 | every Debug name is "AlignContent::" followed by the Display name |
| Flex.AlignContentNames | src/flex.rs:256-288 | the printed Debug text is the quoted qualified name and differs from the Display text; the Display name reads back as the variant |
| Flex.AlignContentNamesDistinct | src/flex.rs:273-288 | distinct content alignments have distinct Display names |
| Flex.FlexGapNames | src/flex.rs:302-318 | the Debug text is "FlexGap::" followed by the Display text, which is "Column(…)" or "Row(…)" around the unit's Debug text |
| Flex.FlexGapDisplayInjective | src/flex.rs:311-318 | the Display text determines both the axis and the unit of a gap |
| Styles.DefaultAlignmentValues | src/styles.rs:459-471 | the default alignment is flex: a wrapping row, centred on every axis, with a two-pixel row gap |
| Styles.Properties | src/styles.rs:111-142 | rendering makes nine assignments, named margin, padding, width, height, min-width, min-height, max-width, max-height, background-color, in that order |
| Styles.PropertiesIgnoreAlignment | src/styles.rs:111-142 | the alignment never reaches the target: styles that differ only in alignment make the same assignments |
| Styles.DefaultStyleProperties | src/styles.rs:33-48 | the default style renders as margin auto, padding 2%, width 100%, height auto, all four bounds auto, background #FFFFFF |
| Styles.SpacingSettersChangeOneProperty | src/styles.rs:51-61 | a new padding or margin changes only its own assignment, to the unit's CSS text |
| Styles.SizeSettersChangeOneProperty | src/styles.rs:63-73 | a new width or height changes only its own assignment, to the length's CSS text |
| Styles.BoundSettersChangeOneProperty | src/styles.rs:75-97 | a new minimum or maximum bound changes only its own assignment, to the unit's CSS text |
| Styles.ColorSetterChangesOneProperty | src/styles.rs:105-109 | a new background colour changes only the background-color assignment, to the colour's CSS text |
| Styles.PuppetStyle.constructor | src/styles.rs:33-48 | a new style holds the default value |
| Styles.PuppetStyle.Copy | src/styles.rs:14 | a copy is a new object with the same value |
| Styles.PuppetStyle.Padding | src/styles.rs:51-55 | replaces the padding; every other field is unchanged |
| Styles.PuppetStyle.Margin | src/styles.rs:57-61 | replaces the margin; every other field is unchanged |
| Styles.PuppetStyle.Width | src/styles.rs:63-67 | replaces the width; every other field is unchanged |
| Styles.PuppetStyle.Height | src/styles.rs:69-73 | replaces the height; every other field is unchanged |
| Styles.PuppetStyle.MinWidth | src/styles.rs:75-79 | replaces the minimum width; every other field is unchanged |
| Styles.PuppetStyle.MinHeight | src/styles.rs:81-85 | replaces the minimum height; every other field is unchanged |
| Styles.PuppetStyle.MaxWidth | src/styles.rs:87-91 | replaces the maximum width; every other field is unchanged |
| Styles.PuppetStyle.MaxHeight | src/styles.rs:93-97 | replaces the maximum height; every other field is unchanged |
| Styles.PuppetStyle.AlignItems | src/styles.rs:99-103 | replaces the alignment; every other field is unchanged |
| Styles.PuppetStyle.BackgroundColor | src/styles.rs:105-109 | replaces the background colour; every other field is unchanged |
| Styles.PuppetStyle.ToHtml | src/styles.rs:111-142 | the nine assignments are applied in order up to the first one the target refuses; that refusal is returned, otherwise success; the target's identifier and children are unchanged |
| Styles.SetNext | src/styles.rs:113-139 | one `set_property` step: after an unbroken prefix of applied assignments, either the prefix grows by one or the run ends with the overall outcome |
| Dom.FirstRefused | src/styles.rs:111-142 | counts the assignments applied before the first refused one: all of them precede it and are accepted, and it is refused or is the end |
| Dom.FirstRefusedIs | src/styles.rs:111-142 | the three properties of the count determine it |
| Dom.ApplyOutcomeReports | src/styles.rs:111-142 | applying succeeds exactly when no assignment is refused; a failure names an assignment of the sequence that the target refuses |
| Dom.AppliedStep | src/styles.rs:113-139 | one assignment extends the applied prefix or ends the run with the overall outcome |
| Dom.Document.CreateElement | src/lib.rs:116 | `create_element` returns a fresh, unstyled element with the requested tag, or fails if the document refuses |
| Dom.Element.SetId | src/lib.rs:123-126 | `set_id` sets the identifier and changes nothing else |
| Dom.Element.SetProperty | src/styles.rs:113-115 | `set_property` appends the assignment to the element's style, or reports it refused and leaves the style as it was |
| Dom.Element.AppendChild | src/lib.rs:134 | appending adds exactly one child, the element with its identifier and style at that moment, or fails and changes nothing |
| Nodes.NodeId | src/lib.rs:96-106 | the identifier kept is none for the empty text and the text itself otherwise |
| Nodes.PuppetColumn.constructor | src/lib.rs:89-95 | a new column has no identifier, a fresh default style and no rows, and satisfies the invariant that a stored identifier is never empty |
| Nodes.PuppetColumn.ColumnId | src/lib.rs:96-106 | a non-empty identifier is stored; the empty one clears it; style and rows are unchanged; a stored identifier is never empty |
| Nodes.PuppetColumn.SetStyle | src/lib.rs:108-112 | the column gets its own copy of the style's value; identifier and rows are unchanged; the identifier stays non-empty |
| Nodes.PuppetColumn.ToHtml | src/lib.rs:114-137 | each fallible step (create, cast, style, append) returns its error at once and leaves the mount's children as they were; on success the mount gains exactly one new `div` carrying the column's identifier, never an empty one, and all nine style assignments |
| Nodes.PuppetRow.constructor | src/lib.rs:149-155 | a new row has no identifier, a fresh default style and no components, and satisfies the invariant that a stored identifier is never empty |
| Nodes.PuppetRow.ColumnId | src/lib.rs:156-166 | a non-empty identifier is stored; the empty one clears it; style and components are unchanged; a stored identifier is never empty |
| Nodes.PuppetRow.SetStyle | src/lib.rs:168-172 | the row gets its own copy of the style's value; identifier and components are unchanged; the identifier stays non-empty |

## Left out

- Start-up is not modelled: `main`, the allocator, the panic hook, the logger, and the lookup of the window, document and `#app` node (src/lib.rs 1-78). They are I/O against the browser.
- The browser is not modelled beyond `Dom`: `Dom.Document` and `Dom.Element` stand in for `web_sys`. Which calls they refuse is fixed by oracle constants, not by browser behaviour.
- The cast to `HtmlElement` is reduced to the oracle flag `isHtml`.
- The `trace!` diagnostics of `hex_color_constraints` (src/styles.rs 240-243, 252) are not modelled. They are logging only.
- Rendering of a column's rows (src/lib.rs 130-132) is not modelled:
  - no operation adds rows, so a column's rows are always empty;
  - the loop calls `PuppetRow::to_html` with no argument, where it takes a `document`, and passes its `JsValueResult<()>` result where `append_with_str_1` expects a `&str`.
- `PuppetRow::to_html` (src/lib.rs 174-197) is not modelled: it appends to an `app_node` it never declares, so it cannot be given a meaning.
- Nodes.PuppetColumn.ToHtml: no rows are appended inside the `div`, for the reason above.
- Components are data only. `src/components.rs` declares a component kind and a component record with no behaviour, and no module includes it; `Nodes.Component` records them.
- `Grid` alignment carries no data and has no behaviour in the source.
- The derived `PartialEq`/`Eq`, `PartialOrd`/`Ord` and `Debug` instances are not modelled; Dafny's structural equality stands in for `PartialEq`. The derived `Clone`/`Copy` of `PuppetStyle` is `Styles.PuppetStyle.Copy`.
- `PuppetColor`'s Debug and Display (src/styles.rs 293-331) are not modelled. They print the hex text with `{:?}`, and Rust's string escaping is not part of this model.
- Text.Quoted: no escaping is modelled. This is sound for every name it is applied to, since they are plain identifier characters.
- Text.ToLower: only ASCII letters are lower-cased. Rust's `to_lowercase` also maps other letters, and can change the length. The colour check gives the same answer either way: a non-ASCII character is above 'f', and its lower-case form is either non-ASCII too or an ASCII letter above 'f' (such as the 'k' of the Kelvin sign).
- Units.HexColorConstraints: the length test counts characters; Rust's `len` counts UTF-8 bytes. The two agree whenever every character is at most 'f', so the answer is the same.
- The setters' `&mut Self` return, used only for call chaining, is not modelled; each setter updates the object in place.
- Integer widths are kept by subset types (`U8`, `U16`); no arithmetic on them can overflow.
