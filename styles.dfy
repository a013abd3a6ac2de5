/** The style aggregate of `src/styles.rs`: the alignment description, the
    style value with its defaults, the builder whose setters replace one
    field each, and the render step that applies nine CSS properties to a
    target in a fixed order. */
module Styles {
  import opened Wrappers
  import opened Units
  import opened Flex
  import opened Dom

  /** How children are laid out. `Grid` carries no data and no behaviour. */
  datatype PuppetAlignment =
    | FlexLayout(
        flexDirection: FlexDirection,
        flexWrap: FlexWrap,
        justifyContent: JustifyContent,
        alignSelf: AlignSelf,
        alignItems: AlignItems,
        alignContent: AlignContent,
        gap: FlexGap)
    | Grid

  /** `PuppetAlignment::default`: flex, every part at its own default. */
  function DefaultAlignment(): PuppetAlignment
  {
    FlexLayout(FlexDirection.Default(), FlexWrap.Default(), JustifyContent.Default(),
               AlignSelf.Default(), AlignItems.Default(), AlignContent.Default(),
               FlexGap.Default())
  }

  /** The default alignment: a wrapping row, centred on every axis, with a
      two-pixel row gap. */
  lemma DefaultAlignmentValues()
    ensures DefaultAlignment() == FlexLayout(FlexDirection.Row, Wrap, JustifyContent.Center,
      AlignSelf.Center, AlignItems.Center, AlignContent.Center, FlexGap.Row(Pixels(2)))
  {
    Defaults();
  }

  /** The value of a `PuppetStyle`. */
  datatype Style = Style(
    padding: PuppetUnit,
    margin: PuppetUnit,
    width: PuppetLength,
    height: PuppetLength,
    minWidth: PuppetUnit,  // based on screen pixels, as are the next three
    maxWidth: PuppetUnit,
    minHeight: PuppetUnit,
    maxHeight: PuppetUnit,
    alignment: PuppetAlignment,  // how children are aligned inside the node
    backgroundColor: PuppetColor)

  /** `PuppetStyle::default`. */
  function DefaultStyle(): Style
  {
    Style(
      padding := Percentage(2),
      margin := Pixels(0),
      width := PuppetLength.Full,
      height := Normal,
      minWidth := Pixels(0),
      maxWidth := Pixels(0),
      minHeight := Pixels(0),
      maxHeight := Pixels(0),
      alignment := DefaultAlignment(),
      backgroundColor := Hex("FFFFFF"))
  }

  /** The CSS properties `to_html` sets, in the order it sets them. */
  const CssOrder: seq<string> :=
    ["margin", "padding", "width", "height", "min-width", "min-height",
     "max-width", "max-height", "background-color"]

  /** The nine assignments `to_html` makes for a style, in order. The
      alignment has no entry. */
  function Properties(s: Style): (ps: seq<Property>)
    ensures |ps| == |CssOrder|
    ensures forall i :: 0 <= i < |ps| ==> ps[i].0 == CssOrder[i]
  {
    [("margin", UnitToHtml(s.margin)),
     ("padding", UnitToHtml(s.padding)),
     ("width", LengthToHtml(s.width)),
     ("height", LengthToHtml(s.height)),
     ("min-width", UnitToHtml(s.minWidth)),
     ("min-height", UnitToHtml(s.minHeight)),
     ("max-width", UnitToHtml(s.maxWidth)),
     ("max-height", UnitToHtml(s.maxHeight)),
     ("background-color", ColorToHtml(s.backgroundColor))]
  }

  /** The alignment never reaches the target: two styles that differ only
      in their alignment make the same assignments. */
  lemma PropertiesIgnoreAlignment(s: Style, a: PuppetAlignment)
    ensures Properties(s.(alignment := a)) == Properties(s)
  {
  }

  /** Replacing the margin or the padding changes exactly its own
      assignment and leaves the other eight as they were. */
  lemma SpacingSettersChangeOneProperty(s: Style, u: PuppetUnit)
    ensures Properties(s.(margin := u)) == Properties(s)[0 := ("margin", UnitToHtml(u))]
    ensures Properties(s.(padding := u)) == Properties(s)[1 := ("padding", UnitToHtml(u))]
  {
  }

  /** Likewise for the width and the height. */
  lemma SizeSettersChangeOneProperty(s: Style, l: PuppetLength)
    ensures Properties(s.(width := l)) == Properties(s)[2 := ("width", LengthToHtml(l))]
    ensures Properties(s.(height := l)) == Properties(s)[3 := ("height", LengthToHtml(l))]
  {
  }

  /** Likewise for the four size bounds. */
  lemma BoundSettersChangeOneProperty(s: Style, u: PuppetUnit)
    ensures Properties(s.(minWidth := u)) == Properties(s)[4 := ("min-width", UnitToHtml(u))]
    ensures Properties(s.(minHeight := u)) == Properties(s)[5 := ("min-height", UnitToHtml(u))]
    ensures Properties(s.(maxWidth := u)) == Properties(s)[6 := ("max-width", UnitToHtml(u))]
    ensures Properties(s.(maxHeight := u)) == Properties(s)[7 := ("max-height", UnitToHtml(u))]
  {
  }

  /** Likewise for the background colour. */
  lemma ColorSetterChangesOneProperty(s: Style, c: PuppetColor)
    ensures Properties(s.(backgroundColor := c)) ==
      Properties(s)[8 := ("background-color", ColorToHtml(c))]
  {
  }

  /** What the default style sets. */
  lemma DefaultStyleProperties()
    ensures Properties(DefaultStyle()) ==
      [("margin", "auto"), ("padding", "2%"), ("width", "100%"), ("height", "auto"),
       ("min-width", "auto"), ("min-height", "auto"), ("max-width", "auto"),
       ("max-height", "auto"), ("background-color", "#FFFFFF")]
  {
    HexWhiteAccepted();
    assert UnitToHtml(Pixels(0)) == "auto";
    assert UnitToHtml(Percentage(2)) == "2%";
    assert LengthToHtml(PuppetLength.Full) == "100%";
    assert LengthToHtml(Normal) == "auto";
  }

  /** The style builder. Each setter replaces one field and leaves the
      other nine as they were. */
  class PuppetStyle {
    var padding: PuppetUnit
    var margin: PuppetUnit
    var width: PuppetLength
    var height: PuppetLength
    var minWidth: PuppetUnit
    var maxWidth: PuppetUnit
    var minHeight: PuppetUnit
    var maxHeight: PuppetUnit
    var alignment: PuppetAlignment
    var backgroundColor: PuppetColor

    function Value(): Style
      reads this
    {
      Style(padding, margin, width, height, minWidth, maxWidth, minHeight, maxHeight,
            alignment, backgroundColor)
    }

    /** `PuppetStyle::default`. */
    constructor ()
      ensures Value() == DefaultStyle()
    {
      var d := DefaultStyle();
      padding, margin, width, height := d.padding, d.margin, d.width, d.height;
      minWidth, maxWidth, minHeight, maxHeight := d.minWidth, d.maxWidth, d.minHeight, d.maxHeight;
      alignment, backgroundColor := d.alignment, d.backgroundColor;
    }

    /** The derived `Clone`/`Copy`: a new builder holding the same value. */
    method Copy() returns (c: PuppetStyle)
      ensures fresh(c) && c.Value() == Value()
    {
      c := new PuppetStyle();
      c.padding, c.margin, c.width, c.height := padding, margin, width, height;
      c.minWidth, c.maxWidth, c.minHeight, c.maxHeight := minWidth, maxWidth, minHeight, maxHeight;
      c.alignment, c.backgroundColor := alignment, backgroundColor;
    }

    method Padding(unit: PuppetUnit)
      modifies this
      ensures Value() == old(Value()).(padding := unit)
    {
      padding := unit;
    }

    method Margin(unit: PuppetUnit)
      modifies this
      ensures Value() == old(Value()).(margin := unit)
    {
      margin := unit;
    }

    method Width(length: PuppetLength)
      modifies this
      ensures Value() == old(Value()).(width := length)
    {
      width := length;
    }

    method Height(length: PuppetLength)
      modifies this
      ensures Value() == old(Value()).(height := length)
    {
      height := length;
    }

    method MinWidth(unit: PuppetUnit)
      modifies this
      ensures Value() == old(Value()).(minWidth := unit)
    {
      minWidth := unit;
    }

    method MinHeight(unit: PuppetUnit)
      modifies this
      ensures Value() == old(Value()).(minHeight := unit)
    {
      minHeight := unit;
    }

    method MaxWidth(unit: PuppetUnit)
      modifies this
      ensures Value() == old(Value()).(maxWidth := unit)
    {
      maxWidth := unit;
    }

    method MaxHeight(unit: PuppetUnit)
      modifies this
      ensures Value() == old(Value()).(maxHeight := unit)
    {
      maxHeight := unit;
    }

    /** `align_items` replaces the whole alignment, not only its
        align-items part. */
    method AlignItems(newAlignment: PuppetAlignment)
      modifies this
      ensures Value() == old(Value()).(alignment := newAlignment)
    {
      alignment := newAlignment;
    }

    method BackgroundColor(color: PuppetColor)
      modifies this
      ensures Value() == old(Value()).(backgroundColor := color)
    {
      backgroundColor := color;
    }

    /** `PuppetStyle::to_html`: the nine assignments of `Properties`, one at
        a time, stopping at the first the target refuses and returning its
        error. Assignments made before it stay applied. */
    method ToHtml(target: Element) returns (r: Outcome<JsError>)
      modifies target
      ensures var ps := Properties(Value());
        target.style == old(target.style) + ps[..FirstRefused(ps, target.rejected)]
      ensures r == ApplyOutcome(Properties(Value()), target.rejected)
      ensures target.id == old(target.id) && target.children == old(target.children)
    {
      var ps := Properties(Value());
      ghost var base := target.style;
      assert AppliedPrefix(ps, target.rejected, base, target.style, 0) by {
        assert base + ps[..0] == base;
      }
      r := SetNext(target, ps, base, 0);
      if r.Fail? { return; }
      r := SetNext(target, ps, base, 1);
      if r.Fail? { return; }
      r := SetNext(target, ps, base, 2);
      if r.Fail? { return; }
      r := SetNext(target, ps, base, 3);
      if r.Fail? { return; }
      r := SetNext(target, ps, base, 4);
      if r.Fail? { return; }
      r := SetNext(target, ps, base, 5);
      if r.Fail? { return; }
      r := SetNext(target, ps, base, 6);
      if r.Fail? { return; }
      r := SetNext(target, ps, base, 7);
      if r.Fail? { return; }
      r := SetNext(target, ps, base, 8);
    }
  }

  /** One `set_property(name, value)?` of `to_html`, stated against the
      whole sequence `ps` of assignments it belongs to. */
  method SetNext(target: Element, ps: seq<Property>, ghost base: seq<Property>, i: nat)
    returns (r: Outcome<JsError>)
    requires i < |ps|
    requires AppliedPrefix(ps, target.rejected, base, target.style, i)
    modifies target
    ensures r.Pass? ==> AppliedPrefix(ps, target.rejected, base, target.style, i + 1)
    ensures r.Fail? || i + 1 == |ps| ==> AppliedAll(ps, target.rejected, base, target.style, r)
    ensures target.id == old(target.id) && target.children == old(target.children)
  {
    r := target.SetProperty(ps[i].0, ps[i].1);
    AppliedStep(ps, target.rejected, base, target.style, r, i);
  }
}
