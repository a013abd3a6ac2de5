/** The flex alignment enumerations of `src/flex.rs`. Each has a default and
    two hand-written name tables: Debug ("<Enum>::<Variant>") and Display
    ("<Variant>"). Both are printed with `{:?}` on a `&str`, so the text
    carries surrounding double quotes; `Name` and `QualifiedName` are the
    table entries, `Display` and `Debug` the printed text. */
module Flex {
  import opened Wrappers
  import opened Text
  import opened Units

  datatype FlexDirection = Row | RowReverse | Column | ColumnReverse {
    static function Default(): FlexDirection { FlexDirection.Row }

    function Name(): string {
      match this
      case Row => "Row"
      case RowReverse => "RowReverse"
      case Column => "Column"
      case ColumnReverse => "ColumnReverse"
    }

    function QualifiedName(): string {
      match this
      case Row => "FlexDirection::Row"
      case RowReverse => "FlexDirection::RowReverse"
      case Column => "FlexDirection::Column"
      case ColumnReverse => "FlexDirection::ColumnReverse"
    }

    function Display(): string { Quoted(Name()) }
    function Debug(): string { Quoted(QualifiedName()) }

    /** The variant whose Display name is `s`, if any. */
    static function FromName(s: string): Option<FlexDirection> {
      if s == "Row" then Some(FlexDirection.Row)
      else if s == "RowReverse" then Some(FlexDirection.RowReverse)
      else if s == "Column" then Some(FlexDirection.Column)
      else if s == "ColumnReverse" then Some(FlexDirection.ColumnReverse)
      else None
    }
  }

  datatype FlexWrap = Wrap | NoWrap | WrapReverse {
    static function Default(): FlexWrap { Wrap }

    function Name(): string {
      match this
      case Wrap => "Wrap"
      case NoWrap => "NoWrap"
      case WrapReverse => "WrapReverse"
    }

    function QualifiedName(): string {
      match this
      case Wrap => "FlexWrap::Wrap"
      case NoWrap => "FlexWrap::NoWrap"
      case WrapReverse => "FlexWrap::WrapReverse"
    }

    function Display(): string { Quoted(Name()) }
    function Debug(): string { Quoted(QualifiedName()) }

    /** The variant whose Display name is `s`, if any. */
    static function FromName(s: string): Option<FlexWrap> {
      if s == "Wrap" then Some(FlexWrap.Wrap)
      else if s == "NoWrap" then Some(FlexWrap.NoWrap)
      else if s == "WrapReverse" then Some(FlexWrap.WrapReverse)
      else None
    }
  }

  datatype JustifyContent = FlexStart | FlexEnd | Center | SpaceBetween | SpaceAround | SpaceEvenly {
    static function Default(): JustifyContent { JustifyContent.Center }

    function Name(): string {
      match this
      case FlexStart => "FlexStart"
      case FlexEnd => "FlexEnd"
      case Center => "Center"
      case SpaceBetween => "SpaceBetween"
      case SpaceAround => "SpaceAround"
      case SpaceEvenly => "SpaceEvenly"
    }

    function QualifiedName(): string {
      match this
      case FlexStart => "JustifyContent::FlexStart"
      case FlexEnd => "JustifyContent::FlexEnd"
      case Center => "JustifyContent::Center"
      case SpaceBetween => "JustifyContent::SpaceBetween"
      case SpaceAround => "JustifyContent::SpaceAround"
      case SpaceEvenly => "JustifyContent::SpaceEvenly"
    }

    function Display(): string { Quoted(Name()) }
    function Debug(): string { Quoted(QualifiedName()) }

    /** The variant whose Display name is `s`, if any. */
    static function FromName(s: string): Option<JustifyContent> {
      if s == "FlexStart" then Some(JustifyContent.FlexStart)
      else if s == "FlexEnd" then Some(JustifyContent.FlexEnd)
      else if s == "Center" then Some(JustifyContent.Center)
      else if s == "SpaceBetween" then Some(JustifyContent.SpaceBetween)
      else if s == "SpaceAround" then Some(JustifyContent.SpaceAround)
      else if s == "SpaceEvenly" then Some(JustifyContent.SpaceEvenly)
      else None
    }
  }

  datatype AlignSelf = Auto | FlexStart | FlexEnd | Center | Baseline | Stretch {
    static function Default(): AlignSelf { AlignSelf.Center }

    function Name(): string {
      match this
      case Auto => "Auto"
      case FlexStart => "FlexStart"
      case FlexEnd => "FlexEnd"
      case Center => "Center"
      case Baseline => "Baseline"
      case Stretch => "Stretch"
    }

    function QualifiedName(): string {
      match this
      case Auto => "AlignSelf::Auto"
      case FlexStart => "AlignSelf::FlexStart"
      case FlexEnd => "AlignSelf::FlexEnd"
      case Center => "AlignSelf::Center"
      case Baseline => "AlignSelf::Baseline"
      case Stretch => "AlignSelf::Stretch"
    }

    function Display(): string { Quoted(Name()) }
    function Debug(): string { Quoted(QualifiedName()) }

    /** The variant whose Display name is `s`, if any. */
    static function FromName(s: string): Option<AlignSelf> {
      if s == "Auto" then Some(AlignSelf.Auto)
      else if s == "FlexStart" then Some(AlignSelf.FlexStart)
      else if s == "FlexEnd" then Some(AlignSelf.FlexEnd)
      else if s == "Center" then Some(AlignSelf.Center)
      else if s == "Baseline" then Some(AlignSelf.Baseline)
      else if s == "Stretch" then Some(AlignSelf.Stretch)
      else None
    }
  }

  datatype AlignItems = FlexStart | FlexEnd | Center | Baseline | Stretch {
    static function Default(): AlignItems { AlignItems.Center }

    function Name(): string {
      match this
      case FlexStart => "FlexStart"
      case FlexEnd => "FlexEnd"
      case Center => "Center"
      case Baseline => "Baseline"
      case Stretch => "Stretch"
    }

    function QualifiedName(): string {
      match this
      case FlexStart => "AlignItems::FlexStart"
      case FlexEnd => "AlignItems::FlexEnd"
      case Center => "AlignItems::Center"
      case Baseline => "AlignItems::Baseline"
      case Stretch => "AlignItems::Stretch"
    }

    function Display(): string { Quoted(Name()) }
    function Debug(): string { Quoted(QualifiedName()) }

    /** The variant whose Display name is `s`, if any. */
    static function FromName(s: string): Option<AlignItems> {
      if s == "FlexStart" then Some(AlignItems.FlexStart)
      else if s == "FlexEnd" then Some(AlignItems.FlexEnd)
      else if s == "Center" then Some(AlignItems.Center)
      else if s == "Baseline" then Some(AlignItems.Baseline)
      else if s == "Stretch" then Some(AlignItems.Stretch)
      else None
    }
  }

  datatype AlignContent = FlexStart | FlexEnd | Center | Stretch | SpaceBetween | SpaceAround {
    static function Default(): AlignContent { AlignContent.Center }

    function Name(): string {
      match this
      case FlexStart => "FlexStart"
      case FlexEnd => "FlexEnd"
      case Center => "Center"
      case Stretch => "Stretch"
      case SpaceBetween => "SpaceBetween"
      case SpaceAround => "SpaceAround"
    }

    function QualifiedName(): string {
      match this
      case FlexStart => "AlignContent::FlexStart"
      case FlexEnd => "AlignContent::FlexEnd"
      case Center => "AlignContent::Center"
      case Stretch => "AlignContent::Stretch"
      case SpaceBetween => "AlignContent::SpaceBetween"
      case SpaceAround => "AlignContent::SpaceAround"
    }

    function Display(): string { Quoted(Name()) }
    function Debug(): string { Quoted(QualifiedName()) }

    /** The variant whose Display name is `s`, if any. */
    static function FromName(s: string): Option<AlignContent> {
      if s == "FlexStart" then Some(AlignContent.FlexStart)
      else if s == "FlexEnd" then Some(AlignContent.FlexEnd)
      else if s == "Center" then Some(AlignContent.Center)
      else if s == "Stretch" then Some(AlignContent.Stretch)
      else if s == "SpaceBetween" then Some(AlignContent.SpaceBetween)
      else if s == "SpaceAround" then Some(AlignContent.SpaceAround)
      else None
    }
  }

  /** The gap between flex children, along one axis. Its Debug and Display
      go through `format_args!`, so they carry no quotes. */
  datatype FlexGap = Column(columnGap: PuppetUnit) | Row(rowGap: PuppetUnit) {
    static function Default(): FlexGap { FlexGap.Row(Pixels(2)) }

    function Unit(): PuppetUnit {
      match this
      case Column(u) => u
      case Row(u) => u
    }

    function Display(): string {
      match this
      case Column(u) => "Column(" + UnitDebug(u) + ")"
      case Row(u) => "Row(" + UnitDebug(u) + ")"
    }

    function Debug(): string {
      match this
      case Column(u) => "FlexGap::Column(" + UnitDebug(u) + ")"
      case Row(u) => "FlexGap::Row(" + UnitDebug(u) + ")"
    }
  }

  // -----------------------------------------------------------------------
  // Defaults

  /** The defaults: a row that wraps, centred on every axis, with a row gap
      of two pixels, which serialises as "2px" rather than "auto". */
  lemma Defaults()
    ensures FlexDirection.Default() == FlexDirection.Row
    ensures FlexWrap.Default() == Wrap
    ensures JustifyContent.Default() == JustifyContent.Center
    ensures AlignSelf.Default() == AlignSelf.Center
    ensures AlignItems.Default() == AlignItems.Center
    ensures AlignContent.Default() == AlignContent.Center
    ensures FlexGap.Default() == FlexGap.Row(Pixels(2))
    ensures UnitToHtml(FlexGap.Default().Unit()) == "2px"
    ensures FlexGap.Default().Debug() == "FlexGap::Row(PuppetUnit::Pixels(2))"
  {
  }

  // -----------------------------------------------------------------------
  // The Debug table is the Display table qualified by the enum's name, the
  // two printed forms always differ, and the Display names are distinct.

  lemma FlexDirectionQualifiedNames(a: FlexDirection)
    ensures a.QualifiedName() == "FlexDirection::" + a.Name()
  {
    if a == FlexDirection.Row {
      assert "FlexDirection::Row" == "FlexDirection::" + "Row";
    } else if a == FlexDirection.RowReverse {
      assert "FlexDirection::RowReverse" == "FlexDirection::" + "RowReverse";
    } else if a == FlexDirection.Column {
      assert "FlexDirection::Column" == "FlexDirection::" + "Column";
    } else {
      assert "FlexDirection::ColumnReverse" == "FlexDirection::" + "ColumnReverse";
    }
  }

  lemma FlexDirectionNames(a: FlexDirection)
    ensures a.Debug() == Quoted("FlexDirection::" + a.Name()) && a.Debug() != a.Display()
    ensures FlexDirection.FromName(a.Name()) == Some(a)
  {
    FlexDirectionQualifiedNames(a);
    assert |a.Debug()| == |a.Display()| + 15;
  }

  lemma FlexDirectionNamesDistinct(a: FlexDirection, b: FlexDirection)
    ensures a.Name() == b.Name() ==> a == b
  {
    FlexDirectionNames(a);
    FlexDirectionNames(b);
  }

  lemma FlexWrapQualifiedNames(a: FlexWrap)
    ensures a.QualifiedName() == "FlexWrap::" + a.Name()
  {
    if a == FlexWrap.Wrap {
      assert "FlexWrap::Wrap" == "FlexWrap::" + "Wrap";
    } else if a == FlexWrap.NoWrap {
      assert "FlexWrap::NoWrap" == "FlexWrap::" + "NoWrap";
    } else {
      assert "FlexWrap::WrapReverse" == "FlexWrap::" + "WrapReverse";
    }
  }

  lemma FlexWrapNames(a: FlexWrap)
    ensures a.Debug() == Quoted("FlexWrap::" + a.Name()) && a.Debug() != a.Display()
    ensures FlexWrap.FromName(a.Name()) == Some(a)
  {
    FlexWrapQualifiedNames(a);
    assert |a.Debug()| == |a.Display()| + 10;
  }

  lemma FlexWrapNamesDistinct(a: FlexWrap, b: FlexWrap)
    ensures a.Name() == b.Name() ==> a == b
  {
    FlexWrapNames(a);
    FlexWrapNames(b);
  }

  lemma JustifyContentQualifiedNames(a: JustifyContent)
    ensures a.QualifiedName() == "JustifyContent::" + a.Name()
  {
    if a == JustifyContent.FlexStart {
      assert "JustifyContent::FlexStart" == "JustifyContent::" + "FlexStart";
    } else if a == JustifyContent.FlexEnd {
      assert "JustifyContent::FlexEnd" == "JustifyContent::" + "FlexEnd";
    } else if a == JustifyContent.Center {
      assert "JustifyContent::Center" == "JustifyContent::" + "Center";
    } else if a == JustifyContent.SpaceBetween {
      assert "JustifyContent::SpaceBetween" == "JustifyContent::" + "SpaceBetween";
    } else if a == JustifyContent.SpaceAround {
      assert "JustifyContent::SpaceAround" == "JustifyContent::" + "SpaceAround";
    } else {
      assert "JustifyContent::SpaceEvenly" == "JustifyContent::" + "SpaceEvenly";
    }
  }

  lemma JustifyContentNames(a: JustifyContent)
    ensures a.Debug() == Quoted("JustifyContent::" + a.Name()) && a.Debug() != a.Display()
    ensures JustifyContent.FromName(a.Name()) == Some(a)
  {
    JustifyContentQualifiedNames(a);
    assert |a.Debug()| == |a.Display()| + 16;
  }

  lemma JustifyContentNamesDistinct(a: JustifyContent, b: JustifyContent)
    ensures a.Name() == b.Name() ==> a == b
  {
    JustifyContentNames(a);
    JustifyContentNames(b);
  }

  lemma AlignSelfQualifiedNames(a: AlignSelf)
    ensures a.QualifiedName() == "AlignSelf::" + a.Name()
  {
    if a == AlignSelf.Auto {
      assert "AlignSelf::Auto" == "AlignSelf::" + "Auto";
    } else if a == AlignSelf.FlexStart {
      assert "AlignSelf::FlexStart" == "AlignSelf::" + "FlexStart";
    } else if a == AlignSelf.FlexEnd {
      assert "AlignSelf::FlexEnd" == "AlignSelf::" + "FlexEnd";
    } else if a == AlignSelf.Center {
      assert "AlignSelf::Center" == "AlignSelf::" + "Center";
    } else if a == AlignSelf.Baseline {
      assert "AlignSelf::Baseline" == "AlignSelf::" + "Baseline";
    } else {
      assert "AlignSelf::Stretch" == "AlignSelf::" + "Stretch";
    }
  }

  lemma AlignSelfNames(a: AlignSelf)
    ensures a.Debug() == Quoted("AlignSelf::" + a.Name()) && a.Debug() != a.Display()
    ensures AlignSelf.FromName(a.Name()) == Some(a)
  {
    AlignSelfQualifiedNames(a);
    assert |a.Debug()| == |a.Display()| + 11;
  }

  lemma AlignSelfNamesDistinct(a: AlignSelf, b: AlignSelf)
    ensures a.Name() == b.Name() ==> a == b
  {
    AlignSelfNames(a);
    AlignSelfNames(b);
  }

  lemma AlignItemsQualifiedNames(a: AlignItems)
    ensures a.QualifiedName() == "AlignItems::" + a.Name()
  {
    if a == AlignItems.FlexStart {
      assert "AlignItems::FlexStart" == "AlignItems::" + "FlexStart";
    } else if a == AlignItems.FlexEnd {
      assert "AlignItems::FlexEnd" == "AlignItems::" + "FlexEnd";
    } else if a == AlignItems.Center {
      assert "AlignItems::Center" == "AlignItems::" + "Center";
    } else if a == AlignItems.Baseline {
      assert "AlignItems::Baseline" == "AlignItems::" + "Baseline";
    } else {
      assert "AlignItems::Stretch" == "AlignItems::" + "Stretch";
    }
  }

  lemma AlignItemsNames(a: AlignItems)
    ensures a.Debug() == Quoted("AlignItems::" + a.Name()) && a.Debug() != a.Display()
    ensures AlignItems.FromName(a.Name()) == Some(a)
  {
    AlignItemsQualifiedNames(a);
    assert |a.Debug()| == |a.Display()| + 12;
  }

  lemma AlignItemsNamesDistinct(a: AlignItems, b: AlignItems)
    ensures a.Name() == b.Name() ==> a == b
  {
    AlignItemsNames(a);
    AlignItemsNames(b);
  }

  lemma AlignContentQualifiedNames(a: AlignContent)
    ensures a.QualifiedName() == "AlignContent::" + a.Name()
  {
    if a == AlignContent.FlexStart {
      assert "AlignContent::FlexStart" == "AlignContent::" + "FlexStart";
    } else if a == AlignContent.FlexEnd {
      assert "AlignContent::FlexEnd" == "AlignContent::" + "FlexEnd";
    } else if a == AlignContent.Center {
      assert "AlignContent::Center" == "AlignContent::" + "Center";
    } else if a == AlignContent.Stretch {
      assert "AlignContent::Stretch" == "AlignContent::" + "Stretch";
    } else if a == AlignContent.SpaceBetween {
      assert "AlignContent::SpaceBetween" == "AlignContent::" + "SpaceBetween";
    } else {
      assert "AlignContent::SpaceAround" == "AlignContent::" + "SpaceAround";
    }
  }

  lemma AlignContentNames(a: AlignContent)
    ensures a.Debug() == Quoted("AlignContent::" + a.Name()) && a.Debug() != a.Display()
    ensures AlignContent.FromName(a.Name()) == Some(a)
  {
    AlignContentQualifiedNames(a);
    assert |a.Debug()| == |a.Display()| + 14;
  }

  lemma AlignContentNamesDistinct(a: AlignContent, b: AlignContent)
    ensures a.Name() == b.Name() ==> a == b
  {
    AlignContentNames(a);
    AlignContentNames(b);
  }

  /** FlexGap's Debug is "FlexGap::" followed by its Display, and both embed
      the unit's Debug form. */
  lemma FlexGapNames(g: FlexGap)
    ensures g.Debug() == "FlexGap::" + g.Display()
    ensures g.Display() == (if g.Column? then "Column(" else "Row(") + UnitDebug(g.Unit()) + ")"
  {
    var d := UnitDebug(g.Unit());
    if g.Column? {
      assert "FlexGap::Column(" + d + ")" == "FlexGap::" + ("Column(" + d + ")");
    } else {
      assert "FlexGap::Row(" + d + ")" == "FlexGap::" + ("Row(" + d + ")");
    }
  }

  /** Distinct gaps display differently: the axis and the unit are both
      recoverable from the text. */
  lemma FlexGapDisplayInjective(g: FlexGap, h: FlexGap)
    ensures g.Display() == h.Display() ==> g == h
  {
    if g.Display() == h.Display() {
      var gd, hd := g.Display(), h.Display();
      assert g.Column? == h.Column? by {
        assert gd[0] == hd[0];
      }
      var p := if g.Column? then 7 else 4;
      assert gd[p..|gd| - 1] == UnitDebug(g.Unit());
      assert hd[p..|hd| - 1] == UnitDebug(h.Unit());
      UnitDebugInjective(g.Unit(), h.Unit());
    }
  }
}
