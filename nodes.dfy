/** The layout tree: a column of rows, each owning a style and an
    optional identifier, and the column's render step, which creates a
    `div`, gives it the identifier and the style, and mounts it. */
module Nodes {
  import opened Wrappers
  import opened Dom
  import opened Styles

  /** The kinds of leaf a row may hold. */
  datatype ComponentType = Button | Paragraph | Heading | Image | Link

  /** A leaf of the tree; for images the text is descriptive. */
  datatype Component = Component(componentType: ComponentType, style: Style, text: string)

  /** The error text of a failed cast to a styleable element. */
  const CastMessage: string := "Could not convert `Element` to `HtmlElement`"

  /** The identifier a node keeps after `column_id(id)`: none for the empty
      text, the text itself otherwise. */
  function NodeId(id: string): (r: Option<string>)
    ensures r.None? <==> id == ""
    ensures r.Some? ==> r.value == id
  {
    if id == "" then None else Some(id)
  }

  class PuppetRow {
    var columnId: Option<string>
    var style: PuppetStyle
    var components: seq<Component>

    /** The field is private in the source and only `new` and `column_id`
        write it, so a stored identifier is never empty. */
    predicate Valid()
      reads this
    {
      columnId != Some("")
    }

    /** `PuppetRow::new`: no identifier, the default style, no components. */
    constructor ()
      ensures Valid()
      ensures columnId == None && fresh(style) && style.Value() == DefaultStyle()
      ensures components == []
    {
      columnId := None;
      style := new PuppetStyle();
      components := [];
    }

    /** `column_id`: a non-empty identifier is kept, the empty one clears
        any earlier identifier. */
    method ColumnId(id: string)
      requires Valid()
      modifies this
      ensures Valid()
      ensures columnId == NodeId(id)
      ensures style == old(style) && components == old(components)
    {
      if id != "" {
        columnId := Some(id);
      } else {
        columnId := None;
      }
    }

    /** `set_style`: the row gets its own copy of the given style. */
    method SetStyle(s: PuppetStyle)
      requires Valid()
      modifies this
      ensures Valid()
      ensures fresh(style) && style.Value() == s.Value()
      ensures columnId == old(columnId) && components == old(components)
    {
      style := s.Copy();
    }
  }

  class PuppetColumn {
    var columnId: Option<string>
    var style: PuppetStyle
    var rows: seq<PuppetRow>

    /** The field is private in the source and only `new` and `column_id`
        write it, so a stored identifier is never empty. */
    predicate Valid()
      reads this
    {
      columnId != Some("")
    }

    /** `PuppetColumn::new`: no identifier, the default style, no rows. */
    constructor ()
      ensures Valid()
      ensures columnId == None && fresh(style) && style.Value() == DefaultStyle()
      ensures rows == []
    {
      columnId := None;
      style := new PuppetStyle();
      rows := [];
    }

    /** `column_id`: a non-empty identifier is kept, the empty one clears
        any earlier identifier. */
    method ColumnId(id: string)
      requires Valid()
      modifies this
      ensures Valid()
      ensures columnId == NodeId(id)
      ensures style == old(style) && rows == old(rows)
    {
      if id != "" {
        columnId := Some(id);
      } else {
        columnId := None;
      }
    }

    /** `set_style`: the column gets its own copy of the given style. */
    method SetStyle(s: PuppetStyle)
      requires Valid()
      modifies this
      ensures Valid()
      ensures fresh(style) && style.Value() == s.Value()
      ensures columnId == old(columnId) && rows == old(rows)
    {
      style := s.Copy();
    }

    /** `to_html`: create a `div`, cast it to a styleable element, give it
        the column's identifier, apply the column's style and append it to
        `mount`. Each fallible step returns its error at once; the mount
        gains a child only when every earlier step succeeded, and the child
        it gains is fully styled. */
    method ToHtml(document: Document, mount: Element) returns (r: Outcome<JsError>)
      requires Valid()
      modifies mount
      ensures mount.id == old(mount.id) && mount.style == old(mount.style)
      ensures document.refusesCreate ==>
        r == Fail(CreateRefused("div")) && mount.children == old(mount.children)
      ensures !document.refusesCreate && !document.createsHtml ==>
        r == Fail(CastFailed(CastMessage)) && mount.children == old(mount.children)
      ensures !document.refusesCreate && document.createsHtml
              && ApplyOutcome(Properties(style.Value()), document.rejected).Fail? ==>
        r == ApplyOutcome(Properties(style.Value()), document.rejected)
        && mount.children == old(mount.children)
      ensures !document.refusesCreate && document.createsHtml
              && ApplyOutcome(Properties(style.Value()), document.rejected).Pass? && mount.refusesAppend ==>
        r == Fail(AppendRefused) && mount.children == old(mount.children)
      ensures !document.refusesCreate && document.createsHtml
              && ApplyOutcome(Properties(style.Value()), document.rejected).Pass? && !mount.refusesAppend ==>
        r == Pass && |mount.children| == |old(mount.children)| + 1
        && mount.children[..|old(mount.children)|] == old(mount.children)
        && fresh(mount.children[|old(mount.children)|].node)
        && mount.children[|old(mount.children)|].node.tag == "div"
        && mount.children[|old(mount.children)|].id == columnId
        && mount.children[|old(mount.children)|].id != Some("")
        && mount.children[|old(mount.children)|].style == Properties(style.Value())
    {
      var created := document.CreateElement("div");
      if created.Err? {
        return Fail(created.error);
      }
      var div := created.value;
      if !div.isHtml {
        return Fail(CastFailed(CastMessage));
      }
      if columnId.Some? {
        div.SetId(columnId.value);
      }
      ghost var ps := Properties(style.Value());
      r := style.ToHtml(div);
      if r.Fail? {
        return;
      }
      assert div.style == ps by {
        assert FirstRefused(ps, div.rejected) == |ps|;
      }
      ghost var before := mount.children;
      r := mount.AppendChild(div);
      assert r.Pass? ==> mount.children[..|before|] == before;
    }
  }
}
