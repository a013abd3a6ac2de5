/** The rendering target, as the core sees it: a document that creates
    elements and elements whose identifier, style properties and children
    are set one call at a time. Every call that the browser may refuse is
    fallible here too; whether it is refused is fixed by oracle constants
    chosen when the document and its elements are made, since the
    browser's own behaviour is not part of this model. */
module Dom {
  import opened Wrappers

  /** A CSS property assignment: the property's name and its value. */
  type Property = (string, string)

  /** The errors the target reports (a `JsValue` in the source). */
  datatype JsError =
    | CreateRefused(tag: string)
    | CastFailed(message: string)
    | PropertyRefused(name: string, value: string)
    | AppendRefused

  /** An appended child, with the identifier and style it had at the
      moment it was appended. */
  datatype Child = Child(node: Element, id: Option<string>, style: seq<Property>)

  class Element {
    const tag: string
    /** Whether the element can be treated as a styleable `HtmlElement`. */
    const isHtml: bool
    /** The property assignments this element refuses. */
    const rejected: set<Property>
    /** Whether appending a child to this element fails. */
    const refusesAppend: bool

    var id: Option<string>
    /** The style properties applied so far, in order. */
    var style: seq<Property>
    var children: seq<Child>

    constructor (tag: string, isHtml: bool, rejected: set<Property>, refusesAppend: bool)
      ensures this.tag == tag && this.isHtml == isHtml
      ensures this.rejected == rejected && this.refusesAppend == refusesAppend
      ensures id == None && style == [] && children == []
    {
      this.tag := tag;
      this.isHtml := isHtml;
      this.rejected := rejected;
      this.refusesAppend := refusesAppend;
      id := None;
      style := [];
      children := [];
    }

    /** `Element::set_id`, which cannot fail. */
    method SetId(newId: string)
      modifies this
      ensures id == Some(newId)
      ensures style == old(style) && children == old(children)
    {
      id := Some(newId);
    }

    /** `CssStyleDeclaration::set_property`: applied unless refused. */
    method SetProperty(name: string, value: string) returns (r: Outcome<JsError>)
      modifies this
      ensures (name, value) in rejected ==> r == Fail(PropertyRefused(name, value)) && style == old(style)
      ensures (name, value) !in rejected ==> r == Pass && style == old(style) + [(name, value)]
      ensures id == old(id) && children == old(children)
    {
      if (name, value) in rejected {
        r := Fail(PropertyRefused(name, value));
      } else {
        style := style + [(name, value)];
        r := Pass;
      }
    }

    /** `ParentNode::append_with_node_1`: records the child as it is at this
        moment. */
    method AppendChild(child: Element) returns (r: Outcome<JsError>)
      modifies this
      ensures refusesAppend ==> r == Fail(AppendRefused) && children == old(children)
      ensures !refusesAppend ==>
        r == Pass && children == old(children) + [Child(child, old(child.id), old(child.style))]
      ensures id == old(id) && style == old(style)
    {
      if refusesAppend {
        r := Fail(AppendRefused);
      } else {
        children := children + [Child(child, child.id, child.style)];
        r := Pass;
      }
    }
  }

  class Document {
    const refusesCreate: bool
    /** The behaviour of the elements this document creates. */
    const createsHtml: bool
    const rejected: set<Property>
    const refusesAppend: bool

    constructor (refusesCreate: bool, createsHtml: bool, rejected: set<Property>, refusesAppend: bool)
      ensures this.refusesCreate == refusesCreate && this.createsHtml == createsHtml
      ensures this.rejected == rejected && this.refusesAppend == refusesAppend
    {
      this.refusesCreate := refusesCreate;
      this.createsHtml := createsHtml;
      this.rejected := rejected;
      this.refusesAppend := refusesAppend;
    }

    /** `Document::create_element`: a new, detached, unstyled element. */
    method CreateElement(tag: string) returns (r: Result<Element, JsError>)
      ensures refusesCreate ==> r == Err(CreateRefused(tag))
      ensures !refusesCreate ==> r.Ok? && fresh(r.value)
      ensures r.Ok? ==> var e := r.value;
        && e.tag == tag && e.isHtml == createsHtml
        && e.rejected == rejected && e.refusesAppend == refusesAppend
        && e.id == None && e.style == [] && e.children == []
    {
      if refusesCreate {
        r := Err(CreateRefused(tag));
      } else {
        var e := new Element(tag, createsHtml, rejected, refusesAppend);
        r := Ok(e);
      }
    }
  }

  /** The number of assignments of `ps` a target applies before the first
      one it refuses: all of them when it refuses none. */
  function FirstRefused(ps: seq<Property>, rejected: set<Property>): (k: nat)
    ensures k <= |ps|
    ensures forall j :: 0 <= j < k ==> ps[j] !in rejected
    ensures k < |ps| ==> ps[k] in rejected
  {
    if ps == [] || ps[0] in rejected then 0 else 1 + FirstRefused(ps[1..], rejected)
  }

  /** The three properties above determine `FirstRefused`. */
  lemma FirstRefusedIs(ps: seq<Property>, rejected: set<Property>, k: nat)
    requires k <= |ps|
    requires forall j :: 0 <= j < k ==> ps[j] !in rejected
    requires k < |ps| ==> ps[k] in rejected
    ensures FirstRefused(ps, rejected) == k
  {
  }

  /** What applying `ps` in order, stopping at the first refusal, returns:
      the error of the first refused assignment, or success. */
  function ApplyOutcome(ps: seq<Property>, rejected: set<Property>): (r: Outcome<JsError>)
  {
    var k := FirstRefused(ps, rejected);
    if k == |ps| then Pass else Fail(PropertyRefused(ps[k].0, ps[k].1))
  }

  /** Applying succeeds exactly when no assignment is refused; otherwise
      it reports an assignment of `ps` that the target refuses. */
  lemma ApplyOutcomeReports(ps: seq<Property>, rejected: set<Property>)
    ensures ApplyOutcome(ps, rejected).Pass? <==> forall j :: 0 <= j < |ps| ==> ps[j] !in rejected
    ensures var r := ApplyOutcome(ps, rejected);
      r.Fail? ==>
        r.error.PropertyRefused? && (r.error.name, r.error.value) in ps && (r.error.name, r.error.value) in rejected
  {
  }

  /** Applying `ps` in order to a target whose style was `base` has so
      far applied exactly the first `n` assignments, and none of them was
      refused. */
  ghost predicate AppliedPrefix(ps: seq<Property>, rejected: set<Property>, base: seq<Property>,
                                after: seq<Property>, n: nat)
  {
    n <= FirstRefused(ps, rejected) && after == base + ps[..n]
  }

  /** Applying `ps` in order to a target whose style was `base` is over:
      the outcome is `ApplyOutcome` and every assignment before the first
      refused one, and no other, was applied. */
  ghost predicate AppliedAll(ps: seq<Property>, rejected: set<Property>, base: seq<Property>,
                             after: seq<Property>, r: Outcome<JsError>)
  {
    r == ApplyOutcome(ps, rejected) && after == base + ps[..FirstRefused(ps, rejected)]
  }

  /** One assignment of a sequence: if every assignment before `ps[i]` was
      applied, then `ps[i]` is either the first refused one, which decides
      the outcome, or it is applied as well. */
  lemma AppliedStep(ps: seq<Property>, rejected: set<Property>, base: seq<Property>,
                    after: seq<Property>, r: Outcome<JsError>, i: nat)
    requires i < |ps| && i <= FirstRefused(ps, rejected)
    requires ps[i] in rejected ==> r == Fail(PropertyRefused(ps[i].0, ps[i].1)) && after == base + ps[..i]
    requires ps[i] !in rejected ==> r == Pass && after == base + ps[..i] + [ps[i]]
    ensures r.Fail? ==> r == ApplyOutcome(ps, rejected) && after == base + ps[..FirstRefused(ps, rejected)]
    ensures r.Pass? ==> i + 1 <= FirstRefused(ps, rejected) && after == base + ps[..i + 1]
    ensures r.Pass? && i + 1 == |ps| ==>
      r == ApplyOutcome(ps, rejected) && after == base + ps[..FirstRefused(ps, rejected)]
  {
    if ps[i] in rejected {
      FirstRefusedIs(ps, rejected, i);
    } else {
      assert ps[..i + 1] == ps[..i] + [ps[i]];
    }
  }
}
