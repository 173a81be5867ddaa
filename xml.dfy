/**
 * The part of lxml's element tree the serialisers use: an element has a tag,
 * attributes, an optional text and an ordered list of children.
 *
 * Attributes are a map: the serialisers create them through Python 2 keyword
 * arguments, whose order is not defined, so only presence and value matter.
 */
module Xml {
  import opened Strings

  datatype Element = Element(
    tag: string,
    attrs: map<string, string>,
    text: Option<string>,
    children: seq<Element>)

  /** `etree.Element(tag, **attrs)`: no text and no children yet. */
  function NewElement(tag: string, attrs: map<string, string>): (e: Element)
    ensures e.tag == tag && e.attrs == attrs && e.text == None && e.children == []
  {
    Element(tag, attrs, None, [])
  }

  /** `e.attrib.get(name)` */
  function Attr(e: Element, name: string): Option<string> {
    if name in e.attrs then Some(e.attrs[name]) else None
  }

  /** `e.attrib[name] = value` */
  function SetAttr(e: Element, name: string, value: string): (r: Element)
    ensures Attr(r, name) == Some(value)
    ensures forall n :: n != name ==> Attr(r, n) == Attr(e, n)
    ensures r.tag == e.tag && r.text == e.text && r.children == e.children
  {
    e.(attrs := e.attrs[name := value])
  }

  /** `e.append(child)` */
  function Append(e: Element, child: Element): (r: Element)
    ensures r.children == e.children + [child]
    ensures r.tag == e.tag && r.attrs == e.attrs && r.text == e.text
  {
    e.(children := e.children + [child])
  }

  /** `e.insert(i, child)`: like Python's list insert, an index past the end appends. */
  function Insert(e: Element, i: nat, child: Element): (r: Element)
    ensures |r.children| == |e.children| + 1
    ensures i <= |e.children| ==> r.children == e.children[..i] + [child] + e.children[i..]
    ensures i > |e.children| ==> r.children == e.children + [child]
    ensures r.tag == e.tag && r.attrs == e.attrs && r.text == e.text
  {
    var j := if i <= |e.children| then i else |e.children|;
    e.(children := e.children[..j] + [child] + e.children[j..])
  }

  /** `e.find(tag)`: the first child with that tag. */
  function Find(e: Element, tag: string): Option<Element> {
    FindIn(e.children, tag)
  }

  function FindIn(children: seq<Element>, tag: string): (r: Option<Element>)
    ensures r.Some? ==> r.value in children && r.value.tag == tag
    ensures r.None? <==> forall k :: 0 <= k < |children| ==> children[k].tag != tag
    decreases |children|
  {
    if children == [] then None
    else if children[0].tag == tag then Some(children[0])
    else FindIn(children[1..], tag)
  }

  /** `len(e.findall(tag))`: how many children carry that tag. */
  function CountTag(children: seq<Element>, tag: string): nat
    decreases |children|
  {
    if children == [] then 0
    else CountTag(children[..|children| - 1], tag) + (if children[|children| - 1].tag == tag then 1 else 0)
  }

  /** An element with only a text, such as `<id>12</id>`. */
  function Leaf(tag: string, text: string): (e: Element)
    ensures e.tag == tag && e.attrs == map[] && e.text == Some(text) && e.children == []
  {
    Element(tag, map[], Some(text), [])
  }
}
