/**
 * The request document as an element tree: what the client builds with
 * SimpleXMLElement before it is serialised. An attribute value is either
 * text or the ISO 8601 rendering of a timestamp, which is kept symbolic.
 */
module Xml {
  import Php

  datatype AttrValue =
    | Text(s: string)
    | IsoDate(timestamp: Php.Value)  // `date(DATE_ISO8601, timestamp)`

  datatype Attr = Attr(name: string, value: AttrValue)

  datatype Element = Element(name: string, attrs: seq<Attr>, text: string, children: seq<Element>)

  /** A fresh element with the given name and text content and nothing else. */
  function NewElement(name: string, text: string): Element {
    Element(name, [], text, [])
  }

  /** `addAttribute`: appends one attribute. */
  function AddAttribute(e: Element, name: string, value: AttrValue): Element {
    e.(attrs := e.attrs + [Attr(name, value)])
  }

  /** `addChild`: appends one child element. */
  function AddChild(parent: Element, child: Element): Element {
    parent.(children := parent.children + [child])
  }

  /** The attribute names of a list, in order. */
  function Names(attrs: seq<Attr>): seq<string> {
    if attrs == [] then [] else [attrs[0].name] + Names(attrs[1..])
  }

  lemma {:induction false} NamesAppend(a: seq<Attr>, b: seq<Attr>)
    ensures Names(a + b) == Names(a) + Names(b)
  {
    if a != [] {
      assert (a + b)[1..] == a[1..] + b;
      NamesAppend(a[1..], b);
    } else {
      assert a + b == b;
    }
  }

  /** The names of a list are its attributes' names, position by position. */
  lemma {:induction false} NamesAt(a: seq<Attr>)
    ensures |Names(a)| == |a|
    ensures forall i :: 0 <= i < |a| ==> Names(a)[i] == a[i].name
  {
    if a != [] {
      NamesAt(a[1..]);
    }
  }
}
