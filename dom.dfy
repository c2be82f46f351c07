/**
 * The fragment of the DOM the script manager touches: a script element's
 * attribute list (`element.attributes`, in order, one entry per name) and its
 * text content, with `getAttribute` and `setAttribute`.
 */
module Dom {
  import opened Js

  datatype Attr = Attr(name: string, value: string)

  /** `getAttribute(name)`, `None` standing for `null`. */
  function GetAttr(attrs: seq<Attr>, name: string): Option<string>
    decreases |attrs|
  {
    if |attrs| == 0 then None
    else if attrs[0].name == name then Some(attrs[0].value)
    else GetAttr(attrs[1..], name)
  }

  /** The DOM keeps at most one attribute per name. */
  predicate UniqueNames(attrs: seq<Attr>) {
    forall i, j :: 0 <= i < j < |attrs| ==> attrs[i].name != attrs[j].name
  }

  /**
   * `setAttribute(name, value)`: an existing attribute keeps its place and
   * takes the new value; a new one is appended.
   */
  function SetAttr(attrs: seq<Attr>, name: string, value: string): (r: seq<Attr>)
    ensures forall n :: GetAttr(r, n) == if n == name then Some(value) else GetAttr(attrs, n)
    decreases |attrs|
  {
    if |attrs| == 0 then [Attr(name, value)]
    else if attrs[0].name == name then [Attr(name, value)] + attrs[1..]
    else [attrs[0]] + SetAttr(attrs[1..], name, value)
  }

  /** Setting an attribute the element does not have appends it. */
  lemma {:induction false} SetAttrAppends(attrs: seq<Attr>, name: string, value: string)
    requires GetAttr(attrs, name).None?
    ensures SetAttr(attrs, name, value) == attrs + [Attr(name, value)]
    decreases |attrs|
  {
    if |attrs| > 0 {
      SetAttrAppends(attrs[1..], name, value);
      assert attrs == [attrs[0]] + attrs[1..];
    }
  }

  lemma {:induction false} UniqueTail(attrs: seq<Attr>)
    requires |attrs| > 0 && UniqueNames(attrs)
    ensures UniqueNames(attrs[1..])
    ensures GetAttr(attrs[1..], attrs[0].name).None?
  {
    NoNameNoAttr(attrs[1..], attrs[0].name);
  }

  lemma {:induction false} NoNameNoAttr(attrs: seq<Attr>, name: string)
    requires forall a :: a in attrs ==> a.name != name
    ensures GetAttr(attrs, name).None?
    decreases |attrs|
  {
    if |attrs| > 0 {
      NoNameNoAttr(attrs[1..], name);
    }
  }

  lemma {:induction false} AbsentName(attrs: seq<Attr>, name: string)
    requires GetAttr(attrs, name).None?
    ensures forall a :: a in attrs ==> a.name != name
    decreases |attrs|
  {
    if |attrs| > 0 {
      AbsentName(attrs[1..], name);
    }
  }

  /** `setAttribute` keeps one attribute per name. */
  lemma {:induction false} SetAttrUnique(attrs: seq<Attr>, name: string, value: string)
    requires UniqueNames(attrs)
    ensures UniqueNames(SetAttr(attrs, name, value))
    decreases |attrs|
  {
    if |attrs| > 0 {
      UniqueTail(attrs);
      if attrs[0].name == name {
        AbsentName(attrs[1..], name);
      } else {
        SetAttrUnique(attrs[1..], name, value);
        var rest := SetAttr(attrs[1..], name, value);
        assert GetAttr(rest, attrs[0].name).None?;
        AbsentName(rest, attrs[0].name);
      }
    }
  }

  /** The attribute list without any attribute called `name`, order kept. */
  function Without(attrs: seq<Attr>, name: string): (r: seq<Attr>)
    ensures forall n :: GetAttr(r, n) == if n == name then None else GetAttr(attrs, n)
    decreases |attrs|
  {
    if |attrs| == 0 then []
    else if attrs[0].name == name then Without(attrs[1..], name)
    else [attrs[0]] + Without(attrs[1..], name)
  }

  lemma {:induction false} WithoutUnique(attrs: seq<Attr>, name: string)
    requires UniqueNames(attrs)
    ensures UniqueNames(Without(attrs, name))
    decreases |attrs|
  {
    if |attrs| > 0 {
      UniqueTail(attrs);
      WithoutUnique(attrs[1..], name);
      if attrs[0].name != name {
        var rest := Without(attrs[1..], name);
        assert GetAttr(rest, attrs[0].name).None?;
        AbsentName(rest, attrs[0].name);
      }
    }
  }

  lemma {:induction false} WithoutSnoc(attrs: seq<Attr>, a: Attr, name: string)
    ensures Without(attrs + [a], name) == Without(attrs, name) + (if a.name == name then [] else [a])
    decreases |attrs|
  {
    if |attrs| == 0 {
      assert [a][1..] == [];
    } else {
      assert (attrs + [a])[1..] == attrs[1..] + [a];
      WithoutSnoc(attrs[1..], a, name);
    }
  }

  /** The value of a script element: its attributes and its text content. */
  datatype ScriptValue = ScriptValue(attrs: seq<Attr>, text: string)

  /** An element's attribute list: the DOM keeps one attribute per name. */
  type AttrList = attrs: seq<Attr> | UniqueNames(attrs)

  /** A `<script>` element. */
  class Script {
    var attrs: AttrList
    var text: string

    /** `document.createElement('script')`. */
    constructor ()
      ensures attrs == [] && text == ""
    {
      attrs := [];
      text := "";
    }

    function Value(): ScriptValue
      reads this
    {
      ScriptValue(attrs, text)
    }

    method SetAttribute(name: string, value: string)
      modifies this
      ensures attrs == SetAttr(old(attrs), name, value)
      ensures text == old(text)
    {
      SetAttrUnique(attrs, name, value);
      attrs := SetAttr(attrs, name, value);
    }
  }
}
