/**
 * The slice of the browser DOM that the sheet controls touch.  An element is a value
 * with a tag name, a class list, its `data-*` attributes (keyed by their dataset names,
 * so `data-hover-action` is `"hoverAction"`) and its element children.  An element of
 * a sheet is identified by its path: the child indices leading to it from the sheet's
 * root element.  The parent of a path is the path without its last index, its
 * previous sibling the path whose last index is one less.
 */
module Dom {
  import opened Wrappers

  datatype Element = Element(
    nodeName: string,
    classes: set<string>,
    data: map<string, string>,
    children: seq<Element>)

  type Path = seq<nat>

  /** The element at path `p` below `e`, if there is one. */
  function Get(e: Element, p: Path): Option<Element>
    decreases |p|
  {
    if p == [] then Some(e)
    else if p[0] < |e.children| then Get(e.children[p[0]], p[1..])
    else None
  }

  predicate ValidPath(e: Element, p: Path) {
    Get(e, p).Some?
  }

  /** The element at a valid path. */
  function At(e: Element, p: Path): Element
    requires ValidPath(e, p)
  {
    Get(e, p).value
  }

  predicate HasClass(root: Element, p: Path, cls: string) {
    ValidPath(root, p) && cls in At(root, p).classes
  }

  /** Following `p` and then `q` is following `p + q`. */
  lemma {:induction false} GetAppend(e: Element, p: Path, q: Path)
    ensures Get(e, p + q) == match Get(e, p) case None => None case Some(x) => Get(x, q)
    decreases |p|
  {
    if p == [] {
      assert p + q == q;
    } else {
      assert (p + q)[1..] == p[1..] + q;
      if p[0] < |e.children| {
        GetAppend(e.children[p[0]], p[1..], q);
      }
    }
  }

  /** Every ancestor of an element of the tree is in the tree. */
  lemma PrefixValid(e: Element, p: Path, k: nat)
    requires ValidPath(e, p) && k <= |p|
    ensures ValidPath(e, p[..k])
  {
    GetAppend(e, p[..k], p[k..]);
    assert p[..k] + p[k..] == p;
  }

  /** The child `i` of the element at `p`. */
  lemma ChildPath(e: Element, p: Path, i: nat)
    requires ValidPath(e, p)
    ensures ValidPath(e, p + [i]) <==> i < |At(e, p).children|
    ensures ValidPath(e, p + [i]) ==> At(e, p + [i]) == At(e, p).children[i]
  {
    GetAppend(e, p, [i]);
  }

  predicate HasPrev(p: Path) {
    |p| > 0 && p[|p| - 1] > 0
  }

  /** jQuery's `prev()`: the element sibling just before the one at `p`. */
  function Prev(p: Path): (r: Path)
    requires HasPrev(p)
    ensures |r| == |p| && r[..|p| - 1] == p[..|p| - 1] && r[|p| - 1] + 1 == p[|p| - 1]
  {
    p[..|p| - 1] + [p[|p| - 1] - 1]
  }

  lemma PrevValid(e: Element, p: Path)
    requires ValidPath(e, p) && HasPrev(p)
    ensures ValidPath(e, Prev(p))
  {
    var up := p[..|p| - 1];
    PrefixValid(e, p, |p| - 1);
    assert p == up + [p[|p| - 1]];
    ChildPath(e, up, p[|p| - 1]);
    ChildPath(e, up, p[|p| - 1] - 1);
  }

  /**
   * `Element.closest("." + cls)` for the element at `p`: the element itself when it
   * carries the class, else its nearest ancestor that does, else null.
   */
  function Closest(root: Element, p: Path, cls: string): (r: Option<Path>)
    requires ValidPath(root, p)
    ensures r.Some? ==> r.value <= p && HasClass(root, r.value, cls)
    ensures r.Some? ==> forall k :: |r.value| < k <= |p| ==> !HasClass(root, p[..k], cls)
    ensures r.None? ==> forall k :: 0 <= k <= |p| ==> !HasClass(root, p[..k], cls)
    decreases |p|
  {
    if cls in At(root, p).classes then
      assert p[..|p|] == p;
      Some(p)
    else if p == [] then
      None
    else
      PrefixValid(root, p, |p| - 1);
      var up := p[..|p| - 1];
      var r := Closest(root, up, cls);
      assert forall k :: 0 <= k <= |up| ==> up[..k] == p[..k];
      assert p[..|p|] == p;
      r
  }

  /** An element without the class, whose parent has it, finds its parent. */
  lemma ClosestIsParent(root: Element, p: Path, cls: string)
    requires ValidPath(root, p) && |p| > 0 && cls !in At(root, p).classes
    requires HasClass(root, p[..|p| - 1], cls)
    ensures Closest(root, p, cls) == Some(p[..|p| - 1])
  {
    var r := Closest(root, p, cls);
    assert p[..|p|] == p;
    assert r.value == p[..|r.value|];
  }

  predicate IsImg(e: Element) {
    e.nodeName == "IMG"
  }

  /** An `IMG` element strictly below `e` at relative path `q`. */
  predicate ImgBelow(e: Element, q: Path) {
    |q| > 0 && ValidPath(e, q) && IsImg(At(e, q))
  }

  /** `q` comes no later than `r` in document (pre-)order. */
  predicate DocLe(q: Path, r: Path)
    decreases |q|
  {
    q == [] || (r != [] && (q[0] < r[0] || (q[0] == r[0] && DocLe(q[1..], r[1..]))))
  }

  /** `e.querySelector("img")`: the first `IMG` descendant of `e` in document order. */
  function FirstImg(e: Element): (r: Option<Path>)
    ensures r.Some? ==> ImgBelow(e, r.value)
    decreases e, 1
  {
    FirstImgFrom(e, 0)
  }

  /** The first `IMG` in document order inside the children `i..` of `e`. */
  function FirstImgFrom(e: Element, i: nat): (r: Option<Path>)
    ensures r.Some? ==> ImgBelow(e, r.value) && i <= r.value[0]
    decreases e, 0, |e.children| - i
  {
    if i >= |e.children| then None
    else if IsImg(e.children[i]) then
      assert Get(e, [i]) == Get(e.children[i], [i][1..]);
      assert [i][1..] == [];
      Some([i])
    else match FirstImg(e.children[i])
      case Some(q) =>
        assert ([i] + q)[1..] == q;
        Some([i] + q)
      case None => FirstImgFrom(e, i + 1)
  }

  /** Whenever there is an `IMG` below `e`, `FirstImg` finds one that comes no later. */
  lemma {:induction false} FirstImgIsFirst(e: Element, r: Path)
    requires ImgBelow(e, r)
    ensures FirstImg(e).Some? && DocLe(FirstImg(e).value, r)
    decreases e, 1
  {
    FirstImgFromIsFirst(e, 0, r);
  }

  lemma {:induction false} FirstImgFromIsFirst(e: Element, i: nat, r: Path)
    requires ImgBelow(e, r) && i <= r[0]
    ensures FirstImgFrom(e, i).Some? && DocLe(FirstImgFrom(e, i).value, r)
    decreases e, 0, |e.children| - i
  {
    var c := e.children[i];
    if IsImg(c) {
      assert DocLe([i][1..], r[1..]);
    } else if i == r[0] {
      assert Get(e, r) == Get(c, r[1..]);
      assert r[1..] != [];
      assert ImgBelow(c, r[1..]);
      FirstImgIsFirst(c, r[1..]);
      var q := FirstImg(c).value;
      assert ([i] + q)[1..] == q;
    } else {
      match FirstImg(c)
      case Some(q) =>
        assert ([i] + q)[0] == i;
      case None =>
        FirstImgFromIsFirst(e, i + 1, r);
    }
  }

  /** `querySelector("img")` comes back null exactly when there is no `IMG` below. */
  lemma NoFirstImg(e: Element, r: Path)
    requires FirstImg(e).None?
    ensures !ImgBelow(e, r)
  {
    if ImgBelow(e, r) {
      FirstImgIsFirst(e, r);
    }
  }

  /** The element at `p` with its `data-*` attributes replaced by `d`. */
  function WithData(e: Element, p: Path, d: map<string, string>): (r: Element)
    requires ValidPath(e, p)
    decreases |p|
  {
    if p == [] then e.(data := d)
    else e.(children := e.children[p[0] := WithData(e.children[p[0]], p[1..], d)])
  }

  /** Same tags, classes and tree shape: two trees that may differ only in their data attributes. */
  predicate SameShape(a: Element, b: Element) {
    && a.nodeName == b.nodeName
    && a.classes == b.classes
    && |a.children| == |b.children|
    && forall i :: 0 <= i < |a.children| ==> SameShape(a.children[i], b.children[i])
  }

  lemma {:induction false} SameShapeRefl(a: Element)
    ensures SameShape(a, a)
  {
    forall i | 0 <= i < |a.children| ensures SameShape(a.children[i], a.children[i]) {
      SameShapeRefl(a.children[i]);
    }
  }

  /** Writing data attributes leaves the shape of the tree alone and changes data only where it writes. */
  lemma {:induction false} WithDataEffect(e: Element, p: Path, d: map<string, string>, q: Path)
    requires ValidPath(e, p)
    ensures SameShape(WithData(e, p, d), e)
    ensures ValidPath(WithData(e, p, d), q) <==> ValidPath(e, q)
    ensures ValidPath(e, q) ==>
      At(WithData(e, p, d), q).data == if q == p then d else At(e, q).data
    decreases |p|
  {
    var e' := WithData(e, p, d);
    if p == [] {
      SameShapeRefl(e);
      assert forall i :: 0 <= i < |e.children| ==> e'.children[i] == e.children[i];
      if q != [] && q[0] < |e.children| {
        assert e'.children[q[0]] == e.children[q[0]];
      }
    } else {
      var c := e.children[p[0]];
      WithDataEffect(c, p[1..], d, if q != [] then q[1..] else []);
      forall i | 0 <= i < |e.children| ensures SameShape(e'.children[i], e.children[i]) {
        if i != p[0] {
          SameShapeRefl(e.children[i]);
        }
      }
      if q != [] && q[0] < |e.children| && q[0] != p[0] {
        assert e'.children[q[0]] == e.children[q[0]];
      }
      if q != [] && q[0] == p[0] {
        assert (q == p) == (q[1..] == p[1..]);
      }
    }
  }

  /** Trees of the same shape agree on which paths exist and on the class lists there. */
  lemma {:induction false} SameShapeGet(a: Element, b: Element, q: Path)
    requires SameShape(a, b)
    ensures ValidPath(a, q) <==> ValidPath(b, q)
    ensures ValidPath(a, q) ==> SameShape(At(a, q), At(b, q))
    decreases |q|
  {
    if q != [] && q[0] < |a.children| {
      SameShapeGet(a.children[q[0]], b.children[q[0]], q[1..]);
    }
  }

  lemma {:induction false} SameShapeClosest(a: Element, b: Element, p: Path, cls: string)
    requires SameShape(a, b) && ValidPath(a, p)
    ensures ValidPath(b, p) && Closest(a, p, cls) == Closest(b, p, cls)
    decreases |p|
  {
    SameShapeGet(a, b, p);
    if cls !in At(a, p).classes && p != [] {
      PrefixValid(a, p, |p| - 1);
      SameShapeClosest(a, b, p[..|p| - 1], cls);
    }
  }

  lemma {:induction false} SameShapeFirstImg(a: Element, b: Element)
    requires SameShape(a, b)
    ensures FirstImg(a) == FirstImg(b)
    decreases a, 1
  {
    SameShapeFirstImgFrom(a, b, 0);
  }

  lemma {:induction false} SameShapeFirstImgFrom(a: Element, b: Element, i: nat)
    requires SameShape(a, b)
    ensures FirstImgFrom(a, i) == FirstImgFrom(b, i)
    decreases a, 0, |a.children| - i
  {
    if i < |a.children| {
      SameShapeFirstImg(a.children[i], b.children[i]);
      SameShapeFirstImgFrom(a, b, i + 1);
    }
  }

  /** A browser event object: only whether its default action was suppressed matters here. */
  class UiEvent {
    var defaultPrevented: bool

    constructor ()
      ensures !defaultPrevented
    {
      defaultPrevented := false;
    }

    /** `event.preventDefault()`. */
    method PreventDefault()
      modifies this
      ensures defaultPrevented
    {
      defaultPrevented := true;
    }
  }
}
