/**
  Where a declaration value sits in printed markup: the text before and after
  it does not depend on it, so markup whose values differ prints differently.
 */
module MarkupText {
  import opened Html

  /** What is written between the declarations `a` and the one that follows them. */
  function Sep(a: seq<Decl>): string
  {
    if a == [] then "" else " "
  }

  /** The declarations `b` as written after a preceding declaration. */
  function TailText(b: seq<Decl>): string
  {
    if b == [] then "" else " " + StyleText(b)
  }

  /** The declarations `a` as written before a declaration that follows them. */
  function Before(a: seq<Decl>): string
  {
    StyleText(a) + Sep(a)
  }

  lemma {:induction false} StyleSplit(a: seq<Decl>, d: Decl, b: seq<Decl>)
    ensures StyleText(a + [d] + b) == Before(a) + DeclText(d) + TailText(b)
    decreases |a|
  {
    if a == [] {
      assert a + [d] + b == [d] + b;
      StyleFirst(d, b);
      EmptyPrefix(DeclText(d) + TailText(b));
    } else {
      StyleSplit(a[1..], d, b);
      StyleSplitStep(a, d, b);
    }
  }

  /** The step of `StyleSplit`: one more declaration in front. */
  lemma {:induction false} StyleSplitStep(a: seq<Decl>, d: Decl, b: seq<Decl>)
    requires a != []
    requires StyleText(a[1..] + [d] + b) == Before(a[1..]) + DeclText(d) + TailText(b)
    ensures StyleText(a + [d] + b) == Before(a) + DeclText(d) + TailText(b)
  {
    var h, dt, tt := DeclText(a[0]), DeclText(d), TailText(b);
    FrontOfSplit(a, d, b);
    FrontOfBefore(a);
    if a[1..] == [] {
      GlueFirst(h, Before(a[1..]), TailText(a[1..]), dt, tt);
    } else {
      var x := StyleText(a[1..]);
      GlueRest(h, x, dt, tt);
    }
  }

  lemma {:induction false} FrontOfSplit(a: seq<Decl>, d: Decl, b: seq<Decl>)
    requires a != []
    ensures StyleText(a + [d] + b) == DeclText(a[0]) + (" " + StyleText(a[1..] + [d] + b))
  {
    var rest := a[1..] + [d] + b;
    assert a + [d] + b == [a[0]] + rest;
    StyleFirst(a[0], rest);
  }

  lemma {:induction false} FrontOfBefore(a: seq<Decl>)
    requires a != []
    ensures a[1..] == [] ==> Before(a[1..]) == "" && TailText(a[1..]) == "" && Before(a) == DeclText(a[0]) + TailText(a[1..]) + " "
    ensures a[1..] != [] ==> Before(a[1..]) == StyleText(a[1..]) + " " && Before(a) == DeclText(a[0]) + (" " + StyleText(a[1..])) + " "
  {
    assert [a[0]] + a[1..] == a;
    StyleFirst(a[0], a[1..]);
  }

  lemma GlueFirst(h: string, before: string, tail: string, dt: string, tt: string)
    requires before == "" && tail == ""
    ensures h + (" " + (before + dt + tt)) == (h + tail) + " " + dt + tt
  {
  }

  lemma GlueRest(h: string, x: string, dt: string, tt: string)
    ensures h + (" " + ((x + " ") + dt + tt)) == (h + (" " + x)) + " " + dt + tt
  {
  }

  lemma {:induction false} StyleFirst(d: Decl, b: seq<Decl>)
    ensures StyleText([d] + b) == DeclText(d) + TailText(b)
  {
    if b != [] {
      assert ([d] + b)[1..] == b;
    }
  }

  lemma EmptyPrefix(x: string)
    ensures "" + "" + x == x
  {
  }

  /** The opening-tag text before the value `pre + v` of the declaration that follows `a`. */
  function SlotLeft(tag: string, attrs: seq<Attr>, a: seq<Decl>, p: Prop, pre: string): string
  {
    "<" + tag + AttrsText(attrs) + " style=\"" + Before(a) + PropName(p) + ": " + pre
  }

  /** The text between two values: the declarations `b` and the start of the second declaration. */
  function SlotMiddle(b: seq<Decl>, p: Prop, pre: string): string
  {
    ";" + " " + Before(b) + PropName(p) + ": " + pre
  }

  /** The text after the last value: the declarations `b` and whatever closes the tag. */
  function SlotRight(b: seq<Decl>, tail: string): string
  {
    ";" + TailText(b) + "\"" + tail
  }

  lemma {:induction false} SlotText(tag: string, attrs: seq<Attr>, a: seq<Decl>, p: Prop, pre: string, v: string,
                                    b: seq<Decl>, tail: string)
    ensures "<" + tag + AttrsText(attrs) + StyleAttr(a + [Decl(p, pre + v)] + b) + tail ==
            SlotLeft(tag, attrs, a, p, pre) + v + SlotRight(b, tail)
  {
    StyleSplit(a, Decl(p, pre + v), b);
    SlotRegroup("<" + tag + AttrsText(attrs), Before(a), PropName(p), pre, v, TailText(b), tail);
  }

  lemma SlotRegroup(open: string, before: string, name: string, pre: string, v: string, after: string, tail: string)
    ensures open + (" style=\"" + (before + (name + ": " + (pre + v) + ";") + after) + "\"") + tail ==
            (open + " style=\"" + before + name + ": " + pre) + v + (";" + after + "\"" + tail)
  {
  }

  lemma {:induction false} TwoSlotText(tag: string, attrs: seq<Attr>, a: seq<Decl>, p1: Prop, pre1: string,
                                       b: seq<Decl>, p2: Prop, pre2: string, e: seq<Decl>, v: string, tail: string)
    ensures "<" + tag + AttrsText(attrs) + StyleAttr(a + [Decl(p1, pre1 + v)] + b + [Decl(p2, pre2 + v)] + e) + tail ==
            SlotLeft(tag, attrs, a, p1, pre1) + v + SlotMiddle(b, p2, pre2) + v + SlotRight(e, tail)
  {
    var rest := b + [Decl(p2, pre2 + v)] + e;
    assert a + [Decl(p1, pre1 + v)] + b + [Decl(p2, pre2 + v)] + e == a + [Decl(p1, pre1 + v)] + rest;
    SlotText(tag, attrs, a, p1, pre1, v, rest, tail);
    MiddleText(b, p2, pre2, e, v, tail);
    var l, m, r := SlotLeft(tag, attrs, a, p1, pre1), SlotMiddle(b, p2, pre2), SlotRight(e, tail);
    TwoRegroup(l, v, m, r);
  }

  lemma TwoRegroup(l: string, v: string, m: string, r: string)
    ensures l + v + (m + v + r) == l + v + m + v + r
  {
  }

  /** After the first value, the text runs on to the second value and then to the end of the tag. */
  lemma {:induction false} MiddleText(b: seq<Decl>, p: Prop, pre: string, e: seq<Decl>, v: string, tail: string)
    ensures SlotRight(b + [Decl(p, pre + v)] + e, tail) == SlotMiddle(b, p, pre) + v + SlotRight(e, tail)
  {
    var d := Decl(p, pre + v);
    var rest := b + [d] + e;
    var before, name, after := Before(b), PropName(p), TailText(e);
    StyleSplit(b, d, e);
    assert DeclText(d) == name + ": " + (pre + v) + ";";
    assert StyleText(rest) == before + (name + ": " + (pre + v) + ";") + after;
    assert TailText(rest) == " " + StyleText(rest);
    assert SlotRight(rest, tail) == ";" + TailText(rest) + "\"" + tail;
    MiddleRegroup(before, name, pre, v, after, tail);
  }

  lemma MiddleRegroup(before: string, name: string, pre: string, v: string, after: string, tail: string)
    ensures ";" + (" " + (before + (name + ": " + (pre + v) + ";") + after)) + "\"" + tail ==
            (";" + " " + before + name + ": " + pre) + v + (";" + after + "\"" + tail)
  {
  }

  /** `P + c + M + c + Q` determines `c` once `P`, `M` and `Q` are fixed. */
  lemma {:induction false} CancelTwice(p: string, c: string, d: string, m: string, q: string)
    requires p + c + m + c + q == p + d + m + d + q
    ensures c == d
  {
    var l := p + c + m + c + q;
    var r := p + d + m + d + q;
    assert |c| == |d|;
    assert c == l[|p|..|p| + |c|];
    assert d == r[|p|..|p| + |d|];
  }

  /** An element's text: its opening tag up to the style, then the rest of the tag, its children and its closing tag. */
  lemma {:induction false} ElemText(tag: string, attrs: seq<Attr>, ds: seq<Decl>, kids: seq<Html>, x: string)
    ensures Emit(Elem(tag, attrs, ds, kids), x) == "<" + tag + AttrsText(attrs) + StyleAttr(ds) + (">" + EmitAll(kids, x) + CloseTag(tag))
  {
    var o, k, c := "<" + tag + AttrsText(attrs) + StyleAttr(ds), EmitAll(kids, x), CloseTag(tag);
    assert Emit(Elem(tag, attrs, ds, kids), x) == (o + ">") + k + c;
    Regroup3(o, ">", k, c);
  }

  lemma Regroup3(a: string, b: string, c: string, d: string)
    ensures a + b + c + d == a + (b + c + d)
  {
  }

  /** An element whose declaration after `a` differs only in the part `v` prints differently. */
  lemma {:induction false} ElemShowsValue(tag: string, attrs: seq<Attr>, a: seq<Decl>, p: Prop, pre: string, b: seq<Decl>,
                                          kids: seq<Html>, x: string, v: string, w: string)
    requires v != w
    ensures Emit(Elem(tag, attrs, a + [Decl(p, pre + v)] + b, kids), x) != Emit(Elem(tag, attrs, a + [Decl(p, pre + w)] + b, kids), x)
  {
    var tail := ">" + EmitAll(kids, x) + CloseTag(tag);
    ElemText(tag, attrs, a + [Decl(p, pre + v)] + b, kids, x);
    ElemText(tag, attrs, a + [Decl(p, pre + w)] + b, kids, x);
    SlotText(tag, attrs, a, p, pre, v, b, tail);
    SlotText(tag, attrs, a, p, pre, w, b, tail);
    var l, r := SlotLeft(tag, attrs, a, p, pre), SlotRight(b, tail);
    if l + v + r == l + w + r {
      CancelAround(l, v, w, r);
    }
  }

  /** The same for an element without content. */
  lemma {:induction false} VoidShowsValue(tag: string, attrs: seq<Attr>, a: seq<Decl>, p: Prop, pre: string, b: seq<Decl>,
                                          v: string, w: string)
    requires v != w
    ensures Emit(Void(tag, attrs, a + [Decl(p, pre + v)] + b), "") != Emit(Void(tag, attrs, a + [Decl(p, pre + w)] + b), "")
  {
    SlotText(tag, attrs, a, p, pre, v, b, " />");
    SlotText(tag, attrs, a, p, pre, w, b, " />");
    var l, r := SlotLeft(tag, attrs, a, p, pre), SlotRight(b, " />");
    if l + v + r == l + w + r {
      CancelAround(l, v, w, r);
    }
  }

  /** An element with the same part `v` in two of its declarations prints differently when `v` changes. */
  lemma {:induction false} ElemShowsValueTwice(tag: string, attrs: seq<Attr>, a: seq<Decl>, p1: Prop, pre1: string,
                                               b: seq<Decl>, p2: Prop, pre2: string, e: seq<Decl>,
                                               kids: seq<Html>, x: string, v: string, w: string)
    requires v != w
    ensures Emit(Elem(tag, attrs, a + [Decl(p1, pre1 + v)] + b + [Decl(p2, pre2 + v)] + e, kids), x) !=
            Emit(Elem(tag, attrs, a + [Decl(p1, pre1 + w)] + b + [Decl(p2, pre2 + w)] + e, kids), x)
  {
    var tail := ">" + EmitAll(kids, x) + CloseTag(tag);
    ElemText(tag, attrs, a + [Decl(p1, pre1 + v)] + b + [Decl(p2, pre2 + v)] + e, kids, x);
    ElemText(tag, attrs, a + [Decl(p1, pre1 + w)] + b + [Decl(p2, pre2 + w)] + e, kids, x);
    TwoSlotText(tag, attrs, a, p1, pre1, b, p2, pre2, e, v, tail);
    TwoSlotText(tag, attrs, a, p1, pre1, b, p2, pre2, e, w, tail);
    var l, m, r := SlotLeft(tag, attrs, a, p1, pre1), SlotMiddle(b, p2, pre2), SlotRight(e, tail);
    if l + v + m + v + r == l + w + m + w + r {
      CancelTwice(l, v, w, m, r);
    }
  }

  /** An element around a single child prints differently when the child does. */
  lemma {:induction false} ElemShowsKid(tag: string, attrs: seq<Attr>, ds: seq<Decl>, k1: Html, k2: Html, x: string)
    requires Emit(k1, x) != Emit(k2, x)
    ensures Emit(Elem(tag, attrs, ds, [k1]), x) != Emit(Elem(tag, attrs, ds, [k2]), x)
  {
    assert EmitAll([k1], x) == Emit(k1, x) + EmitAll([], x) == Emit(k1, x);
    assert EmitAll([k2], x) == Emit(k2, x) + EmitAll([], x) == Emit(k2, x);
    var o, c := OpenTag(tag, attrs, ds), CloseTag(tag);
    if o + Emit(k1, x) + c == o + Emit(k2, x) + c {
      CancelAround(o, Emit(k1, x), Emit(k2, x), c);
    }
  }
}
