/** Which widgets app.py:58-185 renders for a given session state: a widget
    is rendered when its parent is rendered and the parent's returned value
    passes every test of the widget's gate. */
module Visibility {
  import opened Session
  import opened Widgets
  import opened Form

  /** What the session holds under the widget's key, if anything. */
  function Stored(a: State, f: Field): Option<Value>
  {
    if Key(f) in a then Some(a[Key(f)]) else None
  }

  /** The option a selectbox or radio returns for the session: the stored
      answer when it is one of the options, its default when nothing is
      stored, and always one of its options. */
  function Answer(a: State, f: Field): (r: string)
    requires SingleChoice(WidgetOf(f))
    ensures r in WidgetOf(f).options
    ensures Key(f) in a && a[Key(f)].Text? && a[Key(f)].text in WidgetOf(f).options ==> r == a[Key(f)].text
    ensures Key(f) !in a ==> r == WidgetOf(f).options[WidgetOf(f).index]
  {
    Chosen(WidgetOf(f), Stored(a, f))
  }

  /** The list a multiselect returns for the session: the stored items that
      are among its options, and empty when nothing is stored. */
  function Selection(a: State, f: Field): (r: seq<string>)
    requires WidgetOf(f).MultiSelect?
    ensures forall x :: x in r ==> x in WidgetOf(f).options
    ensures Key(f) in a && a[Key(f)].Items? ==>
              forall x :: x in r <==> x in a[Key(f)].items && x in WidgetOf(f).options
    ensures Key(f) !in a ==> r == []
  {
    Checked(WidgetOf(f), Stored(a, f))
  }

  /** Every test of the gate holds of the parent's returned value. */
  predicate Opens(a: State, g: Gate)
  {
    forall t :: t in g.tests ==> Passes(t, WidgetOf(g.parent), Stored(a, g.parent))
  }

  /** Whether app.py renders the widget for the session state. */
  predicate Visible(a: State, f: Field)
    decreases Position(f)
  {
    ParentRendersFirst(f);
    match GateOf(f)
    case None => true
    case Some(g) => Visible(a, g.parent) && Opens(a, g)
  }

  /** One step of `Visible`: a widget gated on `p` is rendered exactly when
      `p` is rendered and `p`'s returned value opens the gate. */
  lemma GatedOn(a: State, f: Field, g: Gate)
    requires GateOf(f) == Some(g)
    ensures Visible(a, f) <==> Visible(a, g.parent) && Opens(a, g)
  {
  }

  /** A widget gated on `p == v` is rendered exactly when `p` is rendered
      and answered `v`. */
  lemma GatedOnIs(a: State, f: Field, p: Field, v: string)
    requires GateOf(f) == Some(Gate(p, [Is(v)])) && SingleChoice(WidgetOf(p))
    ensures Visible(a, f) <==> Visible(a, p) && Answer(a, p) == v
  {
    GatedOn(a, f, Gate(p, [Is(v)]));
    assert Is(v) in [Is(v)];
  }

  /** A widget gated on `p != v` is rendered exactly when `p` is rendered
      with any other answer. */
  lemma GatedOnIsNot(a: State, f: Field, p: Field, v: string)
    requires GateOf(f) == Some(Gate(p, [IsNot(v)])) && SingleChoice(WidgetOf(p))
    ensures Visible(a, f) <==> Visible(a, p) && Answer(a, p) != v
  {
    GatedOn(a, f, Gate(p, [IsNot(v)]));
    assert IsNot(v) in [IsNot(v)];
  }

  /** A widget gated on `x in p` is rendered exactly when the multiselect
      `p` is rendered with `x` selected. */
  lemma GatedOnHas(a: State, f: Field, p: Field, x: string)
    requires GateOf(f) == Some(Gate(p, [Has(x)])) && WidgetOf(p).MultiSelect?
    ensures Visible(a, f) <==> Visible(a, p) && x in Selection(a, p)
  {
    GatedOn(a, f, Gate(p, [Has(x)]));
    assert Has(x) in [Has(x)];
  }

  /** A widget outside every `if` is rendered for every session. */
  lemma Ungated(a: State, f: Field)
    requires GateOf(f).None?
    ensures Visible(a, f)
  {
  }

  /** `p` is the parent, the grandparent, ... of `f`. */
  predicate IsAncestor(p: Field, f: Field)
    decreases Position(f)
  {
    ParentRendersFirst(f);
    match GateOf(f)
    case None => false
    case Some(g) => g.parent == p || IsAncestor(p, g.parent)
  }

  /** Every ancestor of a widget renders before it, in the same part of the
      page. */
  lemma {:induction false} AncestorsComeFirst(p: Field, f: Field)
    requires IsAncestor(p, f)
    ensures Position(p) < Position(f) && SameSection(p, f)
    decreases Position(f)
  {
    GatesWellFormed(f);
    var g := GateOf(f).value;
    if g.parent != p {
      AncestorsComeFirst(p, g.parent);
    }
  }

  /** A rendered widget's whole chain of ancestors is rendered. */
  lemma {:induction false} AncestorsVisible(a: State, p: Field, f: Field)
    requires Visible(a, f) && IsAncestor(p, f)
    ensures Visible(a, p)
    decreases Position(f)
  {
    ParentRendersFirst(f);
    var g := GateOf(f).value;
    if g.parent != p {
      AncestorsVisible(a, p, g.parent);
    }
  }

  /** Two sessions agree on every widget of the part of the page `f` is in. */
  ghost predicate AgreeOnSection(a: State, b: State, f: Field)
  {
    forall g :: SameSection(g, f) ==> Stored(a, g) == Stored(b, g)
  }

  /** A widget's visibility depends only on the answers given in its own part
      of the page: whatever is answered elsewhere, it is rendered or not in
      the same way. */
  lemma {:induction false} VisibilityIsLocalToSection(a: State, b: State, f: Field)
    requires AgreeOnSection(a, b, f)
    ensures Visible(a, f) == Visible(b, f)
    decreases Position(f)
  {
    GatesWellFormed(f);
    match GateOf(f)
    case None =>
    case Some(g) =>
      assert Stored(a, g.parent) == Stored(b, g.parent);
      assert AgreeOnSection(a, b, g.parent);
      VisibilityIsLocalToSection(a, b, g.parent);
  }

  /** An unanswered top-level widget returns its default, and the default
      fails the first test of each gate that reads it. */
  lemma DefaultsCloseTopLevelGates(f: Field)
    requires GateOf(f).Some? && GateOf(GateOf(f).value.parent).None?
    ensures |GateOf(f).value.tests| > 0
    ensures !Passes(GateOf(f).value.tests[0], WidgetOf(GateOf(f).value.parent), None)
  {
  }

  /** With nothing answered yet, exactly the unconditional widgets are
      rendered: every default (the claim placeholder and the `index=1`
      radios on "No") keeps its children hidden. */
  lemma {:induction false} FreshSessionShowsOnlyTopLevel(f: Field)
    ensures Visible(map[], f) <==> GateOf(f).None?
    decreases Position(f)
  {
    ParentRendersFirst(f);
    match GateOf(f)
    case None =>
    case Some(g) =>
      if GateOf(g.parent).None? {
        DefaultsCloseTopLevelGates(f);
        assert Stored(map[], g.parent) == None;
        assert g.tests[0] in g.tests;
      } else {
        FreshSessionShowsOnlyTopLevel(g.parent);
      }
  }
}
