/** The input widgets of the page, the value each one returns for a given
    session entry, and the tests that gate a child widget on that value. */
module Widgets {
  import opened Session

  /** The kinds of widget app.py renders, with the options and default index
      of the ones that offer a choice. */
  datatype Widget =
    | SelectBox(options: seq<string>, index: nat)
    | Radio(options: seq<string>, index: nat)
    | MultiSelect(options: seq<string>)
    | TextArea
    | TextInput
    | DateInput

  /** A selectbox or radio whose default index names one of its options. */
  predicate SingleChoice(w: Widget)
  {
    (w.SelectBox? || w.Radio?) && w.index < |w.options|
  }

  /** The items of `items` that are among `options`, in order. */
  function Keep(items: seq<string>, options: seq<string>): (r: seq<string>)
    ensures forall x :: x in r <==> x in items && x in options
    ensures |r| <= |items|
  {
    if items == [] then []
    else (if items[0] in options then [items[0]] else []) + Keep(items[1..], options)
  }

  /** What a selectbox or radio returns: the stored answer when it is one of
      its options, otherwise its default option (`index=` in app.py, the first
      option when no index is given). */
  function Chosen(w: Widget, stored: Option<Value>): (r: string)
    requires SingleChoice(w)
    ensures r in w.options
    ensures stored.Some? && stored.value.Text? && stored.value.text in w.options ==> r == stored.value.text
    ensures stored.None? ==> r == w.options[w.index]
  {
    match stored
    case Some(Text(s)) => if s in w.options then s else w.options[w.index]
    case _ => w.options[w.index]
  }

  /** What a multiselect returns: the stored items that are among its
      options, or the empty list when nothing is stored. */
  function Checked(w: Widget, stored: Option<Value>): (r: seq<string>)
    requires w.MultiSelect?
    ensures forall x :: x in r ==> x in w.options
    ensures stored.Some? && stored.value.Items? ==>
              forall x :: x in r <==> x in stored.value.items && x in w.options
    ensures stored.None? ==> r == []
  {
    match stored
    case Some(Items(xs)) => Keep(xs, w.options)
    case _ => []
  }

  /** The decimal digit `d`. */
  function Digit(d: nat): char
    requires d < 10
  {
    "0123456789"[d]
  }

  /** Python's `str(n)` on a natural number. */
  function Str(n: nat): (r: string)
    ensures n < 10 ==> r == [Digit(n)]
    ensures |r| >= 1
  {
    if n < 10 then [Digit(n)] else Str(n / 10) + [Digit(n % 10)]
  }

  /** `[str(x) for x in range(lo, hi)]` */
  function RangeStrings(lo: nat, hi: nat): (r: seq<string>)
    ensures |r| == if lo < hi then hi - lo else 0
    decreases hi - lo
  {
    if lo >= hi then [] else [Str(lo)] + RangeStrings(lo + 1, hi)
  }

  /** The k-th numeral of the range is `str(lo + k)`. */
  lemma {:induction false} RangeStringsAt(lo: nat, hi: nat, k: nat)
    requires k < |RangeStrings(lo, hi)|
    ensures RangeStrings(lo, hi)[k] == Str(lo + k)
    decreases k
  {
    if k > 0 {
      RangeStringsAt(lo + 1, hi, k - 1);
    }
  }

  /** A string is in a range of one-digit numerals, as both row loops use,
      exactly when it is the numeral of a number in the range. */
  lemma InRangeStrings(c: string, lo: nat, hi: nat)
    requires hi <= 10
    ensures c in RangeStrings(lo, hi) <==> exists n: nat :: lo <= n < hi && c == [Digit(n)]
  {
    var r := RangeStrings(lo, hi);
    if c in r {
      var k :| 0 <= k < |r| && r[k] == c;
      RangeStringsAt(lo, hi, k);
      var n: nat := lo + k;
      assert lo <= n < hi && c == [Digit(n)];
    } else {
      forall n: nat | lo <= n < hi
        ensures c != [Digit(n)]
      {
        RangeStringsAt(lo, hi, n - lo);
        assert r[n - lo] == Str(n);
      }
    }
  }

  /** A test that a gated widget puts on the value its parent widget returns. */
  datatype Test =
    | Is(value: string)          // `parent == value`
    | IsNot(value: string)       // `parent != value`
    | Has(item: string)          // `item in parent`, for a multiselect
    | InRangeOr(lo: nat, hi: nat, overflow: string)
      // `parent in [str(x) for x in range(lo, hi)] or parent == overflow`

  /** Whether the test holds of what widget `w` returns for `stored`. A test
      that does not fit the widget's kind never holds. */
  predicate Passes(t: Test, w: Widget, stored: Option<Value>)
  {
    match t
    case Is(v) => SingleChoice(w) && Chosen(w, stored) == v
    case IsNot(v) => SingleChoice(w) && Chosen(w, stored) != v
    case Has(x) => w.MultiSelect? && x in Checked(w, stored)
    case InRangeOr(lo, hi, overflow) =>
      SingleChoice(w) && (Chosen(w, stored) in RangeStrings(lo, hi) || Chosen(w, stored) == overflow)
  }

  /** The test fits the kind of widget it is put on. */
  predicate Fits(t: Test, w: Widget)
  {
    if t.Has? then w.MultiSelect? else SingleChoice(w)
  }
}
