/** The count-to-row expansion of app.py:71-86 (medications) and
    app.py:100-115 (surgeries): a count selectbox opens a prefix of the
    explicit detail rows, and the overflow option opens a free-text area for
    the rest as well. */
module Slots {
  import opened Session
  import opened Widgets
  import opened Form
  import opened Visibility

  /** How many medication rows each option of the count selectbox calls for:
      none for the placeholder, the number itself, and all three rows (plus
      the free-text area) for "More than 3". */
  function MedicationRowsFor(count: string): nat
  {
    match count
    case "1" => 1
    case "2" => 2
    case "3" => 3
    case "More than 3" => 3
    case _ => 0
  }

  /** How many surgery rows each option of the count selectbox calls for. */
  function SurgeryRowsFor(count: string): nat
  {
    match count
    case "1" => 1
    case "2" => 2
    case "3" => 3
    case "4" => 4
    case "More than 4" => 4
    case _ => 0
  }

  /** The numerals of one digit are the one-character strings "0" to "9". */
  lemma DigitNumerals(n: nat)
    requires n < 10
    ensures [Digit(n)] == ["0", "1", "2", "3", "4", "5", "6", "7", "8", "9"][n]
  {
  }

  /** Which of the count options pass the row test `InRangeOr(i, hi, overflow)`. */
  lemma {:induction false} RowTestForCount(c: string, i: nat, hi: nat, overflow: string)
    requires 1 <= i < hi <= 10
    requires |overflow| > 1
    ensures (c in RangeStrings(i, hi) || c == overflow) <==>
            (c == overflow || exists n :: i <= n < hi && c == ["0", "1", "2", "3", "4", "5", "6", "7", "8", "9"][n])
  {
    InRangeStrings(c, i, hi);
    if n :| i <= n < hi && c == [Digit(n)] {
      DigitNumerals(n);
    }
    if n :| i <= n < hi && c == ["0", "1", "2", "3", "4", "5", "6", "7", "8", "9"][n] {
      DigitNumerals(n);
    }
  }

  /** The count options that pass both tests of row `i`'s gate are those
      calling for at least `i` rows. */
  lemma MedicationRowTest(c: string, i: MedicationSlot)
    ensures (c != COUNT_UNSELECTED && (c in RangeStrings(i, 4) || c == MORE_THAN_3)) <==> i <= MedicationRowsFor(c)
  {
    RowTestForCount(c, i, 4, MORE_THAN_3);
  }

  /** Medication row `i` (each of its name, dosage and frequency inputs) is
      rendered exactly when the count selectbox is rendered and its answer
      calls for at least `i` rows. */
  lemma MedicationRowRule(a: State, i: MedicationSlot, part: MedicationPart)
    ensures Visible(a, Claim(Medication(i, part))) <==>
            Visible(a, Claim(MedicationCount)) && i <= MedicationRowsFor(Answer(a, Claim(MedicationCount)))
  {
    var c := Answer(a, Claim(MedicationCount));
    var g := Gate(Claim(MedicationCount), [IsNot(COUNT_UNSELECTED), InRangeOr(i, 4, MORE_THAN_3)]);
    GatedOn(a, Claim(Medication(i, part)), g);
    assert Opens(a, g) <==> c != COUNT_UNSELECTED && (c in RangeStrings(i, 4) || c == MORE_THAN_3) by {
      assert IsNot(COUNT_UNSELECTED) in g.tests;
      assert InRangeOr(i, 4, MORE_THAN_3) in g.tests;
    }
    MedicationRowTest(c, i);
  }

  /** The count selectbox is rendered exactly when a claim type is chosen
      and "Yes" is answered to taking medication. */
  lemma MedicationCountRule(a: State)
    ensures Visible(a, Claim(MedicationCount)) <==>
            Answer(a, Claim(ClaimType)) != CLAIM_UNSELECTED && Answer(a, Claim(TakesMedication)) == "Yes"
  {
    GatedOnIs(a, Claim(MedicationCount), Claim(TakesMedication), "Yes");
    GatedOnIsNot(a, Claim(TakesMedication), Claim(ClaimType), CLAIM_UNSELECTED);
    Ungated(a, Claim(ClaimType));
  }

  /** The free-text area for further medications is rendered exactly when
      the count selectbox is rendered and answered "More than 3". */
  lemma AdditionalMedicationsRule(a: State)
    ensures Visible(a, Claim(AdditionalMedications)) <==>
            Visible(a, Claim(MedicationCount)) && Answer(a, Claim(MedicationCount)) == MORE_THAN_3
  {
    var g := Gate(Claim(MedicationCount), [IsNot(COUNT_UNSELECTED), Is(MORE_THAN_3)]);
    GatedOn(a, Claim(AdditionalMedications), g);
    assert IsNot(COUNT_UNSELECTED) in g.tests && Is(MORE_THAN_3) in g.tests;
  }

  /** Medication rows are rendered as a prefix: when row `i` is, every
      earlier row is, in all three of its inputs; and the free-text area comes
      only with all three rows. */
  lemma MedicationRowsArePrefixClosed(a: State, i: MedicationSlot, j: MedicationSlot,
                                         p: MedicationPart, q: MedicationPart)
    requires j <= i && Visible(a, Claim(Medication(i, p)))
    ensures Visible(a, Claim(Medication(j, q)))
  {
    MedicationRowRule(a, i, p);
    MedicationRowRule(a, j, q);
  }

  lemma AdditionalMedicationsFollowAllRows(a: State, i: MedicationSlot, p: MedicationPart)
    requires Visible(a, Claim(AdditionalMedications))
    ensures Visible(a, Claim(Medication(i, p)))
  {
    AdditionalMedicationsRule(a);
    MedicationRowRule(a, i, p);
  }

  /** The rows `1..n`. */
  function FirstRows(n: nat): (r: set<int>)
    ensures forall i :: i in r <==> 1 <= i <= n
  {
    if n == 0 then {} else FirstRows(n - 1) + {n}
  }

  lemma {:induction false} FirstRowsSize(n: nat)
    ensures |FirstRows(n)| == n
  {
    if n > 0 {
      var r := FirstRows(n - 1);
      FirstRowsSize(n - 1);
      assert n !in r;
      assert |r + {n}| == |r| + 1;
    }
  }

  /** The medication rows the page renders. */
  function ShownMedicationRows(a: State): set<int>
  {
    set i | 1 <= i <= 3 && Visible(a, Claim(Medication(i, MedicationName)))
  }

  /** How many medication rows the page calls for: none while the count is
      hidden or on its placeholder, otherwise as the count says. */
  function MedicationRowsCalledFor(a: State): nat
  {
    if Visible(a, Claim(MedicationCount)) then MedicationRowsFor(Answer(a, Claim(MedicationCount))) else 0
  }

  /** The rendered medication rows are exactly rows 1 to the number called
      for: 0 for "--select--", n for "n" and 3 for "More than 3". */
  lemma MedicationRowsShown(a: State)
    ensures ShownMedicationRows(a) == FirstRows(MedicationRowsCalledFor(a))
    ensures |ShownMedicationRows(a)| == MedicationRowsCalledFor(a)
  {
    var n := MedicationRowsCalledFor(a);
    assert n <= 3;
    forall i | 1 <= i <= 3
      ensures Visible(a, Claim(Medication(i, MedicationName))) <==> i <= n
    {
      MedicationRowRule(a, i, MedicationName);
    }
    assert forall i :: i in ShownMedicationRows(a) <==> i in FirstRows(n);
    FirstRowsSize(n);
  }

  /** With no count chosen yet, the placeholder shows no medication row. */
  lemma UnansweredMedicationCountShowsNoRow(a: State, i: MedicationSlot, p: MedicationPart)
    requires Key(Claim(MedicationCount)) !in a
    ensures !Visible(a, Claim(Medication(i, p)))
  {
    MedicationRowRule(a, i, p);
  }

  /** The count options that pass row `i`'s surgery test are those calling
      for at least `i` rows. */
  lemma SurgeryRowTest(c: string, i: SurgerySlot)
    ensures (c in RangeStrings(i, 5) || c == MORE_THAN_4) <==> i <= SurgeryRowsFor(c)
  {
    RowTestForCount(c, i, 5, MORE_THAN_4);
  }

  /** Surgery row `i` (its date, type and findings) is rendered exactly when
      the surgery count is rendered and calls for at least `i` rows. */
  lemma SurgeryRowRule(a: State, i: SurgerySlot, part: SurgeryPart)
    ensures Visible(a, Claim(Surgery(i, part))) <==>
            Visible(a, Claim(SurgeryCount)) && i <= SurgeryRowsFor(Answer(a, Claim(SurgeryCount)))
  {
    var c := Answer(a, Claim(SurgeryCount));
    var g := Gate(Claim(SurgeryCount), [InRangeOr(i, 5, MORE_THAN_4)]);
    GatedOn(a, Claim(Surgery(i, part)), g);
    assert Opens(a, g) <==> c in RangeStrings(i, 5) || c == MORE_THAN_4 by {
      assert InRangeOr(i, 5, MORE_THAN_4) in g.tests;
    }
    SurgeryRowTest(c, i);
  }

  /** The sinus-surgery radio is rendered exactly when a claim type is chosen
      and service connection is answered "Yes". */
  lemma HadSurgeryRule(a: State)
    ensures Visible(a, Claim(HadSurgery)) <==>
            Answer(a, Claim(ClaimType)) != CLAIM_UNSELECTED && Answer(a, Claim(ServiceConnection)) == "Yes"
  {
    GatedOnIs(a, Claim(HadSurgery), Claim(ServiceConnection), "Yes");
    GatedOnIsNot(a, Claim(ServiceConnection), Claim(ClaimType), CLAIM_UNSELECTED);
    Ungated(a, Claim(ClaimType));
  }

  /** The surgery count is rendered exactly when a claim type is chosen and
      both service connection and sinus surgery are answered "Yes". */
  lemma SurgeryCountRule(a: State)
    ensures Visible(a, Claim(SurgeryCount)) <==>
            && Answer(a, Claim(ClaimType)) != CLAIM_UNSELECTED
            && Answer(a, Claim(ServiceConnection)) == "Yes"
            && Answer(a, Claim(HadSurgery)) == "Yes"
  {
    GatedOnIs(a, Claim(SurgeryCount), Claim(HadSurgery), "Yes");
    HadSurgeryRule(a);
  }

  /** The surgery count has no placeholder and defaults to "1", so once it
      is rendered the first surgery row is too; left at its default it shows
      that row only. */
  lemma FirstSurgeryRowComesWithCount(a: State, part: SurgeryPart)
    requires Visible(a, Claim(SurgeryCount))
    ensures Visible(a, Claim(Surgery(1, part)))
  {
    SurgeryRowRule(a, 1, part);
  }

  lemma UnansweredSurgeryCountShowsOneRow(a: State, i: SurgerySlot, part: SurgeryPart)
    requires Visible(a, Claim(SurgeryCount)) && Key(Claim(SurgeryCount)) !in a
    ensures Visible(a, Claim(Surgery(i, part))) <==> i == 1
  {
    SurgeryRowRule(a, i, part);
  }

  /** The free-text area for further surgeries is rendered exactly when the
      count is rendered and answered "More than 4". */
  lemma AdditionalSurgeriesRule(a: State)
    ensures Visible(a, Claim(AdditionalSurgeries)) <==>
            Visible(a, Claim(SurgeryCount)) && Answer(a, Claim(SurgeryCount)) == MORE_THAN_4
  {
    GatedOnIs(a, Claim(AdditionalSurgeries), Claim(SurgeryCount), MORE_THAN_4);
  }

  lemma SurgeryRowsArePrefixClosed(a: State, i: SurgerySlot, j: SurgerySlot, p: SurgeryPart, q: SurgeryPart)
    requires j <= i && Visible(a, Claim(Surgery(i, p)))
    ensures Visible(a, Claim(Surgery(j, q)))
  {
    SurgeryRowRule(a, i, p);
    SurgeryRowRule(a, j, q);
  }

  /** The surgery rows the page renders. */
  function ShownSurgeryRows(a: State): set<int>
  {
    set i | 1 <= i <= 4 && Visible(a, Claim(Surgery(i, SurgeryDate)))
  }

  function SurgeryRowsCalledFor(a: State): nat
  {
    if Visible(a, Claim(SurgeryCount)) then SurgeryRowsFor(Answer(a, Claim(SurgeryCount))) else 0
  }

  /** Every option of the surgery count calls for at least one row. */
  lemma SurgeryCountCallsForARow(c: string)
    requires c in WidgetOf(Claim(SurgeryCount)).options
    ensures 1 <= SurgeryRowsFor(c) <= 4
  {
  }

  /** The rendered surgery rows are exactly rows 1 to the number called for:
      n for "n" and 4 for "More than 4". */
  lemma SurgeryRowsShown(a: State)
    ensures ShownSurgeryRows(a) == FirstRows(SurgeryRowsCalledFor(a))
    ensures |ShownSurgeryRows(a)| == SurgeryRowsCalledFor(a)
    ensures Visible(a, Claim(SurgeryCount)) ==> 1 <= |ShownSurgeryRows(a)|
  {
    var n := SurgeryRowsCalledFor(a);
    forall i | 1 <= i <= 4
      ensures Visible(a, Claim(Surgery(i, SurgeryDate))) <==> i <= n
    {
      SurgeryRowRule(a, i, SurgeryDate);
    }
    assert forall i :: i in ShownSurgeryRows(a) <==> i in FirstRows(n);
    FirstRowsSize(n);
    if Visible(a, Claim(SurgeryCount)) {
      SurgeryCountCallsForARow(Answer(a, Claim(SurgeryCount)));
    }
  }
}
