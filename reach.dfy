/** Which widgets of app.py:58-185 some session can bring onto the page:
    every one of them except the two chemotherapy dates, whose trigger
    (app.py:174) is not an option of the treatments multiselect. */
module Reach {
  import opened Session
  import opened Widgets
  import opened Form
  import opened Visibility
  import opened Rules

  /** The two widgets gated on "Antineoplastic chemotherapy". */
  predicate IsChemoDate(f: Field)
  {
    f == Neoplasm(RecentChemo) || f == Neoplasm(ChemoCompletion)
  }

  /** An answer for the gate's parent that passes the gate's last test,
      and with it every earlier one. */
  function Opener(g: Gate): Value
  {
    var w := WidgetOf(g.parent);
    if |g.tests| == 0 then Text("")
    else match g.tests[|g.tests| - 1]
      case Is(v) => Text(v)
      case IsNot(v) =>
        if (w.SelectBox? || w.Radio?) && |w.options| > 1 then
          Text(if w.options[0] != v then w.options[0] else w.options[1])
        else Text("")
      case Has(x) => Items([x])
      case InRangeOr(_, _, overflow) => Text(overflow)
  }

  /** The opener passes every test of the gate. */
  predicate OpenerPasses(g: Gate)
  {
    forall t :: t in g.tests ==> Passes(t, WidgetOf(g.parent), Some(Opener(g)))
  }

  /** Storing the opener under the parent's key opens every gate but the two
      chemotherapy ones.
      The lemmas after this one are its case split: one per part of the
      page, then one per group of a few widgets, each with an empty body.
      The split keeps each proof obligation small enough to verify; the
      helpers state nothing beyond this lemma. */
  lemma OpenerOpens(f: Field)
    ensures GateOf(f).Some? && !IsChemoDate(f) ==> OpenerPasses(GateOf(f).value)
  {
    match f
    case Claim(c) => OpenerOpensClaim(c);
    case Nasal(n) => OpenerOpensNasal(n);
    case Throat(t) => OpenerOpensThroat(t);
    case Septum(s) => OpenerOpensSeptum(s);
    case Neoplasm(n) => OpenerOpensNeoplasm(n);
    case Final(x) => OpenerOpensFinal(x);
  }

  lemma OpenerOpensClaim(c: ClaimField)
    ensures GateOf(Claim(c)).Some? && !IsChemoDate(Claim(c)) ==> OpenerPasses(GateOf(Claim(c)).value)
  {
    match c
    case Medication(i, part) => OpenerOpensMedication(i, part);
    case Surgery(i, part) => OpenerOpensSurgery(i, part);
    case ClaimType | History | TakesMedication => OpenerOpensClaim1(c);
    case MedicationCount | AdditionalMedications | ServiceConnection => OpenerOpensClaim2(c);
    case AffectedSinuses | Symptoms | ConstantFrequency => OpenerOpensClaim3(c);
    case SymptomDescription | NonIncapacitatingEpisodes | IncapacitatingEpisodes => OpenerOpensClaim4(c);
    case HadSurgery | SurgeryCount | AdditionalSurgeries => OpenerOpensClaim5(c);
    case SinusesOperated | SideOperated => OpenerOpensClaim6(c);
  }

  lemma OpenerOpensMedication(i: MedicationSlot, part: MedicationPart)
    ensures GateOf(Claim(Medication(i, part))).Some? && !IsChemoDate(Claim(Medication(i, part))) ==> OpenerPasses(GateOf(Claim(Medication(i, part))).value)
  {
  }

  lemma OpenerOpensSurgery(i: SurgerySlot, part: SurgeryPart)
    ensures GateOf(Claim(Surgery(i, part))).Some? && !IsChemoDate(Claim(Surgery(i, part))) ==> OpenerPasses(GateOf(Claim(Surgery(i, part))).value)
  {
  }

  lemma OpenerOpensClaim1(c: ClaimField)
    requires c.ClaimType? || c.History? || c.TakesMedication?
    ensures GateOf(Claim(c)).Some? && !IsChemoDate(Claim(c)) ==> OpenerPasses(GateOf(Claim(c)).value)
  {
  }

  lemma OpenerOpensClaim2(c: ClaimField)
    requires c.MedicationCount? || c.AdditionalMedications? || c.ServiceConnection?
    ensures GateOf(Claim(c)).Some? && !IsChemoDate(Claim(c)) ==> OpenerPasses(GateOf(Claim(c)).value)
  {
  }

  lemma OpenerOpensClaim3(c: ClaimField)
    requires c.AffectedSinuses? || c.Symptoms? || c.ConstantFrequency?
    ensures GateOf(Claim(c)).Some? && !IsChemoDate(Claim(c)) ==> OpenerPasses(GateOf(Claim(c)).value)
  {
  }

  lemma OpenerOpensClaim4(c: ClaimField)
    requires c.SymptomDescription? || c.NonIncapacitatingEpisodes? || c.IncapacitatingEpisodes?
    ensures GateOf(Claim(c)).Some? && !IsChemoDate(Claim(c)) ==> OpenerPasses(GateOf(Claim(c)).value)
  {
  }

  lemma OpenerOpensClaim5(c: ClaimField)
    requires c.HadSurgery? || c.SurgeryCount? || c.AdditionalSurgeries?
    ensures GateOf(Claim(c)).Some? && !IsChemoDate(Claim(c)) ==> OpenerPasses(GateOf(Claim(c)).value)
  {
  }

  lemma OpenerOpensClaim6(c: ClaimField)
    requires c.SinusesOperated? || c.SideOperated?
    ensures GateOf(Claim(c)).Some? && !IsChemoDate(Claim(c)) ==> OpenerPasses(GateOf(Claim(c)).value)
  {
  }

  lemma OpenerOpensNasal(n: NasalField)
    ensures GateOf(Nasal(n)).Some? && !IsChemoDate(Nasal(n)) ==> OpenerPasses(GateOf(Nasal(n)).value)
  {
    match n
    case Rhinitis | BilateralBlockage | CompleteBlockage => OpenerOpensNasal1(n);
    case EnlargedTurbinates | NasalPolyps => OpenerOpensNasal2(n);
  }

  lemma OpenerOpensNasal1(n: NasalField)
    requires n.Rhinitis? || n.BilateralBlockage? || n.CompleteBlockage?
    ensures GateOf(Nasal(n)).Some? && !IsChemoDate(Nasal(n)) ==> OpenerPasses(GateOf(Nasal(n)).value)
  {
  }

  lemma OpenerOpensNasal2(n: NasalField)
    requires n.EnlargedTurbinates? || n.NasalPolyps?
    ensures GateOf(Nasal(n)).Some? && !IsChemoDate(Nasal(n)) ==> OpenerPasses(GateOf(Nasal(n)).value)
  {
  }

  lemma OpenerOpensThroat(t: ThroatField)
    ensures GateOf(Throat(t)).Some? && !IsChemoDate(Throat(t)) ==> OpenerPasses(GateOf(Throat(t)).value)
  {
    match t
    case Laryngitis | LaryngitisSymptoms | HoarsenessFrequency => OpenerOpensThroat1(t);
    case OtherLaryngitis | Laryngectomy | LaryngectomyType => OpenerOpensThroat2(t);
    case LaryngectomyResiduals | StenosisResiduals | CompleteAphonia => OpenerOpensThroat3(t);
    case CompleteAphoniaSymptoms | OtherCompleteAphonia | IncompleteAphonia => OpenerOpensThroat4(t);
    case IncompleteAphoniaSymptoms | IncompleteHoarseness | OtherIncompleteAphonia => OpenerOpensThroat5(t);
    case Tracheostomy | TracheostomyReason | PharynxInjury => OpenerOpensThroat6(t);
    case PharynxSymptoms | VocalCordParalysis => OpenerOpensThroat7(t);
  }

  lemma OpenerOpensThroat1(t: ThroatField)
    requires t.Laryngitis? || t.LaryngitisSymptoms? || t.HoarsenessFrequency?
    ensures GateOf(Throat(t)).Some? && !IsChemoDate(Throat(t)) ==> OpenerPasses(GateOf(Throat(t)).value)
  {
  }

  lemma OpenerOpensThroat2(t: ThroatField)
    requires t.OtherLaryngitis? || t.Laryngectomy? || t.LaryngectomyType?
    ensures GateOf(Throat(t)).Some? && !IsChemoDate(Throat(t)) ==> OpenerPasses(GateOf(Throat(t)).value)
  {
  }

  lemma OpenerOpensThroat3(t: ThroatField)
    requires t.LaryngectomyResiduals? || t.StenosisResiduals? || t.CompleteAphonia?
    ensures GateOf(Throat(t)).Some? && !IsChemoDate(Throat(t)) ==> OpenerPasses(GateOf(Throat(t)).value)
  {
  }

  lemma OpenerOpensThroat4(t: ThroatField)
    requires t.CompleteAphoniaSymptoms? || t.OtherCompleteAphonia? || t.IncompleteAphonia?
    ensures GateOf(Throat(t)).Some? && !IsChemoDate(Throat(t)) ==> OpenerPasses(GateOf(Throat(t)).value)
  {
  }

  lemma OpenerOpensThroat5(t: ThroatField)
    requires t.IncompleteAphoniaSymptoms? || t.IncompleteHoarseness? || t.OtherIncompleteAphonia?
    ensures GateOf(Throat(t)).Some? && !IsChemoDate(Throat(t)) ==> OpenerPasses(GateOf(Throat(t)).value)
  {
  }

  lemma OpenerOpensThroat6(t: ThroatField)
    requires t.Tracheostomy? || t.TracheostomyReason? || t.PharynxInjury?
    ensures GateOf(Throat(t)).Some? && !IsChemoDate(Throat(t)) ==> OpenerPasses(GateOf(Throat(t)).value)
  {
  }

  lemma OpenerOpensThroat7(t: ThroatField)
    requires t.PharynxSymptoms? || t.VocalCordParalysis?
    ensures GateOf(Throat(t)).Some? && !IsChemoDate(Throat(t)) ==> OpenerPasses(GateOf(Throat(t)).value)
  {
  }

  lemma OpenerOpensSeptum(s: SeptumField)
    ensures GateOf(Septum(s)).Some? && !IsChemoDate(Septum(s)) ==> OpenerPasses(GateOf(Septum(s)).value)
  {
    match s
    case DeviatedSeptum | Traumatic | LeftObstruction => OpenerOpensSeptum1(s);
    case RightObstruction | BilateralObstruction => OpenerOpensSeptum2(s);
  }

  lemma OpenerOpensSeptum1(s: SeptumField)
    requires s.DeviatedSeptum? || s.Traumatic? || s.LeftObstruction?
    ensures GateOf(Septum(s)).Some? && !IsChemoDate(Septum(s)) ==> OpenerPasses(GateOf(Septum(s)).value)
  {
  }

  lemma OpenerOpensSeptum2(s: SeptumField)
    requires s.RightObstruction? || s.BilateralObstruction?
    ensures GateOf(Septum(s)).Some? && !IsChemoDate(Septum(s)) ==> OpenerPasses(GateOf(Septum(s)).value)
  {
  }

  lemma OpenerOpensNeoplasm(n: NeoplasmField)
    ensures GateOf(Neoplasm(n)).Some? && !IsChemoDate(Neoplasm(n)) ==> OpenerPasses(GateOf(Neoplasm(n)).value)
  {
    match n
    case Tumors | TumorState | TumorStatus => OpenerOpensNeoplasm1(n);
    case TumorType | PrimarySite | TreatmentStatus => OpenerOpensNeoplasm2(n);
    case Treatments | RecentRadiation | RadiationCompletion => OpenerOpensNeoplasm3(n);
    case RecentChemo | ChemoCompletion | OtherTreatments => OpenerOpensNeoplasm4(n);
    case NeoplasmSurgery | NeoplasmSurgeryDescription => OpenerOpensNeoplasm5(n);
  }

  lemma OpenerOpensNeoplasm1(n: NeoplasmField)
    requires n.Tumors? || n.TumorState? || n.TumorStatus?
    ensures GateOf(Neoplasm(n)).Some? && !IsChemoDate(Neoplasm(n)) ==> OpenerPasses(GateOf(Neoplasm(n)).value)
  {
  }

  lemma OpenerOpensNeoplasm2(n: NeoplasmField)
    requires n.TumorType? || n.PrimarySite? || n.TreatmentStatus?
    ensures GateOf(Neoplasm(n)).Some? && !IsChemoDate(Neoplasm(n)) ==> OpenerPasses(GateOf(Neoplasm(n)).value)
  {
  }

  lemma OpenerOpensNeoplasm3(n: NeoplasmField)
    requires n.Treatments? || n.RecentRadiation? || n.RadiationCompletion?
    ensures GateOf(Neoplasm(n)).Some? && !IsChemoDate(Neoplasm(n)) ==> OpenerPasses(GateOf(Neoplasm(n)).value)
  {
  }

  lemma OpenerOpensNeoplasm4(n: NeoplasmField)
    requires n.RecentChemo? || n.ChemoCompletion? || n.OtherTreatments?
    ensures GateOf(Neoplasm(n)).Some? && !IsChemoDate(Neoplasm(n)) ==> OpenerPasses(GateOf(Neoplasm(n)).value)
  {
  }

  lemma OpenerOpensNeoplasm5(n: NeoplasmField)
    requires n.NeoplasmSurgery? || n.NeoplasmSurgeryDescription?
    ensures GateOf(Neoplasm(n)).Some? && !IsChemoDate(Neoplasm(n)) ==> OpenerPasses(GateOf(Neoplasm(n)).value)
  {
  }

  lemma OpenerOpensFinal(x: FinalField)
    ensures GateOf(Final(x)).Some? && !IsChemoDate(Final(x)) ==> OpenerPasses(GateOf(Final(x)).value)
  {
    match x
    case TumorResiduals | OccupationalImpact | VeteranName => OpenerOpensFinal1(x);
    case DateSubmitted => OpenerOpensFinal2(x);
  }

  lemma OpenerOpensFinal1(x: FinalField)
    requires x.TumorResiduals? || x.OccupationalImpact? || x.VeteranName?
    ensures GateOf(Final(x)).Some? && !IsChemoDate(Final(x)) ==> OpenerPasses(GateOf(Final(x)).value)
  {
  }

  lemma OpenerOpensFinal2(x: FinalField)
    requires x.DateSubmitted?
    ensures GateOf(Final(x)).Some? && !IsChemoDate(Final(x)) ==> OpenerPasses(GateOf(Final(x)).value)
  {
  }

  /** The chemotherapy dates gate nothing, so no chain of gates runs
      through them. */
  lemma ChemoDatesGateNothing(f: Field)
    requires GateOf(f).Some?
    ensures !IsChemoDate(GateOf(f).value.parent)
  {
  }

  /** Storing an answer for a widget rendered at or after `f` does not change
      whether `f` is rendered: only earlier widgets gate it. */
  lemma {:induction false} LaterAnswerKeepsVisibility(a: State, h: Field, v: Value, f: Field)
    requires Position(f) <= Position(h)
    ensures Visible(a[Key(h) := v], f) == Visible(a, f)
    decreases Position(f)
  {
    ParentRendersFirst(f);
    match GateOf(f)
    case None =>
    case Some(g) =>
      KeysAreDistinct(g.parent, h);
      assert Stored(a[Key(h) := v], g.parent) == Stored(a, g.parent);
      LaterAnswerKeepsVisibility(a, h, v, g.parent);
  }

  /** A session that answers each gate on the way to `f` with its opener. */
  function Witness(f: Field): State
    decreases Position(f)
  {
    ParentRendersFirst(f);
    match GateOf(f)
    case None => map[]
    case Some(g) => Witness(g.parent)[Key(g.parent) := Opener(g)]
  }

  lemma {:induction false} WitnessShows(f: Field)
    requires !IsChemoDate(f)
    ensures Visible(Witness(f), f)
    decreases Position(f)
  {
    ParentRendersFirst(f);
    match GateOf(f)
    case None =>
    case Some(g) =>
      ChemoDatesGateNothing(f);
      WitnessShows(g.parent);
      LaterAnswerKeepsVisibility(Witness(g.parent), g.parent, Opener(g), g.parent);
      OpenerOpens(f);
      assert OpenerPasses(g);
      assert Stored(Witness(f), g.parent) == Some(Opener(g));
  }

  /** Some session renders a widget exactly when it is not one of the two
      chemotherapy dates. */
  lemma ReachableWidgets(f: Field)
    ensures (exists a :: Visible(a, f)) <==> !IsChemoDate(f)
  {
    if IsChemoDate(f) {
      forall a ensures !Visible(a, f) {
        ChemotherapyDatesNeverShown(a);
      }
    } else {
      WitnessShows(f);
      var a := Witness(f);
      assert Visible(a, f);
      assert exists b :: Visible(b, f);
    }
  }

  /** With the trigger corrected to "Chemotherapy", every widget of the page
      is rendered by some session. */
  lemma EveryWidgetReachableAsIntended(f: Field)
    ensures exists a :: VisibleAsIntended(a, f)
  {
    if IsChemoDate(f) {
      var t := Neoplasm(Treatments);
      var a := Witness(t)[Key(t) := Items([INTENDED_CHEMO_TRIGGER])];
      WitnessShows(t);
      LaterAnswerKeepsVisibility(Witness(t), t, Items([INTENDED_CHEMO_TRIGGER]), t);
      assert Stored(a, t) == Some(Items([INTENDED_CHEMO_TRIGGER]));
      assert Selection(a, t) == [INTENDED_CHEMO_TRIGGER];
      assert VisibleAsIntended(a, f);
    } else {
      WitnessShows(f);
      assert VisibleAsIntended(Witness(f), f);
    }
  }
}
