/** Named consequences of the gating in app.py:58-185 and of the export
    filter at app.py:191 and app.py:197. */
module Rules {
  import opened Session
  import opened Widgets
  import opened Form
  import opened Visibility

  /** A claim type other than the placeholder has been chosen (app.py:64). */
  predicate ClaimChosen(a: State)
  {
    Answer(a, Claim(ClaimType)) != CLAIM_UNSELECTED
  }

  /** Every claim-section widget but the claim selectbox hangs, through its
      chain of gates, off the test `claim != "--select an item--"`. */
  lemma ClaimSectionHangsOffClaimType(f: Field)
    requires f.Claim? && f != Claim(ClaimType)
    ensures GateOf(f).Some?
    ensures GateOf(f).value.parent == Claim(ClaimType) ==> GateOf(f).value.tests == [IsNot(CLAIM_UNSELECTED)]
  {
  }

  /** While the claim selectbox is on its placeholder, nothing else of the
      claim section (history, medication, service connection, surgery) is
      rendered. */
  lemma {:induction false} ClaimPlaceholderHidesClaimSection(a: State, f: Field)
    requires !ClaimChosen(a)
    requires f.Claim? && f != Claim(ClaimType)
    ensures !Visible(a, f)
    decreases Position(f)
  {
    ClaimSectionHangsOffClaimType(f);
    ParentRendersFirst(f);
    var g := GateOf(f).value;
    if g.parent == Claim(ClaimType) {
      assert IsNot(CLAIM_UNSELECTED) in g.tests;
    } else {
      ClaimPlaceholderHidesClaimSection(a, g.parent);
    }
  }

  /** An untouched claim selectbox is on its placeholder. */
  lemma UnansweredClaimIsPlaceholder(a: State)
    requires Key(Claim(ClaimType)) !in a
    ensures !ClaimChosen(a)
  {
  }

  /** Once a claim type is chosen, the history area and the medication and
      service-connection radios are rendered. */
  lemma ClaimChoiceOpensQuestions(a: State)
    ensures Visible(a, Claim(History)) <==> ClaimChosen(a)
    ensures Visible(a, Claim(TakesMedication)) <==> ClaimChosen(a)
    ensures Visible(a, Claim(ServiceConnection)) <==> ClaimChosen(a)
  {
    GatedOnIsNot(a, Claim(History), Claim(ClaimType), CLAIM_UNSELECTED);
    GatedOnIsNot(a, Claim(TakesMedication), Claim(ClaimType), CLAIM_UNSELECTED);
    GatedOnIsNot(a, Claim(ServiceConnection), Claim(ClaimType), CLAIM_UNSELECTED);
  }

  /** From the "Rhinitis" header on, what is rendered does not depend on
      anything answered in the claim section, the claim selectbox included. */
  lemma RestOfPageIgnoresClaimSection(a: State, b: State, f: Field)
    requires !f.Claim?
    requires forall g: Field :: !g.Claim? ==> Stored(a, g) == Stored(b, g)
    ensures Visible(a, f) == Visible(b, f)
  {
    VisibilityIsLocalToSection(a, b, f);
  }

  /** The near-constant frequency selectbox needs a chosen claim type,
      service connection "Yes" and "Near Constant Sinusitis" among the
      selected symptoms (app.py:90-94). */
  lemma ConstantFrequencyRule(a: State)
    ensures Visible(a, Claim(ConstantFrequency)) <==>
            && ClaimChosen(a)
            && Answer(a, Claim(ServiceConnection)) == "Yes"
            && "Near Constant Sinusitis" in Selection(a, Claim(Symptoms))
  {
    GatedOnHas(a, Claim(ConstantFrequency), Claim(Symptoms), "Near Constant Sinusitis");
    GatedOnIs(a, Claim(Symptoms), Claim(ServiceConnection), "Yes");
    GatedOnIsNot(a, Claim(ServiceConnection), Claim(ClaimType), CLAIM_UNSELECTED);
    Ungated(a, Claim(ClaimType));
  }

  /** The primary-site area needs tumors "Yes", state "Malignant" and type
      "Secondary" (app.py:162-167). */
  lemma PrimarySiteRule(a: State)
    ensures Visible(a, Neoplasm(PrimarySite)) <==>
            && Answer(a, Neoplasm(Tumors)) == "Yes"
            && Answer(a, Neoplasm(TumorState)) == "Malignant"
            && Answer(a, Neoplasm(TumorType)) == "Secondary"
  {
    GatedOnIs(a, Neoplasm(PrimarySite), Neoplasm(TumorType), "Secondary");
    GatedOnIs(a, Neoplasm(TumorType), Neoplasm(TumorState), "Malignant");
    GatedOnIs(a, Neoplasm(TumorState), Neoplasm(Tumors), "Yes");
    Ungated(a, Neoplasm(Tumors));
  }

  /** The two radiation dates need tumors "Yes", a treatment status other
      than "No" and "Radiation" among the treatments (app.py:168-173). */
  lemma RadiationDatesRule(a: State)
    ensures Visible(a, Neoplasm(RecentRadiation)) <==>
            && Answer(a, Neoplasm(Tumors)) == "Yes"
            && Answer(a, Neoplasm(TreatmentStatus)) != "No"
            && "Radiation" in Selection(a, Neoplasm(Treatments))
    ensures Visible(a, Neoplasm(RadiationCompletion)) <==> Visible(a, Neoplasm(RecentRadiation))
  {
    GatedOnHas(a, Neoplasm(RecentRadiation), Neoplasm(Treatments), "Radiation");
    GatedOnHas(a, Neoplasm(RadiationCompletion), Neoplasm(Treatments), "Radiation");
    GatedOnIsNot(a, Neoplasm(Treatments), Neoplasm(TreatmentStatus), "No");
    GatedOnIs(a, Neoplasm(TreatmentStatus), Neoplasm(Tumors), "Yes");
    Ungated(a, Neoplasm(Tumors));
  }

  /** The two laryngitis text areas each need laryngitis "Yes" and their own
      symptom ticked (app.py:127-130). */
  lemma LaryngitisTriggersRule(a: State)
    ensures Visible(a, Throat(HoarsenessFrequency)) <==>
            Answer(a, Throat(Laryngitis)) == "Yes" && "Hoarseness" in Selection(a, Throat(LaryngitisSymptoms))
    ensures Visible(a, Throat(OtherLaryngitis)) <==>
            Answer(a, Throat(Laryngitis)) == "Yes" && "Other" in Selection(a, Throat(LaryngitisSymptoms))
  {
    GatedOnHas(a, Throat(HoarsenessFrequency), Throat(LaryngitisSymptoms), "Hoarseness");
    GatedOnHas(a, Throat(OtherLaryngitis), Throat(LaryngitisSymptoms), "Other");
    GatedOnIs(a, Throat(LaryngitisSymptoms), Throat(Laryngitis), "Yes");
    Ungated(a, Throat(Laryngitis));
  }

  /** The laryngectomy residuals area needs laryngectomy "Yes" and type
      "Partial" (app.py:132-134). */
  lemma LaryngectomyResidualsRule(a: State)
    ensures Visible(a, Throat(LaryngectomyResiduals)) <==>
            Answer(a, Throat(Laryngectomy)) == "Yes" && Answer(a, Throat(LaryngectomyType)) == "Partial"
  {
    GatedOnIs(a, Throat(LaryngectomyResiduals), Throat(LaryngectomyType), "Partial");
    GatedOnIs(a, Throat(LaryngectomyType), Throat(Laryngectomy), "Yes");
    Ungated(a, Throat(Laryngectomy));
  }

  /** As written, the chemotherapy dates can never be rendered: the gate
      looks for "Antineoplastic chemotherapy" (app.py:174), which is not an
      option of the treatments multiselect (app.py:170), and a multiselect
      returns only its own options. */
  lemma ChemotherapyDatesNeverShown(a: State)
    ensures !Visible(a, Neoplasm(RecentChemo))
    ensures !Visible(a, Neoplasm(ChemoCompletion))
  {
    var t := Neoplasm(Treatments);
    assert CHEMO_TRIGGER !in WidgetOf(t).options;
    GatedOnHas(a, Neoplasm(RecentChemo), t, CHEMO_TRIGGER);
    GatedOnHas(a, Neoplasm(ChemoCompletion), t, CHEMO_TRIGGER);
  }

  /** A session in which chemotherapy is plainly selected as a treatment of a
      tumor, and the chemotherapy dates are still not rendered. */
  lemma ChemotherapySelectedButDatesHidden()
    ensures var a := map[Key(Neoplasm(Tumors)) := Text("Yes"), Key(Neoplasm(Treatments)) := Items(["Chemotherapy"])];
            Visible(a, Neoplasm(Treatments)) && "Chemotherapy" in Selection(a, Neoplasm(Treatments))
            && !Visible(a, Neoplasm(RecentChemo))
  {
    var a := map[Key(Neoplasm(Tumors)) := Text("Yes"), Key(Neoplasm(Treatments)) := Items(["Chemotherapy"])];
    var tumors, status, treatments := Neoplasm(Tumors), Neoplasm(TreatmentStatus), Neoplasm(Treatments);
    assert Key(tumors)[20] != Key(status)[20];
    assert Key(treatments)[20] != Key(status)[20];
    assert Key(tumors)[21] != Key(treatments)[21];
    assert Stored(a, tumors) == Some(Text("Yes"));
    assert Stored(a, status) == None;
    assert Stored(a, treatments) == Some(Items(["Chemotherapy"]));
    assert Answer(a, tumors) == "Yes";
    assert Answer(a, status) == "Yes - Current";
    assert Selection(a, treatments) == ["Chemotherapy"];
    Ungated(a, tumors);
    GatedOnIs(a, status, tumors, "Yes");
    GatedOnIsNot(a, treatments, status, "No");
    ChemotherapyDatesNeverShown(a);
  }

  /** The gate the chemotherapy dates evidently call for: the option the
      treatments multiselect actually offers. */
  const INTENDED_CHEMO_TRIGGER := "Chemotherapy"

  /** Visibility with the chemotherapy dates gated on the offered option;
      every other widget as app.py renders it. */
  predicate VisibleAsIntended(a: State, f: Field)
  {
    if f == Neoplasm(RecentChemo) || f == Neoplasm(ChemoCompletion) then
      Visible(a, Neoplasm(Treatments)) && Opens(a, Gate(Neoplasm(Treatments), [Has(INTENDED_CHEMO_TRIGGER)]))
    else Visible(a, f)
  }

  /** With the corrected trigger the chemotherapy dates are rendered exactly
      when radiation's are for radiation: tumors "Yes", a treatment status
      other than "No" and chemotherapy among the treatments. */
  lemma ChemotherapyDatesShownAsIntended(a: State)
    ensures VisibleAsIntended(a, Neoplasm(RecentChemo)) <==>
            && Answer(a, Neoplasm(Tumors)) == "Yes"
            && Answer(a, Neoplasm(TreatmentStatus)) != "No"
            && "Chemotherapy" in Selection(a, Neoplasm(Treatments))
    ensures VisibleAsIntended(a, Neoplasm(ChemoCompletion)) <==> VisibleAsIntended(a, Neoplasm(RecentChemo))
  {
    GatedOnIsNot(a, Neoplasm(Treatments), Neoplasm(TreatmentStatus), "No");
    GatedOnIs(a, Neoplasm(TreatmentStatus), Neoplasm(Tumors), "Yes");
    Ungated(a, Neoplasm(Tumors));
    var g := Gate(Neoplasm(Treatments), [Has(INTENDED_CHEMO_TRIGGER)]);
    assert Opens(a, g) <==> INTENDED_CHEMO_TRIGGER in Selection(a, Neoplasm(Treatments)) by {
      assert Has(INTENDED_CHEMO_TRIGGER) in g.tests;
    }
  }

  /** The laryngeal stenosis radio and the whole final-details section are
      rendered for every session (app.py:136, 182-185). */
  lemma UnconditionalWidgets(a: State, f: Field)
    requires f == Throat(StenosisResiduals) || f.Final?
    ensures Visible(a, f)
  {
  }

  /** The two prompts above the history area (app.py:65): the initial-claim
      one also asks for the link to military service. */
  const INITIAL_CLAIM_PROMPT :=
    "Briefly describe the history of your sinus condition, including how and when your symptoms began and the link between your injury and military service."
  const HISTORY_PROMPT :=
    "Briefly describe the history of your sinus condition, including how and when your symptoms began:"

  /** The prompt the page shows above the history area, if it shows the
      area at all: the initial-claim prompt for "Initial Claim", the shorter
      one for any other claim type. */
  function ShownHistoryPrompt(a: State): Option<string>
  {
    if !Visible(a, Claim(History)) then None
    else if Answer(a, Claim(ClaimType)) == "Initial Claim" then Some(INITIAL_CLAIM_PROMPT)
    else Some(HISTORY_PROMPT)
  }

  /** A prompt is shown exactly with the history area; which one depends
      only on the claim type: none for the placeholder, the initial-claim
      prompt for "Initial Claim" and the shorter prompt for "Re-evaluation for
      Existing". */
  lemma HistoryPromptShown(a: State)
    ensures ShownHistoryPrompt(a).Some? <==> Visible(a, Claim(History))
    ensures ShownHistoryPrompt(a).None? <==> Answer(a, Claim(ClaimType)) == CLAIM_UNSELECTED
    ensures ShownHistoryPrompt(a) == Some(INITIAL_CLAIM_PROMPT) <==> Answer(a, Claim(ClaimType)) == "Initial Claim"
    ensures ShownHistoryPrompt(a) == Some(HISTORY_PROMPT) <==> Answer(a, Claim(ClaimType)) == "Re-evaluation for Existing"
  {
    ClaimChoiceOpensQuestions(a);
    assert |INITIAL_CLAIM_PROMPT| != |HISTORY_PROMPT|;
  }

  /** Every widget's stored answer reaches the audit and download payload
      unchanged, whether or not the widget is currently rendered. */
  lemma EveryAnswerIsExported(a: State, f: Field)
    requires Key(f) in a
    ensures Key(f) in Payload(a) && Payload(a)[Key(f)] == a[Key(f)]
  {
    KeyIsTagged(f);
  }

  /** The payload is what the session holds under the widgets' keys, plus
      any other session entry whose key happens to carry the tag. */
  lemma PayloadCoversTheForm(a: State)
    ensures forall f :: Stored(Payload(a), f) == Stored(a, f)
  {
    forall f ensures Stored(Payload(a), f) == Stored(a, f) {
      if Key(f) in a {
        EveryAnswerIsExported(a, f);
      }
    }
  }

  /** Rendering reads the payload exactly as it reads the session. */
  lemma PayloadPreservesVisibility(a: State, f: Field)
    ensures Visible(Payload(a), f) == Visible(a, f)
  {
    PayloadCoversTheForm(a);
    VisibilityIsLocalToSection(a, Payload(a), f);
  }
}
