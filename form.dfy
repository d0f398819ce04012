/** The questionnaire of app.py:58-185 as data: every widget, its session key,
    its kind and options, the section it is rendered under, its place in the
    rendering order, and the gate (the enclosing `if`s) it is rendered behind. */
module Form {
  import opened Session
  import opened Widgets

  type MedicationSlot = i: int | 1 <= i <= 3 witness 1
  type SurgerySlot = i: int | 1 <= i <= 4 witness 1

  datatype MedicationPart = MedicationName | Dosage | Frequency
  datatype SurgeryPart = SurgeryDate | SurgeryType | Findings

  /** The widgets of the claim, medication, service-connection and surgery
      questions (app.py:58-117). */
  datatype ClaimField =
    | ClaimType | History | TakesMedication | MedicationCount
    | Medication(mslot: MedicationSlot, mpart: MedicationPart)
    | AdditionalMedications
    | ServiceConnection | AffectedSinuses | Symptoms | ConstantFrequency | SymptomDescription
    | NonIncapacitatingEpisodes | IncapacitatingEpisodes
    | HadSurgery | SurgeryCount
    | Surgery(sslot: SurgerySlot, spart: SurgeryPart)
    | AdditionalSurgeries | SinusesOperated | SideOperated

  /** The widgets under the "Rhinitis" header (app.py:119-124). */
  datatype NasalField = Rhinitis | BilateralBlockage | CompleteBlockage | EnlargedTurbinates | NasalPolyps

  /** The widgets under the "Larynx and Pharynx Conditions" header (app.py:126-152). */
  datatype ThroatField =
    | Laryngitis | LaryngitisSymptoms | HoarsenessFrequency | OtherLaryngitis
    | Laryngectomy | LaryngectomyType | LaryngectomyResiduals
    | StenosisResiduals
    | CompleteAphonia | CompleteAphoniaSymptoms | OtherCompleteAphonia
    | IncompleteAphonia | IncompleteAphoniaSymptoms | IncompleteHoarseness | OtherIncompleteAphonia
    | Tracheostomy | TracheostomyReason
    | PharynxInjury | PharynxSymptoms | VocalCordParalysis

  /** The widgets under the "Deviated Septum" header (app.py:154-159). */
  datatype SeptumField = DeviatedSeptum | Traumatic | LeftObstruction | RightObstruction | BilateralObstruction

  /** The widgets under the "Tumors/Neoplasms" header (app.py:161-179). */
  datatype NeoplasmField =
    | Tumors | TumorState | TumorStatus | TumorType | PrimarySite
    | TreatmentStatus | Treatments | RecentRadiation | RadiationCompletion
    | RecentChemo | ChemoCompletion | OtherTreatments
    | NeoplasmSurgery | NeoplasmSurgeryDescription

  /** The widgets under the "Final Details" header (app.py:181-185). */
  datatype FinalField = TumorResiduals | OccupationalImpact | VeteranName | DateSubmitted

  /** One widget of the page: the part of the page it is rendered in, and
      which of that part's widgets it is. */
  datatype Field =
    | Claim(claim: ClaimField)
    | Nasal(nasal: NasalField)
    | Throat(throat: ThroatField)
    | Septum(septum: SeptumField)
    | Neoplasm(neoplasm: NeoplasmField)
    | Final(final: FinalField)

  const KEY_PREFIX: string := "Sinusitis__c."

  /** The (name, dosage, frequency) keys of the three medication rows (app.py:74-78). */
  const MEDICATION_ROWS: seq<(string, string, string)> := [
    ("Sinus_Q11aaa__c", "Sinus_Q11aab__c", "Sinus_Q11aac__c"),
    ("Sinus_Q11aba__c", "Sinus_Q11abb__c", "Sinus_Q11abc__c"),
    ("Sinus_Q11aca__c", "Sinus_Q11acb__c", "Sinus_Q11acc__c")
  ]

  /** The (date, type, findings) keys of the four surgery rows (app.py:102-106). */
  const SURGERY_ROWS: seq<(string, string, string)> := [
    ("Sinus_Q17aaa__c", "Sinus_Q17aaa1__c", "Sinus_Q17aab__c"),
    ("Sinus_Q17aba__c", "Sinus_Q17aba1__c", "Sinus_Q17abb__c"),
    ("Sinus_Q17abc__c", "Sinus_Q17abc1__c", "Sinus_Q17aca__c"),
    ("Sinus_Q17acb__c", "Sinus_Q17acb1__c", "Sinus_Q17acc__c")
  ]

  /** The part of the session key after the form's prefix. */
  function Name(f: Field): string
  {
    match f
    case Claim(ClaimType) => "Sinusitis_1a__c"
    case Claim(History) => "Sinus_Q10c__c"
    case Claim(TakesMedication) => "Sinus_Q11__c"
    case Claim(MedicationCount) => "Sinus_Q11a__c"
    case Claim(Medication(i, part)) =>
      var row := MEDICATION_ROWS[i - 1];
      (match part case MedicationName => row.0 case Dosage => row.1 case Frequency => row.2)
    case Claim(AdditionalMedications) => "Sinus_Q11b__c"
    case Claim(ServiceConnection) => "Sinus_Q48__c"
    case Claim(AffectedSinuses) => "Sinus_Q34__c"
    case Claim(Symptoms) => "Sinus_Q12__c"
    case Claim(ConstantFrequency) => "Sinus_Q13__c"
    case Claim(SymptomDescription) => "Sinus_Q14__c"
    case Claim(NonIncapacitatingEpisodes) => "Sinus_Q15__c"
    case Claim(IncapacitatingEpisodes) => "Sinus_Q16__c"
    case Claim(HadSurgery) => "Sinus_Q17__c"
    case Claim(SurgeryCount) => "Sinus_Q17a__c"
    case Claim(Surgery(i, part)) =>
      var row := SURGERY_ROWS[i - 1];
      (match part case SurgeryDate => row.0 case SurgeryType => row.1 case Findings => row.2)
    case Claim(AdditionalSurgeries) => "Sinus_Q17b__c"
    case Claim(SinusesOperated) => "Sinus_Q17c__c"
    case Claim(SideOperated) => "Sinus_Q17d__c"
    case Nasal(Rhinitis) => "Sinus_Q20__c"
    case Nasal(BilateralBlockage) => "Sinus_Q20a__c"
    case Nasal(CompleteBlockage) => "Sinus_Q20b__c"
    case Nasal(EnlargedTurbinates) => "Sinus_Q20c__c"
    case Nasal(NasalPolyps) => "Sinus_Q20d__c"
    case Throat(Laryngitis) => "Sinus_Q35__c"
    case Throat(LaryngitisSymptoms) => "Sinus_Q35a__c"
    case Throat(HoarsenessFrequency) => "Sinus_Q35b__c"
    case Throat(OtherLaryngitis) => "Sinus_Q35c__c"
    case Throat(Laryngectomy) => "Sinus_Q36__c"
    case Throat(LaryngectomyType) => "Sinus_Q36a__c"
    case Throat(LaryngectomyResiduals) => "Sinus_Q36b__c"
    case Throat(StenosisResiduals) => "Sinus_Q36c__c"
    case Throat(CompleteAphonia) => "Sinus_Q36d__c"
    case Throat(CompleteAphoniaSymptoms) => "Sinus_Q36e__c"
    case Throat(OtherCompleteAphonia) => "Sinus_Q36f__c"
    case Throat(IncompleteAphonia) => "Sinus_Q36g__c"
    case Throat(IncompleteAphoniaSymptoms) => "Sinus_Q36h__c"
    case Throat(IncompleteHoarseness) => "Sinus_Q37__c"
    case Throat(OtherIncompleteAphonia) => "Sinus_Q37a__c"
    case Throat(Tracheostomy) => "Sinus_Q38__c"
    case Throat(TracheostomyReason) => "Sinus_Q38a__c"
    case Throat(PharynxInjury) => "Sinus_Q39__c"
    case Throat(PharynxSymptoms) => "Sinus_Q39a__c"
    case Throat(VocalCordParalysis) => "Sinus_Q39c__c"
    case Septum(DeviatedSeptum) => "Sinus_Q30__c"
    case Septum(Traumatic) => "Sinus_Q31__c"
    case Septum(LeftObstruction) => "Sinus_Q40__c"
    case Septum(RightObstruction) => "Sinus_Q41__c"
    case Septum(BilateralObstruction) => "Sinus_Q32__c"
    case Neoplasm(Tumors) => "Sinus_Q43__c"
    case Neoplasm(TumorState) => "Sinus_Q42__c"
    case Neoplasm(TumorStatus) => "Sinus_Q49__c"
    case Neoplasm(TumorType) => "Sinus_Q50__c"
    case Neoplasm(PrimarySite) => "Sinus_Q51__c"
    case Neoplasm(TreatmentStatus) => "Sinus_Q52__c"
    case Neoplasm(Treatments) => "Sinus_Q44__c"
    case Neoplasm(RecentRadiation) => "Sinus_Q53__c"
    case Neoplasm(RadiationCompletion) => "Sinus_Q54__c"
    case Neoplasm(RecentChemo) => "Sinus_Q55__c"
    case Neoplasm(ChemoCompletion) => "Sinus_Q56__c"
    case Neoplasm(OtherTreatments) => "Sinus_Q45__c"
    case Neoplasm(NeoplasmSurgery) => "Sinus_Q46__c"
    case Neoplasm(NeoplasmSurgeryDescription) => "Sinus_Q47__c"
    case Final(TumorResiduals) => "Sinus_Q42e__c"
    case Final(OccupationalImpact) => "Sinus_Q21__c"
    case Final(VeteranName) => "DBQ__c.Veteran_Name_Text__c"
    case Final(DateSubmitted) => "Date_Submitted__c"
  }


  /** The widget whose key suffix is `name`, if any: the inverse of `Name`. */
  function FieldOfName(name: string): Option<Field>
  {
    match name
    case "Sinusitis_1a__c" => Some(Claim(ClaimType))
    case "Sinus_Q10c__c" => Some(Claim(History))
    case "Sinus_Q11__c" => Some(Claim(TakesMedication))
    case "Sinus_Q11a__c" => Some(Claim(MedicationCount))
    case "Sinus_Q11aaa__c" => Some(Claim(Medication(1, MedicationName)))
    case "Sinus_Q11aab__c" => Some(Claim(Medication(1, Dosage)))
    case "Sinus_Q11aac__c" => Some(Claim(Medication(1, Frequency)))
    case "Sinus_Q11aba__c" => Some(Claim(Medication(2, MedicationName)))
    case "Sinus_Q11abb__c" => Some(Claim(Medication(2, Dosage)))
    case "Sinus_Q11abc__c" => Some(Claim(Medication(2, Frequency)))
    case "Sinus_Q11aca__c" => Some(Claim(Medication(3, MedicationName)))
    case "Sinus_Q11acb__c" => Some(Claim(Medication(3, Dosage)))
    case "Sinus_Q11acc__c" => Some(Claim(Medication(3, Frequency)))
    case "Sinus_Q11b__c" => Some(Claim(AdditionalMedications))
    case "Sinus_Q48__c" => Some(Claim(ServiceConnection))
    case "Sinus_Q34__c" => Some(Claim(AffectedSinuses))
    case "Sinus_Q12__c" => Some(Claim(Symptoms))
    case "Sinus_Q13__c" => Some(Claim(ConstantFrequency))
    case "Sinus_Q14__c" => Some(Claim(SymptomDescription))
    case "Sinus_Q15__c" => Some(Claim(NonIncapacitatingEpisodes))
    case "Sinus_Q16__c" => Some(Claim(IncapacitatingEpisodes))
    case "Sinus_Q17__c" => Some(Claim(HadSurgery))
    case "Sinus_Q17a__c" => Some(Claim(SurgeryCount))
    case "Sinus_Q17aaa__c" => Some(Claim(Surgery(1, SurgeryDate)))
    case "Sinus_Q17aaa1__c" => Some(Claim(Surgery(1, SurgeryType)))
    case "Sinus_Q17aab__c" => Some(Claim(Surgery(1, Findings)))
    case "Sinus_Q17aba__c" => Some(Claim(Surgery(2, SurgeryDate)))
    case "Sinus_Q17aba1__c" => Some(Claim(Surgery(2, SurgeryType)))
    case "Sinus_Q17abb__c" => Some(Claim(Surgery(2, Findings)))
    case "Sinus_Q17abc__c" => Some(Claim(Surgery(3, SurgeryDate)))
    case "Sinus_Q17abc1__c" => Some(Claim(Surgery(3, SurgeryType)))
    case "Sinus_Q17aca__c" => Some(Claim(Surgery(3, Findings)))
    case "Sinus_Q17acb__c" => Some(Claim(Surgery(4, SurgeryDate)))
    case "Sinus_Q17acb1__c" => Some(Claim(Surgery(4, SurgeryType)))
    case "Sinus_Q17acc__c" => Some(Claim(Surgery(4, Findings)))
    case "Sinus_Q17b__c" => Some(Claim(AdditionalSurgeries))
    case "Sinus_Q17c__c" => Some(Claim(SinusesOperated))
    case "Sinus_Q17d__c" => Some(Claim(SideOperated))
    case "Sinus_Q20__c" => Some(Nasal(Rhinitis))
    case "Sinus_Q20a__c" => Some(Nasal(BilateralBlockage))
    case "Sinus_Q20b__c" => Some(Nasal(CompleteBlockage))
    case "Sinus_Q20c__c" => Some(Nasal(EnlargedTurbinates))
    case "Sinus_Q20d__c" => Some(Nasal(NasalPolyps))
    case "Sinus_Q35__c" => Some(Throat(Laryngitis))
    case "Sinus_Q35a__c" => Some(Throat(LaryngitisSymptoms))
    case "Sinus_Q35b__c" => Some(Throat(HoarsenessFrequency))
    case "Sinus_Q35c__c" => Some(Throat(OtherLaryngitis))
    case "Sinus_Q36__c" => Some(Throat(Laryngectomy))
    case "Sinus_Q36a__c" => Some(Throat(LaryngectomyType))
    case "Sinus_Q36b__c" => Some(Throat(LaryngectomyResiduals))
    case "Sinus_Q36c__c" => Some(Throat(StenosisResiduals))
    case "Sinus_Q36d__c" => Some(Throat(CompleteAphonia))
    case "Sinus_Q36e__c" => Some(Throat(CompleteAphoniaSymptoms))
    case "Sinus_Q36f__c" => Some(Throat(OtherCompleteAphonia))
    case "Sinus_Q36g__c" => Some(Throat(IncompleteAphonia))
    case "Sinus_Q36h__c" => Some(Throat(IncompleteAphoniaSymptoms))
    case "Sinus_Q37__c" => Some(Throat(IncompleteHoarseness))
    case "Sinus_Q37a__c" => Some(Throat(OtherIncompleteAphonia))
    case "Sinus_Q38__c" => Some(Throat(Tracheostomy))
    case "Sinus_Q38a__c" => Some(Throat(TracheostomyReason))
    case "Sinus_Q39__c" => Some(Throat(PharynxInjury))
    case "Sinus_Q39a__c" => Some(Throat(PharynxSymptoms))
    case "Sinus_Q39c__c" => Some(Throat(VocalCordParalysis))
    case "Sinus_Q30__c" => Some(Septum(DeviatedSeptum))
    case "Sinus_Q31__c" => Some(Septum(Traumatic))
    case "Sinus_Q40__c" => Some(Septum(LeftObstruction))
    case "Sinus_Q41__c" => Some(Septum(RightObstruction))
    case "Sinus_Q32__c" => Some(Septum(BilateralObstruction))
    case "Sinus_Q43__c" => Some(Neoplasm(Tumors))
    case "Sinus_Q42__c" => Some(Neoplasm(TumorState))
    case "Sinus_Q49__c" => Some(Neoplasm(TumorStatus))
    case "Sinus_Q50__c" => Some(Neoplasm(TumorType))
    case "Sinus_Q51__c" => Some(Neoplasm(PrimarySite))
    case "Sinus_Q52__c" => Some(Neoplasm(TreatmentStatus))
    case "Sinus_Q44__c" => Some(Neoplasm(Treatments))
    case "Sinus_Q53__c" => Some(Neoplasm(RecentRadiation))
    case "Sinus_Q54__c" => Some(Neoplasm(RadiationCompletion))
    case "Sinus_Q55__c" => Some(Neoplasm(RecentChemo))
    case "Sinus_Q56__c" => Some(Neoplasm(ChemoCompletion))
    case "Sinus_Q45__c" => Some(Neoplasm(OtherTreatments))
    case "Sinus_Q46__c" => Some(Neoplasm(NeoplasmSurgery))
    case "Sinus_Q47__c" => Some(Neoplasm(NeoplasmSurgeryDescription))
    case "Sinus_Q42e__c" => Some(Final(TumorResiduals))
    case "Sinus_Q21__c" => Some(Final(OccupationalImpact))
    case "DBQ__c.Veteran_Name_Text__c" => Some(Final(VeteranName))
    case "Date_Submitted__c" => Some(Final(DateSubmitted))
    case _ => None
  }

  /** Decoding a widget's key suffix gives back the widget.
      The lemmas after this one are its case split: one per part of the
      page, then one per group of a few widgets, each with an empty body.
      The split keeps each proof obligation small enough to verify; the
      helpers state nothing beyond this lemma. */
  lemma NameRoundTrip(f: Field)
    ensures FieldOfName(Name(f)) == Some(f)
  {
    match f
    case Claim(c) => NameRoundTripClaim(c);
    case Nasal(n) => NameRoundTripNasal(n);
    case Throat(t) => NameRoundTripThroat(t);
    case Septum(s) => NameRoundTripSeptum(s);
    case Neoplasm(n) => NameRoundTripNeoplasm(n);
    case Final(x) => NameRoundTripFinal(x);
  }

  lemma NameRoundTripClaim(c: ClaimField)
    ensures FieldOfName(Name(Claim(c))) == Some(Claim(c))
  {
    match c
    case Medication(i, part) => NameRoundTripMedication(i, part);
    case Surgery(i, part) => NameRoundTripSurgery(i, part);
    case ClaimType | History | TakesMedication => NameRoundTripClaim1(c);
    case MedicationCount | AdditionalMedications | ServiceConnection => NameRoundTripClaim2(c);
    case AffectedSinuses | Symptoms | ConstantFrequency => NameRoundTripClaim3(c);
    case SymptomDescription | NonIncapacitatingEpisodes | IncapacitatingEpisodes => NameRoundTripClaim4(c);
    case HadSurgery | SurgeryCount | AdditionalSurgeries => NameRoundTripClaim5(c);
    case SinusesOperated | SideOperated => NameRoundTripClaim6(c);
  }

  lemma NameRoundTripMedication(i: MedicationSlot, part: MedicationPart)
    ensures FieldOfName(Name(Claim(Medication(i, part)))) == Some(Claim(Medication(i, part)))
  {
  }

  lemma NameRoundTripSurgery(i: SurgerySlot, part: SurgeryPart)
    ensures FieldOfName(Name(Claim(Surgery(i, part)))) == Some(Claim(Surgery(i, part)))
  {
  }

  lemma NameRoundTripClaim1(c: ClaimField)
    requires c.ClaimType? || c.History? || c.TakesMedication?
    ensures FieldOfName(Name(Claim(c))) == Some(Claim(c))
  {
  }

  lemma NameRoundTripClaim2(c: ClaimField)
    requires c.MedicationCount? || c.AdditionalMedications? || c.ServiceConnection?
    ensures FieldOfName(Name(Claim(c))) == Some(Claim(c))
  {
  }

  lemma NameRoundTripClaim3(c: ClaimField)
    requires c.AffectedSinuses? || c.Symptoms? || c.ConstantFrequency?
    ensures FieldOfName(Name(Claim(c))) == Some(Claim(c))
  {
  }

  lemma NameRoundTripClaim4(c: ClaimField)
    requires c.SymptomDescription? || c.NonIncapacitatingEpisodes? || c.IncapacitatingEpisodes?
    ensures FieldOfName(Name(Claim(c))) == Some(Claim(c))
  {
  }

  lemma NameRoundTripClaim5(c: ClaimField)
    requires c.HadSurgery? || c.SurgeryCount? || c.AdditionalSurgeries?
    ensures FieldOfName(Name(Claim(c))) == Some(Claim(c))
  {
  }

  lemma NameRoundTripClaim6(c: ClaimField)
    requires c.SinusesOperated? || c.SideOperated?
    ensures FieldOfName(Name(Claim(c))) == Some(Claim(c))
  {
  }

  lemma NameRoundTripNasal(n: NasalField)
    ensures FieldOfName(Name(Nasal(n))) == Some(Nasal(n))
  {
    match n
    case Rhinitis | BilateralBlockage | CompleteBlockage => NameRoundTripNasal1(n);
    case EnlargedTurbinates | NasalPolyps => NameRoundTripNasal2(n);
  }

  lemma NameRoundTripNasal1(n: NasalField)
    requires n.Rhinitis? || n.BilateralBlockage? || n.CompleteBlockage?
    ensures FieldOfName(Name(Nasal(n))) == Some(Nasal(n))
  {
  }

  lemma NameRoundTripNasal2(n: NasalField)
    requires n.EnlargedTurbinates? || n.NasalPolyps?
    ensures FieldOfName(Name(Nasal(n))) == Some(Nasal(n))
  {
  }

  lemma NameRoundTripThroat(t: ThroatField)
    ensures FieldOfName(Name(Throat(t))) == Some(Throat(t))
  {
    match t
    case Laryngitis | LaryngitisSymptoms | HoarsenessFrequency => NameRoundTripThroat1(t);
    case OtherLaryngitis | Laryngectomy | LaryngectomyType => NameRoundTripThroat2(t);
    case LaryngectomyResiduals | StenosisResiduals | CompleteAphonia => NameRoundTripThroat3(t);
    case CompleteAphoniaSymptoms | OtherCompleteAphonia | IncompleteAphonia => NameRoundTripThroat4(t);
    case IncompleteAphoniaSymptoms | IncompleteHoarseness | OtherIncompleteAphonia => NameRoundTripThroat5(t);
    case Tracheostomy | TracheostomyReason | PharynxInjury => NameRoundTripThroat6(t);
    case PharynxSymptoms | VocalCordParalysis => NameRoundTripThroat7(t);
  }

  lemma NameRoundTripThroat1(t: ThroatField)
    requires t.Laryngitis? || t.LaryngitisSymptoms? || t.HoarsenessFrequency?
    ensures FieldOfName(Name(Throat(t))) == Some(Throat(t))
  {
  }

  lemma NameRoundTripThroat2(t: ThroatField)
    requires t.OtherLaryngitis? || t.Laryngectomy? || t.LaryngectomyType?
    ensures FieldOfName(Name(Throat(t))) == Some(Throat(t))
  {
  }

  lemma NameRoundTripThroat3(t: ThroatField)
    requires t.LaryngectomyResiduals? || t.StenosisResiduals? || t.CompleteAphonia?
    ensures FieldOfName(Name(Throat(t))) == Some(Throat(t))
  {
  }

  lemma NameRoundTripThroat4(t: ThroatField)
    requires t.CompleteAphoniaSymptoms? || t.OtherCompleteAphonia? || t.IncompleteAphonia?
    ensures FieldOfName(Name(Throat(t))) == Some(Throat(t))
  {
  }

  lemma NameRoundTripThroat5(t: ThroatField)
    requires t.IncompleteAphoniaSymptoms? || t.IncompleteHoarseness? || t.OtherIncompleteAphonia?
    ensures FieldOfName(Name(Throat(t))) == Some(Throat(t))
  {
  }

  lemma NameRoundTripThroat6(t: ThroatField)
    requires t.Tracheostomy? || t.TracheostomyReason? || t.PharynxInjury?
    ensures FieldOfName(Name(Throat(t))) == Some(Throat(t))
  {
  }

  lemma NameRoundTripThroat7(t: ThroatField)
    requires t.PharynxSymptoms? || t.VocalCordParalysis?
    ensures FieldOfName(Name(Throat(t))) == Some(Throat(t))
  {
  }

  lemma NameRoundTripSeptum(s: SeptumField)
    ensures FieldOfName(Name(Septum(s))) == Some(Septum(s))
  {
    match s
    case DeviatedSeptum | Traumatic | LeftObstruction => NameRoundTripSeptum1(s);
    case RightObstruction | BilateralObstruction => NameRoundTripSeptum2(s);
  }

  lemma NameRoundTripSeptum1(s: SeptumField)
    requires s.DeviatedSeptum? || s.Traumatic? || s.LeftObstruction?
    ensures FieldOfName(Name(Septum(s))) == Some(Septum(s))
  {
  }

  lemma NameRoundTripSeptum2(s: SeptumField)
    requires s.RightObstruction? || s.BilateralObstruction?
    ensures FieldOfName(Name(Septum(s))) == Some(Septum(s))
  {
  }

  lemma NameRoundTripNeoplasm(n: NeoplasmField)
    ensures FieldOfName(Name(Neoplasm(n))) == Some(Neoplasm(n))
  {
    match n
    case Tumors | TumorState | TumorStatus => NameRoundTripNeoplasm1(n);
    case TumorType | PrimarySite | TreatmentStatus => NameRoundTripNeoplasm2(n);
    case Treatments | RecentRadiation | RadiationCompletion => NameRoundTripNeoplasm3(n);
    case RecentChemo | ChemoCompletion | OtherTreatments => NameRoundTripNeoplasm4(n);
    case NeoplasmSurgery | NeoplasmSurgeryDescription => NameRoundTripNeoplasm5(n);
  }

  lemma NameRoundTripNeoplasm1(n: NeoplasmField)
    requires n.Tumors? || n.TumorState? || n.TumorStatus?
    ensures FieldOfName(Name(Neoplasm(n))) == Some(Neoplasm(n))
  {
  }

  lemma NameRoundTripNeoplasm2(n: NeoplasmField)
    requires n.TumorType? || n.PrimarySite? || n.TreatmentStatus?
    ensures FieldOfName(Name(Neoplasm(n))) == Some(Neoplasm(n))
  {
  }

  lemma NameRoundTripNeoplasm3(n: NeoplasmField)
    requires n.Treatments? || n.RecentRadiation? || n.RadiationCompletion?
    ensures FieldOfName(Name(Neoplasm(n))) == Some(Neoplasm(n))
  {
  }

  lemma NameRoundTripNeoplasm4(n: NeoplasmField)
    requires n.RecentChemo? || n.ChemoCompletion? || n.OtherTreatments?
    ensures FieldOfName(Name(Neoplasm(n))) == Some(Neoplasm(n))
  {
  }

  lemma NameRoundTripNeoplasm5(n: NeoplasmField)
    requires n.NeoplasmSurgery? || n.NeoplasmSurgeryDescription?
    ensures FieldOfName(Name(Neoplasm(n))) == Some(Neoplasm(n))
  {
  }

  lemma NameRoundTripFinal(x: FinalField)
    ensures FieldOfName(Name(Final(x))) == Some(Final(x))
  {
    match x
    case TumorResiduals | OccupationalImpact | VeteranName => NameRoundTripFinal1(x);
    case DateSubmitted => NameRoundTripFinal2(x);
  }

  lemma NameRoundTripFinal1(x: FinalField)
    requires x.TumorResiduals? || x.OccupationalImpact? || x.VeteranName?
    ensures FieldOfName(Name(Final(x))) == Some(Final(x))
  {
  }

  lemma NameRoundTripFinal2(x: FinalField)
    requires x.DateSubmitted?
    ensures FieldOfName(Name(Final(x))) == Some(Final(x))
  {
  }

  /** The widget's `key=` in the session state. */
  function Key(f: Field): string
  {
    KEY_PREFIX + Name(f)
  }

  /** Every widget's key carries the form's tag, so the payload filter keeps
      it. */
  lemma KeyIsTagged(f: Field)
    ensures Contains(Key(f), FORM_TAG)
  {
    PrefixIsContained(Key(f), FORM_TAG);
  }

  /** The widget a session key belongs to, if any. */
  function FieldOfKey(k: string): Option<Field>
  {
    if KEY_PREFIX <= k then FieldOfName(k[|KEY_PREFIX|..]) else None
  }

  /** Every widget's key leads back to that widget. */
  lemma KeyRoundTrip(f: Field)
    ensures FieldOfKey(Key(f)) == Some(f)
  {
    assert Key(f)[|KEY_PREFIX|..] == Name(f);
    NameRoundTrip(f);
  }

  /** No two widgets of the page share a session key. */
  lemma KeysAreDistinct(f: Field, g: Field)
    ensures Key(f) == Key(g) ==> f == g
  {
    KeyRoundTrip(f);
    KeyRoundTrip(g);
  }

  const YES_NO: seq<string> := ["Yes", "No"]
  const SINUSES: seq<string> := ["Maxillary", "Frontal", "Ethmoid", "Sphenoid", "Pansinusitus", "Unknown"]

  const CLAIM_UNSELECTED := "--select an item--"
  const COUNT_UNSELECTED := "--select--"
  const MORE_THAN_3 := "More than 3"
  const MORE_THAN_4 := "More than 4"
  /** The trigger app.py:174 tests the treatment list for. */
  const CHEMO_TRIGGER := "Antineoplastic chemotherapy"

  /** The widget app.py renders for the field, with its options and default. */
  function WidgetOf(f: Field): (w: Widget)
    ensures (w.SelectBox? || w.Radio?) ==> SingleChoice(w)
  {
    match f
    case Claim(ClaimType) => SelectBox([CLAIM_UNSELECTED, "Initial Claim", "Re-evaluation for Existing"], 0)
    case Claim(History) => TextArea
    case Claim(TakesMedication) => Radio(YES_NO, 1)
    case Claim(MedicationCount) => SelectBox([COUNT_UNSELECTED, "1", "2", "3", MORE_THAN_3], 0)
    case Claim(Medication(_, _)) => TextInput
    case Claim(AdditionalMedications) => TextArea
    case Claim(ServiceConnection) => Radio(YES_NO, 1)
    case Claim(AffectedSinuses) => MultiSelect(SINUSES)
    case Claim(Symptoms) => MultiSelect(["Near Constant Sinusitis", "Headaches caused by sinusitis", "Sinus pain",
                                  "Sinus tenderness", "Discharge containing pus", "Crusting"])
    case Claim(ConstantFrequency) => SelectBox(["Daily", "5-6 days per week", "3-4 days per week"], 0)
    case Claim(SymptomDescription) => TextArea
    case Claim(NonIncapacitatingEpisodes) => SelectBox(["1", "2", "3", "4", "5", "6", "7 or more"], 0)
    case Claim(IncapacitatingEpisodes) => SelectBox(["0", "1", "2", "3 or more"], 0)
    case Claim(HadSurgery) => Radio(YES_NO, 1)
    case Claim(SurgeryCount) => SelectBox(["1", "2", "3", "4", MORE_THAN_4], 0)
    case Claim(Surgery(_, part)) =>
      (match part
       case SurgeryDate => TextInput
       case SurgeryType => SelectBox(["Radical", "Endoscopic"], 0)
       case Findings => TextArea)
    case Claim(AdditionalSurgeries) => TextArea
    case Claim(SinusesOperated) => MultiSelect(SINUSES)
    case Claim(SideOperated) => SelectBox(["Left", "Right", "Both"], 0)
    case Nasal(Rhinitis) => Radio(YES_NO, 1)
    case Nasal(BilateralBlockage) => Radio(YES_NO, 0)
    case Nasal(CompleteBlockage) => SelectBox(["No", "Yes, Right side", "Yes, Left side", "Yes, both"], 0)
    case Nasal(EnlargedTurbinates) => Radio(YES_NO, 0)
    case Nasal(NasalPolyps) => Radio(YES_NO, 0)
    case Throat(Laryngitis) => Radio(YES_NO, 1)
    case Throat(LaryngitisSymptoms) => MultiSelect(["Hoarseness", "Inflammation", "Polyps", "Other"])
    case Throat(HoarsenessFrequency) => TextArea
    case Throat(OtherLaryngitis) => TextArea
    case Throat(Laryngectomy) => Radio(YES_NO, 1)
    case Throat(LaryngectomyType) => SelectBox(["Total", "Partial"], 0)
    case Throat(LaryngectomyResiduals) => TextArea
    case Throat(StenosisResiduals) => Radio(YES_NO, 0)
    case Throat(CompleteAphonia) => Radio(YES_NO, 1)
    case Throat(CompleteAphoniaSymptoms) => MultiSelect(["Inability to whisper", "Inability to communicate", "Other"])
    case Throat(OtherCompleteAphonia) => TextArea
    case Throat(IncompleteAphonia) => Radio(YES_NO, 1)
    case Throat(IncompleteAphoniaSymptoms) => MultiSelect(["Hoarseness", "Inflammation", "Nodules", "Other"])
    case Throat(IncompleteHoarseness) => TextArea
    case Throat(OtherIncompleteAphonia) => TextArea
    case Throat(Tracheostomy) => Radio(YES_NO, 1)
    case Throat(TracheostomyReason) => TextArea
    case Throat(PharynxInjury) => Radio(YES_NO, 1)
    case Throat(PharynxSymptoms) => MultiSelect(["Obstruction", "Stricture", "Speech impairment", "Other"])
    case Throat(VocalCordParalysis) => Radio(YES_NO, 0)
    case Septum(DeviatedSeptum) => Radio(YES_NO, 1)
    case Septum(Traumatic) => Radio(YES_NO, 0)
    case Septum(LeftObstruction) => Radio(YES_NO, 0)
    case Septum(RightObstruction) => Radio(YES_NO, 0)
    case Septum(BilateralObstruction) => Radio(YES_NO, 0)
    case Neoplasm(Tumors) => Radio(YES_NO, 1)
    case Neoplasm(TumorState) => SelectBox(["Benign", "Malignant"], 0)
    case Neoplasm(TumorStatus) => SelectBox(["Active", "Remission"], 0)
    case Neoplasm(TumorType) => SelectBox(["Primary", "Secondary"], 0)
    case Neoplasm(PrimarySite) => TextArea
    case Neoplasm(TreatmentStatus) => SelectBox(["Yes - Current", "Yes - Completed", "No"], 0)
    case Neoplasm(Treatments) => MultiSelect(["Radiation", "Chemotherapy", "X-ray", "Other"])
    case Neoplasm(RecentRadiation) => DateInput
    case Neoplasm(RadiationCompletion) => DateInput
    case Neoplasm(RecentChemo) => DateInput
    case Neoplasm(ChemoCompletion) => DateInput
    case Neoplasm(OtherTreatments) => TextArea
    case Neoplasm(NeoplasmSurgery) => Radio(YES_NO, 1)
    case Neoplasm(NeoplasmSurgeryDescription) => TextArea
    case Final(TumorResiduals) => TextArea
    case Final(OccupationalImpact) => TextArea
    case Final(VeteranName) => TextInput
    case Final(DateSubmitted) => TextInput
  }

  /** The index of a row part among the three widgets of the row. */
  function MedicationColumn(part: MedicationPart): nat
  {
    match part case MedicationName => 0 case Dosage => 1 case Frequency => 2
  }

  function SurgeryColumn(part: SurgeryPart): nat
  {
    match part case SurgeryDate => 0 case SurgeryType => 1 case Findings => 2
  }

  /** The place of the widget in the order app.py renders the page. */
  function Position(f: Field): nat
  {
    match f
    case Claim(ClaimType) => 0
    case Claim(History) => 1
    case Claim(TakesMedication) => 2
    case Claim(MedicationCount) => 3
    case Claim(Medication(i, part)) => 4 + 3 * (i - 1) + MedicationColumn(part)
    case Claim(AdditionalMedications) => 13
    case Claim(ServiceConnection) => 14
    case Claim(AffectedSinuses) => 15
    case Claim(Symptoms) => 16
    case Claim(ConstantFrequency) => 17
    case Claim(SymptomDescription) => 18
    case Claim(NonIncapacitatingEpisodes) => 19
    case Claim(IncapacitatingEpisodes) => 20
    case Claim(HadSurgery) => 21
    case Claim(SurgeryCount) => 22
    case Claim(Surgery(i, part)) => 23 + 3 * (i - 1) + SurgeryColumn(part)
    case Claim(AdditionalSurgeries) => 35
    case Claim(SinusesOperated) => 36
    case Claim(SideOperated) => 37
    case Nasal(Rhinitis) => 38
    case Nasal(BilateralBlockage) => 39
    case Nasal(CompleteBlockage) => 40
    case Nasal(EnlargedTurbinates) => 41
    case Nasal(NasalPolyps) => 42
    case Throat(Laryngitis) => 43
    case Throat(LaryngitisSymptoms) => 44
    case Throat(HoarsenessFrequency) => 45
    case Throat(OtherLaryngitis) => 46
    case Throat(Laryngectomy) => 47
    case Throat(LaryngectomyType) => 48
    case Throat(LaryngectomyResiduals) => 49
    case Throat(StenosisResiduals) => 50
    case Throat(CompleteAphonia) => 51
    case Throat(CompleteAphoniaSymptoms) => 52
    case Throat(OtherCompleteAphonia) => 53
    case Throat(IncompleteAphonia) => 54
    case Throat(IncompleteAphoniaSymptoms) => 55
    case Throat(IncompleteHoarseness) => 56
    case Throat(OtherIncompleteAphonia) => 57
    case Throat(Tracheostomy) => 58
    case Throat(TracheostomyReason) => 59
    case Throat(PharynxInjury) => 60
    case Throat(PharynxSymptoms) => 61
    case Throat(VocalCordParalysis) => 62
    case Septum(DeviatedSeptum) => 63
    case Septum(Traumatic) => 64
    case Septum(LeftObstruction) => 65
    case Septum(RightObstruction) => 66
    case Septum(BilateralObstruction) => 67
    case Neoplasm(Tumors) => 68
    case Neoplasm(TumorState) => 69
    case Neoplasm(TumorStatus) => 70
    case Neoplasm(TumorType) => 71
    case Neoplasm(PrimarySite) => 72
    case Neoplasm(TreatmentStatus) => 73
    case Neoplasm(Treatments) => 74
    case Neoplasm(RecentRadiation) => 75
    case Neoplasm(RadiationCompletion) => 76
    case Neoplasm(RecentChemo) => 77
    case Neoplasm(ChemoCompletion) => 78
    case Neoplasm(OtherTreatments) => 79
    case Neoplasm(NeoplasmSurgery) => 80
    case Neoplasm(NeoplasmSurgeryDescription) => 81
    case Final(TumorResiduals) => 82
    case Final(OccupationalImpact) => 83
    case Final(VeteranName) => 84
    case Final(DateSubmitted) => 85
  }

  /** The `if`s a widget is rendered inside: all of them test the value
      returned by one earlier widget, its parent. */
  datatype Gate = Gate(parent: Field, tests: seq<Test>)

  /** The gate of each widget; `None` for a widget rendered unconditionally.
      (`GateIsWellFormed` below: every parent renders before its child, in
      the same section, and is a widget of the kind its tests read.) */
  function GateOf(f: Field): Option<Gate>
  {
    match f
    case Claim(ClaimType) => None
    case Claim(History) => Some(Gate(Claim(ClaimType), [IsNot(CLAIM_UNSELECTED)]))
    case Claim(TakesMedication) => Some(Gate(Claim(ClaimType), [IsNot(CLAIM_UNSELECTED)]))
    case Claim(MedicationCount) => Some(Gate(Claim(TakesMedication), [Is("Yes")]))
    case Claim(Medication(i, _)) => Some(Gate(Claim(MedicationCount), [IsNot(COUNT_UNSELECTED), InRangeOr(i, 4, MORE_THAN_3)]))
    case Claim(AdditionalMedications) => Some(Gate(Claim(MedicationCount), [IsNot(COUNT_UNSELECTED), Is(MORE_THAN_3)]))
    case Claim(ServiceConnection) => Some(Gate(Claim(ClaimType), [IsNot(CLAIM_UNSELECTED)]))
    case Claim(AffectedSinuses) => Some(Gate(Claim(ServiceConnection), [Is("Yes")]))
    case Claim(Symptoms) => Some(Gate(Claim(ServiceConnection), [Is("Yes")]))
    case Claim(ConstantFrequency) => Some(Gate(Claim(Symptoms), [Has("Near Constant Sinusitis")]))
    case Claim(SymptomDescription) => Some(Gate(Claim(ServiceConnection), [Is("Yes")]))
    case Claim(NonIncapacitatingEpisodes) => Some(Gate(Claim(ServiceConnection), [Is("Yes")]))
    case Claim(IncapacitatingEpisodes) => Some(Gate(Claim(ServiceConnection), [Is("Yes")]))
    case Claim(HadSurgery) => Some(Gate(Claim(ServiceConnection), [Is("Yes")]))
    case Claim(SurgeryCount) => Some(Gate(Claim(HadSurgery), [Is("Yes")]))
    case Claim(Surgery(i, _)) => Some(Gate(Claim(SurgeryCount), [InRangeOr(i, 5, MORE_THAN_4)]))
    case Claim(AdditionalSurgeries) => Some(Gate(Claim(SurgeryCount), [Is(MORE_THAN_4)]))
    case Claim(SinusesOperated) => Some(Gate(Claim(HadSurgery), [Is("Yes")]))
    case Claim(SideOperated) => Some(Gate(Claim(HadSurgery), [Is("Yes")]))
    case Nasal(Rhinitis) => None
    case Nasal(BilateralBlockage) => Some(Gate(Nasal(Rhinitis), [Is("Yes")]))
    case Nasal(CompleteBlockage) => Some(Gate(Nasal(Rhinitis), [Is("Yes")]))
    case Nasal(EnlargedTurbinates) => Some(Gate(Nasal(Rhinitis), [Is("Yes")]))
    case Nasal(NasalPolyps) => Some(Gate(Nasal(Rhinitis), [Is("Yes")]))
    case Throat(Laryngitis) => None
    case Throat(LaryngitisSymptoms) => Some(Gate(Throat(Laryngitis), [Is("Yes")]))
    case Throat(HoarsenessFrequency) => Some(Gate(Throat(LaryngitisSymptoms), [Has("Hoarseness")]))
    case Throat(OtherLaryngitis) => Some(Gate(Throat(LaryngitisSymptoms), [Has("Other")]))
    case Throat(Laryngectomy) => None
    case Throat(LaryngectomyType) => Some(Gate(Throat(Laryngectomy), [Is("Yes")]))
    case Throat(LaryngectomyResiduals) => Some(Gate(Throat(LaryngectomyType), [Is("Partial")]))
    case Throat(StenosisResiduals) => None
    case Throat(CompleteAphonia) => None
    case Throat(CompleteAphoniaSymptoms) => Some(Gate(Throat(CompleteAphonia), [Is("Yes")]))
    case Throat(OtherCompleteAphonia) => Some(Gate(Throat(CompleteAphoniaSymptoms), [Has("Other")]))
    case Throat(IncompleteAphonia) => None
    case Throat(IncompleteAphoniaSymptoms) => Some(Gate(Throat(IncompleteAphonia), [Is("Yes")]))
    case Throat(IncompleteHoarseness) => Some(Gate(Throat(IncompleteAphoniaSymptoms), [Has("Hoarseness")]))
    case Throat(OtherIncompleteAphonia) => Some(Gate(Throat(IncompleteAphoniaSymptoms), [Has("Other")]))
    case Throat(Tracheostomy) => None
    case Throat(TracheostomyReason) => Some(Gate(Throat(Tracheostomy), [Is("Yes")]))
    case Throat(PharynxInjury) => None
    case Throat(PharynxSymptoms) => Some(Gate(Throat(PharynxInjury), [Is("Yes")]))
    case Throat(VocalCordParalysis) => Some(Gate(Throat(PharynxInjury), [Is("Yes")]))
    case Septum(DeviatedSeptum) => None
    case Septum(Traumatic) => Some(Gate(Septum(DeviatedSeptum), [Is("Yes")]))
    case Septum(LeftObstruction) => Some(Gate(Septum(DeviatedSeptum), [Is("Yes")]))
    case Septum(RightObstruction) => Some(Gate(Septum(DeviatedSeptum), [Is("Yes")]))
    case Septum(BilateralObstruction) => Some(Gate(Septum(DeviatedSeptum), [Is("Yes")]))
    case Neoplasm(Tumors) => None
    case Neoplasm(TumorState) => Some(Gate(Neoplasm(Tumors), [Is("Yes")]))
    case Neoplasm(TumorStatus) => Some(Gate(Neoplasm(TumorState), [Is("Malignant")]))
    case Neoplasm(TumorType) => Some(Gate(Neoplasm(TumorState), [Is("Malignant")]))
    case Neoplasm(PrimarySite) => Some(Gate(Neoplasm(TumorType), [Is("Secondary")]))
    case Neoplasm(TreatmentStatus) => Some(Gate(Neoplasm(Tumors), [Is("Yes")]))
    case Neoplasm(Treatments) => Some(Gate(Neoplasm(TreatmentStatus), [IsNot("No")]))
    case Neoplasm(RecentRadiation) => Some(Gate(Neoplasm(Treatments), [Has("Radiation")]))
    case Neoplasm(RadiationCompletion) => Some(Gate(Neoplasm(Treatments), [Has("Radiation")]))
    case Neoplasm(RecentChemo) => Some(Gate(Neoplasm(Treatments), [Has(CHEMO_TRIGGER)]))
    case Neoplasm(ChemoCompletion) => Some(Gate(Neoplasm(Treatments), [Has(CHEMO_TRIGGER)]))
    case Neoplasm(OtherTreatments) => Some(Gate(Neoplasm(Treatments), [Has("Other")]))
    case Neoplasm(NeoplasmSurgery) => Some(Gate(Neoplasm(Tumors), [Is("Yes")]))
    case Neoplasm(NeoplasmSurgeryDescription) => Some(Gate(Neoplasm(NeoplasmSurgery), [Is("Yes")]))
    case Final(TumorResiduals) => None
    case Final(OccupationalImpact) => None
    case Final(VeteranName) => None
    case Final(DateSubmitted) => None
  }

  /** Two widgets are rendered in the same part of the page. */
  predicate SameSection(f: Field, g: Field)
  {
    match (f, g)
    case (Claim(_), Claim(_)) => true
    case (Nasal(_), Nasal(_)) => true
    case (Throat(_), Throat(_)) => true
    case (Septum(_), Septum(_)) => true
    case (Neoplasm(_), Neoplasm(_)) => true
    case (Final(_), Final(_)) => true
    case _ => false
  }

  /** A gate reads a parent that renders earlier in the same part of the
      page, and each of its tests fits the parent's kind of widget. */
  predicate GateIsWellFormed(f: Field)
  {
    match GateOf(f)
    case None => true
    case Some(g) =>
      && Position(g.parent) < Position(f)
      && SameSection(g.parent, f)
      && forall t :: t in g.tests ==> Fits(t, WidgetOf(g.parent))
  }

  /** Every widget's gate is well formed: the parent-before-child order of
      app.py, which also makes visibility well founded.
      The lemmas after this one are its case split: one per part of the
      page, then one per group of a few widgets, each with an empty body.
      The split keeps each proof obligation small enough to verify; the
      helpers state nothing beyond this lemma. */
  lemma GatesWellFormed(f: Field)
    ensures GateIsWellFormed(f)
  {
    match f
    case Claim(c) => GatesWellFormedClaim(c);
    case Nasal(n) => GatesWellFormedNasal(n);
    case Throat(t) => GatesWellFormedThroat(t);
    case Septum(s) => GatesWellFormedSeptum(s);
    case Neoplasm(n) => GatesWellFormedNeoplasm(n);
    case Final(x) => GatesWellFormedFinal(x);
  }

  lemma GatesWellFormedClaim(c: ClaimField)
    ensures GateIsWellFormed(Claim(c))
  {
    match c
    case Medication(i, part) => GatesWellFormedMedication(i, part);
    case Surgery(i, part) => GatesWellFormedSurgery(i, part);
    case ClaimType | History | TakesMedication | MedicationCount | AdditionalMedications => GatesWellFormedClaim1(c);
    case ServiceConnection | AffectedSinuses | Symptoms | ConstantFrequency | SymptomDescription => GatesWellFormedClaim2(c);
    case NonIncapacitatingEpisodes | IncapacitatingEpisodes | HadSurgery | SurgeryCount | AdditionalSurgeries => GatesWellFormedClaim3(c);
    case SinusesOperated | SideOperated => GatesWellFormedClaim4(c);
  }

  lemma GatesWellFormedMedication(i: MedicationSlot, part: MedicationPart)
    ensures GateIsWellFormed(Claim(Medication(i, part)))
  {
  }

  lemma GatesWellFormedSurgery(i: SurgerySlot, part: SurgeryPart)
    ensures GateIsWellFormed(Claim(Surgery(i, part)))
  {
  }

  lemma GatesWellFormedClaim1(c: ClaimField)
    requires c.ClaimType? || c.History? || c.TakesMedication? || c.MedicationCount? || c.AdditionalMedications?
    ensures GateIsWellFormed(Claim(c))
  {
  }

  lemma GatesWellFormedClaim2(c: ClaimField)
    requires c.ServiceConnection? || c.AffectedSinuses? || c.Symptoms? || c.ConstantFrequency? || c.SymptomDescription?
    ensures GateIsWellFormed(Claim(c))
  {
  }

  lemma GatesWellFormedClaim3(c: ClaimField)
    requires c.NonIncapacitatingEpisodes? || c.IncapacitatingEpisodes? || c.HadSurgery? || c.SurgeryCount? || c.AdditionalSurgeries?
    ensures GateIsWellFormed(Claim(c))
  {
  }

  lemma GatesWellFormedClaim4(c: ClaimField)
    requires c.SinusesOperated? || c.SideOperated?
    ensures GateIsWellFormed(Claim(c))
  {
  }

  lemma GatesWellFormedNasal(n: NasalField)
    ensures GateIsWellFormed(Nasal(n))
  {
  }

  lemma GatesWellFormedThroat(t: ThroatField)
    ensures GateIsWellFormed(Throat(t))
  {
    match t
    case Laryngitis | LaryngitisSymptoms | HoarsenessFrequency | OtherLaryngitis | Laryngectomy => GatesWellFormedThroat1(t);
    case LaryngectomyType | LaryngectomyResiduals | StenosisResiduals | CompleteAphonia | CompleteAphoniaSymptoms => GatesWellFormedThroat2(t);
    case OtherCompleteAphonia | IncompleteAphonia | IncompleteAphoniaSymptoms | IncompleteHoarseness | OtherIncompleteAphonia => GatesWellFormedThroat3(t);
    case Tracheostomy | TracheostomyReason | PharynxInjury | PharynxSymptoms | VocalCordParalysis => GatesWellFormedThroat4(t);
  }

  lemma GatesWellFormedThroat1(t: ThroatField)
    requires t.Laryngitis? || t.LaryngitisSymptoms? || t.HoarsenessFrequency? || t.OtherLaryngitis? || t.Laryngectomy?
    ensures GateIsWellFormed(Throat(t))
  {
  }

  lemma GatesWellFormedThroat2(t: ThroatField)
    requires t.LaryngectomyType? || t.LaryngectomyResiduals? || t.StenosisResiduals? || t.CompleteAphonia? || t.CompleteAphoniaSymptoms?
    ensures GateIsWellFormed(Throat(t))
  {
  }

  lemma GatesWellFormedThroat3(t: ThroatField)
    requires t.OtherCompleteAphonia? || t.IncompleteAphonia? || t.IncompleteAphoniaSymptoms? || t.IncompleteHoarseness? || t.OtherIncompleteAphonia?
    ensures GateIsWellFormed(Throat(t))
  {
  }

  lemma GatesWellFormedThroat4(t: ThroatField)
    requires t.Tracheostomy? || t.TracheostomyReason? || t.PharynxInjury? || t.PharynxSymptoms? || t.VocalCordParalysis?
    ensures GateIsWellFormed(Throat(t))
  {
  }

  lemma GatesWellFormedSeptum(s: SeptumField)
    ensures GateIsWellFormed(Septum(s))
  {
  }

  lemma GatesWellFormedNeoplasm(n: NeoplasmField)
    ensures GateIsWellFormed(Neoplasm(n))
  {
    match n
    case Tumors | TumorState | TumorStatus | TumorType | PrimarySite => GatesWellFormedNeoplasm1(n);
    case TreatmentStatus | Treatments | RecentRadiation | RadiationCompletion | RecentChemo => GatesWellFormedNeoplasm2(n);
    case ChemoCompletion | OtherTreatments | NeoplasmSurgery | NeoplasmSurgeryDescription => GatesWellFormedNeoplasm3(n);
  }

  lemma GatesWellFormedNeoplasm1(n: NeoplasmField)
    requires n.Tumors? || n.TumorState? || n.TumorStatus? || n.TumorType? || n.PrimarySite?
    ensures GateIsWellFormed(Neoplasm(n))
  {
  }

  lemma GatesWellFormedNeoplasm2(n: NeoplasmField)
    requires n.TreatmentStatus? || n.Treatments? || n.RecentRadiation? || n.RadiationCompletion? || n.RecentChemo?
    ensures GateIsWellFormed(Neoplasm(n))
  {
  }

  lemma GatesWellFormedNeoplasm3(n: NeoplasmField)
    requires n.ChemoCompletion? || n.OtherTreatments? || n.NeoplasmSurgery? || n.NeoplasmSurgeryDescription?
    ensures GateIsWellFormed(Neoplasm(n))
  {
  }

  lemma GatesWellFormedFinal(x: FinalField)
    ensures GateIsWellFormed(Final(x))
  {
  }

  /** A gated widget's parent renders before it: the measure that makes
      visibility well founded. */
  lemma ParentRendersFirst(f: Field)
    ensures GateOf(f).Some? ==> Position(GateOf(f).value.parent) < Position(f)
  {
    GatesWellFormed(f);
  }
}
