# Chronic Sinusitis questionnaire: a verified model of its page logic

The questionnaire is a single Streamlit page, `app.py`. It walks a veteran
through a Chronic Sinusitis disability benefits questionnaire. Every widget
stores its answer in the session state under a key such as
`Sinusitis__c.Sinus_Q11a__c`. Most widgets are rendered only while earlier
answers hold particular values. When the user asks for an audit or a download,
the page sends every session entry whose key contains `Sinusitis__c`.

This project models two things in Dafny and proves properties about them:

- the **gating** of the page (app.py:58-185): which widgets a session state
  renders;
- the **payload filter** (app.py:191 and app.py:197).

## Structure

- `session.dfy` (`Session`) holds the session state. It is a map from keys to
  values. The module also gives Python's substring test `in` (`Contains`, with
  its equivalence to an explicit occurrence) and the payload filter as a map
  restriction.
- `widgets.dfy` (`Widgets`) holds the widget kinds and what each returns for a
  session entry:
  - a selectbox or radio returns its stored option, otherwise the option at
    `index=`, or the first option when no index is given;
  - a multiselect returns the stored items among its options, otherwise `[]`.

  It also has Python's `[str(x) for x in range(lo, hi)]` and the four kinds of
  test an `if` puts on a parent's returned value: `==`, `!=`, `in` a list, and
  in a numeral range or equal to an overflow option.
- `form.dfy` (`Form`) covers the 86 widgets of the page:
  - each widget's key, its widget kind with options and default, and its
    render position;
  - its gate: the parent widget and the tests of the enclosing `if`s.

  The key decoder `FieldOfKey` inverts `Key`.
- `visibility.dfy` (`Visibility`) defines `Visible(a, f)`. A widget is
  rendered when it has no gate, or when its parent is rendered and the
  parent's returned value passes every test of the gate.
- `slots.dfy` (`Slots`) covers the count-to-row expansion of the medication
  and surgery blocks.
- `rules.dfy` (`Rules`) gives named consequences of the gating, the
  chemotherapy finding and the payload's coverage of the form.
- `reach.dfy` (`Reach`) characterises which widgets some session can render
  at all.

## Model

| member | source | states |
|---|---|---|
| Session.Contains | app.py:191 | Python's substring test `k in s`, as a left-to-right scan (no contract of its own; `ContainsIffOccurs` relates it to the occurrence definition) |
| Session.ContainsIffOccurs | app.py:191 | `Contains(s, t)` holds exactly when `t` occurs in `s` at some index |
| Session.Payload | app.py:191 | The audit payload is a sub-map of the session state |
| Session.PayloadIsTaggedEntries | app.py:191-197 | A key is in the payload if and only if it is a session key in which `Sinusitis__c` occurs, and its value is unchanged |
| Session.PayloadIdempotent | app.py:197 | Filtering the payload again gives the same payload |
| Session.PayloadIgnoresUntaggedEntries | app.py:197 | Two sessions that agree on their tagged entries give the same payload, whatever their other entries |
| Widgets.Keep | app.py:91-92 | The items kept are exactly the stored items that are options, and there are no more of them than stored items |
| Widgets.Chosen | app.py:58-62 | A selectbox or radio returns the stored answer when it is one of its options, its default option when nothing is stored, and always one of its options |
| Widgets.Checked | app.py:92-93 | A multiselect returns exactly the stored items that are among its options, only options, and the empty list when nothing is stored |
| Widgets.Str | app.py:79-108 | Python's `str(x)` on the loop numbers of app.py:79 and app.py:108: the one-character numeral for a one-digit number, and never empty |
| Widgets.Passes | app.py:64-179 | What each kind of `if` condition means on a parent's returned value: `==`, `!=`, `item in` a multiselect's list, and `in [str(x) for x in range(i, n)] or == overflow`, at app.py:64, 71, 73, 79, 85, 93, 108, 114, 120, 127-134 and 138-179 (no contract of its own; `Visibility.GatedOnIs`, `GatedOnIsNot`, `GatedOnHas`, `Slots.MedicationRowTest` and `Slots.SurgeryRowTest` speak about it) |
| Widgets.RangeStrings | app.py:79 | `[str(x) for x in range(lo, hi)]` has `hi - lo` elements, and none when `lo >= hi` |
| Widgets.RangeStringsAt | app.py:79 | The k-th element of that list is `str(lo + k)` |
| Widgets.InRangeStrings | app.py:79 | For a range of one-digit numbers, a string is in that list if and only if it is the numeral of some `lo <= n < hi` |
| Form.Name | app.py:58-185 | The `key=` suffix of each of the 86 widgets after `Sinusitis__c.` (no contract of its own; `NameRoundTrip` shows it is decodable) |
| Form.Key | app.py:58-185 | The session key of each widget, `Sinusitis__c.` followed by its name (no contract of its own; see `KeyIsTagged`, `KeyRoundTrip`) |
| Form.KeyIsTagged | app.py:61 | Every widget key starts with `Sinusitis__c.`, so it contains the payload tag |
| Form.KeyRoundTrip | app.py:58-185 | Decoding a widget's key gives back that widget |
| Form.KeysAreDistinct | app.py:58-185 | No two widgets share a session key |
| Form.WidgetOf | app.py:58-185 | Every selectbox and radio has its default index inside its options |
| Form.Position | app.py:58-185 | Each widget's place in the page's render order (no contract of its own; it is the measure of `Visible`, and `ParentRendersFirst` and `GatesWellFormed` speak about it) |
| Form.GateOf | app.py:64-179 | The enclosing `if`s of each widget: the parent widget whose returned value they read and the tests they apply (no contract of its own; see `GatesWellFormed`) |
| Form.ParentRendersFirst | app.py:64-185 | Every gate reads a widget rendered earlier on the page |
| Form.GatesWellFormed | app.py:64-185 | Every gate reads a parent rendered earlier in the same block, and each test fits the parent's widget kind |
| Visibility.Answer | app.py:70 | The answer read from the session is the stored answer when that is one of the widget's options, the option at `index=` when nothing is stored (so "No" on the `index=1` radios such as app.py:70), or the first option when no index is given, and always one of the options |
| Visibility.Selection | app.py:128 | The selection read from the session is exactly the stored items that are options, and is empty when nothing is stored |
| Visibility.Opens | app.py:73-85 | The nested `if`s on one parent taken together, such as app.py:73 with app.py:79 or app.py:85: every test of the gate passes (no contract of its own; `Visibility.GatedOn` and the `Slots` row rules speak about it) |
| Visibility.Visible | app.py:58-185 | Whether the page renders a widget for a session: ungated, or its parent rendered and every test of its gate passed (no contract of its own; the `Slots`, `Rules` and `Reach` lemmas speak about it) |
| Visibility.AncestorsComeFirst | app.py:64-185 | A widget's every ancestor renders before it, in the same block |
| Visibility.AncestorsVisible | app.py:64-185 | A rendered widget's every ancestor is rendered |
| Visibility.VisibilityIsLocalToSection | app.py:119-185 | Two sessions that agree on a block render that block's widgets alike |
| Visibility.DefaultsCloseTopLevelGates | app.py:58-185 | The default of every unconditional parent fails the first test of each gate on it |
| Visibility.FreshSessionShowsOnlyTopLevel | app.py:58-185 | With an empty session, a widget is rendered if and only if it has no gate |
| Slots.MedicationRowsFor | app.py:73-85 | How many medication rows each count option calls for, written as a table independent of the loop's tests (no contract of its own; `MedicationRowTest` relates the two) |
| Slots.MedicationRowRule | app.py:73-84 | Medication row `i` is rendered if and only if the count is rendered and calls for at least `i` rows |
| Slots.MedicationCountRule | app.py:64-72 | The medication count is rendered if and only if a claim type is chosen and the medication radio is "Yes" |
| Slots.AdditionalMedicationsRule | app.py:85-86 | The extra-medications area is rendered if and only if the count is rendered and is "More than 3" |
| Slots.MedicationRowsArePrefixClosed | app.py:74-84 | If medication row `i` is rendered then every row `j <= i` is rendered, all three inputs of it |
| Slots.AdditionalMedicationsFollowAllRows | app.py:79-86 | The extra-medications area comes only with all three rows |
| Slots.MedicationRowsShown | app.py:73-84 | The rendered rows are exactly rows 1..n, n of them: 0 for "--select--", n for "n", 3 for "More than 3" |
| Slots.UnansweredMedicationCountShowsNoRow | app.py:72-73 | An unanswered count is on "--select--" and shows no row |
| Slots.SurgeryRowsFor | app.py:101-114 | How many surgery rows each count option calls for, as an independent table (no contract of its own; `SurgeryRowTest` relates it to the loop's test) |
| Slots.SurgeryRowRule | app.py:101-113 | Surgery row `i` is rendered if and only if the count is rendered and calls for at least `i` rows |
| Slots.HadSurgeryRule | app.py:89-99 | The sinus-surgery radio is rendered if and only if a claim type is chosen and service connection is "Yes" |
| Slots.SurgeryCountRule | app.py:89-101 | The surgery count is rendered if and only if a claim type is chosen, service connection is "Yes" and sinus surgery is "Yes" |
| Slots.FirstSurgeryRowComesWithCount | app.py:100-108 | The surgery count has no placeholder, so surgery row 1 is rendered whenever the count is |
| Slots.UnansweredSurgeryCountShowsOneRow | app.py:101-108 | Left at its default "1", the count shows exactly row 1 |
| Slots.AdditionalSurgeriesRule | app.py:114-115 | The extra-surgeries area is rendered if and only if the count is rendered and is "More than 4" |
| Slots.SurgeryRowsArePrefixClosed | app.py:102-113 | Rendered surgery rows form a prefix |
| Slots.MedicationRowTest | app.py:73-79 | A count option passes both tests of medication row `i`'s gate if and only if it calls for at least `i` rows |
| Slots.SurgeryRowTest | app.py:102-108 | A count option passes surgery row `i`'s test if and only if it calls for at least `i` rows |
| Slots.SurgeryCountCallsForARow | app.py:101 | Every option of the surgery count calls for between one and four rows |
| Slots.SurgeryRowsShown | app.py:101-113 | The rendered surgery rows are exactly rows 1..n, n for "n" and 4 for "More than 4", and there is at least one once the count is rendered |
| Rules.ClaimSectionHangsOffClaimType | app.py:64-117 | Every claim-block widget other than the claim selectbox is gated, and a gate read directly on the claim selectbox tests for a value other than the placeholder |
| Rules.ClaimPlaceholderHidesClaimSection | app.py:58-117 | While the claim selectbox is on "--select an item--", no other claim-block widget is rendered |
| Rules.UnansweredClaimIsPlaceholder | app.py:58-62 | An unanswered claim selectbox is on its placeholder |
| Rules.ClaimChoiceOpensQuestions | app.py:64-89 | The history area and the medication and service-connection radios are rendered if and only if a claim type is chosen |
| Rules.RestOfPageIgnoresClaimSection | app.py:119-185 | From the Rhinitis block on, rendering does not depend on any claim-block answer |
| Rules.ConstantFrequencyRule | app.py:89-94 | The near-constant frequency selectbox is rendered if and only if a claim is chosen, service connection is "Yes" and "Near Constant Sinusitis" is selected |
| Rules.PrimarySiteRule | app.py:161-167 | The primary-site area is rendered if and only if tumors is "Yes", the state is "Malignant" and the type is "Secondary" |
| Rules.RadiationDatesRule | app.py:161-173 | The radiation dates are rendered if and only if tumors is "Yes", the treatment status is not "No" and "Radiation" is selected |
| Rules.LaryngitisTriggersRule | app.py:127-130 | Each laryngitis text area is rendered if and only if laryngitis is "Yes" and its own symptom is selected |
| Rules.LaryngectomyResidualsRule | app.py:132-134 | The laryngectomy residuals area is rendered if and only if laryngectomy is "Yes" and the type is "Partial" |
| Rules.ChemotherapyDatesNeverShown | app.py:170-176 | As written, neither chemotherapy date is rendered for any session |
| Rules.ChemotherapySelectedButDatesHidden | app.py:161-176 | A session with tumors "Yes" and "Chemotherapy" selected renders the treatments multiselect but not the chemotherapy dates |
| Rules.VisibleAsIntended | app.py:168-176 | Visibility with the chemotherapy dates gated on "Chemotherapy", every other widget as the page renders it (no contract of its own) |
| Rules.ChemotherapyDatesShownAsIntended | app.py:168-176 | With the trigger "Chemotherapy", the chemotherapy dates are rendered if and only if tumors is "Yes", the status is not "No" and "Chemotherapy" is selected |
| Rules.UnconditionalWidgets | app.py:136 | The laryngeal stenosis radio and every final-details widget (app.py:181-185) are rendered for every session |
| Rules.ShownHistoryPrompt | app.py:64-66 | The prompt shown above the history area, if the area is rendered: the long prompt for "Initial Claim", the short one otherwise (no contract of its own) |
| Rules.HistoryPromptShown | app.py:64-66 | A prompt is shown if and only if the history area is rendered; none is shown on the placeholder, the long prompt is shown if and only if the claim is "Initial Claim", and the short prompt if and only if it is "Re-evaluation for Existing" |
| Rules.EveryAnswerIsExported | app.py:191-197 | Every widget's stored answer is in the payload, unchanged, whether or not the widget is rendered |
| Rules.PayloadCoversTheForm | app.py:191-197 | The payload reads the same as the session at every widget key |
| Rules.PayloadPreservesVisibility | app.py:191-197 | The payload renders exactly the widgets the session renders |
| Reach.OpenerOpens | app.py:64-185 | For every gate except the two chemotherapy gates, some answer of the parent passes all of the gate's tests |
| Reach.ChemoDatesGateNothing | app.py:174-176 | No widget is gated on a chemotherapy date |
| Reach.LaterAnswerKeepsVisibility | app.py:58-185 | Changing the answer of a widget rendered at or after `f` does not change whether `f` is rendered |
| Reach.WitnessShows | app.py:58-185 | For every widget but the chemotherapy dates, the session built from the openers along its gate chain renders it |
| Reach.ReachableWidgets | app.py:58-185 | Some session renders a widget if and only if it is not one of the two chemotherapy dates |
| Reach.EveryWidgetReachableAsIntended | app.py:168-176 | With the corrected trigger, every widget is rendered by some session |

## Findings

| source | as written | input that shows it | evidently intended | confidence | as-written member | corrected member |
|---|---|---|---|---|---|---|
| app.py:174 | The chemotherapy dates are gated on `"Antineoplastic chemotherapy" in t_t`, but the treatments multiselect (app.py:170) offers "Radiation", "Chemotherapy", "X-ray" and "Other" | Tumors "Yes", treatment status left at "Yes - Current", treatments `["Chemotherapy"]`: the dates stay hidden | Gate on "Chemotherapy", the option offered, as radiation is gated on "Radiation" | not executed | Rules.ChemotherapyDatesNeverShown | Rules.ChemotherapyDatesShownAsIntended |

`Rules.ChemotherapySelectedButDatesHidden` is the concrete session for this
finding. `Reach.ReachableWidgets` shows that the two chemotherapy dates are the
only widgets no session renders. `Reach.EveryWidgetReachableAsIntended` shows
that with the corrected trigger no widget is unreachable. `Rules.VisibleAsIntended`
is the corrected visibility.

## Left out

- `GroqMedicalAuditor` (app.py:6-49) is left out. It is a network request to
  a language model, and it returns that model's free text. So is its guard:
  an empty API key returns a fixed "missing" message without a request
  (app.py:13-14).
- The audit prompt text (app.py:17-37) is left out. It is natural-language
  instructions, not behaviour.
- Page configuration and the secret lookup (app.py:51-53) are environment
  plumbing and are left out.
- Rendering and layout, meaning titles, headers, markdown, columns, the
  spinner and the sidebar, are left out. Only whether each widget is rendered
  is modelled.
- Streamlit drops the stored state of widgets that were not rendered in a
  run. That is framework behaviour, not code in `app.py`, so the model keeps
  every stored entry.
- Streamlit refuses a stored selectbox or radio value that is not among the
  widget's options. The model instead returns the default. It likewise drops
  stored multiselect items that are not options.
- The date inputs default to today's date, which is a clock read. No gate
  reads a date input, so the model gives them no value function.
- The JSON serialisation and the download button (app.py:198) are library
  I/O. Only the filtered map they receive is modelled.
- Session keys are modelled as strings. The source applies `str(k)` to every
  key (app.py:191 and app.py:197), and every key the page creates is already a
  string.
- A multi-step wizard, validation snapshots, draft persistence and submission
  polling are not part of `app.py`, so nothing of them is modelled.
- Widgets.InRangeStrings: stated only for ranges of one-digit numbers, which
  is every range the page builds (`range(i, 4)` and `range(i, 5)`). Numerals
  of several digits are not characterised.
