/** The per-session key-value state of the questionnaire page and the payload
    that the "Run Logical Cross-Check" audit and the "Download JSON" button take
    from it (app.py:191 and app.py:197). */
module Session {

  datatype Option<T> = None | Some(value: T)

  /** What a widget leaves in the session under its key. */
  datatype Value =
    | Text(text: string)                      // st.selectbox, st.radio, st.text_input, st.text_area
    | Items(items: seq<string>)               // st.multiselect
    | Day(year: int, month: int, day: int)    // st.date_input

  /** The session state: widget keys (and anything else stored there) to values. */
  type State = map<string, Value>

  /** The marker every questionnaire key carries. */
  const FORM_TAG: string := "Sinusitis__c"

  /** `t` occurs in `s` starting at index `i`. */
  predicate OccursAt(s: string, t: string, i: int)
  {
    0 <= i && i + |t| <= |s| && s[i..i + |t|] == t
  }

  /** Python's substring test `t in s`, scanning `s` from the left. */
  function Contains(s: string, t: string): bool
    decreases |s|
  {
    if t <= s then true
    else if s == [] then false
    else Contains(s[1..], t)
  }

  /** The scan finds `t` exactly when `t` occurs somewhere in `s`. */
  lemma {:induction false} ContainsIffOccurs(s: string, t: string)
    ensures Contains(s, t) <==> exists i :: OccursAt(s, t, i)
    decreases |s|
  {
    if t <= s {
      assert OccursAt(s, t, 0);
    } else if s == [] {
      assert t != [];
      forall i ensures !OccursAt(s, t, i) { }
    } else {
      ContainsIffOccurs(s[1..], t);
      if i :| OccursAt(s, t, i) {
        assert i != 0;
        assert s[1..][i - 1..i - 1 + |t|] == s[i..i + |t|];
        assert OccursAt(s[1..], t, i - 1);
      }
      if j :| OccursAt(s[1..], t, j) {
        assert s[j + 1..j + 1 + |t|] == s[1..][j..j + |t|];
        assert OccursAt(s, t, j + 1);
      }
    }
  }

  /** A key that starts with `t` contains it. */
  lemma PrefixIsContained(s: string, t: string)
    requires t <= s
    ensures Contains(s, t)
  {
  }

  /** `m` is a sub-map of `m'`: every entry of `m` is an entry of `m'`. */
  predicate IsSubMap(m: State, m': State)
  {
    forall k :: k in m ==> k in m' && m[k] == m'[k]
  }

  /** `{k: v for k, v in st.session_state.items() if "Sinusitis__c" in str(k)}` */
  function Payload(session: State): (r: State)
    ensures IsSubMap(r, session)
  {
    map k | k in session && Contains(k, FORM_TAG) :: session[k]
  }

  /** The payload holds exactly the session entries whose key has the tag as
      a substring, each with its value unchanged. */
  lemma PayloadIsTaggedEntries(session: State)
    ensures forall k :: k in Payload(session) <==> k in session && exists i :: OccursAt(k, FORM_TAG, i)
    ensures forall k :: k in Payload(session) ==> Payload(session)[k] == session[k]
  {
    forall k ensures k in Payload(session) <==> k in session && exists i :: OccursAt(k, FORM_TAG, i) {
      ContainsIffOccurs(k, FORM_TAG);
    }
  }

  /** Filtering an already filtered payload changes nothing. */
  lemma PayloadIdempotent(session: State)
    ensures Payload(Payload(session)) == Payload(session)
  {
  }

  /** Entries outside the payload never influence it: two sessions that agree
      on their tagged entries yield the same payload. */
  lemma PayloadIgnoresUntaggedEntries(s1: State, s2: State)
    requires forall k :: Contains(k, FORM_TAG) ==> (k in s1 <==> k in s2)
    requires forall k :: k in s1 && k in s2 && Contains(k, FORM_TAG) ==> s1[k] == s2[k]
    ensures Payload(s1) == Payload(s2)
  {
  }
}
