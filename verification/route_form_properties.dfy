/**
  Properties of the route-form validation protocol: the extracted candidate names,
  what acceptance and rejection do to the conversation across turns, the
  destination copy's defect, and example conversations.
*/
module RouteFormProperties {
  import opened Wrappers
  import opened LlmController
  import opened RouteForm

  // ---------------------------------------------------------------------------
  // Candidate names
  // ---------------------------------------------------------------------------

  /** Extraction distributes over concatenation. */
  lemma {:induction false} LemmaExtractNamesAppend(a: seq<Candidate>, b: seq<Candidate>)
    ensures ExtractNames(a + b) == ExtractNames(a) + ExtractNames(b)
  {
    if a == [] {
      assert a + b == b;
    } else {
      assert (a + b)[1..] == a[1..] + b;
      LemmaExtractNamesAppend(a[1..], b);
    }
  }

  /** A named candidate at index `i` appears right after the names extracted before it. */
  lemma LemmaExtractNamesAt(cs: seq<Candidate>, i: int)
    requires 0 <= i < |cs| && cs[i].name.Some?
    ensures |ExtractNames(cs[..i])| < |ExtractNames(cs)|
    ensures ExtractNames(cs)[|ExtractNames(cs[..i])|] == cs[i].name.value
  {
    assert cs == cs[..i] + cs[i..];
    LemmaExtractNamesAppend(cs[..i], cs[i..]);
    assert cs[i..][0] == cs[i];
  }

  /** Two named candidates keep their relative order among the extracted names. */
  lemma LemmaExtractNamesKeepsOrder(cs: seq<Candidate>, i: int, j: int)
    requires 0 <= i < j < |cs| && cs[i].name.Some? && cs[j].name.Some?
    ensures |ExtractNames(cs[..i])| < |ExtractNames(cs[..j])| < |ExtractNames(cs)|
    ensures ExtractNames(cs)[|ExtractNames(cs[..i])|] == cs[i].name.value
    ensures ExtractNames(cs)[|ExtractNames(cs[..j])|] == cs[j].name.value
  {
    LemmaExtractNamesAt(cs, i);
    LemmaExtractNamesAt(cs, j);
    assert cs[..j] == cs[..i] + cs[i..j];
    LemmaExtractNamesAppend(cs[..i], cs[i..j]);
    assert cs[i..j][0] == cs[i];
  }

  /** When every candidate is named, nothing is dropped (empty names included). */
  lemma {:induction false} LemmaAllNamedKept(cs: seq<Candidate>)
    requires forall i :: 0 <= i < |cs| ==> cs[i].name.Some?
    ensures |ExtractNames(cs)| == |cs|
    ensures forall i :: 0 <= i < |cs| ==> ExtractNames(cs)[i] == cs[i].name.value
  {
    if cs != [] {
      LemmaAllNamedKept(cs[1..]);
    }
  }

  /** An empty-string name is kept; only an absent name is dropped. */
  lemma LemmaEmptyNameKept()
    ensures ExtractNames([Candidate(Some(""), None, None), Candidate(None, Some(0.5), None),
                          Candidate(Some("Huygens"), None, None)]) == ["", "Huygens"]
  {
  }

  // ---------------------------------------------------------------------------
  // Acceptance
  // ---------------------------------------------------------------------------

  /**
    Acceptance writes the slot and nothing else: the disambiguation slots keep their
    values, so a round that was open stays open.
  */
  lemma LemmaAcceptanceKeepsRound(slot: Slot, j: Judgment, c: Slots)
    requires Accepts(j)
    ensures var c' := Apply(c, Decide(slot, j));
      && c'[slot.Key()] == Text(j.normalized.value)
      && (forall k :: k != slot.Key() ==> (k in c' <==> k in c))
      && (forall k :: k in c && k != slot.Key() ==> c'[k] == c[k])
      && (forall s: Slot :: Restriction(s, c') == Restriction(s, c))
  {
    var c' := Apply(c, Decide(slot, j));
    assert DisambiguationTargetSlot != slot.Key() && DisambiguationCandidates != slot.Key();
    assert StoredCandidates(c') == StoredCandidates(c);
    assert forall s: Slot :: TargetIs(c', s.Name()) == TargetIs(c, s.Name());
  }

  /** Acceptance happens exactly when the label is truthy and the confidence reaches 0.8. */
  lemma LemmaAcceptanceIff(slot: Slot, j: Judgment, c: Slots)
    ensures (Apply(c, Decide(slot, j))[slot.Key()] == Text(j.normalized.GetOr("")))
            <==> (j.normalized.Some? && j.normalized.value != "" && j.confidence >= 4.0 / 5.0)
  {
  }

  /** "UNKNOWN" is an ordinary label: with enough confidence it fills the slot. */
  lemma LemmaUnknownFillsSlot(slot: Slot, raw: string, c: Slots, oracle: Oracle, confidence: real)
    requires raw != "" && confidence >= 4.0 / 5.0
    requires var out := oracle(BuildRequest(raw, DefaultTopK, Restriction(slot, c)));
             out.Response? && out.normalized == Some("UNKNOWN") && out.confidence == Some(confidence)
    ensures ValidateCorrected(slot, Some(raw), c, oracle) == map[slot.Key() := Text("UNKNOWN")]
  {
  }

  /** A guess below the threshold is discarded: the slot is reset, never set to the guess. */
  lemma LemmaLowConfidenceGuessDiscarded(slot: Slot, j: Judgment, c: Slots)
    requires j.confidence < 4.0 / 5.0
    ensures Apply(c, Decide(slot, j))[slot.Key()] == Unset
    ensures TargetIs(Apply(c, Decide(slot, j)), slot.Name())
  {
  }

  // ---------------------------------------------------------------------------
  // Rejection and the next turn
  // ---------------------------------------------------------------------------

  /**
    A rejection points the round at the validated slot and stores the extracted names;
    the next call for that slot is restricted to them when there are any, and the
    other slot's next call is unrestricted.
  */
  lemma LemmaRejectionOpensRound(slot: Slot, other: Slot, j: Judgment, c: Slots)
    requires !Accepts(j) && other != slot
    ensures var c' := Apply(c, Decide(slot, j));
      && TargetIs(c', slot.Name())
      && StoredCandidates(c') == ExtractNames(j.candidates)
      && Restriction(slot, c') == (if ExtractNames(j.candidates) == [] then None else Some(ExtractNames(j.candidates)))
      && Restriction(other, c') == None
  {
    var c' := Apply(c, Decide(slot, j));
    assert c'[DisambiguationTargetSlot] == Text(slot.Name());
    assert !TargetIs(c', other.Name()) by {
      assert slot.Name() != other.Name() by {
        assert slot.Name()[0] != other.Name()[0];
      }
    }
  }

  /** An oracle failure leaves the round aimed at the slot with no candidates, and so unrestricted. */
  lemma LemmaFailureOpensEmptyRound(slot: Slot, raw: string, c: Slots, oracle: Oracle)
    requires raw != ""
    requires oracle(BuildRequest(raw, DefaultTopK, Restriction(slot, c))).Failure?
    ensures ValidateCorrected(slot, Some(raw), c, oracle)
            == map[slot.Key() := Unset,
                   FollowupQuestion := Text(ApologyQuestion),
                   DisambiguationCandidates := Names([]),
                   DisambiguationTargetSlot := Text(slot.Name())]
    ensures var c' := Apply(c, ValidateCorrected(slot, Some(raw), c, oracle));
      && c'[slot.Key()] == Unset
      && c'[FollowupQuestion] == Text(ApologyQuestion)
      && TargetIs(c', slot.Name())
      && StoredCandidates(c') == []
      && Restriction(slot, c') == None
  {
  }

  /** Clearing the disambiguation slots ends every round; then neither copy raises. */
  lemma LemmaClearEndsRound(slot: Slot, raw: Option<string>, c: Slots, oracle: Oracle)
    ensures Restriction(slot, Apply(c, ClearDisambiguation())) == None
    ensures Validate(slot, raw, Apply(c, ClearDisambiguation()), oracle).Ok?
  {
  }

  /**
    For non-empty input the oracle is asked one request, restricted to the stored
    candidates exactly when this slot's round is open with candidates: any two oracles
    that agree on that request give the same updates.
  */
  lemma LemmaRestrictionReachesOracle(slot: Slot, raw: string, c: Slots, oracle1: Oracle, oracle2: Oracle)
    requires raw != ""
    requires var q := Request(raw, 3, if TargetIs(c, slot.Name()) then StoredCandidates(c) else []);
             oracle1(q) == oracle2(q)
    ensures ValidateCorrected(slot, Some(raw), c, oracle1) == ValidateCorrected(slot, Some(raw), c, oracle2)
  {
  }

  /**
    For non-empty input and an oracle response, the updates follow the response: the
    slot is filled iff its label is truthy with confidence at least 0.8, acceptance
    writes only the slot, and rejection writes the reset slot, the response's question
    (or the apology), the names of its candidates, and this slot as target.
  */
  lemma LemmaValidateFollowsResponse(slot: Slot, raw: string, c: Slots, oracle: Oracle)
    requires raw != ""
    requires oracle(Request(raw, 3, if TargetIs(c, slot.Name()) then StoredCandidates(c) else [])).Response?
    ensures var out := oracle(Request(raw, 3, if TargetIs(c, slot.Name()) then StoredCandidates(c) else []));
            var u := ValidateCorrected(slot, Some(raw), c, oracle);
            var accepted := out.normalized.Some? && out.normalized.value != ""
                            && out.confidence.GetOr(0.0) >= 4.0 / 5.0;
      && (u[slot.Key()] != Unset <==> accepted)
      && (accepted ==> u == map[slot.Key() := Text(out.normalized.value)])
      && (!accepted ==>
            u == map[slot.Key() := Unset,
                     FollowupQuestion := Text(if out.followup.Some? && out.followup.value != ""
                                              then out.followup.value else ApologyQuestion),
                     DisambiguationCandidates := Names(ExtractNames(out.candidates.GetOr([]))),
                     DisambiguationTargetSlot := Text(slot.Name())])
  {
    assert BuildRequest(raw, DefaultTopK, Restriction(slot, c))
           == Request(raw, 3, if TargetIs(c, slot.Name()) then StoredCandidates(c) else []);
  }

  // ---------------------------------------------------------------------------
  // The destination defect
  // ---------------------------------------------------------------------------

  /** As written, a destination rejection makes every later destination call raise until the target changes. */
  lemma LemmaDestinationRoundRaises(j: Judgment, c: Slots, raw: Option<string>, oracle: Oracle)
    requires !Accepts(j)
    ensures Validate(Destination, raw, Apply(c, Decide(Destination, j)), oracle) == Err(TypeError)
  {
  }

  /** A concrete input on which the destination copy raises while the origin copy restricts. */
  lemma LemmaDestinationDefectWitness(oracle: Oracle)
    ensures var c := map[DisambiguationTargetSlot := Text("destination_building"),
                         DisambiguationCandidates := Names(["Huygens", "Spinoza"])];
      && Validate(Destination, Some("the one with the glass roof"), c, oracle) == Err(TypeError)
      && Restriction(Destination, c) == Some(["Huygens", "Spinoza"])
  {
  }

  /**
    With the intended comparison, a destination rejection with candidates makes the
    next destination call restricted to them, exactly as for the origin.
  */
  lemma LemmaCorrectedDestinationRoundContinues(j: Judgment, c: Slots, raw: string, oracle: Oracle)
    requires !Accepts(j) && ExtractNames(j.candidates) != [] && raw != ""
    ensures var c' := Apply(c, Decide(Destination, j));
      && Restriction(Destination, c') == Some(ExtractNames(j.candidates))
      && ValidateCorrected(Destination, Some(raw), c', oracle)
         == Decide(Destination, ShapeOutcome(oracle(Request(raw, DefaultTopK, ExtractNames(j.candidates)))))
  {
    LemmaRejectionOpensRound(Destination, Origin, j, c);
  }

  // ---------------------------------------------------------------------------
  // Example conversations
  // ---------------------------------------------------------------------------

  /** During an origin round the origin call is restricted to the stored names and the destination call is not. */
  lemma LemmaExampleRestrictionPropagation(raw: Option<string>, oracle: Oracle)
    ensures var c := map[DisambiguationTargetSlot := Text("origin_building"),
                         DisambiguationCandidates := Names(["Huygens", "Elinor Ostrom"])];
      && Restriction(Origin, c) == Some(["Huygens", "Elinor Ostrom"])
      && Restriction(Destination, c) == None
      && Validate(Destination, raw, c, oracle).Ok?
  {
  }

  /** "EOS" confidently normalised fills the origin slot and writes nothing else. */
  lemma LemmaExampleConfidentMatch(c: Slots, oracle: Oracle)
    requires oracle(BuildRequest("EOS", DefaultTopK, Restriction(Origin, c)))
             == Response(Some("Elinor Ostromgebouw"), Some(0.92), Some([]), Some(""))
    ensures Validate(Origin, Some("EOS"), c, oracle) == Ok(map[OriginBuilding := Text("Elinor Ostromgebouw")])
  {
  }

  /** A vague description with low confidence opens a round over the two named candidates. */
  lemma LemmaExampleVagueDescription(c: Slots, oracle: Oracle)
    requires oracle(BuildRequest("green building with flat roof", DefaultTopK, Restriction(Origin, c)))
             == Response(Some("UNKNOWN"), Some(0.3),
                         Some([Candidate(Some("Huygens"), Some(0.4), None),
                               Candidate(Some("Spinoza"), Some(0.35), None)]),
                         Some("Is it near the parking garage?"))
    ensures Validate(Origin, Some("green building with flat roof"), c, oracle)
            == Ok(map[OriginBuilding := Unset,
                      FollowupQuestion := Text("Is it near the parking garage?"),
                      DisambiguationCandidates := Names(["Huygens", "Spinoza"]),
                      DisambiguationTargetSlot := Text("origin_building")])
  {
    var cs := [Candidate(Some("Huygens"), Some(0.4), None), Candidate(Some("Spinoza"), Some(0.35), None)];
    assert ExtractNames(cs[1..][1..]) == [];
    assert ExtractNames(cs[1..]) == ["Spinoza"];
    assert ExtractNames(cs) == ["Huygens", "Spinoza"];
  }
}
