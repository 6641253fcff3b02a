/**
  The building-name normaliser: one request to an external text-classification
  oracle, wrapped so that every outcome becomes a well-formed judgment.

  The oracle (the chat-completion call plus JSON parsing) is a parameter of type
  `Oracle`: it receives the request payload and yields either `Failure` (any
  exception raised by the call or the parse) or a `Response` whose fields may each
  be absent. Everything else is the deterministic shaping around that call.
*/
module LlmController {
  import opened Wrappers

  /** Number of candidates requested when the caller does not say. */
  const DefaultTopK: int := 3

  /** Asked when there is no text to normalise at all. */
  const LandmarkQuestion: string := "What building name or clear landmark do you see?"

  /** Asked when the oracle failed, or answered without a follow-up question. */
  const ApologyQuestion: string := "I am sorry, I did not understand. Could you describe again?"

  /** One ranked candidate as the oracle reported it; any field may be absent. */
  datatype Candidate = Candidate(name: Option<string>, confidence: Option<real>, reason: Option<string>)

  /** The payload sent to the oracle (the fixed output-schema descriptor is omitted). */
  datatype Request = Request(raw: string, topK: int, restrictTo: seq<string>)

  /** What the oracle call produced. `None` in a field covers both a missing key and JSON null. */
  datatype OracleOutcome =
    | Failure
    | Response(normalized: Option<string>, confidence: Option<real>,
               candidates: Option<seq<Candidate>>, followup: Option<string>)

  /** The structured answer of one normalisation attempt. */
  datatype Judgment = Judgment(normalized: Option<string>, confidence: real,
                               candidates: seq<Candidate>, followup: string)

  type Oracle = Request -> OracleOutcome

  /** The fixed judgment for empty or absent input. */
  const EmptyInputJudgment: Judgment := Judgment(Some(""), 0.0, [], LandmarkQuestion)

  /** The fixed judgment when the oracle call or the parse raised. */
  const FailureJudgment: Judgment := Judgment(None, 0.0, [], ApologyQuestion)

  /** True of the inputs the normaliser answers without asking the oracle. */
  predicate IsEmptyInput(raw: Option<string>) {
    raw.None? || raw.value == ""
  }

  /** The request payload; an absent restriction is sent as the empty list (`restrict_to or []`). */
  function BuildRequest(raw: string, topK: int, restrictTo: Option<seq<string>>): (q: Request)
    ensures q.raw == raw && q.topK == topK
    ensures restrictTo.None? ==> q.restrictTo == []
    ensures restrictTo.Some? ==> q.restrictTo == restrictTo.value
  {
    Request(raw, topK, if restrictTo.Some? && restrictTo.value != [] then restrictTo.value else [])
  }

  /** `float(confidence or 0.0)`: absent or zero becomes 0.0, anything else is kept. */
  function ConfidenceOrZero(confidence: Option<real>): (c: real)
    ensures c == confidence.GetOr(0.0)
  {
    if confidence.None? || confidence.value == 0.0 then 0.0 else confidence.value
  }

  /** `candidates or []`: absent or empty becomes the empty list, anything else is kept. */
  function CandidatesOrEmpty(candidates: Option<seq<Candidate>>): (cs: seq<Candidate>)
    ensures cs == candidates.GetOr([])
  {
    if candidates.None? || candidates.value == [] then [] else candidates.value
  }

  /** `followup or <apology>`: absent or empty becomes the apology question. */
  function FollowupOrApology(followup: Option<string>): (q: string)
    ensures q != ""
    ensures followup.Some? && followup.value != "" ==> q == followup.value
    ensures followup.None? || followup.value == "" ==> q == ApologyQuestion
  {
    if followup.None? || followup.value == "" then ApologyQuestion else followup.value
  }

  /** Turns whatever the oracle produced into a judgment; a failure never escapes. */
  function ShapeOutcome(outcome: OracleOutcome): (j: Judgment)
    ensures outcome.Failure? ==> j == FailureJudgment
    ensures outcome.Response? ==> j.normalized == outcome.normalized
    ensures outcome.Response? ==> j.confidence == outcome.confidence.GetOr(0.0)
    ensures outcome.Response? ==> j.candidates == outcome.candidates.GetOr([])
    ensures outcome.Response? && outcome.followup.Some? && outcome.followup.value != ""
            ==> j.followup == outcome.followup.value
    ensures outcome.Response? && (outcome.followup.None? || outcome.followup.value == "")
            ==> j.followup == ApologyQuestion
    ensures j.followup != ""
  {
    match outcome
    case Failure => FailureJudgment
    case Response(normalized, confidence, candidates, followup) =>
      Judgment(normalized, ConfidenceOrZero(confidence), CandidatesOrEmpty(candidates),
               FollowupOrApology(followup))
  }

  /**
    `normalize_building`: empty input short-circuits to a fixed judgment without
    consulting the oracle; otherwise the oracle is asked exactly one request and its
    outcome is shaped.
  */
  function Normalize(raw: Option<string>, topK: int, restrictTo: Option<seq<string>>,
                     oracle: Oracle): (j: Judgment)
    ensures IsEmptyInput(raw) ==> j == EmptyInputJudgment
    ensures j.followup != ""
    ensures j.confidence != 0.0 ==> !IsEmptyInput(raw) && oracle(BuildRequest(raw.value, topK, restrictTo)).Response?
  {
    if IsEmptyInput(raw) then EmptyInputJudgment
    else ShapeOutcome(oracle(BuildRequest(raw.value, topK, restrictTo)))
  }

  /** Empty input yields the same judgment whatever the oracle would have said. */
  lemma LemmaEmptyInputIgnoresOracle(raw: Option<string>, topK: int, restrictTo: Option<seq<string>>,
                                     oracle1: Oracle, oracle2: Oracle)
    requires IsEmptyInput(raw)
    ensures Normalize(raw, topK, restrictTo, oracle1) == Normalize(raw, topK, restrictTo, oracle2)
    ensures Normalize(raw, topK, restrictTo, oracle1).confidence == 0.0
    ensures Normalize(raw, topK, restrictTo, oracle1).candidates == []
    ensures Normalize(raw, topK, restrictTo, oracle1).followup == LandmarkQuestion
  {
  }

  /** For non-empty input the oracle is consulted on one request only: two oracles that agree there agree everywhere. */
  lemma LemmaOneRequest(raw: string, topK: int, restrictTo: Option<seq<string>>,
                        oracle1: Oracle, oracle2: Oracle)
    requires raw != ""
    requires oracle1(BuildRequest(raw, topK, restrictTo)) == oracle2(BuildRequest(raw, topK, restrictTo))
    ensures Normalize(Some(raw), topK, restrictTo, oracle1) == Normalize(Some(raw), topK, restrictTo, oracle2)
  {
  }

  /** Whatever the oracle raises, the caller receives the apology judgment. */
  lemma LemmaFailureFallback(raw: string, topK: int, restrictTo: Option<seq<string>>, oracle: Oracle)
    requires raw != ""
    requires oracle(BuildRequest(raw, topK, restrictTo)).Failure?
    ensures Normalize(Some(raw), topK, restrictTo, oracle)
            == Judgment(None, 0.0, [], ApologyQuestion)
  {
  }

  /** A response reaches the judgment: its label unchanged, its confidence and candidates defaulted, its follow-up kept when non-empty. */
  lemma LemmaResponseShaped(raw: string, topK: int, restrictTo: Option<seq<string>>, oracle: Oracle)
    requires raw != ""
    requires oracle(BuildRequest(raw, topK, restrictTo)).Response?
    ensures var outcome := oracle(BuildRequest(raw, topK, restrictTo));
            var j := Normalize(Some(raw), topK, restrictTo, oracle);
      && j.normalized == outcome.normalized
      && j.confidence == outcome.confidence.GetOr(0.0)
      && j.candidates == outcome.candidates.GetOr([])
      && j.followup == (if outcome.followup.Some? && outcome.followup.value != "" then outcome.followup.value
                        else ApologyQuestion)
  {
  }

  /** No restriction and an empty restriction are indistinguishable to the oracle. */
  lemma LemmaNoRestrictionIsEmptyRestriction(raw: string, topK: int)
    ensures BuildRequest(raw, topK, None) == BuildRequest(raw, topK, Some([]))
  {
  }

  /** Confidence is passed through without clamping to [0, 1], and "UNKNOWN" is passed through as a label. */
  lemma LemmaNoClamping(followup: Option<string>)
    ensures ShapeOutcome(Response(Some("UNKNOWN"), Some(3.0 / 2.0), None, followup)).confidence == 3.0 / 2.0
    ensures ShapeOutcome(Response(Some("UNKNOWN"), Some(-1.0 / 4.0), None, followup)).confidence == -1.0 / 4.0
    ensures ShapeOutcome(Response(Some("UNKNOWN"), Some(-1.0 / 4.0), None, followup)).normalized == Some("UNKNOWN")
  {
  }
}
