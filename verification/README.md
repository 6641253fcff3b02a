# CampusCompass building-name validation, modelled in Dafny

CampusCompass is a campus-navigation dialogue agent. Its route form asks the user
for an origin and a destination building. The user's free text goes to a
language-model normaliser. The result is either accepted into the slot or turned
into a disambiguation round: a follow-up question plus a list of candidate names.
The next answer for the same slot is then restricted to those candidates.

This project models both layers as pure functions:

- `LlmController` (`wrappers.dfy`, `llm_controller.dfy`) models `normalize_building`.
  It covers the empty-input short-circuit, the request payload, the fallback when
  the call or the parse raises, and the field-by-field defaulting of a response.
  The chat-completion call is a parameter `Oracle = Request -> OracleOutcome`.
  Its outcome is either `Failure` (any exception) or a `Response` whose four fields
  may each be absent.
- `RouteForm` (`route_form.dfy`) models `ValidateRouteForm`: the 0.8 confidence
  threshold, `clear_disambiguation_states`, and the two slot validators as one
  routine parameterised by `Slot`. The conversation is a map from slot keys to
  values. A validator returns the updates it writes, and `Apply` overwrites exactly
  those keys.
  - `Validate` is the code as written. The destination copy evaluates
    `len(restrict_to > 0)`, which raises `TypeError` whenever the target slot is
    `"destination_building"`, so `Validate` returns `Result<Slots, PyError>`.
  - `ValidateCorrected` uses `len(restrict_to) > 0` in both copies.
- `RouteFormProperties` (`route_form_properties.dfy`) proves multi-turn properties,
  the defect and its correction, and example conversations.

Behaviour worth knowing, each stated by a lemma:

- Acceptance returns only `{slot: normalized}` and leaves the disambiguation slots as
  they were, because `clear_disambiguation_states` is never called. An open round
  stays open after the slot is filled (`LemmaAcceptanceKeepsRound`).
- Confidence is not clamped to [0, 1], although the docstring promises that range
  (`LemmaNoClamping`).
- After an oracle failure the target is set while the candidate list is empty
  (`LemmaFailureOpensEmptyRound`).
- Empty input is never accepted: its judgment has label `""`, which is falsy
  (`ValidateCorrected`).

## Model

| member | source | states |
|---|---|---|
| LlmController.BuildRequest | CampusCompass/llm/llmcontroller.py:45-55 | the payload carries the raw text and top-k; an absent restriction is sent as `[]`, a present one unchanged |
| LlmController.LemmaNoRestrictionIsEmptyRestriction | CampusCompass/llm/llmcontroller.py:48 | a restriction of `None` and of `[]` give the same payload |
| LlmController.ConfidenceOrZero | CampusCompass/llm/llmcontroller.py:77 | `float(c or 0.0)` on a typed confidence is "the value if present, else 0.0" |
| LlmController.CandidatesOrEmpty | CampusCompass/llm/llmcontroller.py:78 | `candidates or []` is "the list if present, else empty"; no local filtering by the restriction |
| LlmController.FollowupOrApology | CampusCompass/llm/llmcontroller.py:79 | the follow-up is never empty; a present non-empty one is kept, otherwise the apology question is used |
| LlmController.ShapeOutcome | CampusCompass/llm/llmcontroller.py:57-80 | a failure yields the apology judgment with label `None`; a response passes its label through unchanged, defaults confidence and candidates, keeps a present non-empty follow-up and otherwise asks the apology question |
| LlmController.Normalize | CampusCompass/llm/llmcontroller.py:18-80 | empty or absent input yields the fixed landmark judgment; the follow-up is non-empty on every path; a non-zero confidence can only come from an oracle response |
| LlmController.LemmaEmptyInputIgnoresOracle | CampusCompass/llm/llmcontroller.py:29-35 | for empty input the judgment is the same whatever the oracle: confidence 0.0, no candidates, landmark question |
| LlmController.LemmaOneRequest | CampusCompass/llm/llmcontroller.py:57-67 | for non-empty input the judgment depends on the oracle only through its answer to the one built request |
| LlmController.LemmaResponseShaped | CampusCompass/llm/llmcontroller.py:75-80 | for non-empty input and an oracle response, the judgment carries the response's label, its confidence or 0.0, its candidates or `[]`, and its non-empty follow-up or the apology question |
| LlmController.LemmaFailureFallback | CampusCompass/llm/llmcontroller.py:68-74 | an oracle failure yields label `None`, confidence 0.0, no candidates and the apology question |
| LlmController.LemmaNoClamping | CampusCompass/llm/llmcontroller.py:76-77 | confidences of 1.5 and -0.25 are returned unchanged and "UNKNOWN" is passed through, despite the docstring's range |
| RouteForm.Apply | CampusCompass/actions/actions.py:57-68 | the returned slot dict takes effect by overwriting exactly the keys it names; every other key of the conversation keeps its value |
| RouteForm.ClearDisambiguation | CampusCompass/actions/actions.py:27-33 | writes exactly follow-up `None`, candidates `[]` and target `None`, after which no slot's round is open and no candidates are stored |
| RouteForm.ExtractNames | CampusCompass/actions/actions.py:59 | a name is extracted exactly when some candidate carries it; no more names than candidates (order and multiplicity: `LemmaExtractNamesAppend`, `LemmaExtractNamesKeepsOrder`) |
| RouteForm.Decide | CampusCompass/actions/actions.py:55-68 | the slot is written as non-`None` iff the judgment is accepted; acceptance writes exactly `{slot: label}`; rejection writes exactly four keys: slot `None`, follow-up, extracted names, target = this slot |
| RouteForm.InRoundAsWritten | CampusCompass/actions/actions.py:81-83 | the restriction test raises exactly for the destination copy when the target is `"destination_building"`; otherwise it is "target is this slot and the stored list is non-empty" |
| RouteForm.Restriction | CampusCompass/actions/actions.py:46-53 | the stored candidates are passed only when the target is this slot and the list is non-empty; otherwise `None` |
| RouteForm.Validate | CampusCompass/actions/actions.py:70-104 | raises `TypeError` iff validating the destination while the target is `"destination_building"`; otherwise it equals the corrected validator |
| RouteForm.ValidateCorrected | CampusCompass/actions/actions.py:35-68 | always writes the slot and at most the three disambiguation keys; any follow-up written is non-empty; empty input opens a round with the landmark question and no candidates |
| RouteFormProperties.LemmaExtractNamesAppend | CampusCompass/actions/actions.py:59 | extraction distributes over concatenation of candidate lists |
| RouteFormProperties.LemmaExtractNamesAt | CampusCompass/actions/actions.py:59 | a named candidate's name sits right after the names extracted from the candidates before it |
| RouteFormProperties.LemmaExtractNamesKeepsOrder | CampusCompass/actions/actions.py:59 | two named candidates keep their relative order among the extracted names |
| RouteFormProperties.LemmaAllNamedKept | CampusCompass/actions/actions.py:59 | when every candidate is named, nothing is dropped and the names are in candidate order |
| RouteFormProperties.LemmaEmptyNameKept | CampusCompass/actions/actions.py:94-95 | an empty-string name is kept and only an absent name is dropped |
| RouteFormProperties.LemmaAcceptanceIff | CampusCompass/actions/actions.py:55-57 | the slot ends up holding the label iff the label is present, non-empty and the confidence is at least 0.8 |
| RouteFormProperties.LemmaAcceptanceKeepsRound | CampusCompass/actions/actions.py:56-57 | acceptance changes only the slot; the disambiguation slots and every slot's restriction stay as they were |
| RouteFormProperties.LemmaUnknownFillsSlot | CampusCompass/actions/actions.py:56-57 | any response labelled "UNKNOWN" with confidence at least 0.8, whatever its candidates and question, fills the slot with "UNKNOWN" and writes nothing else |
| RouteFormProperties.LemmaLowConfidenceGuessDiscarded | CampusCompass/actions/actions.py:91-101 | below the threshold the slot is reset and the round targets this slot, whatever the label |
| RouteFormProperties.LemmaRejectionOpensRound | CampusCompass/actions/actions.py:46-68 | after a rejection the target is this slot and the stored names are the extracted ones; the next call for this slot is restricted to them when there are any, and the other slot's call is unrestricted |
| RouteFormProperties.LemmaFailureOpensEmptyRound | CampusCompass/actions/actions.py:59-68 | an oracle failure writes exactly slot `None`, the apology question, candidates `[]` and target = this slot, so the next call for the slot is unrestricted |
| RouteFormProperties.LemmaClearEndsRound | CampusCompass/actions/actions.py:27-33 | after clearing, no slot is restricted and neither copy raises |
| RouteFormProperties.LemmaRestrictionReachesOracle | CampusCompass/actions/actions.py:46-53 | the oracle is asked one request with top-k 3, restricted to the stored names when the target is this slot and `[]` otherwise |
| RouteFormProperties.LemmaValidateFollowsResponse | CampusCompass/actions/actions.py:46-68 | for every slot, state, non-empty input and oracle response: the slot is filled iff the label is truthy with confidence (or 0.0) at least 0.8; acceptance writes exactly `{slot: label}`; rejection writes exactly slot `None`, the response's non-empty question or the apology, the names of its candidates, and this slot as target |
| RouteFormProperties.LemmaDestinationRoundRaises | CampusCompass/actions/actions.py:83 | once destination validation rejects, every later destination call raises until the target changes |
| RouteFormProperties.LemmaDestinationDefectWitness | CampusCompass/actions/actions.py:81-88 | with target `"destination_building"` and candidates Huygens, Spinoza, destination validation raises, while the intended restriction is those two names |
| RouteFormProperties.LemmaCorrectedDestinationRoundContinues | CampusCompass/actions/actions.py:46-53 | with the intended comparison, a destination rejection with candidates restricts the next destination request to exactly those names |
| RouteFormProperties.LemmaExampleRestrictionPropagation | CampusCompass/actions/actions.py:46-53 | during an origin round over Huygens and Elinor Ostrom the origin call is restricted to them, and the destination call is unrestricted and does not raise |
| RouteFormProperties.LemmaExampleConfidentMatch | CampusCompass/actions/actions.py:55-57 | "EOS" normalised to "Elinor Ostromgebouw" at 0.92 fills the origin slot and writes nothing else |
| RouteFormProperties.LemmaExampleVagueDescription | CampusCompass/actions/actions.py:59-68 | an "UNKNOWN" label at 0.3 with candidates Huygens and Spinoza opens an origin round over those names with the oracle's question |

## Left out

- The chat-completion call, the prompt text and the model settings: the oracle is a parameter. The instruction that answers must come from `restrict_to` is only text sent to the model, so nothing in the model enforces it.
- The output-schema descriptor in the request payload: it is a constant and is omitted from `Request`.
- The controller's constructor check for a missing API key, and the environment loading in `CampusCompass/llm/config.py`: configuration and I/O. `ValidateRouteForm.normalize` builds a new controller per call; that is not modelled either.
- Errors raised outside the `try` while shaping a response: `float()` on a non-numeric confidence, and `.get` on a JSON value that is not an object. Response fields are typed instead.
- Candidate entries that are not objects (where `candidate.get` would raise): candidates are typed records.
- Floating-point semantics: confidences are `real`, and the threshold is exactly 4/5.
- Rasa plumbing: the tracker, `SlotSet` events, the dispatcher and `async`. The `str(slot_value)` coercion is left out too: the raw value is `Option<string>`.
- RouteForm.StoredCandidates: a candidates slot holding something other than a list reads as `[]`. Every writer of that slot in the route form stores a list (`CampusCompass/actions/actions.py:32`, `:64`, `:100`).
- RouteForm.Decide: writes the judgment's follow-up directly. `followup or ""` is the identity here, because every judgment carries a string.
- `ActionRouteSummary` (`CampusCompass/actions/actions.py:106-114`): it only emits a debug message.
- Determinism across repeated calls: every member is a pure function, so equal inputs give equal updates by construction. No separate lemma states it.

## Findings

| source | as written | input that shows it | evidently intended | confidence | as-written member | corrected member |
|---|---|---|---|---|---|---|
| CampusCompass/actions/actions.py:83 | `len(restrict_to > 0)` compares a list with an int, which raises `TypeError` | validate the destination with target slot `"destination_building"` and candidates `["Huygens", "Spinoza"]` | `len(restrict_to) > 0`, as in the origin copy at line 48 | high; not executed | RouteFormProperties.LemmaDestinationDefectWitness | RouteFormProperties.LemmaCorrectedDestinationRoundContinues |
