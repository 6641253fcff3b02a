/**
  Slot validation of the route form: for the origin or the destination building,
  decide whether the current disambiguation round restricts the normaliser, ask the
  normaliser, and either fill the slot or start or continue a disambiguation round.

  The two source validators are one routine here, parameterised by `Slot`. `Validate`
  keeps the destination copy's defect (a list compared with an int, which raises
  `TypeError`); `ValidateCorrected` is the evidently intended routine.
*/
module RouteForm {
  import opened Wrappers
  import opened LlmController

  /** A judgment is accepted only at or above this confidence (0.8). */
  const ConfidenceThreshold: real := 4.0 / 5.0

  /** The conversation slots the validators read or write. */
  datatype SlotKey =
    | OriginBuilding
    | DestinationBuilding
    | FollowupQuestion
    | DisambiguationCandidates
    | DisambiguationTargetSlot
  {
    /** The slot's name in the dialogue domain. */
    function Name(): string {
      match this
      case OriginBuilding => "origin_building"
      case DestinationBuilding => "destination_building"
      case FollowupQuestion => "followup_question"
      case DisambiguationCandidates => "disambiguation_candidates"
      case DisambiguationTargetSlot => "disambiguation_target_slot"
    }
  }

  /** A slot's value: `Unset` is Python's `None`. */
  datatype SlotValue = Unset | Text(text: string) | Names(names: seq<string>)

  /** Slot values of a conversation, or the updates one validation returns. */
  type Slots = map<SlotKey, SlotValue>

  /** The two building slots a validator can be run for. */
  datatype Slot = Origin | Destination {
    function Key(): SlotKey {
      match this
      case Origin => OriginBuilding
      case Destination => DestinationBuilding
    }

    function Name(): string {
      Key().Name()
    }
  }

  /** The only error a validator raises. */
  datatype PyError = TypeError

  /** True when the target slot holds exactly the string `name`. */
  predicate TargetIs(c: Slots, name: string) {
    DisambiguationTargetSlot in c && c[DisambiguationTargetSlot] == Text(name)
  }

  /** The stored candidate names, `[]` when unset (`get_slot(...) or []`). */
  function StoredCandidates(c: Slots): seq<string> {
    if DisambiguationCandidates in c && c[DisambiguationCandidates].Names?
    then c[DisambiguationCandidates].names
    else []
  }

  /** A slot update takes effect by overwriting exactly the keys it names. */
  function Apply(c: Slots, updates: Slots): (c': Slots)
    ensures c'.Keys == c.Keys + updates.Keys
    ensures forall k :: k in updates ==> c'[k] == updates[k]
    ensures forall k :: k in c && k !in updates ==> c'[k] == c[k]
  {
    c + updates
  }

  /** The updates of `clear_disambiguation_states`. */
  function ClearDisambiguation(): (u: Slots)
    ensures u.Keys == {FollowupQuestion, DisambiguationCandidates, DisambiguationTargetSlot}
    ensures forall c: Slots :: Apply(c, u)[FollowupQuestion] == Unset && Apply(c, u)[DisambiguationTargetSlot] == Unset
    ensures forall c: Slots :: Apply(c, u)[DisambiguationCandidates] == Names([])
    ensures forall c: Slots, s: Slot :: !TargetIs(Apply(c, u), s.Name()) && StoredCandidates(Apply(c, u)) == []
  {
    var u := map[FollowupQuestion := Unset, DisambiguationCandidates := Names([]), DisambiguationTargetSlot := Unset];
    assert forall c: Slots :: StoredCandidates(Apply(c, u)) == [];
    assert forall c: Slots, s: Slot :: !TargetIs(Apply(c, u), s.Name());
    u
  }

  /** The names of the candidates, in order, leaving out those whose name is absent. */
  function ExtractNames(cs: seq<Candidate>): (names: seq<string>)
    ensures |names| <= |cs|
    ensures forall n :: n in names <==> exists i :: 0 <= i < |cs| && cs[i].name == Some(n)
  {
    if cs == [] then []
    else
      var rest := ExtractNames(cs[1..]);
      assert forall i :: 1 <= i < |cs| ==> cs[i] == cs[1..][i - 1];
      if cs[0].name.Some? then [cs[0].name.value] + rest else rest
  }

  /** Python truthiness of the normalised label: present and not the empty string. */
  predicate Truthy(normalized: Option<string>) {
    normalized.Some? && normalized.value != ""
  }

  /** The acceptance test of the validators. */
  predicate Accepts(j: Judgment) {
    Truthy(j.normalized) && j.confidence >= ConfidenceThreshold
  }

  /** The slot updates for a judgment: fill the slot, or open a disambiguation round. */
  function Decide(slot: Slot, j: Judgment): (u: Slots)
    ensures slot.Key() in u
    ensures Accepts(j) <==> u[slot.Key()] != Unset
    ensures Accepts(j) ==> u == map[slot.Key() := Text(j.normalized.value)]
    ensures !Accepts(j) ==>
      && u.Keys == {slot.Key(), FollowupQuestion, DisambiguationCandidates, DisambiguationTargetSlot}
      && |u| == 4
      && u[slot.Key()] == Unset
      && u[FollowupQuestion] == Text(j.followup)
      && u[DisambiguationCandidates] == Names(ExtractNames(j.candidates))
      && u[DisambiguationTargetSlot] == Text(slot.Name())
  {
    if Accepts(j) then map[slot.Key() := Text(j.normalized.value)]
    else
      // `followup or ""` is the identity on the string a judgment carries
      map[slot.Key() := Unset,
          FollowupQuestion := Text(j.followup),
          DisambiguationCandidates := Names(ExtractNames(j.candidates)),
          DisambiguationTargetSlot := Text(slot.Name())]
  }

  /** Whether the call is restricted to the stored candidates, as the destination copy computes it. */
  function InRoundAsWritten(slot: Slot, c: Slots): (r: Result<bool, PyError>)
    ensures r.Err? <==> slot == Destination && TargetIs(c, slot.Name())
    ensures r.Ok? ==> r.value == InRound(slot, c)
  {
    var restrictTo := StoredCandidates(c);
    if !TargetIs(c, slot.Name()) then Ok(false)  // `and` short-circuits
    else match slot
      case Origin => Ok(|restrictTo| > 0)
      // `len(restrict_to > 0)`: ordering a list against an int raises
      case Destination => Err(TypeError)
  }

  /** Whether the call is restricted to the stored candidates, as both copies intend it. */
  predicate InRound(slot: Slot, c: Slots) {
    TargetIs(c, slot.Name()) && |StoredCandidates(c)| > 0
  }

  /** The restriction handed to the normaliser. */
  function Restriction(slot: Slot, c: Slots): (r: Option<seq<string>>)
    ensures r.Some? ==> r.value == StoredCandidates(c) && r.value != []
    ensures r.None? <==> !TargetIs(c, slot.Name()) || StoredCandidates(c) == []
  {
    if InRound(slot, c) then Some(StoredCandidates(c)) else None
  }

  /** `validate_origin_building` and `validate_destination_building` as written. */
  function Validate(slot: Slot, raw: Option<string>, c: Slots, oracle: Oracle): (r: Result<Slots, PyError>)
    ensures r.Err? <==> slot == Destination && TargetIs(c, "destination_building")
    ensures r.Ok? ==> r.value == ValidateCorrected(slot, raw, c, oracle)
  {
    var inRound :- InRoundAsWritten(slot, c);
    var restrictTo := if inRound then Some(StoredCandidates(c)) else None;
    Ok(Decide(slot, Normalize(raw, DefaultTopK, restrictTo, oracle)))
  }

  /** The validator with `len(restrict_to) > 0` in both copies. */
  function ValidateCorrected(slot: Slot, raw: Option<string>, c: Slots, oracle: Oracle): (u: Slots)
    ensures slot.Key() in u
    ensures u.Keys <= {slot.Key(), FollowupQuestion, DisambiguationCandidates, DisambiguationTargetSlot}
    ensures FollowupQuestion in u ==> u[FollowupQuestion].Text? && u[FollowupQuestion].text != ""
    ensures IsEmptyInput(raw) ==>
      u == map[slot.Key() := Unset,
               FollowupQuestion := Text(LandmarkQuestion),
               DisambiguationCandidates := Names([]),
               DisambiguationTargetSlot := Text(slot.Name())]
  {
    Decide(slot, Normalize(raw, DefaultTopK, Restriction(slot, c), oracle))
  }
}
