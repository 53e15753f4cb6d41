/**
 * Value model of the supply-delivery drone's episodic task state
 * (class DroneAgent in SampleSimulator/Assets/DroneAgent/DroneAgent.cs).
 *
 * Each engine callback of the agent is described here by a pure transition
 * function on AgentState; the class in drone_agent.dfy is proved to follow
 * these functions, and the lemmas below state what each transition promises.
 */
module DroneSpec {

  /** The transform parent of the supply crate. */
  datatype Place = InWarehouse | OnDrone | OnField

  /** The two RigidbodyConstraints values the agent assigns to the crate. */
  datatype Constraints = NoConstraints | FreezeAll

  /** The supply crate: where it hangs, whether gravity acts on it, its constraints. */
  datatype Cargo = Cargo(place: Place, gravity: bool, constraints: Constraints)

  /**
   * Everything the task logic reads or writes.
   * holding is isGetSupplie; active[i] is activeSelf of the i-th checkpoint
   * object of the scene (inactive ones included); reward is the sum of all
   * AddReward deltas; endCount is the number of EndEpisode calls.
   */
  datatype AgentState = AgentState(
    holding: bool,
    onWarehouse: bool,
    onShelter: bool,
    checkPointCount: nat,
    active: seq<bool>,
    cargo: Cargo,
    reward: int,
    endCount: nat)

  // Collider tags the agent reacts to.
  const ObstacleTag := "obstacle"
  const WarehouseTag := "warehouserange"
  const ShelterTag := "shelterrange"
  const CheckpointTag := "checkpoint"

  // Values of the single discrete action branch.
  const PickupMode := 1
  const ReleaseMode := 2

  /** Number of checkpoints already collected (deactivated). */
  function Collected(active: seq<bool>): (n: nat)
    ensures n <= |active|
  {
    if active == [] then 0
    else (if active[0] then 0 else 1) + Collected(active[1..])
  }

  /**
   * The invariant every reachable state keeps: the counter agrees with the
   * deactivated checkpoints, and the holding flag agrees with the crate.
   */
  predicate Inv(s: AgentState) {
    && s.checkPointCount == Collected(s.active)
    && (s.holding <==> s.cargo.place == OnDrone)
    && (s.holding <==> !s.cargo.gravity)
    && (s.holding ==> s.cargo.constraints == FreezeAll)
  }

  /** Flags, checkpoints and crate are those of s: only reward and episode ends may differ. */
  predicate SameTask(r: AgentState, s: AgentState) {
    && r.holding == s.holding
    && r.onWarehouse == s.onWarehouse
    && r.onShelter == s.onShelter
    && r.checkPointCount == s.checkPointCount
    && r.active == s.active
    && r.cargo == s.cargo
  }

  /** The state right after construction, with `total` checkpoints in the scene. */
  function Initial(total: nat): AgentState {
    AgentState(false, false, false, 0, seq(total, _ => true),
               Cargo(InWarehouse, true, NoConstraints), 0, 0)
  }

  /** OnEpisodeBegin: clear the flags and put the crate back in the warehouse. */
  function BeginEpisode(s: AgentState): AgentState {
    s.(holding := false, onWarehouse := false, onShelter := false,
       cargo := s.cargo.(place := InWarehouse, gravity := true))
  }

  /**
   * The engine reports trigger entries only for active objects, so an
   * entered checkpoint is one of the scene's checkpoints and still active.
   */
  predicate CanEnter(s: AgentState, tag: string, cpIndex: nat) {
    tag == CheckpointTag ==> cpIndex < |s.active| && s.active[cpIndex]
  }

  /** OnTriggerEnter with a collider of the given tag (cpIndex names the checkpoint). */
  function TriggerEnter(s: AgentState, tag: string, cpIndex: nat): AgentState
    requires CanEnter(s, tag, cpIndex)
  {
    if tag == ObstacleTag then
      s.(reward := s.reward - 5, endCount := s.endCount + 1)
    else if tag == WarehouseTag then
      s.(onWarehouse := true, reward := if s.holding then s.reward else s.reward + 5)
    else if tag == ShelterTag then
      s.(onShelter := true, reward := if s.holding then s.reward + 8 else s.reward)
    else if tag == CheckpointTag then
      var count := s.checkPointCount + 1;
      var s1 := s.(active := s.active[cpIndex := false], checkPointCount := count,
                   reward := s.reward + 2);
      if count == |s.active| then s1.(reward := s1.reward + 10, endCount := s1.endCount + 1)
      else s1
    else s
  }

  /** OnTriggerExit with a collider of the given tag. */
  function TriggerExit(s: AgentState, tag: string): AgentState {
    if tag == WarehouseTag then s.(onWarehouse := false)
    else if tag == ShelterTag then s.(onShelter := false)
    else s
  }

  /** The pickup half of DiscreateControl. */
  function Pickup(s: AgentState): AgentState {
    if s.onWarehouse && !s.holding then
      s.(cargo := Cargo(OnDrone, false, FreezeAll), holding := true, reward := s.reward + 8)
    else s
  }

  /** The release half of DiscreateControl, with its three branches. */
  function Release(s: AgentState): AgentState {
    var dropped := s.(cargo := Cargo(OnField, true, NoConstraints));
    if s.onShelter && s.holding then
      dropped.(reward := s.reward + 10, holding := false, endCount := s.endCount + 1)
    else if !s.holding then
      dropped.(holding := false, endCount := s.endCount + 1)
    else if !s.onShelter && s.holding then
      dropped.(reward := s.reward - 10, holding := false, endCount := s.endCount + 1)
    else dropped
  }

  /** DiscreateControl: mode 1 tries a pickup, then mode 2 releases. */
  function Discrete(s: AgentState, mode: int): AgentState {
    var s1 := if mode == PickupMode then Pickup(s) else s;
    if mode == ReleaseMode then Release(s1) else s1
  }

  /** The altitude band check at the end of OnActionReceived. */
  function AltitudeCheck(s: AgentState, y: real, yLimit: real): AgentState {
    if y > yLimit || y < 0.0 then s.(reward := s.reward - 10, endCount := s.endCount + 1)
    else s
  }

  /** OnActionReceived: the discrete controls, then the altitude check at height y. */
  function ActionReceived(s: AgentState, mode: int, y: real, yLimit: real): AgentState {
    AltitudeCheck(Discrete(s, mode), y, yLimit)
  }

  // ---------------------------------------------------------------------
  // Checkpoint counting

  /** Deactivating one active checkpoint collects exactly one more. */
  lemma {:induction false} CollectedDeactivate(active: seq<bool>, i: nat)
    requires i < |active| && active[i]
    ensures Collected(active[i := false]) == Collected(active) + 1
  {
    if i == 0 {
      assert active[i := false][1..] == active[1..];
    } else {
      assert active[i := false][1..] == active[1..][i - 1 := false];
      CollectedDeactivate(active[1..], i - 1);
    }
  }

  /** Every checkpoint is collected exactly when none is active. */
  lemma {:induction false} CollectedAll(active: seq<bool>)
    ensures Collected(active) == |active| <==> forall j :: 0 <= j < |active| ==> !active[j]
  {
    if active != [] {
      CollectedAll(active[1..]);
      assert forall j :: 1 <= j < |active| ==> active[j] == active[1..][j - 1];
    }
  }

  /** A scene whose checkpoints are all active has collected none. */
  lemma {:induction false} NoneCollectedInitially(total: nat)
    ensures Collected(seq(total, _ => true)) == 0
  {
    if total > 0 {
      assert seq(total, _ => true)[1..] == seq(total - 1, _ => true);
      NoneCollectedInitially(total - 1);
    }
  }

  // ---------------------------------------------------------------------
  // The invariant

  /** The state after construction satisfies the invariant and has collected nothing. */
  lemma InitialInv(total: nat)
    ensures Inv(Initial(total))
    ensures |Initial(total).active| == total
    ensures forall j :: 0 <= j < total ==> Initial(total).active[j]
  {
    NoneCollectedInitially(total);
  }

  /** Every callback keeps the invariant. */
  lemma EnterPreservesInv(s: AgentState, tag: string, cpIndex: nat)
    requires Inv(s) && CanEnter(s, tag, cpIndex)
    ensures Inv(TriggerEnter(s, tag, cpIndex))
  {
    if tag == CheckpointTag {
      CollectedDeactivate(s.active, cpIndex);
    }
  }

  lemma ExitPreservesInv(s: AgentState, tag: string)
    requires Inv(s)
    ensures Inv(TriggerExit(s, tag))
  {
  }

  lemma BeginPreservesInv(s: AgentState)
    requires Inv(s)
    ensures Inv(BeginEpisode(s))
  {
  }

  lemma ActionPreservesInv(s: AgentState, mode: int, y: real, yLimit: real)
    requires Inv(s)
    ensures Inv(ActionReceived(s, mode, y, yLimit))
  {
  }

  // ---------------------------------------------------------------------
  // OnTriggerEnter / OnTriggerExit

  /** Hitting an obstacle costs 5 and ends the episode; flags, crate and checkpoints stay. */
  lemma ObstacleEndsEpisode(s: AgentState, cpIndex: nat)
    ensures var r := TriggerEnter(s, ObstacleTag, cpIndex);
      SameTask(r, s) && r.reward == s.reward - 5 && r.endCount == s.endCount + 1
  {
  }

  /**
   * Entering the warehouse range sets its flag and pays 5 only when not
   * holding; entering the shelter range sets its flag and pays 8 only when
   * holding. Neither ends the episode or touches anything else.
   */
  lemma ZoneEnter(s: AgentState, cpIndex: nat)
    ensures var r := TriggerEnter(s, WarehouseTag, cpIndex);
      && r == s.(onWarehouse := true, reward := r.reward)
      && r.reward == s.reward + (if s.holding then 0 else 5)
    ensures var r := TriggerEnter(s, ShelterTag, cpIndex);
      && r == s.(onShelter := true, reward := r.reward)
      && r.reward == s.reward + (if s.holding then 8 else 0)
  {
  }

  /** Leaving a range clears only that range's flag, with no reward. */
  lemma ZoneExit(s: AgentState, tag: string)
    ensures tag == WarehouseTag ==> TriggerExit(s, tag) == s.(onWarehouse := false)
    ensures tag == ShelterTag ==> TriggerExit(s, tag) == s.(onShelter := false)
    ensures tag != WarehouseTag && tag != ShelterTag ==> TriggerExit(s, tag) == s
  {
  }

  /** A collider with any other tag changes nothing. */
  lemma UnknownTagIgnored(s: AgentState, tag: string, cpIndex: nat)
    requires tag != ObstacleTag && tag != WarehouseTag && tag != ShelterTag && tag != CheckpointTag
    ensures TriggerEnter(s, tag, cpIndex) == s
  {
  }

  /**
   * Entering checkpoint i pays 2, deactivates i alone and counts it; the
   * extra 10 and the episode end come exactly when i was the last active
   * checkpoint. Flags and crate are unchanged.
   */
  lemma CheckpointEntry(s: AgentState, i: nat)
    requires Inv(s) && CanEnter(s, CheckpointTag, i)
    ensures var r := TriggerEnter(s, CheckpointTag, i);
      var last := forall j :: 0 <= j < |s.active| && j != i ==> !s.active[j];
      && r.checkPointCount == s.checkPointCount + 1
      && r.active == s.active[i := false]
      && r.holding == s.holding && r.onWarehouse == s.onWarehouse
      && r.onShelter == s.onShelter && r.cargo == s.cargo
      && r.reward == s.reward + (if last then 12 else 2)
      && r.endCount == s.endCount + (if last then 1 else 0)
  {
    var a := s.active[i := false];
    CollectedDeactivate(s.active, i);
    CollectedAll(a);
    assert forall j :: 0 <= j < |a| ==> a[j] == (j != i && s.active[j]);
  }

  // ---------------------------------------------------------------------
  // DiscreateControl

  /**
   * A pickup takes effect only inside the warehouse range while not holding:
   * the crate is attached with gravity off and FreezeAll, and it pays 8.
   * Otherwise nothing changes.
   */
  lemma PickupEffect(s: AgentState)
    ensures var r := Discrete(s, PickupMode);
      && (s.onWarehouse && !s.holding ==>
            && r.holding && r.cargo == Cargo(OnDrone, false, FreezeAll)
            && r.reward == s.reward + 8
            && r.onWarehouse == s.onWarehouse && r.onShelter == s.onShelter
            && r.active == s.active && r.checkPointCount == s.checkPointCount
            && r.endCount == s.endCount)
      && (!(s.onWarehouse && !s.holding) ==> r == s)
  {
  }

  /** A second pickup right after the first changes nothing, so it pays nothing. */
  lemma PickupOnce(s: AgentState)
    ensures Discrete(Discrete(s, PickupMode), PickupMode) == Discrete(s, PickupMode)
  {
  }

  /**
   * A release always drops the crate on the field with gravity on and no
   * constraints, clears holding and ends the episode exactly once; it pays
   * 10 when holding in the shelter range, nothing when not holding, and
   * costs 10 when holding elsewhere.
   */
  lemma ReleaseEffect(s: AgentState)
    ensures var r := Discrete(s, ReleaseMode);
      && r.cargo == Cargo(OnField, true, NoConstraints)
      && !r.holding
      && r.endCount == s.endCount + 1
      && r.reward == s.reward + (if !s.holding then 0 else if s.onShelter then 10 else -10)
      && r.onWarehouse == s.onWarehouse && r.onShelter == s.onShelter
      && r.active == s.active && r.checkPointCount == s.checkPointCount
  {
  }

  /** Any other mode value leaves the state unchanged. */
  lemma OtherModeIgnored(s: AgentState, mode: int)
    requires mode != PickupMode && mode != ReleaseMode
    ensures Discrete(s, mode) == s
  {
  }

  // ---------------------------------------------------------------------
  // OnActionReceived

  /**
   * After the controls, leaving the band [0, yLimit] costs 10 and ends the
   * episode whatever the action; the bounds 0 and yLimit themselves are
   * inside the band.
   */
  lemma AltitudeBand(s: AgentState, mode: int, y: real, yLimit: real)
    ensures var d := Discrete(s, mode);
      var r := ActionReceived(s, mode, y, yLimit);
      && (y > yLimit || y < 0.0 ==>
            SameTask(r, d) && r.reward == d.reward - 10 && r.endCount == d.endCount + 1)
      && (0.0 <= y <= yLimit ==> r == d)
  {
  }

  /** A failed delivery outside the band ends the episode twice and costs 20. */
  lemma ReleaseOutOfBand(s: AgentState, y: real, yLimit: real)
    requires s.holding && !s.onShelter && (y > yLimit || y < 0.0)
    ensures var r := ActionReceived(s, ReleaseMode, y, yLimit);
      r.reward == s.reward - 20 && r.endCount == s.endCount + 2
  {
  }

  /** With a negative limit (Initialize only rejects 0) every action ends the episode. */
  lemma NegativeLimitEndsEveryAction(s: AgentState, mode: int, y: real, yLimit: real)
    requires yLimit < 0.0
    ensures ActionReceived(s, mode, y, yLimit).endCount > s.endCount
  {
  }

  // ---------------------------------------------------------------------
  // OnEpisodeBegin

  /**
   * Beginning an episode clears the three flags and returns the crate to the
   * warehouse with gravity on; it keeps the crate's constraints, the
   * checkpoints, the reward and the episode count. Doing it twice is doing it once.
   */
  lemma BeginEpisodeResets(s: AgentState)
    ensures var r := BeginEpisode(s);
      && !r.holding && !r.onWarehouse && !r.onShelter
      && r.cargo.place == InWarehouse && r.cargo.gravity
      && r.cargo.constraints == s.cargo.constraints
      && r.checkPointCount == s.checkPointCount && r.active == s.active
      && r.reward == s.reward && r.endCount == s.endCount
    ensures BeginEpisode(BeginEpisode(s)) == BeginEpisode(s)
  {
  }
}
