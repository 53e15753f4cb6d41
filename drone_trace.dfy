/**
 * Sequences of engine callbacks on the delivery drone: what holds over a
 * whole run, not just one callback.
 */
module DroneTrace {
  import opened DroneSpec

  /** One callback delivered to the agent by the engine or the trainer. */
  datatype Event =
    | Begin                              // OnEpisodeBegin
    | Enter(tag: string, cpIndex: nat)   // OnTriggerEnter
    | Exit(tag: string)                  // OnTriggerExit
    | Action(mode: int, y: real)         // OnActionReceived at altitude y

  predicate Admissible(s: AgentState, e: Event) {
    e.Enter? ==> CanEnter(s, e.tag, e.cpIndex)
  }

  function Apply(s: AgentState, e: Event, yLimit: real): AgentState
    requires Admissible(s, e)
  {
    match e
    case Begin => BeginEpisode(s)
    case Enter(tag, cpIndex) => TriggerEnter(s, tag, cpIndex)
    case Exit(tag) => TriggerExit(s, tag)
    case Action(mode, y) => ActionReceived(s, mode, y, yLimit)
  }

  /** Every event of evs can be delivered in the state the earlier ones leave. */
  predicate ValidTrace(s: AgentState, evs: seq<Event>, yLimit: real)
    decreases |evs|
  {
    evs == [] || (Admissible(s, evs[0]) && ValidTrace(Apply(s, evs[0], yLimit), evs[1..], yLimit))
  }

  function Run(s: AgentState, evs: seq<Event>, yLimit: real): AgentState
    requires ValidTrace(s, evs, yLimit)
    decreases |evs|
  {
    if evs == [] then s else Run(Apply(s, evs[0], yLimit), evs[1..], yLimit)
  }

  /** One callback keeps the invariant. */
  lemma ApplyPreservesInv(s: AgentState, e: Event, yLimit: real)
    requires Inv(s) && Admissible(s, e)
    ensures Inv(Apply(s, e, yLimit))
  {
    match e
    case Begin => BeginPreservesInv(s);
    case Enter(tag, cpIndex) => EnterPreservesInv(s, tag, cpIndex);
    case Exit(tag) => ExitPreservesInv(s, tag);
    case Action(mode, y) => ActionPreservesInv(s, mode, y, yLimit);
  }

  /** The invariant holds after every run from a state that satisfies it. */
  lemma {:induction false} RunPreservesInv(s: AgentState, evs: seq<Event>, yLimit: real)
    requires Inv(s) && ValidTrace(s, evs, yLimit)
    ensures Inv(Run(s, evs, yLimit))
    decreases |evs|
  {
    if evs != [] {
      ApplyPreservesInv(s, evs[0], yLimit);
      RunPreservesInv(Apply(s, evs[0], yLimit), evs[1..], yLimit);
    }
  }

  /** What one callback never undoes: see RunKeepsProgress. */
  predicate Progressed(s: AgentState, r: AgentState) {
    && |r.active| == |s.active|
    && (forall j :: 0 <= j < |s.active| && !s.active[j] ==> !r.active[j])
    && s.checkPointCount <= r.checkPointCount
    && s.endCount <= r.endCount
  }

  lemma ApplyKeepsProgress(s: AgentState, e: Event, yLimit: real)
    requires Admissible(s, e)
    ensures Progressed(s, Apply(s, e, yLimit))
  {
  }

  /**
   * Over any run the number of checkpoints stays fixed, a collected
   * checkpoint is never reactivated, the counter never decreases (no
   * episode start resets it) and never exceeds the total, and the number
   * of episode ends never decreases.
   */
  lemma {:induction false} RunKeepsProgress(s: AgentState, evs: seq<Event>, yLimit: real)
    requires Inv(s) && ValidTrace(s, evs, yLimit)
    ensures var r := Run(s, evs, yLimit);
      && Progressed(s, r)
      && r.checkPointCount <= |r.active|
    decreases |evs|
  {
    if evs != [] {
      var s1 := Apply(s, evs[0], yLimit);
      ApplyKeepsProgress(s, evs[0], yLimit);
      ApplyPreservesInv(s, evs[0], yLimit);
      RunKeepsProgress(s1, evs[1..], yLimit);
    }
  }

  /**
   * The completion bonus is due on this event: the test after the counter
   * increment in OnTriggerEnter, that the counter has reached the total.
   */
  predicate PaysBonus(s: AgentState, e: Event) {
    e.Enter? && e.tag == CheckpointTag && s.checkPointCount + 1 == |s.active|
  }

  /** How many completion bonuses (+10 with an episode end) a run pays. */
  function Bonuses(s: AgentState, evs: seq<Event>, yLimit: real): nat
    requires ValidTrace(s, evs, yLimit)
    decreases |evs|
  {
    if evs == [] then 0
    else (if PaysBonus(s, evs[0]) then 1 else 0) + Bonuses(Apply(s, evs[0], yLimit), evs[1..], yLimit)
  }

  /** Once every checkpoint is collected, no later run pays the bonus again. */
  lemma {:induction false} NoBonusAfterCompletion(s: AgentState, evs: seq<Event>, yLimit: real)
    requires Inv(s) && ValidTrace(s, evs, yLimit)
    requires s.checkPointCount == |s.active|
    ensures Bonuses(s, evs, yLimit) == 0
    decreases |evs|
  {
    if evs != [] {
      var s1 := Apply(s, evs[0], yLimit);
      // The counter cannot grow past the total, so it stays complete.
      ApplyKeepsProgress(s, evs[0], yLimit);
      ApplyPreservesInv(s, evs[0], yLimit);
      NoBonusAfterCompletion(s1, evs[1..], yLimit);
    }
  }

  /**
   * Over any run of callbacks, whatever else happens between the checkpoint
   * entries, the completion bonus is paid at most once; when it is paid,
   * every checkpoint has been collected at the end of the run.
   */
  lemma {:induction false} BonusAtMostOnce(s: AgentState, evs: seq<Event>, yLimit: real)
    requires Inv(s) && ValidTrace(s, evs, yLimit)
    ensures Bonuses(s, evs, yLimit) <= 1
    ensures Bonuses(s, evs, yLimit) == 1 ==> Run(s, evs, yLimit).checkPointCount == |s.active|
    decreases |evs|
  {
    if evs != [] {
      var s1 := Apply(s, evs[0], yLimit);
      ApplyKeepsProgress(s, evs[0], yLimit);
      ApplyPreservesInv(s, evs[0], yLimit);
      RunKeepsProgress(s1, evs[1..], yLimit);
      if PaysBonus(s, evs[0]) {
        NoBonusAfterCompletion(s1, evs[1..], yLimit);
      } else {
        BonusAtMostOnce(s1, evs[1..], yLimit);
      }
    }
  }

  /** The trace that enters the checkpoints of `order` one after another. */
  function CheckpointEvents(order: seq<nat>): (evs: seq<Event>)
    ensures |evs| == |order|
    ensures forall k :: 0 <= k < |order| ==> evs[k] == Enter(CheckpointTag, order[k])
  {
    if order == [] then [] else [Enter(CheckpointTag, order[0])] + CheckpointEvents(order[1..])
  }

  /**
   * Entering distinct active checkpoints, in any order, pays 2 each and
   * collects each of them; the bonus 10 and the single episode end come
   * only if that run collects the last one.
   */
  lemma {:induction false} CollectCheckpoints(s: AgentState, order: seq<nat>, yLimit: real)
    requires Inv(s)
    requires forall k :: 0 <= k < |order| ==> order[k] < |s.active| && s.active[order[k]]
    requires forall j, k :: 0 <= j < k < |order| ==> order[j] != order[k]
    ensures ValidTrace(s, CheckpointEvents(order), yLimit)
    ensures var r := Run(s, CheckpointEvents(order), yLimit);
      var done := order != [] && r.checkPointCount == |s.active|;
      && r.checkPointCount == s.checkPointCount + |order|
      && |r.active| == |s.active|
      && (forall k :: 0 <= k < |order| ==> !r.active[order[k]])
      && r.reward == s.reward + 2 * |order| + (if done then 10 else 0)
      && r.endCount == s.endCount + (if done then 1 else 0)
      && r.holding == s.holding && r.cargo == s.cargo
      && r.onWarehouse == s.onWarehouse && r.onShelter == s.onShelter
    decreases |order|
  {
    var evs := CheckpointEvents(order);
    if order != [] {
      var i := order[0];
      var s1 := TriggerEnter(s, CheckpointTag, i);
      assert Apply(s, evs[0], yLimit) == s1;
      CheckpointEntry(s, i);
      EnterPreservesInv(s, CheckpointTag, i);
      assert evs[1..] == CheckpointEvents(order[1..]);
      var rest := order[1..];
      assert forall k :: 0 <= k < |rest| ==> rest[k] == order[k + 1];
      CollectCheckpoints(s1, rest, yLimit);
      RunKeepsProgress(s1, CheckpointEvents(rest), yLimit);
      if rest != [] {
        // Another checkpoint was still active, so the first entry was not the last.
        assert rest[0] == order[1] && order[1] != i;
        CollectedDeactivate(s1.active, rest[0]);
        assert s1.checkPointCount < |s.active|;
      }
    }
  }

  /**
   * From a fresh scene with N > 0 checkpoints, collecting all of them in any
   * order pays 2 N + 10 and ends the episode exactly once.
   */
  lemma CollectAllOnce(total: nat, order: seq<nat>, yLimit: real)
    requires total > 0 && |order| == total
    requires forall k :: 0 <= k < |order| ==> order[k] < total
    requires forall j, k :: 0 <= j < k < |order| ==> order[j] != order[k]
    ensures ValidTrace(Initial(total), CheckpointEvents(order), yLimit)
    ensures var r := Run(Initial(total), CheckpointEvents(order), yLimit);
      && r.reward == 2 * total + 10
      && r.endCount == 1
      && |r.active| == total
      && forall j :: 0 <= j < total ==> !r.active[j]
  {
    InitialInv(total);
    CollectCheckpoints(Initial(total), order, yLimit);
    var r := Run(Initial(total), CheckpointEvents(order), yLimit);
    RunKeepsProgress(Initial(total), CheckpointEvents(order), yLimit);
    RunPreservesInv(Initial(total), CheckpointEvents(order), yLimit);
    CollectedAll(r.active);
  }
}
