# Supply-delivery drone: task and reward state machine

A Dafny model of the episodic task logic of the `DroneAgent` ML-Agents agent
(`SampleSimulator/Assets/DroneAgent/DroneAgent.cs`). A drone takes a supply
crate from a warehouse and delivers it to a shelter, collecting checkpoints on
the way. The engine's trigger callbacks and the trainer's action callback
change three flags (holding the crate, in the warehouse range, in the shelter
range), a checkpoint counter, the crate's parent, gravity and constraints, the
accumulated reward, and the number of "episode ended" requests.

Files:

- `drone_spec.dfy` (module `DroneSpec`): the task state as a value
  (`AgentState`), the invariant `Inv`, one pure transition function per
  callback, and the lemmas that say what each transition promises.
- `drone_trace.dfy` (module `DroneTrace`): runs of callbacks. The invariant
  and the checkpoint progress hold over any run. Over any run, whatever
  callbacks come between the checkpoint entries, the completion bonus is paid
  at most once. Collecting every checkpoint of a fresh scene, in any order,
  pays it exactly once.
- `drone_agent.dfy` (module `Drone`): class `DroneAgent`, whose fields are
  updated in place by one method per callback. Each method is proved to
  perform the matching `DroneSpec` transition and to keep `Inv`.
- `drone_input.dfy` (module `DroneInput`): the keyboard heuristic
  (`Heuristic`, `MyGetAxis`) as pure functions of the set of held keys.

Modelling choices:

- Rewards are whole numbers (−10, −5, +2, +5, +8, +10), so the accumulated
  reward is an `int`. `AddReward` adds to it.
- `EndEpisode` is kept abstract: it increments `endCount`. What the learning
  framework then does (calling `OnEpisodeBegin`, dropping later rewards) is
  not modelled. The code has no "ignore steps after the end" guard, so the
  model has none either. One `OnActionReceived` can therefore end the
  episode twice (`ReleaseOutOfBand`).
- The checkpoint total is the length of the `checkpoints` array. The array
  holds every checkpoint object, active or not, and is fixed at
  construction.
- The engine reports trigger entries only for active objects. So a
  checkpoint entry names an active checkpoint of the scene: `CanEnter`, and
  the `requires` of `OnTriggerEnter`. Re-entering a collected checkpoint
  therefore pays nothing, because it cannot happen, not because the handler
  checks for it.
- The drone's altitude is passed to `OnActionReceived` as the parameter `y`.
  It is the local y position at the time of the check.
- The constructor stands for the field initialisers and the scene. All
  flags are false, the counter is 0, every checkpoint is active, and the
  crate sits in the warehouse with gravity on and no constraints (the
  Rigidbody defaults).

Behaviour of the code worth noting:

- A step after the episode has ended is not a no-op. It still changes state
  and reward.
- The checkpoint counter and the deactivated checkpoints are not reset when
  an episode begins (`BeginEpisodeResets`, `RunKeepsProgress`).
- `OnEpisodeBegin` does not restore the crate's constraints. A crate that
  was still held when the episode ended goes back to the warehouse with
  `FreezeAll`.
- `Initialize` rejects only an altitude limit of exactly 0. A negative limit
  is accepted, and then every action ends the episode
  (`NegativeLimitEndsEveryAction`). A limit between 0 and 10 is accepted too,
  although `OnEpisodeBegin` puts the drone at altitude 10, above such a limit.

## Model

| member | source | states |
|---|---|---|
| `Drone.DroneAgent.constructor` | SampleSimulator/Assets/DroneAgent/DroneAgent.cs:37-56 | The new agent holds nothing, is in no range, has counted no checkpoint, has every checkpoint active, has zero reward and no episode end, and satisfies the invariant |
| `Drone.DroneAgent.Initialize` | SampleSimulator/Assets/DroneAgent/DroneAgent.cs:59-66 | Initialization fails with an ArgumentNull error naming "yLimit" exactly when the altitude limit is 0, and succeeds otherwise |
| `Drone.DroneAgent.OnEpisodeBegin` | SampleSimulator/Assets/DroneAgent/DroneAgent.cs:81-102 | The fields become `BeginEpisode` of the old state (see `BeginEpisodeResets`), and the invariant is kept |
| `Drone.DroneAgent.OnTriggerEnter` | SampleSimulator/Assets/DroneAgent/DroneAgent.cs:112-144 | The fields, including the checkpoint array, become `TriggerEnter` of the old state, and the invariant (counter equals collected checkpoints) is kept |
| `Drone.DroneAgent.OnTriggerExit` | SampleSimulator/Assets/DroneAgent/DroneAgent.cs:149-158 | The fields become `TriggerExit` of the old state, and the invariant is kept |
| `Drone.DroneAgent.DiscreteControl` | SampleSimulator/Assets/DroneAgent/DroneAgent.cs:272-326 | The fields become `Discrete` of the old state (pickup, then release), and the invariant is kept |
| `Drone.DroneAgent.OnActionReceived` | SampleSimulator/Assets/DroneAgent/DroneAgent.cs:171-188 | The fields become the discrete controls followed by the altitude check against the agent's own `yLimit`, and the invariant is kept |
| `Drone.DroneAgent.AddReward` | SampleSimulator/Assets/DroneAgent/DroneAgent.cs:115 | The framework's `AddReward`, kept abstract: the delta is added to the running reward sum and nothing else changes |
| `Drone.DroneAgent.EndEpisode` | SampleSimulator/Assets/DroneAgent/DroneAgent.cs:116 | The framework's `EndEpisode`, kept abstract: the count of episode-end requests goes up by one and nothing else changes |
| `DroneSpec.CollectedDeactivate` | SampleSimulator/Assets/DroneAgent/DroneAgent.cs:136-137 | Deactivating one active checkpoint raises the number of collected checkpoints by exactly one, matching the counter increment |
| `DroneSpec.CollectedAll` | SampleSimulator/Assets/DroneAgent/DroneAgent.cs:138 | The collected count equals the total exactly when no checkpoint is active |
| `DroneSpec.InitialInv` | SampleSimulator/Assets/DroneAgent/DroneAgent.cs:38-56 | The initial state satisfies the invariant and has all of its checkpoints active |
| `DroneSpec.EnterPreservesInv` | SampleSimulator/Assets/DroneAgent/DroneAgent.cs:112-144 | Every trigger entry keeps the counter equal to the number of deactivated checkpoints, and holding in step with the crate |
| `DroneSpec.ExitPreservesInv` | SampleSimulator/Assets/DroneAgent/DroneAgent.cs:149-158 | Every trigger exit keeps the invariant |
| `DroneSpec.BeginPreservesInv` | SampleSimulator/Assets/DroneAgent/DroneAgent.cs:81-94 | Beginning an episode keeps the invariant |
| `DroneSpec.ActionPreservesInv` | SampleSimulator/Assets/DroneAgent/DroneAgent.cs:281-325 | Every action keeps holding ⇔ crate on the drone ⇔ crate without gravity, and holding ⇒ FreezeAll |
| `DroneSpec.ObstacleEndsEpisode` | SampleSimulator/Assets/DroneAgent/DroneAgent.cs:113-117 | An obstacle costs 5 and ends the episode once, leaving flags, crate and checkpoints untouched |
| `DroneSpec.ZoneEnter` | SampleSimulator/Assets/DroneAgent/DroneAgent.cs:118-131 | Entering the warehouse range sets only its flag and pays 5 only when not holding. Entering the shelter range sets only its flag and pays 8 only when holding |
| `DroneSpec.ZoneExit` | SampleSimulator/Assets/DroneAgent/DroneAgent.cs:149-158 | Leaving a range clears only the matching flag, with no reward. Any other tag changes nothing |
| `DroneSpec.UnknownTagIgnored` | SampleSimulator/Assets/DroneAgent/DroneAgent.cs:112-144 | Entering a collider with an unknown tag changes nothing |
| `DroneSpec.CheckpointEntry` | SampleSimulator/Assets/DroneAgent/DroneAgent.cs:133-143 | A checkpoint entry pays 2, deactivates only that checkpoint and raises the counter by one. The extra 10 and the episode end come exactly when it was the last active checkpoint |
| `DroneSpec.PickupEffect` | SampleSimulator/Assets/DroneAgent/DroneAgent.cs:281-298 | In the warehouse range while not holding, a pickup attaches the crate (gravity off, FreezeAll), sets holding and pays 8, with nothing else changed. Otherwise it changes nothing |
| `DroneSpec.PickupOnce` | SampleSimulator/Assets/DroneAgent/DroneAgent.cs:282 | A second pickup right after a first one changes nothing, so it pays nothing more |
| `DroneSpec.ReleaseEffect` | SampleSimulator/Assets/DroneAgent/DroneAgent.cs:301-325 | A release always drops the crate on the field (gravity on, no constraints), clears holding and ends the episode once. It pays +10 when holding in the shelter range, 0 when not holding, and −10 when holding elsewhere |
| `DroneSpec.OtherModeIgnored` | SampleSimulator/Assets/DroneAgent/DroneAgent.cs:274-276 | A mode other than 1 or 2 leaves the state unchanged |
| `DroneSpec.AltitudeBand` | SampleSimulator/Assets/DroneAgent/DroneAgent.cs:171-181 | After the controls, an altitude above yLimit or below 0 costs 10 and ends the episode, whatever the action. Altitudes in [0, yLimit], bounds included, change nothing |
| `DroneSpec.ReleaseOutOfBand` | SampleSimulator/Assets/DroneAgent/DroneAgent.cs:171-181 | A failed delivery at an out-of-band altitude costs 20 and ends the episode twice in one step |
| `DroneSpec.NegativeLimitEndsEveryAction` | SampleSimulator/Assets/DroneAgent/DroneAgent.cs:177-181 | With a negative altitude limit, which Initialize accepts, every action ends the episode |
| `DroneSpec.BeginEpisodeResets` | SampleSimulator/Assets/DroneAgent/DroneAgent.cs:81-94 | Beginning an episode clears the three flags and returns the crate to the warehouse with gravity on. It keeps the constraints, the checkpoints, the counter, the reward and the episode count, and is idempotent |
| `DroneTrace.RunPreservesInv` | SampleSimulator/Assets/DroneAgent/DroneAgent.cs:81-326 | After any run of callbacks from a state that satisfies the invariant, the invariant still holds |
| `DroneTrace.RunKeepsProgress` | SampleSimulator/Assets/DroneAgent/DroneAgent.cs:81-144 | Over any run, the number of checkpoints is fixed and no collected checkpoint is reactivated. The counter never decreases and never exceeds the total, and the episode-end count never decreases |
| `DroneTrace.NoBonusAfterCompletion` | SampleSimulator/Assets/DroneAgent/DroneAgent.cs:133-143 | Once every checkpoint is collected, no later run of callbacks pays the completion bonus again |
| `DroneTrace.BonusAtMostOnce` | SampleSimulator/Assets/DroneAgent/DroneAgent.cs:133-143 | Over any run of callbacks, with range entries, exits, actions and episode starts interleaved, the completion bonus is paid at most once. When it is paid, every checkpoint is collected at the end of the run |
| `DroneTrace.CollectCheckpoints` | SampleSimulator/Assets/DroneAgent/DroneAgent.cs:133-143 | Entering distinct active checkpoints in any order pays 2 each and collects each one. The bonus and episode end come at most once, exactly when the last checkpoint is collected |
| `DroneTrace.CollectAllOnce` | SampleSimulator/Assets/DroneAgent/DroneAgent.cs:133-143 | From a fresh scene with N > 0 checkpoints, collecting all of them in any order pays 2N + 10 and ends the episode exactly once |
| `DroneInput.MyGetAxis` | SampleSimulator/Assets/DroneAgent/DroneAgent.cs:330-351 | The axis is −0.5, 0 or 0.5. D beats A on the horizontal axis, W beats S on the vertical axis, and any other axis name reads 0 |
| `DroneInput.HeuristicMode` | SampleSimulator/Assets/DroneAgent/DroneAgent.cs:214-221 | The mode is 2 exactly when R is held, 1 exactly when G is held without R, and 0 otherwise |
| `DroneInput.Heuristic` | SampleSimulator/Assets/DroneAgent/DroneAgent.cs:190-222 | Six continuous values and one mode. Slots 0 and 1 are the horizontal and vertical `MyGetAxis` readings, so they lie in [−0.5, 0.5] and are positive exactly when D or W is held. Slots 2–5 are 1 exactly when Q, E, ← or → is held, and 0 otherwise |
| `DroneInput.HeuristicControls` | SampleSimulator/Assets/DroneAgent/DroneAgent.cs:199-221 | Holding R releases whatever else is held. G alone attempts a pickup. Neither key leaves the task state unchanged |

## Left out

- `ContinuousControl`: forces on the Rigidbody, tilt smoothing with `Mathf.Lerp` over `Time.fixedDeltaTime`, and quaternion rotation. This is floating-point physics done by the engine. Its effects on the task logic, the altitude and the colliders the drone reaches, enter as the parameter `y` and as the trigger events.
- `CollectObservations`, the crate's local position and rotation, and `Debug.Log`: engine calls with no effect on flags, reward or episode ends.
- The `AddForce` in `OnEpisodeBegin` and the destination given to the drone's NavMeshAgent: they move the drone, and reach the model only through the altitude `y` and the trigger events.
- The reset altitude: `OnEpisodeBegin` puts the drone at local y = 10, and the altitude check reads that position. The model takes the altitude as a free parameter `y` and does not tie it to the reset. So it does not capture that, with an accepted limit 0 < yLimit < 10, every episode starts above the band, and the first action after a reset costs 10 and ends the episode unless physics has brought the drone below the limit first.
- The field-range computation in `Initialize`: float arithmetic on scene transforms whose results nothing reads.
- `GetsGameObjectsIncludeDeactive`: a global scene query. The model replaces it with the fixed length of the `checkpoints` array.
- The learning framework's own handling of `AddReward` and `EndEpisode`, such as when `OnEpisodeBegin` runs after an end or how rewards are summed per episode. It belongs to ML-Agents and is kept abstract as a running sum and a counter.
- `MAEasySimulator/Assets/SpyAgent.cs`: a wrapper over a drone controller and environment manager that are not part of this model, and over physics raycasts. Its find counter is never advanced by the code shown.
- Single-precision floats: altitudes, the limit and the heuristic's axis values are exact reals. The values the logic compares or produces (0, ±0.5, 1, and the limit) are exact in `float` as well.
