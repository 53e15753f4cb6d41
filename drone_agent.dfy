/**
 * The delivery drone agent as the object the engine drives: its fields are
 * updated in place by one method per engine callback, and each method is
 * proved to perform the matching transition of DroneSpec.
 */
module Drone {
  import opened DroneSpec

  /** Outcome of Initialize: ready, or the ArgumentNullException it throws. */
  datatype InitResult = Initialized | ArgumentNull(paramName: string)

  class DroneAgent {
    /** Altitude limit set in the inspector. */
    const yLimit: real
    /** activeSelf of every checkpoint object in the scene, inactive ones included. */
    const checkpoints: array<bool>

    var holding: bool        // isGetSupplie
    var onWarehouse: bool    // isOnWarehouse
    var onShelter: bool      // isOnShelter
    var checkPointCount: nat

    // The supply crate: its transform parent, useGravity and constraints.
    var cargoPlace: Place
    var cargoGravity: bool
    var cargoConstraints: Constraints

    // What the agent has handed to the learning framework.
    var reward: int          // sum of AddReward deltas
    var endCount: nat        // number of EndEpisode calls

    /** The agent's task state as a value. */
    function State(): AgentState
      reads this, checkpoints
    {
      AgentState(holding, onWarehouse, onShelter, checkPointCount, checkpoints[..],
                 Cargo(cargoPlace, cargoGravity, cargoConstraints), reward, endCount)
    }

    predicate Valid()
      reads this, checkpoints
    {
      Inv(State())
    }

    /** Field initialisers plus the scene: `totalCheckpoints` active checkpoints, crate in the warehouse. */
    constructor (yLimit: real, totalCheckpoints: nat)
      ensures this.yLimit == yLimit && fresh(checkpoints)
      ensures Valid() && State() == Initial(totalCheckpoints)
    {
      this.yLimit := yLimit;
      checkpoints := new bool[totalCheckpoints](_ => true);
      holding, onWarehouse, onShelter := false, false, false;
      checkPointCount := 0;
      cargoPlace, cargoGravity, cargoConstraints := InWarehouse, true, NoConstraints;
      reward, endCount := 0, 0;
      new;
      assert checkpoints[..] == seq(totalCheckpoints, _ => true);
      InitialInv(totalCheckpoints);
    }

    /** Initialize rejects an altitude limit of zero and accepts every other one. */
    method Initialize() returns (result: InitResult)
      ensures result == ArgumentNull("yLimit") <==> yLimit == 0.0
      ensures result == Initialized <==> yLimit != 0.0
    {
      if yLimit == 0.0 {
        return ArgumentNull("yLimit");
      }
      return Initialized;
    }

    /** The framework's AddReward: accumulate a reward delta. */
    method AddReward(delta: int)
      modifies this
      ensures State() == old(State()).(reward := old(reward) + delta)
    {
      reward := reward + delta;
    }

    /** The framework's EndEpisode, kept abstract: count the request. */
    method EndEpisode()
      modifies this
      ensures State() == old(State()).(endCount := old(endCount) + 1)
    {
      endCount := endCount + 1;
    }

    method OnEpisodeBegin()
      requires Valid()
      modifies this
      ensures Valid()
      ensures State() == BeginEpisode(old(State()))
    {
      holding := false;
      onWarehouse := false;
      onShelter := false;
      cargoPlace := InWarehouse;
      cargoGravity := true;
    }

    /** A trigger collider tagged `tag` was entered; for a checkpoint, cpIndex says which. */
    method OnTriggerEnter(tag: string, cpIndex: nat)
      requires Valid()
      requires tag == CheckpointTag ==> cpIndex < checkpoints.Length && checkpoints[cpIndex]
      modifies this, checkpoints
      ensures Valid()
      ensures State() == TriggerEnter(old(State()), tag, cpIndex)
    {
      ghost var s := State();
      if tag == ObstacleTag {
        AddReward(-5);
        EndEpisode();
      }
      if tag == WarehouseTag {
        onWarehouse := true;
        if !holding {
          AddReward(5);
        }
      }
      if tag == ShelterTag {
        onShelter := true;
        if holding {
          AddReward(8);
        }
      }
      if tag == CheckpointTag {
        AddReward(2);
        checkpoints[cpIndex] := false;
        checkPointCount := checkPointCount + 1;
        if checkPointCount == checkpoints.Length {
          AddReward(10);
          EndEpisode();
        }
      }
      EnterPreservesInv(s, tag, cpIndex);
    }

    method OnTriggerExit(tag: string)
      requires Valid()
      modifies this
      ensures Valid()
      ensures State() == TriggerExit(old(State()), tag)
    {
      if tag == WarehouseTag {
        onWarehouse := false;
      }
      if tag == ShelterTag {
        onShelter := false;
      }
    }

    /** DiscreateControl: mode 1 picks the crate up, mode 2 releases it. */
    method DiscreteControl(mode: int)
      requires Valid()
      modifies this
      ensures Valid()
      ensures State() == Discrete(old(State()), mode)
    {
      var getMode := mode == PickupMode;
      var releaseMode := mode == ReleaseMode;
      if getMode {
        if onWarehouse && !holding {
          cargoGravity := false;
          cargoPlace := OnDrone;
          cargoConstraints := FreezeAll;
          holding := true;
          AddReward(8);
        }
      }
      if releaseMode {
        cargoGravity := true;
        cargoPlace := OnField;
        cargoConstraints := NoConstraints;
        if onShelter && holding {
          AddReward(10);
          holding := false;
          EndEpisode();
        } else if !holding {
          holding := false;
          EndEpisode();
        } else if !onShelter && holding {
          AddReward(-10);
          holding := false;
          EndEpisode();
        }
      }
    }

    /** One action step; y is the drone's local altitude when the step is checked. */
    method OnActionReceived(mode: int, y: real)
      requires Valid()
      modifies this
      ensures Valid()
      ensures State() == ActionReceived(old(State()), mode, y, yLimit)
    {
      DiscreteControl(mode);
      if y > yLimit || y < 0.0 {
        AddReward(-10);
        EndEpisode();
      }
    }
  }
}
