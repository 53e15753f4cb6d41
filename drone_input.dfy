/**
 * The keyboard heuristic of the delivery drone (Heuristic and MyGetAxis in
 * DroneAgent.cs): the held keys become an action buffer of six continuous
 * values and one discrete mode.
 */
module DroneInput {
  import opened DroneSpec

  /** The keys the heuristic polls. */
  datatype KeyCode = D | A | W | S | Q | E | LeftArrow | RightArrow | G | R

  /** An action buffer: the continuous branch and the discrete branch. */
  datatype ActionBuffers = ActionBuffers(continuous: seq<real>, discrete: seq<int>)

  /** Unity's Mathf.Lerp: linear interpolation with t clamped to [0, 1]. */
  function Lerp(a: real, b: real, t: real): (v: real)
    ensures t <= 0.0 ==> v == a
    ensures t >= 1.0 ==> v == b
    ensures t == 0.5 ==> v == (a + b) / 2.0
  {
    var u := if t < 0.0 then 0.0 else if t > 1.0 then 1.0 else t;
    a + (b - a) * u
  }

  /**
   * The axis reading of the held keys, halved: D beats A on "Horizontal",
   * W beats S on "Vertical", and any other axis name reads 0.
   */
  function MyGetAxis(axisName: string, held: set<KeyCode>): (axis: real)
    ensures axis == -0.5 || axis == 0.0 || axis == 0.5
    ensures axisName == "Horizontal" ==>
      && (axis == 0.5 <==> D in held)
      && (axis == -0.5 <==> D !in held && A in held)
    ensures axisName == "Vertical" ==>
      && (axis == 0.5 <==> W in held)
      && (axis == -0.5 <==> W !in held && S in held)
    ensures axisName != "Horizontal" && axisName != "Vertical" ==> axis == 0.0
  {
    var raw :=
      if axisName == "Horizontal" then
        (if D in held then 1.0 else if A in held then -1.0 else 0.0)
      else if axisName == "Vertical" then
        (if W in held then 1.0 else if S in held then -1.0 else 0.0)
      else 0.0;
    Lerp(0.0, raw, 0.5)
  }

  /** The discrete mode: 0 by default, 1 while G is held, 2 while R is held, R winning. */
  function HeuristicMode(held: set<KeyCode>): (mode: int)
    ensures mode == 0 || mode == PickupMode || mode == ReleaseMode
    ensures mode == ReleaseMode <==> R in held
    ensures mode == PickupMode <==> G in held && R !in held
  {
    var getMode := G in held;
    var releaseMode := R in held;
    var m := if getMode then PickupMode else 0;
    if releaseMode then ReleaseMode else m
  }

  function KeyStrength(k: KeyCode, held: set<KeyCode>): real {
    if k in held then 1.0 else 0.0
  }

  /**
   * The action buffer filled from the keyboard: horizontal and vertical axes,
   * Q up, E down, left and right arrows for rotation, and the mode.
   */
  function Heuristic(held: set<KeyCode>): (actions: ActionBuffers)
    ensures |actions.continuous| == 6 && |actions.discrete| == 1
    ensures forall k :: 0 <= k < 2 ==> -0.5 <= actions.continuous[k] <= 0.5
    ensures forall k :: 2 <= k < 6 ==> actions.continuous[k] == 0.0 || actions.continuous[k] == 1.0
    ensures actions.continuous[2] == 1.0 <==> Q in held
    ensures actions.continuous[3] == 1.0 <==> E in held
    ensures actions.continuous[4] == 1.0 <==> LeftArrow in held
    ensures actions.continuous[5] == 1.0 <==> RightArrow in held
    ensures actions.continuous[0] == MyGetAxis("Horizontal", held)
    ensures actions.continuous[1] == MyGetAxis("Vertical", held)
    ensures actions.continuous[0] > 0.0 <==> D in held
    ensures actions.continuous[1] > 0.0 <==> W in held
    ensures actions.discrete[0] == HeuristicMode(held)
  {
    ActionBuffers(
      [MyGetAxis("Horizontal", held), MyGetAxis("Vertical", held),
       KeyStrength(Q, held), KeyStrength(E, held),
       KeyStrength(LeftArrow, held), KeyStrength(RightArrow, held)],
      [HeuristicMode(held)])
  }

  /**
   * Holding R releases the crate whatever else is held; holding G alone
   * attempts a pickup; holding neither leaves the task state as it is.
   */
  lemma HeuristicControls(held: set<KeyCode>, s: AgentState)
    ensures var mode := Heuristic(held).discrete[0];
      && (R in held ==> Discrete(s, mode) == Release(s))
      && (G in held && R !in held ==> Discrete(s, mode) == Pickup(s))
      && (G !in held && R !in held ==> Discrete(s, mode) == s)
  {
  }
}
