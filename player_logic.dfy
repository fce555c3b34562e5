/** The state machine of the Player script (Assets/Scripts/Player.cs) as pure
    functions on a snapshot of the state the script reads and writes: the
    player's own fields and the three fields of the shared RoomGameManager.
    The class in player_script.dfy is proved to follow these functions, and
    player_runs.dfy proves what a sequence of engine callbacks does. */
module PlayerLogic {

  /** The trigger tags the script dispatches on, and the element it unlocks. */
  const ExitTag := "Exit"
  const ElementFireTag := "ElementFire"
  const CoinTag := "Coin"
  const FireElement := "Fire"

  /** Field initialisers of the script. */
  const DefaultPointsPerCoin := 20
  const InitialHp := 10

  /** The range of a C# `int`, and the size of that range. */
  const IntMin := -0x8000_0000
  const IntMax := 0x7fff_ffff
  const IntRange := 0x1_0000_0000

  predicate IsInt32(x: int)
  {
    IntMin <= x <= IntMax
  }

  /** The result of C# `int` arithmetic, which is unchecked here and wraps
      around: the one value in the `int` range that differs from the exact
      result by a multiple of 2^32. */
  function Wrap32(x: int): (r: int)
    ensures IsInt32(r)
    ensures IsInt32(x) ==> r == x
    ensures (x - r) % IntRange == 0
  {
    IntMin + (x - IntMin) % IntRange
  }

  /** Wrapping an intermediate result does not change a wrapped sum. */
  lemma WrapAddWrapped(a: int, b: int)
    ensures Wrap32(Wrap32(a) + b) == Wrap32(a + b)
  {
    var q := (a - IntMin) / IntRange;
    assert Wrap32(a) == a - IntRange * q;
    assert (a + b - IntMin - IntRange * q) % IntRange == (a + b - IntMin) % IntRange;
  }

  /** A move direction: the two integer axes handed to AttemptMove. */
  datatype Dir = Dir(x: int, y: int) {
    predicate IsZero() { x == 0 && y == 0 }
    /** At most one axis is non-zero. */
    predicate AxisAligned() { x == 0 || y == 0 }
  }

  /** What the movement code of the base class (not part of this model)
      reports for an attempted step: the step was taken, it was blocked by
      something that is not a Totem, or it was blocked by a Totem, in which
      case the base class hands the Totem to OnCantMove. */
  datatype MoveOutcome = Moved | Blocked | BlockedByTotem

  /** Everything the script reads or writes.
      Player fields: coins, hp, enabled, pointsPerCoin, and restartScheduled
      (the pending `Invoke("Restart", ...)`).
      RoomGameManager fields: playersTurn, playerCoinPoints,
      elementsAvailable, and gameOverCalls (how often GameOver was called).
      Event logs: totemInteractions (calls of the Totem's ChoseElement) and
      attempts (every direction passed to AttemptMove, in order). */
  datatype State = State(
    coins: int,
    hp: int,
    enabled: bool,
    pointsPerCoin: int,
    restartScheduled: bool,
    playersTurn: bool,
    playerCoinPoints: int,
    elementsAvailable: seq<string>,
    gameOverCalls: nat,
    totemInteractions: nat,
    attempts: seq<Dir>)

  /** The player's own fields agree in s and r. */
  predicate SamePlayer(s: State, r: State)
  {
    && r.coins == s.coins
    && r.hp == s.hp
    && r.enabled == s.enabled
    && r.pointsPerCoin == s.pointsPerCoin
    && r.restartScheduled == s.restartScheduled
  }

  /** The manager's wallet (coin points and unlocked elements) agrees in s and r. */
  predicate SameWallet(s: State, r: State)
  {
    r.playerCoinPoints == s.playerCoinPoints && r.elementsAvailable == s.elementsAvailable
  }

  /** The logged events (game-over calls, Totem interactions, move attempts) agree. */
  predicate SameEvents(s: State, r: State)
  {
    && r.gameOverCalls == s.gameOverCalls
    && r.totemInteractions == s.totemInteractions
    && r.attempts == s.attempts
  }

  // ---------------------------------------------------------------------------
  // Activation and deactivation
  // ---------------------------------------------------------------------------

  /** Start: the coin total is loaded from the manager; nothing else changes. */
  function Start(s: State): (r: State)
    ensures r.coins == s.playerCoinPoints
    ensures r.hp == s.hp && r.enabled == s.enabled && r.pointsPerCoin == s.pointsPerCoin
    ensures r.restartScheduled == s.restartScheduled && r.playersTurn == s.playersTurn
    ensures SameWallet(s, r) && SameEvents(s, r)
  {
    s.(coins := s.playerCoinPoints)
  }

  /** OnDisable: the coin total is stored back in the manager; nothing else changes. */
  function OnDisable(s: State): (r: State)
    ensures r.playerCoinPoints == s.coins
    ensures r.elementsAvailable == s.elementsAvailable && r.playersTurn == s.playersTurn
    ensures SamePlayer(s, r) && SameEvents(s, r)
  {
    s.(playerCoinPoints := s.coins)
  }

  /** The assignment `enabled = false`. The engine calls OnDisable when an
      enabled behaviour becomes disabled, so the coin total is stored exactly
      when the player was enabled before; disabling a disabled player does
      nothing. */
  function SetDisabled(s: State): (r: State)
    ensures !r.enabled
    ensures r.playerCoinPoints == if s.enabled then s.coins else s.playerCoinPoints
    ensures !s.enabled ==> r == s
    ensures r.coins == s.coins && r.hp == s.hp && r.pointsPerCoin == s.pointsPerCoin
    ensures r.restartScheduled == s.restartScheduled && r.playersTurn == s.playersTurn
    ensures r.elementsAvailable == s.elementsAvailable && SameEvents(s, r)
  {
    if s.enabled then OnDisable(s.(enabled := false)) else s
  }

  // ---------------------------------------------------------------------------
  // One tick: turn guard, input normalisation, move attempt
  // ---------------------------------------------------------------------------

  /** The C# cast `(int)` of a raw axis value, which truncates toward zero.
      The engine reports raw axes in [-1, 1], so only a full deflection
      yields a non-zero step. */
  function TruncateAxis(raw: real): (i: int)
    requires -1.0 <= raw <= 1.0
    ensures -1 <= i <= 1
    ensures i == 0 <==> -1.0 < raw < 1.0
    ensures i != 0 ==> i as real == raw
  {
    if raw >= 0.0 then raw.Floor else -((-raw).Floor)
  }

  /** The direction Update hands to AttemptMove: horizontal input wins, and
      vertical input counts only when there is no horizontal input. */
  function Normalize(horizontal: int, vertical: int): (d: Dir)
    ensures d.AxisAligned()
    ensures d.x == horizontal
    ensures horizontal == 0 ==> d.y == vertical
    ensures d.IsZero() <==> horizontal == 0 && vertical == 0
  {
    if horizontal != 0 then Dir(horizontal, 0) else Dir(0, vertical)
  }

  /** OnCantMove: the blocking Totem's ChoseElement is called once. */
  function OnCantMove(s: State): (r: State)
    ensures r.totemInteractions == s.totemInteractions + 1
    ensures SamePlayer(s, r) && SameWallet(s, r) && r.playersTurn == s.playersTurn
    ensures r.gameOverCalls == s.gameOverCalls && r.attempts == s.attempts
  {
    s.(totemInteractions := s.totemInteractions + 1)
  }

  /** AttemptMove: the attempt is logged, a Totem that blocks the step gets
      its interaction, and the turn is over whatever the outcome. */
  function AttemptMove(s: State, d: Dir, outcome: MoveOutcome): (r: State)
    ensures !r.playersTurn
    ensures r.attempts == s.attempts + [d]
    ensures r.totemInteractions == s.totemInteractions + (if outcome == BlockedByTotem then 1 else 0)
    ensures SamePlayer(s, r) && SameWallet(s, r) && r.gameOverCalls == s.gameOverCalls
  {
    var logged := s.(attempts := s.attempts + [d]);
    var afterBase := if outcome == BlockedByTotem then OnCantMove(logged) else logged;
    afterBase.(playersTurn := false)
  }

  /** Update, given the already truncated input axes and what the base
      class's movement reports if a step is attempted. */
  function Update(s: State, horizontal: int, vertical: int, outcome: MoveOutcome): (r: State)
    // not the player's turn: nothing at all happens
    ensures !s.playersTurn ==> r == s
    // no input: no attempt, and the turn is kept
    ensures horizontal == 0 && vertical == 0 ==> r == s
    // input on the player's turn: exactly one axis-aligned attempt, and the turn is over
    ensures s.playersTurn && (horizontal != 0 || vertical != 0) ==>
      && !r.playersTurn
      && r.attempts == s.attempts + [Normalize(horizontal, vertical)]
      && r.attempts[|s.attempts|].AxisAligned()
      && r.totemInteractions == s.totemInteractions + (if outcome == BlockedByTotem then 1 else 0)
    // at most one attempt per tick, and a tick that keeps the turn attempts nothing
    ensures |r.attempts| <= |s.attempts| + 1
    ensures r.playersTurn ==> r == s
    ensures SamePlayer(s, r) && SameWallet(s, r) && r.gameOverCalls == s.gameOverCalls
  {
    if !s.playersTurn then s
    else
      var d := Normalize(horizontal, vertical);
      if d.IsZero() then s else AttemptMove(s, d, outcome)
  }

  // ---------------------------------------------------------------------------
  // Trigger dispatch
  // ---------------------------------------------------------------------------

  /** The tags whose trigger deactivates the colliding object. */
  predicate DeactivatesPickup(tag: string)
  {
    tag == ElementFireTag || tag == CoinTag
  }

  /** OnTriggerEnter2D, for a colliding object with the given tag. */
  function OnTriggerEnter(s: State, tag: string): (r: State)
    // Exit: a restart is scheduled and the player is disabled
    ensures tag == ExitTag ==>
      && !r.enabled && r.restartScheduled
      && r.playerCoinPoints == (if s.enabled then s.coins else s.playerCoinPoints)
      && r.elementsAvailable == s.elementsAvailable
    // ElementFire: "Fire" is appended to the unlocked elements
    ensures tag == ElementFireTag ==>
      r.elementsAvailable == s.elementsAvailable + [FireElement] && SamePlayer(s, r)
      && r.playerCoinPoints == s.playerCoinPoints
    // Coin: the coin total grows by pointsPerCoin, in wrapping int arithmetic
    ensures tag == CoinTag ==>
      r.coins == Wrap32(s.coins + s.pointsPerCoin) && SameWallet(s, r)
      && r.enabled == s.enabled && r.restartScheduled == s.restartScheduled
    // any other tag: nothing happens
    ensures tag != ExitTag && tag != ElementFireTag && tag != CoinTag ==> r == s
    // no trigger touches hp, the turn, the events, or the reward
    ensures r.hp == s.hp && r.pointsPerCoin == s.pointsPerCoin && r.playersTurn == s.playersTurn
    ensures SameEvents(s, r)
    // coins change only on a Coin trigger, and exactly by the reward unless the sum leaves the int range
    ensures tag != CoinTag ==> r.coins == s.coins
    ensures tag == CoinTag && IsInt32(s.coins + s.pointsPerCoin) ==> r.coins == s.coins + s.pointsPerCoin
  {
    if tag == ExitTag then SetDisabled(s.(restartScheduled := true))
    else if tag == ElementFireTag then s.(elementsAvailable := s.elementsAvailable + [FireElement])
    else if tag == CoinTag then s.(coins := Wrap32(s.coins + s.pointsPerCoin))
    else s
  }

  // ---------------------------------------------------------------------------
  // Damage and game over
  // ---------------------------------------------------------------------------

  /** CheckIfGameOver: GameOver is called once exactly when hp is at most zero. */
  function CheckIfGameOver(s: State): (r: State)
    ensures r.gameOverCalls == s.gameOverCalls + (if s.hp <= 0 then 1 else 0)
    ensures SamePlayer(s, r) && SameWallet(s, r) && r.playersTurn == s.playersTurn
    ensures r.totemInteractions == s.totemInteractions && r.attempts == s.attempts
  {
    if s.hp <= 0 then s.(gameOverCalls := s.gameOverCalls + 1) else s
  }

  /** LoseFood: hp drops by the loss in wrapping int arithmetic, without
      clamping, and GameOver is called once exactly when the new hp is at
      most zero. */
  function LoseFood(s: State, loss: int): (r: State)
    ensures IsInt32(r.hp) && r.hp == Wrap32(s.hp - loss)
    ensures IsInt32(s.hp - loss) ==> r.hp == s.hp - loss
    ensures r.gameOverCalls == s.gameOverCalls + (if r.hp <= 0 then 1 else 0)
    ensures loss >= 0 && s.hp - loss >= IntMin ==> r.hp <= s.hp
    ensures r.coins == s.coins && r.enabled == s.enabled && r.pointsPerCoin == s.pointsPerCoin
    ensures r.restartScheduled == s.restartScheduled && r.playersTurn == s.playersTurn
    ensures SameWallet(s, r)
    ensures r.totemInteractions == s.totemInteractions && r.attempts == s.attempts
  {
    CheckIfGameOver(s.(hp := Wrap32(s.hp - loss)))
  }

  /** A loss of int.MinValue from 10 hp wraps to a negative hp, so GameOver
      is called although the exact difference is positive. */
  lemma HugeNegativeLossWrapsToGameOver(s: State)
    requires s.hp == InitialHp
    ensures LoseFood(s, IntMin).hp == -2147483638
    ensures LoseFood(s, IntMin).gameOverCalls == s.gameOverCalls + 1
  {
  }

  /** At the bottom of the int range a positive loss wraps hp round to the
      top, and GameOver is not called. */
  lemma LossAtIntMinWrapsToIntMax(s: State)
    requires s.hp == IntMin
    ensures LoseFood(s, 1).hp == IntMax
    ensures LoseFood(s, 1).gameOverCalls == s.gameOverCalls
  {
  }
}
