/** The Player script as a class whose methods update its fields and the
    shared RoomGameManager in place. Every method is proved to take the
    snapshot of that state exactly as the matching function of PlayerLogic
    does, and to touch no other field. */
module PlayerScript {
  import opened PlayerLogic

  /** The three fields of the shared manager that the player reads and
      writes, and a count of the GameOver notifications it received. */
  class RoomGameManager {
    var playersTurn: bool
    var playerCoinPoints: int
    var elementsAvailable: seq<string>
    ghost var gameOverCalls: nat

    constructor (playersTurn: bool, playerCoinPoints: int, elementsAvailable: seq<string>)
      ensures this.playersTurn == playersTurn && this.playerCoinPoints == playerCoinPoints
      ensures this.elementsAvailable == elementsAvailable && gameOverCalls == 0
    {
      this.playersTurn := playersTurn;
      this.playerCoinPoints := playerCoinPoints;
      this.elementsAvailable := elementsAvailable;
      gameOverCalls := 0;
    }

    /** The manager's game-over handling is not part of this model; only
        the fact that it was notified is recorded. */
    method GameOver()
      modifies this`gameOverCalls
      ensures gameOverCalls == old(gameOverCalls) + 1
    {
      gameOverCalls := gameOverCalls + 1;
    }
  }

  /** The collider that entered the player's trigger: its tag and whether
      its game object is active. */
  class Collider2D {
    const tag: string
    var active: bool

    constructor (tag: string)
      ensures this.tag == tag && active
    {
      this.tag := tag;
      active := true;
    }
  }

  class Player {
    var pointsPerCoin: int
    var coins: int
    var hp: int
    var enabled: bool
    /** A pending `Invoke("Restart", restartLevelDelay)`. */
    var restartScheduled: bool
    /** Calls of the blocking Totem's ChoseElement. */
    ghost var totemInteractions: nat
    /** Every direction passed to AttemptMove, in order. */
    ghost var attempts: seq<Dir>
    const roomGameManager: RoomGameManager

    /** The state the script reads and writes, as one value. */
    ghost function Snapshot(): State
      reads this, roomGameManager
    {
      State(coins, hp, enabled, pointsPerCoin, restartScheduled,
            roomGameManager.playersTurn, roomGameManager.playerCoinPoints,
            roomGameManager.elementsAvailable, roomGameManager.gameOverCalls,
            totemInteractions, attempts)
    }

    /** A new player component bound to the session's manager, with the
        script's field initialisers. */
    constructor (manager: RoomGameManager)
      ensures roomGameManager == manager
      ensures pointsPerCoin == DefaultPointsPerCoin && coins == 0 && hp == InitialHp
      ensures enabled && !restartScheduled && totemInteractions == 0 && attempts == []
    {
      roomGameManager := manager;
      pointsPerCoin := DefaultPointsPerCoin;
      coins := 0;
      hp := InitialHp;
      enabled := true;
      restartScheduled := false;
      totemInteractions := 0;
      attempts := [];
    }

    method Start()
      modifies this`coins
      ensures Snapshot() == PlayerLogic.Start(old(Snapshot()))
    {
      coins := roomGameManager.playerCoinPoints;
    }

    method OnDisable()
      modifies roomGameManager`playerCoinPoints
      ensures Snapshot() == PlayerLogic.OnDisable(old(Snapshot()))
    {
      roomGameManager.playerCoinPoints := coins;
    }

    /** `enabled = false`: the engine runs OnDisable when an enabled
        behaviour becomes disabled. */
    method SetDisabled()
      modifies this`enabled, roomGameManager`playerCoinPoints
      ensures Snapshot() == PlayerLogic.SetDisabled(old(Snapshot()))
    {
      if enabled {
        enabled := false;
        OnDisable();
      }
    }

    /** One frame. The raw axis values read from the input manager and the
        outcome the base class's movement reports are parameters. */
    method Update(rawHorizontal: real, rawVertical: real, outcome: MoveOutcome)
      requires -1.0 <= rawHorizontal <= 1.0 && -1.0 <= rawVertical <= 1.0
      modifies this`attempts, this`totemInteractions, roomGameManager`playersTurn
      ensures Snapshot() ==
        PlayerLogic.Update(old(Snapshot()), TruncateAxis(rawHorizontal), TruncateAxis(rawVertical), outcome)
    {
      if !roomGameManager.playersTurn {
        return;
      }
      var horizontal := 0;
      var vertical := 0;
      horizontal := TruncateAxis(rawHorizontal);
      vertical := TruncateAxis(rawVertical);
      if horizontal != 0 {
        vertical := 0;
      }
      if horizontal != 0 || vertical != 0 {
        AttemptMove(horizontal, vertical, outcome);
      }
    }

    method OnTriggerEnter2D(other: Collider2D)
      modifies this`enabled, this`restartScheduled, this`coins
      modifies roomGameManager`elementsAvailable, roomGameManager`playerCoinPoints
      modifies other`active
      ensures Snapshot() == PlayerLogic.OnTriggerEnter(old(Snapshot()), other.tag)
      ensures other.active == if DeactivatesPickup(other.tag) then false else old(other.active)
    {
      if other.tag == ExitTag {
        restartScheduled := true;
        SetDisabled();
      } else if other.tag == ElementFireTag {
        roomGameManager.elementsAvailable := roomGameManager.elementsAvailable + [FireElement];
        other.active := false;
      } else if other.tag == CoinTag {
        coins := Wrap32(coins + pointsPerCoin);  // unchecked C# int addition
        other.active := false;
      }
    }

    /** The base class's movement runs first and, when a Totem blocks the
        step, calls OnCantMove; the turn then ends unconditionally. */
    method AttemptMove(xDir: int, yDir: int, outcome: MoveOutcome)
      modifies this`attempts, this`totemInteractions, roomGameManager`playersTurn
      ensures Snapshot() == PlayerLogic.AttemptMove(old(Snapshot()), Dir(xDir, yDir), outcome)
    {
      attempts := attempts + [Dir(xDir, yDir)];
      if outcome == BlockedByTotem {
        OnCantMove();
      }
      roomGameManager.playersTurn := false;
    }

    method OnCantMove()
      modifies this`totemInteractions
      ensures Snapshot() == PlayerLogic.OnCantMove(old(Snapshot()))
    {
      totemInteractions := totemInteractions + 1;
    }

    method LoseFood(loss: int)
      modifies this`hp, roomGameManager`gameOverCalls
      ensures Snapshot() == PlayerLogic.LoseFood(old(Snapshot()), loss)
    {
      hp := Wrap32(hp - loss);  // unchecked C# int subtraction
      CheckIfGameOver();
    }

    method CheckIfGameOver()
      modifies roomGameManager`gameOverCalls
      ensures Snapshot() == PlayerLogic.CheckIfGameOver(old(Snapshot()))
    {
      if hp <= 0 {
        roomGameManager.GameOver();
      }
    }
  }
}
