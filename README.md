# Player turn and pickup state machine

This project models the `Player` script of a tile-based, turn-driven dungeon
game (Unity, C#). On each frame the player moves one tile, but only on its own
turn. Walking into a trigger volume picks up coins or the fire element, or
reaches the exit. Enemies deal damage, and the shared room manager is notified
when hit points run out.

The state is the player's own fields (`coins`, `hp`, `enabled`,
`pointsPerCoin`, a pending restart) and three fields of the shared
`RoomGameManager` (`playersTurn`, `playerCoinPoints`, `elementsAvailable`).
Two event logs are added: how often `GameOver` and the blocking Totem's
`ChoseElement` were called, and the direction passed to every `AttemptMove`.

- `player_logic.dfy`, module `PlayerLogic`: the state as a `State` value, plus
  one function per script method. Each function's contract says what changes
  and what does not.
- `player_script.dfy`, module `PlayerScript`: classes `Player`,
  `RoomGameManager` and `Collider2D`. Their methods update fields in place,
  as the script does. Each method has narrow `modifies` frames and is proved
  to move the state exactly as the matching `PlayerLogic` function does.
- `player_runs.dfy`, module `PlayerRuns`: sequences of engine callbacks
  (ticks, triggers, hits, turns handed back by the manager, disabling). It
  proves what they add up to: the coin round trip through the manager, hp
  accounting, game over on every hit once hp is down, at most one move per
  turn, and only one-axis steps.

Notes on how the code behaves:

- `enabled = false` (Player.cs:91) is Unity's property setter. When an enabled
  behaviour becomes disabled, the engine calls `OnDisable` at once. So an
  Exit trigger stores the coin total in the manager, and the next level loads
  it. Disabling a player that is already disabled does nothing. The engine
  calls `Update` only on an enabled behaviour. It delivers trigger callbacks,
  and `LoseFood` calls from enemies, to a disabled one too. `PlayerRuns.Step`
  models that dispatch.
- Only the coin total goes back to the manager. `hp` is never stored.
- C# `int` is 32 bits, and the script's arithmetic is unchecked. So
  `coins += pointsPerCoin` (Player.cs:108) and `hp -= loss` (Player.cs:171)
  wrap around. `PlayerLogic.Wrap32` models this. From 10 hp, a loss of
  int.MinValue wraps hp to a negative value and calls `GameOver`. From
  int.MinValue hp, a loss of 1 wraps hp to int.MaxValue and does not call it.
  The run lemmas start from hp and coin values inside the int range, as C#
  `int` fields always are, and state the wrapped results. The claims that hp never rises
  and that every later hit calls `GameOver` also require that the sum of the
  losses keeps hp inside the int range.
- Nothing in Player.cs assigns `roomGameManager` (Player.cs:22), and the code
  has no null check on it. The model takes the manager as a constructor
  argument, so it is always bound.
- `LoseFood` does not clamp hp. The game-over check runs on every hit. A hit
  that leaves hp at or below zero calls `GameOver` again, even if an earlier
  hit already did.

## Model

| member | source | states |
|---|---|---|
| `PlayerLogic.Wrap32` | Assets/Scripts/Player.cs:108 | the result of unchecked C# int arithmetic lies in the int range, equals the exact result when that is in range, and differs from it by a multiple of 2^32 |
| `PlayerLogic.HugeNegativeLossWrapsToGameOver` | Assets/Scripts/Player.cs:165-192 | from 10 hp, a loss of int.MinValue wraps hp to -2147483638 and calls GameOver once |
| `PlayerLogic.LossAtIntMinWrapsToIntMax` | Assets/Scripts/Player.cs:165-192 | from int.MinValue hp, a loss of 1 wraps hp to int.MaxValue and does not call GameOver |
| `PlayerLogic.Start` | Assets/Scripts/Player.cs:25-40 | the coin total becomes the manager's stored coin points; nothing else changes |
| `PlayerLogic.OnDisable` | Assets/Scripts/Player.cs:44-48 | the manager's coin points become the coin total; nothing else changes |
| `PlayerLogic.SetDisabled` | Assets/Scripts/Player.cs:91 | the player ends disabled; coins are stored exactly when it was enabled before; disabling a disabled player changes nothing |
| `PlayerLogic.TruncateAxis` | Assets/Scripts/Player.cs:60-64 | the cast of a raw axis in [-1, 1] lies in -1..1, is zero exactly for raw values strictly inside (-1, 1), and otherwise equals the raw value |
| `PlayerLogic.Normalize` | Assets/Scripts/Player.cs:66-70 | the direction has at most one non-zero axis, horizontal input takes priority, and it is zero exactly when both inputs are zero |
| `PlayerLogic.OnCantMove` | Assets/Scripts/Player.cs:142-152 | the blocking Totem gets exactly one interaction; player, wallet and turn unchanged |
| `PlayerLogic.AttemptMove` | Assets/Scripts/Player.cs:120-137 | the turn is over whether the step moved or was blocked; the attempt is logged; a blocking Totem is interacted with once; coins, hp, enabled and wallet unchanged |
| `PlayerLogic.Update` | Assets/Scripts/Player.cs:51-79 | off turn, nothing changes; with zero input, nothing changes and the turn is kept; with input on turn, exactly one axis-aligned attempt, one Totem interaction exactly when a Totem blocks it, and the turn ends; never more than one attempt per tick |
| `PlayerLogic.OnTriggerEnter` | Assets/Scripts/Player.cs:82-117 | Exit disables and schedules a restart; ElementFire appends "Fire"; Coin adds pointsPerCoin in wrapping int arithmetic, exactly when the sum fits; any other tag changes nothing; no trigger touches hp, the turn or the reward |
| `PlayerLogic.CheckIfGameOver` | Assets/Scripts/Player.cs:182-192 | GameOver is called once exactly when hp is at most zero, and nothing else changes |
| `PlayerLogic.LoseFood` | Assets/Scripts/Player.cs:165-178 | hp drops by the loss in wrapping int arithmetic, exactly when the difference fits, with no clamping; GameOver is called once exactly when the new hp is at most zero |
| `PlayerScript.RoomGameManager.GameOver` | Assets/Scripts/Player.cs:190 | each call is recorded once |
| `PlayerScript.Player.constructor` | Assets/Scripts/Player.cs:8-22 | field initialisers: 20 points per coin, 10 hp, 0 coins, enabled, bound to the given manager |
| `PlayerScript.Player.Start` | Assets/Scripts/Player.cs:25-40 | updates only `coins`, as `PlayerLogic.Start` |
| `PlayerScript.Player.OnDisable` | Assets/Scripts/Player.cs:44-48 | updates only the manager's coin points, as `PlayerLogic.OnDisable` |
| `PlayerScript.Player.SetDisabled` | Assets/Scripts/Player.cs:91 | updates only `enabled` and the manager's coin points, as `PlayerLogic.SetDisabled` |
| `PlayerScript.Player.Update` | Assets/Scripts/Player.cs:51-79 | overwrites its input locals step by step and changes the state as `PlayerLogic.Update` on the truncated axes |
| `PlayerScript.Player.OnTriggerEnter2D` | Assets/Scripts/Player.cs:82-117 | changes the state as `PlayerLogic.OnTriggerEnter`, adding coins with unchecked int addition; deactivates the colliding object exactly for ElementFire and Coin, and no other object |
| `PlayerScript.Player.AttemptMove` | Assets/Scripts/Player.cs:120-137 | updates only the move log, the Totem count and the turn flag, as `PlayerLogic.AttemptMove` |
| `PlayerScript.Player.OnCantMove` | Assets/Scripts/Player.cs:142-152 | updates only the Totem count, as `PlayerLogic.OnCantMove` |
| `PlayerScript.Player.LoseFood` | Assets/Scripts/Player.cs:165-178 | updates only hp, by unchecked int subtraction, and the game-over count, as `PlayerLogic.LoseFood` |
| `PlayerScript.Player.CheckIfGameOver` | Assets/Scripts/Player.cs:182-192 | updates only the game-over count, as `PlayerLogic.CheckIfGameOver` |
| `PlayerRuns.CoinsAccounting` | Assets/Scripts/Player.cs:105-115 | over any run, coins grow by pointsPerCoin per Coin trigger, in wrapping int arithmetic, and by nothing else; the reward never changes |
| `PlayerRuns.CoinRoundTrip` | Assets/Scripts/Player.cs:32-108 | Start, any run, then OnDisable stores the loaded total plus pointsPerCoin times the coin pickups in between, wrapped to the int range (by `Wrap32`, exactly that sum when it fits) |
| `PlayerRuns.CoinRoundTripThroughExit` | Assets/Scripts/Player.cs:25-115 | an enabled, started player that reaches the Exit stores, through the OnDisable that disabling triggers, the loaded total plus pointsPerCoin per coin on the way, ends disabled, and has a restart scheduled |
| `PlayerRuns.StaysEnabled` | Assets/Scripts/Player.cs:85-92 | only an Exit trigger or outside disabling disables the player |
| `PlayerRuns.DisabledStaysDisabled` | Assets/Scripts/Player.cs:85-92 | once disabled, the player stays disabled, attempts no move and does not store coins again |
| `PlayerRuns.ElementsOnlyGrowByFire` | Assets/Scripts/Player.cs:95-104 | the unlocked elements only grow, by one "Fire" per ElementFire trigger |
| `PlayerRuns.HpAccounting` | Assets/Scripts/Player.cs:165-178 | over any run, hp drops by the sum of the losses, in wrapping int arithmetic |
| `PlayerRuns.HpNeverRises` | Assets/Scripts/Player.cs:171 | with non-negative losses that keep hp inside the int range, hp ends at its start value minus their sum and never rises |
| `PlayerRuns.GameOverOnEveryHitWhileDown` | Assets/Scripts/Player.cs:182-192 | once hp is at most zero, every later non-healing hit calls GameOver once more, and nothing else does, while hp stays inside the int range |
| `PlayerRuns.AttemptsAreOneAxisSteps` | Assets/Scripts/Player.cs:51-79 | the move log only grows, and every direction passed to AttemptMove is a non-zero one-axis step |
| `PlayerRuns.AtMostOneMovePerTurn` | Assets/Scripts/Player.cs:54-136 | moves attempted never exceed the turns held at the start plus turns granted, counting a turn still held at the end |
| `PlayerRuns.NoTurnNoMove` | Assets/Scripts/Player.cs:51-54 | without the turn, and with no turn granted, no move is attempted and the turn flag stays false |
| `PlayerRuns.AttemptsPrefix` | Assets/Scripts/Player.cs:120-137 | a run only extends the move log |
| `PlayerRuns.DamageExamples` | Assets/Scripts/Player.cs:165-192 | from 10 hp: two hits of 5 give one GameOver; a hit of 10 then 5 gives two |
| `PlayerRuns.CoinRoundTripExample` | Assets/Scripts/Player.cs:32-108 | loading 5, one coin pickup and disabling stores 25, which the next Start loads |

## Left out

- Animation triggers (`playerChop`, `playerHit`), audio clips, `GetComponent` and the commented-out UI text: engine side effects with no state this script reasons about.
- `Restart` and `SceneManager.LoadScene`: the scene reload is external. The `Invoke` delay is a float in seconds. The model records only that a restart is scheduled.
- `Input.GetAxisRaw`: an external input source. Its raw values are parameters in [-1, 1], the range the engine reports.
- The `MovingObject` base class (`base.Start`, `base.AttemptMove`, `Move`, the linecast): not part of this model. Its result is a `MoveOutcome` parameter (moved, blocked, or blocked by a Totem). The position change on a successful step, and the second `Move` call at Player.cs:130, are not modelled.
- `Totem.ChoseElement` and the `as Totem` cast: the Totem class is not part of this model. A blocked step only counts the interaction, and a failed cast is not modelled. `ChoseElement` is assumed to change nothing the model tracks: not the manager's wallet or turn, and not the player's fields. So the claims of `PlayerLogic.OnCantMove` and `PlayerLogic.AttemptMove` that those stay unchanged rest on that assumption.
- PlayerRuns.ElementsOnlyGrowByFire: the model takes `elementsAvailable` to be a `List<string>`. Its type is declared in RoomGameManager, which is not part of this model. `Add` appends and keeps duplicates, so two ElementFire triggers leave "Fire" twice. If the field were a `HashSet<string>`, the length clause would not hold, and neither would the append in `PlayerLogic.OnTriggerEnter`.
- PlayerLogic.OnTriggerEnter: its ElementFire clause assumes the same `List<string>` append.
- `RoomGameManager.GameOver`: its body is not part of this model. Only the call is recorded.
- The binding of `roomGameManager`: not part of this model. The model assumes it is bound, so a null manager is not modelled.
