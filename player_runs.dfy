/** Sequences of engine callbacks delivered to a started player, and what
    they do to its state over time: the coin round trip through the manager,
    hp accounting, repeated game-over notifications, one move per turn. */
module PlayerRuns {
  import opened PlayerLogic

  /** One callback the engine (or the manager) delivers.
      Tick: a frame with the truncated input axes and the movement outcome.
      Trigger: a collider with the given tag entered the player's trigger.
      Hit: an enemy calls LoseFood.
      TurnGranted: the manager hands the turn back to the player.
      Disabled: the behaviour is disabled from outside. */
  datatype Event =
    | Tick(horizontal: int, vertical: int, outcome: MoveOutcome)
    | Trigger(tag: string)
    | Hit(loss: int)
    | TurnGranted
    | Disabled

  /** The engine calls Update only on an enabled behaviour; trigger
      callbacks and LoseFood reach a disabled one as well. */
  function Step(s: State, e: Event): State
  {
    match e
    case Tick(h, v, o) => if s.enabled then Update(s, h, v, o) else s
    case Trigger(tag) => OnTriggerEnter(s, tag)
    case Hit(loss) => LoseFood(s, loss)
    case TurnGranted => s.(playersTurn := true)
    case Disabled => SetDisabled(s)
  }

  function Run(s: State, evs: seq<Event>): State
    decreases |evs|
  {
    if evs == [] then s else Run(Step(s, evs[0]), evs[1..])
  }

  function CoinPickups(evs: seq<Event>): nat
  {
    if evs == [] then 0
    else (if evs[0] == Trigger(CoinTag) then 1 else 0) + CoinPickups(evs[1..])
  }

  function FirePickups(evs: seq<Event>): nat
  {
    if evs == [] then 0
    else (if evs[0] == Trigger(ElementFireTag) then 1 else 0) + FirePickups(evs[1..])
  }

  function TotalLoss(evs: seq<Event>): int
  {
    if evs == [] then 0
    else (if evs[0].Hit? then evs[0].loss else 0) + TotalLoss(evs[1..])
  }

  function Hits(evs: seq<Event>): nat
  {
    if evs == [] then 0 else (if evs[0].Hit? then 1 else 0) + Hits(evs[1..])
  }

  function TurnsGranted(evs: seq<Event>): nat
  {
    if evs == [] then 0 else (if evs[0] == TurnGranted then 1 else 0) + TurnsGranted(evs[1..])
  }

  predicate NonNegativeLosses(evs: seq<Event>)
  {
    forall i :: 0 <= i < |evs| && evs[i].Hit? ==> evs[i].loss >= 0
  }

  /** Every logged direction is a real one-axis step. */
  predicate OneAxisSteps(ds: seq<Dir>)
  {
    forall i :: 0 <= i < |ds| ==> ds[i].AxisAligned() && !ds[i].IsZero()
  }

  // ---------------------------------------------------------------------------
  // Coins: the round trip through the manager
  // ---------------------------------------------------------------------------

  /** The coin total grows by pointsPerCoin per Coin trigger, in wrapping
      int arithmetic, and by nothing else; the reward itself never changes. */
  lemma {:induction false} CoinsAccounting(s: State, evs: seq<Event>)
    requires IsInt32(s.coins)
    ensures Run(s, evs).pointsPerCoin == s.pointsPerCoin
    ensures Run(s, evs).coins == Wrap32(s.coins + s.pointsPerCoin * CoinPickups(evs))
    decreases |evs|
  {
    if evs != [] {
      var t := Step(s, evs[0]);
      var k := CoinPickups(evs[1..]);
      if evs[0] == Trigger(CoinTag) {
        assert t.coins == Wrap32(s.coins + s.pointsPerCoin) && t.pointsPerCoin == s.pointsPerCoin;
        CoinsAccounting(t, evs[1..]);
        WrapAddWrapped(s.coins + s.pointsPerCoin, s.pointsPerCoin * k);
        assert CoinPickups(evs) == 1 + k;
        Distribute(s.pointsPerCoin, k);
        assert s.coins + s.pointsPerCoin * CoinPickups(evs) == s.coins + s.pointsPerCoin + s.pointsPerCoin * k;
      } else {
        assert t.coins == s.coins && t.pointsPerCoin == s.pointsPerCoin by {
          match evs[0]
          case Trigger(tag) =>
          case _ =>
        }
        CoinsAccounting(t, evs[1..]);
      }
    }
  }

  lemma Distribute(p: int, k: int)
    ensures p * (1 + k) == p + p * k
  {
  }

  /** Start loads the coin total from the manager and OnDisable stores it
      back: what is stored is what was loaded plus pointsPerCoin for every
      coin picked up in between, whatever else happened, in wrapping int
      arithmetic (so exactly that sum while it stays in the int range). */
  lemma CoinRoundTrip(s: State, evs: seq<Event>)
    requires IsInt32(s.playerCoinPoints)
    ensures OnDisable(Run(Start(s), evs)).playerCoinPoints
         == Wrap32(s.playerCoinPoints + s.pointsPerCoin * CoinPickups(evs))
  {
    CoinsAccounting(Start(s), evs);
  }

  /** No Exit trigger and no outside disabling. */
  predicate NoDisabling(evs: seq<Event>)
  {
    forall i :: 0 <= i < |evs| ==> evs[i] != Trigger(ExitTag) && evs[i] != Disabled
  }

  /** Running a sequence and then one more event is stepping the end state. */
  lemma {:induction false} RunAppend(s: State, evs: seq<Event>, e: Event)
    ensures Run(s, evs + [e]) == Step(Run(s, evs), e)
    decreases |evs|
  {
    if evs != [] {
      assert (evs + [e])[0] == evs[0];
      assert (evs + [e])[1..] == evs[1..] + [e];
      RunAppend(Step(s, evs[0]), evs[1..], e);
    }
  }

  /** Only an Exit trigger or outside disabling disables the player. */
  lemma {:induction false} StaysEnabled(s: State, evs: seq<Event>)
    requires s.enabled && NoDisabling(evs)
    ensures Run(s, evs).enabled
    decreases |evs|
  {
    if evs != [] {
      var t := Step(s, evs[0]);
      assert evs[0] != Trigger(ExitTag) && evs[0] != Disabled;
      assert t.enabled by {
        match evs[0]
        case Trigger(tag) =>
        case _ =>
      }
      assert NoDisabling(evs[1..]) by {
        forall i | 0 <= i < |evs[1..]|
          ensures evs[1..][i] != Trigger(ExitTag) && evs[1..][i] != Disabled
        {
          assert evs[1..][i] == evs[i + 1];
        }
      }
      StaysEnabled(t, evs[1..]);
    }
  }

  /** The round trip the game takes: a started, enabled player that reaches
      the Exit stores, through the OnDisable that disabling triggers, the
      loaded total plus pointsPerCoin per coin picked up on the way, and a
      restart is scheduled. */
  lemma CoinRoundTripThroughExit(s: State, evs: seq<Event>)
    requires s.enabled && IsInt32(s.playerCoinPoints) && NoDisabling(evs)
    ensures Run(Start(s), evs + [Trigger(ExitTag)]).playerCoinPoints
         == Wrap32(s.playerCoinPoints + s.pointsPerCoin * CoinPickups(evs))
    ensures !Run(Start(s), evs + [Trigger(ExitTag)]).enabled
    ensures Run(Start(s), evs + [Trigger(ExitTag)]).restartScheduled
  {
    RunAppend(Start(s), evs, Trigger(ExitTag));
    StaysEnabled(Start(s), evs);
    CoinsAccounting(Start(s), evs);
  }

  /** Once disabled (by an Exit trigger, say), the player stays disabled:
      no tick reaches it, so it attempts no move, and the coin total it
      stored when it was disabled is not written again, even if coins are
      picked up afterwards. */
  lemma {:induction false} DisabledStaysDisabled(s: State, evs: seq<Event>)
    requires !s.enabled
    ensures !Run(s, evs).enabled
    ensures Run(s, evs).attempts == s.attempts
    ensures Run(s, evs).playerCoinPoints == s.playerCoinPoints
    decreases |evs|
  {
    if evs != [] {
      var t := Step(s, evs[0]);
      assert !t.enabled && t.attempts == s.attempts && t.playerCoinPoints == s.playerCoinPoints by {
        match evs[0]
        case Trigger(tag) =>
        case _ =>
      }
      DisabledStaysDisabled(t, evs[1..]);
    }
  }

  // ---------------------------------------------------------------------------
  // Unlocked elements
  // ---------------------------------------------------------------------------

  /** The unlocked elements only grow, by one "Fire" per ElementFire trigger. */
  lemma {:induction false} ElementsOnlyGrowByFire(s: State, evs: seq<Event>)
    ensures s.elementsAvailable <= Run(s, evs).elementsAvailable
    ensures |Run(s, evs).elementsAvailable| == |s.elementsAvailable| + FirePickups(evs)
    ensures forall i :: |s.elementsAvailable| <= i < |Run(s, evs).elementsAvailable| ==>
      Run(s, evs).elementsAvailable[i] == FireElement
    decreases |evs|
  {
    if evs != [] {
      var t := Step(s, evs[0]);
      assert t.elementsAvailable ==
        s.elementsAvailable + (if evs[0] == Trigger(ElementFireTag) then [FireElement] else []) by {
        match evs[0]
        case Trigger(tag) =>
        case _ =>
      }
      ElementsOnlyGrowByFire(t, evs[1..]);
    }
  }

  // ---------------------------------------------------------------------------
  // Hit points and game over
  // ---------------------------------------------------------------------------

  /** hp drops by exactly the sum of the losses, in wrapping int arithmetic
      and with no clamping. */
  lemma {:induction false} HpAccounting(s: State, evs: seq<Event>)
    requires IsInt32(s.hp)
    ensures Run(s, evs).hp == Wrap32(s.hp - TotalLoss(evs))
    decreases |evs|
  {
    if evs != [] {
      var t := Step(s, evs[0]);
      var l := if evs[0].Hit? then evs[0].loss else 0;
      assert t.hp == Wrap32(s.hp - l) by {
        match evs[0]
        case Trigger(tag) =>
        case _ =>
      }
      HpAccounting(t, evs[1..]);
      WrapAddWrapped(s.hp - l, -TotalLoss(evs[1..]));
    }
  }

  /** The tail of a sequence of non-negative losses has non-negative losses. */
  lemma NonNegativeLossesTail(evs: seq<Event>)
    requires evs != [] && NonNegativeLosses(evs)
    ensures evs[0].Hit? ==> evs[0].loss >= 0
    ensures NonNegativeLosses(evs[1..])
  {
    assert evs[0] == evs[0];
    forall i | 0 <= i < |evs[1..]| && evs[1..][i].Hit?
      ensures evs[1..][i].loss >= 0
    {
      assert evs[1..][i] == evs[i + 1];
    }
  }

  lemma {:induction false} TotalLossNonNegative(evs: seq<Event>)
    requires NonNegativeLosses(evs)
    ensures TotalLoss(evs) >= 0
    decreases |evs|
  {
    if evs != [] {
      NonNegativeLossesTail(evs);
      TotalLossNonNegative(evs[1..]);
    }
  }

  /** With non-negative losses whose sum keeps hp inside the int range, no
      subtraction wraps: hp ends at its start value minus the sum, and never
      rises. */
  lemma {:induction false} HpNeverRises(s: State, evs: seq<Event>)
    requires IsInt32(s.hp) && NonNegativeLosses(evs)
    requires s.hp - TotalLoss(evs) >= IntMin
    ensures Run(s, evs).hp == s.hp - TotalLoss(evs)
    ensures Run(s, evs).hp <= s.hp
    decreases |evs|
  {
    if evs != [] {
      var t := Step(s, evs[0]);
      var l := if evs[0].Hit? then evs[0].loss else 0;
      NonNegativeLossesTail(evs);
      TotalLossNonNegative(evs[1..]);
      assert t.hp == s.hp - l by {
        match evs[0]
        case Trigger(tag) =>
        case _ =>
      }
      HpNeverRises(t, evs[1..]);
    }
  }

  /** Once hp is at most zero, GameOver is called again on every later hit
      (as long as no hit heals and hp does not wrap past the bottom of the
      int range), and on nothing else. */
  lemma {:induction false} GameOverOnEveryHitWhileDown(s: State, evs: seq<Event>)
    requires IsInt32(s.hp) && s.hp <= 0
    requires NonNegativeLosses(evs)
    requires s.hp - TotalLoss(evs) >= IntMin
    ensures Run(s, evs).gameOverCalls == s.gameOverCalls + Hits(evs)
    decreases |evs|
  {
    if evs != [] {
      var t := Step(s, evs[0]);
      var l := if evs[0].Hit? then evs[0].loss else 0;
      NonNegativeLossesTail(evs);
      TotalLossNonNegative(evs[1..]);
      assert t.hp == s.hp - l && t.gameOverCalls == s.gameOverCalls + (if evs[0].Hit? then 1 else 0) by {
        match evs[0]
        case Trigger(tag) =>
        case _ =>
      }
      GameOverOnEveryHitWhileDown(t, evs[1..]);
    }
  }

  // ---------------------------------------------------------------------------
  // Turns and moves
  // ---------------------------------------------------------------------------

  /** The move log only grows, and every entry is a one-axis step. */
  lemma {:induction false} AttemptsAreOneAxisSteps(s: State, evs: seq<Event>)
    requires OneAxisSteps(s.attempts)
    ensures s.attempts <= Run(s, evs).attempts
    ensures OneAxisSteps(Run(s, evs).attempts)
    decreases |evs|
  {
    if evs != [] {
      var t := Step(s, evs[0]);
      assert s.attempts <= t.attempts && OneAxisSteps(t.attempts) by {
        match evs[0]
        case Tick(h, v, o) =>
          if s.enabled && s.playersTurn && (h != 0 || v != 0) {
            assert t.attempts == s.attempts + [Normalize(h, v)];
          }
        case Trigger(tag) =>
        case _ =>
      }
      AttemptsAreOneAxisSteps(t, evs[1..]);
    }
  }

  /** Turn gating: the player attempts at most one move per turn it holds.
      Counting the turn it may still hold at the end, the moves never exceed
      the turns it held at the start plus the turns the manager granted. */
  lemma {:induction false} AtMostOneMovePerTurn(s: State, evs: seq<Event>)
    ensures |s.attempts| <= |Run(s, evs).attempts|
    ensures |Run(s, evs).attempts| - |s.attempts| + (if Run(s, evs).playersTurn then 1 else 0)
         <= TurnsGranted(evs) + (if s.playersTurn then 1 else 0)
    decreases |evs|
  {
    if evs != [] {
      var t := Step(s, evs[0]);
      assert |s.attempts| <= |t.attempts|;
      assert |t.attempts| - |s.attempts| + (if t.playersTurn then 1 else 0)
          <= (if evs[0] == TurnGranted then 1 else 0) + (if s.playersTurn then 1 else 0) by {
        match evs[0]
        case Trigger(tag) =>
        case _ =>
      }
      AtMostOneMovePerTurn(t, evs[1..]);
    }
  }

  /** Without the turn, and without the manager granting it, no move is ever
      attempted and the turn flag stays false. */
  lemma NoTurnNoMove(s: State, evs: seq<Event>)
    requires !s.playersTurn && TurnsGranted(evs) == 0
    ensures Run(s, evs).attempts == s.attempts
    ensures !Run(s, evs).playersTurn
  {
    AtMostOneMovePerTurn(s, evs);
    AttemptsPrefix(s, evs);
  }

  /** The move log of a run extends the log it started with. */
  lemma {:induction false} AttemptsPrefix(s: State, evs: seq<Event>)
    ensures s.attempts <= Run(s, evs).attempts
    decreases |evs|
  {
    if evs != [] {
      var t := Step(s, evs[0]);
      assert s.attempts <= t.attempts by {
        match evs[0]
        case Trigger(tag) =>
        case _ =>
      }
      AttemptsPrefix(t, evs[1..]);
    }
  }

  // ---------------------------------------------------------------------------
  // Worked examples
  // ---------------------------------------------------------------------------

  /** A fresh player (hp 10): two hits of 5 bring one GameOver, while a hit
      of 10 followed by a hit of 5 brings two, since the check runs on every
      hit. */
  lemma DamageExamples(s: State)
    requires s.hp == InitialHp
    ensures Run(s, [Hit(5), Hit(5)]).hp == 0
    ensures Run(s, [Hit(5), Hit(5)]).gameOverCalls == s.gameOverCalls + 1
    ensures Run(s, [Hit(10), Hit(5)]).gameOverCalls == s.gameOverCalls + 2
  {
  }

  /** Loading 5 coins, picking up one coin with the default reward and
      disabling stores 25, which the next Start loads. */
  lemma CoinRoundTripExample(s: State)
    requires s.playerCoinPoints == 5 && s.pointsPerCoin == DefaultPointsPerCoin
    ensures Start(OnDisable(Run(Start(s), [Trigger(CoinTag)]))).coins == 25
  {
    CoinRoundTrip(s, [Trigger(CoinTag)]);
  }
}
