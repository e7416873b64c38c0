/**
 * Sequences of user actions on the `MainGame` component and what holds
 * along them.  An action is offered only when the rendered page shows the
 * control that triggers it (src/components/MainGame.jsx:147-275).
 */
module GameRuns {
  import opened GameSpec

  /** The user actions; `roll` stands for the `Math.random` draw it causes. */
  datatype Event =
    | StartRound(roll: int)      // "Start Game" under the bet form (:181-187)
    | ChangeBet(amount: int)     // the bet input (:172-179)
    | ClickSquare(index: int)    // one of the 16 squares (:77-95)
    | PlayAgain                  // "Start Game" / "Play Again" (:191-201)
    | OpenCheckout               // "Checkout" (:202-208)
    | CashOut(roll: int)         // "Cash Out" in the checkout dialog (:262-269)
    | ContinuePlaying            // "Continue Playing" in the checkout dialog (:254-261)
    | NewGame                    // "New Game" in the end-game dialog (:262-269)

  /** The control for `e` is on the page (and enabled) in state `s`. */
  predicate Offered(s: State, e: Event)
  {
    match e
    case StartRound(roll) => s.mainStart && !s.gameStarted && 0 <= roll < SQUARES
    case ChangeBet(_) => s.mainStart && !s.gameStarted
    case ClickSquare(index) => 0 <= index < SQUARES
    case PlayAgain => !s.mainStart && !s.gameStarted
    case OpenCheckout => !s.mainStart && !s.gameStarted && s.gamesPlayed > 4
    case CashOut(roll) => s.showModal && s.modalContent == CheckoutModal && 0 <= roll < SQUARES
    case ContinuePlaying => s.showModal && s.modalContent == CheckoutModal
    case NewGame => s.showModal && s.modalContent != CheckoutModal
  }

  /** The handler each control calls. */
  function Step(s: State, e: Event): State
  {
    match e
    case StartRound(roll) => StartGame(s, roll)
    case ChangeBet(amount) => HandleChange(s, amount)
    case ClickSquare(index) => HandleSquareClick(s, index)
    case PlayAgain => MainStartAndPlayAgain(s)
    case OpenCheckout => CheckOutModalToggle(s)
    case CashOut(roll) => HandleCheckout(s, roll)
    case ContinuePlaying => HandleContinuePlaying(s)
    case NewGame => HandleEndGame(s)
  }

  /** The state after the actions `es`, one after another. */
  function Run(s: State, es: seq<Event>): State
    decreases |es|
  {
    if es == [] then s else Run(Step(s, es[0]), es[1..])
  }

  /** Every action of `es` is offered when it is taken. */
  predicate IsTrace(s: State, es: seq<Event>)
    decreases |es|
  {
    es == [] || (Offered(s, es[0]) && IsTrace(Step(s, es[0]), es[1..]))
  }

  // ---------------------------------------------------------------------
  // One action
  // ---------------------------------------------------------------------

  /** Every offered action keeps the invariant. */
  lemma StepKeepsInv(s: State, e: Event)
    requires Inv(s) && Offered(s, e)
    ensures Inv(Step(s, e))
  {
  }

  /** No action lowers the all-time high score. */
  lemma StepKeepsHighScore(s: State, e: Event)
    ensures Step(s, e).highScore >= s.highScore
  {
  }

  /**
   * The end-game dialog appears only when the purse is empty after a loss,
   * and in a reachable state that means a purse of exactly 0.
   */
  lemma EndGameOnlyWhenBroke(s: State, e: Event)
    requires Inv(s) && Offered(s, e) && !EndGameShown(s)
    requires EndGameShown(Step(s, e))
    ensures Step(s, e).coins == 0 && Step(s, e).gameResult == Lose
  {
  }

  /** Checkout is offered only after more than four games, with no round running. */
  lemma CheckoutNeedsFiveGames(s: State, e: Event)
    requires Offered(s, e) && Step(s, e).showModal && Step(s, e).modalContent == CheckoutModal
    requires !(s.showModal && s.modalContent == CheckoutModal)
    ensures e == OpenCheckout && s.gamesPlayed > 4 && !s.gameStarted
  {
  }

  /**
   * "Cash Out" (`handleCheckout`, which has no guard of its own) is offered
   * only in the checkout dialog, which a reachable state shows only after
   * more than four games.
   */
  lemma CashOutNeedsFiveGames(s: State, roll: int)
    requires Inv(s) && Offered(s, CashOut(roll))
    ensures s.gamesPlayed > 4
  {
  }

  /** Resets only happen at the resets: other actions never narrow the session extrema. */
  lemma StepExtremaMonotone(s: State, e: Event)
    requires !e.CashOut? && !e.NewGame?
    ensures Step(s, e).lowestPurse <= s.lowestPurse
    ensures Step(s, e).highestPurse >= s.highestPurse
  {
  }

  // ---------------------------------------------------------------------
  // Whole runs
  // ---------------------------------------------------------------------

  lemma {:induction false} RunAppend(s: State, a: seq<Event>, b: seq<Event>)
    ensures Run(s, a + b) == Run(Run(s, a), b)
    ensures IsTrace(s, a + b) <==> IsTrace(s, a) && IsTrace(Run(s, a), b)
    decreases |a|
  {
    if a != [] {
      assert (a + b)[0] == a[0];
      assert (a + b)[1..] == a[1..] + b;
      RunAppend(Step(s, a[0]), a[1..], b);
    } else {
      assert a + b == b;
    }
  }

  /** Every state reachable by offered actions satisfies the invariant. */
  lemma {:induction false} RunKeepsInv(s: State, es: seq<Event>)
    requires Inv(s) && IsTrace(s, es)
    ensures Inv(Run(s, es))
    decreases |es|
  {
    if es != [] {
      StepKeepsInv(s, es[0]);
      RunKeepsInv(Step(s, es[0]), es[1..]);
    }
  }

  /** The all-time high score never decreases, whatever the user does. */
  lemma {:induction false} RunKeepsHighScore(s: State, es: seq<Event>)
    ensures Run(s, es).highScore >= s.highScore
    decreases |es|
  {
    if es != [] {
      StepKeepsHighScore(s, es[0]);
      RunKeepsHighScore(Step(s, es[0]), es[1..]);
    }
  }

  /** Along actions that never cash out or start a new game, the extrema only widen. */
  lemma {:induction false} RunExtremaMonotone(s: State, es: seq<Event>)
    requires NoReset(es)
    ensures Run(s, es).lowestPurse <= s.lowestPurse
    ensures Run(s, es).highestPurse >= s.highestPurse
    decreases |es|
  {
    if es != [] {
      StepExtremaMonotone(s, es[0]);
      assert NoReset(es[1..]) by {
        forall k | 0 <= k < |es[1..]| ensures !es[1..][k].CashOut? && !es[1..][k].NewGame? {
          assert es[1..][k] == es[k + 1];
        }
      }
      RunExtremaMonotone(Step(s, es[0]), es[1..]);
    }
  }

  /** No action of `es` cashes out or starts a new game. */
  predicate NoReset(es: seq<Event>)
  {
    forall k :: 0 <= k < |es| ==> !es[k].CashOut? && !es[k].NewGame?
  }

  /**
   * The session's lowest and highest purse bound every purse seen since
   * the last reset: the purse after each prefix of a run without resets
   * lies between the extrema at its end.
   */
  lemma ExtremaBoundEveryPurse(s: State, es: seq<Event>, i: nat)
    requires Inv(s) && IsTrace(s, es) && NoReset(es) && i <= |es|
    ensures Run(s, es).lowestPurse <= Run(s, es[..i]).coins <= Run(s, es).highestPurse
  {
    var mid := Run(s, es[..i]);
    assert es == es[..i] + es[i..];
    RunAppend(s, es[..i], es[i..]);
    RunKeepsInv(s, es[..i]);
    assert NoReset(es[i..]) by {
      forall k | 0 <= k < |es[i..]| ensures !es[i..][k].CashOut? && !es[i..][k].NewGame? {
        assert es[i..][k] == es[i + k];
      }
    }
    RunExtremaMonotone(mid, es[i..]);
  }

  /**
   * In every run from the first render, each "Cash Out" happens after
   * more than four games.
   */
  lemma CashOutOnlyAfterFiveGames(storedHighScore: Option<int>, es: seq<Event>, i: nat)
    requires IsTrace(Initial(storedHighScore), es) && i < |es| && es[i].CashOut?
    ensures Run(Initial(storedHighScore), es[..i]).gamesPlayed > 4
  {
    var s := Initial(storedHighScore);
    assert es == es[..i] + es[i..];
    RunAppend(s, es[..i], es[i..]);
    RunKeepsInv(s, es[..i]);
    var mid := Run(s, es[..i]);
    assert es[i..][0] == es[i];
    CashOutNeedsFiveGames(mid, es[i].roll);
  }

  /**
   * From the first render on: the purse is never negative, the extrema
   * and the high score bound it, a round never records more than eight
   * distinct squares, and the stored high score is never lowered.
   */
  lemma ReachableStates(storedHighScore: Option<int>, es: seq<Event>)
    requires IsTrace(Initial(storedHighScore), es)
    ensures var r := Run(Initial(storedHighScore), es);
      && 0 <= r.coins
      && r.lowestPurse <= r.coins <= r.highestPurse && r.coins <= r.highScore
      && |r.clickedSquares| <= MAX_CLICKS && Distinct(r.clickedSquares)
      && r.highScore >= Initial(storedHighScore).highScore
  {
    RunKeepsInv(Initial(storedHighScore), es);
    RunKeepsHighScore(Initial(storedHighScore), es);
  }

  // ---------------------------------------------------------------------
  // Rounds: the order of the misses does not matter
  // ---------------------------------------------------------------------

  /** Clicking the squares `cs` one by one. */
  function Clicks(cs: seq<int>): (es: seq<Event>)
    ensures |es| == |cs|
    decreases |cs|
  {
    if cs == [] then [] else [ClickSquare(cs[0])] + Clicks(cs[1..])
  }

  /** `cs` are distinct squares of the grid, none the winner and none clicked yet. */
  predicate Misses(s: State, cs: seq<int>)
  {
    && Distinct(cs)
    && forall k :: 0 <= k < |cs| ==>
         0 <= cs[k] < SQUARES && !IsHit(s, cs[k]) && cs[k] !in s.clickedSquares
  }

  /** Misses that leave the round open only record the squares. */
  lemma {:induction false} MissesOnlyRecord(s: State, cs: seq<int>)
    requires Inv(s) && s.gameStarted && Misses(s, cs)
    requires |s.clickedSquares| + |cs| < MAX_CLICKS
    ensures IsTrace(s, Clicks(cs))
    ensures Run(s, Clicks(cs)) == s.(clickedSquares := s.clickedSquares + cs)
    decreases |cs|
  {
    if cs == [] {
      assert s.clickedSquares + cs == s.clickedSquares;
    } else {
      var s1 := HandleSquareClick(s, cs[0]);
      assert s1 == s.(clickedSquares := s.clickedSquares + [cs[0]]);
      StepKeepsInv(s, ClickSquare(cs[0]));
      var rest := cs[1..];
      forall k | 0 <= k < |rest|
        ensures rest[k] !in s1.clickedSquares
      {
        assert rest[k] == cs[k + 1];
      }
      assert Misses(s1, rest);
      MissesOnlyRecord(s1, rest);
      assert s.clickedSquares + [cs[0]] + rest == s.clickedSquares + cs;
    }
  }

  /**
   * Clicking the winning square pays twice the bet and wins the round,
   * however many squares were missed before it.
   */
  lemma WinAfterMisses(s: State, cs: seq<int>)
    requires Inv(s) && s.gameStarted && Misses(s, cs)
    requires |s.clickedSquares| + |cs| < MAX_CLICKS
    ensures var es := Clicks(cs) + [ClickSquare(s.winningSquare.value)];
      && IsTrace(s, es)
      && Run(s, es).coins == s.coins + 2 * s.bet
      && Run(s, es).gameResult == Win
      && Run(s, es).gamesPlayed == s.gamesPlayed + 1
      && !Run(s, es).gameStarted && !Run(s, es).mainStart
  {
    var w := s.winningSquare.value;
    MissesOnlyRecord(s, cs);
    var mid := Run(s, Clicks(cs));
    assert w !in mid.clickedSquares;
    RunAppend(s, Clicks(cs), [ClickSquare(w)]);
    assert Run(mid, [ClickSquare(w)]) == HandleSquareClick(mid, w);
    assert IsTrace(mid, [ClickSquare(w)]);
  }

  /**
   * Eight misses in a row lose the round; the purse keeps only what was
   * left after the bet was deducted.
   */
  lemma LoseAfterEightMisses(s: State, cs: seq<int>)
    requires Inv(s) && s.gameStarted && Misses(s, cs)
    requires |s.clickedSquares| + |cs| == MAX_CLICKS
    ensures IsTrace(s, Clicks(cs))
    ensures var r := Run(s, Clicks(cs));
      && r.coins == s.coins && r.gameResult == Lose
      && r.bet == Min(s.coins, s.bet)
      && r.gamesPlayed == s.gamesPlayed + 1
      && !r.gameStarted && !r.mainStart
      && (s.coins == 0 ==> EndGameShown(r))
  {
    var n := |cs| - 1;
    var init, last := cs[..n], cs[n];
    MissesSplit(s, cs);
    MissesOnlyRecord(s, init);
    var mid := Run(s, Clicks(init));
    assert mid == s.(clickedSquares := s.clickedSquares + init);
    LastMissLoses(s, mid, last);
    ClicksAppend(init, last);
    assert cs == init + [last];
    RunAppend(s, Clicks(init), [ClickSquare(last)]);
  }

  /** The miss that brings the round to eight clicked squares. */
  lemma LastMissLoses(s: State, mid: State, last: int)
    requires Inv(s) && s.gameStarted
    requires mid.(clickedSquares := s.clickedSquares) == s
    requires |mid.clickedSquares| + 1 == MAX_CLICKS
    requires 0 <= last < SQUARES && !IsHit(s, last) && last !in mid.clickedSquares
    ensures IsTrace(mid, [ClickSquare(last)])
    ensures var r := Run(mid, [ClickSquare(last)]);
      && r.coins == s.coins && r.gameResult == Lose
      && r.bet == Min(s.coins, s.bet)
      && r.gamesPlayed == s.gamesPlayed + 1
      && !r.gameStarted && !r.mainStart
      && (s.coins == 0 ==> EndGameShown(r))
  {
    assert Run(mid, [ClickSquare(last)]) == HandleSquareClick(mid, last);
  }

  /** Splitting off the last of a run of misses. */
  lemma MissesSplit(s: State, cs: seq<int>)
    requires Misses(s, cs) && |cs| > 0
    ensures Misses(s, cs[..|cs| - 1])
    ensures cs[|cs| - 1] !in s.clickedSquares + cs[..|cs| - 1]
    ensures 0 <= cs[|cs| - 1] < SQUARES && !IsHit(s, cs[|cs| - 1])
  {
  }

  lemma {:induction false} ClicksAppend(cs: seq<int>, c: int)
    ensures Clicks(cs + [c]) == Clicks(cs) + [ClickSquare(c)]
    decreases |cs|
  {
    if cs == [] {
      assert [c][1..] == [];
    } else {
      assert (cs + [c])[1..] == cs[1..] + [c];
      ClicksAppend(cs[1..], c);
    }
  }

  // ---------------------------------------------------------------------
  // Worked rounds
  // ---------------------------------------------------------------------

  /** With 100 coins and a bet of 20, starting leaves 80 and a first-click win leaves 120. */
  lemma WinningRoundExample(s: State, roll: int)
    requires Inv(s) && s.mainStart && !s.gameStarted && s.coins == 100 && s.bet == 20
    requires 0 <= roll < SQUARES
    ensures StartGame(s, roll).coins == 80
    ensures HandleSquareClick(StartGame(s, roll), roll).coins == 120
    ensures HandleSquareClick(StartGame(s, roll), roll).gameResult == Win
  {
  }

  /**
   * Betting the whole purse and missing eight times empties it, opens the
   * end-game dialog, and "New Game" restores a purse of 100.
   */
  lemma BankruptRoundExample(s: State, roll: int, cs: seq<int>)
    requires Inv(s) && s.mainStart && !s.gameStarted && s.coins == 100 && s.bet == 100
    requires 0 <= roll < SQUARES
    requires |cs| == MAX_CLICKS && Misses(StartGame(s, roll), cs)
    ensures var lost := Run(s, [StartRound(roll)] + Clicks(cs));
      && IsTrace(s, [StartRound(roll)] + Clicks(cs))
      && lost.coins == 0 && lost.gameResult == Lose && EndGameShown(lost)
      && Offered(lost, NewGame)
      && HandleEndGame(lost).coins == STARTING_PURSE
      && HandleEndGame(lost).gamesPlayed == 0
  {
    var started := StartGame(s, roll);
    StepKeepsInv(s, StartRound(roll));
    LoseAfterEightMisses(started, cs);
    RunAppend(s, [StartRound(roll)], Clicks(cs));
    assert Run(s, [StartRound(roll)]) == started;
    assert IsTrace(s, [StartRound(roll)]);
  }
}
