/**
 * The `MainGame` component (src/components/MainGame.jsx) as an object: one
 * field per `useState` hook and one method per event handler and effect.
 * Each method is proved to produce the next render's snapshot that the
 * matching function of `GameSpec` describes, and to keep `GameSpec.Inv`.
 */
module MainGameComponent {
  import opened GameSpec
  import GameRuns

  class MainGame {
    var coins: int
    var bet: int
    var tempBet: int
    var gameStarted: bool
    var mainStart: bool
    var winningSquare: Option<int>
    var clickedSquares: seq<int>
    var gameResult: Outcome
    var gamesPlayed: nat
    var highScore: int
    var highestPurse: int
    var lowestPurse: int
    var showModal: bool
    var modalContent: ModalContent

    /** The current render's state. */
    function Snapshot(): State
      reads this
    {
      State(coins, bet, tempBet, gameStarted, mainStart, winningSquare, clickedSquares, gameResult,
            gamesPlayed, highScore, highestPurse, lowestPurse, showModal, modalContent)
    }

    ghost predicate Valid()
      reads this
    {
      Inv(Snapshot())
    }

    /**
     * The first render (:4-19) followed by the mount-time effects;
     * `storedHighScore` is the parsed stored high score, if any.
     */
    constructor (storedHighScore: Option<int>)
      ensures Valid()
      ensures Snapshot() == Initial(storedHighScore)
    {
      coins := STARTING_PURSE;
      bet := 0;
      tempBet := 0;
      gameStarted := false;
      mainStart := false;
      winningSquare := None;
      clickedSquares := [];
      gameResult := Pending;
      gamesPlayed := 0;
      highScore := if storedHighScore.Some? && storedHighScore.value != 0 then storedHighScore.value
                   else DEFAULT_HIGH_SCORE;
      highestPurse := STARTING_PURSE;
      lowestPurse := STARTING_PURSE;
      showModal := false;
      modalContent := Blank;
      new;
      ExtremaEffect();
    }

    // -------------------------------------------------------------------
    // The `useState` setters (:4-19); each replaces one field
    // -------------------------------------------------------------------

    method SetCoins(v: int)
      modifies this
      ensures Snapshot() == old(Snapshot()).(coins := v)
    {
      coins := v;
    }
    method SetBet(v: int)
      modifies this
      ensures Snapshot() == old(Snapshot()).(bet := v)
    {
      bet := v;
    }
    method SetTempBet(v: int)
      modifies this
      ensures Snapshot() == old(Snapshot()).(tempBet := v)
    {
      tempBet := v;
    }
    method SetGameStarted(v: bool)
      modifies this
      ensures Snapshot() == old(Snapshot()).(gameStarted := v)
    {
      gameStarted := v;
    }
    method SetMainStart(v: bool)
      modifies this
      ensures Snapshot() == old(Snapshot()).(mainStart := v)
    {
      mainStart := v;
    }
    method SetWinningSquare(v: Option<int>)
      modifies this
      ensures Snapshot() == old(Snapshot()).(winningSquare := v)
    {
      winningSquare := v;
    }
    method SetClickedSquares(v: seq<int>)
      modifies this
      ensures Snapshot() == old(Snapshot()).(clickedSquares := v)
    {
      clickedSquares := v;
    }
    method SetGameResult(v: Outcome)
      modifies this
      ensures Snapshot() == old(Snapshot()).(gameResult := v)
    {
      gameResult := v;
    }
    method SetGamesPlayed(v: nat)
      modifies this
      ensures Snapshot() == old(Snapshot()).(gamesPlayed := v)
    {
      gamesPlayed := v;
    }
    method SetHighScore(v: int)
      modifies this
      ensures Snapshot() == old(Snapshot()).(highScore := v)
    {
      highScore := v;
    }
    method SetHighestPurse(v: int)
      modifies this
      ensures Snapshot() == old(Snapshot()).(highestPurse := v)
    {
      highestPurse := v;
    }
    method SetLowestPurse(v: int)
      modifies this
      ensures Snapshot() == old(Snapshot()).(lowestPurse := v)
    {
      lowestPurse := v;
    }
    method SetShowModal(v: bool)
      modifies this
      ensures Snapshot() == old(Snapshot()).(showModal := v)
    {
      showModal := v;
    }
    method SetModalContent(v: ModalContent)
      modifies this
      ensures Snapshot() == old(Snapshot()).(modalContent := v)
    {
      modalContent := v;
    }

    // -------------------------------------------------------------------
    // Effects (:21-45); each reads the render it runs after
    // -------------------------------------------------------------------

    /** The winning-square effect (:21-25) after the render that followed `prev`. */
    method WinningSquareEffect(prev: State, roll: int)
      modifies this
      ensures Snapshot() == GameSpec.WinningSquareEffect(prev, old(Snapshot()), roll)
    {
      if !prev.gameStarted && gameStarted {
        SetWinningSquare(Some(roll));
      }
    }

    /** The extrema and high-score effect (:27-38). */
    method ExtremaEffect()
      modifies this
      ensures PurseBounded(Snapshot())
      ensures highScore >= old(highScore)
      ensures Snapshot() == GameSpec.ExtremaEffect(old(Snapshot()))
    {
      var s := Snapshot();
      if s.coins < s.lowestPurse {
        SetLowestPurse(s.coins);
      }
      if s.coins > s.highestPurse {
        SetHighestPurse(s.coins);
      }
      if s.coins > s.highScore {
        SetHighScore(s.coins);
      }
    }

    /** The end-game effect (:40-45). */
    method EndGameEffect()
      modifies this
      ensures Snapshot() == GameSpec.EndGameEffect(old(Snapshot()))
    {
      if coins <= 0 && gameResult == Lose {
        SetModalContent(EndGameModal);
        SetShowModal(true);
      }
    }

    /** Runs the effects whose dependencies differ from those of the render `prev`. */
    method AfterRender(prev: State)
      modifies this
      ensures Snapshot() == GameSpec.AfterRender(prev, old(Snapshot()))
    {
      if coins != prev.coins || lowestPurse != prev.lowestPurse
         || highestPurse != prev.highestPurse || highScore != prev.highScore
      {
        ExtremaEffect();
      }
      if coins != prev.coins || gameResult != prev.gameResult {
        EndGameEffect();
      }
    }

    // -------------------------------------------------------------------
    // Event handlers (:47-145).  A handler reads the render it was created
    // in (`s`), whatever its setters have queued.
    // -------------------------------------------------------------------

    /** `startGame` (:47-54), offered under the bet form; `roll` is the random square. */
    method StartGame(roll: int)
      requires Valid() && GameRuns.Offered(Snapshot(), GameRuns.StartRound(roll))
      modifies this
      ensures Valid()
      ensures Snapshot() == GameSpec.StartGame(old(Snapshot()), roll)
    {
      var s := Snapshot();
      StartGameKeepsInv(s, roll);
      if s.bet > 0 && s.bet <= s.coins {
        SetGameStarted(true);
        SetCoins(s.coins - s.bet);
        SetClickedSquares([]);
        SetGameResult(Pending);
        assert Snapshot() == GameSpec.StartRender(s);
        WinningSquareEffect(s, roll);
        AfterRender(s);
      }
    }

    /** `handleSquareClick` (:56-75). */
    method HandleSquareClick(index: int)
      requires Valid() && GameRuns.Offered(Snapshot(), GameRuns.ClickSquare(index))
      modifies this
      ensures Valid()
      ensures Snapshot() == GameSpec.HandleSquareClick(old(Snapshot()), index)
    {
      var s := Snapshot();
      HandleSquareClickKeepsInv(s, index);
      if !s.gameStarted || index in s.clickedSquares {
        return;
      }
      var newClickedSquares := s.clickedSquares + [index];
      SetClickedSquares(newClickedSquares);
      if s.winningSquare == Some(index) {
        SetCoins(s.coins + s.bet * 2);
        SetGameResult(Win);
        SetGamesPlayed(s.gamesPlayed + 1);
        SetGameStarted(false);
        SetMainStart(false);
      } else if |newClickedSquares| == MAX_CLICKS {
        SetGameResult(Lose);
        SetBet(if s.coins < s.bet then s.coins else s.bet);
        SetGamesPlayed(s.gamesPlayed + 1);
        SetGameStarted(false);
        SetMainStart(false);
      }
      assert Snapshot() == GameSpec.ClickRender(s, index);
      AfterRender(s);
    }

    /** `mainStartandPlayAgain` (:98-102). */
    method MainStartAndPlayAgain()
      requires Valid() && GameRuns.Offered(Snapshot(), GameRuns.PlayAgain)
      modifies this
      ensures Valid()
      ensures Snapshot() == GameSpec.MainStartAndPlayAgain(old(Snapshot()))
      ensures mainStart && gameResult == Pending && clickedSquares == []
    {
      var s := Snapshot();
      MainStartAndPlayAgainKeepsInv(s);
      SetMainStart(true);
      SetGameResult(Pending);
      SetClickedSquares([]);
      assert Snapshot() == GameSpec.PlayAgainRender(s);
      AfterRender(s);
    }

    /** `handleChange` (:104-107), given the parsed bet. */
    method HandleChange(amount: int)
      requires Valid() && GameRuns.Offered(Snapshot(), GameRuns.ChangeBet(amount))
      modifies this
      ensures Valid()
      ensures Snapshot() == GameSpec.HandleChange(old(Snapshot()), amount)
      ensures bet == amount && tempBet == amount
    {
      HandleChangeKeepsInv(Snapshot(), amount);
      SetBet(amount);
      SetTempBet(amount);
    }

    /**
     * `handleCheckout` (:109-124); it starts a round, so `roll` is the
     * random square.  The high score is raised to the purse when the purse
     * is larger (:111-114); the extrema effect has always done so already.
     */
    method HandleCheckout(roll: int)
      requires Valid() && GameRuns.Offered(Snapshot(), GameRuns.CashOut(roll))
      modifies this
      ensures Valid()
      ensures Snapshot() == GameSpec.HandleCheckout(old(Snapshot()), roll)
      ensures highScore == Max(old(highScore), old(coins))
    {
      var s := Snapshot();
      HandleCheckoutKeepsInv(s, roll);
      SetHighScore(if s.coins > s.highScore then s.coins else s.highScore);
      SetCoins(STARTING_PURSE);
      SetHighestPurse(STARTING_PURSE);
      SetLowestPurse(STARTING_PURSE);
      SetGamesPlayed(0);
      SetBet(0);
      SetGameResult(Pending);
      SetClickedSquares([]);
      SetGameStarted(true);
      SetShowModal(false);
      assert Snapshot() == GameSpec.CheckoutRender(s);
      WinningSquareEffect(s, roll);
      AfterRender(s);
    }

    /** `checkOutModalToggle` (:126-129), offered after more than four games. */
    method CheckOutModalToggle()
      requires Valid() && GameRuns.Offered(Snapshot(), GameRuns.OpenCheckout)
      modifies this
      ensures Valid()
      ensures Snapshot() == GameSpec.CheckOutModalToggle(old(Snapshot()))
      ensures showModal && modalContent == CheckoutModal
    {
      SetModalContent(CheckoutModal);
      SetShowModal(true);
    }

    /** `handleEndGame` (:131-141), offered in the end-game dialog. */
    method HandleEndGame()
      requires Valid() && GameRuns.Offered(Snapshot(), GameRuns.NewGame)
      modifies this
      ensures Valid()
      ensures Snapshot() == GameSpec.HandleEndGame(old(Snapshot()))
    {
      var s := Snapshot();
      HandleEndGameKeepsInv(s);
      SetCoins(STARTING_PURSE);
      SetHighestPurse(STARTING_PURSE);
      SetLowestPurse(STARTING_PURSE);
      SetGamesPlayed(0);
      SetMainStart(false);
      SetGameResult(Pending);
      SetClickedSquares([]);
      SetShowModal(false);
      assert Snapshot() == GameSpec.EndGameRender(s);
      AfterRender(s);
    }

    /** `handleContinuePlaying` (:143-145), offered in the checkout dialog. */
    method HandleContinuePlaying()
      requires Valid() && GameRuns.Offered(Snapshot(), GameRuns.ContinuePlaying)
      modifies this
      ensures Valid()
      ensures Snapshot() == GameSpec.HandleContinuePlaying(old(Snapshot()))
      ensures !showModal
    {
      SetShowModal(false);
    }
  }
}
