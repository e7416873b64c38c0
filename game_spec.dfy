/**
 * Value-level model of the betting-round state machine of the `MainGame`
 * component (src/components/MainGame.jsx).
 *
 * `State` is one render's snapshot of all `useState` fields.  Every event
 * handler is a function from the snapshot it reads to the snapshot of the
 * next render; React setters take effect only at that next render, so each
 * handler reads the old snapshot throughout.  The three `useEffect` hooks
 * run after the render in which one of their dependencies changed.
 */
module GameSpec {

  datatype Option<T> = None | Some(value: T)

  /** `gameResult`: null, "win" or "lose". */
  datatype Outcome = Pending | Win | Lose

  /** `modalContent`: "", "checkout" or "endgame". */
  datatype ModalContent = Blank | CheckoutModal | EndGameModal

  /** The grid has 16 squares; a round is lost after 8 misses. */
  const SQUARES := 16
  const MAX_CLICKS := 8
  /** The purse and both purse extrema start at (and reset to) 100. */
  const STARTING_PURSE := 100
  /** High score used when none is stored (or the stored one is 0). */
  const DEFAULT_HIGH_SCORE := 100

  datatype State = State(
    coins: int,
    bet: int,
    tempBet: int,
    gameStarted: bool,
    mainStart: bool,
    winningSquare: Option<int>,
    clickedSquares: seq<int>,
    gameResult: Outcome,
    gamesPlayed: nat,
    highScore: int,
    highestPurse: int,
    lowestPurse: int,
    showModal: bool,
    modalContent: ModalContent)

  function Min(a: int, b: int): int { if a < b then a else b }

  function Max(a: int, b: int): int { if a > b then a else b }

  predicate Distinct(s: seq<int>)
  {
    forall j, k :: 0 <= j < k < |s| ==> s[j] != s[k]
  }

  /** The extrema and the high score bound the purse. */
  predicate PurseBounded(s: State)
  {
    s.lowestPurse <= s.coins <= s.highestPurse && s.coins <= s.highScore
  }

  /** The end-game dialog is on screen. */
  predicate EndGameShown(s: State)
  {
    s.showModal && s.modalContent == EndGameModal
  }

  /** What holds of every reachable snapshot. */
  predicate Inv(s: State)
  {
    && 0 <= s.coins
    && PurseBounded(s)
    && STARTING_PURSE <= s.highScore
    && |s.clickedSquares| <= MAX_CLICKS
    && Distinct(s.clickedSquares)
    && (forall k :: 0 <= k < |s.clickedSquares| ==> 0 <= s.clickedSquares[k] < SQUARES)
    && (s.gameStarted ==>
          && 0 <= s.bet
          && |s.clickedSquares| < MAX_CLICKS
          && s.winningSquare.Some?
          && 0 <= s.winningSquare.value < SQUARES
          && s.winningSquare.value !in s.clickedSquares
          && s.gameResult == Pending)
    && (s.showModal && s.modalContent == CheckoutModal ==> s.gamesPlayed > 4)
  }

  // ---------------------------------------------------------------------
  // Effects (MainGame.jsx:21-45)
  // ---------------------------------------------------------------------

  /**
   * The winning-square effect (:21-25): when `gameStarted` turns true the
   * square `roll` (the value of `Math.floor(Math.random() * 16)`) is chosen.
   */
  function WinningSquareEffect(prev: State, next: State, roll: int): (r: State)
    ensures r.(winningSquare := next.winningSquare) == next
  {
    if !prev.gameStarted && next.gameStarted then next.(winningSquare := Some(roll)) else next
  }

  /** The extrema and high-score effect (:27-38). */
  function ExtremaEffect(s: State): (r: State)
    ensures PurseBounded(r)
    ensures r.lowestPurse <= s.lowestPurse && r.highestPurse >= s.highestPurse
    ensures r.highScore >= s.highScore
    ensures r.lowestPurse in {s.lowestPurse, s.coins} && r.highestPurse in {s.highestPurse, s.coins}
    ensures r.highScore in {s.highScore, s.coins}
    ensures PurseBounded(s) ==> r == s
    ensures r.(lowestPurse := s.lowestPurse, highestPurse := s.highestPurse, highScore := s.highScore) == s
  {
    s.(lowestPurse := if s.coins < s.lowestPurse then s.coins else s.lowestPurse,
       highestPurse := if s.coins > s.highestPurse then s.coins else s.highestPurse,
       highScore := if s.coins > s.highScore then s.coins else s.highScore)
  }

  /** The end-game effect (:40-45): an empty purse after a loss opens the end-game dialog. */
  function EndGameEffect(s: State): (r: State)
    ensures EndGameShown(r) <==> EndGameShown(s) || (s.coins <= 0 && s.gameResult == Lose)
    ensures !(s.coins <= 0 && s.gameResult == Lose) ==> r == s
    ensures r.(showModal := s.showModal, modalContent := s.modalContent) == s
  {
    if s.coins <= 0 && s.gameResult == Lose then s.(modalContent := EndGameModal, showModal := true) else s
  }

  /** One of the extrema effect's dependencies (:38) changed between the two renders. */
  predicate ExtremaDepsChanged(prev: State, next: State)
  {
    next.coins != prev.coins || next.lowestPurse != prev.lowestPurse
    || next.highestPurse != prev.highestPurse || next.highScore != prev.highScore
  }

  /** One of the end-game effect's dependencies (:45) changed between the two renders. */
  predicate EndGameDepsChanged(prev: State, next: State)
  {
    next.coins != prev.coins || next.gameResult != prev.gameResult
  }

  /**
   * The effects that follow a handler's render: each runs only when one of
   * its dependencies differs from the previous render.
   */
  function AfterRender(prev: State, next: State): (r: State)
    ensures r.(lowestPurse := next.lowestPurse, highestPurse := next.highestPurse, highScore := next.highScore,
               showModal := next.showModal, modalContent := next.modalContent) == next
    ensures r.highScore >= next.highScore
    ensures r.lowestPurse <= next.lowestPurse && r.highestPurse >= next.highestPurse
    ensures r.lowestPurse in {next.lowestPurse, next.coins} && r.highestPurse in {next.highestPurse, next.coins}
    ensures r.highScore in {next.highScore, next.coins}
    ensures ExtremaDepsChanged(prev, next) || PurseBounded(next) ==> PurseBounded(r)
    ensures !ExtremaDepsChanged(prev, next) ==>
              r.lowestPurse == next.lowestPurse && r.highestPurse == next.highestPurse && r.highScore == next.highScore
    ensures EndGameShown(r) <==>
              EndGameShown(next) || (EndGameDepsChanged(prev, next) && next.coins <= 0 && next.gameResult == Lose)
    ensures !(EndGameDepsChanged(prev, next) && next.coins <= 0 && next.gameResult == Lose) ==>
              r.showModal == next.showModal && r.modalContent == next.modalContent
  {
    var settled := if ExtremaDepsChanged(prev, next) then ExtremaEffect(next) else next;
    if EndGameDepsChanged(prev, next) then EndGameEffect(settled) else settled
  }

  /**
   * The render that the effects' own setters cause runs the effects again
   * (the extrema effect lists `highScore` and the extrema among its
   * dependencies); that second pass changes nothing, so one pass is the
   * state React settles on.
   */
  lemma EffectsSettle(prev: State, next: State)
    ensures AfterRender(next, AfterRender(prev, next)) == AfterRender(prev, next)
  {
  }

  /**
   * The state of the first render: the `useState` initial values (:4-19),
   * after the mount-time run of the effects.  `storedHighScore` is the
   * parsed `localStorage` value, `None` when it is absent or not a number;
   * `|| 100` also replaces a stored 0.
   */
  function Initial(storedHighScore: Option<int>): (r: State)
    ensures Inv(r)
    ensures r.coins == STARTING_PURSE && r.highestPurse == STARTING_PURSE && r.lowestPurse == STARTING_PURSE
    ensures r.bet == 0 && r.tempBet == 0 && r.gamesPlayed == 0
    ensures !r.gameStarted && !r.mainStart && r.winningSquare == None
    ensures r.clickedSquares == [] && r.gameResult == Pending
    ensures !r.showModal && r.modalContent == Blank
    ensures r.highScore >= STARTING_PURSE
    ensures storedHighScore.Some? && storedHighScore.value >= STARTING_PURSE ==> r.highScore == storedHighScore.value
    ensures storedHighScore.Some? && storedHighScore.value < STARTING_PURSE ==> r.highScore == STARTING_PURSE
    ensures storedHighScore.None? ==> r.highScore == DEFAULT_HIGH_SCORE
  {
    var high := if storedHighScore.Some? && storedHighScore.value != 0 then storedHighScore.value
                else DEFAULT_HIGH_SCORE;
    ExtremaEffect(State(STARTING_PURSE, 0, 0, false, false, None, [], Pending, 0,
                        high, STARTING_PURSE, STARTING_PURSE, false, Blank))
  }

  // ---------------------------------------------------------------------
  // Event handlers (MainGame.jsx:47-145)
  // ---------------------------------------------------------------------

  /** `startGame` (:47-54); `roll` is the square the winning-square effect picks. */
  function StartGame(s: State, roll: int): (r: State)
    ensures 0 < s.bet <= s.coins ==>
              && r.coins == s.coins - s.bet
              && r.gameStarted && r.clickedSquares == [] && r.gameResult == Pending
              && (!s.gameStarted ==> r.winningSquare == Some(roll))
              && (s.gameStarted ==> r.winningSquare == s.winningSquare)
              && r.bet == s.bet && r.tempBet == s.tempBet
              && r.gamesPlayed == s.gamesPlayed && r.mainStart == s.mainStart
              && r.highScore == Max(s.highScore, r.coins) && r.highestPurse == Max(s.highestPurse, r.coins)
              && r.lowestPurse == Min(s.lowestPurse, r.coins)
              && r.showModal == s.showModal && r.modalContent == s.modalContent
    ensures !(0 < s.bet <= s.coins) ==> r == s
  {
    if s.bet > 0 && s.bet <= s.coins then AfterRender(s, WinningSquareEffect(s, StartRender(s), roll)) else s
  }

  /** The render `startGame` requests for an accepted bet, before the effects. */
  function StartRender(s: State): State
  {
    s.(gameStarted := true, coins := s.coins - s.bet, clickedSquares := [], gameResult := Pending)
  }

  /** Clicking `index` hits the winning square. */
  predicate IsHit(s: State, index: int)
  {
    s.winningSquare == Some(index)
  }

  /** `handleSquareClick` (:56-75). */
  function HandleSquareClick(s: State, index: int): (r: State)
    ensures !s.gameStarted || index in s.clickedSquares ==> r == s
    ensures s.gameStarted && index !in s.clickedSquares ==> r.clickedSquares == s.clickedSquares + [index]
    // a hit pays twice the bet and ends the round, whatever was clicked before
    ensures s.gameStarted && index !in s.clickedSquares && IsHit(s, index) ==>
              && r.coins == s.coins + 2 * s.bet && r.gameResult == Win
              && r.gamesPlayed == s.gamesPlayed + 1 && !r.gameStarted && !r.mainStart
              && r.bet == s.bet && r.tempBet == s.tempBet && r.winningSquare == s.winningSquare
              && (PurseBounded(s) ==>
                    && r.highScore == Max(s.highScore, r.coins)
                    && r.highestPurse == Max(s.highestPurse, r.coins)
                    && r.lowestPurse == Min(s.lowestPurse, r.coins))
              && r.showModal == s.showModal && r.modalContent == s.modalContent
    // the eighth miss loses the round: the purse keeps the deducted bet
    ensures s.gameStarted && index !in s.clickedSquares && !IsHit(s, index)
            && |s.clickedSquares| + 1 == MAX_CLICKS ==>
              && r.coins == s.coins && r.gameResult == Lose
              && r.bet == Min(s.coins, s.bet)
              && r.gamesPlayed == s.gamesPlayed + 1 && !r.gameStarted && !r.mainStart
              && r.tempBet == s.tempBet && r.winningSquare == s.winningSquare
              && r.highScore == s.highScore && r.highestPurse == s.highestPurse && r.lowestPurse == s.lowestPurse
              && (s.coins <= 0 && s.gameResult != Lose ==> EndGameShown(r))
              && (s.coins > 0 ==> r.showModal == s.showModal && r.modalContent == s.modalContent)
    // any other miss only records the square
    ensures s.gameStarted && index !in s.clickedSquares && !IsHit(s, index)
            && |s.clickedSquares| + 1 != MAX_CLICKS ==>
              r == s.(clickedSquares := s.clickedSquares + [index])
  {
    if !s.gameStarted || index in s.clickedSquares then s else AfterRender(s, ClickRender(s, index))
  }

  /** The render `handleSquareClick` requests for a square not yet clicked, before the effects. */
  function ClickRender(s: State, index: int): State
  {
    var clicked := s.clickedSquares + [index];
    if IsHit(s, index) then
      s.(clickedSquares := clicked, coins := s.coins + s.bet * 2, gameResult := Win,
         gamesPlayed := s.gamesPlayed + 1, gameStarted := false, mainStart := false)
    else if |clicked| == MAX_CLICKS then
      s.(clickedSquares := clicked, gameResult := Lose,
         bet := if s.coins < s.bet then s.coins else s.bet,
         gamesPlayed := s.gamesPlayed + 1, gameStarted := false, mainStart := false)
    else
      s.(clickedSquares := clicked)
  }

  /** `mainStartandPlayAgain` (:98-102): shows the bet form and clears the last round. */
  function MainStartAndPlayAgain(s: State): (r: State)
    ensures r == s.(mainStart := true, gameResult := Pending, clickedSquares := [])
  {
    AfterRender(s, PlayAgainRender(s))
  }

  /** The render `mainStartandPlayAgain` requests, before the effects. */
  function PlayAgainRender(s: State): State
  {
    s.(mainStart := true, gameResult := Pending, clickedSquares := [])
  }

  /** `handleChange` (:104-107), given the already parsed number. */
  function HandleChange(s: State, amount: int): (r: State)
    ensures r.bet == amount && r.tempBet == amount
    ensures r.(bet := s.bet, tempBet := s.tempBet) == s
  {
    s.(bet := amount, tempBet := amount)
  }

  /**
   * `handleCheckout` (:109-124).  It sets `gameStarted` to true (:122), so
   * the winning-square effect picks `roll` when no round was running.
   */
  function HandleCheckout(s: State, roll: int): (r: State)
    ensures r.highScore == Max(Max(s.highScore, s.coins), STARTING_PURSE)
    ensures r.coins == STARTING_PURSE && r.highestPurse == STARTING_PURSE && r.lowestPurse == STARTING_PURSE
    ensures r.gamesPlayed == 0 && r.bet == 0 && r.gameResult == Pending && r.clickedSquares == []
    ensures r.gameStarted && !r.showModal
    ensures r.winningSquare == if s.gameStarted then s.winningSquare else Some(roll)
    ensures r.mainStart == s.mainStart && r.tempBet == s.tempBet && r.modalContent == s.modalContent
  {
    AfterRender(s, WinningSquareEffect(s, CheckoutRender(s), roll))
  }

  /** The render `handleCheckout` requests, before the effects. */
  function CheckoutRender(s: State): State
  {
    s.(highScore := if s.coins > s.highScore then s.coins else s.highScore,
       coins := STARTING_PURSE, highestPurse := STARTING_PURSE, lowestPurse := STARTING_PURSE,
       gamesPlayed := 0, bet := 0, gameResult := Pending, clickedSquares := [],
       gameStarted := true, showModal := false)
  }

  /** `checkOutModalToggle` (:126-129): opens the checkout dialog. */
  function CheckOutModalToggle(s: State): (r: State)
    ensures r.showModal && r.modalContent == CheckoutModal
    ensures r.(showModal := s.showModal, modalContent := s.modalContent) == s
  {
    s.(modalContent := CheckoutModal, showModal := true)
  }

  /** `handleEndGame` (:131-141): the forced new game after going broke. */
  function HandleEndGame(s: State): (r: State)
    ensures r.coins == STARTING_PURSE && r.highestPurse == STARTING_PURSE && r.lowestPurse == STARTING_PURSE
    ensures r.gamesPlayed == 0 && !r.mainStart && r.gameResult == Pending && r.clickedSquares == []
    ensures !r.showModal
    ensures PurseBounded(s) ==> r.highScore == Max(s.highScore, STARTING_PURSE)
    ensures r.bet == s.bet && r.tempBet == s.tempBet
    ensures r.gameStarted == s.gameStarted && r.winningSquare == s.winningSquare
    ensures r.modalContent == s.modalContent
  {
    AfterRender(s, EndGameRender(s))
  }

  /** The render `handleEndGame` requests, before the effects. */
  function EndGameRender(s: State): State
  {
    s.(coins := STARTING_PURSE, highestPurse := STARTING_PURSE, lowestPurse := STARTING_PURSE,
       gamesPlayed := 0, mainStart := false, gameResult := Pending, clickedSquares := [],
       showModal := false)
  }

  /** `handleContinuePlaying` (:143-145): closes the dialog. */
  function HandleContinuePlaying(s: State): (r: State)
    ensures !r.showModal
    ensures r.(showModal := s.showModal) == s
  {
    s.(showModal := false)
  }

  // ---------------------------------------------------------------------
  // Each handler keeps the invariant when its control is on the page
  // ---------------------------------------------------------------------

  lemma StartGameKeepsInv(s: State, roll: int)
    requires Inv(s) && 0 <= roll < SQUARES
    ensures Inv(StartGame(s, roll))
  {
  }

  lemma HandleSquareClickKeepsInv(s: State, index: int)
    requires Inv(s) && 0 <= index < SQUARES
    ensures Inv(HandleSquareClick(s, index))
  {
  }

  lemma MainStartAndPlayAgainKeepsInv(s: State)
    requires Inv(s)
    ensures Inv(MainStartAndPlayAgain(s))
  {
  }

  lemma HandleChangeKeepsInv(s: State, amount: int)
    requires Inv(s) && !s.gameStarted
    ensures Inv(HandleChange(s, amount))
  {
  }

  lemma HandleCheckoutKeepsInv(s: State, roll: int)
    requires Inv(s) && 0 <= roll < SQUARES
    ensures Inv(HandleCheckout(s, roll))
  {
  }

  lemma HandleEndGameKeepsInv(s: State)
    requires Inv(s)
    ensures Inv(HandleEndGame(s))
  {
  }
}
