# Square betting game: the `MainGame` state machine

The player has a purse of coins. In each round they place a bet and then
uncover squares of a 4×4 grid, one of which is the winning square. Finding
it within eight clicks pays twice the bet. Eight misses in a row lose the
round. When the purse is empty after a loss, an end-game dialog offers a
new game. After more than four games the player may cash out. The
component also tracks the highest and lowest purse of the current session
and an all-time high score.

The model has three modules:

- `GameSpec` (`game_spec.dfy`) describes the component on values.
  - `State` is the record of the fourteen `useState` variables.
  - Each event handler is a function from the state of the render it was
    created in to the state of the next render. This is the meaning of a
    React setter: a handler always reads the values of its own render.
    For example, a win pays `coins + bet * 2` with the `coins` already
    reduced by the bet.
  - Each effect is a function as well. `AfterRender` runs each effect
    whose dependency list differs from the previous render.
  - `Inv` is the invariant of every reachable state. It says the purse is
    never negative, the session extrema and the high score bound the
    purse, the high score is at least 100, and at most eight distinct
    squares in 0..15 are recorded. It also says that a round in progress
    has no result yet and a winning square that has not been clicked yet,
    and that the checkout dialog is open only after more than four games.
- `GameRuns` (`game_runs.dfy`) defines the user actions and which of them
  the page offers in each state, following which controls are rendered.
  It proves properties of whole sequences of actions.
- `MainGameComponent` (`main_game.dfy`) is the component as an object.
  - Class `MainGame` has one field per state variable and one method per
    setter, effect and handler.
  - A handler takes the snapshot of its render and calls the setters in
    the source's order with values computed from that snapshot. It then
    runs the effects.
  - Each method is proved to leave exactly the state that the
    corresponding `GameSpec` function gives. Each handler is also proved
    to keep `Inv`.

The random draw `Math.floor(Math.random() * 16)` is a parameter `roll` with
`0 <= roll < 16`. It goes to every handler after which the winning-square
effect fires: `startGame`, and also `handleCheckout`, because that handler
sets `gameStarted` to true.

Some behaviour of the code is easy to misread, and the model follows it
as written:

- Cashing out does not return to the betting form. `handleCheckout` sets
  `gameStarted` to true (src/components/MainGame.jsx:122), so a new round
  starts with a bet of 0 and a freshly drawn winning square.
- `handleEndGame` does not reset the same fields as cashing out:
  - it leaves `bet` and `gameStarted` unchanged;
  - it clears `mainStart`;
  - it does not touch the high score.
- Cashing out before five games is not a no-op in the handler itself.
  `handleCheckout` has no guard. The limit comes only from the Checkout
  button being rendered when `gamesPlayed > 4`
  (src/components/MainGame.jsx:202). The model therefore states the limit
  as a condition on which actions are offered.

## Model

| member | source | states |
|---|---|---|
| GameSpec.Inv | src/components/MainGame.jsx:4-145 | The invariant of reachable states (its preservation is proved by the `KeepsInv` lemmas below). The purse is non-negative and within the session extrema and the high score, and the high score is at least 100. At most 8 distinct squares in 0..15 are recorded. A running round has a non-negative bet, fewer than 8 clicks, a winning square in 0..15 not yet clicked, and no result yet. The checkout dialog is open only after more than four games. |
| GameSpec.Initial | src/components/MainGame.jsx:4-19 | The first render has a purse and both extrema of 100, a bet and `tempBet` of 0, 0 games, no round, no winning square, no clicks, no result and no dialog. The high score is the stored value when that is at least 100. It is 100 when the stored value is below 100 (the mount-time extrema effect raises it to the purse), when none is stored, or when it reads as 0. The state satisfies the invariant. |
| GameSpec.ExtremaEffect | src/components/MainGame.jsx:27-38 | Afterwards `lowestPurse <= coins <= highestPurse` and `coins <= highScore`. Each extremum and the high score is either its old value or the purse, so together with the bounds they are the old value moved to the purse when the purse lies outside. The high score and the highest purse never decrease, and the lowest purse never increases. No other field changes, and a purse already within bounds leaves the state unchanged. |
| GameSpec.EndGameEffect | src/components/MainGame.jsx:40-45 | The end-game dialog is shown afterwards iff it was shown before or `coins <= 0` with a lost round. Only the dialog fields change. |
| GameSpec.AfterRender | src/components/MainGame.jsx:27-45 | Running the effects whose dependencies changed bounds the purse by the extrema and high score when a dependency changed. Each new extremum and high score is its old value or the purse; the lowest purse never rises and the highest never falls, so together with the bounds the extrema move only to a purse outside them. It never lowers the high score and changes only the extrema and dialog fields. It opens the end-game dialog iff the dialog was already open, or the purse or result changed to an empty purse after a loss. |
| GameSpec.EffectsSettle | src/components/MainGame.jsx:27-45 | Running the effects again after the render their own setters trigger changes nothing, so a single pass gives the settled state. |
| GameSpec.StartGame | src/components/MainGame.jsx:47-54 | With `0 < bet <= coins`: the purse drops by the bet, a round starts with no clicks and no result, and the drawn square becomes the winner. The bet, `tempBet`, the game count and `mainStart` are unchanged, and the high score becomes the larger of itself and the new purse. With any other bet nothing changes. |
| GameSpec.StartGameKeepsInv | src/components/MainGame.jsx:48-50 | Starting a round from a reachable state keeps the invariant. In particular the purse stays non-negative, because the deduction is guarded by `bet <= coins`. |
| GameSpec.HandleSquareClick | src/components/MainGame.jsx:56-75 | With no round running, or on a square already clicked, nothing changes. Otherwise the square is appended. A hit pays `coins + 2 * bet`, records a win, counts the game and ends the round. The bet, `tempBet`, the winning square and the dialog stay unchanged, and from a bounded state the extrema and high score widen to the new purse. A miss that brings the clicks to 8 records a loss, sets the bet to `min(coins, bet)`, counts the game and ends the round. It leaves the purse, `tempBet`, the winning square, the extrema and the high score unchanged. It opens the end-game dialog when the purse is empty and the previous result was not already a loss, and leaves the dialog alone when the purse is not empty. Any other miss only records the square. |
| GameSpec.HandleSquareClickKeepsInv | src/components/MainGame.jsx:57-73 | A click keeps the invariant: the recorded squares stay distinct and number at most 8. |
| GameSpec.MainStartAndPlayAgain | src/components/MainGame.jsx:98-102 | Sets `mainStart`, clears the result and the clicked squares, and changes nothing else. |
| GameSpec.HandleChange | src/components/MainGame.jsx:104-107 | Sets `bet` and `tempBet` to the entered amount and changes nothing else. |
| GameSpec.CheckOutModalToggle | src/components/MainGame.jsx:126-129 | Opens the checkout dialog and changes nothing else. |
| GameSpec.HandleContinuePlaying | src/components/MainGame.jsx:143-145 | Closes the dialog and changes nothing else. |
| GameSpec.MainStartAndPlayAgainKeepsInv | src/components/MainGame.jsx:98-102 | Keeps the invariant from any reachable state. |
| GameSpec.HandleChangeKeepsInv | src/components/MainGame.jsx:104-107 | Setting `bet` and `tempBet` to the entered amount keeps the invariant when no round is running. |
| GameSpec.HandleCheckout | src/components/MainGame.jsx:109-124 | The high score becomes `max(highScore, coins)`, or 100 if that is smaller. Purse and extrema reset to 100, and games, bet, result and clicks are cleared. A round starts, the dialog closes, and a winning square is drawn unless a round was already running. `mainStart`, `tempBet` and the dialog kind are unchanged. |
| GameSpec.HandleCheckoutKeepsInv | src/components/MainGame.jsx:109-124 | Cashing out keeps the invariant. |
| GameSpec.HandleEndGame | src/components/MainGame.jsx:131-141 | Purse and extrema reset to 100. The game count, `mainStart`, the result and the clicks are cleared, and the dialog closes. The bet, `tempBet`, `gameStarted`, the winning square and the dialog kind are unchanged. From a bounded state the high score is `max(highScore, 100)`. |
| GameSpec.HandleEndGameKeepsInv | src/components/MainGame.jsx:131-141 | Starting a new game keeps the invariant. |
| GameRuns.Offered | src/components/MainGame.jsx:163-269 | Which actions the rendered page offers. The bet form and its button appear with `mainStart` and no round. "Start Game"/"Play Again" appears otherwise, and "Checkout" appears also only after more than four games with no round. The squares are always on the page. "Cash Out" and "Continue Playing" appear in the checkout dialog, and "New Game" in the other dialog. |
| GameRuns.StepKeepsInv | src/components/MainGame.jsx:47-145 | Every action the page offers keeps the invariant. |
| GameRuns.StepKeepsHighScore | src/components/MainGame.jsx:27-38 | No action lowers the all-time high score. |
| GameRuns.EndGameOnlyWhenBroke | src/components/MainGame.jsx:40-45 | An action that opens the end-game dialog leaves a purse of exactly 0 and a lost round. |
| GameRuns.CheckoutNeedsFiveGames | src/components/MainGame.jsx:202-208 | The checkout dialog opens only through the Checkout button, offered after more than four games with no round running. |
| GameRuns.CashOutNeedsFiveGames | src/components/MainGame.jsx:109-124 | In a reachable state "Cash Out" is offered only after more than four games, although `handleCheckout` itself has no guard. |
| GameRuns.StepExtremaMonotone | src/components/MainGame.jsx:27-38 | Every action other than cashing out and "New Game" leaves the lowest purse no higher and the highest purse no lower. |
| GameRuns.RunKeepsInv | src/components/MainGame.jsx:47-145 | Every offered sequence of actions keeps the invariant. |
| GameRuns.RunKeepsHighScore | src/components/MainGame.jsx:27-38 | No sequence of actions lowers the all-time high score. |
| GameRuns.RunExtremaMonotone | src/components/MainGame.jsx:27-38 | Along any actions without a reset the session extrema only widen. |
| GameRuns.ExtremaBoundEveryPurse | src/components/MainGame.jsx:27-38 | Along offered actions without a reset, every purse passed through lies between the lowest and the highest purse at the end. |
| GameRuns.CashOutOnlyAfterFiveGames | src/components/MainGame.jsx:109-124 | In every offered run from the first render, each "Cash Out" is taken with more than four games played. |
| GameRuns.ReachableStates | src/components/MainGame.jsx:4-45 | From the first render, after any offered actions: the purse is non-negative and within the session extrema and the high score. At most 8 distinct squares are recorded, and the high score is at least its initial value. |
| GameRuns.MissesOnlyRecord | src/components/MainGame.jsx:57-60 | Clicking distinct non-winning squares, short of the eighth click, is offered and only appends them to the clicked squares. |
| GameRuns.WinAfterMisses | src/components/MainGame.jsx:62-67 | However many squares were missed first, clicking the winning square pays `coins + 2 * bet`, records a win, counts one game and ends the round. |
| GameRuns.LastMissLoses | src/components/MainGame.jsx:68-73 | A miss as the eighth click records a loss with the purse unchanged, sets the bet to `min(coins, bet)`, counts the game and ends the round. With an empty purse it opens the end-game dialog. |
| GameRuns.LoseAfterEightMisses | src/components/MainGame.jsx:68-73 | Missing until eight squares are clicked loses the round with the purse unchanged and the bet set to `min(coins, bet)`. With an empty purse it opens the end-game dialog. |
| GameRuns.WinningRoundExample | src/components/MainGame.jsx:47-67 | With 100 coins and a bet of 20, starting leaves 80, and a first-click win leaves 120 and a win. |
| GameRuns.BankruptRoundExample | src/components/MainGame.jsx:40-45 | Betting all 100 coins and missing eight times leaves 0 coins, a loss and the end-game dialog, which offers "New Game". That handler then restores a purse of 100 and 0 games. |
| MainGameComponent.MainGame.constructor | src/components/MainGame.jsx:4-19 | The new component holds `GameSpec.Initial` and satisfies the invariant. |
| MainGameComponent.MainGame.WinningSquareEffect | src/components/MainGame.jsx:21-25 | Leaves exactly `GameSpec.WinningSquareEffect` of the previous render and the current state. |
| MainGameComponent.MainGame.ExtremaEffect | src/components/MainGame.jsx:27-38 | Leaves the purse bounded, never lowers the high score, and leaves exactly `GameSpec.ExtremaEffect` of the old state. |
| MainGameComponent.MainGame.EndGameEffect | src/components/MainGame.jsx:40-45 | Leaves exactly `GameSpec.EndGameEffect` of the old state. |
| MainGameComponent.MainGame.AfterRender | src/components/MainGame.jsx:27-45 | Leaves exactly `GameSpec.AfterRender` of the previous render and the old state. |
| MainGameComponent.MainGame.StartGame | src/components/MainGame.jsx:47-54 | Keeps the invariant and leaves exactly `GameSpec.StartGame` of the old state and the roll. |
| MainGameComponent.MainGame.HandleSquareClick | src/components/MainGame.jsx:56-75 | Keeps the invariant and leaves exactly `GameSpec.HandleSquareClick` of the old state and the index. |
| MainGameComponent.MainGame.MainStartAndPlayAgain | src/components/MainGame.jsx:98-102 | Keeps the invariant, sets `mainStart`, clears the result and the clicks, and leaves exactly `GameSpec.MainStartAndPlayAgain` of the old state. |
| MainGameComponent.MainGame.HandleChange | src/components/MainGame.jsx:104-107 | Keeps the invariant and sets `bet` and `tempBet` to the amount, changing nothing else. |
| MainGameComponent.MainGame.HandleCheckout | src/components/MainGame.jsx:109-124 | Keeps the invariant, makes the high score `max(highScore, coins)` of the old state, and leaves exactly `GameSpec.HandleCheckout` of the old state and the roll. |
| MainGameComponent.MainGame.CheckOutModalToggle | src/components/MainGame.jsx:126-129 | Keeps the invariant and opens the checkout dialog, changing nothing else. |
| MainGameComponent.MainGame.HandleEndGame | src/components/MainGame.jsx:131-141 | Keeps the invariant and leaves exactly `GameSpec.HandleEndGame` of the old state. |
| MainGameComponent.MainGame.HandleContinuePlaying | src/components/MainGame.jsx:143-145 | Keeps the invariant and closes the dialog, changing nothing else. |

## Left out

- The JSX markup, `renderSquares` and the CSS class choices (src/components/MainGame.jsx:77-96, :147-275) are presentation. They appear only as `GameRuns.Offered`, which records which buttons are rendered. It does not record whether "Start Game" is disabled, because `startGame` repeats that guard itself.
- The `alert` calls (:110, :132) are browser dialogs with no effect on the state.
- `localStorage` is read at :16 and written at :36 and :113. The stored high score is a parameter of `Initial`, and `None` stands for a missing or non-numeric value. The writes are not modelled, and neither is the parsing of the stored text.
- `handleChange` takes an already parsed integer. `parseInt` on the input text, including a NaN bet, is not modelled.
- `Math.random` (:23) is the `roll` parameter, a square in 0..15.
- React's scheduling and batching are simplified. The setters of one handler take effect together in the next render. Then each effect whose dependencies changed runs once, in source order. `GameSpec.EffectsSettle` shows that the re-render this causes changes nothing more.
- The overlay of an open dialog is not modelled as blocking the page behind it. Actions on the page are offered by their own buttons' conditions.
- JavaScript numbers are doubles, exact only up to 2^53, while the model's purse, bet and scores are unbounded integers. Rounding in `coins + bet * 2` (:63) far beyond that range is not modelled.
- MainGameComponent.MainGame.HandleCheckout: raises the high score with one assignment of `max(highScore, coins)`. The source instead writes it only when `coins > highScore` (:111-114). The two agree in every state the invariant allows, where that test is always false because the extrema effect has already raised the high score to the purse.
