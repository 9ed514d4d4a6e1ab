# 30 Seconds party game: turn controller and team setup

This project models the two screens of the "30 Seconds" party-game companion that hold its logic, and proves properties of the model.

- **Gameplay screen** (`Game.tsx`). A phase machine runs Board → Ready → Playing → Result → (Board | Victory). In Playing, a 30-second countdown runs and the players tap the five drawn terms they guessed. Confirming the result scores the marked terms. A perfect 5/5 round earns one bonus step. The acting team moves by the steps, clamped at the finish line. Then the game either declares that team the winner or passes the turn round-robin.
- **Setup screen** (`Home.tsx`). It edits the team roster: add a team, or remove one while more than two remain. It picks a difficulty and a game length, and builds the configuration the gameplay screen starts from (short = 30 steps, otherwise 50).

The model has three modules:

- `Scoring` (`scoring.dfy`): the pure scoring arithmetic, meaning the score, the steps with the perfect-round bonus, and the clamped move.
- `Game` (`game.dfy`): the gameplay screen. Each handler is a function on a value `GameState` of the whole screen. `ValidState` is the invariant every handler preserves. `Run` applies any sequence of events. Lemmas cover the countdown over many seconds, what confirmation does, and the worked scenarios. The class `GameScreen` holds the same state in fields (`phase`, `currentTeamIndex`, `teamStates`, `checkedTerms`, `timeLeft`, …). Its methods update those fields step by step, and each method's postcondition ties the new state to the handler function applied to the old state.
- `Home` (`home.dfy`): the setup screen as the class `Setup`. Its invariant `ValidRoster` says 2 to 6 teams, distinct names, none empty. The constructor establishes it and every method keeps it, so it holds after any sequence of edits. The module also has the pure configuration builder and a lemma that such a configuration starts a valid game.

The external pieces are inputs or outputs of the model:

- **Term bank.** The term bank's `getRandomTerms` is not part of this model. The five terms it returns are a parameter (`drawn`) of "start round".
- **Configuration.** The configuration is read from the page address and decoded from JSON. The model receives it already parsed, as an `Option`, with `None` for a missing or unparsable configuration.
- **Timer.** The timer's one-second interval is a discrete `Tick` event. It is processed only in Playing, because the interval is cleared whenever the phase leaves Playing.
- **Sound and confetti.** The end-of-round sound and the victory confetti are returned as an `Effect` value.

The model follows the code in three details:

- **Confirmation guard.** "Confirm score" is guarded only by the presence of a configuration, not by the phase. It is modelled unguarded, and its properties are proved for every phase. The screen offers the button only in Result.
- **Victory test.** The code tests victory as `position >= duration`. Because the move is clamped, this is equivalent to reaching the finish exactly (`OnConfirmScore` states both sides).
- **Start-round guard.** "Start round" checks only the configuration, and "start turn" checks nothing. Both are modelled that way.

## Model

| member | source | states |
|---|---|---|
| Scoring.NoMarks | client/src/pages/Game.tsx:42 | a fresh round has five marks, none set |
| Scoring.Score | client/src/pages/Game.tsx:119 | the score never exceeds the number of marks, so with five marks it lies in 0..5 |
| Scoring.ScoreFullIffAllMarked | client/src/pages/Game.tsx:111-119 | the score equals the number of marks exactly when every mark is set (both directions) |
| Scoring.ScoreZeroIffNoneMarked | client/src/pages/Game.tsx:119 | the score is zero exactly when no mark is set (both directions) |
| Scoring.ScoreFlip | client/src/pages/Game.tsx:105-107 | flipping one mark changes the score by exactly one: down if it was set, up otherwise |
| Scoring.Steps | client/src/pages/Game.tsx:127-128 | steps are the score or the score plus one, and the bonus is given exactly when the score is 5 |
| Scoring.RoundStepsBound | client/src/pages/Game.tsx:119-128 | a five-mark round gives at most 6 steps, and gives 6 exactly when all five are marked |
| Scoring.NewPosition | client/src/pages/Game.tsx:134 | the new position is `min(position + steps, duration)`: never past the finish, never more than the steps, one of the two, never behind the old position |
| Game.InitialTeams | client/src/pages/Game.tsx:60-64 | one team per configured name, in order, each at position 0, with colour `TEAM_COLORS[i mod 6]` |
| Game.InitialColorsDistinct | client/src/pages/Game.tsx:24-26 | with at most six teams no two teams share a colour |
| Game.Initial | client/src/pages/Game.tsx:34-69 | the mounted screen: the parsed configuration (or none), phase Board, team 0 acting, the initial teams (none without a configuration), no terms, five unset marks, 30 seconds |
| Game.InitialValid | client/src/pages/Game.tsx:34-69 | the screen as mounted satisfies the invariant: phase Board, team 0 acting, all teams at the start, no teams without a configuration |
| Game.OnStartTurn | client/src/pages/Game.tsx:91-93 | "start turn" moves to Ready and changes nothing else |
| Game.OnStartRound | client/src/pages/Game.tsx:95-101 | without a configuration nothing changes; otherwise the drawn terms, five unset marks, 30 seconds and phase Playing, with the session untouched |
| Game.OnToggleTerm | client/src/pages/Game.tsx:103-115 | outside Playing nothing changes; in Playing exactly mark `i` flips, the others stay, and the phase becomes Result exactly when all marks are then set |
| Game.OnTick | client/src/pages/Game.tsx:72-89 | outside Playing a tick changes nothing; in Playing it ends the round (time 0, end sound) exactly when at most one second was left, otherwise counts down by one; marks and session untouched |
| Game.OnConfirmScore | client/src/pages/Game.tsx:117-150 | without a configuration nothing changes; otherwise the acting team moves to `min(old + steps, duration)` and no other team changes; victory (same index, confetti) exactly when the finish is reached, else the next index mod team count and phase Board |
| Game.ConfirmPreservesValid | client/src/pages/Game.tsx:130-136 | confirmation keeps names, colours and every position within 0..duration |
| Game.Apply | client/src/pages/Game.tsx:91-150 | every event (start turn, start round, tap, tick, confirm) preserves the screen invariant: five marks, 0..30 seconds, at least 1 second while Playing, positions within the board, a won team at the finish |
| Game.Run | client/src/pages/Game.tsx:72-150 | after any sequence of events the invariant still holds, and the configuration and team count are unchanged |
| Game.OnlyConfirmMovesTeams | client/src/pages/Game.tsx:91-115 | every event other than confirmation leaves the teams and the acting index unchanged |
| Game.PositionsOnlyAdvance | client/src/pages/Game.tsx:134 | over any sequence of events a team's position never decreases, and a team at the finish stays there |
| Game.VictoryIsFinal | client/src/pages/Game.tsx:117-139 | confirming again after victory leaves the teams unchanged and the game won by the same team |
| Game.ConfirmRoundRobin | client/src/pages/Game.tsx:147 | a non-winning confirmation passes the turn to the next index, wrapping to 0 after the last team |
| Game.TicksIgnoredOutsidePlaying | client/src/pages/Game.tsx:85-88 | outside Playing any number of ticks changes nothing and emits no end signal |
| Game.CountdownRunsOut | client/src/pages/Game.tsx:72-89 | from Playing with `t` seconds left, fewer than `t` ticks only count down; `t` or more ticks reach Result at 0 with exactly one end signal and the marks unchanged |
| Game.ScenarioThreeGuessed | client/src/pages/Game.tsx:72-150 | from the mounted two-team, 30-step game: start turn, start round, tap three terms, let 30 seconds pass; the state is valid and in Result with score 3, and confirming moves Alpha to 3 with Beta acting next |
| Game.ScenarioPerfectFinish | client/src/pages/Game.tsx:127-144 | in any valid Result state of a 30-step game whose acting team is at 28 with all five marks set: six steps, clamped to 30, victory for the same team with confetti |
| Game.ScenarioTimeRunsOut | client/src/pages/Game.tsx:72-101 | a new round is still Playing after each of the first 29 seconds and reaches Result after 30, with one end signal, no marks and no steps |
| Game.ScenarioAllGuessed | client/src/pages/Game.tsx:95-115 | tapping all five terms ends the round at once with 30 seconds left, a late tick is ignored, and the round is worth 6 steps |
| Game.GameScreen.constructor | client/src/pages/Game.tsx:34-69 | the mounted screen's fields equal the initial state and satisfy the invariant |
| Game.GameScreen.StartTurn | client/src/pages/Game.tsx:91-93 | the fields change as `OnStartTurn` says |
| Game.GameScreen.StartRound | client/src/pages/Game.tsx:95-101 | the fields change as `OnStartRound` says, for the terms the term bank drew |
| Game.GameScreen.ToggleTerm | client/src/pages/Game.tsx:103-115 | the fields change as `OnToggleTerm` says: a copy of the marks with entry `index` flipped |
| Game.GameScreen.Tick | client/src/pages/Game.tsx:72-89 | the fields and the emitted effect are those of `OnTick` |
| Game.GameScreen.ConfirmScore | client/src/pages/Game.tsx:117-150 | the fields and the emitted effect are those of `OnConfirmScore`; the acting team ends within the finish |
| Home.SpliceStart | client/src/pages/Home.tsx:33 | `splice`'s start position: the index itself when in range, counted from the end when negative, clamped to the list |
| Home.SplicedOne | client/src/pages/Home.tsx:32-33 | `splice(index, 1)` on a copy: one element fewer when the start is inside the list, the elements before and after it kept in order; unchanged otherwise |
| Home.SplicedOneKeepsNames | client/src/pages/Home.tsx:30-36 | removing a team keeps the remaining names distinct and non-empty |
| Home.AddKeepsRosterValid | client/src/pages/Home.tsx:24-25 | appending a name the guard accepts keeps 2..6 teams with distinct non-empty names |
| Home.StartGameConfig | client/src/pages/Home.tsx:38-43 | the configuration passes teams and difficulty through, with 30 steps for "short" and 50 otherwise |
| Home.StartedGameIsPlayable | client/src/pages/Home.tsx:38-43 | a configuration built from a valid roster starts a game satisfying the gameplay invariant, whose team names are the roster's, in order and distinct, with distinct colours |
| Home.Setup.constructor | client/src/pages/Home.tsx:18-21 | the screen opens with "Team Oranje" and "Team Blauw", an empty name field, easy, short; the roster invariant holds |
| Home.Setup.SetNewTeam | client/src/pages/Home.tsx:95 | typing replaces the name field only |
| Home.Setup.SetDifficulty | client/src/pages/Home.tsx:135 | choosing a difficulty replaces it only |
| Home.Setup.SetDuration | client/src/pages/Home.tsx:152 | choosing a length replaces it only |
| Home.Setup.AddTeam | client/src/pages/Home.tsx:23-28 | if the name is non-empty, not yet used and fewer than 6 teams exist, it is appended and the field cleared; otherwise roster and field are unchanged; the roster invariant is kept |
| Home.Setup.RemoveTeam | client/src/pages/Home.tsx:30-36 | with more than two teams exactly the element at `index` is removed, order kept; with two the roster is unchanged; the roster invariant is kept |
| Home.Setup.StartGame | client/src/pages/Home.tsx:38-47 | the configuration handed over carries the roster, the difficulty and 30 or 50 steps, and starts a valid game; the setup state is unchanged |

## Left out

- Rendering and animation are not modelled: JSX, framer-motion, icons, CSS classes, the `TEXT_COLORS` lookup and the floating-point progress-bar widths are presentation only.
- Sound and confetti playback are not modelled. The model only emits `PlayEndSound` and `Celebrate` as `Effect` values. A failed playback is swallowed by the code and cannot alter a transition.
- Configuration transport and navigation are not modelled: `URLSearchParams`, `encodeURIComponent`/`decodeURIComponent`, `JSON.stringify`/`JSON.parse` and `setLocation`. The gameplay screen receives an already parsed configuration, or `None`. One case is not modelled: JSON that parses but has no usable `teams` array. There `setConfig` has already run when the mapping over `teams` throws.
- Game.GameConfig: `duration` is a natural number because the only producer, the setup screen, gives 30 or 50. A hand-written address with a negative or non-integer duration is not modelled.
- Game.GameScreen.constructor: requires at least one team in a present configuration. The code does not check this, but an empty team list makes rendering and confirmation read a missing team.
- Game.GameScreen.StartRound: the term bank is not part of this model. Its five terms are a parameter, and the difficulty it filters by plays no role in the model. The model relies only on there being five terms, not on their being distinct.
- Game.GameScreen.ToggleTerm: requires the index of a shown term (0..4), which is the only kind of index the screen passes. An out-of-range index, which in JavaScript would grow the array, is not modelled.
- Game.GameScreen.ConfirmScore: a team's state is a value, and the update writes a new element into the copied list. The code mutates the shared team object in place through a shallow copy. No other reference is observed afterwards, so aliasing is not modelled.
- Real time is not modelled: `setInterval`/`clearInterval` scheduling, React's batching of `useState` updates, and stale-closure reads. Events are discrete and processed one at a time, each seeing the latest state.
- The "back to start" button on the victory screen leaves the page and is not an internal transition.
- Routing and chrome (`App.tsx`, `Layout.tsx`, `AdsPlaceholder.tsx`, `use-hash-location.ts`) are not part of this model.
