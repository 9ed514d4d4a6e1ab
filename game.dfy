/**
 * The gameplay screen: a phase machine Board -> Ready -> Playing -> Result ->
 * (Board | Victory) driven by button presses and a once-a-second countdown.
 *
 * Each transition is first given as a function on a value of the whole screen
 * state (GameState); the class GameScreen then holds the same state in fields
 * and its methods update them step by step, each tied to its function.
 */
module Game {
  import opened Scoring

  datatype Option<T> = None | Some(value: T)

  /** The term bank's difficulty tags. */
  datatype Difficulty = Easy | Medium | Hard

  /** What the setup screen hands over: the team names, the difficulty and the steps needed to win. */
  datatype GameConfig = GameConfig(teams: seq<string>, difficulty: Difficulty, duration: nat)

  datatype TeamState = TeamState(name: string, position: int, color: string)

  datatype Phase = Board | Ready | Playing | Result | Victory

  /** Fire-and-forget side effects a transition asks the outside world to perform. */
  datatype Effect = NoEffect | PlayEndSound | Celebrate

  /** The palette of team colours, assigned by team index modulo its length. */
  const TEAM_COLORS: seq<string> :=
    ["bg-red-500", "bg-blue-500", "bg-green-500", "bg-yellow-500", "bg-purple-500", "bg-pink-500"]

  /** Length of one round in seconds. */
  const ROUND_SECONDS: nat := 30

  /** The colour of the team at index `i`: the palette, cycled by index. */
  function ColorFor(i: nat): string {
    TEAM_COLORS[i % |TEAM_COLORS|]
  }

  /** The teams at the start of a session: everyone at the start line, colours cycling through the palette. */
  function InitialTeams(names: seq<string>): (ts: seq<TeamState>)
    ensures |ts| == |names|
    ensures forall i | 0 <= i < |ts| :: ts[i].name == names[i] && ts[i].position == 0
    ensures forall i | 0 <= i < |ts| :: ts[i].color == ColorFor(i)
  {
    seq(|names|, i requires 0 <= i < |names| => TeamState(names[i], 0, ColorFor(i)))
  }

  /** The names of the teams, in order. */
  function TeamNames(ts: seq<TeamState>): (names: seq<string>)
    ensures |names| == |ts| && forall i | 0 <= i < |ts| :: names[i] == ts[i].name
  {
    seq(|ts|, i requires 0 <= i < |ts| => ts[i].name)
  }

  /** With no more teams than colours, no two teams share a colour. */
  lemma InitialColorsDistinct(names: seq<string>, i: nat, j: nat)
    requires |names| <= |TEAM_COLORS|
    requires i < j < |names|
    ensures InitialTeams(names)[i].color != InitialTeams(names)[j].color
  {
  }

  // ---------------------------------------------------------------------------
  // The screen state as a value, and its transitions

  datatype GameState = GameState(
    config: Option<GameConfig>,
    teams: seq<TeamState>,
    current: int,
    phase: Phase,
    terms: seq<string>,
    checked: seq<bool>,
    timeLeft: int)

  /** The result of one transition: the new state and the effect it emits. */
  datatype Transition = Transition(next: GameState, effect: Effect)

  /** The teams in play agree with the configuration: names and colours fixed, positions on the board. */
  predicate ValidSession(cfg: GameConfig, teams: seq<TeamState>, current: int) {
    && |teams| == |cfg.teams|
    && 0 <= current < |teams|
    && forall i | 0 <= i < |teams| ::
         && teams[i].name == cfg.teams[i]
         && teams[i].color == ColorFor(i)
         && 0 <= teams[i].position <= cfg.duration
  }

  /** The invariant every reachable screen state keeps. */
  predicate ValidState(s: GameState) {
    && |s.checked| == ROUND_TERMS
    && 0 <= s.timeLeft <= ROUND_SECONDS
    && (s.phase == Playing ==> 1 <= s.timeLeft)
    && (s.phase == Playing || s.phase == Result ==> |s.terms| == |s.checked|)
    && match s.config
       case None => s.teams == [] && (s.phase == Board || s.phase == Ready)
       case Some(cfg) =>
         && ValidSession(cfg, s.teams, s.current)
         && (s.phase == Victory ==> s.teams[s.current].position == cfg.duration)
  }

  /** The screen after reading its configuration; `None` stands for a missing or unparsable one. */
  function Initial(parsed: Option<GameConfig>): (s: GameState)
    ensures s.config == parsed && s.phase == Board && s.current == 0
    ensures s.teams == if parsed.Some? then InitialTeams(parsed.value.teams) else []
    ensures s.terms == [] && s.checked == NoMarks(ROUND_TERMS) && s.timeLeft == ROUND_SECONDS
  {
    GameState(
      parsed,
      if parsed.Some? then InitialTeams(parsed.value.teams) else [],
      0, Board, [], NoMarks(ROUND_TERMS), ROUND_SECONDS)
  }

  lemma InitialValid(parsed: Option<GameConfig>)
    requires parsed.Some? ==> |parsed.value.teams| > 0
    ensures ValidState(Initial(parsed))
    ensures Initial(parsed).phase == Board && Initial(parsed).current == 0
    ensures forall t | t in Initial(parsed).teams :: t.position == 0
  {
  }

  /** "Start turn": show the pre-round screen; nothing else changes. */
  function OnStartTurn(s: GameState): (t: GameState)
    ensures t.phase == Ready
    ensures t.(phase := s.phase) == s
  {
    s.(phase := Ready)
  }

  /**
   * "Start time": with a configuration, begin a fresh round on the terms `drawn`
   * from the term bank; without one, nothing happens.
   */
  function OnStartRound(s: GameState, drawn: seq<string>): (t: GameState)
    ensures s.config.None? ==> t == s
    ensures s.config.Some? ==>
      && t.phase == Playing && t.terms == drawn && t.timeLeft == ROUND_SECONDS
      && |t.checked| == ROUND_TERMS && Score(t.checked) == 0
      && t.config == s.config && t.teams == s.teams && t.current == s.current
  {
    if s.config.None? then s
    else
      ScoreZeroIffNoneMarked(NoMarks(ROUND_TERMS));
      s.(terms := drawn, checked := NoMarks(ROUND_TERMS), timeLeft := ROUND_SECONDS, phase := Playing)
  }

  /**
   * Tapping term `i`: ignored outside Playing; in Playing it flips that mark
   * only, and ends the round early once every mark is set.
   */
  function OnToggleTerm(s: GameState, i: int): (t: GameState)
    requires 0 <= i < |s.checked|
    ensures s.phase != Playing ==> t == s
    ensures s.phase == Playing ==>
      && |t.checked| == |s.checked|
      && t.checked[i] == !s.checked[i]
      && (forall k | 0 <= k < |s.checked| && k != i :: t.checked[k] == s.checked[k])
      && (t.phase == Result <==> AllMarked(t.checked))
      && (t.phase == Playing <==> !AllMarked(t.checked))
    ensures t.(checked := s.checked, phase := s.phase) == s
  {
    if s.phase != Playing then s
    else
      var marks := s.checked[i := !s.checked[i]];
      s.(checked := marks, phase := if AllMarked(marks) then Result else Playing)
  }

  /**
   * One second of the round clock. Only Playing reacts (the interval is
   * cleared in every other phase): the last second ends the round with the
   * end-of-round sound, any other second counts down by one.
   */
  function OnTick(s: GameState): (tr: Transition)
    ensures s.phase != Playing ==> tr == Transition(s, NoEffect)
    ensures s.phase == Playing ==>
      && (tr.next.phase == Result <==> s.timeLeft <= 1)
      && (tr.next.phase == Playing <==> 1 < s.timeLeft)
      && (s.timeLeft <= 1 ==> tr.next.timeLeft == 0 && tr.effect == PlayEndSound)
      && (1 < s.timeLeft ==> tr.next.timeLeft == s.timeLeft - 1 && tr.effect == NoEffect)
    ensures tr.next.(timeLeft := s.timeLeft, phase := s.phase) == s
  {
    if s.phase != Playing then Transition(s, NoEffect)
    else if s.timeLeft <= 1 then Transition(s.(timeLeft := 0, phase := Result), PlayEndSound)
    else Transition(s.(timeLeft := s.timeLeft - 1), NoEffect)
  }

  /**
   * "Confirm and move": score the marks, move the acting team by the steps
   * (clamped at the finish), then either declare victory or pass the turn on.
   * Only the configuration guards it, not the phase.
   */
  function OnConfirmScore(s: GameState): (tr: Transition)
    requires s.config.Some? ==> 0 <= s.current < |s.teams|
    ensures s.config.None? ==> tr == Transition(s, NoEffect)
    ensures s.config.Some? ==>
      var duration, i, n := s.config.value.duration, s.current, |s.teams|;
      |tr.next.teams| == n &&
      var moved := tr.next.teams[i].position;
      && moved == NewPosition(s.teams[i].position, Steps(Score(s.checked)), duration)
      && moved <= duration
      && tr.next.teams[i] == s.teams[i].(position := moved)
      && (forall j | 0 <= j < n && j != i :: tr.next.teams[j] == s.teams[j])
      && (tr.next.phase == Victory <==> moved >= duration)
      && (tr.next.phase == Victory ==> tr.next.current == i && tr.effect == Celebrate)
      && (tr.next.phase != Victory ==>
            tr.next.phase == Board && tr.next.current == (i + 1) % n && tr.effect == NoEffect)
    ensures tr.next.(teams := s.teams, current := s.current, phase := s.phase) == s
  {
    if s.config.None? then Transition(s, NoEffect)
    else
      var duration := s.config.value.duration;
      var team := s.teams[s.current];
      var moved := team.(position := NewPosition(team.position, Steps(Score(s.checked)), duration));
      var teams := s.teams[s.current := moved];
      if moved.position >= duration then
        Transition(s.(teams := teams, phase := Victory), Celebrate)
      else
        Transition(s.(teams := teams, current := (s.current + 1) % |s.teams|, phase := Board), NoEffect)
  }

  // ---------------------------------------------------------------------------
  // Events, and what holds over any sequence of them

  datatype Event =
    | StartTurnPressed
    | StartRoundPressed(drawn: seq<string>)
    | TermTapped(index: int)
    | SecondElapsed
    | ConfirmPressed

  /** What the screen's callers guarantee: the term bank gives five terms, and only shown terms are tapped. */
  predicate WellFormed(e: Event) {
    match e
    case StartRoundPressed(drawn) => |drawn| == ROUND_TERMS
    case TermTapped(i) => 0 <= i < ROUND_TERMS
    case _ => true
  }

  function Apply(s: GameState, e: Event): (tr: Transition)
    requires ValidState(s) && WellFormed(e)
    ensures ValidState(tr.next)
  {
    match e
    case StartTurnPressed => Transition(OnStartTurn(s), NoEffect)
    case StartRoundPressed(drawn) => Transition(OnStartRound(s, drawn), NoEffect)
    case TermTapped(i) => Transition(OnToggleTerm(s, i), NoEffect)
    case SecondElapsed => OnTick(s)
    case ConfirmPressed =>
      var tr := OnConfirmScore(s);
      assert ValidState(tr.next) by { ConfirmPreservesValid(s); }
      tr
  }

  lemma ConfirmPreservesValid(s: GameState)
    requires ValidState(s)
    ensures ValidState(OnConfirmScore(s).next)
  {
  }

  /** The state after a whole sequence of events. */
  function Run(s: GameState, events: seq<Event>): (t: GameState)
    requires ValidState(s)
    requires forall k | 0 <= k < |events| :: WellFormed(events[k])
    ensures ValidState(t)
    ensures t.config == s.config && |t.teams| == |s.teams|
    decreases |events|
  {
    if events == [] then s else Run(Apply(s, events[0]).next, events[1..])
  }

  /** Only a confirmation changes the teams; every other event leaves the session as it was. */
  lemma OnlyConfirmMovesTeams(s: GameState, e: Event)
    requires ValidState(s) && WellFormed(e)
    requires e != ConfirmPressed
    ensures Apply(s, e).next.teams == s.teams && Apply(s, e).next.current == s.current
  {
  }

  /** Positions never go down, and a team that reached the finish stays there, whatever happens next. */
  lemma {:induction false} PositionsOnlyAdvance(s: GameState, events: seq<Event>, j: nat)
    requires ValidState(s) && s.config.Some?
    requires forall k | 0 <= k < |events| :: WellFormed(events[k])
    requires j < |s.teams|
    ensures s.teams[j].position <= Run(s, events).teams[j].position
    ensures s.teams[j].position == s.config.value.duration ==>
              Run(s, events).teams[j].position == s.config.value.duration
    decreases |events|
  {
    if events != [] {
      var t := Apply(s, events[0]).next;
      assert s.teams[j].position <= t.teams[j].position;
      PositionsOnlyAdvance(t, events[1..], j);
    }
  }

  /** Once a team has won, confirming again changes nothing: the teams stay put and the game stays won. */
  lemma VictoryIsFinal(s: GameState)
    requires ValidState(s) && s.phase == Victory
    ensures OnConfirmScore(s).next.teams == s.teams
    ensures OnConfirmScore(s).next.phase == Victory && OnConfirmScore(s).next.current == s.current
  {
  }

  /** Round-robin: a confirmation that does not win passes the turn to the next team in order, wrapping around. */
  lemma ConfirmRoundRobin(s: GameState)
    requires ValidState(s) && s.config.Some?
    requires OnConfirmScore(s).next.phase != Victory
    ensures OnConfirmScore(s).next.current == if s.current + 1 < |s.teams| then s.current + 1 else 0
  {
    assert OnConfirmScore(s).next.current == (s.current + 1) % |s.teams|;
    NextIndexWraps(s.current, |s.teams|);
  }

  lemma NextIndexWraps(i: int, n: int)
    requires 0 <= i < n
    ensures (i + 1) % n == if i + 1 < n then i + 1 else 0
  {
  }

  // ---------------------------------------------------------------------------
  // The round clock over many seconds

  function TickN(s: GameState, n: nat): GameState
    decreases n
  {
    if n == 0 then s else TickN(OnTick(s).next, n - 1)
  }

  /** How many end-of-round signals `n` seconds of clock emit from `s`. */
  function EndSignals(s: GameState, n: nat): nat
    decreases n
  {
    if n == 0 then 0
    else (if OnTick(s).effect == PlayEndSound then 1 else 0) + EndSignals(OnTick(s).next, n - 1)
  }

  /** Outside Playing the clock does nothing, however many seconds pass. */
  lemma {:induction false} TicksIgnoredOutsidePlaying(s: GameState, n: nat)
    requires s.phase != Playing
    ensures TickN(s, n) == s && EndSignals(s, n) == 0
  {
    if n > 0 { TicksIgnoredOutsidePlaying(s, n - 1); }
  }

  /**
   * A round with `timeLeft` seconds on the clock counts down one per second,
   * reaches Result after exactly `timeLeft` seconds, signals the end exactly
   * once, and leaves marks, terms and teams untouched.
   */
  lemma {:induction false} CountdownRunsOut(s: GameState, n: nat)
    requires s.phase == Playing && 1 <= s.timeLeft
    ensures n < s.timeLeft ==> TickN(s, n) == s.(timeLeft := s.timeLeft - n) && EndSignals(s, n) == 0
    ensures n >= s.timeLeft ==> TickN(s, n) == s.(timeLeft := 0, phase := Result) && EndSignals(s, n) == 1
    decreases n
  {
    if n > 0 {
      var t := OnTick(s).next;
      if s.timeLeft == 1 {
        TicksIgnoredOutsidePlaying(t, n - 1);
      } else {
        CountdownRunsOut(t, n - 1);
        assert t.(timeLeft := t.timeLeft - (n - 1)) == s.(timeLeft := s.timeLeft - n);
        assert t.(timeLeft := 0, phase := Result) == s.(timeLeft := 0, phase := Result);
      }
    }
  }

  // ---------------------------------------------------------------------------
  // Worked scenarios

  /**
   * Two teams, thirty steps: Alpha starts its turn and round, taps three terms
   * and lets the clock run out; confirming moves Alpha to 3 and Beta is up.
   */
  lemma ScenarioThreeGuessed(drawn: seq<string>)
    requires |drawn| == ROUND_TERMS
    ensures
      var r := OnStartRound(OnStartTurn(Initial(Some(GameConfig(["Alpha", "Beta"], Easy, 30)))), drawn);
      var s := TickN(OnToggleTerm(OnToggleTerm(OnToggleTerm(r, 0), 1), 2), ROUND_SECONDS);
      && ValidState(s) && s.config.Some? && s.phase == Result &&
      var t := OnConfirmScore(s).next;
      && s.checked == [true, true, true, false, false] && Score(s.checked) == 3 && Steps(3) == 3
      && t.teams[0].position == 3 && t.phase == Board && t.teams[t.current].name == "Beta"
  {
    var s0 := Initial(Some(GameConfig(["Alpha", "Beta"], Easy, 30)));
    InitialValid(Some(GameConfig(["Alpha", "Beta"], Easy, 30)));
    var r := OnStartRound(OnStartTurn(s0), drawn);
    assert r.checked == [false, false, false, false, false];
    var r1 := OnToggleTerm(r, 0);
    assert !r1.checked[4];
    var r2 := OnToggleTerm(r1, 1);
    assert !r2.checked[4];
    var r3 := OnToggleTerm(r2, 2);
    assert !r3.checked[4];
    assert r3.checked == [true, true, true, false, false];
    assert r3.phase == Playing && r3.timeLeft == ROUND_SECONDS;
    CountdownRunsOut(r3, ROUND_SECONDS);
    var s := TickN(r3, ROUND_SECONDS);
    assert s == r3.(timeLeft := 0, phase := Result);
    assert [false, false][1..] == [false];
    assert [true, false, false][1..] == [false, false];
    assert [true, true, false, false][1..] == [true, false, false];
    assert s.checked[1..] == [true, true, false, false];
    assert Score(s.checked) == 3;
  }

  /** A perfect round for a team at 28 of 30 steps: six steps, clamped to 30, and the team wins. */
  lemma ScenarioPerfectFinish(s: GameState)
    requires ValidState(s) && s.config.Some? && s.config.value.duration == 30
    requires s.phase == Result && s.teams[s.current].position == 28
    requires s.checked == [true, true, true, true, true]
    ensures
      var tr := OnConfirmScore(s);
      && Score(s.checked) == 5 && Steps(5) == 6
      && tr.next.teams[s.current].position == 30 && tr.next.phase == Victory
      && tr.next.current == s.current && tr.effect == Celebrate
  {
    ScoreFullIffAllMarked(s.checked);
  }

  /** Thirty seconds with nothing tapped: one Result, one end signal, no marks, no steps. */
  lemma ScenarioTimeRunsOut(s: GameState, drawn: seq<string>)
    requires ValidState(s) && s.config.Some? && |drawn| == ROUND_TERMS
    ensures
      var r := OnStartRound(s, drawn);
      && TickN(r, ROUND_SECONDS).phase == Result
      && TickN(r, ROUND_SECONDS).checked == NoMarks(ROUND_TERMS)
      && EndSignals(r, ROUND_SECONDS) == 1
      && Steps(Score(TickN(r, ROUND_SECONDS).checked)) == 0
      && forall n: nat | n < ROUND_SECONDS :: TickN(r, n).phase == Playing
  {
    var r := OnStartRound(s, drawn);
    CountdownRunsOut(r, ROUND_SECONDS);
    forall n: nat | n < ROUND_SECONDS ensures TickN(r, n).phase == Playing {
      CountdownRunsOut(r, n);
    }
  }

  /** Tapping all five terms ends the round at once, and a late second of the clock is ignored. */
  lemma ScenarioAllGuessed(s: GameState, drawn: seq<string>)
    requires ValidState(s) && s.config.Some? && |drawn| == ROUND_TERMS
    ensures
      var r := OnStartRound(s, drawn);
      var t := OnToggleTerm(OnToggleTerm(OnToggleTerm(OnToggleTerm(OnToggleTerm(r, 0), 1), 2), 3), 4);
      && t.phase == Result && t.timeLeft == ROUND_SECONDS
      && OnTick(t) == Transition(t, NoEffect)
      && Steps(Score(t.checked)) == ROUND_TERMS + PERFECT_BONUS
  {
    var r := OnStartRound(s, drawn);
    var r1 := OnToggleTerm(r, 0);
    assert !r1.checked[4];
    var r2 := OnToggleTerm(r1, 1);
    assert !r2.checked[4];
    var r3 := OnToggleTerm(r2, 2);
    assert !r3.checked[4];
    var r4 := OnToggleTerm(r3, 3);
    assert !r4.checked[4];
    var t := OnToggleTerm(r4, 4);
    assert t.checked[0] && t.checked[1] && t.checked[2] && t.checked[3] && t.checked[4];
    assert AllMarked(t.checked);
    ScoreFullIffAllMarked(t.checked);
  }

  // ---------------------------------------------------------------------------
  // The screen as an object whose fields its handlers update

  class GameScreen {
    var config: Option<GameConfig>
    var teamStates: seq<TeamState>
    var currentTeamIndex: int
    var phase: Phase
    var currentTerms: seq<string>
    var checkedTerms: seq<bool>
    var timeLeft: int

    function State(): GameState
      reads this
    {
      GameState(config, teamStates, currentTeamIndex, phase, currentTerms, checkedTerms, timeLeft)
    }

    ghost predicate Valid()
      reads this
    {
      ValidState(State())
    }

    /** Mount the screen with the configuration read from the address (`None` if absent or unparsable). */
    constructor (parsed: Option<GameConfig>)
      requires parsed.Some? ==> |parsed.value.teams| > 0
      ensures Valid() && State() == Initial(parsed)
    {
      config := parsed;
      teamStates := if parsed.Some? then InitialTeams(parsed.value.teams) else [];
      currentTeamIndex := 0;
      phase := Board;
      currentTerms := [];
      checkedTerms := NoMarks(ROUND_TERMS);
      timeLeft := ROUND_SECONDS;
      new;
      InitialValid(parsed);
    }

    method StartTurn()
      requires Valid()
      modifies this
      ensures Valid() && State() == OnStartTurn(old(State()))
    {
      phase := Ready;
    }

    /** `drawn` stands for the five terms the term bank returns for the configured difficulty. */
    method StartRound(drawn: seq<string>)
      requires Valid() && |drawn| == ROUND_TERMS
      modifies this
      ensures Valid() && State() == OnStartRound(old(State()), drawn)
    {
      if config.None? {
        return;
      }
      currentTerms := drawn;
      checkedTerms := NoMarks(ROUND_TERMS);
      timeLeft := ROUND_SECONDS;
      phase := Playing;
    }

    method ToggleTerm(index: int)
      requires Valid() && 0 <= index < ROUND_TERMS
      modifies this
      ensures Valid() && State() == OnToggleTerm(old(State()), index)
    {
      if phase != Playing {
        return;
      }
      var newChecked := checkedTerms[index := !checkedTerms[index]];
      checkedTerms := newChecked;
      if AllMarked(newChecked) {
        phase := Result;
      }
    }

    /** One firing of the one-second interval; it only exists while the phase is Playing. */
    method Tick() returns (effect: Effect)
      requires Valid()
      modifies this
      ensures Valid() && Transition(State(), effect) == OnTick(old(State()))
    {
      effect := NoEffect;
      if phase != Playing {
        return;
      }
      if timeLeft <= 1 {
        phase := Result;
        effect := PlayEndSound;
        timeLeft := 0;
      } else {
        timeLeft := timeLeft - 1;
      }
    }

    method ConfirmScore() returns (effect: Effect)
      requires Valid()
      modifies this
      ensures Valid() && Transition(State(), effect) == OnConfirmScore(old(State()))
      ensures old(config).Some? ==> teamStates[old(currentTeamIndex)].position <= config.value.duration
    {
      effect := NoEffect;
      if config.None? {
        return;
      }
      ghost var before := State();
      var score := Score(checkedTerms);
      var steps := score;
      if score == ROUND_TERMS {
        steps := steps + PERFECT_BONUS;
      }
      var newTeamStates := teamStates;
      var currentTeam := newTeamStates[currentTeamIndex];
      currentTeam := currentTeam.(position := NewPosition(currentTeam.position, steps, config.value.duration));
      newTeamStates := newTeamStates[currentTeamIndex := currentTeam];
      teamStates := newTeamStates;
      if currentTeam.position >= config.value.duration {
        phase := Victory;
        effect := Celebrate;
      } else {
        currentTeamIndex := (currentTeamIndex + 1) % |teamStates|;
        phase := Board;
      }
      ConfirmPreservesValid(before);
    }
  }
}
