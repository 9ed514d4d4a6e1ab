/**
 * The setup screen: edits the list of team names, picks a difficulty and a
 * game length, and builds the configuration the gameplay screen starts from.
 */
module Home {
  import opened Game

  const MIN_TEAMS: nat := 2
  const MAX_TEAMS: nat := 6

  /** Steps to the finish for the "short" game and for any other choice. */
  const SHORT_DURATION: nat := 30
  const LONG_DURATION: nat := 50

  /** The roster the screen opens with. */
  const INITIAL_TEAMS: seq<string> := ["Team Oranje", "Team Blauw"]

  predicate Distinct(names: seq<string>) {
    forall i, j | 0 <= i < j < |names| :: names[i] != names[j]
  }

  /** What every roster the screen can show satisfies. */
  predicate ValidRoster(teams: seq<string>) {
    && MIN_TEAMS <= |teams| <= MAX_TEAMS
    && Distinct(teams)
    && forall k | 0 <= k < |teams| :: teams[k] != ""
  }

  /** The add button's guard: a non-empty name, not taken yet, and room for one more team. */
  predicate CanAdd(teams: seq<string>, name: string) {
    name != "" && name !in teams && |teams| < MAX_TEAMS
  }

  /** The position `Array.prototype.splice` starts at for a (possibly negative) index: counted from the end when negative, clamped to the list. */
  function SpliceStart(len: nat, index: int): (k: nat)
    ensures k <= len
    ensures 0 <= index < len ==> k == index
    ensures index >= len ==> k == len
    ensures index < 0 ==> k == if len + index < 0 then 0 else len + index
  {
    if index < 0 then (if len + index < 0 then 0 else len + index)
    else if index < len then index
    else len
  }

  /** The list after `splice(index, 1)` on a copy: one element fewer when the start falls inside, order kept. */
  function SplicedOne(teams: seq<string>, index: int): (r: seq<string>)
    ensures var k := SpliceStart(|teams|, index);
      && (k < |teams| ==> |r| + 1 == |teams|)
      && (k == |teams| ==> r == teams)
      && (forall j | 0 <= j < k && j < |r| :: r[j] == teams[j])
      && (forall j | k <= j < |r| :: r[j] == teams[j + 1])
  {
    var k := SpliceStart(|teams|, index);
    if k < |teams| then teams[..k] + teams[k + 1..] else teams
  }

  /** Removing an element keeps the remaining names distinct and non-empty. */
  lemma SplicedOneKeepsNames(teams: seq<string>, index: int)
    requires Distinct(teams) && forall k | 0 <= k < |teams| :: teams[k] != ""
    ensures Distinct(SplicedOne(teams, index))
    ensures forall k | 0 <= k < |SplicedOne(teams, index)| :: SplicedOne(teams, index)[k] != ""
  {
  }

  /** Adding a name the guard lets through keeps the roster valid. */
  lemma AddKeepsRosterValid(teams: seq<string>, name: string)
    requires ValidRoster(teams) && CanAdd(teams, name)
    ensures ValidRoster(teams + [name])
  {
  }

  /** The configuration handed to the gameplay screen. */
  function StartGameConfig(teams: seq<string>, difficulty: Difficulty, duration: string): (cfg: GameConfig)
    ensures cfg.teams == teams && cfg.difficulty == difficulty
    ensures duration == "short" ==> cfg.duration == SHORT_DURATION
    ensures duration != "short" ==> cfg.duration == LONG_DURATION
  {
    GameConfig(teams, difficulty, if duration == "short" then SHORT_DURATION else LONG_DURATION)
  }

  /**
   * A configuration built from a valid roster starts a playable game: the
   * gameplay screen's invariant holds, and every team has its own name and colour.
   */
  lemma StartedGameIsPlayable(teams: seq<string>, difficulty: Difficulty, duration: string)
    requires ValidRoster(teams)
    ensures var s := Initial(Some(StartGameConfig(teams, difficulty, duration)));
      && ValidState(s)
      && TeamNames(s.teams) == teams && Distinct(TeamNames(s.teams))
      && (forall i, j | 0 <= i < j < |s.teams| :: s.teams[i].color != s.teams[j].color)
  {
    var cfg := StartGameConfig(teams, difficulty, duration);
    InitialValid(Some(cfg));
    forall i, j | 0 <= i < j < |teams|
      ensures InitialTeams(teams)[i].color != InitialTeams(teams)[j].color
    {
      InitialColorsDistinct(teams, i, j);
    }
  }

  /** The setup screen's state: the roster, the name being typed, and the two choices. */
  class Setup {
    var teams: seq<string>
    var newTeam: string
    var difficulty: Difficulty
    var duration: string

    ghost predicate Valid()
      reads this
    {
      ValidRoster(teams)
    }

    constructor ()
      ensures Valid()
      ensures teams == INITIAL_TEAMS && newTeam == "" && difficulty == Easy && duration == "short"
    {
      teams := INITIAL_TEAMS;
      newTeam := "";
      difficulty := Easy;
      duration := "short";
    }

    /** The name field's change handler. */
    method SetNewTeam(text: string)
      requires Valid()
      modifies this
      ensures Valid() && newTeam == text
      ensures teams == old(teams) && difficulty == old(difficulty) && duration == old(duration)
    {
      newTeam := text;
    }

    method SetDifficulty(choice: Difficulty)
      requires Valid()
      modifies this
      ensures Valid() && difficulty == choice
      ensures teams == old(teams) && newTeam == old(newTeam) && duration == old(duration)
    {
      difficulty := choice;
    }

    method SetDuration(choice: string)
      requires Valid()
      modifies this
      ensures Valid() && duration == choice
      ensures teams == old(teams) && newTeam == old(newTeam) && difficulty == old(difficulty)
    {
      duration := choice;
    }

    /** Append the typed name and clear the field, unless the guard refuses; then nothing changes. */
    method AddTeam()
      requires Valid()
      modifies this
      ensures Valid()
      ensures CanAdd(old(teams), old(newTeam)) ==> teams == old(teams) + [old(newTeam)] && newTeam == ""
      ensures !CanAdd(old(teams), old(newTeam)) ==> teams == old(teams) && newTeam == old(newTeam)
      ensures difficulty == old(difficulty) && duration == old(duration)
    {
      if newTeam != "" && newTeam !in teams && |teams| < MAX_TEAMS {
        AddKeepsRosterValid(teams, newTeam);
        teams := teams + [newTeam];
        newTeam := "";
      }
    }

    /** Remove the team at `index` (as `splice(index, 1)` does on a copy) while more than two remain. */
    method RemoveTeam(index: int)
      requires Valid()
      modifies this
      ensures Valid()
      ensures |old(teams)| > MIN_TEAMS ==> teams == SplicedOne(old(teams), index)
      ensures |old(teams)| > MIN_TEAMS && 0 <= index < |old(teams)| ==>
                teams == old(teams)[..index] + old(teams)[index + 1..]
      ensures |old(teams)| <= MIN_TEAMS ==> teams == old(teams)
      ensures newTeam == old(newTeam) && difficulty == old(difficulty) && duration == old(duration)
    {
      if |teams| > MIN_TEAMS {
        var newTeams := teams;
        SplicedOneKeepsNames(newTeams, index);
        newTeams := SplicedOne(newTeams, index);
        teams := newTeams;
      }
    }

    /** The configuration the "start game" button hands to the gameplay screen; the screen itself is unchanged. */
    method StartGame() returns (cfg: GameConfig)
      requires Valid()
      ensures cfg.teams == teams && cfg.difficulty == difficulty
      ensures cfg.duration == if duration == "short" then SHORT_DURATION else LONG_DURATION
      ensures Initial(Some(cfg)).teams != [] && ValidState(Initial(Some(cfg)))
    {
      cfg := StartGameConfig(teams, difficulty, duration);
      StartedGameIsPlayable(teams, difficulty, duration);
    }
  }
}
