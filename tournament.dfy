/**
 * The tournament component (client/components/tournament.js): it validates the two entries,
 * builds one round component per round, fetches the first round's match-ups, plays the
 * rounds in order, building each later round's match-ups from the winners of the one
 * before, and shows the winner.
 *
 * What the rounds produce is stated twice: once on the objects (the Tournament class
 * below), and once as a function of the server's answers alone (Play), which the class's
 * methods are proved to agree with and about which the tournament's properties are proved.
 */
module TournamentComponent {
  import opened Wrappers
  import opened TournamentService
  import opened TeamComponent
  import opened TournamentCalculator
  import opened MatchComponent
  import opened RoundComponent

  /** How running the rounds ends: with the value processRounds resolves to (the first
      winner of a round with at most one winner, or nothing when every round was played),
      with a thrown error, or never, when createRoundMatches loops forever. */
  datatype Outcome<T> = Finished(winner: Option<T>) | Crashed | Diverged

  /** The same outcome with each team replaced by its id. */
  function OutcomeIds(outcome: Outcome<Team>): (ids: Outcome<int>)
    ensures ids.Finished? <==> outcome.Finished?
    ensures ids.Crashed? <==> outcome.Crashed?
    ensures outcome.Finished? ==> ids.winner == IdOf(outcome.winner)
  {
    match outcome
    case Finished(winner) => Finished(IdOf(winner))
    case Crashed => Crashed
    case Diverged => Diverged
  }

  /** Every entry is present. */
  predicate AllPresent<T>(xs: seq<Option<T>>)
  {
    forall i :: 0 <= i < |xs| ==> xs[i].Some?
  }

  /** The entries of a list whose entries are all present. */
  function Unwrapped<T>(xs: seq<Option<T>>): (values: seq<T>)
    requires AllPresent(xs)
    ensures |values| == |xs|
    ensures forall i :: 0 <= i < |xs| ==> xs[i] == Some(values[i])
  {
    if xs == [] then [] else [xs[0].value] + Unwrapped(xs[1..])
  }

  /** The ids of the teams a round returned, in order. */
  function WinnerIdsOf(winners: seq<Option<Team>>): (ids: seq<Option<int>>)
    ensures |ids| == |winners|
    ensures forall i :: 0 <= i < |winners| ==> ids[i] == IdOf(winners[i])
  {
    if winners == [] then [] else [IdOf(winners[0])] + WinnerIdsOf(winners[1..])
  }

  /** The ids the server's answers make the winners of `matchesData`, in order, in round
      `round`. */
  function RoundWinnerIds(server: Server, tournamentId: int, round: int, matchesData: seq<MatchData>): (ids: seq<Option<int>>)
    ensures |ids| == |matchesData|
  {
    if matchesData == [] then []
    else [MatchWinnerId(server, tournamentId, round, matchesData[0])] + RoundWinnerIds(server, tournamentId, round, matchesData[1..])
  }

  /** Entry `i` of RoundWinnerIds is the winner of match-up `i`. */
  lemma {:induction false} RoundWinnerIdsAt(server: Server, tournamentId: int, round: int, matchesData: seq<MatchData>)
    ensures forall i :: 0 <= i < |matchesData| ==>
      RoundWinnerIds(server, tournamentId, round, matchesData)[i] == MatchWinnerId(server, tournamentId, round, matchesData[i])
  {
    if matchesData != [] {
      RoundWinnerIdsAt(server, tournamentId, round, matchesData[1..]);
    }
  }

  /** What processRounds does once a round has returned winners with ids `ids`. */
  datatype Step = Return(winner: Option<int>) | Continue(next: seq<MatchData>) | Throw | Hang

  /** At most one winner: it is returned (nothing for none). Otherwise getTeamIds throws on
      a missing winner; createRoundMatches loops forever unless the winners split into
      whole matches of `teamsPerMatch`; and otherwise it makes the next round's match-ups. */
  function NextStep(ids: seq<Option<int>>, teamsPerMatch: int): (step: Step)
    ensures step.Return? <==> |ids| <= 1
    ensures step.Return? && ids != [] ==> step.winner == ids[0]
  {
    if |ids| <= 1 then Return(if ids == [] then None else ids[0])
    else if !AllPresent(ids) then Throw
    else if !(teamsPerMatch > 0 && |ids| % teamsPerMatch == 0) then Hang
    else Continue(RoundMatches(Unwrapped(ids), teamsPerMatch))
  }

  /** When processRounds goes on, every winner was present, the winners fill whole matches,
      and the next round's match-ups hold exactly the winners' ids, in order. */
  lemma NextRoundHoldsWinners(ids: seq<Option<int>>, teamsPerMatch: int)
    ensures var step := NextStep(ids, teamsPerMatch);
      step.Continue? ==>
        AllPresent(ids) && teamsPerMatch > 0 && |ids| % teamsPerMatch == 0
        && |step.next| == |ids| / teamsPerMatch && AllTeamIds(step.next) == Unwrapped(ids)
  {
    if |ids| > 1 && AllPresent(ids) && teamsPerMatch > 0 && |ids| % teamsPerMatch == 0 {
      RoundMatchesCover(Unwrapped(ids), teamsPerMatch);
    }
  }

  /** How a step that does not continue ends processRounds. */
  function StepOutcome(step: Step): (outcome: Outcome<int>)
    requires !step.Continue?
  {
    match step
    case Return(winner) => Finished(winner)
    case Throw => Crashed
    case Hang => Diverged
  }

  /** The outcome of running rounds and the match-ups the last round was given. */
  datatype Run = Run(outcome: Outcome<int>, lastMatches: seq<MatchData>)

  /** The rounds of sizes `sizes`, numbered from `round`, run from the match-ups
      `matchesData`, as the server's answers determine them. A round with more match
      components than match-ups throws. */
  function Play(server: Server, tournamentId: int, teamsPerMatch: int, sizes: seq<nat>, round: int, matchesData: seq<MatchData>): Run
    decreases |sizes|
  {
    if sizes == [] then Run(Finished(None), matchesData)
    else if |matchesData| < sizes[0] then Run(Crashed, matchesData)
    else
      var step := NextStep(RoundWinnerIds(server, tournamentId, round, matchesData[..sizes[0]]), teamsPerMatch);
      if step.Continue? then Play(server, tournamentId, teamsPerMatch, sizes[1..], round + 1, step.next)
      else Run(StepOutcome(step), matchesData)
  }

  /** A multiple of `b` splits into whole groups of `b`. */
  lemma MultipleSplits(x: int, b: int)
    requires b > 0
    ensures (b * x) % b == 0 && (b * x) / b == x
  {
    DivExact(x, b);
    assert b * x == x * b;
  }

  /** An id of one match-up is among the ids of all of them. */
  lemma {:induction false} AllTeamIdsHas(matchesData: seq<MatchData>, k: int, id: int)
    requires 0 <= k < |matchesData| && id in matchesData[k].teamIds
    ensures id in AllTeamIds(matchesData)
    decreases k
  {
    if k > 0 {
      AllTeamIdsHas(matchesData[1..], k - 1, id);
    }
  }

  /** A round that returns a winner returns the winner of its first match-up, who played in it. */
  lemma FinalWinnerPlayed(server: Server, tournamentId: int, teamsPerMatch: int, round: int, matchesData: seq<MatchData>, size: nat)
    requires size <= |matchesData|
    ensures var step := NextStep(RoundWinnerIds(server, tournamentId, round, matchesData[..size]), teamsPerMatch);
      step.Return? && step.winner.Some? ==> step.winner.value in AllTeamIds(matchesData)
  {
    var ids := RoundWinnerIds(server, tournamentId, round, matchesData[..size]);
    var step := NextStep(ids, teamsPerMatch);
    if step.Return? && step.winner.Some? {
      RoundWinnerIdsAt(server, tournamentId, round, matchesData[..size]);
      assert ids[0] == MatchWinnerId(server, tournamentId, round, matchesData[0]);
      AllTeamIdsHas(matchesData, 0, step.winner.value);
    }
  }

  /** The tournament's winner, when it has one, played in the last round that was run: it
      is one of the teams of that round's match-ups. */
  lemma {:induction false} WinnerPlayedLast(server: Server, tournamentId: int, teamsPerMatch: int, sizes: seq<nat>, round: int, matchesData: seq<MatchData>)
    ensures var run := Play(server, tournamentId, teamsPerMatch, sizes, round, matchesData);
      run.outcome.Finished? && run.outcome.winner.Some? ==> run.outcome.winner.value in AllTeamIds(run.lastMatches)
    decreases |sizes|
  {
    if sizes != [] && |matchesData| >= sizes[0] {
      var step := NextStep(RoundWinnerIds(server, tournamentId, round, matchesData[..sizes[0]]), teamsPerMatch);
      if step.Continue? {
        WinnerPlayedLast(server, tournamentId, teamsPerMatch, sizes[1..], round + 1, step.next);
      } else {
        FinalWinnerPlayed(server, tournamentId, teamsPerMatch, round, matchesData, sizes[0]);
      }
    }
  }

  /** The tournament's winner, when it has one, is one of the teams of the match-ups the
      rounds started from. */
  lemma {:induction false} WinnerIsEntrant(server: Server, tournamentId: int, teamsPerMatch: int, sizes: seq<nat>, round: int, matchesData: seq<MatchData>)
    ensures var outcome := Play(server, tournamentId, teamsPerMatch, sizes, round, matchesData).outcome;
      outcome.Finished? && outcome.winner.Some? ==> outcome.winner.value in AllTeamIds(matchesData)
    decreases |sizes|
  {
    if sizes != [] && |matchesData| >= sizes[0] {
      var played := matchesData[..sizes[0]];
      var ids := RoundWinnerIds(server, tournamentId, round, played);
      RoundWinnerIdsAt(server, tournamentId, round, played);
      var step := NextStep(ids, teamsPerMatch);
      if step.Return? && step.winner.Some? {
        assert ids[0] == MatchWinnerId(server, tournamentId, round, matchesData[0]);
        AllTeamIdsHas(matchesData, 0, step.winner.value);
      } else if step.Continue? {
        var winnerIds := Unwrapped(ids);
        WinnerIsEntrant(server, tournamentId, teamsPerMatch, sizes[1..], round + 1, step.next);
        RoundMatchesCover(winnerIds, teamsPerMatch);
        var outcome := Play(server, tournamentId, teamsPerMatch, sizes[1..], round + 1, step.next).outcome;
        if outcome.Finished? && outcome.winner.Some? {
          var k :| 0 <= k < |winnerIds| && winnerIds[k] == outcome.winner.value;
          assert ids[k] == MatchWinnerId(server, tournamentId, round, matchesData[k]);
          AllTeamIdsHas(matchesData, k, outcome.winner.value);
        }
      }
    }
  }

  /** With the round sizes generateRounds plans for at least two teams per match, every
      round with more than one game has a multiple of `teamsPerMatch` winners, so
      createRoundMatches never loops forever. */
  lemma {:induction false} PlannedRunsNeverHang(server: Server, tournamentId: int, teamsPerMatch: int, numberOfRounds: nat, round: int, matchesData: seq<MatchData>)
    requires teamsPerMatch >= 2
    ensures Play(server, tournamentId, teamsPerMatch, PlannedSizes(teamsPerMatch, numberOfRounds), round, matchesData).outcome != Diverged
    decreases numberOfRounds
  {
    var sizes := PlannedSizes(teamsPerMatch, numberOfRounds);
    if numberOfRounds == 0 {
      assert Play(server, tournamentId, teamsPerMatch, sizes, round, matchesData) == Run(Finished(None), matchesData);
    } else if |matchesData| < sizes[0] {
      assert Play(server, tournamentId, teamsPerMatch, sizes, round, matchesData) == Run(Crashed, matchesData);
    } else {
      var ids := RoundWinnerIds(server, tournamentId, round, matchesData[..sizes[0]]);
      var step := NextStep(ids, teamsPerMatch);
      if step.Continue? {
        assert sizes[1..] == PlannedSizes(teamsPerMatch, numberOfRounds - 1);
        PlannedRunsNeverHang(server, tournamentId, teamsPerMatch, numberOfRounds - 1, round + 1, step.next);
        assert Play(server, tournamentId, teamsPerMatch, sizes, round, matchesData)
          == Play(server, tournamentId, teamsPerMatch, sizes[1..], round + 1, step.next);
      } else {
        if |ids| > 1 && AllPresent(ids) {
          var x := Pow(teamsPerMatch, numberOfRounds - 2);
          assert |ids| == teamsPerMatch * x;
          MultipleSplits(x, teamsPerMatch);
        }
        assert !step.Hang?;
        assert Play(server, tournamentId, teamsPerMatch, sizes, round, matchesData).outcome == StepOutcome(step);
      }
    }
  }

  /** With the planned round sizes, a first round given at least as many match-ups as it has
      games, none of them empty, and a server that names a winner for every match-up with
      teams, the rounds end with a winner. */
  lemma {:induction false} PlannedRunsFinish(server: Server, tournamentId: int, teamsPerMatch: int, numberOfRounds: nat, round: int, matchesData: seq<MatchData>)
    requires teamsPerMatch >= 2 && numberOfRounds >= 1
    requires |matchesData| >= Pow(teamsPerMatch, numberOfRounds - 1)
    requires forall j :: 0 <= j < Pow(teamsPerMatch, numberOfRounds - 1) ==> matchesData[j].teamIds != []
    requires forall r: int, m: MatchData :: m.teamIds != [] ==> MatchWinnerId(server, tournamentId, r, m).Some?
    ensures var outcome := Play(server, tournamentId, teamsPerMatch, PlannedSizes(teamsPerMatch, numberOfRounds), round, matchesData).outcome;
      outcome.Finished? && outcome.winner.Some?
    decreases numberOfRounds
  {
    var sizes := PlannedSizes(teamsPerMatch, numberOfRounds);
    var ids := RoundWinnerIds(server, tournamentId, round, matchesData[..sizes[0]]);
    RoundWinnerIdsAt(server, tournamentId, round, matchesData[..sizes[0]]);
    assert AllPresent(ids);
    if |ids| > 1 {
      assert numberOfRounds >= 2;
      var x := Pow(teamsPerMatch, numberOfRounds - 2);
      MultipleSplits(x, teamsPerMatch);
      assert sizes[1..] == PlannedSizes(teamsPerMatch, numberOfRounds - 1);
      var next := RoundMatches(Unwrapped(ids), teamsPerMatch);
      RoundMatchesCover(Unwrapped(ids), teamsPerMatch);
      PlannedRunsFinish(server, tournamentId, teamsPerMatch, numberOfRounds - 1, round + 1, next);
    }
  }

  /** A server that answers every request with `null` names a winner for every match-up
      with teams: with the corrected getWinner the winning score is none, every team ties on
      no score, and the lowest id wins. So PlannedRunsFinish's condition on the server can be
      met. */
  lemma SilentServerNamesWinners(tournamentId: int, round: int, matchData: MatchData)
    requires matchData.teamIds != []
    ensures var winner := MatchWinnerId(Server(map[], map[], map[], map[]), tournamentId, round, matchData);
      winner.Some? && forall i :: 0 <= i < |matchData.teamIds| ==> winner.value <= matchData.teamIds[i]
  {
    var server := Server(map[], map[], map[], map[]);
    var entries := PlayedEntries(server, tournamentId, matchData.teamIds);
    WinnerIndexSelects(None, entries);
    assert entries[0].1 == None;
  }

  /** Two winners in matches of two make the single match-up `{match: 0, teamIds: [first, second]}`. */
  lemma PairUp(first: int, second: int)
    ensures RoundMatches([first, second], 2) == [MatchData(0, [first, second])]
  {
    var ids := [first, second];
    RoundMatchesFromUnfold(ids, 2, 0);
    assert ids[..2] == ids && ids[2..] == [];
    assert RoundMatchesFrom([], 2, 1) == [];
  }

  /** Two teams per match and four teams: the rounds have 2 and 1 games; the first round's
      two winners meet in the single match-up `{match: 0, teamIds: [first, second]}`, and
      the winner of that match-up wins the tournament. */
  lemma FourTeamsInPairs(server: Server, tournamentId: int, matchesData: seq<MatchData>, first: int, second: int, champion: Option<int>)
    requires |matchesData| == 2
    requires MatchWinnerId(server, tournamentId, 0, matchesData[0]) == Some(first)
    requires MatchWinnerId(server, tournamentId, 0, matchesData[1]) == Some(second)
    requires MatchWinnerId(server, tournamentId, 1, MatchData(0, [first, second])) == champion
    ensures Pow(2, 2) == 4 && PlannedSizes(2, 2) == [2, 1]
    ensures Play(server, tournamentId, 2, [2, 1], 0, matchesData) == Run(Finished(champion), [MatchData(0, [first, second])])
  {
    assert PlannedSizes(2, 2) == [Pow(2, 1)] + PlannedSizes(2, 1);
    var next := [MatchData(0, [first, second])];
    FirstRoundOfFour(server, tournamentId, matchesData, first, second);
    FinalOfFour(server, tournamentId, next, champion);
    assert [2, 1][1..] == [1];
  }

  /** The first round of four teams in pairs pairs up its two winners. */
  lemma FirstRoundOfFour(server: Server, tournamentId: int, matchesData: seq<MatchData>, first: int, second: int)
    requires |matchesData| == 2
    requires MatchWinnerId(server, tournamentId, 0, matchesData[0]) == Some(first)
    requires MatchWinnerId(server, tournamentId, 0, matchesData[1]) == Some(second)
    ensures NextStep(RoundWinnerIds(server, tournamentId, 0, matchesData[..2]), 2) == Continue([MatchData(0, [first, second])])
  {
    var ids := RoundWinnerIds(server, tournamentId, 0, matchesData[..2]);
    RoundWinnerIdsAt(server, tournamentId, 0, matchesData[..2]);
    assert Unwrapped(ids) == [first, second];
    PairUp(first, second);
  }

  /** A final of a single match-up ends the run with that match-up's winner. */
  lemma FinalOfFour(server: Server, tournamentId: int, next: seq<MatchData>, champion: Option<int>)
    requires |next| == 1
    requires MatchWinnerId(server, tournamentId, 1, next[0]) == champion
    ensures Play(server, tournamentId, 2, [1], 1, next) == Run(Finished(champion), next)
  {
    assert next[..1] == next;
    RoundWinnerIdsAt(server, tournamentId, 1, next);
  }

  /** Ten teams cannot play in matches of three: 9 < 10 < 27. */
  lemma TenIsNotAPowerOfThree()
    ensures !IsPowerOf(10, 3)
  {
    assert Pow(3, 1) == 3 && Pow(3, 2) == 9 && Pow(3, 3) == 27;
    PowerOvershoot(3, 10, 3);
  }

  /** runTournament as the server's answers determine it, for the `/tournament` request
      `request` and rounds of sizes `sizes` that combine winners in matches of
      `teamsPerMatch`: no response object throws; a response without a usable id or
      match-up list ends with nothing; otherwise the rounds are played from its match-ups. */
  function TournamentRun(server: Server, request: (int, int), teamsPerMatch: int, sizes: seq<nat>): (run: Run)
    ensures request !in server.tournament ==> run.outcome == Crashed
    ensures run.outcome.Finished? && run.outcome.winner.Some? ==>
      request in server.tournament && server.tournament[request].tournamentId.Some?
      && server.tournament[request].matchUps.Some?
  {
    match Lookup(server.tournament, request)
    case None => Run(Crashed, [])
    case Some(data) =>
      if data.tournamentId.None? || data.matchUps.None? then Run(Finished(None), [])
      else Play(server, data.tournamentId.value, teamsPerMatch, sizes, 0, data.matchUps.value)
  }

  /** Running the tournament with the planned round sizes ends with a winner when the
      `/tournament` answer carries an id and at least as many first-round match-ups as the
      first round has games, none of them empty, and the server names a winner for every
      match-up with teams in that tournament. */
  lemma TournamentRunFinishes(server: Server, request: (int, int), teamsPerMatch: int, numberOfRounds: nat)
    requires teamsPerMatch >= 2 && numberOfRounds >= 1
    requires request in server.tournament
    requires server.tournament[request].tournamentId.Some? && server.tournament[request].matchUps.Some?
    requires |server.tournament[request].matchUps.value| >= Pow(teamsPerMatch, numberOfRounds - 1)
    requires forall j :: 0 <= j < Pow(teamsPerMatch, numberOfRounds - 1) ==>
      server.tournament[request].matchUps.value[j].teamIds != []
    requires forall r: int, m: MatchData :: m.teamIds != [] ==>
      MatchWinnerId(server, server.tournament[request].tournamentId.value, r, m).Some?
    ensures var outcome := TournamentRun(server, request, teamsPerMatch, PlannedSizes(teamsPerMatch, numberOfRounds)).outcome;
      outcome.Finished? && outcome.winner.Some?
  {
    var data := server.tournament[request];
    PlannedRunsFinish(server, data.tournamentId.value, teamsPerMatch, numberOfRounds, 0, data.matchUps.value);
  }

  /** For at least two teams per match and the planned round sizes, running the tournament
      never loops forever, and its winner, when it has one, is one of the teams of the
      first round's match-ups. */
  lemma TournamentRunNeverHangs(server: Server, request: (int, int), teamsPerMatch: int, numberOfRounds: nat)
    requires teamsPerMatch >= 2
    ensures var run := TournamentRun(server, request, teamsPerMatch, PlannedSizes(teamsPerMatch, numberOfRounds));
      run.outcome != Diverged
      && (run.outcome.Finished? && run.outcome.winner.Some? ==>
            request in server.tournament && server.tournament[request].matchUps.Some?
            && run.outcome.winner.value in AllTeamIds(server.tournament[request].matchUps.value))
  {
    var sizes := PlannedSizes(teamsPerMatch, numberOfRounds);
    if request in server.tournament {
      var data := server.tournament[request];
      if data.tournamentId.Some? && data.matchUps.Some? {
        PlannedRunsNeverHang(server, data.tournamentId.value, teamsPerMatch, numberOfRounds, 0, data.matchUps.value);
        WinnerIsEntrant(server, data.tournamentId.value, teamsPerMatch, sizes, 0, data.matchUps.value);
      }
    }
  }

  /** The number of match components of each round. */
  function Sizes(rounds: seq<Round>): (sizes: seq<nat>)
    ensures |sizes| == |rounds|
    ensures forall j :: 0 <= j < |rounds| ==> sizes[j] == |rounds[j].matchComponents|
  {
    if rounds == [] then [] else [|rounds[0].matchComponents|] + Sizes(rounds[1..])
  }

  /** The game counts generateRounds gives `numberOfRounds` rounds of a tournament of
      `teamsPerMatch^numberOfRounds` teams: `teamsPerMatch^(numberOfRounds - 1 - j)` in round `j`. */
  function PlannedSizes(teamsPerMatch: nat, numberOfRounds: nat): (sizes: seq<nat>)
    requires teamsPerMatch >= 1
    ensures |sizes| == numberOfRounds
    ensures forall j :: 0 <= j < numberOfRounds ==> sizes[j] == Pow(teamsPerMatch, numberOfRounds - 1 - j)
  {
    if numberOfRounds == 0 then []
    else [Pow(teamsPerMatch, numberOfRounds - 1)] + PlannedSizes(teamsPerMatch, numberOfRounds - 1)
  }

  /** The `${name}` a template literal shows for a team name: null when there is none. */
  function DisplayedName(name: Option<string>): (shown: string)
    ensures name.Some? ==> shown == name.value
    ensures name.None? ==> shown == "null"
  {
    if name.None? then "null" else name.value
  }

  class Tournament {
    var tournamentId: Option<int>
    var isComplete: bool
    var numberOfRounds: int
    var rounds: seq<Round>
    var teamsPerMatch: int
    var currentRoundMatches: Option<seq<MatchData>>
    /** The text of the winner display element. */
    var winnerDisplay: string
    /** Whether the start button is disabled; start can be clicked only when it is not. */
    var startDisabled: bool
    const maximumNumberOfTeamPerTournament: int
    const server: Server

    /** A new tournament: no id, not complete, no rounds, no match-ups, start enabled. */
    constructor (maximumNumberOfTeamPerTournament: int, server: Server)
      ensures tournamentId == None && !isComplete && numberOfRounds == 0 && rounds == []
      ensures teamsPerMatch == 0 && currentRoundMatches == None
      ensures winnerDisplay == "" && !startDisabled
      ensures this.maximumNumberOfTeamPerTournament == maximumNumberOfTeamPerTournament
      ensures this.server == server
      ensures Ready()
    {
      tournamentId := None;
      isComplete := false;
      numberOfRounds := 0;
      rounds := [];
      teamsPerMatch := 0;
      currentRoundMatches := None;
      winnerDisplay := "";
      startDisabled := false;
      this.maximumNumberOfTeamPerTournament := maximumNumberOfTeamPerTournament;
      this.server := server;
    }

    /** Round `j` is numbered `j`, asks this tournament's server and is itself valid; the
        rounds are distinct. */
    ghost predicate Valid()
      reads this`rounds
    {
      (forall j :: 0 <= j < |rounds| ==>
         rounds[j].number == j && rounds[j].server == server && rounds[j].Valid())
      && (forall j, j' :: 0 <= j < j' < |rounds| ==> rounds[j] != rounds[j'])
    }

    /** No round has recorded a winner yet. */
    ghost predicate Unplayed()
      reads this`rounds, rounds
    {
      forall j :: 0 <= j < |rounds| ==> rounds[j].winningTeams == []
    }

    /** What holds between two clicks of start: the state is valid, and while start is
        enabled there are no rounds yet or the last tournament is complete. */
    ghost predicate Ready()
      reads this`rounds, this`startDisabled, this`isComplete
    {
      Valid() && (!startDisabled ==> rounds == [] || isComplete)
    }

    /** The round components and their match components. */
    ghost function Footprint(): set<object>
      reads this`rounds
    {
      (set j | 0 <= j < |rounds| :: rounds[j] as object)
      + (set j, k | 0 <= j < |rounds| && 0 <= k < |rounds[j].matchComponents| :: rounds[j].matchComponents[k] as object)
    }

    /** reset: the rounds, the id, the round count, the teams per match, the match-ups and
        the winner display are cleared; completion and the start button are left alone. */
    method Reset()
      modifies this`rounds, this`tournamentId, this`numberOfRounds, this`teamsPerMatch,
        this`currentRoundMatches, this`winnerDisplay
      ensures rounds == [] && tournamentId == None && numberOfRounds == 0 && teamsPerMatch == 0
      ensures currentRoundMatches == None && winnerDisplay == ""
    {
      rounds := [];
      tournamentId := None;
      numberOfRounds := 0;
      teamsPerMatch := 0;
      currentRoundMatches := None;
      winnerDisplay := "";
    }

    /** One step of generateRounds' loop: a new round numbered `roundNumber` with
        `numberOfGames` match components is appended. */
    method AddRound(roundNumber: int, numberOfGames: int)
      modifies this`rounds
      ensures |rounds| == |old(rounds)| + 1 && rounds[..|old(rounds)|] == old(rounds)
      ensures var round := rounds[|old(rounds)|];
        fresh(round) && round.number == roundNumber && round.server == server && round.Valid()
        && round.winningTeams == [] && round.tournamentId == None
        && |round.matchComponents| == (if numberOfGames < 0 then 0 else numberOfGames)
        && forall k :: 0 <= k < |round.matchComponents| ==> fresh(round.matchComponents[k])
    {
      var round := new Round(roundNumber, numberOfGames, server);
      rounds := rounds + [round];
    }

    /** generateRounds: the number of rounds is the exponent that makes `teamsPerMatch` into
        `numberOfTeams`, and one new round per round is appended, round `i` numbered `i`
        (counted from the first appended) with `teamsPerMatch^(numberOfRounds - 1 - i)`
        match components. */
    method GenerateRounds(teamsPerMatch: int, numberOfTeams: int)
      requires teamsPerMatch >= 2 && IsPowerOf(numberOfTeams, teamsPerMatch)
      modifies this`numberOfRounds, this`rounds
      ensures numberOfRounds >= 1 && Pow(teamsPerMatch, numberOfRounds) == numberOfTeams
      ensures |rounds| == |old(rounds)| + numberOfRounds && rounds[..|old(rounds)|] == old(rounds)
      ensures Sizes(rounds[|old(rounds)|..]) == PlannedSizes(teamsPerMatch, numberOfRounds)
      ensures forall j :: |old(rounds)| <= j < |rounds| ==>
        fresh(rounds[j]) && rounds[j].number == j - |old(rounds)| && rounds[j].server == server
        && rounds[j].Valid() && rounds[j].winningTeams == [] && rounds[j].tournamentId == None
        && forall k :: 0 <= k < |rounds[j].matchComponents| ==> fresh(rounds[j].matchComponents[k])
      ensures forall j, j' :: |old(rounds)| <= j < j' < |rounds| ==> rounds[j] != rounds[j']
    {
      var count := CalculateRounds(teamsPerMatch, numberOfTeams);
      numberOfRounds := count;
      var gamesPerRound := CalculateNumberOfGamesPerRound(teamsPerMatch, numberOfTeams, count);
      ghost var planned := PlannedSizes(teamsPerMatch, count);
      var i := 0;
      while i < |gamesPerRound|
        invariant 0 <= i <= |gamesPerRound| && numberOfRounds == count
        invariant |rounds| == |old(rounds)| + i && rounds[..|old(rounds)|] == old(rounds)
        invariant forall j :: |old(rounds)| <= j < |rounds| ==>
          fresh(rounds[j]) && rounds[j].number == j - |old(rounds)| && rounds[j].server == server
          && rounds[j].Valid() && rounds[j].winningTeams == [] && rounds[j].tournamentId == None
          && |rounds[j].matchComponents| == planned[j - |old(rounds)|]
          && forall k :: 0 <= k < |rounds[j].matchComponents| ==> fresh(rounds[j].matchComponents[k])
        invariant forall j, j' :: |old(rounds)| <= j < j' < |rounds| ==> rounds[j] != rounds[j']
      {
        var numberOfGames := gamesPerRound[i];
        AddRound(i, numberOfGames);
        i := i + 1;
      }
      assert Sizes(rounds[|old(rounds)|..]) == planned;
    }

    /** One step of processRounds' loop: round `i` is started with the current match-ups;
        the ids of the teams it returns are the ones the server's answers determine. */
    method PlayRound(i: nat) returns (winners: seq<Option<Team>>, crashed: bool)
      requires Valid() && i < |rounds| && tournamentId.Some? && currentRoundMatches.Some?
      requires rounds[i].winningTeams == []
      modifies rounds[i], rounds[i].matchComponents
      ensures crashed <==> |currentRoundMatches.value| < |rounds[i].matchComponents|
      ensures !crashed ==>
        WinnerIdsOf(winners) == RoundWinnerIds(server, tournamentId.value, i, currentRoundMatches.value[..|rounds[i].matchComponents|])
    {
      winners, crashed := rounds[i].Start(tournamentId.value, currentRoundMatches.value);
      if !crashed {
        RoundWinnerIdsAt(server, tournamentId.value, i, currentRoundMatches.value[..|rounds[i].matchComponents|]);
        assert WinnerIdsOf(winners)
          == RoundWinnerIds(server, tournamentId.value, i, currentRoundMatches.value[..|rounds[i].matchComponents|]);
      }
    }

    /** The rest of processRounds' loop body, after a round returned `winners`: with at most
        one winner, processRounds returns the first; otherwise getTeamIds throws on a missing
        winner, createRoundMatches loops forever unless the winners fill whole matches, and
        else the next round's match-ups replace the current ones. `outcome` is None when
        the loop goes on. */
    method Advance(winners: seq<Option<Team>>) returns (outcome: Option<Outcome<Team>>)
      modifies this`currentRoundMatches
      ensures var step := NextStep(WinnerIdsOf(winners), teamsPerMatch);
        (outcome.None? <==> step.Continue?)
        && (step.Continue? ==> currentRoundMatches == Some(step.next))
        && (!step.Continue? ==>
              currentRoundMatches == old(currentRoundMatches) && OutcomeIds(outcome.value) == StepOutcome(step))
      ensures outcome.Some? && outcome.value.Finished? ==>
        outcome.value.winner == if winners == [] then None else winners[0]
    {
      ghost var ids := WinnerIdsOf(winners);
      if |winners| <= 1 {
        return Some(Finished(if winners == [] then None else winners[0]));
      }
      if !AllPresent(winners) {
        assert !AllPresent(ids) by {
          var k :| 0 <= k < |winners| && winners[k].None?;
          assert ids[k].None?;
        }
        return Some(Crashed);
      }
      var teams := Unwrapped(winners);
      var teamIds := GetTeamIds(teams);
      assert AllPresent(ids) && Unwrapped(ids) == teamIds by {
        assert forall k :: 0 <= k < |ids| ==> ids[k] == Some(teamIds[k]);
      }
      if !(teamsPerMatch > 0 && |teamIds| % teamsPerMatch == 0) {
        return Some(Diverged);
      }
      var matches, _ := CreateRoundMatches(teamIds, teamsPerMatch);
      currentRoundMatches := Some(matches);
      return None;
    }

    /** One turn of processRounds' loop: round `i` is played with the current match-ups and
        the loop either ends, with `ended`, or goes on with the next round's match-ups;
        either way as the run of the rounds from `i` on determines. */
    method PlayTurn(i: nat) returns (ended: Option<Outcome<Team>>)
      requires Valid() && i < |rounds| && tournamentId.Some? && currentRoundMatches.Some?
      requires rounds[i].winningTeams == []
      modifies this`currentRoundMatches, rounds[i], rounds[i].matchComponents
      ensures currentRoundMatches.Some?
      ensures var run := Play(server, tournamentId.value, teamsPerMatch, Sizes(rounds)[i..], i, old(currentRoundMatches.value));
        if ended.None? then
          run == Play(server, tournamentId.value, teamsPerMatch, Sizes(rounds)[i + 1..], i + 1, currentRoundMatches.value)
        else
          OutcomeIds(ended.value) == run.outcome && currentRoundMatches == Some(run.lastMatches)
    {
      ghost var sizes := Sizes(rounds);
      assert sizes[i..][1..] == sizes[i + 1..];
      var winners, crashed := PlayRound(i);
      if crashed {
        return Some(Crashed);
      }
      ended := Advance(winners);
    }

    /** processRounds: the rounds are started in order, each with the current match-ups,
        until one ends the run; the outcome, in team ids, and the last match-ups are the
        ones the server's answers determine. */
    method ProcessRounds() returns (outcome: Outcome<Team>)
      requires Valid() && Unplayed() && tournamentId.Some? && currentRoundMatches.Some?
      modifies this`currentRoundMatches, Footprint()
      ensures var run := Play(server, tournamentId.value, teamsPerMatch, Sizes(rounds), 0, old(currentRoundMatches.value));
        OutcomeIds(outcome) == run.outcome && currentRoundMatches == Some(run.lastMatches)
    {
      ghost var expected := Play(server, tournamentId.value, teamsPerMatch, Sizes(rounds), 0, currentRoundMatches.value);
      assert Sizes(rounds)[0..] == Sizes(rounds);
      var i := 0;
      while i < |rounds|
        invariant 0 <= i <= |rounds| && currentRoundMatches.Some?
        invariant Play(server, tournamentId.value, teamsPerMatch, Sizes(rounds)[i..], i, currentRoundMatches.value) == expected
        invariant forall j :: i <= j < |rounds| ==> rounds[j].winningTeams == []
      {
        assert rounds[i] in Footprint();
        assert forall k :: 0 <= k < |rounds[i].matchComponents| ==> rounds[i].matchComponents[k] in Footprint();
        var ended := PlayTurn(i);
        if ended.Some? {
          assert OutcomeIds(ended.value) == expected.outcome && currentRoundMatches == Some(expected.lastMatches);
          return ended.value;
        }
        i := i + 1;
      }
      assert Sizes(rounds)[i..] == [];
      assert expected == Run(Finished(None), currentRoundMatches.value);
      return Finished(None);
    }

    /** runTournament: fetch the tournament for the two entries. Without a response object
        reading its id throws; without a usable id or match-up list it returns nothing and
        changes nothing; otherwise the id and the first match-ups are stored and the rounds
        are processed. */
    method RunTournament(teamsPerMatch: int, numberOfTeams: int) returns (outcome: Outcome<Team>)
      requires Valid() && Unplayed()
      modifies this`tournamentId, this`currentRoundMatches, Footprint()
      ensures var run := TournamentRun(server, (teamsPerMatch, numberOfTeams), this.teamsPerMatch, Sizes(rounds));
        OutcomeIds(outcome) == run.outcome
      ensures var data := Lookup(server.tournament, (teamsPerMatch, numberOfTeams));
        if data.None? || data.value.tournamentId.None? || data.value.matchUps.None? then
          tournamentId == old(tournamentId) && currentRoundMatches == old(currentRoundMatches)
          && unchanged(Footprint())
        else
          tournamentId == data.value.tournamentId
          && currentRoundMatches == Some(TournamentRun(server, (teamsPerMatch, numberOfTeams), this.teamsPerMatch, Sizes(rounds)).lastMatches)
    {
      var tournamentData := Lookup(server.tournament, (teamsPerMatch, numberOfTeams));
      if tournamentData.None? {
        return Crashed;
      }
      if tournamentData.value.tournamentId.None? || tournamentData.value.matchUps.None? {
        return Finished(None);
      }
      tournamentId := tournamentData.value.tournamentId;
      currentRoundMatches := tournamentData.value.matchUps;
      outcome := ProcessRounds();
    }

    /** tournamentWinnerHandler: the winner's name is shown, the tournament is complete and
        start is enabled again. Without a winner, reading its name throws first and nothing
        changes. */
    method TournamentWinnerHandler(winningTeam: Option<Team>)
      modifies this`winnerDisplay, this`isComplete, this`startDisabled
      ensures winningTeam.None? ==>
        winnerDisplay == old(winnerDisplay) && isComplete == old(isComplete) && startDisabled == old(startDisabled)
      ensures winningTeam.Some? ==>
        winnerDisplay == DisplayedName(winningTeam.value.name) + " is the Winner." && isComplete && !startDisabled
    {
      if winningTeam.None? {
        return;
      }
      winnerDisplay := DisplayedName(winningTeam.value.name) + " is the Winner.";
      isComplete := true;
      startDisabled := false;
    }

    /** The first part of Launch: the button is disabled, the teams per match set and the
        rounds generated, all of them new and none played. */
    method Prepare(perMatch: int, teams: int)
      requires rounds == [] && perMatch >= 2 && IsPowerOf(teams, perMatch)
      modifies this`startDisabled, this`teamsPerMatch, this`numberOfRounds, this`rounds
      ensures Valid() && Unplayed() && startDisabled && this.teamsPerMatch == perMatch
      ensures numberOfRounds >= 1 && Pow(perMatch, numberOfRounds) == teams
      ensures Sizes(rounds) == PlannedSizes(perMatch, numberOfRounds)
      ensures forall o :: o in Footprint() ==> fresh(o)
    {
      startDisabled := true;
      this.teamsPerMatch := perMatch;
      GenerateRounds(perMatch, teams);
      assert rounds[0..] == rounds;
    }

    /** The part of start that valid entries run: the button is disabled, the teams per
        match set, the rounds generated and the tournament run, and the winner handler runs
        on the value the run resolves to. */
    method Launch(perMatch: int, teams: int) returns (outcome: Outcome<Team>)
      requires rounds == [] && perMatch >= 2 && IsPowerOf(teams, perMatch)
      modifies this
      ensures Valid() && this.teamsPerMatch == perMatch
      ensures numberOfRounds >= 1 && Pow(perMatch, numberOfRounds) == teams
      ensures Sizes(rounds) == PlannedSizes(perMatch, numberOfRounds)
      ensures OutcomeIds(outcome) == TournamentRun(server, (perMatch, teams), perMatch, Sizes(rounds)).outcome
      ensures outcome != Diverged
      ensures var data := Lookup(server.tournament, (perMatch, teams));
        if data.None? || data.value.tournamentId.None? || data.value.matchUps.None? then
          tournamentId == old(tournamentId) && currentRoundMatches == old(currentRoundMatches)
        else
          tournamentId == data.value.tournamentId
          && currentRoundMatches == Some(TournamentRun(server, (perMatch, teams), perMatch, Sizes(rounds)).lastMatches)
      ensures var won := outcome.Finished? && outcome.winner.Some?;
        startDisabled == !won && isComplete == (old(isComplete) || won)
        && winnerDisplay == (if won then DisplayedName(outcome.winner.value.name) + " is the Winner." else old(winnerDisplay))
    {
      Prepare(perMatch, teams);
      outcome := RunTournament(perMatch, teams);
      TournamentRunNeverHangs(server, (perMatch, teams), perMatch, numberOfRounds);
      if outcome.Finished? {
        TournamentWinnerHandler(outcome.winner);
      }
    }

    /** start, the start button's click handler (so it runs only while the button is
        enabled): a complete tournament is reset first; the entries are validated; valid
        entries launch the tournament. `outcome` is None when the entries are invalid and
        nothing is run. */
    method Start(teamsPerMatch: Option<int>, numberOfTeams: Option<int>)
      returns (validationResult: ValidationResult, outcome: Option<Outcome<Team>>)
      requires Ready() && !startDisabled
      modifies this
      ensures Ready()
      ensures validationResult.valid <==>
        Entered(teamsPerMatch) && Entered(numberOfTeams)
        && numberOfTeams.value <= maximumNumberOfTeamPerTournament
        && IsPowerOf(numberOfTeams.value, teamsPerMatch.value)
      ensures !validationResult.valid ==>
        outcome == None && !startDisabled && isComplete == old(isComplete)
        && this.teamsPerMatch == (if old(isComplete) then 0 else old(this.teamsPerMatch))
        && rounds == (if old(isComplete) then [] else old(rounds))
        && winnerDisplay == (if old(isComplete) then "" else old(winnerDisplay))
        && tournamentId == (if old(isComplete) then None else old(tournamentId))
        && numberOfRounds == (if old(isComplete) then 0 else old(numberOfRounds))
        && currentRoundMatches == (if old(isComplete) then None else old(currentRoundMatches))
      ensures validationResult.valid ==>
        var perMatch := teamsPerMatch.value;
        var teams := numberOfTeams.value;
        outcome.Some? && this.teamsPerMatch == perMatch
        && numberOfRounds >= 1 && Pow(perMatch, numberOfRounds) == teams
        && Sizes(rounds) == PlannedSizes(perMatch, numberOfRounds)
        && OutcomeIds(outcome.value) == TournamentRun(server, (perMatch, teams), perMatch, Sizes(rounds)).outcome
        && outcome.value != Diverged
      ensures validationResult.valid ==>
        var data := Lookup(server.tournament, (teamsPerMatch.value, numberOfTeams.value));
        if data.None? || data.value.tournamentId.None? || data.value.matchUps.None? then
          tournamentId == (if old(isComplete) then None else old(tournamentId))
          && currentRoundMatches == (if old(isComplete) then None else old(currentRoundMatches))
        else
          tournamentId == data.value.tournamentId
          && currentRoundMatches
             == Some(TournamentRun(server, (teamsPerMatch.value, numberOfTeams.value), teamsPerMatch.value, Sizes(rounds)).lastMatches)
      ensures validationResult.valid ==>
        var won := outcome.value.Finished? && outcome.value.winner.Some?;
        startDisabled == !won && isComplete == (old(isComplete) || won)
        && winnerDisplay == (if won then DisplayedName(outcome.value.winner.value.name) + " is the Winner."
                             else if old(isComplete) then "" else old(winnerDisplay))
    {
      if isComplete {
        Reset();
      }
      validationResult := ValidateEntries(teamsPerMatch, numberOfTeams, maximumNumberOfTeamPerTournament);
      if !validationResult.valid {
        return validationResult, None;
      }
      var result := Launch(teamsPerMatch.value, numberOfTeams.value);
      outcome := Some(result);
    }
  }
}
