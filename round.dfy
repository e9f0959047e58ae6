/**
 * One round of the tournament (client/components/round.js): it owns one match component per
 * game and, when started, plays them in index order and collects their winners.
 */
module RoundComponent {
  import opened Wrappers
  import opened TournamentService
  import opened TeamComponent
  import opened MatchComponent

  class Round {
    const number: int
    const numberOfGames: int
    /** Filled once by the constructor; the list is never reassigned afterwards. */
    const matchComponents: seq<Match>
    var winningTeams: seq<Option<Team>>
    var tournamentId: Option<int>
    const server: Server

    /** createChildComponents: `numberOfGames` new, distinct match components (none when the
        count is not positive), each carrying this round's number. */
    static method CreateChildComponents(roundNumber: int, numberOfGames: int, server: Server)
      returns (matches: seq<Match>)
      ensures |matches| == if numberOfGames < 0 then 0 else numberOfGames
      ensures forall i :: 0 <= i < |matches| ==>
        fresh(matches[i]) && matches[i].round == roundNumber && matches[i].server == server
        && matches[i].Unstarted()
      ensures forall i, j :: 0 <= i < j < |matches| ==> matches[i] != matches[j]
    {
      matches := [];
      var i := 0;
      while i < numberOfGames
        invariant 0 <= i && (i <= numberOfGames || i == 0) && |matches| == i
        invariant forall j :: 0 <= j < |matches| ==>
          fresh(matches[j]) && matches[j].round == roundNumber && matches[j].server == server
          && matches[j].Unstarted()
        invariant forall j, j' :: 0 <= j < j' < |matches| ==> matches[j] != matches[j']
      {
        var component := new Match(roundNumber, server);
        matches := matches + [component];
        i := i + 1;
      }
    }

    /** Distinct match components, all of this round and asking this round's server. */
    ghost predicate Valid()
    {
      (forall i :: 0 <= i < |matchComponents| ==>
         matchComponents[i].round == number && matchComponents[i].server == server)
      && (forall i, j :: 0 <= i < j < |matchComponents| ==> matchComponents[i] != matchComponents[j])
    }

    /** A new round: its number and game count, one new unstarted match component per game,
        and no winners yet. */
    constructor (roundNumber: int, numberOfGames: int, server: Server)
      ensures number == roundNumber && this.numberOfGames == numberOfGames && this.server == server
      ensures |matchComponents| == if numberOfGames < 0 then 0 else numberOfGames
      ensures forall i :: 0 <= i < |matchComponents| ==>
        fresh(matchComponents[i]) && matchComponents[i].Unstarted()
      ensures Valid()
      ensures winningTeams == [] && tournamentId == None
    {
      number := roundNumber;
      this.numberOfGames := numberOfGames;
      this.server := server;
      var components := CreateChildComponents(roundNumber, numberOfGames, server);
      matchComponents := components;
      winningTeams := [];
      tournamentId := None;
    }

    /** The round was started for `tournamentId`, and each match component that had data was
        started with its own entry of `matchesData`. */
    ghost predicate PlayedWith(tournamentId: int, matchesData: seq<MatchData>)
      reads this, matchComponents
    {
      this.tournamentId == Some(tournamentId)
      && forall i :: 0 <= i < |matchComponents| && i < |matchesData| ==>
           matchComponents[i].HasMatchUp(matchesData[i], tournamentId)
    }

    /** One step of start's loop: match component `i` is started with `matchData` and the
        team it returns is appended to `winningTeams`. */
    method PlayMatch(i: nat, tournamentId: int, matchData: MatchData) returns (winningTeam: Option<Team>)
      requires i < |matchComponents| && Valid()
      modifies this`winningTeams, matchComponents[i]
      ensures matchComponents[i].HasMatchUp(matchData, tournamentId)
      ensures winningTeams == old(winningTeams) + [winningTeam]
      ensures IdOf(winningTeam) == MatchWinnerId(server, tournamentId, number, matchData)
    {
      winningTeam := matchComponents[i].Start(matchData, tournamentId);
      matchComponents[i].WinnerFromServer(matchData, tournamentId);
      winningTeams := winningTeams + [winningTeam];
    }

    /** start: match component `i` is started with `matchesData[i]`, in index order, and its
        winner appended to `winningTeams`. When `matchesData` is shorter than the list of
        components, the first component without data throws before it changes anything,
        and the round crashes with the winners so far recorded. */
    method Start(tournamentId: int, matchesData: seq<MatchData>)
      returns (winners: seq<Option<Team>>, crashed: bool)
      requires Valid()
      modifies this, matchComponents
      ensures this.tournamentId == Some(tournamentId)
      ensures crashed <==> |matchesData| < |matchComponents|
      ensures var played := if crashed then |matchesData| else |matchComponents|;
        |winningTeams| == |old(winningTeams)| + played
        && winningTeams[..|old(winningTeams)|] == old(winningTeams)
        && (forall i :: 0 <= i < played ==>
              matchComponents[i].HasMatchUp(matchesData[i], tournamentId)
              && IdOf(winningTeams[|old(winningTeams)| + i]) == MatchWinnerId(server, tournamentId, number, matchesData[i]))
        && (forall i :: played <= i < |matchComponents| ==> unchanged(matchComponents[i]))
      ensures winners == winningTeams
      ensures PlayedWith(tournamentId, matchesData)
    {
      this.tournamentId := Some(tournamentId);
      var i := 0;
      while i < |matchComponents|
        invariant 0 <= i <= |matchComponents| && i <= |matchesData|
        invariant this.tournamentId == Some(tournamentId)
        invariant |winningTeams| == |old(winningTeams)| + i
        invariant winningTeams[..|old(winningTeams)|] == old(winningTeams)
        invariant forall j :: 0 <= j < i ==> matchComponents[j].HasMatchUp(matchesData[j], tournamentId)
        invariant forall j :: 0 <= j < i ==>
          IdOf(winningTeams[|old(winningTeams)| + j]) == MatchWinnerId(server, tournamentId, number, matchesData[j])
        invariant forall j :: i <= j < |matchComponents| ==> unchanged(matchComponents[j])
      {
        if i == |matchesData| {
          winners, crashed := winningTeams, true;
          return;
        }
        var _ := PlayMatch(i, tournamentId, matchesData[i]);
        i := i + 1;
      }
      winners, crashed := winningTeams, false;
    }
  }
}
