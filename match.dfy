/**
 * One match of a round (client/components/match.js): it takes its match-up, fetches the
 * match score, builds and initialises its teams, fetches the winning score and picks the
 * winning team.
 */
module MatchComponent {
  import opened Wrappers
  import opened TournamentService
  import opened TeamComponent
  import opened TournamentCalculator

  /** The response check of getMatchScore: no score when the response is absent or its score
      is falsy (missing, or 0); otherwise the score unchanged. getWinner uses it too once its
      `&&` is read as the intended `||` (see GetWinnerAsWritten). */
  function ScoreFromResponse(response: Option<ScoreResponse>): (score: Option<int>)
    ensures score.Some? <==> response.Some? && response.value.score.Some? && response.value.score.value != 0
    ensures score.Some? ==> score == response.value.score
  {
    if response.None? || response.value.score.None? || response.value.score.value == 0 then None
    else response.value.score
  }

  /** What a JavaScript call evaluates to: a value, or a thrown error. */
  datatype Reply<T> = Returned(value: T) | Threw

  /** getWinner's check exactly as written, `!winnerResponse && !winnerResponse.score`: an
      absent response passes the first operand and then throws a TypeError reading `.score`;
      a present response fails the first operand, so its score comes back unchecked. */
  function GetWinnerAsWritten(response: Option<ScoreResponse>): (reply: Reply<Option<int>>)
    ensures reply.Threw? <==> response.None?
    ensures response.Some? ==> reply == Returned(response.value.score)
  {
    if response.None? then Threw else Returned(response.value.score)
  }

  /** The check as written never answers null: an absent response throws instead, and a
      present response with score 0 returns 0, both where getMatchScore's check answers null. */
  lemma GetWinnerAsWrittenDiffers()
    ensures GetWinnerAsWritten(None) == Threw && ScoreFromResponse(None) == None
    ensures GetWinnerAsWritten(Some(ScoreResponse(Some(0)))) == Returned(Some(0))
    ensures ScoreFromResponse(Some(ScoreResponse(Some(0)))) == None
    ensures forall response :: GetWinnerAsWritten(response) != Returned(None) || response == Some(ScoreResponse(None))
  {
  }

  /** The team scores sent to `/winner`, in team order. */
  function TeamScores(teams: seq<Team>): (scores: seq<Option<int>>)
    reads teams
    ensures |scores| == |teams|
    ensures forall i :: 0 <= i < |teams| ==> scores[i] == teams[i].score
  {
    if teams == [] then [] else [teams[0].score] + TeamScores(teams[1..])
  }

  /** The `(id, score)` entries of the teams a match-up's ids become once each is
      initialised from the `/team` endpoint. */
  function PlayedEntries(server: Server, tournamentId: int, teamIds: seq<int>): (entries: seq<(int, Option<int>)>)
    ensures |entries| == |teamIds|
    ensures forall i :: 0 <= i < |teamIds| ==>
      entries[i] == (teamIds[i], InitialisedScore(server, tournamentId, teamIds[i]))
  {
    if teamIds == [] then []
    else [(teamIds[0], InitialisedScore(server, tournamentId, teamIds[0]))] + PlayedEntries(server, tournamentId, teamIds[1..])
  }

  /** The scores of a list of entries, in order. */
  function EntryScores(entries: seq<(int, Option<int>)>): (scores: seq<Option<int>>)
    ensures |scores| == |entries|
    ensures forall i :: 0 <= i < |entries| ==> scores[i] == entries[i].1
  {
    if entries == [] then [] else [entries[0].1] + EntryScores(entries[1..])
  }

  /** The id of the team that wins match-up `matchData` of round `round`, computed from the
      server's answers alone: the checked `/match` score, the team scores `/team` gives,
      the checked `/winner` score for them, and calculateWinningTeam's choice. The winner,
      when there is one, is one of the match-up's teams. */
  function MatchWinnerId(server: Server, tournamentId: int, round: int, matchData: MatchData): (winner: Option<int>)
    ensures winner.Some? ==> winner.value in matchData.teamIds
  {
    var score := ScoreFromResponse(Lookup(server.matchScore, (tournamentId, round, matchData.matchIndex)));
    var entries := PlayedEntries(server, tournamentId, matchData.teamIds);
    var winningScore := ScoreFromResponse(Lookup(server.winner, (tournamentId, EntryScores(entries), score)));
    var k := WinnerIndex(winningScore, entries);
    if k == -1 then None else Some(matchData.teamIds[k])
  }

  class Match {
    var matchId: Option<int>
    const round: int
    var score: Option<int>
    var winningScore: Option<int>
    var tournamentId: Option<int>
    var isComplete: bool
    var teamIds: seq<int>
    var teams: seq<Team>
    const server: Server

    /** A new match knows only its round. */
    constructor (roundNumber: int, server: Server)
      ensures round == roundNumber && this.server == server
      ensures Unstarted()
    {
      matchId := None;
      round := roundNumber;
      score := None;
      winningScore := None;
      tournamentId := None;
      isComplete := false;
      teamIds := [];
      teams := [];
      this.server := server;
    }

    /** The state the constructor leaves. */
    ghost predicate Unstarted()
      reads this
    {
      matchId == None && score == None && winningScore == None && tournamentId == None
      && !isComplete && teamIds == [] && teams == []
    }

    /** getMatchScore: the `/match` response for this tournament, round and match, checked. */
    function GetMatchScore(tournamentId: int, round: int, matchId: int): (matchScore: Option<int>)
      ensures var response := Lookup(server.matchScore, (tournamentId, round, matchId));
        (matchScore.Some? <==> response.Some? && response.value.score.Some? && response.value.score.value != 0)
        && (matchScore.Some? ==> matchScore == response.value.score)
    {
      ScoreFromResponse(Lookup(server.matchScore, (tournamentId, round, matchId)))
    }

    /** getWinner, with the response check corrected to getMatchScore's: the `/winner`
        response for the team scores in team order and the match score, checked. */
    function GetWinner(tournamentId: int, teams: seq<Team>, matchScore: Option<int>): (winningScore: Option<int>)
      reads teams
      ensures var response := Lookup(server.winner, (tournamentId, TeamScores(teams), matchScore));
        (winningScore.Some? <==> response.Some? && response.value.score.Some? && response.value.score.value != 0)
        && (winningScore.Some? ==> winningScore == response.value.score)
    {
      ScoreFromResponse(Lookup(server.winner, (tournamentId, TeamScores(teams), matchScore)))
    }

    /** The teams getTeams builds for `teamIds`: one per id, in id order, each a new team
        that `initialise(tournamentId)` filled in from the `/team` endpoint. */
    ghost predicate TeamsFor(tournamentId: int, teamIds: seq<int>, teams: seq<Team>)
      reads teams
    {
      |teams| == |teamIds|
      && forall i :: 0 <= i < |teams| ==>
           teams[i].id == teamIds[i] && teams[i].server == server
           && teams[i].InitialisedFrom(tournamentId, None, None)
    }

    /** getTeams: one new team per id, in id order, each initialised from the `/team` endpoint. */
    method GetTeams(tournamentId: int, teamIds: seq<int>) returns (teams: seq<Team>)
      ensures TeamsFor(tournamentId, teamIds, teams)
      ensures forall i :: 0 <= i < |teams| ==> fresh(teams[i])
    {
      teams := [];
      var i := 0;
      while i < |teamIds|
        invariant 0 <= i <= |teamIds| && |teams| == i
        invariant forall j :: 0 <= j < i ==>
          fresh(teams[j]) && teams[j].id == teamIds[j] && teams[j].server == server
          && teams[j].InitialisedFrom(tournamentId, None, None)
      {
        var team := new Team(teamIds[i], server);
        team.Initialise(tournamentId);
        teams := teams + [team];
        i := i + 1;
      }
    }

    /** setMatchComplete: the match is marked complete. */
    method SetMatchComplete()
      modifies this`isComplete
      ensures isComplete
    {
      isComplete := true;
    }

    /** What `start(matchData, tournamentId)` has fetched and stored: the match-up's fields
        are copied, the score is the checked `/match` response, the teams are the
        match-up's ids initialised one by one, and the winning score is the checked
        `/winner` response for them. */
    ghost predicate Fetched(matchData: MatchData, tournamentId: int)
      reads this`matchId, this`tournamentId, this`teamIds, this`score, this`teams, this`winningScore, teams
    {
      matchId == Some(matchData.matchIndex) && this.tournamentId == Some(tournamentId)
      && teamIds == matchData.teamIds
      && score == GetMatchScore(tournamentId, round, matchData.matchIndex)
      && TeamsFor(tournamentId, teamIds, teams)
      && winningScore == GetWinner(tournamentId, teams, score)
    }

    /** The state `start(matchData, tournamentId)` leaves: everything fetched and stored,
        and the match complete. */
    ghost predicate StartedWith(matchData: MatchData, tournamentId: int)
      reads this, teams
    {
      Fetched(matchData, tournamentId) && isComplete
    }

    /** The winning team of a started match: calculateWinningTeam on its winning score and
        teams. */
    function Winner(): Option<Team>
      reads this, teams
    {
      CalculateWinningTeam(winningScore, teams)
    }

    /** Once `start` has fetched everything, the winning team's id is the one the server's
        answers determine. */
    lemma WinnerFromServer(matchData: MatchData, tournamentId: int)
      requires Fetched(matchData, tournamentId)
      ensures IdOf(Winner()) == MatchWinnerId(server, tournamentId, round, matchData)
    {
      var entries := PlayedEntries(server, tournamentId, matchData.teamIds);
      assert Entries(teams) == entries;
      assert TeamScores(teams) == EntryScores(entries);
    }

    /** The match-up and tournament `start` was given, and the completion flag. */
    ghost predicate HasMatchUp(matchData: MatchData, tournamentId: int)
      reads this`matchId, this`tournamentId, this`teamIds, this`isComplete
    {
      matchId == Some(matchData.matchIndex) && this.tournamentId == Some(tournamentId)
      && teamIds == matchData.teamIds && isComplete
    }

    /** The part of `start` before setMatchComplete: set the match-up's fields, then fetch
        the score, then the teams, then the winning score. */
    method FetchAll(matchData: MatchData, tournamentId: int)
      modifies this`matchId, this`tournamentId, this`teamIds, this`score, this`teams, this`winningScore
      ensures Fetched(matchData, tournamentId)
    {
      matchId := Some(matchData.matchIndex);
      this.tournamentId := Some(tournamentId);
      teamIds := matchData.teamIds;
      score := GetMatchScore(tournamentId, round, matchData.matchIndex);
      teams := GetTeams(tournamentId, teamIds);
      winningScore := GetWinner(tournamentId, teams, score);
    }

    /** start: fetch everything, mark the match complete and return the team that won it. */
    method Start(matchData: MatchData, tournamentId: int) returns (winningTeam: Option<Team>)
      modifies this
      ensures StartedWith(matchData, tournamentId)
      ensures winningTeam == Winner()
    {
      FetchAll(matchData, tournamentId);
      SetMatchComplete();
      winningTeam := CalculateWinningTeam(winningScore, teams);
    }
  }
}
