/** A competitor (client/components/team.js): created from an id, filled in from the `/team` endpoint. */
module TeamComponent {
  import opened Wrappers
  import opened TournamentService

  /** The score a team with id `teamId` holds after `initialise(tournamentId)`: the `/team`
      response's score, or the new team's none when no data arrived. */
  function InitialisedScore(server: Server, tournamentId: int, teamId: int): (score: Option<int>)
    ensures (tournamentId, teamId) in server.team ==> score == server.team[(tournamentId, teamId)].score
    ensures (tournamentId, teamId) !in server.team ==> score == None
  {
    match Lookup(server.team, (tournamentId, teamId))
    case None => None
    case Some(data) => data.score
  }

  class Team {
    /** Assigned once by the constructor; nothing writes it afterwards. */
    const id: int
    var name: Option<string>
    var score: Option<int>
    const server: Server

    /** A new team has its id and neither name nor score. */
    constructor (teamId: int, server: Server)
      ensures id == teamId && name == None && score == None
      ensures this.server == server
    {
      id := teamId;
      name := None;
      score := None;
      this.server := server;
    }

    /** The state `initialise(tournamentId)` leaves behind for a team that started out
        with `previousName` and `previousScore`. */
    ghost predicate InitialisedFrom(tournamentId: int, previousName: Option<string>, previousScore: Option<int>)
      reads this
    {
      match Lookup(server.team, (tournamentId, id))
      case None => name == previousName && score == previousScore
      case Some(data) => name == data.name && score == data.score
    }

    /** initialise: fetch this team's data; the fields are copied from it only if data arrived. */
    method Initialise(tournamentId: int)
      modifies this`name, this`score
      ensures InitialisedFrom(tournamentId, old(name), old(score))
    {
      var teamData := Lookup(server.team, (tournamentId, id));
      if teamData.None? {
        return;
      }
      name := teamData.value.name;
      score := teamData.value.score;
    }
  }

  /** The id of a team that may be missing. */
  function IdOf(team: Option<Team>): Option<int>
  {
    if team.None? then None else Some(team.value.id)
  }
}
