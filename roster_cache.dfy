/** The per-run roster cache: a dictionary from team id to the list of
    player ids on that team's roster, filled lazily and never invalidated. */
module RosterCache {

  type TeamId = int
  type PlayerId = int

  class Cache {
    /** The roster service's answer for each team, fixed for one run. */
    const fetch: TeamId -> seq<PlayerId>
    /** `team_rosters` */
    var rosters: map<TeamId, seq<PlayerId>>
    /** The teams whose roster was fetched, in the order of the fetches. */
    ghost var fetchLog: seq<TeamId>

    ghost predicate Valid()
      reads this
    {
      && (forall t :: t in rosters ==> rosters[t] == fetch(t))
      && rosters.Keys == (set t | t in fetchLog)
      && (forall i, j :: 0 <= i < j < |fetchLog| ==> fetchLog[i] != fetchLog[j])
    }

    /** `team_rosters = {}` */
    constructor (fetch: TeamId -> seq<PlayerId>)
      ensures Valid()
      ensures this.fetch == fetch && rosters == map[] && fetchLog == []
    {
      this.fetch := fetch;
      rosters := map[];
      fetchLog := [];
    }

    /** `get_cached_roster`: fetch on a miss, then answer from the cache. */
    method GetCachedRoster(teamId: TeamId) returns (roster: seq<PlayerId>)
      requires Valid()
      modifies this
      ensures Valid()
      ensures teamId in rosters && roster == rosters[teamId]
      ensures roster == fetch(teamId)
      ensures teamId in old(rosters) ==> rosters == old(rosters) && fetchLog == old(fetchLog)
      ensures teamId !in old(rosters) ==>
                rosters == old(rosters)[teamId := fetch(teamId)] && fetchLog == old(fetchLog) + [teamId]
      ensures rosters.Keys == old(rosters).Keys + {teamId}
    {
      if teamId !in rosters {
        rosters := rosters[teamId := fetch(teamId)];
        fetchLog := fetchLog + [teamId];
      }
      roster := rosters[teamId];
    }
  }
}
