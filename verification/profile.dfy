/** The profile service: the local player profile, if one was created,
    with its running statistics. */
module Profiles {
  import opened Common

  const DEFAULT_USERNAME: string := "COMRADE"

  /** A player profile; its random id, creation time and avatar are not
      part of this model. */
  datatype Profile = Profile(username: string, totalScore: int, gamesPlayed: nat)

  /** `updateStats(scoreToAdd)` on a profile slot: no profile, no change. */
  function Updated(p: Option<Profile>, scoreToAdd: int): (r: Option<Profile>)
    ensures r.None? <==> p.None?
    ensures p.Some? ==> r.value.username == p.value.username &&
                        r.value.totalScore == p.value.totalScore + scoreToAdd &&
                        r.value.gamesPlayed == p.value.gamesPlayed + 1
  {
    match p
    case None => None
    case Some(q) => Some(q.(totalScore := q.totalScore + scoreToAdd, gamesPlayed := q.gamesPlayed + 1))
  }

  /** `getUsername()`: the stored name, or the default without a profile. */
  function Username(p: Option<Profile>): (name: string)
  {
    match p
    case None => DEFAULT_USERNAME
    case Some(q) => q.username
  }

  /** The profile slot after one `updateStats` per game of `scores`. */
  function AfterGames(p: Option<Profile>, scores: seq<int>): Option<Profile>
    decreases |scores|
  {
    if scores == [] then p else AfterGames(Updated(p, scores[0]), scores[1..])
  }

  function Total(s: seq<int>): int
    decreases |s|
  {
    if s == [] then 0 else s[0] + Total(s[1..])
  }

  /** Statistics accumulate: after any number of games the profile counts
      each of them once, sums their scores, and keeps its name; without a
      profile nothing is recorded and the default name stays. */
  lemma {:induction false} StatsAccumulate(p: Option<Profile>, scores: seq<int>)
    decreases |scores|
    ensures var r := AfterGames(p, scores);
            (r.None? <==> p.None?) && Username(r) == Username(p) &&
            (p.Some? ==> r.value.totalScore == p.value.totalScore + Total(scores) &&
                         r.value.gamesPlayed == p.value.gamesPlayed + |scores|)
  {
    if scores != [] {
      StatsAccumulate(Updated(p, scores[0]), scores[1..]);
    }
  }

  class ProfileService {
    var currentProfile: Option<Profile>

    constructor ()
      ensures currentProfile == None
    {
      currentProfile := None;
    }

    /** `setLocalProfile(username)`: a fresh profile replaces any earlier
        one. */
    method SetLocalProfile(username: string)
      modifies this
      ensures currentProfile == Some(Profile(username, 0, 0))
      ensures Username(currentProfile) == username
    {
      currentProfile := Some(Profile(username, 0, 0));
    }

    /** `updateStats(scoreToAdd)`. */
    method UpdateStats(scoreToAdd: int)
      modifies this
      ensures currentProfile == Updated(old(currentProfile), scoreToAdd)
    {
      if currentProfile.None? {
        return;
      }
      var q := currentProfile.value;
      currentProfile := Some(q.(totalScore := q.totalScore + scoreToAdd, gamesPlayed := q.gamesPlayed + 1));
    }

    /** `getUsername()`. */
    method GetUsername() returns (name: string)
      ensures currentProfile.None? ==> name == DEFAULT_USERNAME
      ensures currentProfile.Some? ==> name == currentProfile.value.username
    {
      name := if currentProfile.Some? then currentProfile.value.username else DEFAULT_USERNAME;
    }
  }
}
