/** The two tables of the remote store the prediction view reads and
    writes, held in memory: `teams` as a sequence of rows in table order and
    `predictions` as a map from its conflict key to its row. The queries the
    view issues are functions over them. */
module Tables {
  import opened Options

  type TeamId = string

  /** A row of `teams`; `sortOrder` is the `sort_order` column. */
  datatype Team = Team(id: TeamId, name: string, league: string, season: string, sortOrder: int)

  /** The conflict key `(user_id, league, season)` of `predictions`. */
  datatype PredictionKey = PredictionKey(userId: string, league: string, season: string)

  /** A row of `predictions`; `rankings` is the predicted order as team ids. */
  datatype Prediction = Prediction(userId: string, league: string, season: string,
                                   rankings: seq<TeamId>, updatedAt: string)
  {
    function Key(): PredictionKey { PredictionKey(userId, league, season) }
  }

  /** `id` is the primary key of `teams`. */
  predicate UniqueIds(teams: seq<Team>)
  {
    forall i, j :: 0 <= i < j < |teams| ==> teams[i].id != teams[j].id
  }

  /** `select("*").eq("id", id).maybe_single()`: the row with that id, or
      None when there is none. */
  function LookupTeam(teams: seq<Team>, id: TeamId): (r: Option<Team>)
    ensures r.Some? ==> r.value in teams && r.value.id == id
    ensures r.None? <==> forall t :: t in teams ==> t.id != id
  {
    if teams == [] then None
    else if teams[0].id == id then Some(teams[0])
    else LookupTeam(teams[1..], id)
  }

  /** Under the primary key, looking up a row's id finds that row. */
  lemma {:induction false} LookupFindsRow(teams: seq<Team>, t: Team)
    requires UniqueIds(teams) && t in teams
    ensures LookupTeam(teams, t.id) == Some(t)
  {
  }

  /** `select("*").eq("league", league).eq("season", season)`, in table order. */
  function InLeague(teams: seq<Team>, league: string, season: string): seq<Team>
  {
    if teams == [] then []
    else if teams[0].league == league && teams[0].season == season
    then [teams[0]] + InLeague(teams[1..], league, season)
    else InLeague(teams[1..], league, season)
  }

  /** Exactly the rows of that league and season, each as often as in the table. */
  lemma {:induction false} InLeagueRows(teams: seq<Team>, league: string, season: string)
    ensures forall t :: multiset(InLeague(teams, league, season))[t] ==
                        if t.league == league && t.season == season then multiset(teams)[t] else 0
  {
    if teams != [] {
      InLeagueRows(teams[1..], league, season);
      assert teams == [teams[0]] + teams[1..];
    }
  }

  predicate SortedBySortOrder(s: seq<Team>)
  {
    forall i, j :: 0 <= i < j < |s| ==> s[i].sortOrder <= s[j].sortOrder
  }

  /** Places `t` before the first row whose `sortOrder` is not smaller. */
  function InsertBySortOrder(t: Team, s: seq<Team>): seq<Team>
  {
    if s == [] then [t]
    else if t.sortOrder <= s[0].sortOrder then [t] + s
    else [s[0]] + InsertBySortOrder(t, s[1..])
  }

  /** `.order("sort_order")`. Rows with equal `sortOrder` keep table order. */
  function SortBySortOrder(s: seq<Team>): seq<Team>
  {
    if s == [] then [] else InsertBySortOrder(s[0], SortBySortOrder(s[1..]))
  }

  /** A row no later than every row of a sorted list can head it. */
  lemma SortedCons(x: Team, s: seq<Team>)
    requires SortedBySortOrder(s)
    requires forall k :: 0 <= k < |s| ==> x.sortOrder <= s[k].sortOrder
    ensures SortedBySortOrder([x] + s)
  {
    var r := [x] + s;
    forall i, j | 0 <= i < j < |r| ensures r[i].sortOrder <= r[j].sortOrder {
      assert r[j] == s[j - 1];
      if i > 0 {
        assert r[i] == s[i - 1];
      }
    }
  }

  lemma {:induction false} InsertBySortOrderSorted(t: Team, s: seq<Team>)
    requires SortedBySortOrder(s)
    ensures multiset(InsertBySortOrder(t, s)) == multiset(s) + multiset{t}
    ensures SortedBySortOrder(InsertBySortOrder(t, s))
  {
    if s == [] {
    } else if t.sortOrder <= s[0].sortOrder {
      SortedCons(t, s);
    } else {
      var tail := InsertBySortOrder(t, s[1..]);
      InsertBySortOrderSorted(t, s[1..]);
      assert InsertBySortOrder(t, s) == [s[0]] + tail;
      assert s == [s[0]] + s[1..];
      forall k | 0 <= k < |tail| ensures s[0].sortOrder <= tail[k].sortOrder {
        assert tail[k] in multiset(tail);
        assert tail[k] == t || tail[k] in s[1..];
      }
      SortedCons(s[0], tail);
    }
  }

  lemma {:induction false} SortBySortOrderSorted(s: seq<Team>)
    ensures multiset(SortBySortOrder(s)) == multiset(s)
    ensures SortedBySortOrder(SortBySortOrder(s))
  {
    if s != [] {
      SortBySortOrderSorted(s[1..]);
      InsertBySortOrderSorted(s[0], SortBySortOrder(s[1..]));
      assert s == [s[0]] + s[1..];
    }
  }

  /** The order a league is shown in when no prediction is saved for it. */
  function DefaultOrder(teams: seq<Team>, league: string, season: string): seq<Team>
  {
    SortBySortOrder(InLeague(teams, league, season))
  }

  /** The default order lists exactly the rows of the league and season, each
      as often as the table has it, ascending by `sortOrder`. */
  lemma DefaultOrderIsSortedLeague(teams: seq<Team>, league: string, season: string)
    ensures forall t :: multiset(DefaultOrder(teams, league, season))[t] ==
                        if t.league == league && t.season == season then multiset(teams)[t] else 0
    ensures forall i :: 0 <= i < |DefaultOrder(teams, league, season)| ==>
              DefaultOrder(teams, league, season)[i].league == league &&
              DefaultOrder(teams, league, season)[i].season == season
    ensures SortedBySortOrder(DefaultOrder(teams, league, season))
  {
    var rows := InLeague(teams, league, season);
    InLeagueRows(teams, league, season);
    SortBySortOrderSorted(rows);
    var r := DefaultOrder(teams, league, season);
    forall i | 0 <= i < |r| ensures r[i].league == league && r[i].season == season {
      assert r[i] in multiset(r);
    }
  }

  /** `upsert(row, on_conflict="user_id, league, season")`: the row replaces
      the one under its key, or is added, and every other key is untouched. */
  function Upserted(predictions: map<PredictionKey, Prediction>, row: Prediction):
    (r: map<PredictionKey, Prediction>)
    ensures row.Key() in r && r[row.Key()] == row
    ensures r.Keys == predictions.Keys + {row.Key()}
    ensures forall k :: k in predictions && k != row.Key() ==> r[k] == predictions[k]
  {
    predictions[row.Key() := row]
  }

  /** Every stored prediction sits under its own `(user_id, league, season)`:
      the filters of the load select a row by these columns. */
  predicate KeysMatch(predictions: map<PredictionKey, Prediction>)
  {
    forall k :: k in predictions ==> predictions[k].Key() == k
  }

  /** The upsert keeps every row under its own key. */
  lemma UpsertedKeepsKeysMatch(predictions: map<PredictionKey, Prediction>, row: Prediction)
    requires KeysMatch(predictions)
    ensures KeysMatch(Upserted(predictions, row))
  {
  }

  /** Two saves under one key: the later one wins, whatever the earlier held. */
  lemma UpsertLastWriteWins(predictions: map<PredictionKey, Prediction>, first: Prediction, second: Prediction)
    requires first.Key() == second.Key()
    ensures Upserted(Upserted(predictions, first), second) == Upserted(predictions, second)
  {
  }

  /** The in-memory stand-in for the remote store. */
  class Database {
    var teams: seq<Team>
    var predictions: map<PredictionKey, Prediction>

    ghost predicate Valid()
      reads this
    {
      KeysMatch(predictions)
    }

    constructor (teams: seq<Team>, predictions: map<PredictionKey, Prediction>)
      requires KeysMatch(predictions)
      ensures Valid()
      ensures this.teams == teams && this.predictions == predictions
    {
      this.teams := teams;
      this.predictions := predictions;
    }

    /** The upsert call of the save path. */
    method Upsert(row: Prediction)
      requires Valid()
      modifies this
      ensures Valid()
      ensures predictions == Upserted(old(predictions), row)
      ensures teams == old(teams)
    {
      UpsertedKeepsKeysMatch(predictions, row);
      predictions := Upserted(predictions, row);
    }
  }
}
