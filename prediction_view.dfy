/** The prediction editor: the team list in its current order, the tiles
    shown for it, the selected league tab, and the handlers that reorder,
    load and save the list against the in-memory store. */
module PredictionView {
  import opened Options
  import opened Tables
  import opened ListMoves
  import opened LeagueKeys

  /** The user every prediction is read and written for. */
  const UserId: string := "7b52ade0-b667-4b15-a15d-9665c851c9f2"

  /** The season every query and save uses. */
  const Season: string := "2025/2026"

  /** What `team_container` shows for a team: the control is keyed by the
      team id and shows the 1-based position and the team name. */
  datatype Tile = Tile(key: string, position: nat, name: string)

  function TeamTile(team: Team, position: nat): Tile
  {
    Tile(team.id, position, team.name)
  }

  /** The controls after a rebuild, built as the rebuild loop appends them. */
  function Display(teams: seq<Team>): seq<Tile>
  {
    if teams == [] then []
    else Display(teams[..|teams| - 1]) + [TeamTile(teams[|teams| - 1], |teams|)]
  }

  /** The display numbers the teams 1 to n in list order, one tile per team. */
  lemma {:induction false} DisplayNumbersTeams(teams: seq<Team>)
    ensures |Display(teams)| == |teams|
    ensures forall i :: 0 <= i < |teams| ==>
              Display(teams)[i] == Tile(teams[i].id, i + 1, teams[i].name)
  {
    if teams != [] {
      DisplayNumbersTeams(teams[..|teams| - 1]);
    }
  }

  /** The ids of a team list, in list order: the `rankings` that are saved. */
  function Ids(s: seq<Team>): seq<TeamId>
  {
    seq(|s|, i requires 0 <= i < |s| => s[i].id)
  }

  /** The rows the saved ids resolve to, in saved order, as the load loop
      appends them; an id without a row adds nothing. */
  function Resolve(teams: seq<Team>, ids: seq<TeamId>): seq<Team>
  {
    if ids == [] then []
    else Resolve(teams, ids[..|ids| - 1]) +
         match LookupTeam(teams, ids[|ids| - 1])
         case Some(t) => [t]
         case None => []
  }

  /** The saved ids with the ones that have no row removed. */
  function Resolvable(teams: seq<Team>, ids: seq<TeamId>): seq<TeamId>
  {
    if ids == [] then []
    else Resolvable(teams, ids[..|ids| - 1]) +
         if LookupTeam(teams, ids[|ids| - 1]).Some? then [ids[|ids| - 1]] else []
  }

  /** `a` is `b` with some elements taken out (matched from the end of `b`). */
  predicate IsSubsequence<T(==)>(a: seq<T>, b: seq<T>)
  {
    if a == [] then true
    else if b == [] then false
    else if a[|a| - 1] == b[|b| - 1] then IsSubsequence(a[..|a| - 1], b[..|b| - 1])
    else IsSubsequence(a, b[..|b| - 1])
  }

  lemma {:induction false} ResolveIdsAreResolvable(teams: seq<Team>, ids: seq<TeamId>)
    ensures Ids(Resolve(teams, ids)) == Resolvable(teams, ids)
    ensures forall t :: t in Resolve(teams, ids) ==> t in teams
  {
    if ids != [] {
      var init := ids[..|ids| - 1];
      ResolveIdsAreResolvable(teams, init);
      var r := Resolve(teams, init);
      match LookupTeam(teams, ids[|ids| - 1])
      case Some(t) =>
        assert Resolve(teams, ids) == r + [t];
        assert Ids(r + [t]) == Ids(r) + [t.id];
      case None =>
        assert Resolve(teams, ids) == r;
    }
  }

  lemma {:induction false} ResolvableIsSubsequence(teams: seq<Team>, ids: seq<TeamId>)
    ensures IsSubsequence(Resolvable(teams, ids), ids)
    ensures forall k :: 0 <= k < |Resolvable(teams, ids)| ==> LookupTeam(teams, Resolvable(teams, ids)[k]).Some?
  {
    if ids != [] {
      var init := ids[..|ids| - 1];
      var last := ids[|ids| - 1];
      ResolvableIsSubsequence(teams, init);
      var a := Resolvable(teams, init);
      if LookupTeam(teams, last).Some? {
        assert Resolvable(teams, ids) == a + [last];
        assert (a + [last])[..|a|] == a;
      } else {
        assert Resolvable(teams, ids) == a;
        assert a != [] ==> a[|a| - 1] != last;
      }
    }
  }

  lemma {:induction false} ResolvableAll(teams: seq<Team>, ids: seq<TeamId>)
    requires forall i :: 0 <= i < |ids| ==> LookupTeam(teams, ids[i]).Some?
    ensures Resolvable(teams, ids) == ids
  {
    if ids != [] {
      var init := ids[..|ids| - 1];
      forall i | 0 <= i < |init| ensures LookupTeam(teams, init[i]).Some? {
        assert init[i] == ids[i];
      }
      ResolvableAll(teams, init);
      assert LookupTeam(teams, ids[|ids| - 1]).Some?;
      assert ids == init + [ids[|ids| - 1]];
    }
  }

  /** The reloaded list is the saved ids with failed lookups removed, each
      resolved to its table row: a subsequence of the saved rankings, and
      all of them when every id resolves. */
  lemma ResolvedIds(teams: seq<Team>, ids: seq<TeamId>)
    ensures Ids(Resolve(teams, ids)) == Resolvable(teams, ids)
    ensures IsSubsequence(Resolvable(teams, ids), ids)
    ensures (forall i :: 0 <= i < |ids| ==> LookupTeam(teams, ids[i]).Some?) ==>
              Resolvable(teams, ids) == ids
    ensures forall t :: t in Resolve(teams, ids) ==> t in teams
  {
    ResolveIdsAreResolvable(teams, ids);
    ResolvableIsSubsequence(teams, ids);
    if forall i :: 0 <= i < |ids| ==> LookupTeam(teams, ids[i]).Some? {
      ResolvableAll(teams, ids);
    }
  }

  /** The list a league tab loads: the saved prediction when there is one
      with a non-empty `rankings`, otherwise the league's default order. */
  function LoadedOrder(teams: seq<Team>, predictions: map<PredictionKey, Prediction>,
                       league: string): seq<Team>
  {
    var key := PredictionKey(UserId, league, Season);
    if key in predictions && predictions[key].rankings != []
    then Resolve(teams, predictions[key].rankings)
    else DefaultOrder(teams, league, Season)
  }

  /** Whatever a league loads is made of rows of the `teams` table. */
  lemma LoadedRows(teams: seq<Team>, predictions: map<PredictionKey, Prediction>, league: string)
    ensures forall t :: t in LoadedOrder(teams, predictions, league) ==> t in teams
  {
    var key := PredictionKey(UserId, league, Season);
    if key in predictions && predictions[key].rankings != [] {
      ResolvedIds(teams, predictions[key].rankings);
    } else {
      DefaultOrderIsSortedLeague(teams, league, Season);
      var r := DefaultOrder(teams, league, Season);
      forall t | t in r ensures t in teams {
        assert t in multiset(r);
      }
    }
  }

  /** The row a save writes for the current list. */
  function SavedRow(teamList: seq<Team>, league: string, now: string): Prediction
  {
    Prediction(UserId, league, Season, Ids(teamList), now)
  }

  /** A list made of table rows resolves back to itself from its own ids. */
  lemma {:induction false} ResolveOwnIds(teams: seq<Team>, s: seq<Team>)
    requires UniqueIds(teams)
    requires forall t :: t in s ==> t in teams
    ensures Resolve(teams, Ids(s)) == s
  {
    if s != [] {
      var init := s[..|s| - 1];
      assert Ids(s)[..|s| - 1] == Ids(init);
      ResolveOwnIds(teams, init);
      LookupFindsRow(teams, s[|s| - 1]);
      assert s == init + [s[|s| - 1]];
    }
  }

  /** Saving a non-empty list of table rows and loading the same league
      again gives back that list. */
  lemma SaveThenLoad(teams: seq<Team>, predictions: map<PredictionKey, Prediction>,
                     teamList: seq<Team>, league: string, now: string)
    requires teamList != []
    requires UniqueIds(teams)
    requires forall t :: t in teamList ==> t in teams
    ensures LoadedOrder(teams, Upserted(predictions, SavedRow(teamList, league, now)), league) == teamList
  {
    var row := SavedRow(teamList, league, now);
    assert row.Key() == PredictionKey(UserId, league, Season);
    assert |Ids(teamList)| == |teamList|;
    ResolveOwnIds(teams, teamList);
  }

  /** Saving an empty list stores an empty `rankings`, which the next load
      treats as no prediction: it shows the default order. */
  lemma SaveEmptyThenLoad(teams: seq<Team>, predictions: map<PredictionKey, Prediction>,
                          league: string, now: string)
    ensures LoadedOrder(teams, Upserted(predictions, SavedRow([], league, now)), league) ==
            DefaultOrder(teams, league, Season)
  {
  }

  /** Saving one league leaves what every other league loads unchanged. */
  lemma SaveKeepsOtherLeagues(teams: seq<Team>, predictions: map<PredictionKey, Prediction>,
                              teamList: seq<Team>, league: string, other: string, now: string)
    requires other != league
    ensures LoadedOrder(teams, Upserted(predictions, SavedRow(teamList, league, now)), other) ==
            LoadedOrder(teams, predictions, other)
  {
  }

  /** The prediction view: the list being edited, the tiles shown for it,
      the selected tab, and the store it reads and writes. */
  class View {
    const db: Database
    var teamList: seq<Team>
    var controls: seq<Tile>
    var selectedIndex: nat

    ghost predicate Valid()
      reads this, db
    {
      db.Valid() && selectedIndex < |TabLabels| && controls == Display(teamList) &&
      (forall t :: t in teamList ==> t in db.teams)
    }

    /** Opening the view: the first tab is selected and "championship" is
        loaded. */
    constructor (db: Database)
      requires db.Valid()
      ensures Valid() && this.db == db && selectedIndex == 0
      ensures teamList == LoadedOrder(db.teams, db.predictions, "championship")
    {
      this.db := db;
      teamList := [];
      controls := [];
      selectedIndex := 0;
      new;
      LoadTeams("championship");
    }

    /** Clears the controls and appends one tile per team, numbered from 1. */
    method Rebuild()
      modifies this`controls
      ensures controls == Display(teamList)
    {
      controls := [];
      var i := 0;
      while i < |teamList|
        invariant 0 <= i <= |teamList|
        invariant controls == Display(teamList[..i])
      {
        assert teamList[..i + 1][..i] == teamList[..i];
        controls := controls + [TeamTile(teamList[i], i + 1)];
        i := i + 1;
      }
      assert teamList[..i] == teamList;
    }

    /** A drag from `oldIndex` to `newIndex`: pop then insert, then rebuild.
        When the pop raises, nothing changes. */
    method HandleReorder(oldIndex: int, newIndex: int) returns (ok: bool)
      requires Valid()
      modifies this
      ensures Valid() && selectedIndex == old(selectedIndex)
      ensures ok <==> Moved(old(teamList), oldIndex, newIndex).Some?
      ensures ok ==> teamList == Moved(old(teamList), oldIndex, newIndex).value
      ensures !ok ==> teamList == old(teamList) && controls == old(controls)
    {
      var popped := Pop(teamList, oldIndex);
      if popped.None? {
        return false;
      }
      var (item, rest) := popped.value;
      MovedIsPermutation(teamList, oldIndex, newIndex);
      ghost var before := teamList;
      teamList := Insert(rest, newIndex, item);
      forall t | t in teamList ensures t in db.teams {
        assert t in multiset(teamList);
        assert t in multiset(before);
      }
      Rebuild();
      ok := true;
    }

    /** Stores the current order for the selected league, under the key
        `(user, league, season)`. */
    method SavePrediction(now: string)
      requires Valid()
      modifies db
      ensures Valid()
      ensures db.predictions ==
              Upserted(old(db.predictions), SavedRow(teamList, LeagueKey(TabLabels[selectedIndex]), now))
      ensures db.teams == old(db.teams)
    {
      var league := LeagueKey(TabLabels[selectedIndex]);
      var rankings := Ids(teamList);
      db.Upsert(Prediction(UserId, league, Season, rankings, now));
    }

    /** Loads a league: the saved order looked up id by id, or the default
        order; then rebuilds the controls. */
    method LoadTeams(league: string)
      requires db.Valid() && selectedIndex < |TabLabels|
      modifies this`teamList, this`controls
      ensures Valid()
      ensures teamList == LoadedOrder(db.teams, db.predictions, league)
    {
      var key := PredictionKey(UserId, league, Season);
      if key in db.predictions && db.predictions[key].rankings != [] {
        var saved := db.predictions[key].rankings;
        teamList := [];
        var i := 0;
        while i < |saved|
          invariant 0 <= i <= |saved|
          invariant teamList == Resolve(db.teams, saved[..i])
        {
          assert saved[..i + 1][..i] == saved[..i];
          var res := LookupTeam(db.teams, saved[i]);
          if res.Some? {
            teamList := teamList + [res.value];
          }
          i := i + 1;
        }
        assert saved[..i] == saved;
      } else {
        teamList := DefaultOrder(db.teams, league, Season);
      }
      LoadedRows(db.teams, db.predictions, league);
      Rebuild();
    }

    /** Selecting a tab loads its league, discarding unsaved edits. An
        index naming no tab raises before anything is loaded. */
    method OnTabChange(index: nat) returns (ok: bool)
      requires Valid()
      modifies this
      ensures Valid()
      ensures ok <==> index < |TabLabels|
      ensures ok ==> selectedIndex == index &&
                     teamList == LoadedOrder(db.teams, db.predictions, LeagueKey(TabLabels[index]))
      ensures !ok ==> teamList == old(teamList) && controls == old(controls) &&
                      selectedIndex == old(selectedIndex)
    {
      if index >= |TabLabels| {
        return false;
      }
      selectedIndex := index;
      LoadTeams(LeagueKey(TabLabels[index]));
      ok := true;
    }
  }

  /** Save, switch to another tab, drag a team there, and come back: the
      list shown is the one that was saved; the edit on the other tab is
      discarded by the switch. */
  method SaveSwitchAndReturn(v: View, other: nat, from: int, to: int, now: string)
    requires v.Valid() && other < |TabLabels|
    requires v.teamList != [] && UniqueIds(v.db.teams)
    modifies v, v.db
    ensures v.Valid()
    ensures v.teamList == old(v.teamList) && v.selectedIndex == old(v.selectedIndex)
  {
    var back := v.selectedIndex;
    var league := LeagueKey(TabLabels[back]);
    ghost var saved := v.teamList;
    ghost var before := v.db.predictions;
    v.SavePrediction(now);
    SaveThenLoad(v.db.teams, before, saved, league, now);
    var _ := v.OnTabChange(other);
    var _ := v.HandleReorder(from, to);
    var _ := v.OnTabChange(back);
  }
}
