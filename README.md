# EFL "1 to 24s" prediction editor — Dafny model

The application lets a user put the teams of an English Football League
division (Championship, League One, League Two) into a predicted finishing
order by dragging them, and stores that order in a remote `predictions`
table. This project models the order handling of the prediction view in
`src/efl_1_to_24s.py`:

- the drag handler, which pops the dragged team from the list and inserts it
  at the drop index, with Python's index rules (`ListMoves`);
- the tab label to league key normalisation, lower-case then spaces to
  underscores (`LeagueKeys`);
- the two remote tables as in-memory values: `teams` as a sequence of rows,
  `predictions` as a map from the conflict key `(user_id, league, season)` to
  its row, with the team lookup by id, the default league order by
  `sort_order`, and the keyed upsert (`Tables`);
- the view itself as a class `View` whose fields are the edited team list,
  the tiles shown for it and the selected tab, with the reorder, load, save
  and tab-change handlers as methods (`PredictionView`).

The remote store is the class `Tables.Database`. Its invariant keeps every
prediction under its own `(user_id, league, season)`, because the load selects
the row by those columns. The user id and the season
are the constants the source hard-codes; the save timestamp is a parameter.

## Model

| member | source | states |
|---|---|---|
| ListMoves.PopIndex | src/efl_1_to_24s.py:35 | `pop` accepts exactly the indices in `[-n, n)`, a negative one counting from the end |
| ListMoves.InsertIndex | src/efl_1_to_24s.py:36 | `insert` never fails: a negative index counts from the end and an index past either end is clamped to it |
| ListMoves.Pop | src/efl_1_to_24s.py:35 | the pop succeeds iff the index is in range; the remaining list is one shorter and, with the popped item, has the old elements; an index in `[0, n)` pops that element |
| ListMoves.Insert | src/efl_1_to_24s.py:36 | the list grows by one and gains exactly the item; at an index in `[0, n]` the item stands there and removing it gives the old list |
| ListMoves.Moved | src/efl_1_to_24s.py:35-36 | the list after `pop(from)` then `insert(to, item)`, or None where `pop` raises |
| ListMoves.MovedIsPermutation | src/efl_1_to_24s.py:35-36 | a reorder fails iff the old index is out of range; otherwise it keeps length and the multiset of teams, whatever the new index |
| ListMoves.MovedPlacesItem | src/efl_1_to_24s.py:35-36 | with both indices in `[0, n)` the moved team ends at the new index and the other teams keep their relative order |
| ListMoves.MovedInPlace | src/efl_1_to_24s.py:35-36 | a reorder with equal indices leaves the list unchanged |
| ListMoves.MovedUndo | src/efl_1_to_24s.py:35-36 | dragging the team back from the new index to the old one restores the list |
| ListMoves.InsertRemoved | src/efl_1_to_24s.py:35-36 | inserting a popped element back at its own index restores the list |
| LeagueKeys.LowerChar | src/efl_1_to_24s.py:45 | the result is never an upper-case ASCII letter; upper-case letters map to their lower-case form, everything else is kept |
| LeagueKeys.LowerAt | src/efl_1_to_24s.py:45 | lower-casing keeps length and lower-cases each character in place |
| LeagueKeys.ReplaceSpacesAt | src/efl_1_to_24s.py:45 | replacing spaces keeps length and turns exactly the spaces into `_` |
| LeagueKeys.Lower | src/efl_1_to_24s.py:45 | the label with each ASCII capital lower-cased |
| LeagueKeys.ReplaceSpaces | src/efl_1_to_24s.py:45 | the string with each space replaced by `_` |
| LeagueKeys.LeagueKey | src/efl_1_to_24s.py:128 | the league key of a tab label: lower-cased, then spaces to `_` |
| LeagueKeys.TabLabels | src/efl_1_to_24s.py:134-138 | the labels of the three tabs, in tab order |
| LeagueKeys.LeagueKeyAt | src/efl_1_to_24s.py:128 | the key has one character per label character: space to `_`, upper-case ASCII to lower-case, others kept |
| LeagueKeys.LeagueKeyIsNormal | src/efl_1_to_24s.py:128 | a league key holds no space and no upper-case ASCII letter |
| LeagueKeys.LeagueKeyIdempotent | src/efl_1_to_24s.py:128 | normalising a key again changes nothing |
| LeagueKeys.ChampionshipKey | src/efl_1_to_24s.py:135 | the tab "Championship" gives the key `championship` |
| LeagueKeys.LeagueOneKey | src/efl_1_to_24s.py:136 | the tab "League One" gives the key `league_one` |
| LeagueKeys.LeagueTwoKey | src/efl_1_to_24s.py:137 | the tab "League Two" gives the key `league_two` |
| LeagueKeys.ChampionshipLeagueOneDistinct | src/efl_1_to_24s.py:134-138 | the Championship and League One tabs have different league keys |
| LeagueKeys.ChampionshipLeagueTwoDistinct | src/efl_1_to_24s.py:134-138 | the Championship and League Two tabs have different league keys |
| LeagueKeys.LeagueOneLeagueTwoDistinct | src/efl_1_to_24s.py:134-138 | the League One and League Two tabs have different league keys, so no two tabs share a stored prediction |
| Tables.LookupTeam | src/efl_1_to_24s.py:104-109 | a lookup by id finds a row of the table with that id, and finds nothing iff no row has that id |
| Tables.LookupFindsRow | src/efl_1_to_24s.py:104-108 | with ids unique, looking up a row's id returns that row |
| Tables.InLeagueRows | src/efl_1_to_24s.py:113-116 | the league filter keeps exactly the rows of that league and season, each as often as the table has it |
| Tables.InLeague | src/efl_1_to_24s.py:113-116 | the rows of `teams` with the given league and season, in table order |
| Tables.InsertBySortOrderSorted | src/efl_1_to_24s.py:117 | inserting into a list sorted by `sort_order` keeps it sorted and adds exactly that row |
| Tables.SortBySortOrderSorted | src/efl_1_to_24s.py:117 | ordering by `sort_order` yields a sorted permutation of its input |
| Tables.SortBySortOrder | src/efl_1_to_24s.py:117 | the rows ordered by `sort_order` ascending, ties in table order |
| Tables.DefaultOrder | src/efl_1_to_24s.py:113-118 | the fallback list: the league and season rows ordered by `sort_order` |
| Tables.DefaultOrderIsSortedLeague | src/efl_1_to_24s.py:113-118 | the fallback order is exactly the teams of the league and season, each as often as in the table, ascending by `sort_order` |
| Tables.Upserted | src/efl_1_to_24s.py:50-56 | after the upsert the row is stored under its `(user_id, league, season)` key, no key is lost or invented, and every other key keeps its row |
| Tables.UpsertedKeepsKeysMatch | src/efl_1_to_24s.py:50-56 | an upsert keeps every stored prediction under its own `(user_id, league, season)`, the columns the load filters on |
| Tables.UpsertLastWriteWins | src/efl_1_to_24s.py:50-56 | of two saves under one key the later one is what is stored |
| Tables.Database.Upsert | src/efl_1_to_24s.py:50-56 | the store keeps every prediction under its own key; its predictions become the upserted map and its teams are untouched |
| PredictionView.DisplayNumbersTeams | src/efl_1_to_24s.py:39-41 | the rebuilt display has one tile per team, in list order, keyed by the team id, numbered 1 to n |
| PredictionView.TeamTile | src/efl_1_to_24s.py:65-83 | what a team's container shows: keyed by the team id, with its position and name |
| PredictionView.Display | src/efl_1_to_24s.py:39-41 | the controls one rebuild appends: a tile per team, positions counted from 1 |
| PredictionView.Ids | src/efl_1_to_24s.py:47 | the `rankings` of a list: its team ids in list order |
| PredictionView.Resolve | src/efl_1_to_24s.py:102-110 | the loaded list: each saved id looked up in order, ids without a row dropped |
| PredictionView.ResolvedIds | src/efl_1_to_24s.py:102-110 | the loaded list's ids are the saved ids with failed lookups removed, hence a subsequence of `rankings`, equal to it when every id resolves; every loaded team is a table row |
| PredictionView.ResolveIdsAreResolvable | src/efl_1_to_24s.py:103-110 | the ids of the loaded list are exactly the saved ids whose lookup succeeds, and each loaded team is a table row |
| PredictionView.ResolvableIsSubsequence | src/efl_1_to_24s.py:103-110 | the resolvable ids are a subsequence of the saved ids, and each of them resolves |
| PredictionView.ResolvableAll | src/efl_1_to_24s.py:103-110 | when every saved id resolves, none is dropped |
| PredictionView.ResolveOwnIds | src/efl_1_to_24s.py:103-110 | a list of table rows (ids unique) is rebuilt exactly from its own ids |
| PredictionView.LoadedOrder | src/efl_1_to_24s.py:98-118 | what a league loads: the resolved saved order when a non-empty prediction exists, else the default order |
| PredictionView.LoadedRows | src/efl_1_to_24s.py:98-118 | whatever a league loads is made of rows of the `teams` table |
| PredictionView.SavedRow | src/efl_1_to_24s.py:50-56 | the row a save writes: user, league, season, the list's ids and the timestamp |
| PredictionView.SaveThenLoad | src/efl_1_to_24s.py:47-56 | saving a non-empty list of table rows and loading the same league gives that list back |
| PredictionView.SaveEmptyThenLoad | src/efl_1_to_24s.py:98 | a saved empty `rankings` counts as no prediction: the next load shows the default order |
| PredictionView.SaveKeepsOtherLeagues | src/efl_1_to_24s.py:50-56 | saving one league leaves what every other league loads unchanged |
| PredictionView.View.constructor | src/efl_1_to_24s.py:131-151 | the view opens on the first tab with the championship order loaded and its tiles shown |
| PredictionView.View.Rebuild | src/efl_1_to_24s.py:121-123 | the controls become exactly the display of the current list |
| PredictionView.View.HandleReorder | src/efl_1_to_24s.py:34-42 | a drag succeeds iff the old index is valid for `pop`; the list becomes the moved list and the tiles its display; a failed pop changes nothing |
| PredictionView.View.SavePrediction | src/efl_1_to_24s.py:44-56 | the view stays valid; the store gains, under `(user, selected league key, season)`, the ids of the current list in order; teams and other keys are untouched |
| PredictionView.View.LoadTeams | src/efl_1_to_24s.py:85-124 | the list becomes the saved order resolved id by id when a non-empty prediction exists, else the default order; the tiles show it |
| PredictionView.View.OnTabChange | src/efl_1_to_24s.py:127-129 | selecting a tab loads its league's stored or default order, discarding unsaved edits; an index naming no tab changes nothing |
| PredictionView.SaveSwitchAndReturn | src/efl_1_to_24s.py:127-129 | save, switch to any tab, drag a team there, and switch back: the list shown is the one saved |

## Left out

- The Flet rendering: container styling, `ReorderableListView`, `Tabs` widgets, `page.update`, and the snack bar after a save. A tile keeps only its key, position and team name.
- The Supabase client and its queries. The `teams` and `predictions` tables are in-memory values. A failed or rejected remote call is not modelled, so a save always stores its row.
- The `updated_at` timestamp comes from the wall clock. It is a parameter `now` of the save.
- `get_teams` (src/efl_1_to_24s.py:7-14) is never called. It issues the same query as the fallback branch of the load, which `Tables.DefaultOrder` models.
- Tables.SortBySortOrder: rows with equal `sort_order` keep table order, because the database leaves the order of ties unspecified.
- Tables.LookupTeam: returns the first row with the id. The id is taken as the primary key of `teams`, so `maybe_single` never sees two rows.
- A `rankings` value of null is treated like an empty list: both are false in the load's test.
- LeagueKeys.LowerChar: lower-cases ASCII letters only. Python's `str.lower` also maps non-ASCII letters, and the tab labels are ASCII.
- User login, session persistence and the profile view. src/auth_view.py and src/profile_view.py call the remote auth service. src/auth_helpers.py also reads, writes and deletes a local `.session.json` token file. None of it touches the prediction order.
- The application shell src/main.py. It only lays out a static menu of game cards.
- `safe_execute` (src/supabase_helpers.py) and the live smoke script src/test_supabase.py.
- The code has no save deadline, countdown or dirty-state tracking, so the model has none.
- The code does not keep the view list a permutation of the league's teams. A saved prediction can reference teams that no longer exist or belong to another league, because the lookup at src/efl_1_to_24s.py:104-108 filters by id only. `ResolvedIds` states what a load does guarantee.
- PredictionView.View.OnTabChange: Flet only reports indices of existing tabs. An out-of-range index is modelled as raising before any change.
