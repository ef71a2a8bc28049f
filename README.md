# Draft planning and center-of-gravity models, in Dafny

This project models the `solve` functions of three ticdat example
optimization scripts, and proves properties of those models:

- **fantop with gurobipy.** A fantasy-football draft planner. It ranks the
  players by an *expected draft position*, builds a binary program that
  picks starters and reserves for my remaining draft slots, and reads the
  plan off an optimal solution. The plan zips the picks, in ranking order,
  with my sorted draft positions. A plan is "Complete" when it fills every
  slot and "Partial" otherwise.
- **fantop with amplpy.** The same planner written over pandas tables.
  - It ranks the players in place, in the `players` frame: a helper sort
    column, `sort_values`, `reset_index`, then the "Expected Draft
    Position" column.
  - It passes the tables and a flex-starter cap, clipped to the number of
    draft slots, to an AMPL model.
  - It builds `my_draft` with pandas: a filter, a join and a sort of the
    starter and reserve frames, then a join with the sorted draft
    positions.
- **cog with xpress.** A center-of-gravity model. Each site with demand is
  assigned to a site that can be a center, and exactly "Number of
  Centroids" centers are opened. Before building the model it diagnoses:
  - For the *unassignable* sites (demand, but no possible center), it stops
    with no solution.
  - For the *useless* sites, which have no demand and can serve no site, it
    only reports them.
  - When no site can be a center, it stops with no solution.

  It then adds the must-assign and force-open constraints. The force-open
  constraints come in either the weak or the strong formulation, and a
  constraint fixes the number of centroids. Last, it reads the openings and
  assignments off the MIP solution.

Module layout:

- `Sorting`: a stable sort computed as an order of positions, with its
  permutation, sum and uniqueness facts.
- `Bounds`: values that may be `float("inf")`.
- `Draft`: the fantop entities and the constraint sums shared by both fantop
  scripts. It also holds the counting argument behind their assertion
  `draft_position <= expected_draft_position[player]`.
- `FantopGurobi`, `FantopAmpl` and `Cog`: one module per script. The
  pandas frame that the amplpy script mutates is the class
  `FantopAmpl.PanDat`. The xpress model under construction is the class
  `Cog.CogModel`. Model building and solution reading are loops over their
  fields.

The solver is not modelled. Its answer is an input: a status, plus one
boolean per binary variable that says whether the value came back within
the script's tolerance of 1. Each script's constraints are stated as
predicates over these booleans. The lemmas then show what the scripts rely
on or promise at any solution that satisfies those constraints:

- the assertions in the scripts hold;
- the plan's rows and draft positions are what they are meant to be;
- once the players are ranked with distinct expected draft positions, the
  amplpy `my_draft` does not depend on how pandas orders the picks when it
  sorts them;
- the weak and strong cog formulations admit the same 0/1 points;
- a feasible cog point opens exactly the requested number of centers and
  assigns each site with demand to exactly one opened center.

Where the two fantop scripts differ, the model follows each script's code:

- The amplpy script's draft-size lower bound is the number of players
  already drafted by me. Its `My_Draft_Size` bounds at
  `examples/expert_section/amplpy/fantop/fantop.py:148-152` have no "+ 1".
  The gurobipy script does require at least one new pick.
- Only the amplpy script clips the flex cap to the number of draft slots.
  The gurobipy script compares with the parameter itself.
- The amplpy script gives up only when `solve_result` is "infeasible". Any
  other result is read off as it is.
- Python's `sorted` is stable, so in the gurobipy ranking ties keep table
  order. pandas' `sort_values` defaults to an unstable sort, so in the
  amplpy ranking ties have no defined order.

## Model

| member | source | states |
|---|---|---|
| Sorting.SortOrder | examples/gurobipy/fantop/fantop.py:96-99 | the order in which a stable sort by key visits the positions: every position exactly once, keys ascending, equal keys in input order |
| Sorting.Permute | examples/gurobipy/fantop/fantop.py:96-99 | the elements taken in a given order of positions: the k-th output is the element at the k-th listed position |
| Sorting.OrderedPositions | examples/gurobipy/fantop/fantop.py:96-99 | in a sort order, one position comes before another exactly when the stable order puts it first |
| Sorting.SortOrderCovers | examples/gurobipy/fantop/fantop.py:96-99 | every input position appears somewhere in the sort order |
| Sorting.SortIsPermutation | examples/expert_section/amplpy/fantop/fantop.py:102 | sorting rows neither adds nor drops any: the multiset of rows is unchanged |
| Sorting.SortOrderIsArrangement | examples/expert_section/amplpy/fantop/fantop.py:102 | the sort order rearranges the positions 0 .. n-1, each exactly once |
| Sorting.SortInts | examples/gurobipy/fantop/fantop.py:124 | `sorted` on integers: ascending, same length and same multiset as the input |
| Sorting.SortIntsFacts | examples/gurobipy/fantop/fantop.py:177 | each sorted draft position is one of mine, and distinct positions come out strictly ascending |
| Sorting.SortByRank | examples/expert_section/amplpy/fantop/fantop.py:213 | sorting rows by an integer column keeps their number and their multiset |
| Sorting.SortedSum | examples/gurobipy/fantop/fantop.py:130-131 | reordering the summands does not change a sum |
| Sorting.AscendingUnique | examples/expert_section/amplpy/fantop/fantop.py:213 | two sequences whose keys strictly ascend and that hold the same elements are equal |
| Sorting.SortedArrangementUnique | examples/expert_section/amplpy/fantop/fantop.py:213 | with distinct keys, every ascending rearrangement of the rows is the same sequence, so even an unstable sort has one outcome |
| Sorting.SortIntsSorted | examples/expert_section/amplpy/fantop/fantop.py:216 | sorting draft positions that already strictly ascend gives them back unchanged |
| Bounds.Min | examples/expert_section/amplpy/fantop/fantop.py:187-188 | `min(parameter, n)` with a possibly infinite parameter: at most n and at most the parameter, equal to one of them, and n when the parameter is infinite |
| Draft.SortKeys | examples/gurobipy/fantop/fantop.py:97-99 | one ranking key per player, in table order |
| Draft.RankingOrder | examples/gurobipy/fantop/fantop.py:96-99 | the ranking order has one entry per player |
| Draft.RankingOrderDistinct | examples/gurobipy/fantop/fantop.py:96-99 | ranking keeps player names distinct |
| Draft.RoleRules | examples/gurobipy/fantop/fantop.py:116-122 | a player drafted by me has starter plus reserve equal to 1; an undrafted player at most 1 |
| Draft.AheadSum | examples/gurobipy/fantop/fantop.py:125-127 | the draft-order sum at slot value d: starter plus reserve over the draftable players whose expected draft position is below d |
| Draft.SlotRules | examples/gurobipy/fantop/fantop.py:124-128 | for my i-th sorted slot (0-based) that sum is at most i |
| Draft.DraftSize | examples/gurobipy/fantop/fantop.py:130-131 | my draft size: starter plus reserve summed over the draftable players |
| Draft.ChosenAt | examples/gurobipy/fantop/fantop.py:137-140 | the starters (or reserves) selected among the draftable players of one position |
| Draft.RosterRules | examples/gurobipy/fantop/fantop.py:136-144 | per roster position, selected starters within [min, max] starters and selected reserves within [min, max] reserve, where a maximum may be infinite |
| Draft.FlexStarters | examples/gurobipy/fantop/fantop.py:147-149 | the starters selected among the draftable players whose position is flex eligible |
| Draft.Variables | examples/gurobipy/fantop/fantop.py:110-113 | the `my_starters` and `my_reserves` dictionaries have exactly the draftable players as keys |
| Draft.MyPlayerCount | examples/gurobipy/fantop/fantop.py:104-105 | `len(already_drafted_by_me)`: the number of players drafted by me |
| Draft.VariablesOfPlayers | examples/gurobipy/fantop/fantop.py:106-113 | a player has Starter and Reserve variables exactly when it is not drafted by someone else |
| Draft.FlexStartersWithinDraftSize | examples/gurobipy/fantop/fantop.py:147-151 | the flex-eligible starters are part of my draft size |
| Draft.IsPicked | examples/gurobipy/fantop/fantop.py:169-170 | the filter of `picked`: a draftable player whose starter or reserve value is (almost) one |
| Draft.ChosenPlayers | examples/gurobipy/fantop/fantop.py:169-170 | the picks are exactly the draftable players whose starter or reserve variable is one, no more than the players |
| Draft.ChosenPlayersDistinct | examples/gurobipy/fantop/fantop.py:169-170 | the picks have distinct names |
| Draft.ChosenPlayersCount | examples/gurobipy/fantop/fantop.py:116-122 | under the single-role constraints the number of picks equals the draft size |
| Draft.SameName | examples/gurobipy/fantop/fantop.py:30-31 | "Player Name" identifies the player in the table |
| Draft.MinePicked | examples/gurobipy/fantop/fantop.py:117-119 | a player already drafted by me is always picked |
| Draft.ExistsUndraftedPick | examples/gurobipy/fantop/fantop.py:132-133 | a draft larger than my current team contains a pick of an undrafted player |
| Draft.RanksOf | examples/gurobipy/fantop/fantop.py:171 | the expected draft position of each pick, pick by pick |
| Draft.ByRank | examples/gurobipy/fantop/fantop.py:169-171 | sorting the picks by expected draft position keeps their number and multiset |
| Draft.ByRankAscending | examples/gurobipy/fantop/fantop.py:171 | the sorted picks' expected draft positions ascend, and their names stay distinct |
| Draft.ByRankRanks | examples/gurobipy/fantop/fantop.py:171 | the ranks of the sorted picks are the picks' ranks put in sort order |
| Draft.ByRankFacts | examples/gurobipy/fantop/fantop.py:169-171 | the sorted picks are exactly the picked players, each once, in strictly ascending expected draft position |
| Draft.ByRankSlotNotAfterRank | examples/gurobipy/fantop/fantop.py:180 | under the draft-order constraints, my k-th sorted slot is no later than the k-th sorted pick's expected draft position |
| Draft.CountBelowConcat | examples/gurobipy/fantop/fantop.py:125-127 | the number of ranks below d adds up over concatenation |
| Draft.ChosenAhead | examples/gurobipy/fantop/fantop.py:124-128 | the picks ranked before d are no more than the sum the draft-order constraint at d bounds |
| Draft.CountBelowIsSum | examples/gurobipy/fantop/fantop.py:125-127 | counting the ranks below d is summing an indicator |
| Draft.SortedCountBelow | examples/gurobipy/fantop/fantop.py:171 | sorting does not change how many ranks lie below d |
| Draft.CountBelowAtLeast | examples/gurobipy/fantop/fantop.py:124-128 | if the first n ranks lie below d, at least n ranks do |
| Draft.ZippedSlotNotAfterRank | examples/gurobipy/fantop/fantop.py:177-180 | zipping ascending ranks with slots: if at most k ranks lie below the k-th slot, that slot is no later than the k-th rank |
| FantopGurobi.ExpectedDraftPositions | examples/gurobipy/fantop/fantop.py:93-100 | the dictionary the ranking loop fills: the k-th player in ranking order gets k + 1 |
| FantopGurobi.Numbered | examples/gurobipy/fantop/fantop.py:100 | the dictionary after k passes of the ranking loop: the j-th player in order gets `len(expected_draft_position) + 1`, that is j + 1 |
| FantopGurobi.NumberedStep | examples/gurobipy/fantop/fantop.py:100 | numbering one more player adds that player with the next number and changes no earlier entry |
| FantopGurobi.ExpectedDraftPositionAt | examples/gurobipy/fantop/fantop.py:96-100 | the k-th player of the ranking order gets expected draft position k + 1 |
| FantopGurobi.RankPlayers | examples/gurobipy/fantop/fantop.py:93-100 | the ranking loop builds exactly the dictionary that numbers the ranking order from 1 |
| FantopGurobi.ExpectedDraftPositionOf | examples/gurobipy/fantop/fantop.py:96-100 | a player's expected draft position is one more than its place in the sort order |
| FantopGurobi.ExpectedDraftPositionsKeys | examples/gurobipy/fantop/fantop.py:101 | every player, and nothing else, gets an expected draft position |
| FantopGurobi.ExpectedDraftPositionsValues | examples/gurobipy/fantop/fantop.py:101-102 | the expected draft positions are exactly 1 .. N |
| FantopGurobi.ExpectedDraftPositionsInjective | examples/gurobipy/fantop/fantop.py:101 | different players get different expected draft positions |
| FantopGurobi.ExpectedDraftPositionsAreRanking | examples/gurobipy/fantop/fantop.py:101-102 | the two assertions after the ranking loop hold on every non-empty table: the keys are the players, the values are distinct, min 1 and max N |
| FantopGurobi.ExpectedDraftPositionOrder | examples/gurobipy/fantop/fantop.py:96-100 | one player ranks ahead of another exactly when the stable sort by key puts it first |
| FantopGurobi.RankingByStatus | examples/gurobipy/fantop/fantop.py:94-99 | players drafted by someone else rank ahead of all others; those drafted by me rank ahead of all undrafted ones; undrafted players follow average draft position; equal keys keep table order |
| FantopGurobi.Feasible | examples/gurobipy/fantop/fantop.py:110-151 | the constraint system: variables exactly for the draftable players, the role rules, the draft-order rules over my sorted slots, draft size in [players drafted by me + 1, number of slots], the roster rules and flex starters at most the (possibly infinite) parameter |
| FantopGurobi.ExpectedDraftPositionsCover | examples/gurobipy/fantop/fantop.py:124-128 | every player the constraints look up has an expected draft position |
| FantopGurobi.Picked | examples/gurobipy/fantop/fantop.py:169-171 | there are no more picks than players |
| FantopGurobi.ExpectedDraftPositionsRankPlayers | examples/gurobipy/fantop/fantop.py:101 | the expected draft positions rank the players: every player has one, and no two players share one |
| FantopGurobi.PickedFacts | examples/gurobipy/fantop/fantop.py:169-171 | the picked list holds exactly the picked players, each once, in strictly ascending expected draft position |
| FantopGurobi.PickedUnique | examples/gurobipy/fantop/fantop.py:169-171 | sorting the set of picks gives one list whatever order the set is iterated in: every rearrangement of the picks in ascending expected draft position equals `picked` |
| FantopGurobi.PickedWithinSlots | examples/gurobipy/fantop/fantop.py:172 | `assert len(picked) <= len(my_draft_positions)` holds at every feasible solution |
| FantopGurobi.PickedSlotNotAfterExpected | examples/gurobipy/fantop/fantop.py:180 | `assert draft_position <= expected_draft_position[player]` holds for every pair of the zip at every feasible solution |
| FantopGurobi.PlanRow | examples/gurobipy/fantop/fantop.py:181-185 | the row written for one zip pair: its draft position, the player's position, "Actual" for a player drafted by me and "Planned" otherwise, "Starter" when the starter value is one and "Reserve" otherwise |
| FantopGurobi.ZipLength | examples/gurobipy/fantop/fantop.py:177 | `zip` stops at the shorter list: the smaller of the number of picks and the number of my draft positions |
| FantopGurobi.ZipRows | examples/gurobipy/fantop/fantop.py:177-185 | the rows written by the first n passes of the zip loop: each pick keyed by name with its slot, position, "Actual"/"Planned" and "Starter"/"Reserve" |
| FantopGurobi.PlannedDraft | examples/gurobipy/fantop/fantop.py:169-185 | the `my_draft` table: the zip of the picks in rank order with my sorted draft positions, up to the shorter of the two |
| FantopGurobi.Performed | examples/gurobipy/fantop/fantop.py:187-188 | "Complete" when `my_draft` has as many rows as I have draft positions, else "Partial" |
| FantopGurobi.ZipRowsEntry | examples/gurobipy/fantop/fantop.py:177-185 | every row of the zip comes from one of its pairs, with that pick's columns and that slot |
| FantopGurobi.ZipRowsHas | examples/gurobipy/fantop/fantop.py:177-185 | every pair of the zip leaves its row |
| FantopGurobi.ZipRowsSize | examples/gurobipy/fantop/fantop.py:177-185 | n pairs give n rows |
| FantopGurobi.PlannedDraftEntry | examples/gurobipy/fantop/fantop.py:177-185 | each `my_draft` row is the k-th pick with the k-th sorted draft position |
| FantopGurobi.PlannedDraftHas | examples/gurobipy/fantop/fantop.py:177-185 | each zipped pick has its `my_draft` row |
| FantopGurobi.PlannedDraftPlayers | examples/gurobipy/fantop/fantop.py:169-185 | at a feasible solution `my_draft` holds exactly the picked players, including every player already drafted by me |
| FantopGurobi.PlannedDraftRows | examples/gurobipy/fantop/fantop.py:182-185 | each row carries the player's position, "Actual" exactly for players drafted by me, "Starter" exactly when the starter variable is one |
| FantopGurobi.ZipRowsOrder | examples/gurobipy/fantop/fantop.py:177-181 | zipping picks in ascending rank with strictly ascending slots: ranks and draft positions are in the same order |
| FantopGurobi.PlannedDraftSlotBound | examples/gurobipy/fantop/fantop.py:180-181 | each row's draft position is one of mine and no later than the player's expected draft position |
| FantopGurobi.PlannedDraftSlotOrder | examples/gurobipy/fantop/fantop.py:177-181 | of two rows, the player ranked ahead gets the earlier draft position, and conversely |
| FantopGurobi.PlannedDraftExtends | examples/gurobipy/fantop/fantop.py:132-133 | at a feasible solution the plan contains at least one planned (new) pick |
| FantopGurobi.PerformedMeaning | examples/gurobipy/fantop/fantop.py:187-188 | "Complete" exactly when the draft size equals the number of my draft positions |
| FantopGurobi.ZipPicks | examples/gurobipy/fantop/fantop.py:177-185 | the extraction loop stops at the shorter of picks and slots and builds exactly the zipped rows |
| FantopGurobi.ExtractDraft | examples/gurobipy/fantop/fantop.py:166-188 | reading an optimal solution gives the zipped `my_draft` and "Draft Performed" |
| FantopGurobi.Solve | examples/gurobipy/fantop/fantop.py:87-189 | the outcome: an error on an empty players table, no draft when the solver is not optimal, else the extracted solution |
| FantopAmpl.Range | examples/expert_section/amplpy/fantop/fantop.py:103-105 | the column start, start + 1, ... of length n |
| FantopAmpl.AverageDraftPositions | examples/expert_section/amplpy/fantop/fantop.py:99 | the "Average Draft Position" column, row by row |
| FantopAmpl.PanDat.constructor | examples/expert_section/amplpy/fantop/fantop.py:88 | the frames handed to `solve`, with no helper columns |
| FantopAmpl.PanDat.AddSortColumn | examples/expert_section/amplpy/fantop/fantop.py:99 | the sort column becomes a copy of the average draft positions; nothing else changes |
| FantopAmpl.PanDat.OverwriteSortColumn | examples/expert_section/amplpy/fantop/fantop.py:100-101 | the rows with the given status get the value and every other row keeps its own |
| FantopAmpl.PanDat.WriteSortKeys | examples/expert_section/amplpy/fantop/fantop.py:99-101 | after the three assignments the sort column holds each row's ranking key: -2 for drafted by someone else, -1 for drafted by me, the average draft position otherwise |
| FantopAmpl.PanDat.SortRows | examples/expert_section/amplpy/fantop/fantop.py:102 | the rows and the sort column are rearranged together by the sort order of the sort column |
| FantopAmpl.PanDat.NumberRows | examples/expert_section/amplpy/fantop/fantop.py:103-104 | the index column becomes 0 .. N-1 |
| FantopAmpl.PanDat.AddExpectedDraftPosition | examples/expert_section/amplpy/fantop/fantop.py:105 | each row's expected draft position is its index plus one |
| FantopAmpl.PanDat.DropHelperColumns | examples/expert_section/amplpy/fantop/fantop.py:106 | the helper columns are gone and the rest is unchanged |
| FantopAmpl.PanDat.SortDraftPositions | examples/expert_section/amplpy/fantop/fantop.py:109 | my draft positions come out sorted |
| FantopAmpl.PanDat.RankPlayers | examples/expert_section/amplpy/fantop/fantop.py:99-111 | the players end in ranking order numbered 1 .. N, so the assertion at line 111 holds; my positions are sorted; no helper column is left |
| FantopAmpl.RankingSorted | examples/expert_section/amplpy/fantop/fantop.py:102 | the ranking order ascends by sort key, rearranges the rows (each exactly once, same multiset) and keeps names distinct |
| FantopAmpl.SortedByStatus | examples/expert_section/amplpy/fantop/fantop.py:97-102 | in any table sorted by that key: drafted by someone else first, then drafted by me, then undrafted by ascending average draft position |
| FantopAmpl.EdpParam | examples/expert_section/amplpy/fantop/fantop.py:132 | the AMPL parameter `expected_draft_position`: each player name mapped to its value in the column |
| FantopAmpl.EdpParamFacts | examples/expert_section/amplpy/fantop/fantop.py:132 | the `expected_draft_position` parameter has one entry per player holding its column value, and ranks the players when the column is distinct |
| FantopAmpl.RankingMembers | examples/expert_section/amplpy/fantop/fantop.py:102 | the sorted frame holds the same players and names |
| FantopAmpl.NumberedValues | examples/expert_section/amplpy/fantop/fantop.py:105 | numbering rows 1 .. N gives row k the value k + 1; the values are exactly 1 .. N |
| FantopAmpl.RankedEdpFacts | examples/expert_section/amplpy/fantop/fantop.py:105-111 | after ranking, the parameter maps every player to its row number and ranks the players with values exactly 1 .. N |
| FantopAmpl.AmplFeasible | examples/expert_section/amplpy/fantop/fantop.py:134-165 | the AMPL constraints: variables over DRAFTABLE_PLAYERS, Already_Drafted_By_Me and Cant_Draft_Twice, at most ord(d) - 1 players ahead of slot d, draft size in [players drafted by me, number of slots] with no "+ 1", the roster bounds, and flex starters at most the clipped cap |
| FantopAmpl.FlexCap | examples/expert_section/amplpy/fantop/fantop.py:187-188 | the clipped flex cap is at most the number of draft slots and at most the parameter, and equals the number of slots when the parameter is infinite |
| FantopAmpl.FlexCapClipped | examples/expert_section/amplpy/fantop/fantop.py:163-165 | once the draft fits the slots, clipping the flex cap admits exactly the same solutions as the parameter itself |
| FantopAmpl.RowOf | examples/expert_section/amplpy/fantop/fantop.py:202-208 | the row of a selected player: name, position, "Planned" for an undrafted player and "Actual" otherwise, the role, and its expected draft position |
| FantopAmpl.StarterRows | examples/expert_section/amplpy/fantop/fantop.py:210 | the starter frame: `selected_players` on the Starters values |
| FantopAmpl.ReserveRows | examples/expert_section/amplpy/fantop/fantop.py:211 | the reserve frame: `selected_players` on the Reserves values |
| FantopAmpl.Extract | examples/expert_section/amplpy/fantop/fantop.py:198-224 | the solution after a solve that is not infeasible: starters then reserves, sorted by expected draft position, joined by index with my sorted draft positions, and "Complete" exactly when the row count equals my number of draft positions |
| FantopAmpl.SelectedPlayers | examples/expert_section/amplpy/fantop/fantop.py:198-208 | `selected_players` yields at most one row per player |
| FantopAmpl.MyDraftOrder | examples/expert_section/amplpy/fantop/fantop.py:212-213 | the appended and sorted frame holds the same rows as starters plus reserves |
| FantopAmpl.JoinPositions | examples/expert_section/amplpy/fantop/fantop.py:220 | the index join: row k keeps its columns and gets my k-th draft position, and a position exactly when I have a k-th slot |
| FantopAmpl.SelectedEntry | examples/expert_section/amplpy/fantop/fantop.py:201-207 | every selected row is the row of a draftable player whose variable is one, "Planned" exactly for an undrafted player |
| FantopAmpl.SelectedHas | examples/expert_section/amplpy/fantop/fantop.py:201 | every draftable player whose variable is one has its row |
| FantopAmpl.SelectedDistinct | examples/expert_section/amplpy/fantop/fantop.py:202 | selected rows have distinct names |
| FantopAmpl.SelectedCount | examples/expert_section/amplpy/fantop/fantop.py:210-212 | starter rows plus reserve rows number exactly the draft size |
| FantopAmpl.SelectedAhead | examples/expert_section/amplpy/fantop/fantop.py:144-146 | the selected rows ranked below d are counted by the draft-order sum at d |
| FantopAmpl.SelectedNamesDistinct | examples/expert_section/amplpy/fantop/fantop.py:139-142 | under the single-role constraints no player is both a starter and a reserve row |
| FantopAmpl.SelectedRanksDistinct | examples/expert_section/amplpy/fantop/fantop.py:213 | the rows being sorted carry distinct expected draft positions |
| FantopAmpl.MyDraftOrderRanks | examples/expert_section/amplpy/fantop/fantop.py:213 | the sorted frame's expected draft positions are the sorted positions of starters plus reserves |
| FantopAmpl.MyDraftOrderUnique | examples/expert_section/amplpy/fantop/fantop.py:213 | with distinct positions, any ascending rearrangement of the rows equals the modelled sort |
| FantopAmpl.RankedDataPrepared | examples/expert_section/amplpy/fantop/fantop.py:109-111 | the data after ranking: well formed, distinct ranking column, strictly ascending draft positions |
| FantopAmpl.DraftOrder | examples/expert_section/amplpy/fantop/fantop.py:210-213 | the `my_draft` frame before the join: the starter rows appended with the reserve rows, sorted by expected draft position |
| FantopAmpl.DraftOrderEntry | examples/expert_section/amplpy/fantop/fantop.py:210-213 | each sorted row is the row of a picked draftable player |
| FantopAmpl.ExtractSize | examples/expert_section/amplpy/fantop/fantop.py:148-152 | at a feasible solution `my_draft` has draft-size rows, no more than my slots, and every row gets a draft position |
| FantopAmpl.ExtractPerformed | examples/expert_section/amplpy/fantop/fantop.py:223-224 | "Complete" exactly when the draft size equals the number of my draft positions |
| FantopAmpl.DraftOrderSlotNotAfterRank | examples/expert_section/amplpy/fantop/fantop.py:144-146 | my k-th slot is no later than the k-th sorted row's expected draft position |
| FantopAmpl.ExtractSlotNotAfterExpected | examples/expert_section/amplpy/fantop/fantop.py:216-220 | row k gets my k-th sorted draft position, which is no later than that player's expected draft position |
| FantopAmpl.ExtractRow | examples/expert_section/amplpy/fantop/fantop.py:205-207 | each row is a picked player with its position, "Planned" exactly when undrafted, "Actual" exactly when drafted by me, "Starter" exactly when its starter variable is one |
| FantopAmpl.ExtractHas | examples/expert_section/amplpy/fantop/fantop.py:201-212 | every picked player has a row |
| FantopAmpl.ExtractOrder | examples/expert_section/amplpy/fantop/fantop.py:213-214 | down the table, expected draft positions strictly ascend |
| FantopAmpl.ExtractUnique | examples/expert_section/amplpy/fantop/fantop.py:213-220 | however `sort_values` orders the rows, `my_draft` is the same |
| FantopAmpl.Solve | examples/expert_section/amplpy/fantop/fantop.py:88-226 | ranks the frame in place, hands AMPL the ranked data with the clipped flex cap, and returns no draft exactly when the solve is infeasible, else the extracted solution |
| Cog.Filter | examples/xpress_model/cog/cogmodel.py:88-90 | a list comprehension with a condition: exactly the elements meeting it, never more |
| Cog.FilterDistinct | examples/xpress_model/cog/cogmodel.py:88-90 | filtering a list of distinct sites keeps them distinct |
| Cog.GetDistance | examples/xpress_model/cog/cogmodel.py:76-81 | finite exactly when a distance is stored either way, the (x, y) entry first, else the (y, x) one |
| Cog.GetDistanceSymmetric | examples/xpress_model/cog/cogmodel.py:76-81 | the lookup is symmetric unless the table stores two different distances for one pair |
| Cog.CanAssign | examples/xpress_model/cog/cogmodel.py:83-85 | x can be assigned to y exactly when y can be a center and a distance between them is stored |
| Cog.Unassignables | examples/xpress_model/cog/cogmodel.py:88-90 | exactly the sites with positive demand that no site can take |
| Cog.Useless | examples/xpress_model/cog/cogmodel.py:99-100 | exactly the sites with zero demand that can take no site |
| Cog.AssignKeys | examples/xpress_model/cog/cogmodel.py:111-113 | an assignment variable exists for exactly the pairs of sites that can be assigned |
| Cog.OpenKeys | examples/xpress_model/cog/cogmodel.py:114-119 | the key set of `open_vars`: the sites whose status is "Can Be Center"; `solve` stops when it is empty |
| Cog.OpenSites | examples/xpress_model/cog/cogmodel.py:114-116 | the opening variables' sites are exactly those that can be centers |
| Cog.CentersOf | examples/xpress_model/cog/cogmodel.py:128 | the slice (n, "*") lists exactly the centers n can be assigned to |
| Cog.SourcesOf | examples/xpress_model/cog/cogmodel.py:137-138 | the slice ("*", a) lists exactly the sites that can be assigned to a |
| Cog.CentersSourcesDistinct | examples/xpress_model/cog/cogmodel.py:128 | both slices list each site at most once |
| Cog.AssignPairs | examples/xpress_model/cog/cogmodel.py:180 | the items of `assign_vars` are exactly the pairs that can be assigned |
| Cog.NoUnassignablesMeansCenters | examples/xpress_model/cog/cogmodel.py:88-97 | past the first exit, every must-assign constraint sums over at least one variable |
| Cog.NoCentersMeansNoDemand | examples/xpress_model/cog/cogmodel.py:117-119 | when nothing can be a center there are no assignment variables, and past the first exit no site has demand |
| Cog.MustAssigns | examples/xpress_model/cog/cogmodel.py:126-131 | the must-assign constraints for a list of sites, in loop order: one per site with positive demand, over that site's slice (n, "*") |
| Cog.StrongLinks | examples/xpress_model/cog/cogmodel.py:143-145 | the strong force-open constraints of one center: one per source, in order |
| Cog.LinksFor | examples/xpress_model/cog/cogmodel.py:135-145 | the force-open constraints of one site: none unless it can be a center, else one weak constraint over its slice ("*", a) or the strong ones |
| Cog.Links | examples/xpress_model/cog/cogmodel.py:133-145 | the force-open constraints for a list of sites, in loop order |
| Cog.ModelFor | examples/xpress_model/cog/cogmodel.py:126-150 | the whole constraint list under a formulation: must-assign, then force-open, then the number-of-centroids constraint over all opening variables |
| Cog.ModelConstraints | examples/xpress_model/cog/cogmodel.py:133-150 | the constraint list under the formulation the "Formulation" parameter selects |
| Cog.MustAssignsShape | examples/xpress_model/cog/cogmodel.py:126-131 | the must-assign loop adds one constraint per site with demand, over that site's centers, and nothing else |
| Cog.StrongLinksShape | examples/xpress_model/cog/cogmodel.py:143-145 | the strong loop for a center adds one constraint per source, each exactly once |
| Cog.LinksForShape | examples/xpress_model/cog/cogmodel.py:134-145 | one pass of the force-open loop adds a weak constraint over the sources, or the strong ones, or nothing for a site that cannot be a center |
| Cog.LinksShape | examples/xpress_model/cog/cogmodel.py:133-145 | the force-open loop adds exactly one weak constraint per center or one strong constraint per assignment variable |
| Cog.ModelMustAssign | examples/xpress_model/cog/cogmodel.py:126-131 | the model holds exactly one must-assign constraint per site with demand, over exactly its assignment variables, and none for other sites |
| Cog.ModelLinks | examples/xpress_model/cog/cogmodel.py:133-145 | weak: exactly one force-open constraint per possible center, over exactly the sites it can take; strong: exactly one per assignment variable; never both |
| Cog.ModelNumCentroids | examples/xpress_model/cog/cogmodel.py:147-150 | exactly one number-of-centroids constraint, over all the opening variables |
| Cog.SumFrom | examples/xpress_model/cog/cogmodel.py:128-129 | the must-assign `mdl.sum`: the assignment values from site n to each listed center |
| Cog.SumInto | examples/xpress_model/cog/cogmodel.py:139 | the weak force-open `mdl.sum`: the assignment values from each listed source into center a |
| Cog.SumOpen | examples/xpress_model/cog/cogmodel.py:149 | the number-of-centroids `mdl.sum`: the opening values of the listed sites |
| Cog.Holds | examples/xpress_model/cog/cogmodel.py:128-150 | one constraint at a 0/1 point: a must-assign sum equal to 1, a weak sum at most the source count times the opening, a strong assignment at most the opening, the opening count equal to the parameter |
| Cog.AllHold | examples/xpress_model/cog/cogmodel.py:126-150 | every constraint of a list holds at the point |
| Cog.WeakIffStrong | examples/xpress_model/cog/cogmodel.py:139-145 | on a 0/1 point a center's weak constraint holds exactly when all its strong constraints do |
| Cog.LinksAgree | examples/xpress_model/cog/cogmodel.py:133-145 | the weak and strong force-open constraints hold at the same 0/1 points |
| Cog.FormulationsAgree | examples/xpress_model/cog/cogmodel.py:133-145 | the two formulations admit exactly the same 0/1 points |
| Cog.SumFromOne | examples/xpress_model/cog/cogmodel.py:127-129 | a must-assign sum of one over distinct centers selects exactly one center |
| Cog.SumOpenCount | examples/xpress_model/cog/cogmodel.py:149 | over distinct sites, the opening sum counts the opened sites |
| Cog.FeasibleAssigned | examples/xpress_model/cog/cogmodel.py:126-131 | at a feasible point each site with demand is assigned to exactly one center |
| Cog.FeasibleOpened | examples/xpress_model/cog/cogmodel.py:133-145 | at a feasible point, under either formulation, every assignment goes to an opened center |
| Cog.FeasibleCount | examples/xpress_model/cog/cogmodel.py:147-150 | at a feasible point exactly "Number of Centroids" sites are opened |
| Cog.FeasibleSolution | examples/xpress_model/cog/cogmodel.py:126-150 | a feasible 0/1 point is a center-of-gravity plan: one opened center per site with demand, and the requested number of centers |
| Cog.CogModel.constructor | examples/xpress_model/cog/cogmodel.py:109 | a new model has no constraints |
| Cog.CogModel.AddConstraint | examples/xpress_model/cog/cogmodel.py:127-131 | `add_constraint` appends the constraint and changes nothing else |
| Cog.CogModel.AddMustAssign | examples/xpress_model/cog/cogmodel.py:126-131 | the must-assign loop appends exactly the must-assign constraints, in site order |
| Cog.CogModel.AddForceOpen | examples/xpress_model/cog/cogmodel.py:133-145 | the force-open loop appends exactly the force-open constraints of the selected formulation, in site order |
| Cog.CogModel.AddForceOpenAt | examples/xpress_model/cog/cogmodel.py:135-145 | one pass of that loop appends that site's force-open constraints |
| Cog.CogModel.AddStrongForceOpen | examples/xpress_model/cog/cogmodel.py:143-145 | the strong inner loop appends one constraint per source, in order |
| Cog.BuildModel | examples/xpress_model/cog/cogmodel.py:109-150 | the built model holds exactly the must-assign, force-open and number-of-centroids constraints |
| Cog.CollectOnes | examples/xpress_model/cog/cogmodel.py:180-185 | an extraction loop collects exactly the keys whose variable is one |
| Cog.SolutionOf | examples/xpress_model/cog/cogmodel.py:177-185 | openings and assignments are exactly the model's variables at one, and nothing outside the model |
| Cog.ReadSolution | examples/xpress_model/cog/cogmodel.py:180-185 | the two extraction loops give exactly those openings and assignments |
| Cog.Solve | examples/xpress_model/cog/cogmodel.py:65-188 | stops with the unassignable sites exactly when there are some, and stops when nothing can be a center; otherwise it reports the useless sites and builds the model; it stops again when the solver fails, else returns the solution read off the values |

## Left out

- Solving. The MIP and LP solvers are not modelled, and optimality is not
  modelled. The solver's status and 0/1 values are inputs, and the fantop
  lemmas assume the values satisfy the constraints.
- The objectives: fantop's Total Yield, its `draft_yield` sum and the
  weights, and cog's distance-times-demand objective. cog's Lower Bound and
  Upper Bound, the MIP Gap parameter and `percent_error` are left out too.
  They are floating point, and no property here depends on them.
- The "almost one" tests, which allow 1e-4 in gurobipy and cog and 1e-5 in
  amplpy. Each value is abstracted as a boolean.
- Schema validation, foreign-key checks, data-type checks and data-row
  checks. Their outcome is assumed through preconditions
  (`FantopGurobi.ValidInput`, `FantopAmpl.WellFormed`, `Cog.ValidCog`),
  not modelled.
- Logging, `print`, Progress callbacks, xpress message callbacks, the
  command line and `time_stamp`. The useless-site and unassignable-site
  lists that cog logs are returned instead.
- Python set and dict iteration order. The model iterates in table order.
  This changes only the order of constraints and of summands, except for
  `picked` in the gurobipy script, which is built by iterating the set
  `can_be_drafted_by_me`. That order does not matter either, because the
  sort by expected draft position that follows has a unique result:
  `FantopGurobi.PickedUnique` shows that every rearrangement of the picks
  in ascending expected draft position equals `picked`.
- pandas frame and index mechanics beyond the modelled columns. The
  renaming of fields and the copy of the tables to AMPL are modelled only
  as the data that AMPL receives.
- FantopAmpl.PanDat.SortRows: uses the stable order among equal sort keys.
  pandas' default `sort_values` is unstable and may order ties
  differently. The ranking sort has real ties: every player drafted by me
  has key -1, and undrafted players may share an average draft position.
  Another tie order gives those players other expected draft positions,
  which changes the left sides of the draft-order constraints and which of
  my draft positions each of them receives in `my_draft`. The model does
  not cover those outcomes. `FantopAmpl.SortedByStatus` holds for any
  key-sorted table, whatever the tie order. `FantopAmpl.RankingSorted` and
  `FantopAmpl.RankedEdpFacts` are about the stable order only. The
  extraction lemmas, `FantopAmpl.ExtractUnique` among them, hold for any
  ranked table with distinct expected draft positions.
- An infinite "Min Num Reserve" in the amplpy script. The model holds that
  field as a natural number (`minReserve` of `Draft.Requirement`), so it
  cannot represent infinity. The amplpy schema sets that field's type
  twice, and the second setting admits infinity. The AMPL declaration
  `param min_number_reserve{POSITIONS} >= 0, < Infinity;` then rejects the
  data, and the script fails inside AMPL. That input and that failure are
  not part of this model.
- FantopAmpl.SelectedPlayers: takes the rows of an AMPL value table in
  players-table order. The `my_draft` result does not depend on that
  order, by `FantopAmpl.ExtractUnique`.
- FantopGurobi.Solve: an empty players table makes `max()` raise. This is
  modelled as the `NoPlayers` outcome, not as an exception.
- Cog.CentersOf: lists the slices `Slicer.slice(n, "*")` and
  `Slicer.slice("*", a)` in sites-table order. The constraints use them
  only as sums and sets.
