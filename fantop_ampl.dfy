/** The amplpy/pandas fantasy-draft planner.  `solve` ranks the players by
    mutating the players table in place (a helper sort column, a sort, a
    row-number column), hands the tables and the flex cap to AMPL, and reads
    the draft off the Starters/Reserves values: the selected rows, sorted by
    expected draft position and joined positionally with my sorted draft
    positions. */
module FantopAmpl {
  import opened Sorting
  import opened Bounds
  import opened Draft

  datatype Option<T> = None | Some(value: T)

  /** `n` consecutive integers from `start`. */
  function Range(n: nat, start: int): (r: seq<int>)
    ensures |r| == n
    ensures forall k :: 0 <= k < n ==> r[k] == start + k
  {
    seq(n, k requires 0 <= k < n => start + k)
  }

  /** The "Average Draft Position" column. */
  function AverageDraftPositions(ps: seq<Player>): (col: seq<real>)
    ensures |col| == |ps|
    ensures forall k :: 0 <= k < |ps| ==> col[k] == ps[k].averageDraftPosition
  {
    seq(|ps|, k requires 0 <= k < |ps| => ps[k].averageDraftPosition)
  }

  /** The input tables that `solve` changes in place.  A column is a sequence
      parallel to the rows of `players`; an empty one is a column the table
      does not have (yet, or any more). */
  class PanDat {
    var players: seq<Player>
    /** `_temp_sort_column` */
    var sortColumn: seq<real>
    /** `index`, the column `reset_index(drop=False)` turns the row numbers into */
    var index: seq<int>
    /** `Expected Draft Position` */
    var expectedDraftPosition: seq<int>
    var roster: map<string, Requirement>
    var myDraftPositions: seq<int>

    constructor (players: seq<Player>, roster: map<string, Requirement>, myDraftPositions: seq<int>)
      ensures this.players == players && this.roster == roster && this.myDraftPositions == myDraftPositions
      ensures sortColumn == [] && index == [] && expectedDraftPosition == []
    {
      this.players := players;
      this.roster := roster;
      this.myDraftPositions := myDraftPositions;
      sortColumn := [];
      index := [];
      expectedDraftPosition := [];
    }

    /** `players["_temp_sort_column"] = players["Average Draft Position"]`. */
    method AddSortColumn()
      modifies this`sortColumn
      ensures sortColumn == AverageDraftPositions(players)
    {
      sortColumn := AverageDraftPositions(players);
    }

    /** `players.loc[players["Draft Status"] == status, "_temp_sort_column"] = value`:
        the rows of that status get `value`, the others keep theirs. */
    method OverwriteSortColumn(status: Status, value: real)
      requires |sortColumn| == |players|
      modifies this`sortColumn
      ensures |sortColumn| == |players|
      ensures forall k :: 0 <= k < |players| ==>
                sortColumn[k] == if players[k].status == status then value else old(sortColumn)[k]
    {
      var ps, col := players, sortColumn;
      sortColumn := seq(|ps|, k requires 0 <= k < |ps| => if ps[k].status == status then value else col[k]);
    }

    /** The three assignments to `_temp_sort_column`: afterwards it holds
        each row's ranking key. */
    method WriteSortKeys()
      modifies this`sortColumn
      ensures sortColumn == SortKeys(players)
    {
      AddSortColumn();
      OverwriteSortColumn(DraftedBySomeoneElse, -2.0);
      OverwriteSortColumn(DraftedByMe, -1.0);
      assert forall k :: 0 <= k < |players| ==> sortColumn[k] == SortKey(players[k]);
    }

    /** `players.sort_values(by="_temp_sort_column", inplace=True)`: the rows,
        together with their sort column, rearranged into ascending sort-column
        order. */
    method SortRows()
      requires |sortColumn| == |players|
      modifies this`players, this`sortColumn
      ensures players == Permute(old(players), SortOrder(old(sortColumn)))
      ensures sortColumn == Permute(old(sortColumn), SortOrder(old(sortColumn)))
    {
      var o := SortOrder(sortColumn);
      players := Permute(players, o);
      sortColumn := Permute(sortColumn, o);
    }

    /** The two `reset_index` calls: the rows are renumbered 0, 1, ... and the
        numbers become the `index` column. */
    method NumberRows()
      modifies this`index
      ensures index == Range(|players|, 0)
    {
      index := Range(|players|, 0);
    }

    /** `players["Expected Draft Position"] = players["index"] + 1`. */
    method AddExpectedDraftPosition()
      requires |index| == |players|
      modifies this`expectedDraftPosition
      ensures |expectedDraftPosition| == |players|
      ensures forall k :: 0 <= k < |players| ==> expectedDraftPosition[k] == index[k] + 1
    {
      var ix := index;
      expectedDraftPosition := seq(|ix|, k requires 0 <= k < |ix| => ix[k] + 1);
    }

    /** `players.drop(["index", "_temp_sort_column"], axis=1)`. */
    method DropHelperColumns()
      modifies this`index, this`sortColumn
      ensures index == [] && sortColumn == []
    {
      index := [];
      sortColumn := [];
    }

    /** `my_draft_positions.sort_values("Draft Position", inplace=True)`. */
    method SortDraftPositions()
      modifies this`myDraftPositions
      ensures myDraftPositions == SortInts(old(myDraftPositions))
    {
      myDraftPositions := SortInts(myDraftPositions);
    }

    /** The ranking: the sort key written into a helper column, the rows
        sorted by it and numbered from 1, the helper columns dropped and my
        draft positions sorted; then the check that the expected draft
        positions read 1, 2, ..., N down the table. */
    method RankPlayers()
      modifies this`players, this`sortColumn, this`index, this`expectedDraftPosition, this`myDraftPositions
      ensures players == RankingOrder(old(players))
      ensures expectedDraftPosition == Range(|players|, 1)
      ensures myDraftPositions == SortInts(old(myDraftPositions))
      ensures sortColumn == [] && index == []
    {
      WriteSortKeys();
      SortRows();
      NumberRows();
      AddExpectedDraftPosition();
      DropHelperColumns();
      SortDraftPositions();
      assert forall k :: 0 <= k < |players| ==> expectedDraftPosition[k] == k + 1;
    }
  }

  // ---------------------------------------------------------------------
  // The ranking

  /** The sort leaves the players table in ascending ranking-key order, a
      rearrangement of the original rows. */
  lemma RankingSorted(ps: seq<Player>)
    ensures forall a, b :: 0 <= a < b < |ps| ==> SortKey(RankingOrder(ps)[a]) <= SortKey(RankingOrder(ps)[b])
    ensures IsArrangement(SortOrder(SortKeys(ps)), |ps|)
    ensures multiset(RankingOrder(ps)) == multiset(ps)
    ensures DistinctNames(ps) ==> DistinctNames(RankingOrder(ps))
  {
    var o := SortOrder(SortKeys(ps));
    assert forall a, b :: 0 <= a < b < |o| ==> Precedes(SortKeys(ps), o[a], o[b]);
    SortOrderIsArrangement(SortKeys(ps));
    SortIsPermutation(ps, SortKeys(ps));
    if DistinctNames(ps) {
      RankingOrderDistinct(ps);
    }
  }

  /** In any table sorted by the ranking key (whatever order the sort gives
      equal keys), players drafted by someone else come first, then mine,
      then the undrafted ones by ascending average draft position. */
  lemma SortedByStatus(r: seq<Player>, a: nat, b: nat)
    requires forall i, j :: 0 <= i < j < |r| ==> SortKey(r[i]) <= SortKey(r[j])
    requires forall p :: p in r ==> p.averageDraftPosition > 0.0
    requires a < |r| && b < |r|
    ensures r[a].status == DraftedBySomeoneElse && r[b].status != DraftedBySomeoneElse ==> a < b
    ensures r[a].status == DraftedByMe && r[b].status == Undrafted ==> a < b
    ensures (r[a].status == Undrafted && r[b].status == Undrafted
             && r[a].averageDraftPosition < r[b].averageDraftPosition) ==> a < b
  {
    assert r[a] in r && r[b] in r;
    if b < a {
      assert SortKey(r[b]) <= SortKey(r[a]);
    }
  }

  /** The AMPL parameter `expected_draft_position`, read off the players table. */
  function EdpParam(ps: seq<Player>, col: seq<int>): map<string, int>
    requires DistinctNames(ps) && |col| == |ps|
  {
    map k | 0 <= k < |ps| :: ps[k].name := col[k]
  }

  /** `col` is the expected-draft-position column of `ps` under `edp`. */
  predicate ColumnOf(ps: seq<Player>, col: seq<int>, edp: map<string, int>)
  {
    |col| == |ps| && forall k :: 0 <= k < |ps| ==> ps[k].name in edp && edp[ps[k].name] == col[k]
  }

  /** The parameter holds each row's value, and distinct values make it a ranking. */
  lemma EdpParamFacts(ps: seq<Player>, col: seq<int>)
    requires DistinctNames(ps) && |col| == |ps|
    ensures ColumnOf(ps, col, EdpParam(ps, col))
    ensures EdpParam(ps, col).Keys == set p | p in ps :: p.name
    ensures (forall a, b :: 0 <= a < b < |col| ==> col[a] != col[b]) ==> RanksPlayers(ps, EdpParam(ps, col))
  {
    var edp := EdpParam(ps, col);
    forall k | 0 <= k < |ps|
      ensures ps[k].name in edp && edp[ps[k].name] == col[k]
    {
    }
    forall n | n in edp
      ensures exists p :: p in ps && p.name == n
    {
      var k :| 0 <= k < |ps| && ps[k].name == n;
      assert ps[k] in ps;
    }
    if forall a, b :: 0 <= a < b < |col| ==> col[a] != col[b] {
      forall p, q | p in ps && q in ps && p.name != q.name
        ensures edp[p.name] != edp[q.name]
      {
        var i :| 0 <= i < |ps| && ps[i] == p;
        var j :| 0 <= j < |ps| && ps[j] == q;
        if i < j {
          assert col[i] != col[j];
        } else {
          assert col[j] != col[i];
        }
      }
    }
  }

  /** The rows after the ranking are the rows before it. */
  lemma RankingMembers(ps: seq<Player>)
    ensures forall p :: p in RankingOrder(ps) <==> p in ps
    ensures (set p | p in RankingOrder(ps) :: p.name) == (set p | p in ps :: p.name)
  {
    var r := RankingOrder(ps);
    RankingSorted(ps);
    forall p
      ensures p in r <==> p in ps
    {
      assert p in r <==> p in multiset(r);
      assert p in ps <==> p in multiset(ps);
    }
  }

  /** Row k carries expected draft position k + 1, so the values are 1 .. N. */
  lemma NumberedValues(ps: seq<Player>)
    requires DistinctNames(ps)
    ensures forall k :: 0 <= k < |ps| ==> EdpParam(ps, Range(|ps|, 1))[ps[k].name] == k + 1
    ensures forall v :: v in EdpParam(ps, Range(|ps|, 1)).Values <==> 1 <= v <= |ps|
  {
    var col := Range(|ps|, 1);
    var edp := EdpParam(ps, col);
    EdpParamFacts(ps, col);
    forall v
      ensures v in edp.Values <==> 1 <= v <= |ps|
    {
      if 1 <= v <= |ps| {
        assert edp[ps[v - 1].name] == v;
      }
      if v in edp.Values {
        var n :| n in edp && edp[n] == v;
        var k :| 0 <= k < |ps| && ps[k].name == n;
      }
    }
  }

  /** The check after the ranking: the expected draft positions are a
      bijection from the players onto 1 .. N, with row k holding k + 1. */
  lemma RankedEdpFacts(ps: seq<Player>)
    requires DistinctNames(ps)
    ensures DistinctNames(RankingOrder(ps))
    ensures EdpParam(RankingOrder(ps), Range(|ps|, 1)).Keys == set p | p in ps :: p.name
    ensures forall k :: 0 <= k < |ps| ==> EdpParam(RankingOrder(ps), Range(|ps|, 1))[RankingOrder(ps)[k].name] == k + 1
    ensures RanksPlayers(RankingOrder(ps), EdpParam(RankingOrder(ps), Range(|ps|, 1)))
    ensures forall v :: v in EdpParam(RankingOrder(ps), Range(|ps|, 1)).Values <==> 1 <= v <= |ps|
  {
    var r := RankingOrder(ps);
    RankingSorted(ps);
    RankingMembers(ps);
    EdpParamFacts(r, Range(|ps|, 1));
    NumberedValues(r);
  }
  // ---------------------------------------------------------------------
  // The AMPL model

  /** The data `solve` hands to AMPL: the ranked players with their
      `expected_draft_position` column, the roster requirements, the ordered
      set MY_DRAFT_POSITIONS and `max_number_of_flex_starters`. */
  datatype AmplData = AmplData(
    players: seq<Player>,
    expectedDraftPosition: seq<int>,
    roster: map<string, Requirement>,
    myDraftPositions: seq<int>,
    maxFlexStarters: real)

  /** `min(parameters["Maximum Number of Flex Starters"], len(dat.my_draft_positions))`. */
  function FlexCap(maxFlexStarters: ExtReal, positions: seq<int>): (cap: real)
    ensures cap <= |positions| as real && AtMost(cap, maxFlexStarters)
    ensures maxFlexStarters.Infinity? ==> cap == |positions| as real
  {
    Min(maxFlexStarters, |positions| as real)
  }

  /** One row per player, one expected draft position per row. */
  predicate WellFormed(data: AmplData)
  {
    DistinctNames(data.players) && |data.expectedDraftPosition| == |data.players|
  }

  /** The constraints of the AMPL model over the solver's 0/1 values:
      Already_Drafted_By_Me and Cant_Draft_Twice, At_Most_X_Can_Be_Ahead_Of_Y
      (`ord(d) - 1` is the index of `d` in the ordered set), the bounds on
      My_Draft_Size with Set_My_Draft_Size, the four roster constraints and
      Max_Number_Flex_Starters.  The variables are indexed over
      DRAFTABLE_PLAYERS. */
  predicate AmplFeasible(data: AmplData, st: map<string, bool>, rs: map<string, bool>)
    requires WellFormed(data)
  {
    var ps := data.players;
    && Variables(ps, st, rs)
    && RoleRules(ps, st, rs)
    && SlotRules(ps, EdpParam(ps, data.expectedDraftPosition), st, rs, data.myDraftPositions)
    && MyPlayerCount(ps) <= DraftSize(ps, st, rs) <= |data.myDraftPositions|
    && RosterRules(ps, data.roster, st, rs)
    && FlexStarters(ps, data.roster, st) as real <= data.maxFlexStarters
  }

  /** Clipping the flex cap to the number of my draft positions changes
      nothing: a draft within my positions meets the clipped cap exactly when
      it meets the parameter. */
  lemma FlexCapClipped(ps: seq<Player>, roster: map<string, Requirement>, st: map<string, bool>, rs: map<string, bool>,
                       maxFlexStarters: ExtReal, positions: seq<int>)
    requires DraftSize(ps, st, rs) <= |positions|
    ensures FlexStarters(ps, roster, st) as real <= FlexCap(maxFlexStarters, positions)
            <==> AtMost(FlexStarters(ps, roster, st) as real, maxFlexStarters)
  {
    FlexStartersWithinDraftSize(ps, roster, st, rs);
  }

  // ---------------------------------------------------------------------
  // Reading the draft off the solution

  /** A row of the frame `selected_players` returns. */
  datatype SelectedRow = SelectedRow(
    name: string, position: string, plannedOrActual: Provenance, starterOrReserve: Role, expectedDraftPosition: int)

  /** The row of player `p` with expected draft position `d`: "Planned" for
      an undrafted player, "Actual" otherwise. */
  function RowOf(p: Player, d: int, role: Role): SelectedRow
  {
    SelectedRow(p.name, p.position, if p.status == Undrafted then Planned else Actual, role, d)
  }

  /** `selected_players`: the draftable players whose variable is (almost)
      one, joined with their columns of the players table. */
  function SelectedPlayers(ps: seq<Player>, col: seq<int>, values: map<string, bool>, role: Role): (rows: seq<SelectedRow>)
    requires |col| == |ps|
    ensures |rows| <= |ps|
  {
    if ps == [] then []
    else (if Draftable(ps[0]) && Chosen(values, ps[0].name) then [RowOf(ps[0], col[0], role)] else [])
         + SelectedPlayers(ps[1..], col[1..], values, role)
  }

  /** The "Expected Draft Position" column of selected rows. */
  function Edps(rows: seq<SelectedRow>): (r: seq<int>)
    ensures |r| == |rows|
    ensures forall k :: 0 <= k < |rows| ==> r[k] == rows[k].expectedDraftPosition
  {
    seq(|rows|, k requires 0 <= k < |rows| => rows[k].expectedDraftPosition)
  }

  /** `starters.append(reserves).sort_values(by="Expected Draft Position")`. */
  function MyDraftOrder(starters: seq<SelectedRow>, reserves: seq<SelectedRow>): (rows: seq<SelectedRow>)
    ensures |rows| == |starters| + |reserves|
    ensures multiset(rows) == multiset(starters + reserves)
  {
    SortByRank(starters + reserves, Edps(starters + reserves))
  }

  /** A row of the `my_draft` output table. */
  datatype MyDraftRow = MyDraftRow(
    name: string, draftPosition: Option<int>, position: string, plannedOrActual: Provenance, starterOrReserve: Role)

  /** `my_draft.join(sorted_draft_positions)`: both frames are indexed 0, 1, ...,
      so row k gets the k-th draft position, and no position past the last one. */
  function JoinPositions(rows: seq<SelectedRow>, positions: seq<int>): (joined: seq<MyDraftRow>)
    ensures |joined| == |rows|
    ensures forall k :: 0 <= k < |rows| ==>
      joined[k].name == rows[k].name && joined[k].position == rows[k].position &&
      joined[k].plannedOrActual == rows[k].plannedOrActual && joined[k].starterOrReserve == rows[k].starterOrReserve
    ensures forall k :: 0 <= k < |rows| ==> (joined[k].draftPosition.Some? <==> k < |positions|)
    ensures forall k :: 0 <= k < |rows| && k < |positions| ==> joined[k].draftPosition == Some(positions[k])
  {
    seq(|rows|, k requires 0 <= k < |rows| =>
      MyDraftRow(rows[k].name, if k < |positions| then Some(positions[k]) else None,
                 rows[k].position, rows[k].plannedOrActual, rows[k].starterOrReserve))
  }

  /** The solution tables: `my_draft` and the "Draft Performed" parameter. */
  datatype Solution = Solution(myDraft: seq<MyDraftRow>, draftPerformed: DraftPerformed)

  /** `starters` and `reserves`, the two calls of `selected_players`. */
  function StarterRows(data: AmplData, st: map<string, bool>): seq<SelectedRow>
    requires |data.expectedDraftPosition| == |data.players|
  {
    SelectedPlayers(data.players, data.expectedDraftPosition, st, Starter)
  }

  function ReserveRows(data: AmplData, rs: map<string, bool>): seq<SelectedRow>
    requires |data.expectedDraftPosition| == |data.players|
  {
    SelectedPlayers(data.players, data.expectedDraftPosition, rs, Reserve)
  }

  /** Everything after the solve: the selected starters and reserves, their
      rows in expected-draft-position order, the join with the sorted draft
      positions and "Draft Performed". */
  function Extract(data: AmplData, st: map<string, bool>, rs: map<string, bool>): Solution
    requires |data.expectedDraftPosition| == |data.players|
  {
    var myDraft := JoinPositions(MyDraftOrder(StarterRows(data, st), ReserveRows(data, rs)), SortInts(data.myDraftPositions));
    Solution(myDraft, if |myDraft| == |data.myDraftPositions| then Complete else Partial)
  }

  /** Which player a selected row belongs to. */
  lemma {:induction false} SelectedEntry(ps: seq<Player>, col: seq<int>, values: map<string, bool>, role: Role, i: nat) returns (j: nat)
    requires |col| == |ps| && i < |SelectedPlayers(ps, col, values, role)|
    ensures j < |ps| && Draftable(ps[j]) && Chosen(values, ps[j].name)
    ensures SelectedPlayers(ps, col, values, role)[i] == RowOf(ps[j], col[j], role)
  {
    var head := if Draftable(ps[0]) && Chosen(values, ps[0].name) then [RowOf(ps[0], col[0], role)] else [];
    var tail := SelectedPlayers(ps[1..], col[1..], values, role);
    assert SelectedPlayers(ps, col, values, role) == head + tail;
    if i < |head| {
      j := 0;
    } else {
      var j' := SelectedEntry(ps[1..], col[1..], values, role, i - |head|);
      j := j' + 1;
    }
  }

  /** Every draftable player whose variable is one has its row. */
  lemma {:induction false} SelectedHas(ps: seq<Player>, col: seq<int>, values: map<string, bool>, role: Role, j: nat)
    requires |col| == |ps| && j < |ps| && Draftable(ps[j]) && Chosen(values, ps[j].name)
    ensures RowOf(ps[j], col[j], role) in SelectedPlayers(ps, col, values, role)
  {
    var head := if Draftable(ps[0]) && Chosen(values, ps[0].name) then [RowOf(ps[0], col[0], role)] else [];
    var tail := SelectedPlayers(ps[1..], col[1..], values, role);
    assert SelectedPlayers(ps, col, values, role) == head + tail;
    if j > 0 {
      SelectedHas(ps[1..], col[1..], values, role, j - 1);
    }
  }

  /** Selected rows of a table with distinct names have distinct names. */
  lemma {:induction false} SelectedDistinct(ps: seq<Player>, col: seq<int>, values: map<string, bool>, role: Role)
    requires |col| == |ps| && DistinctNames(ps)
    ensures forall a, b :: 0 <= a < b < |SelectedPlayers(ps, col, values, role)| ==>
              SelectedPlayers(ps, col, values, role)[a].name != SelectedPlayers(ps, col, values, role)[b].name
  {
    if ps != [] {
      var rows := SelectedPlayers(ps, col, values, role);
      var head := if Draftable(ps[0]) && Chosen(values, ps[0].name) then [RowOf(ps[0], col[0], role)] else [];
      var tail := SelectedPlayers(ps[1..], col[1..], values, role);
      assert rows == head + tail;
      SelectedDistinct(ps[1..], col[1..], values, role);
      forall k | 0 <= k < |tail|
        ensures tail[k].name != ps[0].name
      {
        var j := SelectedEntry(ps[1..], col[1..], values, role, k);
        assert ps[1..][j] == ps[j + 1];
      }
      forall a, b | 0 <= a < b < |rows|
        ensures rows[a].name != rows[b].name
      {
        if a < |head| {
          assert rows[b] == tail[b - |head|];
        } else {
          assert rows[a] == tail[a - |head|] && rows[b] == tail[b - |head|];
        }
      }
    }
  }

  /** Every selected row of a player with at most one role: one row per unit of draft size. */
  lemma {:induction false} SelectedCount(ps: seq<Player>, col: seq<int>, st: map<string, bool>, rs: map<string, bool>)
    requires |col| == |ps|
    ensures |SelectedPlayers(ps, col, st, Starter)| + |SelectedPlayers(ps, col, rs, Reserve)| == DraftSize(ps, st, rs)
  {
    if ps != [] {
      SelectedCount(ps[1..], col[1..], st, rs);
    }
  }

  lemma EdpsConcat(a: seq<SelectedRow>, b: seq<SelectedRow>)
    ensures Edps(a + b) == Edps(a) + Edps(b)
  {
    assert forall k :: 0 <= k < |a + b| ==> Edps(a + b)[k] == (Edps(a) + Edps(b))[k];
  }

  /** Counting the selected rows below `d`: the first player's row, then the rest. */
  lemma SelectedBelowUnfold(ps: seq<Player>, col: seq<int>, values: map<string, bool>, role: Role, d: int)
    requires |col| == |ps| && ps != []
    ensures CountBelow(Edps(SelectedPlayers(ps, col, values, role)), d)
            == B2I(Draftable(ps[0]) && Chosen(values, ps[0].name) && col[0] < d)
               + CountBelow(Edps(SelectedPlayers(ps[1..], col[1..], values, role)), d)
  {
    var head := if Draftable(ps[0]) && Chosen(values, ps[0].name) then [RowOf(ps[0], col[0], role)] else [];
    var tail := SelectedPlayers(ps[1..], col[1..], values, role);
    assert SelectedPlayers(ps, col, values, role) == head + tail;
    EdpsConcat(head, tail);
    CountBelowConcat(Edps(head), Edps(tail), d);
    if head != [] {
      assert Edps(head)[1..] == [];
    }
  }

  lemma ColumnOfTail(ps: seq<Player>, col: seq<int>, edp: map<string, int>)
    requires ColumnOf(ps, col, edp) && ps != []
    ensures ColumnOf(ps[1..], col[1..], edp)
  {
    forall k | 0 <= k < |ps[1..]|
      ensures ps[1..][k].name in edp && edp[ps[1..][k].name] == col[1..][k]
    {
      assert ps[1..][k] == ps[k + 1];
    }
  }

  /** The selected rows expected to go before `d` are the sum of the
      At_Most_X_Can_Be_Ahead_Of_Y constraint of `d`. */
  lemma {:induction false} SelectedAhead(ps: seq<Player>, col: seq<int>, edp: map<string, int>,
                                         st: map<string, bool>, rs: map<string, bool>, d: int)
    requires ColumnOf(ps, col, edp)
    ensures CountBelow(Edps(SelectedPlayers(ps, col, st, Starter)), d)
            + CountBelow(Edps(SelectedPlayers(ps, col, rs, Reserve)), d)
            == AheadSum(ps, edp, st, rs, d)
  {
    if ps != [] {
      SelectedBelowUnfold(ps, col, st, Starter, d);
      SelectedBelowUnfold(ps, col, rs, Reserve, d);
      ColumnOfTail(ps, col, edp);
      SelectedAhead(ps[1..], col[1..], edp, st, rs, d);
    }
  }

  /** The row of position `i` in the starters followed by the reserves. */
  lemma ConcatEntry(ps: seq<Player>, col: seq<int>, st: map<string, bool>, rs: map<string, bool>, i: nat) returns (j: nat)
    requires |col| == |ps|
    requires i < |SelectedPlayers(ps, col, st, Starter) + SelectedPlayers(ps, col, rs, Reserve)|
    ensures j < |ps| && Draftable(ps[j])
    ensures var x := (SelectedPlayers(ps, col, st, Starter) + SelectedPlayers(ps, col, rs, Reserve))[i];
            && x == RowOf(ps[j], col[j], x.starterOrReserve)
            && (x.starterOrReserve == Starter ==> Chosen(st, ps[j].name))
            && (x.starterOrReserve == Reserve ==> Chosen(rs, ps[j].name))
            && (i < |SelectedPlayers(ps, col, st, Starter)| <==> x.starterOrReserve == Starter)
  {
    var sr := SelectedPlayers(ps, col, st, Starter);
    if i < |sr| {
      j := SelectedEntry(ps, col, st, Starter, i);
    } else {
      j := SelectedEntry(ps, col, rs, Reserve, i - |sr|);
    }
  }

  /** Under the role rules, no player has both a starter and a reserve row. */
  lemma SelectedNamesDistinct(ps: seq<Player>, col: seq<int>, st: map<string, bool>, rs: map<string, bool>)
    requires |col| == |ps| && DistinctNames(ps) && RoleRules(ps, st, rs)
    ensures forall a, b :: 0 <= a < b < |SelectedPlayers(ps, col, st, Starter) + SelectedPlayers(ps, col, rs, Reserve)| ==>
              (SelectedPlayers(ps, col, st, Starter) + SelectedPlayers(ps, col, rs, Reserve))[a].name
              != (SelectedPlayers(ps, col, st, Starter) + SelectedPlayers(ps, col, rs, Reserve))[b].name
  {
    var sr := SelectedPlayers(ps, col, st, Starter);
    var rr := SelectedPlayers(ps, col, rs, Reserve);
    var xs := sr + rr;
    SelectedDistinct(ps, col, st, Starter);
    SelectedDistinct(ps, col, rs, Reserve);
    forall a, b | 0 <= a < b < |xs|
      ensures xs[a].name != xs[b].name
    {
      if b < |sr| {
        assert xs[a] == sr[a] && xs[b] == sr[b];
      } else if a >= |sr| {
        assert xs[a] == rr[a - |sr|] && xs[b] == rr[b - |sr|];
      } else {
        var ja := ConcatEntry(ps, col, st, rs, a);
        var jb := ConcatEntry(ps, col, st, rs, b);
        assert ps[ja] in ps;
      }
    }
  }

  /** Under the role rules, no two selected rows share an expected draft position. */
  lemma SelectedRanksDistinct(ps: seq<Player>, col: seq<int>, edp: map<string, int>, st: map<string, bool>, rs: map<string, bool>)
    requires DistinctNames(ps) && ColumnOf(ps, col, edp) && RanksPlayers(ps, edp) && RoleRules(ps, st, rs)
    ensures forall a, b :: 0 <= a < b < |SelectedPlayers(ps, col, st, Starter) + SelectedPlayers(ps, col, rs, Reserve)| ==>
              Edps(SelectedPlayers(ps, col, st, Starter) + SelectedPlayers(ps, col, rs, Reserve))[a]
              != Edps(SelectedPlayers(ps, col, st, Starter) + SelectedPlayers(ps, col, rs, Reserve))[b]
  {
    var xs := SelectedPlayers(ps, col, st, Starter) + SelectedPlayers(ps, col, rs, Reserve);
    SelectedNamesDistinct(ps, col, st, rs);
    forall a, b | 0 <= a < b < |xs|
      ensures Edps(xs)[a] != Edps(xs)[b]
    {
      var ja := ConcatEntry(ps, col, st, rs, a);
      var jb := ConcatEntry(ps, col, st, rs, b);
      assert ps[ja] in ps && ps[jb] in ps;
      assert xs[a].name != xs[b].name;
    }
  }

  /** The sorted rows carry the sorted expected draft positions. */
  lemma MyDraftOrderRanks(starters: seq<SelectedRow>, reserves: seq<SelectedRow>)
    ensures Edps(MyDraftOrder(starters, reserves)) == SortInts(Edps(starters + reserves))
  {
    var xs := starters + reserves;
    var r := Edps(xs);
    var o := SortOrder(IntKeys(r));
    assert MyDraftOrder(starters, reserves) == Permute(xs, o);
    assert SortInts(r) == Permute(r, o);
  }

  /** The rows of distinct expected draft positions have one ascending order
      only: whatever order the (unstable) sort gives, the result is the same. */
  lemma MyDraftOrderUnique(starters: seq<SelectedRow>, reserves: seq<SelectedRow>, other: seq<SelectedRow>)
    requires forall a, b :: 0 <= a < b < |starters + reserves| ==> Edps(starters + reserves)[a] != Edps(starters + reserves)[b]
    requires multiset(other) == multiset(starters + reserves)
    requires forall a, b :: 0 <= a < b < |other| ==> other[a].expectedDraftPosition <= other[b].expectedDraftPosition
    ensures other == MyDraftOrder(starters, reserves)
  {
    var rows := MyDraftOrder(starters, reserves);
    MyDraftOrderRanks(starters, reserves);
    SortIntsFacts(Edps(starters + reserves));
    assert forall a, b :: 0 <= a < b < |rows| ==> Edps(rows)[a] < Edps(rows)[b];
    SortedArrangementUnique(rows, other, (x: SelectedRow) => x.expectedDraftPosition);
  }

  /** The data as `solve` prepares it: distinct expected draft positions and
      strictly ascending draft positions. */
  predicate Prepared(data: AmplData)
  {
    && WellFormed(data)
    && (forall a, b :: 0 <= a < b < |data.expectedDraftPosition| ==>
          data.expectedDraftPosition[a] != data.expectedDraftPosition[b])
    && (forall a, b :: 0 <= a < b < |data.myDraftPositions| ==> data.myDraftPositions[a] < data.myDraftPositions[b])
  }

  /** The ranked tables handed to AMPL meet `Prepared`. */
  lemma RankedDataPrepared(ps: seq<Player>, roster: map<string, Requirement>, positions: seq<int>, cap: real)
    requires DistinctNames(ps)
    requires forall a, b :: 0 <= a < b < |positions| ==> positions[a] != positions[b]
    ensures Prepared(AmplData(RankingOrder(ps), Range(|ps|, 1), roster, SortInts(positions), cap))
  {
    RankingSorted(ps);
    SortIntsFacts(positions);
  }

  /** The rows in expected-draft-position order. */
  function DraftOrder(data: AmplData, st: map<string, bool>, rs: map<string, bool>): seq<SelectedRow>
    requires |data.expectedDraftPosition| == |data.players|
  {
    MyDraftOrder(StarterRows(data, st), ReserveRows(data, rs))
  }

  /** Which player the k-th `my_draft` row belongs to. */
  lemma DraftOrderEntry(data: AmplData, st: map<string, bool>, rs: map<string, bool>, k: nat) returns (j: nat)
    requires |data.expectedDraftPosition| == |data.players| && k < |DraftOrder(data, st, rs)|
    ensures j < |data.players| && Draftable(data.players[j])
    ensures var x := DraftOrder(data, st, rs)[k];
            && x == RowOf(data.players[j], data.expectedDraftPosition[j], x.starterOrReserve)
            && (x.starterOrReserve == Starter ==> Chosen(st, data.players[j].name))
            && (x.starterOrReserve == Reserve ==> Chosen(rs, data.players[j].name))
  {
    var xs := StarterRows(data, st) + ReserveRows(data, rs);
    var x := DraftOrder(data, st, rs)[k];
    assert x in multiset(DraftOrder(data, st, rs));
    assert x in multiset(xs);
    var i :| 0 <= i < |xs| && xs[i] == x;
    j := ConcatEntry(data.players, data.expectedDraftPosition, st, rs, i);
  }

  /** One row per unit of draft size, each with one of my draft positions
      (` len(my_draft) < len(sorted_draft_positions)` is the partial case). */
  lemma ExtractSize(data: AmplData, st: map<string, bool>, rs: map<string, bool>)
    requires WellFormed(data) && AmplFeasible(data, st, rs)
    ensures |Extract(data, st, rs).myDraft| == DraftSize(data.players, st, rs) <= |data.myDraftPositions|
    ensures forall k :: 0 <= k < |Extract(data, st, rs).myDraft| ==> Extract(data, st, rs).myDraft[k].draftPosition.Some?
  {
    SelectedCount(data.players, data.expectedDraftPosition, st, rs);
  }

  /** "Draft Performed" is "Complete" exactly when the draft size reaches my
      number of draft positions. */
  lemma ExtractPerformed(data: AmplData, st: map<string, bool>, rs: map<string, bool>)
    requires |data.expectedDraftPosition| == |data.players|
    ensures Extract(data, st, rs).draftPerformed == Complete <==> DraftSize(data.players, st, rs) == |data.myDraftPositions|
  {
    SelectedCount(data.players, data.expectedDraftPosition, st, rs);
  }

  /** The sorted rows meet the slot constraints: the k-th of them is expected
      no earlier than my k-th draft position. */
  lemma DraftOrderSlotNotAfterRank(data: AmplData, st: map<string, bool>, rs: map<string, bool>, k: nat)
    requires Prepared(data) && AmplFeasible(data, st, rs) && k < |DraftOrder(data, st, rs)|
    ensures k < |data.myDraftPositions|
    ensures data.myDraftPositions[k] <= DraftOrder(data, st, rs)[k].expectedDraftPosition
  {
    var ps, col, positions := data.players, data.expectedDraftPosition, data.myDraftPositions;
    var edp := EdpParam(ps, col);
    var sr, rr := StarterRows(data, st), ReserveRows(data, rs);
    var r := Edps(sr + rr);
    SelectedCount(ps, col, st, rs);
    var d := positions[k];
    EdpParamFacts(ps, col);
    MyDraftOrderRanks(sr, rr);
    SortedCountBelow(r, IntKeys(r), d);
    assert SortInts(r) == Permute(r, SortOrder(IntKeys(r)));
    EdpsConcat(sr, rr);
    CountBelowConcat(Edps(sr), Edps(rr), d);
    SelectedAhead(ps, col, edp, st, rs, d);
    ZippedSlotNotAfterRank(Edps(DraftOrder(data, st, rs)), positions, k);
  }

  /** Each `my_draft` row gets my k-th draft position, no later than the
      player's expected draft position. */
  lemma ExtractSlotNotAfterExpected(data: AmplData, st: map<string, bool>, rs: map<string, bool>, k: nat)
    requires Prepared(data) && AmplFeasible(data, st, rs) && k < |Extract(data, st, rs).myDraft|
    ensures k < |data.myDraftPositions|
    ensures Extract(data, st, rs).myDraft[k].draftPosition == Some(data.myDraftPositions[k])
    ensures Extract(data, st, rs).myDraft[k].name in EdpParam(data.players, data.expectedDraftPosition)
    ensures data.myDraftPositions[k] <= EdpParam(data.players, data.expectedDraftPosition)[Extract(data, st, rs).myDraft[k].name]
  {
    SortIntsSorted(data.myDraftPositions);
    DraftOrderSlotNotAfterRank(data, st, rs, k);
    var j := DraftOrderEntry(data, st, rs, k);
    EdpParamFacts(data.players, data.expectedDraftPosition);
  }

  /** Each `my_draft` row is a picked player's, with its position, "Planned"
      exactly for an undrafted player (so "Actual" exactly for mine) and
      "Starter" exactly when its Starter variable is one. */
  lemma ExtractRow(data: AmplData, st: map<string, bool>, rs: map<string, bool>, k: nat) returns (j: nat)
    requires WellFormed(data) && RoleRules(data.players, st, rs) && k < |Extract(data, st, rs).myDraft|
    ensures j < |data.players| && IsPicked(st, rs, data.players[j])
    ensures var row := Extract(data, st, rs).myDraft[k];
            && row.name == data.players[j].name
            && row.position == data.players[j].position
            && (row.plannedOrActual == Planned <==> data.players[j].status == Undrafted)
            && (row.plannedOrActual == Actual <==> data.players[j].status == DraftedByMe)
            && (row.starterOrReserve == Starter <==> Chosen(st, data.players[j].name))
  {
    j := DraftOrderEntry(data, st, rs, k);
    assert data.players[j] in data.players;
  }

  /** Every picked player, and so every player already drafted by me, has a `my_draft` row. */
  lemma ExtractHas(data: AmplData, st: map<string, bool>, rs: map<string, bool>, j: nat) returns (k: nat)
    requires WellFormed(data) && j < |data.players| && IsPicked(st, rs, data.players[j])
    ensures k < |Extract(data, st, rs).myDraft| && Extract(data, st, rs).myDraft[k].name == data.players[j].name
  {
    var ps, col := data.players, data.expectedDraftPosition;
    var sr, rr := StarterRows(data, st), ReserveRows(data, rs);
    var rows := DraftOrder(data, st, rs);
    var x;
    if Chosen(st, ps[j].name) {
      SelectedHas(ps, col, st, Starter, j);
      x := RowOf(ps[j], col[j], Starter);
      assert x in sr;
    } else {
      SelectedHas(ps, col, rs, Reserve, j);
      x := RowOf(ps[j], col[j], Reserve);
      assert x in rr;
    }
    assert x in multiset(sr + rr);
    assert x in multiset(rows);
    k :| 0 <= k < |rows| && rows[k] == x;
  }

  /** Down the `my_draft` table the expected draft positions strictly
      increase, so no player has two rows. */
  lemma ExtractOrder(data: AmplData, st: map<string, bool>, rs: map<string, bool>)
    requires Prepared(data) && RoleRules(data.players, st, rs)
    ensures forall k :: 0 <= k < |Extract(data, st, rs).myDraft| ==>
              Extract(data, st, rs).myDraft[k].name in EdpParam(data.players, data.expectedDraftPosition)
    ensures forall a, b :: 0 <= a < b < |Extract(data, st, rs).myDraft| ==>
              EdpParam(data.players, data.expectedDraftPosition)[Extract(data, st, rs).myDraft[a].name]
              < EdpParam(data.players, data.expectedDraftPosition)[Extract(data, st, rs).myDraft[b].name]
  {
    var ps, col := data.players, data.expectedDraftPosition;
    var edp := EdpParam(ps, col);
    var sr, rr := StarterRows(data, st), ReserveRows(data, rs);
    var rows := DraftOrder(data, st, rs);
    var myDraft := Extract(data, st, rs).myDraft;
    EdpParamFacts(ps, col);
    SelectedRanksDistinct(ps, col, edp, st, rs);
    MyDraftOrderRanks(sr, rr);
    SortIntsFacts(Edps(sr + rr));
    forall k | 0 <= k < |rows|
      ensures rows[k].name in edp && edp[rows[k].name] == rows[k].expectedDraftPosition
    {
      var j := DraftOrderEntry(data, st, rs, k);
    }
    assert forall k :: 0 <= k < |myDraft| ==> myDraft[k].name == rows[k].name;
  }

  /** pandas' default sort is not stable, but the rows have distinct expected
      draft positions: every ascending arrangement of them yields the same
      `my_draft` table. */
  lemma ExtractUnique(data: AmplData, st: map<string, bool>, rs: map<string, bool>, other: seq<SelectedRow>)
    requires Prepared(data) && RoleRules(data.players, st, rs)
    requires multiset(other) == multiset(StarterRows(data, st) + ReserveRows(data, rs))
    requires forall a, b :: 0 <= a < b < |other| ==> other[a].expectedDraftPosition <= other[b].expectedDraftPosition
    ensures JoinPositions(other, SortInts(data.myDraftPositions)) == Extract(data, st, rs).myDraft
  {
    var ps, col := data.players, data.expectedDraftPosition;
    EdpParamFacts(ps, col);
    SelectedRanksDistinct(ps, col, EdpParam(ps, col), st, rs);
    MyDraftOrderUnique(StarterRows(data, st), ReserveRows(data, rs), other);
  }

  /** What AMPL's solve_result reports: "infeasible", or anything else with
      the values of the variables. */
  datatype SolveResult = Infeasible | Finished(starters: map<string, bool>, reserves: map<string, bool>)

  /** How `solve` ends: no draft at all, or the solution tables. */
  datatype Outcome = NoDraft | Drafted(solution: Solution)

  /** `solve`: rank the players in place, pass the data and the clipped flex
      cap to AMPL, and read the draft off the result unless it is infeasible. */
  method Solve(dat: PanDat, maxFlexStarters: ExtReal, solver: SolveResult) returns (data: AmplData, out: Outcome)
    modifies dat
    ensures dat.players == RankingOrder(old(dat.players)) && dat.myDraftPositions == SortInts(old(dat.myDraftPositions))
    ensures dat.expectedDraftPosition == Range(|dat.players|, 1) && dat.sortColumn == [] && dat.index == []
    ensures dat.roster == old(dat.roster)
    ensures data == AmplData(dat.players, dat.expectedDraftPosition, dat.roster, dat.myDraftPositions,
                             FlexCap(maxFlexStarters, dat.myDraftPositions))
    ensures out == match solver
                   case Infeasible => NoDraft
                   case Finished(st, rs) => Drafted(Extract(data, st, rs))
  {
    dat.RankPlayers();
    data := AmplData(dat.players, dat.expectedDraftPosition, dat.roster, dat.myDraftPositions,
                     FlexCap(maxFlexStarters, dat.myDraftPositions));
    match solver
    case Infeasible =>
      out := NoDraft;
    case Finished(st, rs) =>
      out := Drafted(Extract(data, st, rs));
  }
}
