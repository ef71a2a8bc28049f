/** The gurobipy fantasy-draft planner: the expected-draft-position ranking,
    the constraint system handed to the solver (as a predicate over the
    solver's 0/1 values) and the extraction of the draft plan. */
module FantopGurobi {
  import opened Sorting
  import opened Bounds
  import opened Draft

  /** The input tables, as far as the model reads them. */
  datatype Input = Input(
    players: seq<Player>,
    roster: map<string, Requirement>,
    myDraftPositions: seq<int>,
    maxFlexStarters: ExtReal)

  /** A row of the `my_draft` output table, keyed by player name. */
  datatype DraftRow = DraftRow(draftPosition: int, position: string, plannedOrActual: Provenance, starterOrReserve: Role)

  /** The solution tables: `my_draft` and the "Draft Performed" parameter. */
  datatype Solution = Solution(myDraft: map<string, DraftRow>, draftPerformed: DraftPerformed)

  /** What the solver reports: optimal with the 0/1 values, or any other status. */
  datatype SolverResult = NotOptimal | Optimal(starters: map<string, bool>, reserves: map<string, bool>)

  /** How `solve` ends: the ranking assertions fail on an empty players table,
      no draft is possible, or a solution. */
  datatype Outcome = NoPlayers | NoDraft | Drafted(solution: Solution)

  /** What the schema checks asserted on entry to `solve` guarantee. */
  predicate ValidInput(dat: Input)
  {
    && DistinctNames(dat.players)
    && (forall p :: p in dat.players ==> p.averageDraftPosition > 0.0 && p.position in dat.roster)
    && (forall i, j :: 0 <= i < j < |dat.myDraftPositions| ==> dat.myDraftPositions[i] != dat.myDraftPositions[j])
    && (forall i :: 0 <= i < |dat.myDraftPositions| ==> dat.myDraftPositions[i] > 0)
    && (dat.maxFlexStarters.Finite? ==> dat.maxFlexStarters.value >= 0.0)
  }

  // ---------------------------------------------------------------------
  // Expected draft positions

  /** The first `k` players of `order` numbered 1 to k. */
  function Numbered(order: seq<Player>, k: nat): map<string, int>
    requires DistinctNames(order) && k <= |order|
  {
    map j | 0 <= j < k :: order[j].name := j + 1
  }

  lemma NumberedStep(order: seq<Player>, k: nat)
    requires DistinctNames(order) && k < |order|
    ensures order[k].name !in Numbered(order, k)
    ensures Numbered(order, k + 1) == Numbered(order, k)[order[k].name := k + 1]
  {
  }

  /** The dictionary the ranking loop fills: the k-th player of the ranking order gets k + 1. */
  function ExpectedDraftPositions(ps: seq<Player>): map<string, int>
    requires DistinctNames(ps)
  {
    RankingOrderDistinct(ps);
    Numbered(RankingOrder(ps), |ps|)
  }

  lemma ExpectedDraftPositionAt(ps: seq<Player>, k: nat)
    requires DistinctNames(ps) && k < |ps|
    ensures RankingOrder(ps)[k].name in ExpectedDraftPositions(ps)
    ensures ExpectedDraftPositions(ps)[RankingOrder(ps)[k].name] == k + 1
  {
    RankingOrderDistinct(ps);
  }

  /** The ranking loop: walk the sorted players and give each the next position. */
  method RankPlayers(ps: seq<Player>) returns (edp: map<string, int>)
    requires DistinctNames(ps)
    ensures edp == ExpectedDraftPositions(ps)
  {
    var order := RankingOrder(ps);
    RankingOrderDistinct(ps);
    edp := map[];
    for k := 0 to |order|
      invariant edp == Numbered(order, k)
      invariant |edp| == k
    {
      NumberedStep(order, k);
      edp := edp[order[k].name := |edp| + 1];
    }
  }

  /** Where player `i` lands in the ranking order, and the position it gets. */
  lemma ExpectedDraftPositionOf(ps: seq<Player>, i: nat) returns (k: nat)
    requires DistinctNames(ps) && i < |ps|
    ensures k < |ps| && SortOrder(SortKeys(ps))[k] == i
    ensures ps[i].name in ExpectedDraftPositions(ps)
    ensures ExpectedDraftPositions(ps)[ps[i].name] == k + 1
  {
    k := SortOrderCovers(SortKeys(ps), SortOrder(SortKeys(ps)), i);
    ExpectedDraftPositionAt(ps, k);
  }

  lemma ExpectedDraftPositionsKeys(ps: seq<Player>)
    requires DistinctNames(ps)
    ensures ExpectedDraftPositions(ps).Keys == set p | p in ps :: p.name
  {
    var edp := ExpectedDraftPositions(ps);
    var order := RankingOrder(ps);
    var o := SortOrder(SortKeys(ps));
    forall n | n in edp
      ensures exists p :: p in ps && p.name == n
    {
      RankingOrderDistinct(ps);
      var j :| 0 <= j < |order| && order[j].name == n;
      assert order[j] == ps[o[j]];
    }
    forall p | p in ps
      ensures p.name in edp
    {
      var i :| 0 <= i < |ps| && ps[i] == p;
      var k := ExpectedDraftPositionOf(ps, i);
    }
  }

  lemma ExpectedDraftPositionsValues(ps: seq<Player>)
    requires DistinctNames(ps)
    ensures forall v :: v in ExpectedDraftPositions(ps).Values <==> 1 <= v <= |ps|
  {
    var edp := ExpectedDraftPositions(ps);
    var order := RankingOrder(ps);
    RankingOrderDistinct(ps);
    forall v | 1 <= v <= |ps|
      ensures v in edp.Values
    {
      ExpectedDraftPositionAt(ps, v - 1);
    }
    forall v | v in edp.Values
      ensures 1 <= v <= |ps|
    {
      var n :| n in edp && edp[n] == v;
      var j :| 0 <= j < |order| && order[j].name == n;
      ExpectedDraftPositionAt(ps, j);
    }
  }

  lemma ExpectedDraftPositionsInjective(ps: seq<Player>)
    requires DistinctNames(ps)
    ensures forall i :: 0 <= i < |ps| ==> ps[i].name in ExpectedDraftPositions(ps)
    ensures forall i, j :: 0 <= i < |ps| && 0 <= j < |ps| && i != j ==>
              ExpectedDraftPositions(ps)[ps[i].name] != ExpectedDraftPositions(ps)[ps[j].name]
  {
    var edp := ExpectedDraftPositions(ps);
    forall i | 0 <= i < |ps|
      ensures ps[i].name in edp
    {
      var k := ExpectedDraftPositionOf(ps, i);
    }
    forall i, j | 0 <= i < |ps| && 0 <= j < |ps| && i != j
      ensures edp[ps[i].name] != edp[ps[j].name]
    {
      var ki := ExpectedDraftPositionOf(ps, i);
      var kj := ExpectedDraftPositionOf(ps, j);
    }
  }

  /** What the assertions after the ranking loop check: every player gets a
      position, the positions are distinct, and they are exactly 1 to the
      number of players. */
  lemma ExpectedDraftPositionsAreRanking(ps: seq<Player>)
    requires DistinctNames(ps)
    ensures ExpectedDraftPositions(ps).Keys == set p | p in ps :: p.name
    ensures forall i, j :: 0 <= i < |ps| && 0 <= j < |ps| && i != j ==>
              ExpectedDraftPositions(ps)[ps[i].name] != ExpectedDraftPositions(ps)[ps[j].name]
    ensures forall v :: v in ExpectedDraftPositions(ps).Values <==> 1 <= v <= |ps|
  {
    ExpectedDraftPositionsKeys(ps);
    ExpectedDraftPositionsInjective(ps);
    ExpectedDraftPositionsValues(ps);
  }

  /** Player `i` is ranked ahead of player `j` exactly when it precedes it in
      the stable sort by the ranking key. */
  lemma ExpectedDraftPositionOrder(ps: seq<Player>, i: nat, j: nat)
    requires DistinctNames(ps) && i < |ps| && j < |ps|
    ensures ps[i].name in ExpectedDraftPositions(ps) && ps[j].name in ExpectedDraftPositions(ps)
    ensures ExpectedDraftPositions(ps)[ps[i].name] < ExpectedDraftPositions(ps)[ps[j].name]
            <==> Precedes(SortKeys(ps), i, j)
  {
    var ki := ExpectedDraftPositionOf(ps, i);
    var kj := ExpectedDraftPositionOf(ps, j);
    OrderedPositions(SortKeys(ps), SortOrder(SortKeys(ps)), ki, kj);
  }

  /** The ranking in the system's terms: players drafted by someone else come
      first, then mine, then the undrafted ones by average draft position, and
      ties keep the order of the players table. */
  lemma RankingByStatus(ps: seq<Player>, i: nat, j: nat)
    requires DistinctNames(ps) && i < |ps| && j < |ps| && i != j
    requires ps[i].averageDraftPosition > 0.0 && ps[j].averageDraftPosition > 0.0
    ensures ps[i].name in ExpectedDraftPositions(ps) && ps[j].name in ExpectedDraftPositions(ps)
    ensures ps[i].status == DraftedBySomeoneElse && ps[j].status != DraftedBySomeoneElse ==>
              ExpectedDraftPositions(ps)[ps[i].name] < ExpectedDraftPositions(ps)[ps[j].name]
    ensures ps[i].status == DraftedByMe && ps[j].status == Undrafted ==>
              ExpectedDraftPositions(ps)[ps[i].name] < ExpectedDraftPositions(ps)[ps[j].name]
    ensures ps[i].status == Undrafted && ps[j].status == Undrafted && ps[i].averageDraftPosition < ps[j].averageDraftPosition ==>
              ExpectedDraftPositions(ps)[ps[i].name] < ExpectedDraftPositions(ps)[ps[j].name]
    ensures SortKey(ps[i]) == SortKey(ps[j]) ==>
              (ExpectedDraftPositions(ps)[ps[i].name] < ExpectedDraftPositions(ps)[ps[j].name] <==> i < j)
  {
    ExpectedDraftPositionOrder(ps, i, j);
  }

  lemma ExpectedDraftPositionsCover(ps: seq<Player>)
    requires DistinctNames(ps)
    ensures forall p :: p in ps ==> p.name in ExpectedDraftPositions(ps)
  {
    ExpectedDraftPositionsKeys(ps);
  }

  // ---------------------------------------------------------------------
  // The constraint system

  /** The constraints added to the model, over the solver's 0/1 values. */
  predicate Feasible(dat: Input, st: map<string, bool>, rs: map<string, bool>)
    requires ValidInput(dat)
  {
    var ps := dat.players;
    && Variables(ps, st, rs)
    && RoleRules(ps, st, rs)
    && SlotRules(ps, ExpectedDraftPositions(ps), st, rs, SortInts(dat.myDraftPositions))
    && MyPlayerCount(ps) + 1 <= DraftSize(ps, st, rs) <= |dat.myDraftPositions|
    && RosterRules(ps, dat.roster, st, rs)
    && AtMost(FlexStarters(ps, dat.roster, st) as real, dat.maxFlexStarters)
  }

  // ---------------------------------------------------------------------
  // Reading the draft off the solution

  /** `picked`: the picked players, ordered by expected draft position. */
  function Picked(dat: Input, st: map<string, bool>, rs: map<string, bool>): (picked: seq<Player>)
    requires ValidInput(dat)
    ensures |picked| <= |dat.players|
  {
    ExpectedDraftPositionsCover(dat.players);
    ByRank(ChosenPlayers(dat.players, st, rs), ExpectedDraftPositions(dat.players))
  }

  lemma ExpectedDraftPositionsRankPlayers(ps: seq<Player>)
    requires DistinctNames(ps)
    ensures RanksPlayers(ps, ExpectedDraftPositions(ps))
  {
    var edp := ExpectedDraftPositions(ps);
    ExpectedDraftPositionsInjective(ps);
    forall p, q | p in ps && q in ps && p.name != q.name
      ensures edp[p.name] != edp[q.name]
    {
      var i :| 0 <= i < |ps| && ps[i] == p;
      var j :| 0 <= j < |ps| && ps[j] == q;
    }
  }

  /** The picks are exactly the picked players, once each, in strictly
      ascending expected draft position. */
  lemma PickedFacts(dat: Input, st: map<string, bool>, rs: map<string, bool>)
    requires ValidInput(dat)
    ensures forall p :: p in Picked(dat, st, rs) <==> p in dat.players && IsPicked(st, rs, p)
    ensures DistinctNames(Picked(dat, st, rs))
    ensures forall p :: p in Picked(dat, st, rs) ==> p.name in ExpectedDraftPositions(dat.players)
    ensures forall a, b :: 0 <= a < b < |Picked(dat, st, rs)| ==>
              ExpectedDraftPositions(dat.players)[Picked(dat, st, rs)[a].name]
              < ExpectedDraftPositions(dat.players)[Picked(dat, st, rs)[b].name]
  {
    ExpectedDraftPositionsRankPlayers(dat.players);
    ByRankFacts(dat.players, ExpectedDraftPositions(dat.players), st, rs);
  }

  /** `picked` sorts a set, whose iteration order Python does not fix; every
      order gives the same list, because any rearrangement of the picks in
      ascending expected draft position is `Picked`. */
  lemma PickedUnique(dat: Input, st: map<string, bool>, rs: map<string, bool>, other: seq<Player>)
    requires ValidInput(dat)
    requires multiset(other) == multiset(Picked(dat, st, rs))
    requires forall p :: p in other ==> p.name in ExpectedDraftPositions(dat.players)
    requires forall a, b :: 0 <= a < b < |other| ==>
               ExpectedDraftPositions(dat.players)[other[a].name] <= ExpectedDraftPositions(dat.players)[other[b].name]
    ensures other == Picked(dat, st, rs)
  {
    var edp := ExpectedDraftPositions(dat.players);
    var key := (p: Player) => if p.name in edp then edp[p.name] else 0;
    PickedFacts(dat, st, rs);
    var picked := Picked(dat, st, rs);
    assert forall i, j :: 0 <= i < j < |picked| ==> key(picked[i]) < key(picked[j]);
    assert forall i, j :: 0 <= i < j < |other| ==> key(other[i]) <= key(other[j]);
    SortedArrangementUnique(picked, other, key);
  }

  /** `assert len(picked) <= len(dat.my_draft_positions)`. */
  lemma PickedWithinSlots(dat: Input, st: map<string, bool>, rs: map<string, bool>)
    requires ValidInput(dat) && Feasible(dat, st, rs)
    ensures |Picked(dat, st, rs)| <= |dat.myDraftPositions|
  {
    ChosenPlayersCount(dat.players, st, rs);
  }

  /** `assert draft_position <= expected_draft_position[player_name]` in the zip
      of the picks with my sorted draft positions. */
  lemma PickedSlotNotAfterExpected(dat: Input, st: map<string, bool>, rs: map<string, bool>, k: nat)
    requires ValidInput(dat) && Feasible(dat, st, rs)
    requires k < |Picked(dat, st, rs)|
    ensures k < |dat.myDraftPositions|
    ensures Picked(dat, st, rs)[k].name in ExpectedDraftPositions(dat.players)
    ensures SortInts(dat.myDraftPositions)[k] <= ExpectedDraftPositions(dat.players)[Picked(dat, st, rs)[k].name]
  {
    PickedWithinSlots(dat, st, rs);
    ExpectedDraftPositionsCover(dat.players);
    ByRankSlotNotAfterRank(dat.players, ExpectedDraftPositions(dat.players), st, rs, SortInts(dat.myDraftPositions), k);
  }

  /** The `my_draft` row of pick `p` at draft position `draftPosition`. */
  function PlanRow(st: map<string, bool>, p: Player, draftPosition: int): DraftRow
  {
    DraftRow(draftPosition, p.position,
             if p.status == DraftedByMe then Actual else Planned,
             if Chosen(st, p.name) then Starter else Reserve)
  }

  /** The rows of the first `n` pairs of the zip of the picks with the slots. */
  function ZipRows(picked: seq<Player>, slots: seq<int>, st: map<string, bool>, n: nat): map<string, DraftRow>
    requires n <= |picked| && n <= |slots|
  {
    if n == 0 then map[]
    else ZipRows(picked, slots, st, n - 1)[picked[n - 1].name := PlanRow(st, picked[n - 1], slots[n - 1])]
  }

  /** Which zip pair a row came from. */
  lemma {:induction false} ZipRowsEntry(picked: seq<Player>, slots: seq<int>, st: map<string, bool>, n: nat, name: string) returns (k: nat)
    requires n <= |picked| && n <= |slots|
    requires name in ZipRows(picked, slots, st, n)
    ensures k < n && picked[k].name == name
    ensures ZipRows(picked, slots, st, n)[name] == PlanRow(st, picked[k], slots[k])
  {
    if name == picked[n - 1].name {
      k := n - 1;
    } else {
      k := ZipRowsEntry(picked, slots, st, n - 1, name);
    }
  }

  /** Every one of the first `n` pairs has its row. */
  lemma {:induction false} ZipRowsHas(picked: seq<Player>, slots: seq<int>, st: map<string, bool>, n: nat, k: nat)
    requires DistinctNames(picked) && n <= |picked| && n <= |slots| && k < n
    ensures picked[k].name in ZipRows(picked, slots, st, n)
    ensures ZipRows(picked, slots, st, n)[picked[k].name] == PlanRow(st, picked[k], slots[k])
  {
    if k < n - 1 {
      ZipRowsHas(picked, slots, st, n - 1, k);
    }
  }

  /** A row is added for each pair: the `n` rows have `n` different names. */
  lemma {:induction false} ZipRowsSize(picked: seq<Player>, slots: seq<int>, st: map<string, bool>, n: nat)
    requires DistinctNames(picked) && n <= |picked| && n <= |slots|
    ensures |ZipRows(picked, slots, st, n)| == n
  {
    if n > 0 {
      ZipRowsSize(picked, slots, st, n - 1);
      if picked[n - 1].name in ZipRows(picked, slots, st, n - 1) {
        var k := ZipRowsEntry(picked, slots, st, n - 1, picked[n - 1].name);
      }
    }
  }

  /** How many pairs the zip of the picks with the slots has. */
  function ZipLength(dat: Input, st: map<string, bool>, rs: map<string, bool>): nat
    requires ValidInput(dat)
  {
    if |Picked(dat, st, rs)| <= |dat.myDraftPositions| then |Picked(dat, st, rs)| else |dat.myDraftPositions|
  }

  /** The `my_draft` table. */
  function PlannedDraft(dat: Input, st: map<string, bool>, rs: map<string, bool>): map<string, DraftRow>
    requires ValidInput(dat)
  {
    PickedFacts(dat, st, rs);
    ZipRows(Picked(dat, st, rs), SortInts(dat.myDraftPositions), st, ZipLength(dat, st, rs))
  }

  /** "Draft Performed": complete when every one of my slots got a row. */
  function Performed(dat: Input, st: map<string, bool>, rs: map<string, bool>): DraftPerformed
    requires ValidInput(dat)
  {
    if ZipLength(dat, st, rs) == |dat.myDraftPositions| then Complete else Partial
  }

  /** Which zip pair a `my_draft` row came from. */
  lemma PlannedDraftEntry(dat: Input, st: map<string, bool>, rs: map<string, bool>, name: string) returns (k: nat)
    requires ValidInput(dat) && name in PlannedDraft(dat, st, rs)
    ensures k < ZipLength(dat, st, rs)
    ensures Picked(dat, st, rs)[k].name == name
    ensures PlannedDraft(dat, st, rs)[name] == PlanRow(st, Picked(dat, st, rs)[k], SortInts(dat.myDraftPositions)[k])
  {
    PickedFacts(dat, st, rs);
    k := ZipRowsEntry(Picked(dat, st, rs), SortInts(dat.myDraftPositions), st, ZipLength(dat, st, rs), name);
  }

  /** Every zip pair has its row. */
  lemma PlannedDraftHas(dat: Input, st: map<string, bool>, rs: map<string, bool>, k: nat)
    requires ValidInput(dat) && k < ZipLength(dat, st, rs)
    ensures Picked(dat, st, rs)[k].name in PlannedDraft(dat, st, rs)
    ensures PlannedDraft(dat, st, rs)[Picked(dat, st, rs)[k].name] == PlanRow(st, Picked(dat, st, rs)[k], SortInts(dat.myDraftPositions)[k])
  {
    PickedFacts(dat, st, rs);
    ZipRowsHas(Picked(dat, st, rs), SortInts(dat.myDraftPositions), st, ZipLength(dat, st, rs), k);
  }

  /** `my_draft` holds exactly the picked players, including all of those already drafted by me. */
  lemma PlannedDraftPlayers(dat: Input, st: map<string, bool>, rs: map<string, bool>)
    requires ValidInput(dat) && Feasible(dat, st, rs)
    ensures forall n :: n in PlannedDraft(dat, st, rs) ==> exists p :: p in dat.players && p.name == n
    ensures forall p :: p in dat.players ==> (p.name in PlannedDraft(dat, st, rs) <==> IsPicked(st, rs, p))
    ensures forall p :: p in dat.players && p.status == DraftedByMe ==> p.name in PlannedDraft(dat, st, rs)
  {
    var draft := PlannedDraft(dat, st, rs);
    var picked := Picked(dat, st, rs);
    PickedFacts(dat, st, rs);
    PickedWithinSlots(dat, st, rs);
    forall n | n in draft
      ensures exists p :: p in dat.players && p.name == n
    {
      var k := PlannedDraftEntry(dat, st, rs, n);
      assert picked[k] in picked;
    }
    forall p | p in dat.players
      ensures p.name in draft <==> IsPicked(st, rs, p)
    {
      if p.name in draft {
        var k := PlannedDraftEntry(dat, st, rs, p.name);
        assert picked[k] in picked;
        SameName(dat.players, p, picked[k]);
      }
      if IsPicked(st, rs, p) {
        var k :| 0 <= k < |picked| && picked[k] == p;
        PlannedDraftHas(dat, st, rs, k);
      }
    }
    forall p | p in dat.players && p.status == DraftedByMe
      ensures IsPicked(st, rs, p)
    {
      MinePicked(dat.players, st, rs, p);
    }
  }

  /** Each row's columns: the player's position, "Actual" exactly for the
      players already drafted by me, and "Starter" exactly when the Starter
      variable is one. */
  lemma PlannedDraftRows(dat: Input, st: map<string, bool>, rs: map<string, bool>, p: Player)
    requires ValidInput(dat) && p in dat.players && p.name in PlannedDraft(dat, st, rs)
    ensures PlannedDraft(dat, st, rs)[p.name].position == p.position
    ensures PlannedDraft(dat, st, rs)[p.name].plannedOrActual == Actual <==> p.status == DraftedByMe
    ensures PlannedDraft(dat, st, rs)[p.name].starterOrReserve == Starter <==> Chosen(st, p.name)
  {
    PickedFacts(dat, st, rs);
    var k := PlannedDraftEntry(dat, st, rs, p.name);
    assert Picked(dat, st, rs)[k] in Picked(dat, st, rs);
    SameName(dat.players, p, Picked(dat, st, rs)[k]);
  }

  /** In a zip of picks ascending by rank with strictly ascending slots, the
      pick ranked ahead gets the earlier slot. */
  lemma ZipRowsOrder(picked: seq<Player>, slots: seq<int>, st: map<string, bool>, n: nat, edp: map<string, int>)
    requires DistinctNames(picked) && n <= |picked| && n <= |slots|
    requires forall p :: p in picked ==> p.name in edp
    requires forall a, b :: 0 <= a < b < |picked| ==> edp[picked[a].name] < edp[picked[b].name]
    requires forall a, b :: 0 <= a < b < |slots| ==> slots[a] < slots[b]
    ensures forall n1 :: n1 in ZipRows(picked, slots, st, n) ==> n1 in edp
    ensures forall n1, n2 :: n1 in ZipRows(picked, slots, st, n) && n2 in ZipRows(picked, slots, st, n) ==>
              (edp[n1] < edp[n2] <==> ZipRows(picked, slots, st, n)[n1].draftPosition < ZipRows(picked, slots, st, n)[n2].draftPosition)
  {
    var rows := ZipRows(picked, slots, st, n);
    forall n1 | n1 in rows
      ensures n1 in edp
    {
      var k := ZipRowsEntry(picked, slots, st, n, n1);
      assert picked[k] in picked;
    }
    forall n1, n2 | n1 in rows && n2 in rows
      ensures edp[n1] < edp[n2] <==> rows[n1].draftPosition < rows[n2].draftPosition
    {
      var k1 := ZipRowsEntry(picked, slots, st, n, n1);
      var k2 := ZipRowsEntry(picked, slots, st, n, n2);
    }
  }

  /** Each row's draft position is one of my draft positions and no later than
      the player's expected draft position. */
  lemma PlannedDraftSlotBound(dat: Input, st: map<string, bool>, rs: map<string, bool>, n: string)
    requires ValidInput(dat) && Feasible(dat, st, rs)
    requires n in PlannedDraft(dat, st, rs)
    ensures n in ExpectedDraftPositions(dat.players)
    ensures PlannedDraft(dat, st, rs)[n].draftPosition in dat.myDraftPositions
    ensures PlannedDraft(dat, st, rs)[n].draftPosition <= ExpectedDraftPositions(dat.players)[n]
  {
    var k := PlannedDraftEntry(dat, st, rs, n);
    PickedSlotNotAfterExpected(dat, st, rs, k);
    SortIntsFacts(dat.myDraftPositions);
  }

  /** The zip's order facts, stated on the zip itself. */
  lemma ZippedDraftOrder(dat: Input, st: map<string, bool>, rs: map<string, bool>)
    requires ValidInput(dat)
    ensures var rows := ZipRows(Picked(dat, st, rs), SortInts(dat.myDraftPositions), st, ZipLength(dat, st, rs));
            var edp := ExpectedDraftPositions(dat.players);
            && (forall n1 :: n1 in rows ==> n1 in edp)
            && (forall n1, n2 :: n1 in rows && n2 in rows ==> (edp[n1] < edp[n2] <==> rows[n1].draftPosition < rows[n2].draftPosition))
  {
    PickedOrdered(dat, st, rs);
    SlotsAscending(dat);
    ZipRowsOrder(Picked(dat, st, rs), SortInts(dat.myDraftPositions), st, ZipLength(dat, st, rs), ExpectedDraftPositions(dat.players));
  }

  lemma PickedOrdered(dat: Input, st: map<string, bool>, rs: map<string, bool>)
    requires ValidInput(dat)
    ensures DistinctNames(Picked(dat, st, rs))
    ensures forall p :: p in Picked(dat, st, rs) ==> p.name in ExpectedDraftPositions(dat.players)
    ensures forall a, b :: 0 <= a < b < |Picked(dat, st, rs)| ==>
              ExpectedDraftPositions(dat.players)[Picked(dat, st, rs)[a].name]
              < ExpectedDraftPositions(dat.players)[Picked(dat, st, rs)[b].name]
  {
    PickedFacts(dat, st, rs);
  }

  lemma SlotsAscending(dat: Input)
    requires ValidInput(dat)
    ensures forall a, b :: 0 <= a < b < |SortInts(dat.myDraftPositions)| ==>
              SortInts(dat.myDraftPositions)[a] < SortInts(dat.myDraftPositions)[b]
  {
    SortIntsFacts(dat.myDraftPositions);
  }

  /** My draft positions follow the ranking: of two rows, the player ranked
      ahead gets the earlier draft position. */
  lemma PlannedDraftSlotOrder(dat: Input, st: map<string, bool>, rs: map<string, bool>)
    requires ValidInput(dat)
    ensures forall n1, n2 :: n1 in PlannedDraft(dat, st, rs) && n2 in PlannedDraft(dat, st, rs) ==>
              && n1 in ExpectedDraftPositions(dat.players) && n2 in ExpectedDraftPositions(dat.players)
              && (ExpectedDraftPositions(dat.players)[n1] < ExpectedDraftPositions(dat.players)[n2]
                  <==> PlannedDraft(dat, st, rs)[n1].draftPosition < PlannedDraft(dat, st, rs)[n2].draftPosition)
  {
    ZippedDraftOrder(dat, st, rs);
  }

  /** The draft extends my team: some row is a planned pick of an undrafted player. */
  lemma PlannedDraftExtends(dat: Input, st: map<string, bool>, rs: map<string, bool>)
    requires ValidInput(dat) && Feasible(dat, st, rs)
    ensures exists n :: n in PlannedDraft(dat, st, rs) && PlannedDraft(dat, st, rs)[n].plannedOrActual == Planned
  {
    var p := ExistsUndraftedPick(dat.players, st, rs);
    PlannedDraftPlayers(dat, st, rs);
    PlannedDraftRows(dat, st, rs, p);
  }

  /** "Draft Performed" is "Complete" exactly when the draft size reaches my number of slots. */
  lemma PerformedMeaning(dat: Input, st: map<string, bool>, rs: map<string, bool>)
    requires ValidInput(dat) && Feasible(dat, st, rs)
    ensures Performed(dat, st, rs) == Complete <==> DraftSize(dat.players, st, rs) == |dat.myDraftPositions|
  {
    PickedWithinSlots(dat, st, rs);
    ChosenPlayersCount(dat.players, st, rs);
  }

  /** The extraction loop: zip the picks with my sorted draft positions,
      check each pair's draft position against the pick's expected draft
      position and write one `my_draft` row per pair. */
  method ZipPicks(picked: seq<Player>, slots: seq<int>, edp: map<string, int>, st: map<string, bool>)
    returns (myDraft: map<string, DraftRow>, n: nat)
    requires forall p :: p in picked ==> p.name in edp
    requires forall k :: 0 <= k < |picked| && k < |slots| ==> slots[k] <= edp[picked[k].name]
    ensures n <= |picked| && n <= |slots| && (n == |picked| || n == |slots|)
    ensures myDraft == ZipRows(picked, slots, st, n)
  {
    myDraft := map[];
    n := 0;
    while n < |picked| && n < |slots|
      invariant n <= |picked| && n <= |slots|
      invariant myDraft == ZipRows(picked, slots, st, n)
    {
      var p := picked[n];
      assert slots[n] <= edp[p.name];
      myDraft := myDraft[p.name := PlanRow(st, p, slots[n])];
      n := n + 1;
    }
  }

  /** Reading the solution: the picks, `assert len(picked) <= len(...)`, the
      zip loop and "Draft Performed". */
  method ExtractDraft(dat: Input, edp: map<string, int>, st: map<string, bool>, rs: map<string, bool>) returns (sln: Solution)
    requires ValidInput(dat) && Feasible(dat, st, rs)
    requires edp == ExpectedDraftPositions(dat.players)
    ensures sln == Solution(PlannedDraft(dat, st, rs), Performed(dat, st, rs))
  {
    var picked := Picked(dat, st, rs);
    var slots := SortInts(dat.myDraftPositions);
    PickedFacts(dat, st, rs);
    PickedWithinSlots(dat, st, rs);
    assert |picked| <= |dat.myDraftPositions|;
    forall k | 0 <= k < |picked| && k < |slots|
      ensures slots[k] <= edp[picked[k].name]
    {
      PickedSlotNotAfterExpected(dat, st, rs, k);
    }
    var myDraft, n := ZipPicks(picked, slots, edp, st);
    ZipRowsSize(picked, slots, st, n);
    var performed := if |myDraft| == |dat.myDraftPositions| then Complete else Partial;
    sln := Solution(myDraft, performed);
  }

  /** `solve`: rank the players, hand the constraints to the solver, and read
      the draft off an optimal solution. */
  method Solve(dat: Input, solver: SolverResult) returns (out: Outcome)
    requires ValidInput(dat)
    requires solver.Optimal? ==> Feasible(dat, solver.starters, solver.reserves)
    ensures out.NoPlayers? <==> dat.players == []
    ensures dat.players != [] && solver.NotOptimal? ==> out == NoDraft
    ensures dat.players != [] && solver.Optimal? ==>
              out == Drafted(Solution(PlannedDraft(dat, solver.starters, solver.reserves),
                                      Performed(dat, solver.starters, solver.reserves)))
  {
    var edp := RankPlayers(dat.players);
    if |dat.players| == 0 {
      return NoPlayers;
    }
    ExpectedDraftPositionsAreRanking(dat.players);
    match solver
    case NotOptimal =>
      out := NoDraft;
    case Optimal(st, rs) =>
      var sln := ExtractDraft(dat, edp, st, rs);
      out := Drafted(sln);
  }
}
