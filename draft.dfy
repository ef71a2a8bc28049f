/** The fantasy-draft entities and the parts of the draft-planning model that
    both planner scripts share: the ranking key, the sums over the binary
    Starter/Reserve variables that their linear constraints are made of, and
    the counting argument behind "each planned pick comes no later than the
    player's expected draft position". */
module Draft {
  import opened Sorting
  import opened Bounds

  datatype Status = Undrafted | DraftedByMe | DraftedBySomeoneElse

  datatype FlexStatus = FlexEligible | FlexIneligible

  /** A row of the `players` table. */
  datatype Player = Player(name: string, position: string, averageDraftPosition: real, status: Status)

  /** A row of the `roster_requirements` table, keyed by position.  The
      schema lets the maxima be infinite. */
  datatype Requirement = Requirement(
    minStarters: nat, maxStarters: ExtReal, minReserve: nat, maxReserve: ExtReal, flexStatus: FlexStatus)

  datatype Role = Starter | Reserve

  datatype Provenance = Planned | Actual

  datatype DraftPerformed = Complete | Partial

  /** "Player Name" is the primary key of the players table. */
  predicate DistinctNames(ps: seq<Player>)
  {
    forall i, j :: 0 <= i < j < |ps| ==> ps[i].name != ps[j].name
  }

  /** Players drafted by someone else get no decision variables. */
  predicate Draftable(p: Player)
  {
    p.status != DraftedBySomeoneElse
  }

  function DraftableNames(ps: seq<Player>): set<string>
  {
    set p | p in ps && Draftable(p) :: p.name
  }

  /** The ranking key: the average draft position of an undrafted player, and
      -2 / -1 to put those drafted by someone else / by me ahead of all others. */
  function SortKey(p: Player): real
  {
    match p.status
    case Undrafted => p.averageDraftPosition
    case DraftedByMe => -1.0
    case DraftedBySomeoneElse => -2.0
  }

  function SortKeys(ps: seq<Player>): (keys: seq<real>)
    ensures |keys| == |ps|
    ensures forall k :: 0 <= k < |ps| ==> keys[k] == SortKey(ps[k])
  {
    seq(|ps|, k requires 0 <= k < |ps| => SortKey(ps[k]))
  }

  /** The players in ranking order: ascending ranking key, ties in table order. */
  function RankingOrder(ps: seq<Player>): (order: seq<Player>)
    ensures |order| == |ps|
  {
    Permute(ps, SortOrder(SortKeys(ps)))
  }

  lemma RankingOrderDistinct(ps: seq<Player>)
    requires DistinctNames(ps)
    ensures DistinctNames(RankingOrder(ps))
  {
    var o := SortOrder(SortKeys(ps));
    forall a, b | 0 <= a < b < |ps|
      ensures RankingOrder(ps)[a].name != RankingOrder(ps)[b].name
    {
      OrderedDistinct(SortKeys(ps), o, a, b);
    }
  }

  // ---------------------------------------------------------------------
  // The solver's values: one boolean per binary variable, true when the
  // variable came back (almost) one.

  function B2I(b: bool): nat
  {
    if b then 1 else 0
  }

  /** The variable of `name` exists and is (almost) one. */
  predicate Chosen(values: map<string, bool>, name: string)
  {
    name in values && values[name]
  }

  /** `Starters[p] + Reserves[p]`. */
  function Picks(st: map<string, bool>, rs: map<string, bool>, name: string): nat
  {
    B2I(Chosen(st, name)) + B2I(Chosen(rs, name))
  }

  /** The variables exist exactly for the draftable players. */
  predicate Variables(ps: seq<Player>, st: map<string, bool>, rs: map<string, bool>)
  {
    st.Keys == DraftableNames(ps) && rs.Keys == DraftableNames(ps)
  }

  /** A player has Starter and Reserve variables exactly when it is not drafted by someone else. */
  lemma VariablesOfPlayers(ps: seq<Player>, st: map<string, bool>, rs: map<string, bool>, p: Player)
    requires DistinctNames(ps) && Variables(ps, st, rs) && p in ps
    ensures p.name in st <==> p.status != DraftedBySomeoneElse
    ensures p.name in rs <==> p.status != DraftedBySomeoneElse
  {
    if p.name in st {
      var q :| q in ps && Draftable(q) && q.name == p.name;
      SameName(ps, p, q);
    }
  }

  /** Sum of `Starters[p] + Reserves[p]` over draftable `p` whose expected draft
      position is below slot value `d`. */
  function AheadSum(ps: seq<Player>, edp: map<string, int>, st: map<string, bool>, rs: map<string, bool>, d: int): nat
  {
    if ps == [] then 0
    else (if Draftable(ps[0]) && ps[0].name in edp && edp[ps[0].name] < d then Picks(st, rs, ps[0].name) else 0)
         + AheadSum(ps[1..], edp, st, rs, d)
  }

  /** My draft size: sum of `Starters[p] + Reserves[p]` over draftable `p`. */
  function DraftSize(ps: seq<Player>, st: map<string, bool>, rs: map<string, bool>): nat
  {
    if ps == [] then 0
    else (if Draftable(ps[0]) then Picks(st, rs, ps[0].name) else 0) + DraftSize(ps[1..], st, rs)
  }

  /** Sum of `values[p]` over draftable `p` playing `position`. */
  function ChosenAt(ps: seq<Player>, values: map<string, bool>, position: string): nat
  {
    if ps == [] then 0
    else (if Draftable(ps[0]) && ps[0].position == position then B2I(Chosen(values, ps[0].name)) else 0)
         + ChosenAt(ps[1..], values, position)
  }

  /** Sum of `Starters[p]` over draftable `p` whose position is flex eligible. */
  function FlexStarters(ps: seq<Player>, roster: map<string, Requirement>, st: map<string, bool>): nat
  {
    if ps == [] then 0
    else (if Draftable(ps[0]) && ps[0].position in roster && roster[ps[0].position].flexStatus == FlexEligible
          then B2I(Chosen(st, ps[0].name)) else 0)
         + FlexStarters(ps[1..], roster, st)
  }

  /** The number of players already drafted by me. */
  function MyPlayerCount(ps: seq<Player>): nat
  {
    if ps == [] then 0 else B2I(ps[0].status == DraftedByMe) + MyPlayerCount(ps[1..])
  }

  /** Flex-eligible starters are part of the draft. */
  lemma {:induction false} FlexStartersWithinDraftSize(ps: seq<Player>, roster: map<string, Requirement>, st: map<string, bool>, rs: map<string, bool>)
    ensures FlexStarters(ps, roster, st) <= DraftSize(ps, st, rs)
  {
    if ps != [] {
      FlexStartersWithinDraftSize(ps[1..], roster, st, rs);
    }
  }

  /** A player drafted by me takes exactly one role, an undrafted one at most one. */
  predicate RoleRules(ps: seq<Player>, st: map<string, bool>, rs: map<string, bool>)
  {
    forall p :: p in ps && Draftable(p) ==>
      if p.status == DraftedByMe then Picks(st, rs, p.name) == 1 else Picks(st, rs, p.name) <= 1
  }

  /** For my i-th slot (0-based, in the order given), at most i selected players
      are expected to go before it. */
  predicate SlotRules(ps: seq<Player>, edp: map<string, int>, st: map<string, bool>, rs: map<string, bool>, slots: seq<int>)
  {
    forall i :: 0 <= i < |slots| ==> AheadSum(ps, edp, st, rs, slots[i]) <= i
  }

  /** Per position, selected starters and selected reserves within the requirement. */
  predicate RosterRules(ps: seq<Player>, roster: map<string, Requirement>, st: map<string, bool>, rs: map<string, bool>)
  {
    forall position :: position in roster ==>
      && roster[position].minStarters <= ChosenAt(ps, st, position)
      && AtMost(ChosenAt(ps, st, position) as real, roster[position].maxStarters)
      && roster[position].minReserve <= ChosenAt(ps, rs, position)
      && AtMost(ChosenAt(ps, rs, position) as real, roster[position].maxReserve)
  }

  // ---------------------------------------------------------------------
  // Reading the plan off the solution.

  /** A draftable player whose Starter or Reserve variable is one. */
  predicate IsPicked(st: map<string, bool>, rs: map<string, bool>, p: Player)
  {
    Draftable(p) && (Chosen(st, p.name) || Chosen(rs, p.name))
  }

  /** The picked players, in table order. */
  function ChosenPlayers(ps: seq<Player>, st: map<string, bool>, rs: map<string, bool>): (c: seq<Player>)
    ensures forall p :: p in c <==> p in ps && IsPicked(st, rs, p)
    ensures |c| <= |ps|
  {
    if ps == [] then []
    else (if IsPicked(st, rs, ps[0]) then [ps[0]] else []) + ChosenPlayers(ps[1..], st, rs)
  }

  lemma {:induction false} ChosenPlayersDistinct(ps: seq<Player>, st: map<string, bool>, rs: map<string, bool>)
    requires DistinctNames(ps)
    ensures DistinctNames(ChosenPlayers(ps, st, rs))
  {
    if ps != [] {
      var tail := ChosenPlayers(ps[1..], st, rs);
      ChosenPlayersDistinct(ps[1..], st, rs);
      forall q | q in tail
        ensures q.name != ps[0].name
      {
        var j :| 0 <= j < |ps[1..]| && ps[1..][j] == q;
        assert ps[j + 1] == q;
      }
    }
  }

  /** With at most one role per player, there is one picked player per unit of draft size. */
  lemma {:induction false} ChosenPlayersCount(ps: seq<Player>, st: map<string, bool>, rs: map<string, bool>)
    requires RoleRules(ps, st, rs)
    ensures |ChosenPlayers(ps, st, rs)| == DraftSize(ps, st, rs)
  {
    if ps != [] {
      assert ps[0] in ps;
      ChosenPlayersCount(ps[1..], st, rs);
    }
  }

  /** Within a table with distinct names a name identifies the player. */
  lemma SameName(ps: seq<Player>, p: Player, q: Player)
    requires DistinctNames(ps) && p in ps && q in ps && p.name == q.name
    ensures p == q
  {
  }

  /** A player drafted by me is always picked. */
  lemma MinePicked(ps: seq<Player>, st: map<string, bool>, rs: map<string, bool>, p: Player)
    requires RoleRules(ps, st, rs) && p in ps && p.status == DraftedByMe
    ensures IsPicked(st, rs, p)
  {
    assert Picks(st, rs, p.name) == 1;
  }

  /** A draft larger than the players I already have contains an undrafted pick. */
  lemma {:induction false} ExistsUndraftedPick(ps: seq<Player>, st: map<string, bool>, rs: map<string, bool>) returns (p: Player)
    requires RoleRules(ps, st, rs) && DraftSize(ps, st, rs) > MyPlayerCount(ps)
    ensures p in ps && p.status == Undrafted && IsPicked(st, rs, p)
  {
    assert ps[0] in ps;
    if ps[0].status == Undrafted && IsPicked(st, rs, ps[0]) {
      p := ps[0];
    } else {
      assert RoleRules(ps[1..], st, rs) by {
        forall q | q in ps[1..] ensures q in ps { }
      }
      p := ExistsUndraftedPick(ps[1..], st, rs);
    }
  }

  /** The expected draft position of each player in `c`. */
  function RanksOf(c: seq<Player>, edp: map<string, int>): (r: seq<int>)
    requires forall p :: p in c ==> p.name in edp
    ensures |r| == |c|
    ensures forall k :: 0 <= k < |c| ==> r[k] == edp[c[k].name]
  {
    seq(|c|, k requires 0 <= k < |c| => edp[c[k].name])
  }

  /** The picked players ordered by expected draft position. */
  function ByRank(c: seq<Player>, edp: map<string, int>): (picked: seq<Player>)
    requires forall p :: p in c ==> p.name in edp
    ensures |picked| == |c|
    ensures multiset(picked) == multiset(c)
  {
    SortByRank(c, RanksOf(c, edp))
  }

  lemma ByRankAscending(c: seq<Player>, edp: map<string, int>)
    requires forall p :: p in c ==> p.name in edp
    ensures forall a, b :: 0 <= a < b < |c| ==> edp[ByRank(c, edp)[a].name] <= edp[ByRank(c, edp)[b].name]
    ensures DistinctNames(c) ==> DistinctNames(ByRank(c, edp))
  {
    var keys := IntKeys(RanksOf(c, edp));
    var o := SortOrder(keys);
    assert forall a, b :: 0 <= a < b < |o| ==> Precedes(keys, o[a], o[b]);
    if DistinctNames(c) {
      forall a, b | 0 <= a < b < |c|
        ensures ByRank(c, edp)[a].name != ByRank(c, edp)[b].name
      {
        OrderedDistinct(keys, o, a, b);
      }
    }
  }

  /** The ranks of the ordered picks are the sorted ranks of the picks. */
  lemma ByRankRanks(c: seq<Player>, edp: map<string, int>)
    requires forall p :: p in c ==> p.name in edp
    ensures forall p :: p in ByRank(c, edp) ==> p.name in edp
    ensures RanksOf(ByRank(c, edp), edp) == Permute(RanksOf(c, edp), SortOrder(IntKeys(RanksOf(c, edp))))
  {
    var picked := ByRank(c, edp);
    forall p | p in picked
      ensures p.name in edp
    {
      assert p in multiset(picked);
    }
  }

  /** `edp` ranks the players: every player has a position, and different players different ones. */
  predicate RanksPlayers(ps: seq<Player>, edp: map<string, int>)
  {
    && (forall p :: p in ps ==> p.name in edp)
    && (forall p, q :: p in ps && q in ps && p.name != q.name ==> edp[p.name] != edp[q.name])
  }

  /** The ordered picks are exactly the picked players, once each, in strictly
      ascending rank. */
  lemma ByRankFacts(ps: seq<Player>, edp: map<string, int>, st: map<string, bool>, rs: map<string, bool>)
    requires DistinctNames(ps) && RanksPlayers(ps, edp)
    ensures forall p :: p in ByRank(ChosenPlayers(ps, st, rs), edp) <==> p in ps && IsPicked(st, rs, p)
    ensures DistinctNames(ByRank(ChosenPlayers(ps, st, rs), edp))
    ensures forall a, b :: 0 <= a < b < |ChosenPlayers(ps, st, rs)| ==>
              edp[ByRank(ChosenPlayers(ps, st, rs), edp)[a].name] < edp[ByRank(ChosenPlayers(ps, st, rs), edp)[b].name]
  {
    var c := ChosenPlayers(ps, st, rs);
    var picked := ByRank(c, edp);
    ChosenPlayersDistinct(ps, st, rs);
    ByRankAscending(c, edp);
    forall p
      ensures p in picked <==> p in c
    {
      assert p in picked <==> p in multiset(picked);
      assert p in c <==> p in multiset(c);
    }
    forall a, b | 0 <= a < b < |picked|
      ensures edp[picked[a].name] < edp[picked[b].name]
    {
      assert picked[a] in c && picked[b] in c;
    }
  }

  /** Zipping the ordered picks with ascending slots that satisfy the slot
      constraints: the k-th slot is no later than the k-th pick's rank. */
  lemma ByRankSlotNotAfterRank(ps: seq<Player>, edp: map<string, int>, st: map<string, bool>, rs: map<string, bool>, slots: seq<int>, k: nat)
    requires forall p :: p in ps ==> p.name in edp
    requires SlotRules(ps, edp, st, rs, slots)
    requires forall a, b :: 0 <= a < b < |slots| ==> slots[a] <= slots[b]
    requires k < |ChosenPlayers(ps, st, rs)| && k < |slots|
    ensures ByRank(ChosenPlayers(ps, st, rs), edp)[k].name in edp
    ensures slots[k] <= edp[ByRank(ChosenPlayers(ps, st, rs), edp)[k].name]
  {
    var c := ChosenPlayers(ps, st, rs);
    var r := RanksOf(c, edp);
    var picked := ByRank(c, edp);
    ByRankRanks(c, edp);
    ByRankAscending(c, edp);
    var pr := RanksOf(picked, edp);
    SortedCountBelow(r, IntKeys(r), slots[k]);
    ChosenAhead(ps, edp, st, rs, slots[k]);
    ZippedSlotNotAfterRank(pr, slots, k);
  }

  // ---------------------------------------------------------------------
  // The counting argument behind the zip of picks with slots.

  /** How many of `ranks` are below `d`. */
  function CountBelow(ranks: seq<int>, d: int): nat
  {
    if ranks == [] then 0 else B2I(ranks[0] < d) + CountBelow(ranks[1..], d)
  }

  lemma {:induction false} CountBelowConcat(a: seq<int>, b: seq<int>, d: int)
    ensures CountBelow(a + b, d) == CountBelow(a, d) + CountBelow(b, d)
  {
    if a == [] {
      assert a + b == b;
    } else {
      assert (a + b)[1..] == a[1..] + b;
      CountBelowConcat(a[1..], b, d);
    }
  }

  /** The picks expected to go before `d` are at most the slot sum of the constraint. */
  lemma {:induction false} ChosenAhead(ps: seq<Player>, edp: map<string, int>, st: map<string, bool>, rs: map<string, bool>, d: int)
    requires forall p :: p in ps ==> p.name in edp
    ensures CountBelow(RanksOf(ChosenPlayers(ps, st, rs), edp), d) <= AheadSum(ps, edp, st, rs, d)
  {
    if ps != [] {
      ChosenAhead(ps[1..], edp, st, rs, d);
      var head := if IsPicked(st, rs, ps[0]) then [edp[ps[0].name]] else [];
      var r := RanksOf(ChosenPlayers(ps[1..], st, rs), edp);
      RanksOfChosenStep(ps, edp, st, rs);
      CountBelowConcat(head, r, d);
      if head != [] {
        assert head[1..] == [];
      }
    }
  }

  /** The ranks of the picks, one player at a time. */
  lemma RanksOfChosenStep(ps: seq<Player>, edp: map<string, int>, st: map<string, bool>, rs: map<string, bool>)
    requires ps != [] && forall p :: p in ps ==> p.name in edp
    ensures RanksOf(ChosenPlayers(ps, st, rs), edp)
            == (if IsPicked(st, rs, ps[0]) then [edp[ps[0].name]] else []) + RanksOf(ChosenPlayers(ps[1..], st, rs), edp)
  {
    assert ps[0] in ps;
    var tail := ChosenPlayers(ps[1..], st, rs);
    var head := if IsPicked(st, rs, ps[0]) then [ps[0]] else [];
    assert forall p :: p in tail ==> p.name in edp by {
      forall p | p in tail ensures p.name in edp {
        assert p in ps[1..];
      }
    }
    assert ChosenPlayers(ps, st, rs) == head + tail;
    RanksOfConcat(head, tail, edp);
    assert RanksOf(head, edp) == (if IsPicked(st, rs, ps[0]) then [edp[ps[0].name]] else []);
  }

  lemma RanksOfConcat(a: seq<Player>, b: seq<Player>, edp: map<string, int>)
    requires forall p :: p in a ==> p.name in edp
    requires forall p :: p in b ==> p.name in edp
    ensures forall p :: p in a + b ==> p.name in edp
    ensures RanksOf(a + b, edp) == RanksOf(a, edp) + RanksOf(b, edp)
  {
    var l := RanksOf(a + b, edp);
    var r := RanksOf(a, edp) + RanksOf(b, edp);
    forall k | 0 <= k < |l|
      ensures l[k] == r[k]
    {
      if k < |a| {
        assert (a + b)[k] == a[k];
      } else {
        assert (a + b)[k] == b[k - |a|];
      }
    }
  }

  /** The indicator of "below `d`", as a summand. */
  function BelowIndicator(d: int): int -> real
  {
    x => if x < d then 1.0 else 0.0
  }

  lemma {:induction false} CountBelowIsSum(ranks: seq<int>, d: int)
    ensures CountBelow(ranks, d) as real == SumOf(ranks, BelowIndicator(d))
  {
    if ranks != [] {
      CountBelowIsSum(ranks[1..], d);
    }
  }

  /** Sorting does not change how many ranks lie below a value. */
  lemma SortedCountBelow(ranks: seq<int>, keys: seq<real>, d: int)
    requires |keys| == |ranks|
    ensures CountBelow(Permute(ranks, SortOrder(keys)), d) == CountBelow(ranks, d)
  {
    CountBelowIsSum(ranks, d);
    CountBelowIsSum(Permute(ranks, SortOrder(keys)), d);
    SortedSum(ranks, keys, BelowIndicator(d));
  }

  lemma {:induction false} CountBelowAtLeast(ranks: seq<int>, n: nat, d: int)
    requires n <= |ranks|
    requires forall a :: 0 <= a < n ==> ranks[a] < d
    ensures CountBelow(ranks, d) >= n
  {
    if n > 0 {
      CountBelowAtLeast(ranks[1..], n - 1, d);
    }
  }

  /** Zipping ascending ranks with slots: if at most k ranks lie below the k-th
      slot, then that slot is no later than the k-th rank. */
  lemma ZippedSlotNotAfterRank(ranks: seq<int>, slots: seq<int>, k: nat)
    requires forall a, b :: 0 <= a < b < |ranks| ==> ranks[a] <= ranks[b]
    requires k < |ranks| && k < |slots|
    requires CountBelow(ranks, slots[k]) <= k
    ensures slots[k] <= ranks[k]
  {
    if ranks[k] < slots[k] {
      CountBelowAtLeast(ranks, k + 1, slots[k]);
    }
  }
}
