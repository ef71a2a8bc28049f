/** The center-of-gravity model's pre-diagnosis and model shape: which
    sites can be assigned where, the early exits before and after the
    variables are created, the constraints added for each formulation, and
    the openings and assignments read off the MIP solution. */
module Cog {
  import opened Bounds

  datatype CenterStatus = CanBeCenter | PureDemandPoint

  /** A row of the `sites` table. */
  datatype Site = Site(demand: real, centerStatus: CenterStatus)

  datatype Formulation = Weak | Strong

  /** The input: the `sites` table with its keys in table order, the
      `distance` table keyed by (Source, Destination), and the "Number of
      Centroids" and "Formulation" parameters. */
  datatype CogInput = CogInput(
    names: seq<string>,
    sites: map<string, Site>,
    distance: map<(string, string), real>,
    numberOfCentroids: int,
    formulation: Formulation)

  /** What the schema checks asserted on entry to `solve` guarantee. */
  ghost predicate ValidCog(dat: CogInput)
  {
    && (forall i, j :: 0 <= i < j < |dat.names| ==> dat.names[i] != dat.names[j])
    && (forall n :: n in dat.names <==> n in dat.sites)
    && (forall n :: n in dat.sites ==> dat.sites[n].demand >= 0.0)
    && (forall x, y :: (x, y) in dat.distance ==> x in dat.sites && y in dat.sites && dat.distance[(x, y)] >= 0.0)
    && dat.numberOfCentroids > 0
  }

  /** The elements of `s` that satisfy `p`, in order. */
  function Filter<T(!new)>(s: seq<T>, p: T -> bool): (r: seq<T>)
    ensures forall x :: x in r <==> x in s && p(x)
    ensures |r| <= |s|
  {
    if s == [] then [] else (if p(s[0]) then [s[0]] else []) + Filter(s[1..], p)
  }

  lemma {:induction false} FilterDistinct<T(!new)>(s: seq<T>, p: T -> bool)
    requires forall i, j :: 0 <= i < j < |s| ==> s[i] != s[j]
    ensures forall i, j :: 0 <= i < j < |Filter(s, p)| ==> Filter(s, p)[i] != Filter(s, p)[j]
  {
    if s != [] {
      var head := if p(s[0]) then [s[0]] else [];
      var tail := Filter(s[1..], p);
      assert Filter(s, p) == head + tail;
      FilterDistinct(s[1..], p);
      assert s[0] !in s[1..];
      assert s[0] !in tail;
    }
  }

  // ---------------------------------------------------------------------
  // Distances and assignability

  /** `get_distance`: the stored distance in either direction, the (x, y)
      entry first, and infinity when neither is stored. */
  function GetDistance(distance: map<(string, string), real>, x: string, y: string): (d: ExtReal)
    ensures d.Finite? <==> (x, y) in distance || (y, x) in distance
    ensures (x, y) in distance ==> d == Finite(distance[(x, y)])
    ensures (x, y) !in distance && (y, x) in distance ==> d == Finite(distance[(y, x)])
  {
    if (x, y) in distance then Finite(distance[(x, y)])
    else if (y, x) in distance then Finite(distance[(y, x)])
    else Infinity
  }

  /** The lookup is symmetric wherever the table does not store two
      different distances for the same two sites. */
  lemma GetDistanceSymmetric(distance: map<(string, string), real>, x: string, y: string)
    requires (x, y) in distance && (y, x) in distance ==> distance[(x, y)] == distance[(y, x)]
    ensures GetDistance(distance, x, y) == GetDistance(distance, y, x)
  {
  }

  /** `can_assign(x, y)`: `y` can be a center and some distance between the two is stored. */
  predicate CanAssign(dat: CogInput, x: string, y: string)
    ensures CanAssign(dat, x, y) <==>
              y in dat.sites && dat.sites[y].centerStatus == CanBeCenter
              && ((x, y) in dat.distance || (y, x) in dat.distance)
  {
    y in dat.sites && dat.sites[y].centerStatus == CanBeCenter && GetDistance(dat.distance, x, y).Finite?
  }

  /** Some site can take the demand of `n`. */
  predicate HasCenter(dat: CogInput, n: string)
  {
    exists y :: y in dat.names && CanAssign(dat, n, y)
  }

  /** `n` can take the demand of some site. */
  predicate ServesSome(dat: CogInput, n: string)
  {
    exists y :: y in dat.names && CanAssign(dat, y, n)
  }

  /** `unassignables`: the sites with demand that no site can take, in table order. */
  function Unassignables(dat: CogInput): (r: seq<string>)
    ensures forall n :: n in r <==> n in dat.sites && n in dat.names && dat.sites[n].demand > 0.0 && !HasCenter(dat, n)
  {
    Filter(dat.names, n => n in dat.sites && dat.sites[n].demand > 0.0 && !HasCenter(dat, n))
  }

  /** `useless`: the sites without demand that can take no site's demand, in table order. */
  function Useless(dat: CogInput): (r: seq<string>)
    ensures forall n :: n in r <==> n in dat.sites && n in dat.names && dat.sites[n].demand == 0.0 && !ServesSome(dat, n)
  {
    Filter(dat.names, n => n in dat.sites && dat.sites[n].demand == 0.0 && !ServesSome(dat, n))
  }

  /** The keys of `assign_vars`. */
  function AssignKeys(dat: CogInput): (keys: set<(string, string)>)
    ensures forall n, a :: (n, a) in keys <==> n in dat.names && a in dat.names && CanAssign(dat, n, a)
  {
    set n, a | n in dat.names && a in dat.names && CanAssign(dat, n, a) :: (n, a)
  }

  /** The keys of `open_vars`. */
  function OpenKeys(dat: CogInput): set<string>
  {
    set n | n in dat.names && n in dat.sites && dat.sites[n].centerStatus == CanBeCenter
  }

  /** The sites that can be centers, in table order. */
  function OpenSites(dat: CogInput): (r: seq<string>)
    ensures forall n :: n in r <==> n in OpenKeys(dat)
  {
    Filter(dat.names, n => n in dat.sites && dat.sites[n].centerStatus == CanBeCenter)
  }

  /** `assign_slicer.slice(n, "*")`: the centers `n` can be assigned to. */
  function CentersOf(dat: CogInput, n: string): (cs: seq<string>)
    ensures forall a :: a in cs <==> a in dat.names && CanAssign(dat, n, a)
  {
    Filter(dat.names, a => CanAssign(dat, n, a))
  }

  /** `assign_slicer.slice("*", a)`: the sites that can be assigned to `a`. */
  function SourcesOf(dat: CogInput, a: string): (ss: seq<string>)
    ensures forall n :: n in ss <==> n in dat.names && CanAssign(dat, n, a)
  {
    Filter(dat.names, n => CanAssign(dat, n, a))
  }

  lemma CentersSourcesDistinct(dat: CogInput, x: string)
    requires ValidCog(dat)
    ensures forall i, j :: 0 <= i < j < |CentersOf(dat, x)| ==> CentersOf(dat, x)[i] != CentersOf(dat, x)[j]
    ensures forall i, j :: 0 <= i < j < |SourcesOf(dat, x)| ==> SourcesOf(dat, x)[i] != SourcesOf(dat, x)[j]
  {
    FilterDistinct(dat.names, a => CanAssign(dat, x, a));
    FilterDistinct(dat.names, n => CanAssign(dat, n, x));
  }

  /** The pairs of `assign_vars` with source in `ns`, in the order the dict
      comprehension creates them. */
  function AssignPairs(dat: CogInput, ns: seq<string>): (r: seq<(string, string)>)
    ensures forall p :: p in r <==> p.0 in ns && p.1 in dat.names && CanAssign(dat, p.0, p.1)
  {
    if ns == [] then [] else WithSource(ns[0], CentersOf(dat, ns[0])) + AssignPairs(dat, ns[1..])
  }

  /** The pairs (n, c) for the centers `cs` of one source `n`, in order. */
  function WithSource(n: string, cs: seq<string>): (r: seq<(string, string)>)
    ensures forall p :: p in r <==> p.0 == n && p.1 in cs
  {
    if cs == [] then [] else [(n, cs[0])] + WithSource(n, cs[1..])
  }

  /** Without a positive-demand site that nothing can take, every such site
      has a center to be assigned to. */
  lemma NoUnassignablesMeansCenters(dat: CogInput, n: string)
    requires ValidCog(dat) && Unassignables(dat) == []
    requires n in dat.sites && dat.sites[n].demand > 0.0
    ensures CentersOf(dat, n) != []
  {
    assert n !in Unassignables(dat);
    var y :| y in dat.names && CanAssign(dat, n, y);
    assert y in CentersOf(dat, n);
  }

  /** When nothing can be a center there are no assignment variables either,
      and so, past the first exit, no site has demand. */
  lemma NoCentersMeansNoDemand(dat: CogInput)
    requires ValidCog(dat) && Unassignables(dat) == [] && OpenKeys(dat) == {}
    ensures AssignKeys(dat) == {}
    ensures forall n :: n in dat.sites ==> dat.sites[n].demand == 0.0
  {
    forall p | p in AssignKeys(dat)
      ensures p.1 in OpenKeys(dat)
    {
    }
    forall n | n in dat.sites
      ensures dat.sites[n].demand > 0.0 ==> HasCenter(dat, n)
    {
      assert n !in Unassignables(dat);
    }
    forall n, y | y in dat.names && CanAssign(dat, n, y)
      ensures y in OpenKeys(dat)
    {
    }
  }

  // ---------------------------------------------------------------------
  // The constraints

  /** A constraint of the MIP; assignment variables are named by their
      (site, center) key and opening variables by their site. */
  datatype Constraint =
    | MustAssign(site: string, centers: seq<string>)        // sum of assign(site, c) for c in centers == 1
    | WeakForceOpen(center: string, sources: seq<string>)   // sum of assign(n, center) <= |sources| * open(center)
    | StrongForceOpen(center: string, source: string)       // assign(source, center) <= open(center)
    | NumCentroids(sites: seq<string>, count: int)          // sum of open(n) for n in sites == count

  /** The must-assign constraints for the sites `ns`, in the order the loop adds them. */
  function MustAssigns(dat: CogInput, ns: seq<string>): seq<Constraint>
    requires forall n :: n in ns ==> n in dat.sites
  {
    if ns == [] then []
    else
      var n := ns[|ns| - 1];
      MustAssigns(dat, ns[..|ns| - 1])
        + (if dat.sites[n].demand > 0.0 then [MustAssign(n, CentersOf(dat, n))] else [])
  }

  /** One strong force-open constraint per source in `ss`. */
  function StrongLinks(a: string, ss: seq<string>): seq<Constraint>
  {
    if ss == [] then [] else [StrongForceOpen(a, ss[0])] + StrongLinks(a, ss[1..])
  }

  /** The force-open constraints for one site `a`. */
  function LinksFor(dat: CogInput, f: Formulation, a: string): seq<Constraint>
    requires a in dat.sites
  {
    if dat.sites[a].centerStatus != CanBeCenter then []
    else if f == Weak then [WeakForceOpen(a, SourcesOf(dat, a))]
    else StrongLinks(a, SourcesOf(dat, a))
  }

  /** The force-open constraints for the sites `ns`, in the order the loop adds them. */
  function Links(dat: CogInput, f: Formulation, ns: seq<string>): seq<Constraint>
    requires forall n :: n in ns ==> n in dat.sites
  {
    if ns == [] then [] else Links(dat, f, ns[..|ns| - 1]) + LinksFor(dat, f, ns[|ns| - 1])
  }

  /** The whole constraint list of the model under formulation `f`. */
  function ModelFor(dat: CogInput, f: Formulation): seq<Constraint>
    requires ValidCog(dat)
  {
    MustAssigns(dat, dat.names) + Links(dat, f, dat.names) + [NumCentroids(OpenSites(dat), dat.numberOfCentroids)]
  }

  /** The model under the formulation the parameters select. */
  function ModelConstraints(dat: CogInput): seq<Constraint>
    requires ValidCog(dat)
  {
    ModelFor(dat, dat.formulation)
  }

  lemma {:induction false} MustAssignsShape(dat: CogInput, ns: seq<string>)
    requires forall n :: n in ns ==> n in dat.sites
    requires forall i, j :: 0 <= i < j < |ns| ==> ns[i] != ns[j]
    ensures forall c :: c in MustAssigns(dat, ns) ==>
              c.MustAssign? && c.site in ns && dat.sites[c.site].demand > 0.0 && c.centers == CentersOf(dat, c.site)
    ensures forall n :: n in ns && dat.sites[n].demand > 0.0 ==>
              multiset(MustAssigns(dat, ns))[MustAssign(n, CentersOf(dat, n))] == 1
  {
    if ns != [] {
      var init, last := ns[..|ns| - 1], ns[|ns| - 1];
      MustAssignsShape(dat, init);
      InitLast(ns);
      assert last !in init;
    }
  }

  lemma {:induction false} StrongLinksShape(a: string, ss: seq<string>)
    requires forall i, j :: 0 <= i < j < |ss| ==> ss[i] != ss[j]
    ensures forall c :: c in StrongLinks(a, ss) <==> c.StrongForceOpen? && c.center == a && c.source in ss
    ensures forall n :: n in ss ==> multiset(StrongLinks(a, ss))[StrongForceOpen(a, n)] == 1
  {
    if ss != [] {
      StrongLinksShape(a, ss[1..]);
      assert ss[0] !in ss[1..];
      assert StrongForceOpen(a, ss[0]) !in StrongLinks(a, ss[1..]);
      forall n | n in ss
        ensures n == ss[0] || n in ss[1..]
      {
        var k :| 0 <= k < |ss| && ss[k] == n;
        if k > 0 { assert ss[1..][k - 1] == n; }
      }
    }
  }

  /** What a force-open constraint is under formulation `f`. */
  predicate LinkShape(dat: CogInput, f: Formulation, c: Constraint)
  {
    || (f == Weak && c.WeakForceOpen? && c.center in OpenKeys(dat) && c.sources == SourcesOf(dat, c.center))
    || (f == Strong && c.StrongForceOpen? && (c.source, c.center) in AssignKeys(dat))
  }

  /** Splitting a sequence into its front and its last element. */
  lemma InitLast<T>(ns: seq<T>)
    requires ns != []
    ensures forall n :: n in ns <==> n in ns[..|ns| - 1] || n == ns[|ns| - 1]
  {
    forall n | n in ns
      ensures n in ns[..|ns| - 1] || n == ns[|ns| - 1]
    {
      var k :| 0 <= k < |ns| && ns[k] == n;
      if k < |ns| - 1 { assert ns[..|ns| - 1][k] == n; }
    }
  }

  lemma LinksForShape(dat: CogInput, f: Formulation, a: string)
    requires ValidCog(dat) && a in dat.sites
    ensures forall c :: c in LinksFor(dat, f, a) ==> LinkShape(dat, f, c) && c.center == a
    ensures f == Weak && a in OpenKeys(dat) ==> multiset(LinksFor(dat, f, a))[WeakForceOpen(a, SourcesOf(dat, a))] == 1
    ensures f == Strong ==> forall n :: (n, a) in AssignKeys(dat) ==> multiset(LinksFor(dat, f, a))[StrongForceOpen(a, n)] == 1
  {
    CentersSourcesDistinct(dat, a);
    StrongLinksShape(a, SourcesOf(dat, a));
  }

  lemma {:induction false} LinksShape(dat: CogInput, f: Formulation, ns: seq<string>)
    requires ValidCog(dat)
    requires forall n :: n in ns ==> n in dat.sites
    requires forall i, j :: 0 <= i < j < |ns| ==> ns[i] != ns[j]
    ensures forall c :: c in Links(dat, f, ns) ==> LinkShape(dat, f, c) && c.center in ns
    ensures f == Weak ==> forall a :: a in ns && a in OpenKeys(dat) ==>
              multiset(Links(dat, f, ns))[WeakForceOpen(a, SourcesOf(dat, a))] == 1
    ensures f == Strong ==> forall n, a :: a in ns && (n, a) in AssignKeys(dat) ==>
              multiset(Links(dat, f, ns))[StrongForceOpen(a, n)] == 1
  {
    if ns != [] {
      var init, last := ns[..|ns| - 1], ns[|ns| - 1];
      InitLast(ns);
      LinksShape(dat, f, init);
      LinksForShape(dat, f, last);
      assert last !in init;
      assert Links(dat, f, ns) == Links(dat, f, init) + LinksFor(dat, f, last);
    }
  }

  lemma {:induction false} MustAssignsKind(dat: CogInput, ns: seq<string>)
    requires forall n :: n in ns ==> n in dat.sites
    ensures forall c :: c in MustAssigns(dat, ns) ==> c.MustAssign?
  {
    if ns != [] { MustAssignsKind(dat, ns[..|ns| - 1]); }
  }

  lemma {:induction false} LinksKind(dat: CogInput, f: Formulation, ns: seq<string>)
    requires forall n :: n in ns ==> n in dat.sites
    ensures forall c :: c in Links(dat, f, ns) ==> c.WeakForceOpen? || c.StrongForceOpen?
  {
    if ns != [] {
      var a := ns[|ns| - 1];
      LinksKind(dat, f, ns[..|ns| - 1]);
      assert forall c :: c in StrongLinks(a, SourcesOf(dat, a)) ==> c.StrongForceOpen? by {
        StrongLinksKind(a, SourcesOf(dat, a));
      }
    }
  }

  lemma {:induction false} StrongLinksKind(a: string, ss: seq<string>)
    ensures forall c :: c in StrongLinks(a, ss) ==> c.StrongForceOpen?
  {
    if ss != [] { StrongLinksKind(a, ss[1..]); }
  }

  /** The model holds exactly one must-assign constraint per site with
      demand, over exactly the centers that site can be assigned to. */
  lemma ModelMustAssign(dat: CogInput)
    requires ValidCog(dat)
    ensures forall c :: c in ModelConstraints(dat) && c.MustAssign? ==>
              c.site in dat.names && dat.sites[c.site].demand > 0.0
              && (forall a :: a in c.centers <==> (c.site, a) in AssignKeys(dat))
    ensures forall n :: n in dat.names && dat.sites[n].demand > 0.0 ==>
              multiset(ModelConstraints(dat))[MustAssign(n, CentersOf(dat, n))] == 1
  {
    MustAssignsShape(dat, dat.names);
    MustAssignsKind(dat, dat.names);
    LinksKind(dat, dat.formulation, dat.names);
    Parts(MustAssigns(dat, dat.names), Links(dat, dat.formulation, dat.names),
          NumCentroids(OpenSites(dat), dat.numberOfCentroids));
  }

  /** Under the weak formulation the model holds exactly one force-open
      constraint per possible center, over exactly the sites it can take;
      under the strong one exactly one per assignment variable. */
  lemma ModelLinks(dat: CogInput)
    requires ValidCog(dat)
    ensures forall c :: c in ModelConstraints(dat) && c.WeakForceOpen? ==>
              dat.formulation == Weak && c.center in OpenKeys(dat)
              && (forall n :: n in c.sources <==> (n, c.center) in AssignKeys(dat))
    ensures dat.formulation == Weak ==> forall a :: a in OpenKeys(dat) ==>
              multiset(ModelConstraints(dat))[WeakForceOpen(a, SourcesOf(dat, a))] == 1
    ensures forall c :: c in ModelConstraints(dat) && c.StrongForceOpen? ==>
              dat.formulation == Strong && (c.source, c.center) in AssignKeys(dat)
    ensures dat.formulation == Strong ==> forall n, a :: (n, a) in AssignKeys(dat) ==>
              multiset(ModelConstraints(dat))[StrongForceOpen(a, n)] == 1
  {
    MustAssignsKind(dat, dat.names);
    LinksShape(dat, dat.formulation, dat.names);
    LinksKind(dat, dat.formulation, dat.names);
    Parts(MustAssigns(dat, dat.names), Links(dat, dat.formulation, dat.names),
          NumCentroids(OpenSites(dat), dat.numberOfCentroids));
  }

  /** The model holds exactly one constraint on the number of centers, over
      all the opening variables. */
  lemma ModelNumCentroids(dat: CogInput)
    requires ValidCog(dat)
    ensures forall c :: c in ModelConstraints(dat) && c.NumCentroids? ==>
              c == NumCentroids(OpenSites(dat), dat.numberOfCentroids)
    ensures multiset(ModelConstraints(dat))[NumCentroids(OpenSites(dat), dat.numberOfCentroids)] == 1
  {
    MustAssignsKind(dat, dat.names);
    LinksKind(dat, dat.formulation, dat.names);
    OnlyLast(MustAssigns(dat, dat.names), Links(dat, dat.formulation, dat.names),
             NumCentroids(OpenSites(dat), dat.numberOfCentroids));
  }

  lemma Parts(ms: seq<Constraint>, ls: seq<Constraint>, x: Constraint)
    requires forall c :: c in ms ==> c.MustAssign?
    requires forall c :: c in ls ==> c.WeakForceOpen? || c.StrongForceOpen?
    requires x.NumCentroids?
    ensures forall c :: c in ms + ls + [x] && c.MustAssign? ==> c in ms
    ensures forall c :: c in ms + ls + [x] && (c.WeakForceOpen? || c.StrongForceOpen?) ==> c in ls
    ensures forall c: Constraint :: c.MustAssign? ==> multiset(ms + ls + [x])[c] == multiset(ms)[c]
    ensures forall c: Constraint :: c.WeakForceOpen? || c.StrongForceOpen? ==> multiset(ms + ls + [x])[c] == multiset(ls)[c]
  {
    forall c: Constraint | c.MustAssign?
      ensures multiset(ms + ls + [x])[c] == multiset(ms)[c]
    {
      assert c !in ls;
    }
    forall c: Constraint | c.WeakForceOpen? || c.StrongForceOpen?
      ensures multiset(ms + ls + [x])[c] == multiset(ls)[c]
    {
      assert c !in ms;
    }
  }

  lemma OnlyLast(ms: seq<Constraint>, ls: seq<Constraint>, x: Constraint)
    requires forall c :: c in ms ==> c.MustAssign?
    requires forall c :: c in ls ==> c.WeakForceOpen? || c.StrongForceOpen?
    requires x.NumCentroids?
    ensures forall c :: c in ms + ls + [x] && c.NumCentroids? ==> c == x
    ensures multiset(ms + ls + [x])[x] == 1
  {
    assert x !in ms && x !in ls;
  }

  // ---------------------------------------------------------------------
  // Meaning of the constraints on a 0/1 point

  /** The 0/1 value of a variable; `almostone` abstracts to `true`. */
  function Val<K>(m: map<K, bool>, k: K): nat
  {
    if k in m && m[k] then 1 else 0
  }

  function SumFrom(n: string, cs: seq<string>, av: map<(string, string), bool>): nat
  {
    if cs == [] then 0 else Val(av, (n, cs[0])) + SumFrom(n, cs[1..], av)
  }

  function SumInto(a: string, ss: seq<string>, av: map<(string, string), bool>): nat
  {
    if ss == [] then 0 else Val(av, (ss[0], a)) + SumInto(a, ss[1..], av)
  }

  function SumOpen(ss: seq<string>, ov: map<string, bool>): nat
  {
    if ss == [] then 0 else Val(ov, ss[0]) + SumOpen(ss[1..], ov)
  }

  predicate Holds(c: Constraint, av: map<(string, string), bool>, ov: map<string, bool>)
  {
    match c
    case MustAssign(n, cs) => SumFrom(n, cs, av) == 1
    case WeakForceOpen(a, ss) => SumInto(a, ss, av) <= |ss| * Val(ov, a)
    case StrongForceOpen(a, n) => Val(av, (n, a)) <= Val(ov, a)
    case NumCentroids(ss, k) => SumOpen(ss, ov) == k
  }

  predicate AllHold(cs: seq<Constraint>, av: map<(string, string), bool>, ov: map<string, bool>)
  {
    forall c :: c in cs ==> Holds(c, av, ov)
  }

  lemma {:induction false} SumIntoBounds(a: string, ss: seq<string>, av: map<(string, string), bool>)
    ensures SumInto(a, ss, av) <= |ss|
    ensures SumInto(a, ss, av) == 0 <==> forall n :: n in ss ==> Val(av, (n, a)) == 0
  {
    if ss != [] {
      SumIntoBounds(a, ss[1..], av);
      assert forall n :: n in ss <==> n == ss[0] || n in ss[1..];
    }
  }

  /** On a 0/1 point the weak force-open constraint of a center holds
      exactly when all its strong force-open constraints do. */
  lemma WeakIffStrong(a: string, ss: seq<string>, av: map<(string, string), bool>, ov: map<string, bool>)
    requires forall i, j :: 0 <= i < j < |ss| ==> ss[i] != ss[j]
    ensures Holds(WeakForceOpen(a, ss), av, ov) <==> AllHold(StrongLinks(a, ss), av, ov)
  {
    SumIntoBounds(a, ss, av);
    StrongLinksShape(a, ss);
    if Val(ov, a) == 0 {
      assert Holds(WeakForceOpen(a, ss), av, ov) <==> forall n :: n in ss ==> Val(av, (n, a)) == 0;
      assert AllHold(StrongLinks(a, ss), av, ov) <==> forall n :: n in ss ==> Val(av, (n, a)) == 0 by {
        forall n | n in ss
          ensures StrongForceOpen(a, n) in StrongLinks(a, ss)
        {
        }
      }
    }
  }

  lemma {:induction false} LinksAgree(dat: CogInput, ns: seq<string>, av: map<(string, string), bool>, ov: map<string, bool>)
    requires ValidCog(dat)
    requires forall n :: n in ns ==> n in dat.sites
    ensures AllHold(Links(dat, Weak, ns), av, ov) <==> AllHold(Links(dat, Strong, ns), av, ov)
  {
    if ns != [] {
      var last := ns[|ns| - 1];
      LinksAgree(dat, ns[..|ns| - 1], av, ov);
      CentersSourcesDistinct(dat, last);
      WeakIffStrong(last, SourcesOf(dat, last), av, ov);
    }
  }

  /** The weak formulation, kept to show a poorer relaxation, admits exactly
      the same 0/1 points as the strong one. */
  lemma FormulationsAgree(dat: CogInput, av: map<(string, string), bool>, ov: map<string, bool>)
    requires ValidCog(dat)
    ensures AllHold(ModelFor(dat, Weak), av, ov) <==> AllHold(ModelFor(dat, Strong), av, ov)
  {
    LinksAgree(dat, dat.names, av, ov);
  }

  lemma {:induction false} SumFromZero(n: string, cs: seq<string>, av: map<(string, string), bool>)
    ensures SumFrom(n, cs, av) == 0 <==> forall a :: a in cs ==> Val(av, (n, a)) == 0
  {
    if cs != [] {
      SumFromZero(n, cs[1..], av);
      assert forall a :: a in cs <==> a == cs[0] || a in cs[1..];
    }
  }

  /** A must-assign sum of one over distinct centers picks exactly one of them. */
  lemma {:induction false} SumFromOne(n: string, cs: seq<string>, av: map<(string, string), bool>)
    requires forall i, j :: 0 <= i < j < |cs| ==> cs[i] != cs[j]
    requires SumFrom(n, cs, av) == 1
    ensures exists a :: a in cs && Val(av, (n, a)) == 1
    ensures forall a, b :: a in cs && b in cs && Val(av, (n, a)) == 1 && Val(av, (n, b)) == 1 ==> a == b
  {
    assert cs != [];
    assert forall a :: a in cs <==> a == cs[0] || a in cs[1..];
    assert cs[0] !in cs[1..];
    if Val(av, (n, cs[0])) == 1 {
      SumFromZero(n, cs[1..], av);
    } else {
      SumFromOne(n, cs[1..], av);
    }
  }

  /** Over distinct sites, the centers-opened sum counts the opened sites. */
  lemma {:induction false} SumOpenCount(ss: seq<string>, ov: map<string, bool>)
    requires forall i, j :: 0 <= i < j < |ss| ==> ss[i] != ss[j]
    ensures SumOpen(ss, ov) == |set n | n in ss && Val(ov, n) == 1|
  {
    if ss == [] {
      assert (set n | n in ss && Val(ov, n) == 1) == {};
    } else {
      var rest := set n | n in ss[1..] && Val(ov, n) == 1;
      SumOpenCount(ss[1..], ov);
      assert ss[0] !in rest;
      var all := set n | n in ss && Val(ov, n) == 1;
      if Val(ov, ss[0]) == 1 {
        assert all == rest + {ss[0]};
      } else {
        assert all == rest;
      }
    }
  }

  /** A constraint that occurs in the model holds at a point where all do. */
  lemma HoldsIn(cs: seq<Constraint>, c: Constraint, av: map<(string, string), bool>, ov: map<string, bool>)
    requires AllHold(cs, av, ov) && multiset(cs)[c] == 1
    ensures Holds(c, av, ov)
  {
    assert c in multiset(cs);
  }

  lemma FeasibleAssigned(dat: CogInput, av: map<(string, string), bool>, ov: map<string, bool>, n: string)
    requires ValidCog(dat) && AllHold(ModelConstraints(dat), av, ov)
    requires n in dat.sites && dat.sites[n].demand > 0.0
    ensures exists a :: (n, a) in SolutionOf(dat, av, ov).assignments
    ensures forall a, b :: (n, a) in SolutionOf(dat, av, ov).assignments && (n, b) in SolutionOf(dat, av, ov).assignments ==> a == b
  {
    var sln := SolutionOf(dat, av, ov);
    var cs := CentersOf(dat, n);
    ModelMustAssign(dat);
    HoldsIn(ModelConstraints(dat), MustAssign(n, cs), av, ov);
    CentersSourcesDistinct(dat, n);
    SumFromOne(n, cs, av);
    var a :| a in cs && Val(av, (n, a)) == 1;
    assert (n, a) in sln.assignments;
  }

  /** A weak force-open constraint that holds bounds each of its sources'
      assignments by the opening of its center. */
  lemma WeakOpens(a: string, ss: seq<string>, av: map<(string, string), bool>, ov: map<string, bool>, n: string)
    requires forall i, j :: 0 <= i < j < |ss| ==> ss[i] != ss[j]
    requires n in ss && Holds(WeakForceOpen(a, ss), av, ov)
    ensures Val(av, (n, a)) <= Val(ov, a)
  {
    WeakIffStrong(a, ss, av, ov);
    StrongLinksShape(a, ss);
    assert StrongForceOpen(a, n) in StrongLinks(a, ss);
  }

  /** Under either formulation, a feasible point assigns to a center only
      when that center is opened. */
  lemma ForceOpenHolds(dat: CogInput, av: map<(string, string), bool>, ov: map<string, bool>, n: string, a: string)
    requires ValidCog(dat) && AllHold(ModelConstraints(dat), av, ov)
    requires (n, a) in AssignKeys(dat)
    ensures Val(av, (n, a)) <= Val(ov, a)
  {
    ModelLinks(dat);
    if dat.formulation == Weak {
      var ss := SourcesOf(dat, a);
      assert a in OpenKeys(dat);
      HoldsIn(ModelConstraints(dat), WeakForceOpen(a, ss), av, ov);
      CentersSourcesDistinct(dat, a);
      WeakOpens(a, ss, av, ov, n);
    } else {
      HoldsIn(ModelConstraints(dat), StrongForceOpen(a, n), av, ov);
    }
  }

  lemma FeasibleOpened(dat: CogInput, av: map<(string, string), bool>, ov: map<string, bool>, n: string, a: string)
    requires ValidCog(dat) && AllHold(ModelConstraints(dat), av, ov)
    requires (n, a) in SolutionOf(dat, av, ov).assignments
    ensures a in SolutionOf(dat, av, ov).openings
  {
    assert (n, a) in AssignKeys(dat) && Val(av, (n, a)) == 1;
    assert a in OpenKeys(dat);
    ForceOpenHolds(dat, av, ov, n, a);
  }

  lemma FeasibleCount(dat: CogInput, av: map<(string, string), bool>, ov: map<string, bool>)
    requires ValidCog(dat) && AllHold(ModelConstraints(dat), av, ov)
    ensures |SolutionOf(dat, av, ov).openings| == dat.numberOfCentroids
  {
    var ss := OpenSites(dat);
    ModelNumCentroids(dat);
    HoldsIn(ModelConstraints(dat), NumCentroids(ss, dat.numberOfCentroids), av, ov);
    FilterDistinct(dat.names, n => n in dat.sites && dat.sites[n].centerStatus == CanBeCenter);
    SumOpenCount(ss, ov);
    assert (set n | n in ss && Val(ov, n) == 1) == SolutionOf(dat, av, ov).openings;
  }

  /** A 0/1 point satisfying every constraint of the model, under either
      formulation, is a center-of-gravity plan: each site with demand is
      assigned to exactly one center, every assignment goes to an opened
      center, and exactly "Number of Centroids" centers are opened. */
  lemma FeasibleSolution(dat: CogInput, av: map<(string, string), bool>, ov: map<string, bool>)
    requires ValidCog(dat) && AllHold(ModelConstraints(dat), av, ov)
    ensures forall n :: n in dat.sites && dat.sites[n].demand > 0.0 ==>
              exists a :: (n, a) in SolutionOf(dat, av, ov).assignments
    ensures forall n, a, b ::
              (n in dat.sites && dat.sites[n].demand > 0.0
               && (n, a) in SolutionOf(dat, av, ov).assignments && (n, b) in SolutionOf(dat, av, ov).assignments) ==> a == b
    ensures forall n, a :: (n, a) in SolutionOf(dat, av, ov).assignments ==> a in SolutionOf(dat, av, ov).openings
    ensures |SolutionOf(dat, av, ov).openings| == dat.numberOfCentroids
  {
    forall n | n in dat.sites && dat.sites[n].demand > 0.0
      ensures exists a :: (n, a) in SolutionOf(dat, av, ov).assignments
      ensures forall a, b :: (n, a) in SolutionOf(dat, av, ov).assignments && (n, b) in SolutionOf(dat, av, ov).assignments ==> a == b
    {
      FeasibleAssigned(dat, av, ov, n);
    }
    forall n, a | (n, a) in SolutionOf(dat, av, ov).assignments
      ensures a in SolutionOf(dat, av, ov).openings
    {
      FeasibleOpened(dat, av, ov, n, a);
    }
    FeasibleCount(dat, av, ov);
  }

  // ---------------------------------------------------------------------
  // Building the model

  /** The MIP under construction: its constraints in the order they are added. */
  class CogModel {
    var constraints: seq<Constraint>

    constructor ()
      ensures constraints == []
    {
      constraints := [];
    }

    /** `mdl.add_constraint`. */
    method AddConstraint(c: Constraint)
      modifies this
      ensures constraints == old(constraints) + [c]
    {
      constraints := constraints + [c];
    }

    /** The must-assign loop over the sites. */
    method AddMustAssign(dat: CogInput)
      requires ValidCog(dat)
      modifies this
      ensures constraints == old(constraints) + MustAssigns(dat, dat.names)
    {
      for k := 0 to |dat.names|
        invariant constraints == old(constraints) + MustAssigns(dat, dat.names[..k])
      {
        var n := dat.names[k];
        assert dat.names[..k + 1][..k] == dat.names[..k];
        if dat.sites[n].demand > 0.0 {
          AddConstraint(MustAssign(n, CentersOf(dat, n)));
        }
      }
      assert dat.names[..|dat.names|] == dat.names;
    }

    /** The force-open loop over the sites, weak or strong as the
        "Formulation" parameter says. */
    method AddForceOpen(dat: CogInput)
      requires ValidCog(dat)
      modifies this
      ensures constraints == old(constraints) + Links(dat, dat.formulation, dat.names)
    {
      for k := 0 to |dat.names|
        invariant constraints == old(constraints) + Links(dat, dat.formulation, dat.names[..k])
      {
        LinksStep(dat, dat.formulation, dat.names, k);
        AppendStep(old(constraints), Links(dat, dat.formulation, dat.names[..k]),
                   LinksFor(dat, dat.formulation, dat.names[k]), constraints);
        AddForceOpenAt(dat, dat.names[k]);
      }
      assert dat.names[..|dat.names|] == dat.names;
    }

    /** One pass of the force-open loop, for the site `a`. */
    method AddForceOpenAt(dat: CogInput, a: string)
      requires a in dat.sites
      modifies this
      ensures constraints == old(constraints) + LinksFor(dat, dat.formulation, a)
    {
      if dat.sites[a].centerStatus == CanBeCenter {
        var ss := SourcesOf(dat, a);
        if dat.formulation == Weak {
          AddConstraint(WeakForceOpen(a, ss));
        } else {
          AddStrongForceOpen(a, ss);
        }
      }
    }

    /** The strong formulation's inner loop for one center. */
    method AddStrongForceOpen(a: string, ss: seq<string>)
      modifies this
      ensures constraints == old(constraints) + StrongLinks(a, ss)
    {
      for j := 0 to |ss|
        invariant constraints + StrongLinks(a, ss[j..]) == old(constraints) + StrongLinks(a, ss)
      {
        assert ss[j..][1..] == ss[j + 1..];
        AddConstraint(StrongForceOpen(a, ss[j]));
      }
    }
  }

  lemma AppendStep<T>(o: seq<T>, l: seq<T>, x: seq<T>, c: seq<T>)
    requires c == o + l
    ensures c + x == o + (l + x)
  {
  }

  lemma LinksStep(dat: CogInput, f: Formulation, ns: seq<string>, k: int)
    requires forall n :: n in ns ==> n in dat.sites
    requires 0 <= k < |ns|
    ensures Links(dat, f, ns[..k + 1]) == Links(dat, f, ns[..k]) + LinksFor(dat, f, ns[k])
  {
    assert ns[..k + 1][..k] == ns[..k];
  }

  // ---------------------------------------------------------------------
  // Reading the solution and solving

  /** A new model with the three groups of constraints, in order. */
  method BuildModel(dat: CogInput) returns (mdl: CogModel)
    requires ValidCog(dat)
    ensures fresh(mdl) && mdl.constraints == ModelConstraints(dat)
  {
    mdl := new CogModel();
    mdl.AddMustAssign(dat);
    ghost var afterMust := mdl.constraints;
    mdl.AddForceOpen(dat);
    ghost var afterLinks := mdl.constraints;
    mdl.AddConstraint(NumCentroids(OpenSites(dat), dat.numberOfCentroids));
    ModelAppend(MustAssigns(dat, dat.names), Links(dat, dat.formulation, dat.names),
                NumCentroids(OpenSites(dat), dat.numberOfCentroids), afterMust, afterLinks, mdl.constraints);
  }

  lemma ModelAppend<T>(ms: seq<T>, ls: seq<T>, x: T, c1: seq<T>, c2: seq<T>, c3: seq<T>)
    requires c1 == [] + ms && c2 == c1 + ls && c3 == c2 + [x]
    ensures c3 == ms + ls + [x]
  {
  }

  /** The keys of `keys` whose variable is (almost) one, as the two
      extraction loops collect them. */
  method CollectOnes<K(==)>(keys: seq<K>, values: map<K, bool>) returns (ones: set<K>)
    ensures forall k :: k in ones <==> k in keys && Val(values, k) == 1
  {
    ones := {};
    for i := 0 to |keys|
      invariant forall k :: k in ones <==> k in keys[..i] && Val(values, k) == 1
    {
      assert keys[..i + 1] == keys[..i] + [keys[i]];
      if Val(values, keys[i]) == 1 {
        ones := ones + {keys[i]};
      }
    }
    assert keys[..|keys|] == keys;
  }

  /** The `openings` and `assignments` tables. */
  datatype CogSolution = CogSolution(openings: set<string>, assignments: set<(string, string)>)

  /** The solution read off a 0/1 point: only variables of the model can appear in it. */
  function SolutionOf(dat: CogInput, av: map<(string, string), bool>, ov: map<string, bool>): (sln: CogSolution)
    ensures sln.openings <= OpenKeys(dat) && sln.assignments <= AssignKeys(dat)
    ensures forall n :: n in OpenKeys(dat) ==> (n in sln.openings <==> Val(ov, n) == 1)
    ensures forall p :: p in AssignKeys(dat) ==> (p in sln.assignments <==> Val(av, p) == 1)
  {
    CogSolution(set n | n in OpenKeys(dat) && Val(ov, n) == 1, set p | p in AssignKeys(dat) && Val(av, p) == 1)
  }

  /** The two extraction loops over `assign_vars` and `open_vars`. */
  method ReadSolution(dat: CogInput, pairs: seq<(string, string)>, opens: seq<string>,
                      av: map<(string, string), bool>, ov: map<string, bool>) returns (sln: CogSolution)
    requires forall p :: p in pairs <==> p in AssignKeys(dat)
    requires forall n :: n in opens <==> n in OpenKeys(dat)
    ensures sln == SolutionOf(dat, av, ov)
  {
    var assignments := CollectOnes(pairs, av);
    var openings := CollectOnes(opens, ov);
    sln := CogSolution(openings, assignments);
  }

  /** What the MIP solver reports: no solution, or the 0/1 values. */
  datatype MipResult = NotOptimized | Optimized(assignValues: map<(string, string), bool>, openValues: map<string, bool>)

  datatype Outcome =
    | UnassignableDemand(unassignable: seq<string>)
    | NothingCanBeCenter
    | NotSolved
    | Solved(solution: CogSolution)

  /** `solve`: the two diagnoses, the model built under the selected
      formulation, and the solution read off the solver's values. Also
      returns the useless sites, which are only reported, and the
      constraints of the model when one is built. */
  method Solve(dat: CogInput, mip: MipResult) returns (useless: seq<string>, constraints: seq<Constraint>, out: Outcome)
    requires ValidCog(dat)
    ensures out.UnassignableDemand? <==> Unassignables(dat) != []
    ensures out.UnassignableDemand? ==> out.unassignable == Unassignables(dat) && useless == [] && constraints == []
    ensures !out.UnassignableDemand? ==> useless == Useless(dat)
    ensures out.NothingCanBeCenter? <==> Unassignables(dat) == [] && OpenKeys(dat) == {}
    ensures out.NothingCanBeCenter? ==> constraints == []
    ensures out.NotSolved? || out.Solved? ==> constraints == ModelConstraints(dat)
    ensures out.NotSolved? <==> Unassignables(dat) == [] && OpenKeys(dat) != {} && mip.NotOptimized?
    ensures out.Solved? ==> mip.Optimized? && out.solution == SolutionOf(dat, mip.assignValues, mip.openValues)
  {
    useless, constraints := [], [];
    var unassignables := Unassignables(dat);
    if unassignables != [] {
      return useless, constraints, UnassignableDemand(unassignables);
    }
    useless := Useless(dat);
    var pairs := AssignPairs(dat, dat.names);
    var opens := OpenSites(dat);
    if opens == [] {
      assert forall n :: n !in OpenKeys(dat);
      return useless, constraints, NothingCanBeCenter;
    }
    assert opens[0] in OpenKeys(dat);
    var mdl := BuildModel(dat);
    constraints := mdl.constraints;
    if mip.NotOptimized? {
      return useless, constraints, NotSolved;
    }
    var sln := ReadSolution(dat, pairs, opens, mip.assignValues, mip.openValues);
    out := Solved(sln);
  }
}
