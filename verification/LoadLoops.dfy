/** Loops of descriptions, exactly: which loads leave a sound set, and which services are left
    with a link to one that is not in the set. */
module LoadLoops {
  import opened Graph
  import opened Services
  import opened Loader
  import opened LinkLists
  import opened LoadSafety

  /** A chain of descriptions leads from `a` to `b`. */
  ghost predicate Leads(fs: Files, base: set<Name>, a: Name, b: Name) {
    exists p :: Chain(fs, base, p, a) && p[|p| - 1] == b
  }

  /** A chain of descriptions leads from `n` back to it. */
  ghost predicate OnLoop(fs: Files, base: set<Name>, n: Name) {
    exists p :: Chain(fs, base, p, n) && |p| > 1 && p[|p| - 1] == n
  }

  lemma LeadsSelf(fs: Files, base: set<Name>, a: Name)
    ensures Leads(fs, base, a, a)
  {
    assert Chain(fs, base, [a], a);
  }

  lemma ChainSnoc(fs: Files, base: set<Name>, p: seq<Name>, a: Name, b: Name)
    requires Chain(fs, base, p, a) && Describes(fs, p[|p| - 1], b) && p[|p| - 1] !in base
    ensures Chain(fs, base, p + [b], a)
  {
    var q := p + [b];
    forall i: nat | 0 < i < |q| ensures Descends(fs, q, i) {
      if i < |p| { assert Descends(fs, p, i); }
    }
  }

  lemma LeadsOn(fs: Files, base: set<Name>, a: Name, b: Name, c: Name)
    requires Leads(fs, base, a, b) && Describes(fs, b, c) && b !in base
    ensures Leads(fs, base, a, c)
  {
    var p :| Chain(fs, base, p, a) && p[|p| - 1] == b;
    ChainSnoc(fs, base, p, a, c);
    assert (p + [c])[|p|] == c;
  }

  lemma ClosesLoop(fs: Files, base: set<Name>, n: Name, b: Name)
    requires Describes(fs, n, b) && n !in base && Leads(fs, base, b, n)
    ensures OnLoop(fs, base, n)
  {
    var p :| Chain(fs, base, p, b) && p[|p| - 1] == n;
    ChainCons(fs, base, n, p, b);
    assert ([n] + p)[|p|] == n;
  }

  // ----- services that are on no loop -----

  /** Every added service that is on no loop is sound. */
  ghost predicate AddedSound(fs: Files, base: set<Name>, services: ServiceMap, busy: set<Name>) {
    forall n :: n in services && n !in base && n !in busy ==> OnLoop(fs, base, n) || SoundAt(services, busy, n)
  }

  ghost predicate AllLead(fs: Files, base: set<Name>, busy: set<Name>, n: Name) {
    forall b :: b in busy ==> Leads(fs, base, b, n)
  }

  /** A sound service stays sound while what it depends on stays as it is. */
  lemma SoundAtKept(a: ServiceMap, busy: set<Name>, b: ServiceMap, busy': set<Name>, n: Name)
    requires n in a && n in b && SoundAt(a, busy, n) && b[n] == a[n]
    requires forall d :: d in a[n].deps ==> d.to in b && d.to !in busy' && b[d.to].depth == a[d.to].depth
    ensures SoundAt(b, busy', n)
  {
    hide CalcDepth;
    forall d | d in a[n].deps ensures DepthOf(a, d.to) == DepthOf(b, d.to) {}
    CalcDepthSame(a, b, a[n].deps);
  }

  lemma AddedEnters(fs: Files, base: set<Name>, st: State, busy: set<Name>, name: Name)
    requires AddedSound(fs, base, st.services, busy) && name !in st.services
    ensures AddedSound(fs, base, Enter(st, name).services, busy + {name})
  {
    hide OnLoop;
    var after := Enter(st, name).services;
    forall n | n in after && n !in base && n !in busy + {name}
      ensures OnLoop(fs, base, n) || SoundAt(after, busy + {name}, n)
    {
      if !OnLoop(fs, base, n) {
        SoundAtKept(st.services, busy, after, busy + {name}, n);
      }
    }
  }

  lemma AddedAfterLink(fs: Files, base: set<Name>, st: State, busy: set<Name>, name: Name, d: Dep)
    requires AddedSound(fs, base, st.services, busy) && name in st.services && name in base + busy
    ensures AddedSound(fs, base, AddDep(st, name, d).services, busy)
  {
    hide OnLoop;
    var after := AddDep(st, name, d).services;
    forall n | n in after && n !in base && n !in busy ensures OnLoop(fs, base, n) || SoundAt(after, busy, n) {
      if !OnLoop(fs, base, n) {
        SoundAtKept(st.services, busy, after, busy, n);
      }
    }
  }

  lemma AddedSettles(fs: Files, base: set<Name>, was: State, left: State, busy: set<Name>, name: Name)
    requires AddedSound(fs, base, left.services, busy + {name}) && name in left.services
    requires OnLoop(fs, base, name) || DepsSettled(left.services, busy + {name}, left.services[name].deps)
    ensures AddedSound(fs, base, Settle(was, left, name).services, busy)
  {
    hide OnLoop, CalcDepth;
    var after := Settle(was, left, name).services;
    forall n | n in after && n !in base && n !in busy ensures OnLoop(fs, base, n) || SoundAt(after, busy, n) {
      if !OnLoop(fs, base, n) {
        if n == name {
          CalcDepthSame(left.services, after, left.services[name].deps);
        } else {
          SoundAtKept(left.services, busy + {name}, after, busy, n);
        }
      }
    }
  }

  lemma AddedForgets(fs: Files, base: set<Name>, was: State, left: State, busy: set<Name>, name: Name)
    requires AddedSound(fs, base, left.services, busy + {name}) && name in left.services
    ensures AddedSound(fs, base, Forget(was, left, name).services, busy)
  {
    hide OnLoop, CalcDepth;
    var after, key := Forget(was, left, name).services, OrphanKey(|left.orphans|);
    forall n | n in after && n !in base && n !in busy ensures OnLoop(fs, base, n) || SoundAt(after, busy, n) {
      if !OnLoop(fs, base, n) {
        RekeyNothing(left.services[n], name, key);
        SoundAtKept(left.services, busy + {name}, after, busy, n);
      }
    }
  }

  /** Whatever the outcome and whatever loops there are, an added service that is on no loop links
      to services of the set only and has its right depth. */
  lemma {:induction false} LoadAddsSound(fs: Files, base: set<Name>, st: State, busy: set<Name>, name: Name)
    requires base <= st.services.Keys && AddedSound(fs, base, st.services, busy) && AllLead(fs, base, busy, name)
    requires busy !! base
    ensures AddedSound(fs, base, LoadService(fs, st, name).0.services, busy)
    decreases Budget(st), 0, 0
  {
    hide AddedSound, AllLead, OnLoop, CalcDepth, Forget;
    if name !in st.services && st.curDepth < MAX_DEP_DEPTH && name !in st.loading && fs(name).Found? {
      var items := fs(name).items;
      var entered := Enter(st, name);
      AddedEnters(fs, base, st, busy, name);
      LeadsToEntered(fs, base, busy, name);
      DepsAddSound(fs, base, entered, busy + {name}, name, items);
      var (left, outcome) := LoadDependencies(fs, entered, name, items);
      if outcome.Loaded? {
        AddedSettles(fs, base, st, left, busy, name);
      } else {
        AddedForgets(fs, base, st, left, busy, name);
      }
    }
  }

  lemma LeadsToEntered(fs: Files, base: set<Name>, busy: set<Name>, name: Name)
    requires AllLead(fs, base, busy, name)
    ensures AllLead(fs, base, busy + {name}, name)
  {
    LeadsSelf(fs, base, name);
  }

  lemma BusyLeads(fs: Files, base: set<Name>, busy: set<Name>, name: Name, b: Name)
    requires AllLead(fs, base, busy, name) && b in busy
    ensures Leads(fs, base, b, name)
  {
  }

  lemma LeadsToTarget(fs: Files, base: set<Name>, busy: set<Name>, name: Name, t: Name)
    requires AllLead(fs, base, busy, name) && (busy == {} || (Describes(fs, name, t) && name !in base))
    ensures AllLead(fs, base, busy, t)
  {
    forall b | b in busy ensures Leads(fs, base, b, t) { LeadsOn(fs, base, b, name, t); }
  }

  /** What the dependencies linked so far are like: settled, or the service is on a loop.  The
      service may be one of the base that is being reloaded; nothing is claimed of it then. */
  ghost predicate Linkable(fs: Files, base: set<Name>, services: ServiceMap, busy: set<Name>, name: Name)
    requires name in services
  {
    name in base || OnLoop(fs, base, name) || DepsSettled(services, busy, services[name].deps)
  }

  lemma {:induction false} DepsAddSound(fs: Files, base: set<Name>, st: State, busy: set<Name>, name: Name, items: seq<Item>)
    requires base <= st.services.Keys && AddedSound(fs, base, st.services, busy) && AllLead(fs, base, busy, name)
    requires name in st.services && busy !! base && (name in busy || (name in base && busy == {}))
    requires name in base || (fs(name).Found? && forall it :: it in items ==> it in fs(name).items)
    requires Linkable(fs, base, st.services, busy, name)
    ensures
      var after := LoadDependencies(fs, st, name, items).0.services;
      AddedSound(fs, base, after, busy) && Linkable(fs, base, after, busy, name)
    decreases Budget(st), 1, |items|
  {
    hide AddedSound, AllLead, OnLoop, LoadService;
    if items != [] && items[0].Link? {
      var t := items[0].target;
      assert items[0] in items;
      if name !in base { assert Describes(fs, name, t); }
      LeadsToTarget(fs, base, busy, name, t);
      LoadAddsSound(fs, base, st, busy, t);
      var (st', outcome) := LoadService(fs, st, t);
      if outcome.Loaded? {
        var linked := AddDep(st', name, Dep(t, items[0].kind));
        AddedAfterLink(fs, base, st', busy, name, Dep(t, items[0].kind));
        if t in busy && name !in base {
          BusyLeads(fs, base, busy, name, t);
          ClosesLoop(fs, base, name, t);
        }
        DepsAddSound(fs, base, linked, busy, name, items[1..]);
      } else if items[0].optional && outcome.NotFound? {
        DepsAddSound(fs, base, st', busy, name, items[1..]);
      }
    }
  }

  // ----- optional lines that resolve -----

  /** The description of `a` requires `b`. */
  ghost predicate Demands(fs: Files, a: Name, b: Name) {
    fs(a).Found? && exists it :: it in fs(a).items && it.Link? && it.target == b && !it.optional
  }

  ghost predicate DemandAt(fs: Files, p: seq<Name>, i: nat)
    requires 0 < i < |p|
  {
    Demands(fs, p[i - 1], p[i])
  }

  /** Something that `a` requires, at whatever remove, is neither in the set nor described. */
  ghost predicate Wants(fs: Files, base: set<Name>, p: seq<Name>, a: Name) {
    && |p| > 0 && p[0] == a && Absent(fs, base, p[|p| - 1])
    && (forall i: nat :: 0 < i < |p| ==> DemandAt(fs, p, i))
  }

  ghost predicate Incomplete(fs: Files, base: set<Name>, a: Name) {
    exists p :: Wants(fs, base, p, a)
  }

  lemma DemandsIncomplete(fs: Files, base: set<Name>, a: Name, b: Name)
    requires Demands(fs, a, b) && Incomplete(fs, base, b)
    ensures Incomplete(fs, base, a)
  {
    var p :| Wants(fs, base, p, b);
    var q := [a] + p;
    forall i: nat | 0 < i < |q| ensures DemandAt(fs, q, i) {
      if i > 1 { assert DemandAt(fs, p, i - 1); }
    }
    assert Wants(fs, base, q, a);
  }

  /** Only what is incomplete is not found. */
  lemma {:induction false} NotFoundIsIncomplete(fs: Files, base: set<Name>, st: State, name: Name)
    requires base <= st.services.Keys && LoadService(fs, st, name).1.NotFound?
    ensures Incomplete(fs, base, name)
    decreases Budget(st), 0, 0
  {
    hide CalcDepth, Forget;
    if fs(name).Missing? {
      assert Wants(fs, base, [name], name);
    } else {
      DepsNotFound(fs, base, Enter(st, name), name, fs(name).items);
    }
  }

  lemma {:induction false} DepsNotFound(fs: Files, base: set<Name>, st: State, name: Name, items: seq<Item>)
    requires base <= st.services.Keys && name in st.services && LoadDependencies(fs, st, name, items).1.NotFound?
    requires fs(name).Found? && forall it :: it in items ==> it in fs(name).items
    ensures Incomplete(fs, base, name)
    decreases Budget(st), 1, |items|
  {
    hide Incomplete, LoadService;
    var it := items[0];
    assert it in items;
    var (st', outcome) := LoadService(fs, st, it.target);
    if outcome.Loaded? {
      DepsNotFound(fs, base, AddDep(st', name, Dep(it.target, it.kind)), name, items[1..]);
    } else if it.optional && outcome.NotFound? {
      DepsNotFound(fs, base, st', name, items[1..]);
    } else {
      NotFoundIsIncomplete(fs, base, st, it.target);
      assert Demands(fs, name, it.target);
      DemandsIncomplete(fs, base, name, it.target);
    }
  }

  /** An optional line names a service that is absent altogether, or complete. */
  ghost predicate LineResolves(fs: Files, base: set<Name>, it: Item) {
    it.Link? && it.optional ==> Absent(fs, base, it.target) || !Incomplete(fs, base, it.target)
  }

  ghost predicate LinesResolve(fs: Files, base: set<Name>, items: seq<Item>) {
    forall it :: it in items ==> LineResolves(fs, base, it)
  }

  /** So does every optional line that a load of `a` comes across. */
  ghost predicate OptionalsResolve(fs: Files, base: set<Name>, a: Name) {
    forall n :: Leads(fs, base, a, n) && n !in base && fs(n).Found? ==> LinesResolve(fs, base, fs(n).items)
  }

  lemma ResolveBelow(fs: Files, base: set<Name>, a: Name, b: Name)
    requires OptionalsResolve(fs, base, a) && Describes(fs, a, b) && a !in base
    ensures OptionalsResolve(fs, base, b)
  {
    forall n | Leads(fs, base, b, n) && n !in base && fs(n).Found? ensures LinesResolve(fs, base, fs(n).items) {
      var p :| Chain(fs, base, p, b) && p[|p| - 1] == n;
      ChainCons(fs, base, a, p, b);
      assert ([a] + p)[|p|] == n;
      assert Leads(fs, base, a, n);
    }
  }

  // ----- what the added services are linked to -----

  /** The link is the described one, or its target has been taken out of the set. */
  ghost predicate LinkedAs(d: Dep, k: Dep) {
    d == k || (Hidden(d.to) && d.kind == k.kind)
  }

  ghost predicate AllLinkedAs(deps: seq<Dep>, kept: seq<Dep>) {
    |deps| == |kept| && forall i :: 0 <= i < |deps| ==> LinkedAs(deps[i], kept[i])
  }

  /** Every added service that is fully loaded has the links its description asks for. */
  ghost predicate AddedLinks(fs: Files, base: set<Name>, services: ServiceMap, busy: set<Name>) {
    forall n :: n in services && n !in base && n !in busy ==> LinksAt(fs, base, services[n].deps, n)
  }

  ghost predicate LinksAt(fs: Files, base: set<Name>, deps: seq<Dep>, n: Name) {
    fs(n).Found? && AllLinkedAs(deps, Kept(fs, base, fs(n).items))
  }

  lemma RekeyLinks(r: Rec, n: Name, key: Name, kept: seq<Dep>)
    requires AllLinkedAs(r.deps, kept) && Hidden(key)
    ensures AllLinkedAs(RekeyRec(r, n, key).deps, kept)
  {
  }

  lemma LinksForget(fs: Files, base: set<Name>, was: State, left: State, busy: set<Name>, name: Name)
    requires AddedLinks(fs, base, left.services, busy + {name}) && name in left.services
    ensures AddedLinks(fs, base, Forget(was, left, name).services, busy)
  {
    hide AllLinkedAs, Kept;
    var after, key := Forget(was, left, name).services, OrphanKey(|left.orphans|);
    forall n | n in after && n !in base && n !in busy ensures LinksAt(fs, base, after[n].deps, n) {
      RekeyLinks(left.services[n], name, key, Kept(fs, base, fs(n).items));
    }
  }

  lemma LinkedRefl(deps: seq<Dep>)
    ensures AllLinkedAs(deps, deps)
  {
  }

  /** Whatever the outcome, a fully loaded service has exactly the links its description asks for,
      in order, but that a link may lead to a record that was taken out of the set since. */
  lemma {:induction false} LoadLinks(fs: Files, base: set<Name>, st: State, busy: set<Name>, name: Name)
    requires base <= st.services.Keys && SameAbsent(fs, base, st.services) && AddedLinks(fs, base, st.services, busy)
    requires busy <= st.services.Keys && OptionalsResolve(fs, base, name)
    ensures
      var after := LoadService(fs, st, name).0.services;
      AddedLinks(fs, base, after, busy) && SameAbsent(fs, base, after)
    decreases Budget(st), 0, 0
  {
    hide Kept, AllLinkedAs, OptionalsResolve, CalcDepth, Forget;
    if name !in st.services && st.curDepth < MAX_DEP_DEPTH && name !in st.loading && fs(name).Found? {
      var items, entered := fs(name).items, Enter(st, name);
      NameResolves(fs, base, name);
      DepsLink(fs, base, entered, busy + {name}, name, items);
      var (left, outcome) := LoadDependencies(fs, entered, name, items);
      if outcome.Loaded? {
        assert left.services[name].deps == Kept(fs, base, items) by { EmptyPlus(Kept(fs, base, items)); }
        LinkedRefl(left.services[name].deps);
      } else {
        LinksForget(fs, base, st, left, busy, name);
        ForgetAbsent(fs, base, st, left, name);
      }
    }
  }

  lemma EmptyPlus(s: seq<Dep>)
    ensures [] + s == s
  {
  }

  lemma ForgetAbsent(fs: Files, base: set<Name>, was: State, left: State, name: Name)
    requires SameAbsent(fs, base, left.services) && name in left.services && fs(name).Found?
    ensures SameAbsent(fs, base, Forget(was, left, name).services)
  {
  }

  lemma NameResolves(fs: Files, base: set<Name>, name: Name)
    requires OptionalsResolve(fs, base, name) && name !in base && fs(name).Found?
    ensures LinesResolve(fs, base, fs(name).items)
    ensures forall it :: it in fs(name).items && it.Link? ==> OptionalsResolve(fs, base, it.target)
  {
    LeadsSelf(fs, base, name);
    forall it | it in fs(name).items && it.Link? ensures OptionalsResolve(fs, base, it.target) {
      assert Describes(fs, name, it.target);
      ResolveBelow(fs, base, name, it.target);
    }
  }

  lemma {:induction false} DepsLink(fs: Files, base: set<Name>, st: State, busy: set<Name>, name: Name, items: seq<Item>)
    requires base <= st.services.Keys && SameAbsent(fs, base, st.services) && AddedLinks(fs, base, st.services, busy)
    requires busy <= st.services.Keys && name in st.services && name in busy + base
    requires LinesResolve(fs, base, items)
    requires forall it :: it in items && it.Link? ==> OptionalsResolve(fs, base, it.target)
    ensures
      var (after, outcome) := LoadDependencies(fs, st, name, items);
      && AddedLinks(fs, base, after.services, busy) && SameAbsent(fs, base, after.services)
      && (outcome.Loaded? ==> after.services[name].deps == st.services[name].deps + Kept(fs, base, items))
    decreases Budget(st), 1, |items|
  {
    hide AllLinkedAs, OptionalsResolve, LoadService, Kept, Incomplete;
    if items == [] {
      NothingToLoad(fs, base, st, name);
    } else if items[0].Link? {
      var it := items[0];
      assert it in items;
      LoadLinks(fs, base, st, busy, it.target);
      var (st', outcome) := LoadService(fs, st, it.target);
      if outcome.Loaded? {
        var linked := AddDep(st', name, Dep(it.target, it.kind));
        LoadedIsKept(fs, base, st', items, st.services[name].deps);
        DepsLink(fs, base, linked, busy, name, items[1..]);
      } else if it.optional && outcome.NotFound? {
        NotFoundIsIncomplete(fs, base, st, it.target);
        assert LineResolves(fs, base, it);
        SkippedIsNotKept(fs, base, items);
        DepsLink(fs, base, st', busy, name, items[1..]);
      }
    }
  }

  lemma LoadedIsKept(fs: Files, base: set<Name>, st: State, items: seq<Item>, deps: seq<Dep>)
    requires items != [] && items[0].Link? && SameAbsent(fs, base, st.services) && items[0].target in st.services
    ensures deps + [Dep(items[0].target, items[0].kind)] + Kept(fs, base, items[1..]) == deps + Kept(fs, base, items)
  {
  }

  lemma SkippedIsNotKept(fs: Files, base: set<Name>, items: seq<Item>)
    requires items != [] && items[0].Link? && Absent(fs, base, items[0].target)
    ensures Kept(fs, base, items) == Kept(fs, base, items[1..])
  {
  }

  // ----- loads that succeed -----

  /** Every link of a service that was added leads to a service of the set. */
  ghost predicate AddedClosed(before: ServiceMap, after: ServiceMap) {
    forall n, d :: n in after && n !in before && d in after[n].deps ==> d.to in after
  }

  /** A load that succeeds has linked every added service exactly as its description asks. */
  lemma {:induction false} LoadedLinks(fs: Files, base: set<Name>, st: State, name: Name)
    requires base <= st.services.Keys && SameAbsent(fs, base, st.services) && OptionalsResolve(fs, base, name)
    requires LoadService(fs, st, name).1.Loaded?
    ensures
      var after := LoadService(fs, st, name).0.services;
      && AddedAsDescribed(fs, base, st.services, after) && SameAbsent(fs, base, after) && AddedClosed(st.services, after)
    ensures LoadService(fs, st, name).0.orphans == st.orphans
    decreases Budget(st), 0, 0
  {
    hide Kept, OptionalsResolve, CalcDepth, Forget, Settle, Extends, AddedAsDescribed, AddedClosed, SameAbsent;
    if name in st.services {
      AddedRefl(fs, base, st.services);
      NothingAddedClosed(st.services);
    } else {
      EnterAbsent(fs, base, st, name);
      var items, entered := fs(name).items, Enter(st, name);
      NameResolves(fs, base, name);
      DepsLoaded(fs, base, entered, name, items);
      EmptyPlus(Kept(fs, base, items));
      SettledAsDescribed(fs, base, st, LoadDependencies(fs, entered, name, items).0, name);
      SettleKeepsOrphans(st, LoadDependencies(fs, entered, name, items).0, name);
    }
  }

  lemma SettleKeepsOrphans(was: State, left: State, name: Name)
    requires name in left.services
    ensures Settle(was, left, name).orphans == left.orphans
  {
  }

  lemma NothingAddedClosed(services: ServiceMap)
    ensures AddedClosed(services, services)
  {
  }

  lemma EnterAbsent(fs: Files, base: set<Name>, st: State, name: Name)
    requires SameAbsent(fs, base, st.services) && fs(name).Found?
    ensures SameAbsent(fs, base, Enter(st, name).services)
  {
  }

  lemma SettledAsDescribed(fs: Files, base: set<Name>, st: State, left: State, name: Name)
    requires name !in st.services && name in left.services && fs(name).Found?
    requires left.services[name].deps == Kept(fs, base, fs(name).items)
    requires AddedAsDescribed(fs, base, Enter(st, name).services, left.services) && SameAbsent(fs, base, left.services)
    requires AddedClosed(Enter(st, name).services, left.services)
    requires forall d :: d in Kept(fs, base, fs(name).items) ==> d.to in left.services
    ensures
      var after := Settle(st, left, name).services;
      && AddedAsDescribed(fs, base, st.services, after) && SameAbsent(fs, base, after) && AddedClosed(st.services, after)
  {
    hide Kept, CalcDepth;
  }

  lemma {:induction false} DepsLoaded(fs: Files, base: set<Name>, st: State, name: Name, items: seq<Item>)
    requires base <= st.services.Keys && SameAbsent(fs, base, st.services) && name in st.services
    requires LinesResolve(fs, base, items)
    requires forall it :: it in items && it.Link? ==> OptionalsResolve(fs, base, it.target)
    requires LoadDependencies(fs, st, name, items).1.Loaded?
    ensures
      var after := LoadDependencies(fs, st, name, items).0.services;
      && AddedAsDescribed(fs, base, st.services, after) && SameAbsent(fs, base, after) && AddedClosed(st.services, after)
      && after[name].deps == st.services[name].deps + Kept(fs, base, items)
      && forall d :: d in Kept(fs, base, items) ==> d.to in after
    ensures LoadDependencies(fs, st, name, items).0.orphans == st.orphans
    decreases Budget(st), 1, |items|
  {
    hide OptionalsResolve, LoadService, Kept, Incomplete, AddedAsDescribed;
    if items == [] {
      AddedRefl(fs, base, st.services);
      NothingToLoad(fs, base, st, name);
    } else {
      var it := items[0];
      assert it in items;
      var (st', outcome) := LoadService(fs, st, it.target);
      if outcome.Loaded? {
        var linked := AddDep(st', name, Dep(it.target, it.kind));
        LoadedLinks(fs, base, st, it.target);
        LoadSafety.AddedLinked(fs, base, st.services, st'.services, linked.services, name);
        LoadedIsKept(fs, base, st', items, st.services[name].deps);
        DepsLoaded(fs, base, linked, name, items[1..]);
        var after := LoadDependencies(fs, linked, name, items[1..]).0.services;
        AddedTrans(fs, base, st.services, linked.services, after, name);
        ClosedOn(st.services, st'.services, linked.services, after, name);
        KeptHead(fs, base, items);
      } else {
        NotFoundIsIncomplete(fs, base, st, it.target);
        assert LineResolves(fs, base, it);
        SkippedIsNotKept(fs, base, items);
        AbsentIsSkipped(fs, base, st, it.target);
        DepsLoaded(fs, base, st, name, items[1..]);
      }
    }
  }

  lemma ClosedOn(before: ServiceMap, mid: ServiceMap, linked: ServiceMap, after: ServiceMap, name: Name)
    requires AddedClosed(before, mid) && AddedClosed(linked, after) && name in before
    requires linked.Keys == mid.Keys && forall n :: n in mid && n != name ==> linked[n] == mid[n]
    requires Extends(linked - {name}, after) && name in after
    ensures AddedClosed(before, after)
  {
    forall n, d | n in after && n !in before && d in after[n].deps ensures d.to in after {
      if n in linked {
        assert n in linked - {name} && d in mid[n].deps && d.to in mid;
        if d.to != name { assert d.to in linked - {name}; }
      }
    }
  }

  lemma KeptHead(fs: Files, base: set<Name>, items: seq<Item>)
    requires items != [] && items[0].Link?
    ensures forall d :: d in Kept(fs, base, items) ==> d == Dep(items[0].target, items[0].kind) || d in Kept(fs, base, items[1..])
  {
  }

  lemma AbsentIsSkipped(fs: Files, base: set<Name>, st: State, n: Name)
    requires Absent(fs, base, n) && SameAbsent(fs, base, st.services) && LoadService(fs, st, n).1.NotFound?
    ensures LoadService(fs, st, n) == (st, NotFound)
  {
  }

  // ----- loads that fail -----

  /** The fully loaded services that were added have exactly the links they describe. */
  ghost predicate AddedExactly(fs: Files, base: set<Name>, services: ServiceMap, busy: set<Name>) {
    forall n :: n in services && n !in base && n !in busy ==> fs(n).Found? && services[n].deps == Kept(fs, base, fs(n).items)
  }

  /** A link that is not the described one stands for one to a service that is not in the set. */
  ghost predicate LinksOut(services: ServiceMap, deps: seq<Dep>, kept: seq<Dep>) {
    |deps| == |kept| && forall i :: 0 <= i < |deps| ==> deps[i] == kept[i] || kept[i].to !in services
  }

  ghost predicate AddedOut(fs: Files, base: set<Name>, services: ServiceMap, busy: set<Name>) {
    forall n :: n in services && n !in base && n !in busy ==>
      fs(n).Found? && LinksOut(services, services[n].deps, Kept(fs, base, fs(n).items))
  }

  lemma ExactIsOut(fs: Files, base: set<Name>, services: ServiceMap, busy: set<Name>)
    requires AddedExactly(fs, base, services, busy)
    ensures AddedOut(fs, base, services, busy)
  {
    hide Kept;
  }

  lemma ForgetOut(fs: Files, base: set<Name>, was: State, left: State, busy: set<Name>, name: Name)
    requires name in left.services && AddedOut(fs, base, left.services, busy + {name})
    ensures AddedOut(fs, base, Forget(was, left, name).services, busy)
  {
    hide Kept;
    var after, key := Forget(was, left, name).services, OrphanKey(|left.orphans|);
    forall n | n in after && n !in base && n !in busy
      ensures fs(n).Found? && LinksOut(after, after[n].deps, Kept(fs, base, fs(n).items))
    {
      assert LinksOut(left.services, left.services[n].deps, Kept(fs, base, fs(n).items));
    }
  }

  lemma {:induction false} FailedOut(fs: Files, base: set<Name>, st: State, busy: set<Name>, name: Name)
    requires base <= st.services.Keys && SameAbsent(fs, base, st.services) && OptionalsResolve(fs, base, name)
    requires AddedExactly(fs, base, st.services, busy) && !LoadService(fs, st, name).1.Loaded?
    ensures AddedOut(fs, base, LoadService(fs, st, name).0.services, busy)
    decreases Budget(st), 0, 0
  {
    hide Kept, OptionalsResolve, CalcDepth, Forget, AddedOut;
    ExactIsOut(fs, base, st.services, busy);
    if st.curDepth < MAX_DEP_DEPTH && name !in st.loading && fs(name).Found? {
      var items, entered := fs(name).items, Enter(st, name);
      EnterAbsent(fs, base, st, name);
      NameResolves(fs, base, name);
      DepsFailedOut(fs, base, entered, busy + {name}, name, items);
      ForgetOut(fs, base, st, LoadDependencies(fs, entered, name, items).0, busy, name);
    }
  }

  lemma {:induction false} DepsFailedOut(fs: Files, base: set<Name>, st: State, busy: set<Name>, name: Name, items: seq<Item>)
    requires base <= st.services.Keys && SameAbsent(fs, base, st.services) && name in st.services && name in busy
    requires LinesResolve(fs, base, items) && forall it :: it in items && it.Link? ==> OptionalsResolve(fs, base, it.target)
    requires AddedExactly(fs, base, st.services, busy) && !LoadDependencies(fs, st, name, items).1.Loaded?
    ensures AddedOut(fs, base, LoadDependencies(fs, st, name, items).0.services, busy)
    decreases Budget(st), 1, |items|
  {
    hide OptionalsResolve, LoadService, Kept, Incomplete, AddedOut;
    if items[0].UnreadableDir? {
      ExactIsOut(fs, base, st.services, busy);
    } else {
      var it := items[0];
      assert it in items;
      var (st', outcome) := LoadService(fs, st, it.target);
      if outcome.Loaded? {
        LoadedLinks(fs, base, st, it.target);
        DepsFailedOut(fs, base, AddDep(st', name, Dep(it.target, it.kind)), busy, name, items[1..]);
      } else if it.optional && outcome.NotFound? {
        NotFoundIsIncomplete(fs, base, st, it.target);
        assert LineResolves(fs, base, it);
        AbsentIsSkipped(fs, base, st, it.target);
        DepsFailedOut(fs, base, st, busy, name, items[1..]);
      } else {
        FailedOut(fs, base, st, busy, it.target);
      }
    }
  }

  // ----- the theorems -----

  ghost predicate PlainNames(services: ServiceMap) {
    forall n :: n in services ==> !Hidden(n)
  }

  lemma {:induction false} LoadKeepsPlain(fs: Files, st: State, name: Name)
    requires PlainNames(st.services)
    ensures PlainNames(LoadService(fs, st, name).0.services)
  {
    hide LoadService;
    LoadAddsNeeded(fs, st, st.services.Keys, name);
  }

  /** In a sound set, a described link of an added service is an edge. */
  lemma DescribedIsEdge(fs: Files, base: set<Name>, after: ServiceMap, n: Name, t: Name)
    requires Sound(after, {}) && AddedLinks(fs, base, after, {}) && PlainNames(after)
    requires n in after && n !in base && Describes(fs, n, t) && !Absent(fs, base, t)
    ensures Edge(SetGraph(after), n, t) && t in after
  {
    hide Kept;
    var it :| it in fs(n).items && it.Link? && it.target == t;
    KeptMember(fs, base, fs(n).items, it);
    var kept, deps := Kept(fs, base, fs(n).items), after[n].deps;
    assert LinksAt(fs, base, deps, n);
    var i :| 0 <= i < |kept| && kept[i] == Dep(t, it.kind);
    assert SoundAt(after, {}, n) && deps[i] in deps && LinkedAs(deps[i], kept[i]);
    EdgeMember(after, n, t);
  }

  /** In a sound set, a chain of descriptions from an added service is a walk. */
  lemma {:induction false} ChainIsWalk(fs: Files, base: set<Name>, after: ServiceMap, p: seq<Name>)
    requires Sound(after, {}) && AddedLinks(fs, base, after, {}) && PlainNames(after)
    requires |p| > 0 && Chain(fs, base, p, p[0]) && p[0] in after && !Absent(fs, base, p[|p| - 1])
    ensures IsWalk(SetGraph(after), p) && forall i :: 0 <= i < |p| ==> p[i] in after
    decreases |p|
  {
    hide Sound, AddedLinks, Edge;
    if |p| > 1 {
      var q := p[1..];
      assert Descends(fs, p, 1);
      assert !Absent(fs, base, p[1]) by { if |p| > 2 { assert Descends(fs, p, 2); } }
      DescribedIsEdge(fs, base, after, p[0], p[1]);
      forall i: nat | 0 < i < |q| ensures Descends(fs, q, i) { assert Descends(fs, p, i + 1); }
      ChainIsWalk(fs, base, after, q);
      forall i: nat | 0 < i < |p| ensures Hop(SetGraph(after), p, i) {
        if i > 1 { assert Hop(SetGraph(after), q, i - 1); }
      }
    }
  }

  /** A chain that comes back to itself is then a cycle. */
  lemma LoopIsCycle(fs: Files, base: set<Name>, after: ServiceMap, p: seq<Name>, j: nat)
    requires Sound(after, {}) && AddedLinks(fs, base, after, {}) && PlainNames(after)
    requires j + 1 < |p| && Chain(fs, base, p, p[0]) && p[0] in after && p[j] == p[|p| - 1]
    ensures HasCycle(SetGraph(after))
  {
    hide Sound, AddedLinks;
    assert Descends(fs, p, j + 1);
    ChainIsWalk(fs, base, after, p);
    WalkSlice(SetGraph(after), p, j, |p|);
    assert IsCycle(SetGraph(after), p[j..|p|]);
  }

  lemma SoundHasNoLoop(fs: Files, base: set<Name>, after: ServiceMap, n: Name)
    requires Sound(after, {}) && AddedLinks(fs, base, after, {}) && PlainNames(after)
    requires n in after && n !in base
    ensures !OnLoop(fs, base, n)
  {
    hide Sound, AddedLinks, HasCycle;
    SoundMeansLongest(after);
    if OnLoop(fs, base, n) {
      var p :| Chain(fs, base, p, n) && |p| > 1 && p[|p| - 1] == n;
      LoopIsCycle(fs, base, after, p, 0);
    }
  }

  /** What was sound before the load still is. */
  lemma OldStaysSound(before: ServiceMap, after: ServiceMap, n: Name)
    requires Sound(before, {}) && Extends(before, after) && n in before
    ensures n in after && SoundAt(after, {}, n)
  {
    assert SoundAt(before, {}, n);
    SoundAtKept(before, {}, after, {}, n);
  }

  /** Whatever the outcome, and whatever optional lines there are: if no service that was added is
      on a loop of descriptions, the set is sound. */
  lemma LoadSoundIf(fs: Files, st: State, name: Name)
    requires Sound(st.services, {})
    requires
      var after := LoadService(fs, st, name).0.services;
      forall n :: n in after && n !in st.services ==> !OnLoop(fs, st.services.Keys, n)
    ensures Sound(LoadService(fs, st, name).0.services, {})
  {
    hide OnLoop, LoadService;
    var base, after := st.services.Keys, LoadService(fs, st, name).0.services;
    LoadAddsSound(fs, base, st, {}, name);
    forall n | n in after ensures SoundAt(after, {}, n) {
      if n in base { OldStaysSound(st.services, after, n); }
    }
  }

  /** Whatever the outcome, the set is sound exactly when no service that was added and is still
      there is on a loop of descriptions. */
  lemma LoadSoundIff(fs: Files, st: State, name: Name)
    requires Sound(st.services, {}) && PlainNames(st.services) && OptionalsResolve(fs, st.services.Keys, name)
    ensures
      var after := LoadService(fs, st, name).0.services;
      Sound(after, {}) <==> forall n :: n in after && n !in st.services ==> !OnLoop(fs, st.services.Keys, n)
  {
    hide OnLoop, LoadService, Sound, OptionalsResolve;
    var base, after := st.services.Keys, LoadService(fs, st, name).0.services;
    LoadLinks(fs, base, st, {}, name);
    LoadKeepsPlain(fs, st, name);
    if Sound(after, {}) {
      forall n | n in after && n !in base ensures !OnLoop(fs, base, n) { SoundHasNoLoop(fs, base, after, n); }
    } else if forall n :: n in after && n !in base ==> !OnLoop(fs, base, n) {
      LoadSoundIf(fs, st, name);
    }
  }

  /** A load that succeeds leaves a sound set exactly when no chain of descriptions from the
      service comes back to itself. */
  lemma LoadedSoundIff(fs: Files, st: State, name: Name)
    requires Sound(st.services, {}) && PlainNames(st.services) && OptionalsResolve(fs, st.services.Keys, name)
    requires LoadService(fs, st, name).1.Loaded?
    ensures Sound(LoadService(fs, st, name).0.services, {}) <==> NoLoop(fs, st.services.Keys, {}, name)
  {
    hide NoLoop, LoadService, Sound, OptionalsResolve;
    if NoLoop(fs, st.services.Keys, {}, name) {
      LoadIsSafe(fs, st, name);
    } else if Sound(LoadService(fs, st, name).0.services, {}) {
      LoadedLoopIsCycle(fs, st, name);
      SoundMeansLongest(LoadService(fs, st, name).0.services);
    }
  }

  lemma LoadedLoopIsCycle(fs: Files, st: State, name: Name)
    requires PlainNames(st.services) && OptionalsResolve(fs, st.services.Keys, name)
    requires LoadService(fs, st, name).1.Loaded? && Sound(LoadService(fs, st, name).0.services, {})
    requires !NoLoop(fs, st.services.Keys, {}, name)
    ensures HasCycle(SetGraph(LoadService(fs, st, name).0.services))
  {
    hide NoLoop, LoadService, Sound, OptionalsResolve, HasCycle;
    var base, after := st.services.Keys, LoadService(fs, st, name).0.services;
    LoadLinks(fs, base, st, {}, name);
    LoadKeepsPlain(fs, st, name);
    var p, j := LoopingChain(fs, base, name);
    LoopIsCycle(fs, base, after, p, j);
  }

  lemma LoopingChain(fs: Files, base: set<Name>, name: Name) returns (p: seq<Name>, j: nat)
    requires !NoLoop(fs, base, {}, name)
    ensures j + 1 < |p| && Chain(fs, base, p, name) && p[j] == p[|p| - 1]
  {
    p :| Chain(fs, base, p, name) && RunsInto(p, {});
    j :| 0 <= j < |p| - 1 && p[..|p| - 1][j] == p[|p| - 1];
  }

  /** The service has a link to a record that is not in the set. */
  ghost predicate Dangles(services: ServiceMap, n: Name)
    requires n in services
  {
    exists d :: d in services[n].deps && d.to !in services
  }

  /** Which services a failed load leaves with a link to one it took out again: exactly those that
      describe a service that is not in the set, though it is not absent either.  They are all on a
      loop of descriptions. */
  lemma WhatDangles(fs: Files, st: State, name: Name, n: Name)
    requires Sound(st.services, {}) && PlainNames(st.services) && OptionalsResolve(fs, st.services.Keys, name)
    requires n in LoadService(fs, st, name).0.services && n !in st.services
    ensures
      var after := LoadService(fs, st, name).0.services;
      && (Dangles(after, n) ==> OnLoop(fs, st.services.Keys, n))
      && (Dangles(after, n) <==> exists t :: Describes(fs, n, t) && !Absent(fs, st.services.Keys, t) && t !in after)
  {
    hide OnLoop, LoadService, OptionalsResolve, Kept, Describes, AddedOut;
    var base, after := st.services.Keys, LoadService(fs, st, name).0.services;
    LoadAddsSound(fs, base, st, {}, name);
    LoadLinks(fs, base, st, {}, name);
    LoadKeepsPlain(fs, st, name);
    if t :| Describes(fs, n, t) && !Absent(fs, base, t) && t !in after {
      DescribedLink(fs, base, after, n, t);
    } else if Dangles(after, n) {
      if LoadService(fs, st, name).1.Loaded? {
        LoadedLinks(fs, base, st, name);
      } else {
        FailedOut(fs, base, st, {}, name);
        var t := DanglingIsDescribed(fs, base, after, n);
      }
    }
  }

  lemma DanglingIsDescribed(fs: Files, base: set<Name>, after: ServiceMap, n: Name) returns (t: Name)
    requires AddedOut(fs, base, after, {}) && n in after && n !in base && Dangles(after, n)
    ensures Describes(fs, n, t) && !Absent(fs, base, t) && t !in after
  {
    hide Kept;
    var deps, kept := after[n].deps, Kept(fs, base, fs(n).items);
    var i :| 0 <= i < |deps| && deps[i].to !in after;
    assert LinksOut(after, deps, kept);
    t := kept[i].to;
    KeptIsDescribed(fs, base, fs(n).items, i);
  }

  lemma {:induction false} KeptIsDescribed(fs: Files, base: set<Name>, items: seq<Item>, i: nat)
    requires i < |Kept(fs, base, items)|
    ensures
      var t := Kept(fs, base, items)[i].to;
      !Absent(fs, base, t) && exists it :: it in items && it.Link? && it.target == t
  {
    if items[0].Link? && !Absent(fs, base, items[0].target) && i == 0 {
      assert items[0] in items;
    } else {
      KeptIsDescribed(fs, base, items[1..], if items[0].Link? && !Absent(fs, base, items[0].target) then i - 1 else i);
    }
  }

  lemma DescribedLink(fs: Files, base: set<Name>, after: ServiceMap, n: Name, t: Name)
    requires n in after && LinksAt(fs, base, after[n].deps, n) && PlainNames(after)
    requires Describes(fs, n, t) && !Absent(fs, base, t) && t !in after
    ensures Dangles(after, n)
  {
    hide Kept;
    var it :| it in fs(n).items && it.Link? && it.target == t;
    KeptMember(fs, base, fs(n).items, it);
    var kept, deps := Kept(fs, base, fs(n).items), after[n].deps;
    var i :| 0 <= i < |kept| && kept[i] == Dep(t, it.kind);
    assert deps[i] in deps && LinkedAs(deps[i], kept[i]);
  }

  // ----- which loads succeed -----

  ghost predicate ChainResolves(fs: Files, base: set<Name>, p: seq<Name>)
    requires |p| > 0
  {
    var last := p[|p| - 1];
    last !in base ==> Resolves(fs, base, last) || (|p| > 1 && fs(last).Missing?)
  }

  /** Everything the descriptions ask for is there, but for absent optional targets. */
  ghost predicate AllResolve(fs: Files, base: set<Name>, a: Name) {
    forall p :: Chain(fs, base, p, a) ==> ChainResolves(fs, base, p)
  }

  ghost predicate ChainShort(base: set<Name>, p: seq<Name>, limit: nat)
    requires |p| > 0
  {
    p[|p| - 1] !in base ==> |p| <= limit
  }

  /** No chain of descriptions has more than `limit` names to load. */
  ghost predicate Short(fs: Files, base: set<Name>, a: Name, limit: nat) {
    forall p :: Chain(fs, base, p, a) ==> ChainShort(base, p, limit)
  }

  lemma ShortFits(fs: Files, base: set<Name>, a: Name, limit: nat)
    requires AllResolve(fs, base, a) && Short(fs, base, a, limit)
    ensures Fits(fs, base, a, limit)
  {
    hide Resolves;
    forall p | Chain(fs, base, p, a) ensures ChainFits(fs, base, p, limit) {
      assert ChainResolves(fs, base, p) && ChainShort(base, p, limit);
    }
  }

  ghost predicate AddedResolve(fs: Files, base: set<Name>, before: ServiceMap, after: ServiceMap) {
    forall n :: n in after && n !in before ==> Resolves(fs, base, n)
  }

  lemma {:induction false} LoadedResolve(fs: Files, base: set<Name>, st: State, name: Name)
    requires base <= st.services.Keys && SameAbsent(fs, base, st.services) && OptionalsResolve(fs, base, name)
    requires LoadService(fs, st, name).1.Loaded?
    ensures AddedResolve(fs, base, st.services, LoadService(fs, st, name).0.services)
    decreases Budget(st), 0, 0
  {
    hide OptionalsResolve, CalcDepth, SameAbsent, Extends;
    if name !in st.services {
      var items, entered := fs(name).items, Enter(st, name);
      EnterAbsent(fs, base, st, name);
      NameResolves(fs, base, name);
      DepsLoadedResolve(fs, base, entered, name, items);
    }
  }

  lemma {:induction false} DepsLoadedResolve(fs: Files, base: set<Name>, st: State, name: Name, items: seq<Item>)
    requires base <= st.services.Keys && SameAbsent(fs, base, st.services) && name in st.services
    requires LinesResolve(fs, base, items)
    requires forall it :: it in items && it.Link? ==> OptionalsResolve(fs, base, it.target)
    requires LoadDependencies(fs, st, name, items).1.Loaded?
    ensures AddedResolve(fs, base, st.services, LoadDependencies(fs, st, name, items).0.services)
    ensures forall it :: it in items ==> it.Link? && (Absent(fs, base, it.target) ==> it.optional)
    decreases Budget(st), 1, |items|
  {
    hide OptionalsResolve, LoadService, Incomplete, Resolves, AddedAsDescribed, AddedClosed;
    if items != [] {
      var it := items[0];
      assert it in items && forall x :: x in items ==> x == it || x in items[1..];
      var (st', outcome) := LoadService(fs, st, it.target);
      if outcome.Loaded? {
        LoadedLinks(fs, base, st, it.target);
        LoadedResolve(fs, base, st, it.target);
        DepsLoadedResolve(fs, base, AddDep(st', name, Dep(it.target, it.kind)), name, items[1..]);
      } else {
        NotFoundIsIncomplete(fs, base, st, it.target);
        assert LineResolves(fs, base, it);
        AbsentIsSkipped(fs, base, st, it.target);
        DepsLoadedResolve(fs, base, st, name, items[1..]);
      }
    }
  }

  lemma {:induction false} ChainIsLoaded(fs: Files, before: ServiceMap, after: ServiceMap, p: seq<Name>)
    requires AddedAsDescribed(fs, before.Keys, before, after) && AddedClosed(before, after)
    requires |p| > 0 && Chain(fs, before.Keys, p, p[0]) && p[0] in after
    ensures p[|p| - 1] in after || (|p| > 1 && fs(p[|p| - 1]).Missing?)
    decreases |p|
  {
    if |p| > 1 {
      hide Kept;
      assert Descends(fs, p, 1);
      var it :| it in fs(p[0]).items && it.Link? && it.target == p[1];
      if |p| > 2 { assert Descends(fs, p, 2); }
      if !Absent(fs, before.Keys, p[1]) {
        KeptMember(fs, before.Keys, fs(p[0]).items, it);
        var q := p[1..];
        forall i: nat | 0 < i < |q| ensures Descends(fs, q, i) { assert Descends(fs, p, i + 1); }
        hide AddedAsDescribed, AddedClosed, Descends;
        assert p[1] in after;
        ChainIsLoaded(fs, before, after, q);
      }
    }
  }

  /** A load that succeeds has found everything that the descriptions ask for. */
  lemma LoadedMeansResolved(fs: Files, st: State, name: Name)
    requires OptionalsResolve(fs, st.services.Keys, name) && LoadService(fs, st, name).1.Loaded?
    ensures AllResolve(fs, st.services.Keys, name)
  {
    hide OptionalsResolve, LoadService, Resolves, AddedAsDescribed, AddedClosed;
    var base, after := st.services.Keys, LoadService(fs, st, name).0.services;
    LoadedLinks(fs, base, st, name);
    LoadedResolve(fs, base, st, name);
    forall p | Chain(fs, base, p, name) ensures ChainResolves(fs, base, p) {
      ChainIsLoaded(fs, st.services, after, p);
    }
  }

  /** Descriptions without loops whose chains fit the depth limit load exactly when everything they
      ask for is there. */
  lemma LoadSucceedsIff(fs: Files, st: State, name: Name)
    requires st.loading == {} && Sound(st.services, {}) && NoLoop(fs, st.services.Keys, {}, name)
    requires OptionalsResolve(fs, st.services.Keys, name) && Short(fs, st.services.Keys, name, Budget(st))
    ensures LoadService(fs, st, name).1.Loaded? <==> AllResolve(fs, st.services.Keys, name)
  {
    hide OptionalsResolve, LoadService, Short, AllResolve, Sound, NoLoop, Fits;
    if LoadService(fs, st, name).1.Loaded? {
      LoadedMeansResolved(fs, st, name);
    }
    if AllResolve(fs, st.services.Keys, name) {
      ShortFits(fs, st.services.Keys, name, Budget(st));
      LoadIsComplete(fs, st, name);
    }
  }

  // ----- an optional line that does not resolve -----

  /** `a` would like to start after `p`; `p` requires `n` and `z`, which nobody describes; and `n`
      requires `a`. */
  ghost predicate HiddenLoop(fs: Files, a: Name, p: Name, n: Name, z: Name) {
    && a != p && a != n && a != z && p != n && p != z && n != z
    && fs(a) == Found([Link(p, After, true)]) && fs(n) == Found([Link(a, Regular, false)])
    && fs(p) == Found([Link(n, Regular, false), Link(z, Regular, false)]) && fs(z).Missing?
  }

  lemma HiddenLoopIsLoop(fs: Files, base: set<Name>, a: Name, p: Name, n: Name, z: Name)
    requires HiddenLoop(fs, a, p, n, z) && {a, p, n, z} !! base
    ensures OnLoop(fs, base, a)
  {
    var q := [a, p, n, a];
    assert fs(a).items[0] in fs(a).items && fs(p).items[0] in fs(p).items && fs(n).items[0] in fs(n).items;
    assert Descends(fs, q, 1) && Descends(fs, q, 2) && Descends(fs, q, 3);
    assert Chain(fs, base, q, a);
  }

  /** `n` has found `a` half loaded, and `p` is about to look for `z`. */
  ghost function HalfWay(st: State, a: Name, p: Name, n: Name): State {
    var e := Enter(Enter(st, a), p);
    AddDep(Settle(e, AddDep(Enter(e, n), n, Dep(a, Regular)), n), p, Dep(n, Regular))
  }

  lemma HalfWaySet(st: State, a: Name, p: Name, n: Name)
    requires a != p && a != n && p != n && {a, p, n} !! st.services.Keys
    ensures HalfWay(st, a, p, n).services ==
            st.services[a := Rec([], 0)][p := Rec([Dep(n, Regular)], 0)][n := Rec([Dep(a, Regular)], 1)]
  {
    var e := Enter(Enter(st, a), p);
    LookedUpSet(e, a, n);
    var found := Settle(e, AddDep(Enter(e, n), n, Dep(a, Regular)), n);
    assert HalfWay(st, a, p, n) == AddDep(found, p, Dep(n, Regular));
    hide Settle, CalcDepth, HalfWay;
    assert e.services[a].depth == 0 && found.services[p] == Rec([], 0);
    AddFirst(found, p, Dep(n, Regular));
    hide AddDep, Enter;
    HalfWayMap(st.services[a := Rec([], 0)], a, p, n);
  }

  lemma AddFirst(st: State, p: Name, d: Dep)
    requires p in st.services && st.services[p] == Rec([], 0)
    ensures AddDep(st, p, d).services == st.services[p := Rec([d], 0)]
  {
    assert [] + [d] == [d];
  }

  lemma HalfWayMap(m: ServiceMap, a: Name, p: Name, n: Name)
    requires p != n
    ensures m[p := Rec([], 0)][n := Rec([Dep(a, Regular)], 1)][p := Rec([Dep(n, Regular)], 0)] ==
            m[p := Rec([Dep(n, Regular)], 0)][n := Rec([Dep(a, Regular)], 1)]
  {
    UpdateBelow(m[p := Rec([], 0)], p, Rec([Dep(n, Regular)], 0), n, Rec([Dep(a, Regular)], 1));
    UpdateTwice(m, p, Rec([], 0), Rec([Dep(n, Regular)], 0));
  }

  lemma UpdateBelow(m: ServiceMap, p: Name, rp: Rec, n: Name, rn: Rec)
    requires p != n
    ensures m[n := rn][p := rp] == m[p := rp][n := rn]
  {
  }

  lemma UpdateTwice(m: ServiceMap, p: Name, r: Rec, r': Rec)
    ensures m[p := r][p := r'] == m[p := r']
  {
  }

  lemma HalfWayFails(fs: Files, st: State, a: Name, p: Name, n: Name, z: Name)
    requires HiddenLoop(fs, a, p, n, z) && {a, p, n, z} !! st.services.Keys + st.loading
    requires st.curDepth + 2 < MAX_DEP_DEPTH
    ensures LoadService(fs, Enter(st, a), p) == (Forget(Enter(st, a), HalfWay(st, a, p, n), p), NotFound)
  {
    hide Forget, CalcDepth, Extends;
    var e := Enter(Enter(st, a), p);
    LoopIsLookedUp(fs, e, a, n);
    var half, items := HalfWay(st, a, p, n), fs(p).items;
    assert items[1..] == [Link(z, Regular, false)];
    HalfWaySet(st, a, p, n);
    assert LoadService(fs, half, z) == (half, NotFound);
    assert LoadDependencies(fs, half, p, items[1..]) == (half, NotFound);
    assert LoadDependencies(fs, e, p, items) == (half, NotFound);
  }

  /** The loop is there in the descriptions, and the set is sound all the same: `p` is taken out
      again as not found, which the optional line tolerates.  So optional lines have to resolve
      for the theorems above. */
  lemma UnresolvedOptionalHidesLoop(fs: Files, st: State, a: Name, p: Name, n: Name, z: Name)
    requires HiddenLoop(fs, a, p, n, z) && {a, p, n, z} !! st.services.Keys + st.loading
    requires Sound(st.services, {}) && st.curDepth + 2 < MAX_DEP_DEPTH
    ensures
      var (st', outcome) := LoadService(fs, st, a);
      && outcome.Loaded? && a in st'.services && OnLoop(fs, st.services.Keys, a) && Sound(st'.services, {})
  {
    hide Sound, OnLoop, LoadService, Settle, Forget, HalfWay;
    HiddenLoopIsLoop(fs, st.services.Keys, a, p, n, z);
    HiddenLoopLoads(fs, st, a, p, n, z);
    HalfWaySet(st, a, p, n);
    HiddenLoopIsSound(st, Forget(Enter(st, a), HalfWay(st, a, p, n), p), a, p, n, HalfWay(st, a, p, n));
  }

  lemma ForgetKeeps(was: State, left: State, name: Name, a: Name)
    requires name in left.services && a in left.services && a != name
    ensures a in Forget(was, left, name).services
  {
  }

  lemma HiddenLoopLoads(fs: Files, st: State, a: Name, p: Name, n: Name, z: Name)
    requires HiddenLoop(fs, a, p, n, z) && {a, p, n, z} !! st.services.Keys + st.loading
    requires st.curDepth + 2 < MAX_DEP_DEPTH
    ensures
      var left := Forget(Enter(st, a), HalfWay(st, a, p, n), p);
      a in left.services && LoadService(fs, st, a) == (Settle(st, left, a), Loaded)
  {
    hide Forget, Settle, HalfWay, Extends;
    HalfWayFails(fs, st, a, p, n, z);
    HalfWaySet(st, a, p, n);
    var e, items := Enter(st, a), fs(a).items;
    ForgetKeeps(e, HalfWay(st, a, p, n), p, a);
    var left := Forget(e, HalfWay(st, a, p, n), p);
    assert items[1..] == [];
    assert LoadDependencies(fs, left, a, []) == (left, Loaded);
    assert LoadDependencies(fs, e, a, items) == (left, Loaded);
  }

  lemma HiddenLoopIsSound(st: State, left: State, a: Name, p: Name, n: Name, half: State)
    requires a != p && a != n && p != n && {a, p, n} !! st.services.Keys && Sound(st.services, {})
    requires half.services == st.services[a := Rec([], 0)][p := Rec([Dep(n, Regular)], 0)][n := Rec([Dep(a, Regular)], 1)]
    requires left == Forget(Enter(st, a), half, p)
    ensures Sound(Settle(st, left, a).services, {})
  {
    var after := Settle(st, left, a).services;
    HiddenLoopSet(st, left, a, p, n, half);
    hide CalcDepth, Settle, Forget;
    NoLinks(after);
    DepthOfLink(after, a);
    forall m | m in after ensures SoundAt(after, {}, m) {
      if m in st.services {
        OldStaysSound(st.services, after, m);
      }
    }
  }

  lemma HiddenLoopSet(st: State, left: State, a: Name, p: Name, n: Name, half: State)
    requires a != p && a != n && p != n && {a, p, n} !! st.services.Keys
    requires half.services == st.services[a := Rec([], 0)][p := Rec([Dep(n, Regular)], 0)][n := Rec([Dep(a, Regular)], 1)]
    requires left == Forget(Enter(st, a), half, p)
    ensures Settle(st, left, a).services == st.services[a := Rec([], 0)][n := Rec([Dep(a, Regular)], 1)]
  {
    hide CalcDepth, RekeyRec, RekeyDepts, RekeyRecs;
    RekeyNothing(half.services[n], p, OrphanKey(|half.orphans|));
    NoLinks(left.services);
    assert left.services == st.services[a := Rec([], 0)][n := Rec([Dep(a, Regular)], 1)];
  }

  lemma NoLinks(services: ServiceMap)
    ensures CalcDepth(services, []) == 0
  {
  }
}
