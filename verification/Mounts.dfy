/** Reloading the automount daemon: four views of the running mounts, reconciled with the unit
    files that are now on disk. */
module Mounts {
  import opened Sequences

  datatype Unit = Unit(name: string, what: string, where: string, fsType: string, options: string,
                       timeout: int, autofsType: string, dirMode: int)

  type Fd = nat

  /** An established mount, and the unit it was set up for. */
  datatype Info = Info(mount: nat, unit: Unit)

  /** Whether a unit differs in a way that needs the mount to be set up again. */
  predicate Changed(a: Unit, b: Unit) {
    a.what != b.what || a.fsType != b.fsType || a.options != b.options || a.timeout != b.timeout
    || a.autofsType != b.autofsType || a.dirMode != b.dirMode
  }

  /** How the system answers the setup of one mount: it may fail, and registering the pipe of a
      mount that was set up may fail too. */
  datatype Answer = SetupFails | RegisterFails | SetUp

  ghost predicate DistinctWhere(units: seq<Unit>) {
    forall i, j :: 0 <= i < j < |units| ==> units[i].where != units[j].where
  }

  ghost predicate OneMountPerPath(m: map<Fd, Info>) {
    forall f, g :: f in m && g in m && m[f].unit.where == m[g].unit.where ==> f == g
  }

  /** Exactly the described paths are mounted, each as described. */
  ghost predicate Runs(m: map<Fd, Info>, units: seq<Unit>) {
    && (forall f :: f in m ==> Described(units, m[f]))
    && (forall u :: u in units ==> Served(m, u))
  }

  /** The two describe the same mount: they differ in nothing but the name of the unit file. */
  ghost predicate Alike(a: Unit, b: Unit) {
    a.(name := b.name) == b
  }

  ghost predicate Described(units: seq<Unit>, i: Info) {
    exists u :: u in units && Alike(i.unit, u)
  }

  ghost predicate Served(m: map<Fd, Info>, u: Unit) {
    exists f :: f in m && Alike(m[f].unit, u)
  }

  /** The comparison of the unit files finds every difference there can be at one path. */
  lemma ChangedIff(a: Unit, b: Unit)
    requires a.where == b.where
    ensures Changed(a, b) <==> !Alike(a, b)
  {
  }

  /** The active mounts without the removed ones. */
  function Without(s: seq<nat>, removed: set<nat>): (r: seq<nat>)
    ensures forall x :: x in r <==> x in s && x !in removed
    ensures Distinct(s) ==> Distinct(r)
    ensures removed == {} ==> r == s
  {
    if s == [] then []
    else
      var n := |s| - 1;
      var rest := Without(s[..n], removed);
      if s[n] in removed then rest else rest + [s[n]]
  }

  /** The unit that counts for each path: the last one listed. */
  function ByPath(units: seq<Unit>): (m: map<string, Unit>)
    ensures forall k :: k in m ==> m[k] in units && m[k].where == k
    ensures forall u :: u in units ==> u.where in m
    ensures DistinctWhere(units) ==> forall u :: u in units ==> m[u.where] == u
  {
    if units == [] then map[]
    else
      var n := |units| - 1;
      assert units == units[..n] + [units[n]];
      ByPath(units[..n])[units[n].where := units[n]]
  }

  /** Picks, for each path, the pipe of a mount there. */
  ghost predicate Indexes(index: map<string, Fd>, m: map<Fd, Info>) {
    && (forall k :: k in index ==> index[k] in m && m[index[k]].unit.where == k)
    && (forall f :: f in m ==> m[f].unit.where in index)
  }

  /** The mount at path `k` has no unit any more, or a changed one. */
  predicate Stale(m: map<Fd, Info>, f: Fd, units: map<string, Unit>)
    requires f in m
  {
    var k := m[f].unit.where;
    k !in units || Changed(m[f].unit, units[k])
  }

  lemma UnusedFd(used: set<Fd>)
    ensures exists f: nat :: f !in used
  {
    var n := Bound(used);
    assert n !in used;
  }

  lemma {:induction false} Bound(used: set<Fd>) returns (n: nat)
    ensures forall x :: x in used ==> x < n
  {
    if used == {} {
      n := 0;
    } else {
      var y :| y in used;
      var m := Bound(used - {y});
      n := if y < m then m else y + 1;
      assert forall x :: x in used ==> x == y || x in used - {y};
    }
  }

  /** The daemon's own view of the mounts (`fdMap`, `active`) and the system's: the pipes that
      epoll watches, and the open mounts with their pipes. */
  datatype View = View(fdMap: map<Fd, Info>, active: seq<nat>, registered: set<Fd>, open: map<nat, Fd>)

  /** The views agree one to one; mounts are numbered below `bound`. */
  ghost predicate Agree(v: View, bound: nat) {
    && v.registered == v.fdMap.Keys
    && (forall f :: f in v.fdMap ==> v.fdMap[f].mount in v.open && v.open[v.fdMap[f].mount] == f)
    && (forall a :: a in v.open ==> a < bound && v.open[a] in v.fdMap && v.fdMap[v.open[a]].mount == a)
    && Distinct(v.active) && (forall a :: a in v.active <==> a in v.open)
  }

  ghost function MountsOf(m: map<Fd, Info>, dropped: set<Fd>): set<nat> {
    set f | f in dropped && f in m :: m[f].mount
  }

  /** Closing some mounts, in all four views. */
  ghost function Close(v: View, dropped: set<Fd>): View {
    var gone := MountsOf(v.fdMap, dropped);
    View(v.fdMap - dropped, Without(v.active, gone), v.registered - dropped, v.open - gone)
  }

  lemma CloseKeepsAgree(v: View, bound: nat, dropped: set<Fd>)
    requires Agree(v, bound)
    ensures Agree(Close(v, dropped), bound)
  {
    var gone := MountsOf(v.fdMap, dropped);
    assert forall f :: f in v.fdMap ==> (v.fdMap[f].mount in gone <==> f in dropped);
  }

  ghost function Open(v: View, f: Fd, i: Info): View {
    View(v.fdMap[f := i], v.active + [i.mount], v.registered + {f}, v.open[i.mount := f])
  }

  lemma OpenKeepsAgree(v: View, bound: nat, f: Fd, u: Unit)
    requires Agree(v, bound) && f !in v.fdMap
    ensures Agree(Open(v, f, Info(bound, u)), bound + 1)
  {
    var active := v.active + [bound];
    assert bound !in v.active;
    assert active[|v.active|] == bound;
    assert forall a :: a in active <==> a in v.active || a == bound;
  }

  /** A mount that is closed before it was registered anywhere leaves no trace in the four views. */
  lemma ReopenedAndClosed(v: View, bound: nat, f: Fd)
    requires Agree(v, bound)
    ensures v.open[bound := f] - {bound} == v.open && Agree(v, bound + 1)
  {
  }

  /** The pipes a sweep over the paths outside `todo` drops. */
  ghost predicate Sweeps(dropped: set<Fd>, m: map<Fd, Info>, index: map<string, Fd>, units: map<string, Unit>, todo: set<string>) {
    forall f :: f in dropped <==>
      f in m && m[f].unit.where in index && index[m[f].unit.where] == f && m[f].unit.where !in todo && Stale(m, f, units)
  }

  lemma SweepStarts(m: map<Fd, Info>, index: map<string, Fd>, units: map<string, Unit>)
    ensures Sweeps({}, m, index, units, index.Keys) && MountsOf(m, {}) == {}
  {
  }

  lemma StaleSame(m: map<Fd, Info>, n: map<Fd, Info>, f: Fd, units: map<string, Unit>)
    requires f in m && f in n && m[f] == n[f]
    ensures Stale(m, f, units) == Stale(n, f, units)
  {
  }

  lemma SweepPath(dropped: set<Fd>, m: map<Fd, Info>, index: map<string, Fd>, units: map<string, Unit>, todo: set<string>, k: string)
    requires Sweeps(dropped, m, index, units, todo) && Indexes(index, m) && k in todo && k in index
    ensures index[k] in m && index[k] !in dropped
    ensures Sweeps(if Stale(m, index[k], units) then dropped + {index[k]} else dropped, m, index, units, todo - {k})
    ensures MountsOf(m, dropped + {index[k]}) == MountsOf(m, dropped) + {m[index[k]].mount}
  {
    var f := index[k];
    assert forall g :: g in dropped + {f} && g in m <==> g == f || (g in dropped && g in m);
  }

  lemma CloseMap(v: View, dropped: set<Fd>)
    ensures Close(v, dropped).fdMap == v.fdMap - dropped
  {
  }

  // ----- what adding does -----

  /** `f` was opened for one of the units at a path that was not served. */
  ghost predicate NewFor(now: map<Fd, Info>, f: Fd, units: seq<Unit>, serving: set<string>)
    requires f in now
  {
    now[f].unit in units && now[f].unit.where !in serving
  }

  ghost predicate Grown(base: map<Fd, Info>, now: map<Fd, Info>, units: seq<Unit>, serving: set<string>) {
    && (forall f :: f in base ==> f in now && now[f] == base[f])
    && (forall f :: f in now && f !in base ==> NewFor(now, f, units, serving))
    && (DistinctWhere(units) ==>
          forall f, g :: f in now && g in now && f !in base && g !in base && now[f].unit.where == now[g].unit.where ==> f == g)
  }

  ghost predicate Mounted(now: map<Fd, Info>, u: Unit) {
    exists f :: f in now && now[f].unit == u
  }

  ghost predicate Complete(now: map<Fd, Info>, units: seq<Unit>, serving: set<string>) {
    forall u :: u in units && u.where !in serving ==> Mounted(now, u)
  }

  /** The units whose set-up succeeds, if it is tried. */
  ghost function Answered(units: seq<Unit>, answers: nat -> Answer): seq<Unit> {
    if units == [] then []
    else
      var n := |units| - 1;
      if answers(n).SetUp? then Answered(units[..n], answers) + [units[n]] else Answered(units[..n], answers)
  }

  lemma AnsweredNext(units: seq<Unit>, answers: nat -> Answer, i: nat)
    requires i < |units|
    ensures Answered(units[..i + 1], answers) ==
            if answers(i).SetUp? then Answered(units[..i], answers) + [units[i]] else Answered(units[..i], answers)
  {
    assert units[..i + 1][..i] == units[..i];
  }

  lemma {:induction false} AnsweredMember(units: seq<Unit>, answers: nat -> Answer, u: Unit)
    ensures u in Answered(units, answers) <==> exists i :: 0 <= i < |units| && units[i] == u && answers(i).SetUp?
  {
    if units != [] {
      var n := |units| - 1;
      AnsweredMember(units[..n], answers, u);
      if i :| 0 <= i < |units| && units[i] == u && answers(i).SetUp? && i < n { assert units[..n][i] == u; }
    }
  }

  lemma {:induction false} AnsweredDistinct(units: seq<Unit>, answers: nat -> Answer)
    requires DistinctWhere(units)
    ensures DistinctWhere(Answered(units, answers)) && forall u :: u in Answered(units, answers) ==> u in units
  {
    if units != [] {
      var n := |units| - 1;
      AnsweredDistinct(units[..n], answers);
      forall u | u in Answered(units[..n], answers) ensures u in units && u.where != units[n].where {
        assert u in units[..n];
      }
    }
  }

  lemma GrownStarts(base: map<Fd, Info>, serving: set<string>)
    ensures Grown(base, base, [], serving) && Complete(base, [], serving)
  {
  }

  lemma GrownLater(base: map<Fd, Info>, now: map<Fd, Info>, units: seq<Unit>, u: Unit, serving: set<string>)
    requires Grown(base, now, units, serving)
    ensures Grown(base, now, units + [u], serving)
    ensures u.where in serving && Complete(now, units, serving) ==> Complete(now, units + [u], serving)
  {
    if DistinctWhere(units + [u]) {
      forall i, j | 0 <= i < j < |units| ensures units[i].where != units[j].where {
        assert (units + [u])[i] == units[i] && (units + [u])[j] == units[j];
      }
    }
    forall f | f in now && f !in base ensures NewFor(now, f, units + [u], serving) {
      assert NewFor(now, f, units, serving);
    }
  }

  lemma GrownOpen(base: map<Fd, Info>, now: map<Fd, Info>, units: seq<Unit>, u: Unit, serving: set<string>, f: Fd, mount: nat)
    requires Grown(base, now, units, serving) && u.where !in serving && f !in now
    ensures Grown(base, now[f := Info(mount, u)], units + [u], serving)
    ensures Complete(now, units, serving) ==> Complete(now[f := Info(mount, u)], units + [u], serving)
  {
    var later := now[f := Info(mount, u)];
    GrownLater(base, now, units, u, serving);
    forall g | g in later && g !in base ensures NewFor(later, g, units + [u], serving) {
      if g != f { assert NewFor(now, g, units + [u], serving); }
    }
    if DistinctWhere(units + [u]) {
      forall g | g in now && g !in base ensures now[g].unit.where != u.where {
        assert NewFor(now, g, units, serving);
        var i :| 0 <= i < |units| && units[i] == now[g].unit;
        assert (units + [u])[i] == units[i] && (units + [u])[|units|] == u;
      }
    }
    if Complete(now, units, serving) {
      forall x | x in units + [u] && x.where !in serving ensures Mounted(later, x) {
        if x in units {
          assert Mounted(now, x);
          var g :| g in now && now[g].unit == x;
          assert later[g].unit == x;
        } else {
          assert later[f].unit == x;
        }
      }
    }
  }

  // ----- what a reload achieves -----

  datatype Loaded = Unreadable | Units(units: seq<Unit>)

  /** One mount per path; whatever runs is described; and a mount is still there exactly when a unit
      describes it as it was. */
  ghost predicate Reconciled(was: map<Fd, Info>, now: map<Fd, Info>, units: seq<Unit>) {
    && OneMountPerPath(now)
    && (forall f :: f in now ==> Described(units, now[f]))
    && (forall f :: f in was ==> (Described(units, was[f]) <==> f in now && now[f] == was[f]))
  }

  lemma DescribedIff(m: map<Fd, Info>, f: Fd, units: seq<Unit>)
    requires f in m && DistinctWhere(units)
    ensures Described(units, m[f]) <==> !Stale(m, f, ByPath(units))
  {
    var byPath := ByPath(units);
    if Described(units, m[f]) {
      var u :| u in units && Alike(m[f].unit, u);
      assert byPath[u.where] == u;
      ChangedIff(m[f].unit, u);
    } else if m[f].unit.where in byPath {
      ChangedIff(m[f].unit, byPath[m[f].unit.where]);
    }
  }

  /** With one mount per path, a full sweep drops exactly the mounts that are not described. */
  lemma SweepDropsUndescribed(m: map<Fd, Info>, units: seq<Unit>, index: map<string, Fd>, dropped: set<Fd>, f: Fd)
    requires OneMountPerPath(m) && DistinctWhere(units) && Indexes(index, m)
    requires Sweeps(dropped, m, index, ByPath(units), {}) && f in m
    ensures f in dropped <==> !Described(units, m[f])
  {
    DescribedIff(m, f, units);
    assert m[index[m[f].unit.where]].unit.where == m[f].unit.where;
  }

  lemma ReloadReconciles(was: map<Fd, Info>, mid: map<Fd, Info>, now: map<Fd, Info>, units: seq<Unit>, ready: seq<Unit>,
                         index: map<string, Fd>, dropped: set<Fd>, serving: set<string>)
    requires OneMountPerPath(was) && DistinctWhere(units) && Indexes(index, was)
    requires Sweeps(dropped, was, index, ByPath(units), {}) && mid == was - dropped
    requires forall k :: k in serving <==> k in index && !Stale(was, index[k], ByPath(units))
    requires Grown(mid, now, ready, serving) && DistinctWhere(ready) && forall u :: u in ready ==> u in units
    ensures Reconciled(was, now, units)
  {
    hide Sweeps, DistinctWhere, Stale, Grown, Described, OneMountPerPath;
    forall f | f in was ensures f in dropped <==> !Described(units, was[f]) {
      SweepDropsUndescribed(was, units, index, dropped, f);
    }
    forall f | f in mid ensures mid[f].unit.where in serving {
      ServesKept(was, units, index, serving, f);
    }
    GrownDescribes(was, mid, now, units, ready, serving);
  }

  /** What was kept and what was added are both described, and no path is served twice. */
  lemma GrownDescribes(was: map<Fd, Info>, mid: map<Fd, Info>, now: map<Fd, Info>, units: seq<Unit>, ready: seq<Unit>, serving: set<string>)
    requires OneMountPerPath(was) && DistinctWhere(ready) && Grown(mid, now, ready, serving) && forall u :: u in ready ==> u in units
    requires mid == map f | f in was && Described(units, was[f]) :: was[f]
    requires forall f :: f in mid ==> mid[f].unit.where in serving
    ensures Reconciled(was, now, units)
  {
    forall f | f in now ensures Described(units, now[f]) {
      if f !in mid {
        assert NewFor(now, f, ready, serving);
        assert Alike(now[f].unit, now[f].unit);
      }
    }
    forall f, g | f in now && g in now && now[f].unit.where == now[g].unit.where ensures f == g {
      if f !in mid { assert NewFor(now, f, ready, serving); }
      if g !in mid { assert NewFor(now, g, ready, serving); }
    }
  }

  lemma ServesKept(m: map<Fd, Info>, units: seq<Unit>, index: map<string, Fd>, serving: set<string>, f: Fd)
    requires OneMountPerPath(m) && DistinctWhere(units) && Indexes(index, m) && f in m && Described(units, m[f])
    requires forall k :: k in serving <==> k in index && !Stale(m, index[k], ByPath(units))
    ensures m[f].unit.where in serving
  {
    DescribedIff(m, f, units);
    assert index[m[f].unit.where] == f;
  }

  /** A unit is served afterwards exactly when it was before, as it is described now, or its set-up
      succeeded. */
  lemma ReloadServes(was: map<Fd, Info>, mid: map<Fd, Info>, now: map<Fd, Info>, units: seq<Unit>, ready: seq<Unit>,
                     index: map<string, Fd>, serving: set<string>, u: Unit)
    requires OneMountPerPath(was) && DistinctWhere(units) && Indexes(index, was) && Reconciled(was, now, units)
    requires forall k :: k in serving <==> k in index && !Stale(was, index[k], ByPath(units))
    requires Grown(mid, now, ready, serving) && Complete(now, ready, serving) && mid.Keys <= was.Keys && (forall f :: f in mid ==> mid[f] == was[f])
    requires u in units && forall x :: x in ready ==> x in units
    ensures Served(now, u) <==> Served(was, u) || u in ready
  {
    hide OneMountPerPath, Stale, ByPath;
    if Served(was, u) {
      var f :| f in was && Alike(was[f].unit, u);
      assert Described(units, was[f]);
    } else if u in ready {
      if u.where in serving {
        ServedStays(was, now, units, index, u);
      } else {
        assert Mounted(now, u);
        var f :| f in now && now[f].unit == u;
        assert Alike(now[f].unit, u);
      }
    }
    if Served(now, u) && !Served(was, u) {
      var f :| f in now && Alike(now[f].unit, u);
      assert f !in mid && NewFor(now, f, ready, serving);
      var i :| 0 <= i < |units| && units[i] == u;
      var j :| 0 <= j < |units| && units[j] == now[f].unit;
      assert i == j by { hide Grown, Complete, Reconciled; }
    }
  }

  lemma ReloadCompletes(now: map<Fd, Info>, was: map<Fd, Info>, units: seq<Unit>)
    requires Reconciled(was, now, units) && forall u :: u in units ==> Served(now, u)
    ensures Runs(now, units)
  {
    hide OneMountPerPath;
  }

  lemma ServedStays(was: map<Fd, Info>, now: map<Fd, Info>, units: seq<Unit>, index: map<string, Fd>, u: Unit)
    requires DistinctWhere(units) && Indexes(index, was) && Reconciled(was, now, units)
    requires u in units && u.where in index && !Stale(was, index[u.where], ByPath(units))
    ensures Served(now, u)
  {
    hide OneMountPerPath;
    var f := index[u.where];
    DescribedIff(was, f, units);
    LastIsOnly(units, u);
    assert now[f] == was[f];
  }

  lemma LastIsOnly(units: seq<Unit>, u: Unit)
    requires DistinctWhere(units) && u in units
    ensures u.where in ByPath(units) && ByPath(units)[u.where] == u
  {
  }

  lemma NothingStale(was: View, units: seq<Unit>, index: map<string, Fd>, dropped: set<Fd>, serving: set<string>)
    requires OneMountPerPath(was.fdMap) && DistinctWhere(units) && Indexes(index, was.fdMap) && Runs(was.fdMap, units)
    requires Sweeps(dropped, was.fdMap, index, ByPath(units), {})
    requires forall k :: k in serving <==> k in index && !Stale(was.fdMap, index[k], ByPath(units))
    ensures Close(was, dropped) == was && forall u :: u in units ==> u.where in serving
  {
    hide DistinctWhere, Stale, Sweeps, OneMountPerPath, Without;
    var m := was.fdMap;
    forall f | f in m ensures f !in dropped && Described(units, m[f]) {
      SweepDropsUndescribed(m, units, index, dropped, f);
    }
    SweepsWithin(m, units, index, dropped);
    assert dropped == {};
    CloseNothing(was);
    forall u | u in units ensures u.where in serving {
      assert Served(m, u);
      var f :| f in m && Alike(m[f].unit, u);
      ServesKept(m, units, index, serving, f);
    }
  }

  lemma CloseNothing(v: View)
    ensures Close(v, {}) == v
  {
    assert MountsOf(v.fdMap, {}) == {};
  }

  lemma SweepsWithin(m: map<Fd, Info>, units: seq<Unit>, index: map<string, Fd>, dropped: set<Fd>)
    requires Sweeps(dropped, m, index, ByPath(units), {})
    ensures dropped <= m.Keys
  {
  }

  /** What a reload comes to: the running mounts are reconciled with the units; a unit is served
      exactly when it was or its set-up succeeded; and if all were, nothing was to be done. */
  lemma ReloadResult(was: View, mid: View, now: map<Fd, Info>, units: seq<Unit>, index: map<string, Fd>, dropped: set<Fd>, serving: set<string>,
                     answers: nat -> Answer)
    requires Indexes(index, was.fdMap) && Sweeps(dropped, was.fdMap, index, ByPath(units), {}) && mid == Close(was, dropped)
    requires forall k :: k in serving <==> k in index && !Stale(was.fdMap, index[k], ByPath(units))
    requires Grown(mid.fdMap, now, Answered(units, answers), serving) && Complete(now, Answered(units, answers), serving)
    ensures OneMountPerPath(was.fdMap) && DistinctWhere(units) ==>
      && Reconciled(was.fdMap, now, units)
      && (forall i :: 0 <= i < |units| ==> (Served(now, units[i]) <==> Served(was.fdMap, units[i]) || answers(i).SetUp?))
      && ((forall i :: 0 <= i < |units| ==> answers(i).SetUp?) ==> Runs(now, units))
      && (Runs(was.fdMap, units) ==> mid == was && forall u :: u in units ==> u.where in serving)
  {
    hide Sweeps, Grown, Complete, Reconciled, Runs, OneMountPerPath, DistinctWhere, Close, Stale, ByPath, Served, Answered, Indexes;
    CloseMap(was, dropped);
    if OneMountPerPath(was.fdMap) && DistinctWhere(units) {
      var ready := Answered(units, answers);
      AnsweredDistinct(units, answers);
      ReloadReconciles(was.fdMap, mid.fdMap, now, units, ready, index, dropped, serving);
      forall i | 0 <= i < |units| ensures Served(now, units[i]) <==> Served(was.fdMap, units[i]) || answers(i).SetUp? {
        ReloadServes(was.fdMap, mid.fdMap, now, units, ready, index, serving, units[i]);
        OnlyAt(units, answers, i);
      }
      if forall i :: 0 <= i < |units| ==> answers(i).SetUp? {
        ReloadCompletes(now, was.fdMap, units);
      }
      if Runs(was.fdMap, units) {
        NothingStale(was, units, index, dropped, serving);
      }
    }
  }

  lemma OnlyAt(units: seq<Unit>, answers: nat -> Answer, i: nat)
    requires DistinctWhere(units) && i < |units|
    ensures units[i] in Answered(units, answers) <==> answers(i).SetUp?
  {
    AnsweredMember(units, answers, units[i]);
    if units[i] in Answered(units, answers) {
      var j :| 0 <= j < |units| && units[j] == units[i] && answers(j).SetUp?;
      assert j == i;
    }
  }

  class MountDaemon {
    var fdMap: map<Fd, Info>
    var active: seq<nat>
    var registered: set<Fd>
    var open: map<nat, Fd>
    var nextMount: nat

    ghost function Current(): View
      reads this
    {
      View(fdMap, active, registered, open)
    }

    constructor ()
      ensures Agree(Current(), nextMount) && fdMap == map[]
    {
      fdMap, active, registered, open, nextMount := map[], [], {}, map[], 0;
    }

    /** Indexes the running mounts by path. */
    method Index() returns (index: map<string, Fd>)
      ensures Indexes(index, fdMap)
    {
      index := map[];
      var todo := fdMap.Keys;
      while todo != {}
        invariant todo <= fdMap.Keys
        invariant forall k :: k in index ==> index[k] in fdMap && fdMap[index[k]].unit.where == k
        invariant forall f :: f in fdMap && f !in todo ==> fdMap[f].unit.where in index
        decreases todo
      {
        var f :| f in todo;
        index := index[fdMap[f].unit.where := f];
        todo := todo - {f};
      }
    }

    /** Tears down the mounts at the indexed paths whose unit is gone or changed.  Closing a
        mount releases its descriptors whether or not the unmount succeeds, and a closed pipe is
        no longer watched. */
    method RemoveStale(index: map<string, Fd>, units: map<string, Unit>)
      returns (serving: set<string>, ghost dropped: set<Fd>)
      requires Agree(Current(), nextMount) && Indexes(index, fdMap)
      modifies this`fdMap, this`active, this`registered, this`open
      ensures Sweeps(dropped, old(fdMap), index, units, {}) && Current() == Close(old(Current()), dropped)
      ensures forall k :: k in serving <==> k in index && !Stale(old(fdMap), index[k], units)
    {
      hide Sweeps, MountsOf, Agree, Without, Stale;
      ghost var was := Current();
      SweepStarts(was.fdMap, index, units);
      var removed: set<nat> := {};
      var todo := index.Keys;
      serving, dropped := {}, {};
      while todo != {}
        invariant todo <= index.Keys && active == was.active
        invariant Sweeps(dropped, was.fdMap, index, units, todo)
        invariant fdMap == was.fdMap - dropped && registered == was.registered - dropped
        invariant removed == MountsOf(was.fdMap, dropped) && open == was.open - removed
        invariant forall k :: k in serving <==> k in index && k !in todo && !Stale(was.fdMap, index[k], units)
        decreases todo
      {
        var k :| k in todo;
        var f := index[k];
        SweepPath(dropped, was.fdMap, index, units, todo, k);
        StaleSame(was.fdMap, fdMap, f, units);
        if Stale(fdMap, f, units) {
          removed := removed + {fdMap[f].mount};
          registered := registered - {f};
          open := open - {fdMap[f].mount};
          fdMap := fdMap - {f};
          dropped := dropped + {f};
        } else {
          serving := serving + {k};
        }
        todo := todo - {k};
      }
      active := Without(active, removed);
    }

    /** Sets up one mount on a pipe the system picks, and registers it everywhere.  A mount whose
        pipe cannot be registered is closed again. */
    method Establish(u: Unit, a: Answer) returns (f: Fd)
      requires Agree(Current(), nextMount)
      modifies this
      ensures Agree(Current(), nextMount)
      ensures a.SetUp? ==> f !in old(fdMap) && fdMap == old(fdMap)[f := Info(old(nextMount), u)]
      ensures !a.SetUp? ==> Current() == old(Current())
    {
      if a.SetupFails? {
        return 0;
      }
      UnusedFd(registered);
      f :| f !in registered;
      var mount := nextMount;
      OpenKeepsAgree(Current(), mount, f, u);
      ReopenedAndClosed(Current(), mount, f);
      open := open[mount := f];
      nextMount := mount + 1;
      if a.RegisterFails? {
        open := open - {mount};
        return;
      }
      registered := registered + {f};
      fdMap := fdMap[f := Info(mount, u)];
      active := active + [mount];
    }

    /** Sets up the units whose path is not served. */
    method AddMissing(units: seq<Unit>, serving: set<string>, answers: nat -> Answer)
      requires Agree(Current(), nextMount)
      modifies this
      ensures Agree(Current(), nextMount)
      ensures Grown(old(fdMap), fdMap, Answered(units, answers), serving)
      ensures Complete(fdMap, Answered(units, answers), serving)
      ensures (forall u :: u in units ==> u.where in serving) ==> Current() == old(Current())
    {
      hide Agree, Grown, Complete;
      ghost var base := fdMap;
      GrownStarts(base, serving);
      assert units[..0] == [];
      for i := 0 to |units|
        invariant Agree(Current(), nextMount) && Grown(base, fdMap, Answered(units[..i], answers), serving)
        invariant Complete(fdMap, Answered(units[..i], answers), serving)
        invariant (forall u :: u in units ==> u.where in serving) ==> Current() == old(Current())
      {
        var u := units[i];
        assert u in units;
        AnsweredNext(units, answers, i);
        ghost var ready := Answered(units[..i], answers);
        GrownLater(base, fdMap, ready, u, serving);
        if u.where !in serving {
          ghost var was, mount := fdMap, nextMount;
          var f := Establish(u, answers(i));
          if answers(i).SetUp? {
            GrownOpen(base, was, ready, u, serving, f, mount);
          }
        }
      }
      assert units[..|units|] == units;
    }

    /** Reconciles the running mounts with the units on disk.  `loaded` is none when the unit
        files could not be read. */
    method Reload(loaded: Loaded, answers: nat -> Answer)
      requires Agree(Current(), nextMount)
      modifies this
      ensures Agree(Current(), nextMount)
      ensures loaded.Unreadable? ==> Current() == old(Current())
      ensures loaded.Units? && OneMountPerPath(old(fdMap)) && DistinctWhere(loaded.units) ==>
        && Reconciled(old(fdMap), fdMap, loaded.units)
        && (forall i :: 0 <= i < |loaded.units| ==>
              (Served(fdMap, loaded.units[i]) <==> Served(old(fdMap), loaded.units[i]) || answers(i).SetUp?))
        && ((forall i :: 0 <= i < |loaded.units| ==> answers(i).SetUp?) ==> Runs(fdMap, loaded.units))
        && (Runs(old(fdMap), loaded.units) ==> Current() == old(Current()))
    {
      if loaded.Unreadable? {
        return;
      }
      hide Agree, Sweeps, Grown, Complete, Reconciled, Runs, OneMountPerPath, DistinctWhere, Close, Stale, Served, Answered;
      var units := loaded.units;
      var byPath := ByPath(units);
      var index := Index();
      ghost var was := Current();
      ghost var dropped;
      var serving;
      serving, dropped := RemoveStale(index, byPath);
      CloseKeepsAgree(was, nextMount, dropped);
      ghost var mid := Current();
      AddMissing(units, serving, answers);
      ReloadResult(was, mid, fdMap, units, index, dropped, serving, answers);
    }
  }
}
