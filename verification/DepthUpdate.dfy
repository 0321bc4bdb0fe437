/** Recalculating dependency depths after the links of a service changed: a queue of services to
    look at again, which grows by the dependents of every service whose depth changes, and which
    remembers the old depths so that they can be put back. */
module DepthUpdate {
  import opened Graph
  import opened Services
  import opened Loader
  import opened LinkLists

  datatype Snapshot = Snapshot(name: Name, origDepth: nat)

  /** The records, the queue and the position in the queue. */
  datatype Work = Work(services: ServiceMap, changed: seq<Snapshot>, next: nat)

  predicate Queued(changed: seq<Snapshot>, n: Name) {
    exists i :: 0 <= i < |changed| && changed[i].name == n
  }

  function QueuedNames(changed: seq<Snapshot>): (r: set<Name>)
    ensures forall n :: n in r <==> Queued(changed, n)
  {
    set s | s in changed :: s.name
  }

  /** Every record has its dependents listed, and they are records. */
  predicate Listed(dependents: Lists, loaded: set<Name>) {
    forall n :: n in loaded ==> n in dependents && forall x :: x in dependents[n] ==> x in loaded
  }

  predicate Ready(dependents: Lists, w: Work) {
    && w.next <= |w.changed|
    && (forall i :: 0 <= i < |w.changed| ==> w.changed[i].name in w.services)
    && Listed(dependents, w.services.Keys)
  }

  /** Queues the services that are not queued yet. */
  function Enqueue(services: ServiceMap, changed: seq<Snapshot>, names: seq<Name>): (r: seq<Snapshot>)
    requires forall n :: n in names ==> n in services
    decreases |names|
  {
    if names == [] then changed
    else
      var n := names[0];
      Enqueue(services, if Queued(changed, n) then changed else changed + [Snapshot(n, services[n].depth)], names[1..])
  }

  function SetDepth(services: ServiceMap, n: Name, d: nat): (r: ServiceMap)
    requires n in services
    ensures r.Keys == services.Keys
  {
    services[n := services[n].(depth := d)]
  }

  function NewDepth(w: Work): nat
    requires w.next < |w.changed| && w.changed[w.next].name in w.services
  {
    CalcDepth(w.services, w.services[w.changed[w.next].name].deps)
  }

  /** One turn of the queue that does not overflow. */
  function Advance(dependents: Lists, w: Work): (r: Work)
    requires Ready(dependents, w) && w.next < |w.changed|
    ensures Ready(dependents, r) && r.services.Keys == w.services.Keys
    ensures r.next == w.next + 1
    ensures |w.changed| <= |r.changed| && r.changed[..|w.changed|] == w.changed
  {
    var n := w.changed[w.next].name;
    if NewDepth(w) == w.services[n].depth then w.(next := w.next + 1)
    else
      var services := SetDepth(w.services, n, NewDepth(w));
      EnqueueGrows(services, w.changed, dependents[n]);
      Work(services, Enqueue(services, w.changed, dependents[n]), w.next + 1)
  }

  /** The whole queue; false stands for an overflow.  Every service is queued at most once more,
      so this ends on any graph, cycles included. */
  function Process(dependents: Lists, w: Work): (r: (Work, bool))
    requires Ready(dependents, w)
    ensures Ready(dependents, r.0) && r.0.services.Keys == w.services.Keys
    decreases |w.services.Keys - QueuedNames(w.changed)|, |w.changed| - w.next
  {
    if w.next == |w.changed| then (w, true)
    else if NewDepth(w) > MAX_DEP_DEPTH then (w, false)
    else
      AdvanceEnds(dependents, w);
      Process(dependents, Advance(dependents, w))
  }

  /** Puts the old depths back, first to last. */
  function Restore(services: ServiceMap, changed: seq<Snapshot>): (r: ServiceMap)
    requires forall i :: 0 <= i < |changed| ==> changed[i].name in services
    ensures r.Keys == services.Keys
  {
    if changed == [] then services
    else
      var last := |changed| - 1;
      SetDepth(Restore(services, changed[..last]), changed[last].name, changed[last].origDepth)
  }

  lemma RestoreNone(services: ServiceMap)
    ensures Restore(services, []) == services
  {
  }

  lemma RestoreNext(services: ServiceMap, changed: seq<Snapshot>, i: nat)
    requires i < |changed| && forall j :: 0 <= j < |changed| ==> changed[j].name in services
    ensures Restore(services, changed[..i + 1]) == SetDepth(Restore(services, changed[..i]), changed[i].name, changed[i].origDepth)
  {
    assert changed[..i + 1][..i] == changed[..i];
  }

  // ----- the queue -----

  lemma {:induction false} EnqueueGrows(services: ServiceMap, changed: seq<Snapshot>, names: seq<Name>)
    requires forall n :: n in names ==> n in services
    ensures
      var r := Enqueue(services, changed, names);
      && |changed| <= |r| && r[..|changed|] == changed
      && (forall n :: Queued(r, n) <==> Queued(changed, n) || n in names)
      && (forall i :: |changed| <= i < |r| ==> EnteredFresh(services, changed, names, r, i))
    decreases |names|
  {
    if names != [] {
      var n := names[0];
      var one := if Queued(changed, n) then changed else changed + [Snapshot(n, services[n].depth)];
      EnqueueGrows(services, one, names[1..]);
      var r := Enqueue(services, one, names[1..]);
      assert r[..|changed|] == r[..|one|][..|changed|];
      forall m ensures Queued(r, m) <==> Queued(changed, m) || m in names {
        assert Queued(one, m) <==> Queued(changed, m) || m == n by {
          if Queued(changed, m) {
            var i :| 0 <= i < |changed| && changed[i].name == m;
            assert one[i].name == m;
          }
          if m == n && !Queued(changed, n) { assert one[|changed|].name == n; }
        }
      }
      forall i | |changed| <= i < |r| ensures EnteredFresh(services, changed, names, r, i) {
        if i >= |one| {
          assert EnteredFresh(services, one, names[1..], r, i);
          forall j | 0 <= j < i ensures r[j].name != r[i].name {}
        } else {
          assert r[i] == r[..|one|][i] == one[i];
          forall j | 0 <= j < i ensures r[j].name != r[i].name { assert r[j] == r[..|one|][j] == changed[j]; }
        }
      }
    }
  }

  /** A new entry holds a listed service not queued before, with its present depth. */
  ghost predicate EnteredFresh(services: ServiceMap, changed: seq<Snapshot>, names: seq<Name>, r: seq<Snapshot>, i: nat)
    requires i < |r|
  {
    && r[i].name in names && r[i].name in services && r[i].origDepth == services[r[i].name].depth
    && !Queued(changed, r[i].name) && forall j :: 0 <= j < i ==> r[j].name != r[i].name
  }

  /** Queueing something new leaves fewer services that could still be queued. */
  lemma EnqueueEnds(services: ServiceMap, changed: seq<Snapshot>, names: seq<Name>)
    requires forall n :: n in names ==> n in services
    ensures
      var r := Enqueue(services, changed, names);
      r == changed || |services.Keys - QueuedNames(r)| < |services.Keys - QueuedNames(changed)|
  {
    EnqueueGrows(services, changed, names);
    var r := Enqueue(services, changed, names);
    var i := |changed|;
    if r != changed {
      assert EnteredFresh(services, changed, names, r, i);
      assert r[i].name in services.Keys - QueuedNames(changed) && r[i].name !in services.Keys - QueuedNames(r);
      Smaller(services.Keys - QueuedNames(r), services.Keys - QueuedNames(changed));
    }
  }

  lemma AdvanceEnds(dependents: Lists, w: Work)
    requires Ready(dependents, w) && w.next < |w.changed|
    ensures
      var r := Advance(dependents, w);
      var left := |w.services.Keys - QueuedNames(w.changed)|;
      var left' := |r.services.Keys - QueuedNames(r.changed)|;
      left' < left || (left' == left && |r.changed| - r.next < |w.changed| - w.next)
  {
    EnqueueEnds(Advance(dependents, w).services, w.changed, dependents[w.changed[w.next].name]);
  }

  lemma ProcessTurn(dependents: Lists, w: Work)
    requires Ready(dependents, w) && w.next < |w.changed|
    ensures NewDepth(w) <= MAX_DEP_DEPTH ==> Process(dependents, w) == Process(dependents, Advance(dependents, w))
    ensures NewDepth(w) > MAX_DEP_DEPTH ==> Process(dependents, w) == (w, false)
    ensures
      var r := Advance(dependents, w);
      var left := |w.services.Keys - QueuedNames(w.changed)|;
      var left' := |r.services.Keys - QueuedNames(r.changed)|;
      left' < left || (left' == left && |r.changed| - r.next < |w.changed| - w.next)
  {
    AdvanceEnds(dependents, w);
  }

  lemma ProcessDone(dependents: Lists, w: Work)
    requires Ready(dependents, w) && w.next == |w.changed|
    ensures Process(dependents, w) == (w, true)
  {
  }

  // ----- putting the depths back -----

  /** The queue holds the first depth of each service in it; no other service has changed. */
  ghost predicate Remembers(start: ServiceMap, w: Work) {
    && w.services.Keys == start.Keys
    && (forall n :: n in start ==> w.services[n].deps == start[n].deps)
    && (forall i :: 0 <= i < |w.changed| ==> w.changed[i].name in start && w.changed[i].origDepth == start[w.changed[i].name].depth)
    && (forall n :: n in start && !Queued(w.changed, n) ==> w.services[n] == start[n])
  }

  lemma AdvanceRemembers(dependents: Lists, start: ServiceMap, w: Work)
    requires Ready(dependents, w) && w.next < |w.changed| && Remembers(start, w)
    ensures Remembers(start, Advance(dependents, w))
  {
    var n := w.changed[w.next].name;
    var r := Advance(dependents, w);
    assert Queued(w.changed, n);
    if NewDepth(w) != w.services[n].depth {
      EnqueueGrows(r.services, w.changed, dependents[n]);
      forall i | 0 <= i < |r.changed|
        ensures r.changed[i].name in start && r.changed[i].origDepth == start[r.changed[i].name].depth
      {
        if i >= |w.changed| {
          assert EnteredFresh(r.services, w.changed, dependents[n], r.changed, i);
        } else {
          assert r.changed[i] == r.changed[..|w.changed|][i];
        }
      }
    }
  }

  lemma {:induction false} ProcessRemembers(dependents: Lists, start: ServiceMap, w: Work)
    requires Ready(dependents, w) && Remembers(start, w)
    ensures Remembers(start, Process(dependents, w).0)
    decreases |w.services.Keys - QueuedNames(w.changed)|, |w.changed| - w.next
  {
    hide Remembers, Advance;
    if w.next < |w.changed| && NewDepth(w) <= MAX_DEP_DEPTH {
      AdvanceEnds(dependents, w);
      AdvanceRemembers(dependents, start, w);
      ProcessRemembers(dependents, start, Advance(dependents, w));
    }
  }

  lemma {:induction false} RestoreAt(services: ServiceMap, changed: seq<Snapshot>, start: ServiceMap, n: Name)
    requires services.Keys == start.Keys && n in start && services[n].deps == start[n].deps
    requires forall i :: 0 <= i < |changed| ==> changed[i].name in start && changed[i].origDepth == start[changed[i].name].depth
    ensures Restore(services, changed)[n] == if Queued(changed, n) then start[n] else services[n]
  {
    if changed != [] {
      var last := |changed| - 1;
      RestoreAt(services, changed[..last], start, n);
      assert Queued(changed, n) <==> Queued(changed[..last], n) || changed[last].name == n by {
        if Queued(changed[..last], n) {
          var i :| 0 <= i < last && changed[..last][i].name == n;
          assert changed[i].name == n;
        }
        if Queued(changed, n) && changed[last].name != n {
          var i :| 0 <= i < |changed| && changed[i].name == n;
          assert changed[..last][i].name == n;
        }
      }
    }
  }

  /** The services to look at, each with its present depth. */
  function Snapshots(services: ServiceMap, names: seq<Name>): (r: seq<Snapshot>)
    requires forall n :: n in names ==> n in services
    ensures |r| == |names| && forall i :: 0 <= i < |r| ==> r[i] == Snapshot(names[i], services[names[i]].depth)
  {
    seq(|names|, i requires 0 <= i < |names| => Snapshot(names[i], services[names[i]].depth))
  }

  /** However many services were queued at the start, on whatever graph, and however the
      recalculation ended: rolling back gives exactly the set there was before. */
  lemma RollbackIsExact(dependents: Lists, start: ServiceMap, names: seq<Name>)
    requires forall n :: n in names ==> n in start
    requires Ready(dependents, Work(start, Snapshots(start, names), 0))
    ensures
      var w := Process(dependents, Work(start, Snapshots(start, names), 0)).0;
      Restore(w.services, w.changed) == start
  {
    var w0 := Work(start, Snapshots(start, names), 0);
    var w := Process(dependents, w0).0;
    assert Remembers(start, w0);
    ProcessRemembers(dependents, start, w0);
    forall n | n in start ensures Restore(w.services, w.changed)[n] == start[n] {
      RestoreAt(w.services, w.changed, start, n);
    }
  }

  // ----- the updater -----

  /** The loader's state allows a recalculation of the queued records. */
  ghost predicate Recalculable(st: State, changed: seq<Snapshot>) {
    Mirrored(st) && forall i :: 0 <= i < |changed| ==> changed[i].name in Records(st)
  }

  lemma RecalculableIsReady(st: State, changed: seq<Snapshot>)
    requires Recalculable(st, changed)
    ensures Ready(FromLists(st.dependents), Work(Records(st), changed, 0))
  {
    var r, lists := Records(st), FromLists(st.dependents);
    forall n, x | n in r && x in lists[n] ensures x in r {
      FromMember(st.dependents[n], x);
    }
  }

  /** Only depths differ. */
  ghost predicate SameButDepths(st: State, after: State) {
    && after.services.Keys == st.services.Keys && |after.orphans| == |st.orphans|
    && after.dependents == st.dependents && after.loading == st.loading && after.curDepth == st.curDepth
  }

  method SetDepDepth(dl: DirLoader, n: Name, d: nat)
    requires (forall m :: m in dl.services ==> !Hidden(m)) && n in Records(dl.Current())
    modifies dl`services, dl`orphans
    ensures SameButDepths(old(dl.Current()), dl.Current())
    ensures Records(dl.Current()) == SetDepth(old(Records(dl.Current())), n, d)
  {
    if n in dl.services {
      dl.services := dl.services[n := dl.services[n].(depth := d)];
    } else {
      var i := |n| - 1;
      dl.orphans := dl.orphans[i := dl.orphans[i].(depth := d)];
      OtherOrphans(old(dl.Current()), dl.Current(), n);
    }
  }

  lemma OtherOrphans(st: State, after: State, n: Name)
    requires after.services == st.services && |after.orphans| == |st.orphans| && n in Records(st) && n !in st.services
    requires forall i :: 0 <= i < |st.orphans| && i != |n| - 1 ==> after.orphans[i] == st.orphans[i]
    ensures Records(after) == Records(st)[n := after.orphans[|n| - 1]]
  {
    var r, r' := Records(st), Records(after);
    forall m | m in r' ensures r'[m] == if m == n then after.orphans[|n| - 1] else r[m] {
      if m !in st.services && m != n {
        assert m == OrphanKey(|m| - 1) && n == OrphanKey(|n| - 1);
      }
    }
  }

  class DepDepthUpdater {
    var changed: seq<Snapshot>
    var committed: bool

    constructor ()
      ensures changed == [] && !committed
    {
      changed, committed := [], false;
    }

    method AddPotentialUpdate(dl: DirLoader, name: Name)
      requires name in Records(dl.Current())
      modifies this`changed
      ensures changed == old(changed) + [Snapshot(name, Records(dl.Current())[name].depth)]
    {
      changed := changed + [Snapshot(name, Records(dl.Current())[name].depth)];
    }

    method HasService(name: Name) returns (found: bool)
      ensures found == Queued(changed, name)
    {
      for i := 0 to |changed|
        invariant forall j :: 0 <= j < i ==> changed[j].name != name
      {
        if changed[i].name == name {
          return true;
        }
      }
      return false;
    }

    method ProcessUpdates(dl: DirLoader) returns (ok: bool)
      requires Recalculable(dl.Current(), changed)
      modifies this`changed, dl`services, dl`orphans
      ensures SameButDepths(old(dl.Current()), dl.Current())
      ensures Ready(FromLists(dl.dependents), old(Work(Records(dl.Current()), changed, 0)))
      ensures
        var (w, fine) := Process(FromLists(dl.dependents), old(Work(Records(dl.Current()), changed, 0)));
        Records(dl.Current()) == w.services && changed == w.changed && ok == fine
    {
      hide Process, Queued, QueuedNames, NewDepth, Advance, Mirrored, Records, Listed;
      RecalculableIsReady(dl.Current(), changed);
      ghost var before := dl.Current();
      ghost var lists := FromLists(dl.dependents);
      ghost var start := Work(Records(dl.Current()), changed, 0);
      var i := 0;
      while i < |changed|
        invariant SameButDepths(before, dl.Current())
        invariant Ready(lists, Work(Records(dl.Current()), changed, i))
        invariant Process(lists, start) == Process(lists, Work(Records(dl.Current()), changed, i))
        decreases |Records(dl.Current()).Keys - QueuedNames(changed)|, |changed| - i
      {
        ghost var w := Work(Records(dl.Current()), changed, i);
        ProcessTurn(lists, w);
        PlainStays(before, dl.Current());
        var fits := Turn(dl, i);
        if !fits {
          return false;
        }
        i := i + 1;
      }
      ProcessDone(lists, Work(Records(dl.Current()), changed, i));
      return true;
    }

    /** The turn of one record. */
    method Turn(dl: DirLoader, i: nat) returns (fits: bool)
      requires forall m :: m in dl.services ==> !Hidden(m)
      requires Ready(FromLists(dl.dependents), Work(Records(dl.Current()), changed, i)) && i < |changed|
      modifies this`changed, dl`services, dl`orphans
      ensures SameButDepths(old(dl.Current()), dl.Current())
      ensures fits == (old(NewDepth(Work(Records(dl.Current()), changed, i))) <= MAX_DEP_DEPTH)
      ensures !fits ==> dl.Current() == old(dl.Current()) && changed == old(changed)
      ensures fits ==>
        Work(Records(dl.Current()), changed, i + 1) ==
        Advance(FromLists(dl.dependents), old(Work(Records(dl.Current()), changed, i)))
    {
      hide Records, CalcDepth, Advance;
      var records := Records(dl.Current());
      var newDepth := CalcDepth(records, records[changed[i].name].deps);
      fits := newDepth <= MAX_DEP_DEPTH;
      if fits {
        Propagate(dl, i, newDepth);
      }
    }

    method Propagate(dl: DirLoader, i: nat, newDepth: nat)
      requires forall m :: m in dl.services ==> !Hidden(m)
      requires Ready(FromLists(dl.dependents), Work(Records(dl.Current()), changed, i)) && i < |changed|
      requires newDepth == NewDepth(Work(Records(dl.Current()), changed, i))
      modifies this`changed, dl`services, dl`orphans
      ensures SameButDepths(old(dl.Current()), dl.Current())
      ensures
        Work(Records(dl.Current()), changed, i + 1) ==
        Advance(FromLists(dl.dependents), old(Work(Records(dl.Current()), changed, i)))
    {
      hide Records, CalcDepth, NewDepth, SetDepth, Enqueue;
      var n := changed[i].name;
      if newDepth != Records(dl.Current())[n].depth {
        SetDepDepth(dl, n, newDepth);
        EnqueueAll(Records(dl.Current()), FromLists(dl.dependents)[n]);
      }
    }

    method EnqueueAll(records: ServiceMap, names: seq<Name>)
      requires forall n :: n in names ==> n in records
      modifies this`changed
      ensures changed == Enqueue(records, old(changed), names)
    {
      ghost var start := changed;
      for j := 0 to |names|
        invariant Enqueue(records, start, names) == Enqueue(records, changed, names[j..])
      {
        assert names[j..][1..] == names[j + 1..];
        var found := HasService(names[j]);
        if !found {
          changed := changed + [Snapshot(names[j], records[names[j]].depth)];
        }
      }
    }

    method Commit()
      modifies this
      ensures committed && changed == []
    {
      committed, changed := true, [];
    }

    method Rollback(dl: DirLoader)
      requires forall m :: m in dl.services ==> !Hidden(m)
      requires forall i :: 0 <= i < |changed| ==> changed[i].name in Records(dl.Current())
      modifies this`changed, dl`services, dl`orphans
      ensures SameButDepths(old(dl.Current()), dl.Current())
      ensures !committed ==> Records(dl.Current()) == Restore(old(Records(dl.Current())), old(changed)) && changed == []
      ensures committed ==> dl.Current() == old(dl.Current()) && changed == old(changed)
    {
      if committed {
        return;
      }
      hide Records, SetDepth, Restore;
      ghost var before := dl.Current();
      RestoreNone(Records(before));
      for i := 0 to |changed|
        invariant changed == old(changed) && SameButDepths(before, dl.Current())
        invariant Records(dl.Current()) == Restore(old(Records(dl.Current())), changed[..i])
      {
        RestoreNext(Records(before), changed, i);
        SetDepDepth(dl, changed[i].name, changed[i].origDepth);
      }
      assert changed[..|changed|] == changed;
      changed := [];
    }
  }

  lemma PlainStays(st: State, after: State)
    requires Mirrored(st) && SameButDepths(st, after)
    ensures forall m :: m in after.services ==> !Hidden(m)
  {
  }
}
