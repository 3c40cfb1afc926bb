/**
 * Template fan-out: one run of a template controller's onChange or onDelete over the CRs of its kind.
 * The three template controllers differ only in type names, so they are modelled once.
 */
module FanOut {
  import opened Base
  import opened ApiObjects
  import opened ApiStore
  import opened Names

  type CrStore = Store<string, Spec>

  /** What the controller reads of a template, and the nodes its selector matched. */
  datatype Order = Order(tk: TemplateKey, dev: string, spec: Spec, nodes: set<string>)

  function Lookup<K, V>(m: map<K, V>, k: K): Option<V> {
    if k in m then Some(m[k]) else None
  }

  function NamesFor(nodes: set<string>, dev: string): set<string> {
    set node | node in nodes :: Join(node, dev)
  }

  function Desired(o: Order): set<string> {
    NamesFor(o.nodes, o.dev)
  }

  /** The node part of a name ending in this device. */
  function NodePart(name: string, dev: string): string {
    if |dev| < |name| then name[..|name| - |dev| - 1] else ""
  }

  /** The CR that CreateOrUpdate is after: created, or with labels and spec overwritten. */
  function Synced(o: Order, node: string, cr: Option<Cr>): Cr {
    match cr
    case None => Fresh(SyncLabels(map[], o.tk, node), o.spec)
    case Some(c) => Edited(c, SyncLabels(c.labels, o.tk, node), o.spec, c.finalizer)
  }

  /** What a run without failures makes of one CR name. */
  function Target(o: Order, name: string, cr: Option<Cr>): Option<Cr> {
    if name in Desired(o) then Some(Synced(o, NodePart(name, o.dev), cr))
    else if cr.Some? && LabelledFor(cr.value, o.tk) then Deleted(cr.value)
    else cr
  }

  /** The CR became the target, up to its resourceVersion; a CR that was on target was not written. */
  predicate Becomes(was: Option<Cr>, now: Option<Cr>, target: Option<Cr>) {
    && now.Some? == target.Some?
    && (now.Some? ==> now.value.(rv := 0) == target.value.(rv := 0))
    && (target == was ==> now == was)
  }

  /** The API traffic of one run that matters for its order. */
  datatype Event = DidSync(name: string) | DidDelete(name: string, ok: bool) | DidReady(ready: bool, reason: string) | DidRelease(ok: bool)

  /** Deletes come after every sync of the run and spare what it synced; Ready=True comes last of all. */
  ghost predicate MakeBeforeBreak(log: seq<Event>, desired: set<string>) {
    && (forall i :: 0 <= i < |log| && log[i].DidDelete? ==>
          log[i].name !in desired && forall d :: d in desired ==> DidSync(d) in log[..i])
    && (forall i :: 0 <= i < |log| && log[i].DidReady? ==> i == |log| - 1)
    && (forall i :: 0 <= i < |log| && log[i].DidReady? && log[i].ready ==>
          forall d :: d in desired ==> DidSync(d) in log[..i])
  }

  lemma NodePartOfJoin(node: string, dev: string)
    ensures NodePart(Join(node, dev), dev) == node
  {
  }

  class Api {
    var crs: CrStore
    var log: seq<Event>
    /** On a reliable server every call succeeds that can. */
    const reliable: bool

    constructor (crs: CrStore, reliable: bool)
      ensures this.crs == crs && log == [] && this.reliable == reliable
    {
      this.crs, log := crs, [];
      this.reliable := reliable;
    }

    method Record(e: Event)
      modifies this`log
      ensures log == old(log) + [e]
    {
      log := log + [e];
    }

    method Get(name: string) returns (ok: bool, cr: Option<Cr>)
      ensures ok ==> cr == Lookup(crs.objs, name)
      ensures reliable ==> ok
    {
      ok := *;
      ok := ok || reliable;
      cr := Lookup(crs.objs, name);
    }

    /** The CRs with the template's labels, by name and in any order. */
    method List(tk: TemplateKey) returns (ok: bool, items: seq<string>)
      ensures ok ==> forall name :: name in items <==> name in crs.objs && LabelledFor(crs.objs[name], tk)
      ensures forall i, j :: 0 <= i < j < |items| ==> items[i] != items[j]
      ensures reliable ==> ok
    {
      ok := *;
      ok := ok || reliable;
      items := [];
      var todo := set name | name in crs.objs && LabelledFor(crs.objs[name], tk);
      while todo != {}
        invariant forall name :: name in items || name in todo <==> name in crs.objs && LabelledFor(crs.objs[name], tk)
        invariant forall name :: name in items ==> name !in todo
        invariant forall i, j :: 0 <= i < j < |items| ==> items[i] != items[j]
      {
        var name :| name in todo;
        items, todo := items + [name], todo - {name};
      }
    }

    method Create(name: string, labels: Labels, spec: Spec) returns (ok: bool)
      modifies this`crs
      ensures ok ==> ApiStore.Create(old(crs), name, labels, spec) == Some(crs)
      ensures !ok ==> crs == old(crs)
      ensures reliable ==> ok == ApiStore.Create(old(crs), name, labels, spec).Some?
    {
      var reached: bool := *;
      var r := ApiStore.Create(crs, name, labels, spec);
      ok := (reliable || reached) && r.Some?;
      if ok {
        crs := r.value;
      }
    }

    method Update(name: string, copy: Cr) returns (ok: bool)
      modifies this`crs
      ensures ok ==> ApiStore.Update(old(crs), name, copy) == Some(crs)
      ensures !ok ==> crs == old(crs)
      ensures reliable ==> ok == ApiStore.Update(old(crs), name, copy).Some?
    {
      var reached: bool := *;
      var r := ApiStore.Update(crs, name, copy);
      ok := (reliable || reached) && r.Some?;
      if ok {
        crs := r.value;
      }
    }

    method Delete(name: string) returns (ok: bool)
      modifies this`crs
      ensures ok ==> ApiStore.Delete(old(crs), name) == Some(crs)
      ensures !ok ==> crs == old(crs)
      ensures reliable ==> ok == ApiStore.Delete(old(crs), name).Some?
    {
      var reached: bool := *;
      var r := ApiStore.Delete(crs, name);
      ok := (reliable || reached) && r.Some?;
      if ok {
        crs := r.value;
      }
    }

    /** Get, then create, update or, when nothing would change, no write at all. */
    method CreateOrUpdate(o: Order, node: string, name: string) returns (ok: bool)
      requires NoZombies(crs)
      modifies this`crs
      ensures NoZombies(crs)
      ensures ok ==> Becomes(Lookup(old(crs).objs, name), Lookup(crs.objs, name), Some(Synced(o, node, Lookup(old(crs).objs, name))))
      ensures !ok ==> crs == old(crs)
      ensures reliable ==> ok
      ensures forall n :: n != name ==> Lookup(crs.objs, n) == Lookup(old(crs).objs, n)
    {
      var cr;
      ok, cr := Get(name);
      if !ok {
        return;
      }
      if cr.None? {
        ok := Create(name, SyncLabels(map[], o.tk, node), o.spec);
        return;
      }
      var labels := SyncLabels(cr.value.labels, o.tk, node);
      if cr.value.labels != labels || cr.value.spec != o.spec {
        ok := Update(name, cr.value.(labels := labels, spec := o.spec));
      }
    }

    /** Creates or updates the CR of every selected node, stopping at the first failure. */
    method SyncAll(o: Order, nodes: seq<string>) returns (ok: bool, desired: set<string>, ghost l: seq<Event>)
      requires Lists(nodes, o.nodes) && NoZombies(crs)
      modifies this
      ensures NoZombies(crs)
      ensures log == old(log) + l && forall e :: e in l ==> e.DidSync?
      ensures ok ==> desired == Desired(o) && forall d :: d in desired ==> DidSync(d) in l
      ensures ok ==> Reached(old(crs), crs, o, desired)
      ensures Reachable(old(crs), crs, o)
      ensures reliable ==> ok
    {
      ok, desired, l := true, {}, [];
      for i := 0 to |nodes|
        invariant NoZombies(crs)
        invariant desired == NamesFor(SetOf(nodes[..i]), o.dev)
        invariant log == old(log) + l && forall e :: e in l ==> e.DidSync?
        invariant forall d :: d in desired ==> DidSync(d) in l
        invariant ok
        invariant Reached(old(crs), crs, o, desired)
      {
        ghost var before := crs;
        var name := Join(nodes[i], o.dev);
        NotYet(nodes, i, o.dev);
        ok := CreateOrUpdate(o, nodes[i], name);
        if !ok {
          return;
        }
        SyncReaches(old(crs), before, crs, o, nodes[i], desired);
        Record(DidSync(name));
        l := l + [DidSync(name)];
        desired := desired + {name};
        NamesForNext(nodes, i, o.dev);
      }
      assert nodes[..|nodes|] == nodes;
      assert SetOf(nodes) == o.nodes;
    }

    /** Deletes what still carries the template's labels and is not desired; failures are only logged. */
    method DeleteOrphans(o: Order, desired: set<string>) returns (ok: bool, ghost l: seq<Event>)
      requires desired == Desired(o) && NoZombies(crs)
      modifies this
      ensures NoZombies(crs)
      ensures log == old(log) + l && forall e :: e in l ==> e.DidDelete? && e.name !in desired
      ensures exists spared: set<string> ::
                && Cleared(old(crs), crs, o, spared)
                && (ok && (forall e :: e in l ==> e.ok) ==> spared == {})
      ensures reliable ==> ok && forall e :: e in l ==> e.ok
    {
      l := [];
      var items;
      ok, items := List(o.tk);
      ghost var s0, spared := crs, OrphanNames(crs, o);
      assert Cleared(s0, crs, o, spared);
      if !ok {
        return;
      }
      for i := 0 to |items|
        invariant NoZombies(crs)
        invariant log == old(log) + l && forall e :: e in l ==> e.DidDelete? && e.name !in desired
        invariant reliable ==> forall e :: e in l ==> e.ok
        invariant Cleared(s0, crs, o, spared)
        invariant spared <= OrphanNames(s0, o)
        invariant forall name :: name in spared ==> name in items[i..] || DidDelete(name, false) in l
        invariant forall name :: name in items[i..] && name !in desired ==> name in spared
      {
        ghost var name := items[i];
        assert items[i..] == [name] + items[i + 1..];
        assert name in items && name !in items[i + 1..];
        if items[i] !in desired {
          ghost var before := crs;
          var deleted := Delete(items[i]);
          Record(DidDelete(items[i], deleted));
          l := l + [DidDelete(items[i], deleted)];
          if deleted {
            DeleteClears(s0, before, crs, o, spared, name);
            spared := spared - {name};
          }
        }
      }
    }

    /**
     * One onChange run. `nodes` is the node list the selector matched, None when the selector is invalid.
     * When nothing fails needlessly the run succeeds.
     */
    method OnChange(o: Order, nodes: Option<seq<string>>) returns (ok: bool, ghost l: seq<Event>)
      requires nodes.Some? ==> Lists(nodes.value, o.nodes)
      requires NoZombies(crs)
      modifies this
      ensures NoZombies(crs)
      ensures log == old(log) + l && MakeBeforeBreak(l, Desired(o))
      ensures ok <==> DidReady(true, "ReconcileSucceeded") in l
      ensures Reachable(old(crs), crs, o)
      ensures ok && (forall e :: e in l && e.DidDelete? ==> e.ok) ==> Reached(old(crs), crs, o, Everywhere(old(crs), o))
      ensures nodes.None? ==> l == [DidReady(false, "InvalidSelector")] && crs == old(crs)
      ensures reliable && nodes.Some? ==> ok && Reached(old(crs), crs, o, Everywhere(old(crs), o))
    {
      l := [];
      if nodes.None? {
        Record(DidReady(false, "InvalidSelector"));
        return false, [DidReady(false, "InvalidSelector")];
      }
      var listed: bool := *;
      if !listed && !reliable {
        return false, [];
      }
      ghost var synced, deletes;
      var desired;
      ok, desired, synced := SyncAll(o, nodes.value);
      l := synced;
      if !ok {
        Record(DidReady(false, "ReconcileError"));
        l := synced + [] + [DidReady(false, "ReconcileError")];
        SyncsThenDeletes(synced, [], [DidReady(false, "ReconcileError")], Desired(o));
        return;
      }
      ghost var s1 := crs;
      ok, deletes := DeleteOrphans(o, desired);
      ghost var spared :| Cleared(s1, crs, o, spared) && (ok && (forall e :: e in deletes ==> e.ok) ==> spared == {});
      SyncedThenCleared(old(crs), s1, crs, o, spared);
      l := synced + deletes;
      if !ok {
        SyncsThenDeletes(synced, deletes, [], desired);
        assert l == synced + deletes + [];
        return;
      }
      Record(DidReady(true, "ReconcileSucceeded"));
      l := synced + deletes + [DidReady(true, "ReconcileSucceeded")];
      SyncsThenDeletes(synced, deletes, [DidReady(true, "ReconcileSucceeded")], desired);
    }

    /**
     * One onDelete run: deletes every CR with the template's labels, then gives up the template's own
     * finalizer, whether or not the deletes worked.
     */
    method OnDelete(o: Order) returns (ok: bool, ghost l: seq<Event>)
      requires o.nodes == {} && NoZombies(crs)
      modifies this
      ensures NoZombies(crs)
      ensures log == old(log) + l
      ensures forall i :: 0 <= i < |l| && l[i].DidRelease? ==> i == |l| - 1 && l[i].ok == ok
      ensures ok ==> l != [] && l[|l| - 1].DidRelease?
      ensures ok && (forall e :: e in l && e.DidDelete? ==> e.ok) ==>
                forall name :: name in crs.objs && LabelledFor(crs.objs[name], o.tk) ==> crs.objs[name].terminating
      ensures forall name :: name in old(crs).objs && !LabelledFor(old(crs).objs[name], o.tk) ==> Lookup(crs.objs, name) == Lookup(old(crs).objs, name)
      ensures Reachable(old(crs), crs, o) && crs.objs.Keys <= old(crs).objs.Keys
      ensures reliable ==> ok && forall e :: e in l && e.DidDelete? ==> e.ok
    {
      ghost var s0 := crs;
      ok, l := DeleteOrphans(o, {});
      ghost var spared :| Cleared(s0, crs, o, spared) && (ok && (forall e :: e in l ==> e.ok) ==> spared == {});
      assert forall i :: 0 <= i < |l| ==> l[i] in l;
      OnlyOwnCleared(s0, crs, o, spared);
      if !ok {
        return;
      }
      ghost var deletes := l;
      ok := *;
      ok := ok || reliable;
      Record(DidRelease(ok));
      l := l + [DidRelease(ok)];
      assert forall e :: e in deletes ==> e in l && e.DidDelete?;
      forall name | name in crs.objs && LabelledFor(crs.objs[name], o.tk) && spared == {}
        ensures crs.objs[name].terminating
      {
        assert Lookup(crs.objs, name).Some? && (name in OrphanNames(s0, o) || Lookup(crs.objs, name) == Lookup(s0.objs, name));
      }
    }
  }

  function SetOf(s: seq<string>): set<string> {
    set x | x in s
  }

  /** The list holds each selected node once. */
  ghost predicate Lists(nodes: seq<string>, selected: set<string>) {
    && (forall n :: n in nodes <==> n in selected)
    && forall i, j :: 0 <= i < j < |nodes| ==> nodes[i] != nodes[j]
  }

  lemma NotYet(nodes: seq<string>, i: nat, dev: string)
    requires i < |nodes| && forall j, k :: 0 <= j < k < |nodes| ==> nodes[j] != nodes[k]
    ensures Join(nodes[i], dev) !in NamesFor(SetOf(nodes[..i]), dev)
  {
    if Join(nodes[i], dev) in NamesFor(SetOf(nodes[..i]), dev) {
      var n :| n in nodes[..i] && Join(n, dev) == Join(nodes[i], dev);
      NodePartOfJoin(n, dev);
      NodePartOfJoin(nodes[i], dev);
    }
  }

  /** The names in `done` are on target, all others untouched. */
  ghost predicate Reached(s0: CrStore, s: CrStore, o: Order, done: set<string>) {
    forall name ::
      var was, now := Lookup(s0.objs, name), Lookup(s.objs, name);
      if name in done then Becomes(was, now, Target(o, name, was)) else now == was
  }

  /** Even after failures each CR is either untouched or on target. */
  ghost predicate Reachable(s0: CrStore, s: CrStore, o: Order) {
    forall name ::
      var was, now := Lookup(s0.objs, name), Lookup(s.objs, name);
      now == was || Becomes(was, now, Target(o, name, was))
  }

  lemma SyncReaches(s0: CrStore, s: CrStore, s': CrStore, o: Order, node: string, done: set<string>)
    requires Reached(s0, s, o, done) && node in o.nodes && Join(node, o.dev) !in done
    requires var name := Join(node, o.dev);
             && Becomes(Lookup(s.objs, name), Lookup(s'.objs, name), Some(Synced(o, node, Lookup(s.objs, name))))
             && forall n :: n != name ==> Lookup(s'.objs, n) == Lookup(s.objs, n)
    ensures Reached(s0, s', o, done + {Join(node, o.dev)})
  {
    NodePartOfJoin(node, o.dev);
    assert Join(node, o.dev) in Desired(o);
  }

  lemma NamesForNext(nodes: seq<string>, i: nat, dev: string)
    requires i < |nodes|
    ensures NamesFor(SetOf(nodes[..i + 1]), dev) == NamesFor(SetOf(nodes[..i]), dev) + {Join(nodes[i], dev)}
  {
    assert nodes[..i + 1] == nodes[..i] + [nodes[i]];
    assert SetOf(nodes[..i + 1]) == SetOf(nodes[..i]) + {nodes[i]};
  }

  function OrphanNames(s: CrStore, o: Order): set<string> {
    set name | name in s.objs && LabelledFor(s.objs[name], o.tk) && name !in Desired(o)
  }

  /** Every orphan is deleted except the spared ones, whose delete failed or was not tried. */
  ghost predicate Cleared(s0: CrStore, s: CrStore, o: Order, spared: set<string>) {
    forall name ::
      var was, now := Lookup(s0.objs, name), Lookup(s.objs, name);
      if name in OrphanNames(s0, o) && name !in spared then Becomes(was, now, Target(o, name, was)) else now == was
  }

  lemma DeleteClears(s0: CrStore, s: CrStore, s': CrStore, o: Order, spared: set<string>, name: string)
    requires Cleared(s0, s, o, spared) && name in spared && name in OrphanNames(s0, o)
    requires ApiStore.Delete(s, name) == Some(s')
    ensures Cleared(s0, s', o, spared - {name})
  {
    assert Lookup(s.objs, name) == Lookup(s0.objs, name);
    forall n
      ensures n != name ==> Lookup(s'.objs, n) == Lookup(s.objs, n)
    {
    }
  }

  lemma SyncedThenCleared(s0: CrStore, s1: CrStore, s2: CrStore, o: Order, spared: set<string>)
    requires Reached(s0, s1, o, Desired(o)) && Cleared(s1, s2, o, spared)
    ensures Reachable(s0, s2, o)
    ensures spared == {} ==> Reached(s0, s2, o, Everywhere(s0, o))
  {
    forall name
      ensures var was, now := Lookup(s0.objs, name), Lookup(s2.objs, name);
              && (now == was || Becomes(was, now, Target(o, name, was)))
              && (spared == {} ==> if name in Everywhere(s0, o) then Becomes(was, now, Target(o, name, was)) else now == was)
    {
      assert Lookup(s1.objs, name) == Lookup(s0.objs, name) || name in Desired(o);
      assert name in OrphanNames(s1, o) <==> name !in Desired(o) && name in s0.objs && LabelledFor(s0.objs[name], o.tk);
    }
  }

  lemma SyncsThenDeletes(synced: seq<Event>, deletes: seq<Event>, last: seq<Event>, desired: set<string>)
    requires |last| <= 1 && forall e :: e in last ==> e.DidReady?
    requires forall e :: e in synced ==> e.DidSync?
    requires (deletes == [] && forall e :: e in last ==> !e.ready) || forall d :: d in desired ==> DidSync(d) in synced
    requires forall e :: e in deletes ==> e.DidDelete? && e.name !in desired
    ensures MakeBeforeBreak(synced + deletes + last, desired)
  {
    var log := synced + deletes + last;
    forall i | 0 <= i < |log|
      ensures log[i] in if i < |synced| then synced else if i < |synced| + |deletes| then deletes else last
    {
    }
    forall i, d | |synced| <= i < |log| && d in desired && DidSync(d) in synced
      ensures DidSync(d) in log[..i]
    {
      assert log[..i] == synced + log[|synced|..i];
    }
  }

  /** For a template that wants no CR, clearing is about the CRs with its labels alone. */
  lemma OnlyOwnCleared(s0: CrStore, s: CrStore, o: Order, spared: set<string>)
    requires Cleared(s0, s, o, spared) && o.nodes == {}
    ensures forall name :: name in s0.objs && !LabelledFor(s0.objs[name], o.tk) ==> Lookup(s.objs, name) == Lookup(s0.objs, name)
    ensures Reachable(s0, s, o) && s.objs.Keys <= s0.objs.Keys
  {
    forall name | name in s.objs ensures name in s0.objs {
      assert Lookup(s.objs, name).Some?;
    }
  }

  function Everywhere(s: CrStore, o: Order): set<string> {
    s.objs.Keys + Desired(o)
  }

  /** Stored objects being deleted still carry the finalizer that holds them. */
  ghost predicate NoZombies(s: CrStore) {
    forall name :: name in s.objs && s.objs[name].terminating ==> s.objs[name].finalizer
  }
}
