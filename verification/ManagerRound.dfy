/**
 * The machine's template worker against the fan-out specification: an undisturbed round of steps for a
 * live template, in whatever order its lists are gone through, puts every CR of the kind on target.
 */
module ManagerRound {
  import opened Base
  import opened ApiObjects
  import opened ApiStore
  import opened Names
  import F = FanOut
  import L = FanOutLaws
  import opened Protocol
  import opened ProtocolInvariant

  /** The CRs of one kind, by name. */
  function ByName(crs: CrStore, k: Kind): F.CrStore {
    Store(map name | name in (set key | key in crs.objs && key.kind == k :: key.name) :: crs.objs[CrKey(k, name)], crs.rv)
  }

  lemma ByNameAt(crs: CrStore, k: Kind, name: string)
    ensures F.Lookup(ByName(crs, k).objs, name) == Lookup(crs.objs, CrKey(k, name))
  {
  }

  function OrderOf(tk: TemplateKey, t: Template, nodes: set<string>): F.Order {
    F.Order(tk, t.spec.devName, t.spec.spec, nodes)
  }

  /** One undisturbed reconcile of this template in which every delete reaches the server. */
  ghost predicate Round(v: ManagerView, k: Kind, tk: TemplateKey, nodes: set<string>, acts: seq<ManagerAct>) {
    && v.pc.MIdle? && acts != [] && acts[0] == MGet(tk) && ManagerRuns(v, k, acts).pc.MIdle?
    && forall i :: 0 < i < |acts| ==> RoundAct(acts[i], nodes)
  }

  predicate RoundAct(a: ManagerAct, nodes: set<string>) {
    match a
    case MGet(_) => false
    case MNodes(ns) => ns == nodes
    case MBadSelector => false
    case MTake(_, ok) => ok
    case MGo => true
    case MCrash => false
  }

  ghost predicate OnTargetBut(s0: F.CrStore, s: F.CrStore, o: F.Order, todo: set<string>) {
    forall name ::
      var was, now := F.Lookup(s0.objs, name), F.Lookup(s.objs, name);
      if name in todo && name !in F.Desired(o) then now == was else F.Becomes(was, now, F.Target(o, name, was))
  }

  /** What is on the list and not desired is still labelled. */
  ghost predicate Orphans(s: F.CrStore, o: F.Order, todo: set<string>) {
    forall name :: name in todo && name !in F.Desired(o) ==> name in s.objs && LabelledFor(s.objs[name], o.tk)
  }

  /** How far the round has got. */
  ghost predicate Progress(s0: F.CrStore, s: F.CrStore, o: F.Order, pc: ManagerPc, t: Template) {
    match pc
    case MListNodes(tk, tmpl) => tk == o.tk && tmpl == t && s == s0
    case MSync(tk, tmpl, nodes, todo) =>
      tk == o.tk && tmpl == t && nodes == o.nodes && todo <= nodes && F.Reached(s0, s, o, F.NamesFor(nodes - todo, o.dev))
    case MPut(tk, tmpl, nodes, todo, node, got) =>
      && tk == o.tk && tmpl == t && nodes == o.nodes && todo <= nodes && node in nodes && node !in todo
      && got == F.Lookup(s.objs, Join(node, o.dev))
      && F.Reached(s0, s, o, F.NamesFor(nodes - todo - {node}, o.dev))
    case MOrphans(tk, tmpl, nodes, todo) => tk == o.tk && tmpl == t && nodes == o.nodes && OnTargetBut(s0, s, o, todo) && Orphans(s, o, todo)
    case MReady(tk, tmpl, c) => tk == o.tk && c.ready && OnTargetBut(s0, s, o, {})
    case MIdle => OnTargetBut(s0, s, o, {})
    case _ => false
  }

  lemma PutLeavesOthers(crs: CrStore, k: Kind, o: F.Order, t: Template, node: string, got: Option<Cr>, crs': CrStore)
    requires PutCr(crs, k, o.tk, t, node, got) == Some(crs') && t.spec.devName == o.dev
    ensures forall n :: n != Join(node, o.dev) ==> F.Lookup(ByName(crs', k).objs, n) == F.Lookup(ByName(crs, k).objs, n)
  {
    forall n | n != Join(node, o.dev) ensures F.Lookup(ByName(crs', k).objs, n) == F.Lookup(ByName(crs, k).objs, n) {
      PutCrElsewhere(crs, k, o.tk, t, node, got, CrKey(k, n));
      ByNameAt(crs, k, n);
      ByNameAt(crs', k, n);
    }
  }

  lemma CreateBecomes(crs: CrStore, key: CrKey, o: F.Order, node: string)
    requires key !in crs.objs
    ensures var r := Create(crs, key, SyncLabels(map[], o.tk, node), o.spec);
            r.Some? && F.Becomes(None, Lookup(r.value.objs, key), Some(F.Synced(o, node, None)))
  {
  }

  lemma UpdateBecomes(crs: CrStore, key: CrKey, o: F.Order, node: string, copy: Cr)
    requires key in crs.objs && crs.objs[key] == copy && (copy.terminating ==> copy.finalizer)
    ensures var r := Update(crs, key, copy.(labels := SyncLabels(copy.labels, o.tk, node), spec := o.spec));
            r.Some? && F.Becomes(Some(copy), Lookup(r.value.objs, key), Some(F.Synced(o, node, Some(copy))))
  {
  }

  /** An undisturbed sync succeeds and brings its CR on target. */
  lemma PutBecomes(crs: CrStore, k: Kind, o: F.Order, t: Template, node: string, got: Option<Cr>)
    requires CrsOk(crs) && o == OrderOf(o.tk, t, o.nodes) && got == Lookup(crs.objs, CrKey(k, Join(node, o.dev)))
    ensures var r := PutCr(crs, k, o.tk, t, node, got);
            r.Some? && F.Becomes(got, Lookup(r.value.objs, CrKey(k, Join(node, o.dev))), Some(F.Synced(o, node, got)))
  {
    var key := CrKey(k, Join(node, o.dev));
    if key in crs.objs {
      UpdateBecomes(crs, key, o, node, crs.objs[key]);
    } else {
      CreateBecomes(crs, key, o, node);
    }
  }

  lemma NotYetReached(done: set<string>, node: string, dev: string)
    requires node !in done
    ensures Join(node, dev) !in F.NamesFor(done, dev)
  {
    forall n | n in done ensures Join(n, dev) != Join(node, dev) {
      F.NodePartOfJoin(n, dev);
      F.NodePartOfJoin(node, dev);
    }
  }

  lemma PutReached(s0: F.CrStore, crs: CrStore, k: Kind, o: F.Order, t: Template, node: string, got: Option<Cr>, done: set<string>)
    requires CrsOk(crs) && o == OrderOf(o.tk, t, o.nodes) && got == Lookup(crs.objs, CrKey(k, Join(node, o.dev)))
    requires F.Reached(s0, ByName(crs, k), o, F.NamesFor(done, o.dev)) && node in o.nodes && node !in done
    ensures var r := PutCr(crs, k, o.tk, t, node, got);
            r.Some? && F.Reached(s0, ByName(r.value, k), o, F.NamesFor(done + {node}, o.dev))
  {
    PutBecomes(crs, k, o, t, node, got);
    var crs' := PutCr(crs, k, o.tk, t, node, got).value;
    PutLeavesOthers(crs, k, o, t, node, got, crs');
    ByNameAt(crs, k, Join(node, o.dev));
    ByNameAt(crs', k, Join(node, o.dev));
    NotYetReached(done, node, o.dev);
    F.SyncReaches(s0, ByName(crs, k), ByName(crs', k), o, node, F.NamesFor(done, o.dev));
    assert F.NamesFor(done, o.dev) + {Join(node, o.dev)} == F.NamesFor(done + {node}, o.dev);
  }

  lemma PutProgress(s0: F.CrStore, v: ManagerView, k: Kind, o: F.Order, t: Template)
    requires ViewOk(v, k) && v.pc.MPut? && o == OrderOf(v.pc.tk, t, o.nodes) && Progress(s0, ByName(v.crs, k), o, v.pc, t)
    ensures Progress(s0, ByName(ManagerGo(v, k).crs, k), o, ManagerGo(v, k).pc, t)
  {
    var done := v.pc.nodes - v.pc.todo - {v.pc.node};
    ByNameAt(v.crs, k, Join(v.pc.node, o.dev));
    PutReached(s0, v.crs, k, o, t, v.pc.node, v.pc.got, done);
    assert done + {v.pc.node} == v.pc.nodes - v.pc.todo;
  }

  lemma OrphansStart(s0: F.CrStore, s: F.CrStore, o: F.Order, todo: set<string>)
    requires F.Reached(s0, s, o, F.Desired(o)) && todo == (set name | name in s.objs && LabelledFor(s.objs[name], o.tk))
    ensures OnTargetBut(s0, s, o, todo) && Orphans(s, o, todo)
  {
  }

  lemma OwnedNames(crs: CrStore, tk: TemplateKey)
    ensures Owned(crs, tk) == (set name | name in ByName(crs, tk.kind).objs && LabelledFor(ByName(crs, tk.kind).objs[name], tk))
  {
    forall name ensures name in Owned(crs, tk) <==> name in ByName(crs, tk.kind).objs && LabelledFor(ByName(crs, tk.kind).objs[name], tk) {
      ByNameAt(crs, tk.kind, name);
      assert CrKey(tk.kind, name).name == name;
    }
  }

  lemma DeleteBecomes(crs: CrStore, key: CrKey)
    requires key in crs.objs && (crs.objs[key].terminating ==> crs.objs[key].finalizer)
    ensures F.Becomes(Some(crs.objs[key]), Lookup(Or(Delete(crs, key), crs).objs, key), Deleted(crs.objs[key]))
    ensures forall other :: other != key ==> Lookup(Or(Delete(crs, key), crs).objs, other) == Lookup(crs.objs, other)
  {
  }

  lemma OneOrphanLess(s0: F.CrStore, s: F.CrStore, s': F.CrStore, o: F.Order, todo: set<string>, item: string)
    requires OnTargetBut(s0, s, o, todo) && Orphans(s, o, todo) && item in todo && item !in F.Desired(o)
    requires F.Becomes(Some(s.objs[item]), F.Lookup(s'.objs, item), Deleted(s.objs[item]))
    requires forall name :: name != item ==> F.Lookup(s'.objs, name) == F.Lookup(s.objs, name)
    ensures OnTargetBut(s0, s', o, todo - {item}) && Orphans(s', o, todo - {item})
  {
    forall name | name in todo - {item} && name !in F.Desired(o)
      ensures name in s'.objs && LabelledFor(s'.objs[name], o.tk)
    {
      assert F.Lookup(s'.objs, name) == F.Lookup(s.objs, name);
    }
  }

  lemma TakeOrphan(s0: F.CrStore, crs: CrStore, k: Kind, o: F.Order, todo: set<string>, item: string)
    requires CrsOk(crs) && item in todo && OnTargetBut(s0, ByName(crs, k), o, todo) && Orphans(ByName(crs, k), o, todo)
    ensures var crs' := if item in F.Desired(o) then crs else Or(Delete(crs, CrKey(k, item)), crs);
            OnTargetBut(s0, ByName(crs', k), o, todo - {item}) && Orphans(ByName(crs', k), o, todo - {item})
  {
    if item !in F.Desired(o) {
      var key := CrKey(k, item);
      var crs' := Or(Delete(crs, key), crs);
      ByNameAt(crs, k, item);
      ByNameAt(crs', k, item);
      assert key in crs.objs;
      DeleteBecomes(crs, key);
      forall name | name != item ensures F.Lookup(ByName(crs', k).objs, name) == F.Lookup(ByName(crs, k).objs, name) {
        ByNameAt(crs, k, name);
        ByNameAt(crs', k, name);
      }
      OneOrphanLess(s0, ByName(crs, k), ByName(crs', k), o, todo, item);
    }
  }

  // One act of a round

  lemma TakeProgress(s0: F.CrStore, v: ManagerView, k: Kind, o: F.Order, t: Template, item: string)
    requires ViewOk(v, k) && o == OrderOf(o.tk, t, o.nodes) && o.tk.kind == k && Progress(s0, ByName(v.crs, k), o, v.pc, t)
    ensures Progress(s0, ByName(ManagerTake(v, k, item, true).crs, k), o, ManagerTake(v, k, item, true).pc, t)
  {
    match v.pc
    case MSync(_, _, nodes, todo) =>
      if item in todo {
        ByNameAt(v.crs, k, Join(item, o.dev));
        assert nodes - (todo - {item}) - {item} == nodes - todo;
      }
    case MOrphans(_, _, nodes, todo) =>
      if item in todo {
        assert item in F.Desired(o) <==> exists n :: n in nodes && item == Join(n, o.dev);
        TakeOrphan(s0, v.crs, k, o, todo, item);
      }
    case _ =>
  }

  lemma GoProgress(s0: F.CrStore, v: ManagerView, k: Kind, o: F.Order, t: Template)
    requires ViewOk(v, k) && o == OrderOf(o.tk, t, o.nodes) && o.tk.kind == k && Progress(s0, ByName(v.crs, k), o, v.pc, t)
    ensures Progress(s0, ByName(ManagerGo(v, k).crs, k), o, ManagerGo(v, k).pc, t)
  {
    match v.pc
    case MPut(_, _, _, _, _, _) => PutProgress(s0, v, k, o, t);
    case MSync(_, _, nodes, todo) =>
      if todo == {} {
        assert nodes - todo == nodes;
        OwnedNames(v.crs, o.tk);
        OrphansStart(s0, ByName(v.crs, k), o, Owned(v.crs, o.tk));
      }
    case _ =>
  }

  lemma ActProgress(s0: F.CrStore, v: ManagerView, k: Kind, o: F.Order, t: Template, a: ManagerAct)
    requires ViewOk(v, k) && o == OrderOf(o.tk, t, o.nodes) && o.tk.kind == k && RoundAct(a, o.nodes)
    requires Progress(s0, ByName(v.crs, k), o, v.pc, t)
    ensures Progress(s0, ByName(ManagerStep(v, k, a).crs, k), o, ManagerStep(v, k, a).pc, t)
  {
    match a
    case MTake(item, ok) => TakeProgress(s0, v, k, o, t, item);
    case MGo => GoProgress(s0, v, k, o, t);
    case MNodes(nodes) =>
      if v.pc.MListNodes? {
        assert o.nodes - o.nodes == {} && F.NamesFor({}, o.dev) == {};
      }
    case _ =>
  }

  /** The template is there to be synced. */
  predicate Active(tmpls: TemplateStore, tk: TemplateKey) {
    tk in tmpls.objs && tmpls.objs[tk].finalizer && !tmpls.objs[tk].terminating
  }

  lemma {:induction false} PrefixProgress(v: ManagerView, k: Kind, tk: TemplateKey, nodes: set<string>, acts: seq<ManagerAct>, i: nat)
    requires ViewOk(v, k) && tk.kind == k && Active(v.tmpls, tk) && Round(v, k, tk, nodes, acts) && 0 < i <= |acts|
    ensures var t := v.tmpls.objs[tk]; var now := ManagerRuns(v, k, acts[..i]);
            ViewOk(now, k) && Progress(ByName(v.crs, k), ByName(now.crs, k), OrderOf(tk, t, nodes), now.pc, t)
  {
    assert acts[..i][..i - 1] == acts[..i - 1];
    if i == 1 {
      assert acts[..0] == [] && ManagerRuns(v, k, acts[..1]) == ManagerStep(v, k, MGet(tk));
      ManagerStepOk(v, k, acts[0]);
    } else {
      PrefixProgress(v, k, tk, nodes, acts, i - 1);
      var before := ManagerRuns(v, k, acts[..i - 1]);
      ManagerStepOk(before, k, acts[i - 1]);
      ActProgress(ByName(v.crs, k), before, k, OrderOf(tk, v.tmpls.objs[tk], nodes), v.tmpls.objs[tk], acts[i - 1]);
    }
  }

  /** An undisturbed round of the machine's worker reaches what the fan-out specification says. */
  lemma RoundReaches(v: ManagerView, k: Kind, tk: TemplateKey, nodes: set<string>, acts: seq<ManagerAct>)
    requires ViewOk(v, k) && tk.kind == k && Active(v.tmpls, tk) && Round(v, k, tk, nodes, acts)
    ensures var s0, s, o := ByName(v.crs, k), ByName(ManagerRuns(v, k, acts).crs, k), OrderOf(tk, v.tmpls.objs[tk], nodes);
            F.Reached(s0, s, o, F.Everywhere(s0, o)) && L.Settled(s, o)
  {
    var s0, s, o := ByName(v.crs, k), ByName(ManagerRuns(v, k, acts).crs, k), OrderOf(tk, v.tmpls.objs[tk], nodes);
    PrefixProgress(v, k, tk, nodes, acts, |acts|);
    assert acts[..|acts|] == acts;
    assert OnTargetBut(s0, s, o, {});
    OffTheListUntouched(s0, s, o);
    KindHasNoZombies(v.crs, k);
    L.RunIsExact(s0, s, o);
  }

  lemma OffTheListUntouched(s0: F.CrStore, s: F.CrStore, o: F.Order)
    requires OnTargetBut(s0, s, o, {})
    ensures F.Reached(s0, s, o, F.Everywhere(s0, o))
  {
    forall name | name !in F.Everywhere(s0, o) ensures F.Lookup(s.objs, name) == F.Lookup(s0.objs, name) {
      assert F.Becomes(F.Lookup(s0.objs, name), F.Lookup(s.objs, name), F.Target(o, name, F.Lookup(s0.objs, name)));
    }
  }

  lemma KindHasNoZombies(crs: CrStore, k: Kind)
    requires CrsOk(crs)
    ensures F.NoZombies(ByName(crs, k))
  {
    forall name | name in ByName(crs, k).objs && ByName(crs, k).objs[name].terminating ensures ByName(crs, k).objs[name].finalizer {
      ByNameAt(crs, k, name);
    }
  }
}
