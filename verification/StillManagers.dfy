/**
 * A manager in a stretch of the run in which nothing changes: from the get of a template to the end of the reconcile
 * its worker finds every CR in place, and at the end the template is reported and has no CR too many.
 */
module StillManagers {
  import opened Base
  import opened ApiObjects
  import opened ApiStore
  import opened Names
  import opened Protocol
  import opened ProtocolInvariant
  import opened Rank
  import opened ManagerRank
  import opened Goal

  type Templates = map<TemplateKey, Template>
  type Crs = map<CrKey, Cr>

  /** The template has its finalizer and its condition, and exactly the live CRs it wants. */
  ghost predicate Settled(e: Env, tmpls: Templates, crs: Crs, tk: TemplateKey) {
    && tk in e.live && tk in tmpls && TemplateRank(e, tk, Some(tmpls[tk])) == 0
    && Served(e, crs, tk, e.live[tk].nodes) && Swept(e, crs, tk, {})
  }

  /** What remains possible for a manager between its get of the template and its end. */
  ghost predicate Working(e: Env, tmpls: Templates, crs: Crs, tk: TemplateKey, pc: ManagerPc) {
    && !pc.MIdle? && pc.tk == tk && tk in tmpls && pc.tmpl == tmpls[tk] && TemplateFits(e, tk, pc.tmpl)
    && match pc
       case MAddFinalizer(_, t) => !t.finalizer
       case MListNodes(_, t) => tk in e.live && t.finalizer
       case MSync(_, t, nodes, todo) =>
         tk in e.live && t.finalizer && nodes == e.live[tk].nodes && todo <= nodes && Served(e, crs, tk, nodes - todo)
       case MPut(_, t, nodes, todo, node, got) =>
         && tk in e.live && t.finalizer && nodes == e.live[tk].nodes && todo <= nodes && node in nodes
         && Served(e, crs, tk, nodes - todo - {node}) && got == Lookup(crs, CrKey(tk.kind, Join(node, t.spec.devName)))
       case MOrphans(_, t, nodes, todo) =>
         tk in e.live && t.finalizer && nodes == e.live[tk].nodes && Served(e, crs, tk, nodes) && Swept(e, crs, tk, todo)
       case MReady(_, t, condition) =>
         tk in e.live && t.finalizer && condition == FinalCondition(e, tk) && Served(e, crs, tk, e.live[tk].nodes) && Swept(e, crs, tk, {})
       case MListOwned(_, t) => tk !in e.live && t.finalizer
       case MDelete(_, t, todo) => tk !in e.live && t.finalizer
       case _ => false
  }

  /** The manager's view is sound and the templates are those of the surroundings; devices need not be distinct. */
  ghost predicate Sees(e: Env, v: ManagerView, k: Kind) {
    ViewOk(v, k) && TemplatesFit(e, v.tmpls)
  }

  ghost predicate NextFor(e: Env, v: ManagerView, tk: TemplateKey) {
    Settled(e, v.tmpls.objs, v.crs.objs, tk) || Working(e, v.tmpls.objs, v.crs.objs, tk, v.pc)
  }

  ghost predicate StillView(v: ManagerView, v': ManagerView) {
    v'.crs.objs == v.crs.objs && v'.tmpls.objs == v.tmpls.objs
  }

  lemma GetTemplate(e: Env, v: ManagerView, k: Kind, tk: TemplateKey)
    requires Sees(e, v, k) && v.pc.MIdle? && tk.kind == k && tk in v.tmpls.objs
    ensures Working(e, v.tmpls.objs, v.crs.objs, tk, ManagerStep(v, k, MGet(tk)).pc)
  {
  }

  /** A put without effect found the CR as wanted. */
  lemma PutNeedsNothing(v: ManagerView, k: Kind, key: CrKey)
    requires ViewOk(v, k) && v.pc.MPut? && key == CrKey(k, Join(v.pc.node, v.pc.tmpl.spec.devName)) && v.pc.got == Lookup(v.crs.objs, key)
    ensures PutCr(v.crs, k, v.pc.tk, v.pc.tmpl, v.pc.node, v.pc.got).Some?
    ensures ManagerGo(v, k).crs.objs == v.crs.objs ==>
              key in v.crs.objs && SyncedCopy(v.pc.tk, v.pc.tmpl, v.pc.node, v.crs.objs[key]) == v.crs.objs[key]
  {
    var crs' := PutCr(v.crs, k, v.pc.tk, v.pc.tmpl, v.pc.node, v.pc.got).value;
    PutWrites(v, k);
    assert ManagerGo(v, k).crs == crs';
    if key in v.crs.objs && SyncedCopy(v.pc.tk, v.pc.tmpl, v.pc.node, v.crs.objs[key]) != v.crs.objs[key] {
      assert crs'.objs[key].labels != v.crs.objs[key].labels || crs'.objs[key].spec != v.crs.objs[key].spec;
    }
  }

  lemma StillPut(e: Env, v: ManagerView, k: Kind, tk: TemplateKey)
    requires Sees(e, v, k) && v.pc.MPut? && Working(e, v.tmpls.objs, v.crs.objs, tk, v.pc) && tk.kind == k
    requires ManagerGo(v, k).crs.objs == v.crs.objs
    ensures ManagerGo(v, k).tmpls == v.tmpls && Working(e, v.tmpls.objs, v.crs.objs, tk, ManagerGo(v, k).pc)
  {
    var node := v.pc.node;
    var key := CrKey(k, Join(node, v.pc.tmpl.spec.devName));
    OwnerOfJoin(node, v.pc.tmpl.spec.devName);
    PutNeedsNothing(v, k, key);
    assert InSync(e, tk, key, v.crs.objs[key]);
    assert v.pc.nodes - v.pc.todo <= v.pc.nodes - v.pc.todo - {node} + {node};
  }

  lemma StillSync(e: Env, v: ManagerView, k: Kind, tk: TemplateKey)
    requires v.pc.MSync? && Working(e, v.tmpls.objs, v.crs.objs, tk, v.pc) && tk.kind == k
    ensures Working(e, v.tmpls.objs, v.crs.objs, tk, ManagerGo(v, k).pc)
  {
    if v.pc.todo == {} {
      assert v.pc.nodes - v.pc.todo == v.pc.nodes;
    }
  }

  lemma StillOrphans(e: Env, v: ManagerView, k: Kind, tk: TemplateKey)
    requires v.pc.MOrphans? && Working(e, v.tmpls.objs, v.crs.objs, tk, v.pc) && tk.kind == k
    ensures Working(e, v.tmpls.objs, v.crs.objs, tk, ManagerGo(v, k).pc)
  {
  }

  lemma ReportChanges(e: Env, v: ManagerView, k: Kind, tk: TemplateKey)
    requires v.pc.MReady? && Working(e, v.tmpls.objs, v.crs.objs, tk, v.pc)
    ensures ManagerGo(v, k).tmpls.objs == v.tmpls.objs ==> v.pc.tmpl.status.ready == Some(v.pc.condition)
  {
    if v.pc.tmpl.status.ready != Some(v.pc.condition) {
      assert ManagerGo(v, k).tmpls.objs[tk].status.ready == Some(v.pc.condition);
    }
  }

  lemma StillReport(e: Env, v: ManagerView, k: Kind, tk: TemplateKey)
    requires v.pc.MReady? && Working(e, v.tmpls.objs, v.crs.objs, tk, v.pc) && ManagerGo(v, k).tmpls.objs == v.tmpls.objs
    ensures Settled(e, v.tmpls.objs, v.crs.objs, tk)
  {
    ReportChanges(e, v, k, tk);
  }

  /** The finalizer is added or dropped: something changes. */
  lemma FinalizerChanges(e: Env, v: ManagerView, k: Kind, tk: TemplateKey)
    requires Working(e, v.tmpls.objs, v.crs.objs, tk, v.pc) && (v.pc.MAddFinalizer? || (v.pc.MDelete? && v.pc.todo == {}))
    ensures ManagerGo(v, k).tmpls.objs != v.tmpls.objs
  {
    if v.pc.MAddFinalizer? {
      assert tk in ManagerGo(v, k).tmpls.objs ==> ManagerGo(v, k).tmpls.objs[tk].finalizer;
    } else {
      assert tk !in ManagerGo(v, k).tmpls.objs;
    }
  }

  lemma NoFinalizerStep(e: Env, v: ManagerView, k: Kind, tk: TemplateKey)
    requires Working(e, v.tmpls.objs, v.crs.objs, tk, v.pc) && StillView(v, ManagerGo(v, k))
    ensures !v.pc.MAddFinalizer? && !(v.pc.MDelete? && v.pc.todo == {})
  {
    if v.pc.MAddFinalizer? || (v.pc.MDelete? && v.pc.todo == {}) {
      FinalizerChanges(e, v, k, tk);
    }
  }

  lemma StillGo(e: Env, v: ManagerView, k: Kind, tk: TemplateKey)
    requires Sees(e, v, k) && Working(e, v.tmpls.objs, v.crs.objs, tk, v.pc) && tk.kind == k && StillView(v, ManagerGo(v, k))
    ensures NextFor(e, ManagerGo(v, k), tk)
  {
    NoFinalizerStep(e, v, k, tk);
    if v.pc.MPut? {
      StillPut(e, v, k, tk);
    } else if v.pc.MSync? {
      StillSync(e, v, k, tk);
    } else if v.pc.MOrphans? {
      StillOrphans(e, v, k, tk);
    } else if v.pc.MReady? {
      StillReport(e, v, k, tk);
    }
  }

  lemma SweptNext(e: Env, crs: Crs, tk: TemplateKey, todo: set<string>, item: string)
    requires Swept(e, crs, tk, todo)
    requires CrKey(tk.kind, item) in crs ==> Wants(e, tk, CrKey(tk.kind, item)) || crs[CrKey(tk.kind, item)].terminating
    ensures Swept(e, crs, tk, todo - {item})
  {
  }

  lemma StillTakeOrphan(e: Env, v: ManagerView, k: Kind, tk: TemplateKey, item: string)
    requires v.pc.MOrphans? && item in v.pc.todo && Working(e, v.tmpls.objs, v.crs.objs, tk, v.pc) && tk.kind == k
    requires ManagerTake(v, k, item, true).crs.objs == v.crs.objs
    ensures Working(e, v.tmpls.objs, v.crs.objs, tk, ManagerTake(v, k, item, true).pc)
  {
    var key := CrKey(k, item);
    if key in v.crs.objs && !Wants(e, tk, key) {
      assert ManagerTake(v, k, item, true).crs == Or(Delete(v.crs, key), v.crs);
      DeleteWrites(v.crs, key);
      assert Lookup(v.crs.objs, key) == Some(v.crs.objs[key]);
    }
    SweptNext(e, v.crs.objs, tk, v.pc.todo, item);
  }

  lemma StillTake(e: Env, v: ManagerView, k: Kind, tk: TemplateKey, item: string)
    requires Working(e, v.tmpls.objs, v.crs.objs, tk, v.pc) && tk.kind == k && ManagerTake(v, k, item, true).crs.objs == v.crs.objs
    ensures Working(e, v.tmpls.objs, v.crs.objs, tk, ManagerTake(v, k, item, true).pc)
  {
    if v.pc.MOrphans? && item in v.pc.todo {
      StillTakeOrphan(e, v, k, tk, item);
    } else if v.pc.MSync? && item in v.pc.todo {
      assert v.pc.nodes - (v.pc.todo - {item}) - {item} <= v.pc.nodes - v.pc.todo;
    }
  }

  /** The worker neither crashes nor fails at a call that could succeed. */
  predicate LastingManager(m: ManagerAct) {
    !m.MCrash? && (m.MTake? ==> m.ok)
  }

  lemma StillManagerStep(e: Env, v: ManagerView, k: Kind, tk: TemplateKey, m: ManagerAct)
    requires Sees(e, v, k) && CalmManager(e, v, m) && Working(e, v.tmpls.objs, v.crs.objs, tk, v.pc) && tk.kind == k
    requires LastingManager(m) && StillView(v, ManagerStep(v, k, m))
    ensures NextFor(e, ManagerStep(v, k, m), tk)
  {
    match m
    case MTake(item, _) => StillTake(e, v, k, tk, item);
    case MGo => StillGo(e, v, k, tk);
    case _ =>
  }
}
