/**
 * What every step of the protocol keeps, whatever fails or crashes: a copy read earlier is either still
 * the stored object or too old to be written back, and a CR being configured or torn down by an agent
 * stays in the store with its finalizer.
 */
module ProtocolInvariant {
  import opened Base
  import opened ApiObjects
  import opened ApiStore
  import opened Names
  import opened Programs
  import opened Protocol

  // Copies and stores

  ghost predicate CopyOk<K, S>(st: Store<K, S>, k: K, copy: Obj<S>) {
    copy.rv <= st.rv && (k in st.objs && st.objs[k].rv == copy.rv ==> st.objs[k] == copy)
  }

  /** Every rewritten object is newer than the store was. */
  ghost predicate Newer<K(!new), S>(st: Store<K, S>, st': Store<K, S>) {
    && st.rv <= st'.rv
    && forall k :: k in st'.objs ==> (k in st.objs && st'.objs[k] == st.objs[k]) || st'.objs[k].rv > st.rv
  }

  ghost predicate CrsOk(st: CrStore) {
    forall key :: key in st.objs ==>
      && st.objs[key].rv <= st.rv
      && OwnerOf(key.name) == Some(NodeOf(st.objs[key]))
      && (st.objs[key].terminating ==> st.objs[key].finalizer)
  }

  ghost predicate TemplatesOk(st: TemplateStore) {
    forall tk :: tk in st.objs ==>
      && st.objs[tk].rv <= st.rv
      && DotFree(st.objs[tk].spec.devName)
      && (st.objs[tk].terminating ==> st.objs[tk].finalizer)
  }

  /** A generation stands for one spec, and it only grows; a deletion mark stays. */
  predicate Ages(was: Cr, now: Cr) {
    && was.generation <= now.generation
    && (now.generation == was.generation ==> now.spec == was.spec)
    && (was.terminating ==> now.terminating)
  }

  /** How a step moves the CRs: whatever carries the finalizer stays, except what is in `freed`. */
  ghost predicate CrsMove(st: CrStore, st': CrStore, freed: set<CrKey>) {
    && CrsOk(st) && CrsOk(st') && Newer(st, st')
    && forall key :: key in st.objs && st.objs[key].finalizer && key !in freed ==>
         key in st'.objs && st'.objs[key].finalizer && Ages(st.objs[key], st'.objs[key])
  }

  ghost predicate TemplatesMove(st: TemplateStore, st': TemplateStore) {
    TemplatesOk(st) && TemplatesOk(st') && Newer(st, st')
  }

  // The invariant

  /** The CR is stored, belongs to node n and carries the finalizer. */
  predicate Held(st: CrStore, n: string, k: Kind, name: string) {
    var key := CrKey(k, name);
    key in st.objs && st.objs[key].finalizer && NodeOf(st.objs[key]) == n
  }

  /** A Task is about a CR held by its agent, and its copy is an earlier state of it. */
  ghost predicate TaskOk(st: CrStore, n: string, k: Kind, t: Task) {
    Held(st, n, k, t.name) && Ages(t.copy, st.objs[CrKey(k, t.name)])
  }

  /** Nobody refreshed the copy: it still has the spec the commands come from. */
  predicate Unrefreshed(t: Task) {
    t.copy.spec == t.spec
  }

  ghost predicate TeardownOk(st: CrStore, n: string, k: Kind, name: string, c: Cr) {
    Held(st, n, k, name) && CopyOk(st, CrKey(k, name), c) && c.terminating && st.objs[CrKey(k, name)].terminating
  }

  ghost predicate AgentOk(st: CrStore, n: string, k: Kind, pc: AgentPc) {
    match pc
    case AAddFinalizer(name, c) => CopyOk(st, CrKey(k, name), c) && !c.finalizer && !c.terminating && NodeOf(c) == n
    case ARun(t, _) => TaskOk(st, n, k, t) && Unrefreshed(t)
    case AFailed(t, _) => TaskOk(st, n, k, t)
    case ALabel(t) => TaskOk(st, n, k, t) && Unrefreshed(t)
    case ALabelPatch(t, _) => TaskOk(st, n, k, t) && Unrefreshed(t)
    case APatchIP(t) => TaskOk(st, n, k, t) && Unrefreshed(t) && k.Vxlan?
    case AReady(t) => TaskOk(st, n, k, t) && (!k.Vxlan? ==> Unrefreshed(t))
    case ADelLink(name, c) => TeardownOk(st, n, k, name, c)
    case AUnlabel(name, c, _) => TeardownOk(st, n, k, name, c)
    case AUnlabelPatch(name, c, _, _) => TeardownOk(st, n, k, name, c)
    case ADropFinalizer(name, c) => TeardownOk(st, n, k, name, c)
    case _ => true
  }

  /** A manager's copies are sound, and it works on templates of its own kind. */
  ghost predicate ManagerOk(tmpls: TemplateStore, crs: CrStore, k: Kind, pc: ManagerPc) {
    pc.MIdle? || (
      && pc.tk.kind == k && DotFree(pc.tmpl.spec.devName) && CopyOk(tmpls, pc.tk, pc.tmpl)
      && (pc.MPut? && pc.got.Some? ==> CopyOk(crs, CrKey(k, Join(pc.node, pc.tmpl.spec.devName)), pc.got.value)))
  }

  ghost predicate AgentsOk(s: State) {
    forall n, k :: AgentOk(s.crs, n, k, AgentOf(s, n, k))
  }

  ghost predicate ManagersOk(s: State) {
    forall k :: ManagerOk(s.tmpls, s.crs, k, ManagerOf(s, k))
  }

  ghost predicate Inv(s: State) {
    CrsOk(s.crs) && TemplatesOk(s.tmpls) && AgentsOk(s) && ManagersOk(s)
  }

  // Stability: one worker's facts survive a step of anybody else

  lemma HeldStays(st: CrStore, st': CrStore, freed: set<CrKey>, n: string, k: Kind, name: string)
    requires Held(st, n, k, name) && CrsMove(st, st', freed) && CrKey(k, name) !in freed
    ensures Held(st', n, k, name) && Ages(st.objs[CrKey(k, name)], st'.objs[CrKey(k, name)])
  {
  }

  lemma AgentStays(st: CrStore, st': CrStore, freed: set<CrKey>, n: string, k: Kind, pc: AgentPc)
    requires AgentOk(st, n, k, pc) && CrsMove(st, st', freed)
    requires forall name :: CrKey(k, name) in freed ==> !Held(st, n, k, name)
    ensures AgentOk(st', n, k, pc)
  {
    match pc
    case ARun(t, _) => HeldStays(st, st', freed, n, k, t.name);
    case AFailed(t, _) => HeldStays(st, st', freed, n, k, t.name);
    case ALabel(t) => HeldStays(st, st', freed, n, k, t.name);
    case ALabelPatch(t, _) => HeldStays(st, st', freed, n, k, t.name);
    case APatchIP(t) => HeldStays(st, st', freed, n, k, t.name);
    case AReady(t) => HeldStays(st, st', freed, n, k, t.name);
    case ADelLink(name, c) => HeldStays(st, st', freed, n, k, name);
    case AUnlabel(name, c, _) => HeldStays(st, st', freed, n, k, name);
    case AUnlabelPatch(name, c, _, _) => HeldStays(st, st', freed, n, k, name);
    case ADropFinalizer(name, c) => HeldStays(st, st', freed, n, k, name);
    case _ =>
  }

  // Writes of CRs

  lemma CrPutMoves(st: CrStore, key: CrKey, o: Cr)
    requires CrsOk(st) && OwnerOf(key.name) == Some(NodeOf(o)) && (o.terminating ==> o.finalizer)
    requires key in st.objs ==> (st.objs[key].finalizer ==> o.finalizer) && Ages(st.objs[key], o)
    ensures CrsMove(st, Put(st, key, o), {})
  {
  }

  lemma CrDeleteMoves(st: CrStore, key: CrKey)
    requires CrsOk(st)
    ensures CrsMove(st, Or(Delete(st, key), st), {})
  {
    if key in st.objs && st.objs[key].finalizer {
      CrPutMoves(st, key, Deleted(st.objs[key]).value);
    }
  }

  lemma CrUpdateMoves(st: CrStore, key: CrKey, copy: Cr, edit: Cr, freed: set<CrKey>)
    requires CrsOk(st) && CopyOk(st, key, copy) && edit.rv == copy.rv
    requires copy.finalizer && !edit.finalizer ==> freed == {key}
    requires NodeOf(edit) == NodeOf(copy) || OwnerOf(key.name) == Some(NodeOf(edit))
    ensures CrsMove(st, Or(Update(st, key, edit), st), freed)
  {
    if key in st.objs && st.objs[key].rv == edit.rv {
      var o := Edited(st.objs[key], edit.labels, edit.spec, edit.finalizer);
      if o.terminating && !o.finalizer {
        CrEraseMoves(st, key, freed);
      } else {
        CrEditMoves(st, key, o, freed);
      }
    }
  }

  lemma CrEraseMoves(st: CrStore, key: CrKey, freed: set<CrKey>)
    requires CrsOk(st) && key in st.objs && (st.objs[key].finalizer ==> key in freed)
    ensures CrsMove(st, Erase(st, key), freed)
  {
  }

  lemma CrEditMoves(st: CrStore, key: CrKey, o: Cr, freed: set<CrKey>)
    requires CrsOk(st) && key in st.objs && OwnerOf(key.name) == Some(NodeOf(o)) && (o.terminating ==> o.finalizer)
    requires st.objs[key].finalizer && !o.finalizer ==> key in freed
    requires Ages(st.objs[key], o)
    ensures CrsMove(st, Put(st, key, o), freed)
  {
  }

  lemma CrReadyMoves(st: CrStore, key: CrKey, copy: Cr, c: Condition)
    requires CrsOk(st)
    ensures CrsMove(st, Or(PatchReady(st, key, copy, c), st), {})
  {
    if key in st.objs {
      CrPutMoves(st, key, st.objs[key].(status := st.objs[key].status.(ready := Some(c))));
    }
  }

  lemma CrIPMoves(st: CrStore, key: CrKey, ip: string)
    requires CrsOk(st) && key in st.objs
    ensures CrsMove(st, PatchLocalIP(st, key, ip).value, {})
  {
    CrPutMoves(st, key, st.objs[key].(status := st.objs[key].status.(localIP := ip)));
  }

  // Writes of templates

  lemma TemplatePutMoves(st: TemplateStore, tk: TemplateKey, o: Template)
    requires TemplatesOk(st) && DotFree(o.spec.devName) && (o.terminating ==> o.finalizer)
    ensures TemplatesMove(st, Put(st, tk, o))
  {
  }

  lemma TemplateUpdateMoves(st: TemplateStore, tk: TemplateKey, copy: Template, finalizer: bool)
    requires TemplatesOk(st) && CopyOk(st, tk, copy)
    ensures TemplatesMove(st, Or(Update(st, tk, copy.(finalizer := finalizer)), st))
  {
  }

  lemma TemplateDeleteMoves(st: TemplateStore, tk: TemplateKey)
    requires TemplatesOk(st)
    ensures TemplatesMove(st, Or(Delete(st, tk), st))
  {
  }

  lemma TemplateReadyMoves(st: TemplateStore, tk: TemplateKey, t: Template, c: Condition)
    requires TemplatesOk(st)
    ensures TemplatesMove(st, Or(PatchReady(st, tk, t, c), st))
  {
    if tk in st.objs {
      TemplatePutMoves(st, tk, st.objs[tk].(status := st.objs[tk].status.(ready := Some(c))));
    }
  }

  // Users

  lemma UserTemplatesMove(st: TemplateStore, a: Action)
    requires TemplatesOk(st)
    ensures TemplatesMove(st, UserTemplates(st, a))
  {
    match a
    case PutTemplate(tk, spec) =>
      if DotFree(spec.devName) {
        TemplatePutMoves(st, tk, if tk in st.objs then Edited(st.objs[tk], st.objs[tk].labels, spec, st.objs[tk].finalizer)
                                 else Fresh(map[], spec));
      }
    case DeleteTemplate(tk) => TemplateDeleteMoves(st, tk);
    case _ =>
  }

  lemma UserCrsMove(st: CrStore, a: Action)
    requires CrsOk(st)
    ensures CrsMove(st, UserCrs(st, a), {})
  {
    assert CrsMove(st, st, {});
    match a
    case CreateCr(key, labels, spec) =>
      if OwnerOf(key.name) == Some(Label(labels, NodeName)) && key !in st.objs {
        CrPutMoves(st, key, Fresh(labels, spec));
      }
    case EditCr(key, spec) =>
      if key in st.objs {
        CrPutMoves(st, key, Edited(st.objs[key], st.objs[key].labels, spec, st.objs[key].finalizer));
      }
    case DeleteCr(key) => CrDeleteMoves(st, key);
    case _ =>
  }

  // The manager

  lemma PutCrMoves(crs: CrStore, k: Kind, tk: TemplateKey, t: Template, node: string, got: Option<Cr>)
    requires CrsOk(crs) && DotFree(t.spec.devName) && PutCr(crs, k, tk, t, node, got).Some?
    requires got.Some? ==> CopyOk(crs, CrKey(k, Join(node, t.spec.devName)), got.value)
    ensures CrsMove(crs, PutCr(crs, k, tk, t, node, got).value, {})
  {
    var key := CrKey(k, Join(node, t.spec.devName));
    OwnerOfJoin(node, t.spec.devName);
    match got
    case None => CrPutMoves(crs, key, Fresh(SyncLabels(map[], tk, node), t.spec.spec));
    case Some(copy) =>
      if SyncedCopy(tk, t, node, copy) != copy {
        CrUpdateMoves(crs, key, copy, SyncedCopy(tk, t, node, copy), {});
      }
  }

  /** A sync writes only the CR it is about. */
  lemma PutCrElsewhere(crs: CrStore, k: Kind, tk: TemplateKey, t: Template, node: string, got: Option<Cr>, key: CrKey)
    requires key != CrKey(k, Join(node, t.spec.devName))
    ensures Lookup(Or(PutCr(crs, k, tk, t, node, got), crs).objs, key) == Lookup(crs.objs, key)
  {
  }

  ghost predicate ViewOk(v: ManagerView, k: Kind) {
    CrsOk(v.crs) && TemplatesOk(v.tmpls) && ManagerOk(v.tmpls, v.crs, k, v.pc)
  }

  ghost predicate ViewMoves(v: ManagerView, v': ManagerView) {
    CrsMove(v.crs, v'.crs, {}) && TemplatesMove(v.tmpls, v'.tmpls)
  }

  lemma ManagerPutOk(v: ManagerView, k: Kind)
    requires ViewOk(v, k) && v.pc.MPut?
    ensures ViewMoves(v, ManagerGo(v, k)) && ViewOk(ManagerGo(v, k), k)
  {
    assert CrsMove(v.crs, v.crs, {}) && TemplatesMove(v.tmpls, v.tmpls);
    if PutCr(v.crs, k, v.pc.tk, v.pc.tmpl, v.pc.node, v.pc.got).Some? {
      PutCrMoves(v.crs, k, v.pc.tk, v.pc.tmpl, v.pc.node, v.pc.got);
    }
  }

  lemma ManagerGoOk(v: ManagerView, k: Kind)
    requires ViewOk(v, k)
    ensures ViewMoves(v, ManagerGo(v, k)) && ViewOk(ManagerGo(v, k), k)
  {
    assert CrsMove(v.crs, v.crs, {}) && TemplatesMove(v.tmpls, v.tmpls);
    match v.pc
    case MAddFinalizer(tk, t) => TemplateUpdateMoves(v.tmpls, tk, t, true);
    case MDelete(tk, t, todo) => TemplateUpdateMoves(v.tmpls, tk, t, false);
    case MReady(tk, t, c) => TemplateReadyMoves(v.tmpls, tk, t, c);
    case MPut(_, _, _, _, _, _) => ManagerPutOk(v, k);
    case _ =>
  }

  lemma ManagerTakeOk(v: ManagerView, k: Kind, item: string, ok: bool)
    requires ViewOk(v, k)
    ensures ViewMoves(v, ManagerTake(v, k, item, ok)) && ViewOk(ManagerTake(v, k, item, ok), k)
  {
    assert CrsMove(v.crs, v.crs, {}) && TemplatesMove(v.tmpls, v.tmpls);
    if v.pc.MOrphans? || v.pc.MDelete? {
      CrDeleteMoves(v.crs, CrKey(k, item));
    }
  }

  lemma ManagerStepOk(v: ManagerView, k: Kind, a: ManagerAct)
    requires ViewOk(v, k)
    ensures ViewMoves(v, ManagerStep(v, k, a)) && ViewOk(ManagerStep(v, k, a), k)
  {
    match a
    case MTake(item, ok) => ManagerTakeOk(v, k, item, ok);
    case MGo => ManagerGoOk(v, k);
    case _ => assert CrsMove(v.crs, v.crs, {}) && TemplatesMove(v.tmpls, v.tmpls);
  }

  // The agents

  /** The CR an agent's step may release: only its own, in the last step of a teardown. */
  function Freed(k: Kind, pc: AgentPc, a: AgentAct): set<CrKey> {
    if pc.ADropFinalizer? && a.AGo? then {CrKey(k, pc.name)} else {}
  }

  predicate WritesCrs(pc: AgentPc) {
    pc.AAddFinalizer? || pc.ADropFinalizer? || pc.AFailed? || pc.AReady? || pc.APatchIP?
  }

  lemma AgentPatchOk(v: AgentView, n: string, k: Kind, t: Task, ok: bool)
    requires CrsOk(v.crs) && AgentOk(v.crs, n, k, APatchIP(t))
    ensures CrsMove(v.crs, AgentPatchIP(v, k, t, ok).crs, {})
    ensures AgentOk(AgentPatchIP(v, k, t, ok).crs, n, k, AgentPatchIP(v, k, t, ok).pc)
  {
    CrIPMoves(v.crs, CrKey(k, t.name), t.ip);
    HeldStays(v.crs, PatchLocalIP(v.crs, CrKey(k, t.name), t.ip).value, {}, n, k, t.name);
    assert CrsMove(v.crs, v.crs, {});
  }

  lemma AgentWriteOk(v: AgentView, n: string, k: Kind, ok: bool)
    requires CrsOk(v.crs) && AgentOk(v.crs, n, k, v.pc) && WritesCrs(v.pc)
    ensures CrsMove(v.crs, AgentGo(v, n, k, ok).crs, Freed(k, v.pc, AGo(ok)))
    ensures AgentOk(AgentGo(v, n, k, ok).crs, n, k, AgentGo(v, n, k, ok).pc)
  {
    match v.pc
    case AAddFinalizer(name, c) => CrUpdateMoves(v.crs, CrKey(k, name), c, c.(finalizer := true), {});
    case ADropFinalizer(name, c) => CrUpdateMoves(v.crs, CrKey(k, name), c, c.(finalizer := false), {CrKey(k, name)});
    case AFailed(t, reason) => CrReadyMoves(v.crs, CrKey(k, t.name), t.copy, Condition(false, reason, t.copy.generation));
    case AReady(t) => CrReadyMoves(v.crs, CrKey(k, t.name), t.copy, Condition(true, "Configured", t.copy.generation));
    case APatchIP(t) => AgentPatchOk(v, n, k, t, ok);
  }

  lemma AgentGoOk(v: AgentView, n: string, k: Kind, ok: bool)
    requires CrsOk(v.crs) && AgentOk(v.crs, n, k, v.pc)
    ensures CrsMove(v.crs, AgentGo(v, n, k, ok).crs, Freed(k, v.pc, AGo(ok)))
    ensures AgentOk(AgentGo(v, n, k, ok).crs, n, k, AgentGo(v, n, k, ok).pc)
  {
    if WritesCrs(v.pc) {
      AgentWriteOk(v, n, k, ok);
    } else {
      assert CrsMove(v.crs, v.crs, {});
      AgentQuietOk(v, n, k, ok);
    }
  }

  predicate Labelling(pc: AgentPc) {
    pc.ALabel? || pc.ALabelPatch? || pc.AUnlabel? || pc.AUnlabelPatch?
  }

  /** The labelling steps touch neither CRs nor links; what they lead to. */
  lemma LabelGo(v: AgentView, n: string, k: Kind, ok: bool)
    requires Labelling(v.pc)
    ensures AgentGo(v, n, k, ok).crs == v.crs && AgentGo(v, n, k, ok).links == v.links
    ensures v.pc.ALabel? ==> AgentGo(v, n, k, ok).pc == if ok then ALabelPatch(v.pc.task, v.labels) else AfterLabel(k, v.pc.task)
    ensures v.pc.ALabelPatch? ==> AgentGo(v, n, k, ok).pc == AfterLabel(k, v.pc.task)
    ensures v.pc.AUnlabel? ==> AgentGo(v, n, k, ok).pc
                               == if ok then AUnlabelPatch(v.pc.name, v.pc.copy, v.pc.dev, v.labels) else ADropFinalizer(v.pc.name, v.pc.copy)
    ensures v.pc.AUnlabelPatch? ==> AgentGo(v, n, k, ok).pc == ADropFinalizer(v.pc.name, v.pc.copy)
  {
  }

  lemma AgentLabelOk(v: AgentView, n: string, k: Kind, ok: bool)
    requires AgentOk(v.crs, n, k, v.pc) && Labelling(v.pc)
    ensures AgentGo(v, n, k, ok).crs == v.crs && AgentGo(v, n, k, ok).links == v.links
    ensures AgentOk(v.crs, n, k, AgentGo(v, n, k, ok).pc)
  {
    LabelGo(v, n, k, ok);
  }

  lemma AgentRunOk(v: AgentView, n: string, k: Kind, ok: bool)
    requires AgentOk(v.crs, n, k, v.pc) && v.pc.ARun?
    ensures AgentGo(v, n, k, ok).crs == v.crs
    ensures AgentOk(v.crs, n, k, AgentGo(v, n, k, ok).pc)
  {
    if !Ended(v.pc.rest) {
      assert AgentGo(v, n, k, ok) == AgentCommand(v, v.pc.task, v.pc.rest, ok);
    }
  }

  lemma AgentQuietOk(v: AgentView, n: string, k: Kind, ok: bool)
    requires AgentOk(v.crs, n, k, v.pc) && !WritesCrs(v.pc)
    ensures AgentGo(v, n, k, ok).crs == v.crs
    ensures AgentOk(v.crs, n, k, AgentGo(v, n, k, ok).pc)
  {
    if Labelling(v.pc) {
      AgentLabelOk(v, n, k, ok);
    } else if v.pc.ARun? {
      AgentRunOk(v, n, k, ok);
    }
  }

  lemma StartTaskOk(st: CrStore, n: string, k: Kind, name: string, dev: string, resolved: Option<int>, detected: Option<string>)
    requires Held(st, n, k, name)
    ensures AgentOk(st, n, k, StartTask(n, k, name, st.objs[CrKey(k, name)], dev, resolved, detected))
  {
  }

  lemma AgentGetOk(v: AgentView, n: string, k: Kind, name: string, resolved: Option<int>, detected: Option<string>)
    requires CrsOk(v.crs) && v.pc.AIdle?
    ensures AgentOk(v.crs, n, k, AgentGet(v, n, k, name, resolved, detected))
  {
    var dev := ParseDeviceName(name, n);
    if Held(v.crs, n, k, name) && !v.crs.objs[CrKey(k, name)].terminating && dev.Some? {
      StartTaskOk(v.crs, n, k, name, dev.value, resolved, detected);
      assert AgentGet(v, n, k, name, resolved, detected) == StartTask(n, k, name, v.crs.objs[CrKey(k, name)], dev.value, resolved, detected);
    }
  }

  lemma AgentStepOk(v: AgentView, n: string, k: Kind, a: AgentAct)
    requires CrsOk(v.crs) && AgentOk(v.crs, n, k, v.pc)
    ensures CrsMove(v.crs, AgentStep(v, n, k, a).crs, Freed(k, v.pc, a))
    ensures AgentOk(AgentStep(v, n, k, a).crs, n, k, AgentStep(v, n, k, a).pc)
  {
    match a
    case AGo(ok) => AgentGoOk(v, n, k, ok);
    case AGet(name, resolved, detected) =>
      assert CrsMove(v.crs, v.crs, {});
      if v.pc.AIdle? {
        AgentGetOk(v, n, k, name, resolved, detected);
      }
    case _ => assert CrsMove(v.crs, v.crs, {});
  }

  // Every step keeps the invariant

  lemma InitInv(s: State)
    requires Init(s)
    ensures Inv(s)
  {
  }

  lemma OthersStay(s: State, s': State, freed: set<CrKey>)
    requires Inv(s) && CrsMove(s.crs, s'.crs, freed) && TemplatesMove(s.tmpls, s'.tmpls)
    requires forall n, k :: (AgentOf(s', n, k) == AgentOf(s, n, k) && (forall name :: CrKey(k, name) in freed ==> !Held(s.crs, n, k, name)))
                            || AgentOk(s'.crs, n, k, AgentOf(s', n, k))
    requires forall k :: ManagerOf(s', k) == ManagerOf(s, k) || ManagerOk(s'.tmpls, s'.crs, k, ManagerOf(s', k))
    ensures Inv(s')
  {
    forall n, k ensures AgentOk(s'.crs, n, k, AgentOf(s', n, k)) {
      if !AgentOk(s'.crs, n, k, AgentOf(s', n, k)) {
        AgentStays(s.crs, s'.crs, freed, n, k, AgentOf(s, n, k));
      }
    }
    forall k ensures ManagerOk(s'.tmpls, s'.crs, k, ManagerOf(s', k)) {
      assert ManagerOk(s.tmpls, s.crs, k, ManagerOf(s, k));
    }
  }

  lemma ManagerKeepsInv(s: State, k: Kind, m: ManagerAct)
    requires Inv(s)
    ensures Inv(Step(s, OfManager(k, m)))
    ensures ViewMoves(ManagerViewOf(s, k), ManagerViewOf(Step(s, OfManager(k, m)), k))
  {
    assert ManagerOk(s.tmpls, s.crs, k, ManagerOf(s, k));
    ManagerStepOk(ManagerViewOf(s, k), k, m);
    OthersStay(s, Step(s, OfManager(k, m)), {});
  }

  lemma AgentKeepsInv(s: State, n: string, k: Kind, m: AgentAct)
    requires Inv(s)
    ensures Inv(Step(s, OfAgent(n, k, m)))
    ensures CrsMove(s.crs, Step(s, OfAgent(n, k, m)).crs, Freed(k, AgentOf(s, n, k), m))
  {
    assert AgentOk(s.crs, n, k, AgentOf(s, n, k));
    AgentStepOk(AgentViewOf(s, n, k), n, k, m);
    OthersStay(s, Step(s, OfAgent(n, k, m)), Freed(k, AgentOf(s, n, k), m));
  }

  lemma StepKeepsInv(s: State, a: Action)
    requires Inv(s)
    ensures Inv(Step(s, a))
  {
    match a
    case OfManager(k, m) => ManagerKeepsInv(s, k, m);
    case OfAgent(n, k, m) => AgentKeepsInv(s, n, k, m);
    case _ => UserKeepsInv(s, a);
  }

  lemma UserKeepsInv(s: State, a: Action)
    requires Inv(s) && !a.OfManager? && !a.OfAgent?
    ensures Inv(Step(s, a))
  {
    UserTemplatesMove(s.tmpls, a);
    UserCrsMove(s.crs, a);
    OthersStay(s, Step(s, a), {});
  }

  /** Every reachable state satisfies the invariant. */
  lemma {:induction false} RunKeepsInv(s: State, actions: seq<Action>)
    requires Inv(s)
    ensures Inv(Run(s, actions))
  {
    if actions != [] {
      RunKeepsInv(s, actions[..|actions| - 1]);
      StepKeepsInv(Run(s, actions[..|actions| - 1]), actions[|actions| - 1]);
    }
  }

  lemma BehaviourKeepsInv(h: seq<State>, actions: seq<Action>)
    requires Behaviour(h, actions)
    ensures Inv(Last(h))
  {
    InitInv(h[0]);
    RunKeepsInv(h[0], actions);
    BehaviourEnds(h, actions);
  }
}
