/**
 * What one step of a manager does to the ranks. A manager whose copy of the template is that of the surroundings
 * lowers the rank of every CR it writes. One that was in flight with an older copy when the users fell silent has a
 * bounded number of writes ahead.
 */
module ManagerRank {
  import opened Base
  import opened ApiObjects
  import opened ApiStore
  import opened Names
  import opened Protocol
  import opened ProtocolInvariant
  import opened Rank
  import opened AgentRank

  // What the managers know of the surroundings

  predicate TemplateFits(e: Env, tk: TemplateKey, t: Template) {
    && tk in e.known
    && (t.terminating <==> tk !in e.live)
    && (tk in e.live ==> e.live[tk].dev == t.spec.devName && e.live[tk].spec == t.spec.spec && e.live[tk].generation == t.generation)
  }

  ghost predicate TemplatesFit(e: Env, tmpls: TemplateStore) {
    && e.live.Keys <= tmpls.objs.Keys
    && forall tk :: tk in tmpls.objs ==> TemplateFits(e, tk, tmpls.objs[tk])
  }

  /** The plans are about nodes and names in play, and enslave none of our devices. */
  ghost predicate PlansFit(e: Env) {
    && DistinctDevices(e) && KeysFit(e.keys)
    && (forall tk :: tk in e.live ==> e.live[tk].nodes <= e.all && SlaveFree(e, e.live[tk].spec))
    && forall tk, key :: Wants(e, tk, key) ==> key in e.keys
  }

  /** What is left on a deletion list still carries the labels it was listed for. */
  ghost predicate StillLabelled(crs: CrStore, tk: TemplateKey, todo: set<string>) {
    forall name :: name in todo && CrKey(tk.kind, name) in crs.objs ==> LabelledFor(crs.objs[CrKey(tk.kind, name)], tk)
  }

  /** The manager works on the template as it now is, for the nodes selected now. */
  ghost predicate UpToDate(e: Env, crs: CrStore, pc: ManagerPc) {
    pc.MIdle? || (
      && TemplateFits(e, pc.tk, pc.tmpl)
      && (pc.MListNodes? || pc.MSync? || pc.MPut? || pc.MOrphans? || pc.MReady? ==> pc.tk in e.live)
      && (pc.MListOwned? || pc.MDelete? ==> pc.tk !in e.live)
      && (pc.MSync? || pc.MPut? || pc.MOrphans? ==> pc.nodes == e.live[pc.tk].nodes)
      && (pc.MSync? ==> pc.todo <= pc.nodes) && (pc.MPut? ==> pc.node in pc.nodes && pc.todo <= pc.nodes)
      && (pc.MOrphans? || pc.MDelete? ==> StillLabelled(crs, pc.tk, pc.todo)))
  }

  predicate Covered(e: Env, k: Kind, t: Template, nodes: set<string>) {
    SlaveFree(e, t.spec.spec) && forall node :: node in nodes ==> CrKey(k, Join(node, t.spec.devName)) in e.keys
  }

  /** The CRs a manager may still write are in play. */
  ghost predicate ManagerCovered(e: Env, crs: CrStore, k: Kind, pc: ManagerPc) {
    match pc
    case MListNodes(_, t) => UpToDate(e, crs, pc) || Covered(e, k, t, e.all)
    case MSync(_, t, _, todo) => Covered(e, k, t, todo)
    case MPut(_, t, _, todo, node, _) => Covered(e, k, t, todo + {node})
    case _ => true
  }

  /** The selection of nodes is constant and can be evaluated. */
  ghost predicate CalmManager(e: Env, v: ManagerView, m: ManagerAct) {
    && !m.MBadSelector?
    && (m.MNodes? && v.pc.MListNodes? ==>
          m.nodes <= e.all && (TemplateFits(e, v.pc.tk, v.pc.tmpl) && v.pc.tk in e.live ==> m.nodes == e.live[v.pc.tk].nodes))
  }

  ghost predicate ManagerFits(e: Env, v: ManagerView, k: Kind) {
    PlansFit(e) && ViewOk(v, k) && TemplatesFit(e, v.tmpls) && CrsFit(e, v.crs) && ManagerCovered(e, v.crs, k, v.pc)
  }

  // Writes of CRs

  function At(crs: CrStore, key: CrKey, x: Spot): Spot {
    x.(cr := Lookup(crs.objs, key))
  }

  lemma UnwrittenFalls(e: Env, key: CrKey, x: Spot)
    ensures Falls(e, key, x, x)
  {
  }

  /** What a sync makes of the CR it is about. */
  lemma PutWrites(v: ManagerView, k: Kind)
    requires ViewOk(v, k) && v.pc.MPut? && PutCr(v.crs, k, v.pc.tk, v.pc.tmpl, v.pc.node, v.pc.got).Some?
    ensures var key := CrKey(k, Join(v.pc.node, v.pc.tmpl.spec.devName));
            var crs' := PutCr(v.crs, k, v.pc.tk, v.pc.tmpl, v.pc.node, v.pc.got).value;
            if v.pc.got.Some? && SyncedCopy(v.pc.tk, v.pc.tmpl, v.pc.node, v.pc.got.value) == v.pc.got.value then crs' == v.crs
            else if key !in v.crs.objs then
              key in crs'.objs && crs'.objs[key].(rv := 0) == Fresh(SyncLabels(map[], v.pc.tk, v.pc.node), v.pc.tmpl.spec.spec)
            else
              var c := v.crs.objs[key];
              && key in crs'.objs && v.pc.got == Some(c)
              && crs'.objs[key].(rv := 0) == Edited(c, SyncLabels(c.labels, v.pc.tk, v.pc.node), v.pc.tmpl.spec.spec, c.finalizer).(rv := 0)
  {
  }

  lemma PutFallsHere(e: Env, v: ManagerView, k: Kind, key: CrKey, x: Spot)
    requires ManagerFits(e, v, k) && v.pc.MPut? && UpToDate(e, v.crs, v.pc)
    requires key == CrKey(k, Join(v.pc.node, v.pc.tmpl.spec.devName)) && (key !in v.crs.objs ==> !On(key, x.pc))
    requires PutCr(v.crs, k, v.pc.tk, v.pc.tmpl, v.pc.node, v.pc.got).Some?
    ensures Falls(e, key, At(v.crs, key, x), At(PutCr(v.crs, k, v.pc.tk, v.pc.tmpl, v.pc.node, v.pc.got).value, key, x))
  {
    var tk, t, node, got := v.pc.tk, v.pc.tmpl, v.pc.node, v.pc.got;
    OwnerOfJoin(node, t.spec.devName);
    assert Wants(e, tk, key);
    ClaimIsUnique(e, tk, key);
    PutWrites(v, k);
    var crs' := PutCr(v.crs, k, tk, t, node, got).value;
    if crs' == v.crs {
      UnwrittenFalls(e, key, At(v.crs, key, x));
    } else if key !in v.crs.objs {
      CreateFalls(e, key, tk, node, crs'.objs[key], At(v.crs, key, x), At(crs', key, x));
    } else {
      SyncFalls(e, key, tk, node, v.crs.objs[key], crs'.objs[key], At(v.crs, key, x), At(crs', key, x));
    }
  }

  lemma PutFalls(e: Env, v: ManagerView, k: Kind, key: CrKey, x: Spot)
    requires ManagerFits(e, v, k) && v.pc.MPut? && UpToDate(e, v.crs, v.pc) && (key !in v.crs.objs ==> !On(key, x.pc))
    ensures Falls(e, key, At(v.crs, key, x), At(ManagerGo(v, k).crs, key, x))
  {
    var tk, t, node, got := v.pc.tk, v.pc.tmpl, v.pc.node, v.pc.got;
    assert ManagerGo(v, k).crs == Or(PutCr(v.crs, k, tk, t, node, got), v.crs);
    if key != CrKey(k, Join(node, t.spec.devName)) {
      PutCrElsewhere(v.crs, k, tk, t, node, got, key);
      UnwrittenFalls(e, key, At(v.crs, key, x));
    } else if PutCr(v.crs, k, tk, t, node, got).Some? {
      PutFallsHere(e, v, k, key, x);
    } else {
      UnwrittenFalls(e, key, At(v.crs, key, x));
    }
  }

  /** Taking an item off a list deletes its CR or none. */
  lemma TakeWrites(v: ManagerView, k: Kind, item: string, ok: bool)
    ensures var crs' := ManagerTake(v, k, item, ok).crs;
            crs' == v.crs || (
              && crs' == Or(Delete(v.crs, CrKey(k, item)), v.crs)
              && ((v.pc.MDelete? && item in v.pc.todo)
                  || (v.pc.MOrphans? && item in v.pc.todo && forall n :: n in v.pc.nodes ==> item != Join(n, v.pc.tmpl.spec.devName))))
  {
  }

  lemma DeleteWrites(crs: CrStore, key: CrKey)
    ensures var cr' := Lookup(Or(Delete(crs, key), crs).objs, key);
            if key !in crs.objs then cr' == None
            else
              && Deleted(crs.objs[key]).Some? == cr'.Some? && (cr'.Some? ==> cr'.value.(rv := 0) == Deleted(crs.objs[key]).value.(rv := 0))
              && (Deleted(crs.objs[key]) == Some(crs.objs[key]) ==> cr' == Some(crs.objs[key]))
    ensures forall other :: other != key ==> Lookup(Or(Delete(crs, key), crs).objs, other) == Lookup(crs.objs, other)
  {
  }

  lemma TakeFalls(e: Env, v: ManagerView, k: Kind, item: string, ok: bool, key: CrKey, x: Spot)
    requires ManagerFits(e, v, k) && UpToDate(e, v.crs, v.pc)
    ensures Falls(e, key, At(v.crs, key, x), At(ManagerTake(v, k, item, ok).crs, key, x))
  {
    var crs' := ManagerTake(v, k, item, ok).crs;
    TakeWrites(v, k, item, ok);
    DeleteWrites(v.crs, CrKey(k, item));
    if crs' != v.crs && key == CrKey(k, item) && key in v.crs.objs {
      ClaimIsUnique(e, v.pc.tk, key);
      assert !Wants(e, v.pc.tk, key);
      DeleteFalls(e, key, v.pc.tk, v.crs.objs[key], Lookup(crs'.objs, key), At(v.crs, key, x), At(crs', key, x));
    } else {
      UnwrittenFalls(e, key, At(v.crs, key, x));
    }
  }

  /** Where a manager's step writes CRs, if it does. */
  lemma StepCrs(v: ManagerView, k: Kind, m: ManagerAct)
    ensures ManagerStep(v, k, m).crs
         == if m.MTake? then ManagerTake(v, k, m.item, m.ok).crs else if m.MGo? && v.pc.MPut? then ManagerGo(v, k).crs else v.crs
  {
  }

  lemma StepFallsTo(e: Env, v: ManagerView, k: Kind, m: ManagerAct, crs': CrStore, key: CrKey, x: Spot)
    requires ManagerFits(e, v, k) && UpToDate(e, v.crs, v.pc) && (key !in v.crs.objs ==> !On(key, x.pc))
    requires crs' == if m.MTake? then ManagerTake(v, k, m.item, m.ok).crs else if m.MGo? && v.pc.MPut? then ManagerGo(v, k).crs else v.crs
    ensures Falls(e, key, At(v.crs, key, x), At(crs', key, x))
  {
    if m.MTake? {
      TakeFalls(e, v, k, m.item, m.ok, key, x);
    } else if m.MGo? && v.pc.MPut? {
      PutFalls(e, v, k, key, x);
    } else {
      UnwrittenFalls(e, key, At(v.crs, key, x));
    }
  }

  /** A step of an up-to-date manager, as seen by any CR. */
  lemma ManagerFalls(e: Env, v: ManagerView, k: Kind, m: ManagerAct, key: CrKey, x: Spot)
    requires ManagerFits(e, v, k) && UpToDate(e, v.crs, v.pc) && (key !in v.crs.objs ==> !On(key, x.pc))
    ensures Falls(e, key, At(v.crs, key, x), At(ManagerStep(v, k, m).crs, key, x))
  {
    StepCrs(v, k, m);
    StepFallsTo(e, v, k, m, ManagerStep(v, k, m).crs, key, x);
  }

  // Being up to date, and staying within the names in play

  lemma GoStaysUpToDate(e: Env, v: ManagerView, k: Kind)
    requires ManagerFits(e, v, k) && UpToDate(e, v.crs, v.pc)
    ensures UpToDate(e, ManagerGo(v, k).crs, ManagerGo(v, k).pc)
  {
  }

  lemma TakeStaysUpToDate(e: Env, v: ManagerView, k: Kind, item: string, ok: bool)
    requires ManagerFits(e, v, k) && UpToDate(e, v.crs, v.pc)
    ensures UpToDate(e, ManagerTake(v, k, item, ok).crs, ManagerTake(v, k, item, ok).pc)
  {
  }

  lemma StepStaysUpToDate(e: Env, v: ManagerView, k: Kind, m: ManagerAct)
    requires ManagerFits(e, v, k) && UpToDate(e, v.crs, v.pc) && CalmManager(e, v, m)
    ensures UpToDate(e, ManagerStep(v, k, m).crs, ManagerStep(v, k, m).pc)
  {
    match m
    case MTake(item, ok) => TakeStaysUpToDate(e, v, k, item, ok);
    case MGo => GoStaysUpToDate(e, v, k);
    case _ =>
  }

  lemma GoTemplatesFit(e: Env, v: ManagerView, k: Kind)
    requires ViewOk(v, k) && TemplatesFit(e, v.tmpls)
    ensures TemplatesFit(e, ManagerGo(v, k).tmpls)
  {
  }

  lemma PlanIsCovered(e: Env, tk: TemplateKey, t: Template)
    requires PlansFit(e) && tk in e.live && TemplateFits(e, tk, t)
    ensures Covered(e, tk.kind, t, e.live[tk].nodes)
  {
    forall node | node in e.live[tk].nodes ensures CrKey(tk.kind, Join(node, t.spec.devName)) in e.keys {
      assert Wants(e, tk, CrKey(tk.kind, Join(node, t.spec.devName)));
    }
  }

  lemma StepStaysCovered(e: Env, v: ManagerView, k: Kind, m: ManagerAct)
    requires ManagerFits(e, v, k) && CalmManager(e, v, m)
    ensures ManagerCovered(e, ManagerStep(v, k, m).crs, k, ManagerStep(v, k, m).pc)
  {
    if m.MNodes? && v.pc.MListNodes? && UpToDate(e, v.crs, v.pc) {
      PlanIsCovered(e, v.pc.tk, v.pc.tmpl);
    }
  }

  lemma PutFitsCrs(e: Env, v: ManagerView, k: Kind)
    requires ManagerFits(e, v, k) && v.pc.MPut? && PutCr(v.crs, k, v.pc.tk, v.pc.tmpl, v.pc.node, v.pc.got).Some?
    ensures CrsFit(e, PutCr(v.crs, k, v.pc.tk, v.pc.tmpl, v.pc.node, v.pc.got).value)
  {
  }

  lemma DeletingFits(e: Env, crs: CrStore, key: CrKey)
    requires CrsFit(e, crs)
    ensures CrsFit(e, Or(Delete(crs, key), crs))
  {
  }

  lemma TakeFitsCrs(e: Env, v: ManagerView, k: Kind, item: string, ok: bool)
    requires ManagerFits(e, v, k)
    ensures CrsFit(e, ManagerTake(v, k, item, ok).crs)
  {
    TakeWrites(v, k, item, ok);
    DeletingFits(e, v.crs, CrKey(k, item));
  }

  lemma ManagerStaysFit(e: Env, v: ManagerView, k: Kind, m: ManagerAct)
    requires ManagerFits(e, v, k) && CalmManager(e, v, m)
    ensures ManagerFits(e, ManagerStep(v, k, m), k)
  {
    ManagerStepOk(v, k, m);
    StepStaysCovered(e, v, k, m);
    if m.MGo? {
      GoTemplatesFit(e, v, k);
      if v.pc.MPut? {
        assert ManagerGo(v, k).crs == Or(PutCr(v.crs, k, v.pc.tk, v.pc.tmpl, v.pc.node, v.pc.got), v.crs);
        if PutCr(v.crs, k, v.pc.tk, v.pc.tmpl, v.pc.node, v.pc.got).Some? {
          PutFitsCrs(e, v, k);
        }
      }
    } else if m.MTake? {
      TakeFitsCrs(e, v, k, m.item, m.ok);
    }
  }

  // Templates

  function FinalCondition(e: Env, tk: TemplateKey): Condition
    requires tk in e.live
  {
    Condition(true, "ReconcileSucceeded", e.live[tk].generation)
  }

  /** The writes of its own that a template is still waiting for. */
  function TemplateRank(e: Env, tk: TemplateKey, t: Option<Template>): nat {
    if t.None? then 0
    else if tk in e.live then One(!t.value.finalizer) + One(t.value.status.ready != Some(FinalCondition(e, tk)))
    else 1
  }

  /** The manager is about to report a failure: somebody changed the CR between its get and its put. */
  ghost predicate InTrouble(e: Env, crs: CrStore, k: Kind, pc: ManagerPc)
    requires UpToDate(e, crs, pc)
  {
    || (pc.MPut? && PutCr(crs, k, pc.tk, pc.tmpl, pc.node, pc.got).None?)
    || (pc.MReady? && pc.condition != FinalCondition(e, pc.tk))
  }

  /** A report of failure costs two writes of the condition: its own, and the one that mends it. */
  ghost function Trouble(e: Env, crs: CrStore, k: Kind, pc: ManagerPc): nat {
    if pc.MIdle? then 0
    else if UpToDate(e, crs, pc) && !InTrouble(e, crs, k, pc) then 0
    else 2
  }

  ghost predicate TemplatesFall(e: Env, v: ManagerView, v': ManagerView, k: Kind) {
    && (v.pc.MIdle? ==> v'.tmpls == v.tmpls)
    && (!v.pc.MIdle? ==>
          && (forall tk :: tk != v.pc.tk ==> Lookup(v'.tmpls.objs, tk) == Lookup(v.tmpls.objs, tk))
          && TemplateRank(e, v.pc.tk, Lookup(v'.tmpls.objs, v.pc.tk)) + Trouble(e, v'.crs, k, v'.pc)
             + One(Lookup(v'.tmpls.objs, v.pc.tk) != Lookup(v.tmpls.objs, v.pc.tk))
             <= TemplateRank(e, v.pc.tk, Lookup(v.tmpls.objs, v.pc.tk)) + Trouble(e, v.crs, k, v.pc))
    && (v.pc.MIdle? ==> Trouble(e, v'.crs, k, v'.pc) == 0)
  }

  lemma AddFinalizerTemplates(e: Env, v: ManagerView, k: Kind)
    requires ManagerFits(e, v, k) && v.pc.MAddFinalizer?
    ensures TemplatesFall(e, v, ManagerGo(v, k), k)
  {
  }

  lemma DropFinalizerTemplates(e: Env, v: ManagerView, k: Kind)
    requires ManagerFits(e, v, k) && v.pc.MDelete? && v.pc.todo == {}
    ensures TemplatesFall(e, v, ManagerGo(v, k), k)
  {
  }

  lemma ReportTemplates(e: Env, v: ManagerView, k: Kind)
    requires ManagerFits(e, v, k) && v.pc.MReady?
    ensures TemplatesFall(e, v, ManagerGo(v, k), k)
  {
  }

  lemma QuietGoTemplates(e: Env, v: ManagerView, k: Kind)
    requires ManagerFits(e, v, k) && !v.pc.MAddFinalizer? && !v.pc.MDelete? && !v.pc.MReady?
    ensures TemplatesFall(e, v, ManagerGo(v, k), k)
  {
    if UpToDate(e, v.crs, v.pc) {
      GoStaysUpToDate(e, v, k);
    }
  }

  lemma UnwrittenTemplatesFall(e: Env, v: ManagerView, v': ManagerView, k: Kind)
    requires v'.tmpls == v.tmpls && Trouble(e, v'.crs, k, v'.pc) <= Trouble(e, v.crs, k, v.pc)
    ensures TemplatesFall(e, v, v', k)
  {
  }

  /** A CR just read is there to be put. */
  lemma TakeBringsNoTrouble(e: Env, v: ManagerView, k: Kind, item: string, ok: bool)
    requires ManagerFits(e, v, k)
    ensures Trouble(e, ManagerTake(v, k, item, ok).crs, k, ManagerTake(v, k, item, ok).pc) <= Trouble(e, v.crs, k, v.pc)
  {
    if UpToDate(e, v.crs, v.pc) {
      TakeStaysUpToDate(e, v, k, item, ok);
    }
  }

  lemma TakeTemplates(e: Env, v: ManagerView, k: Kind, item: string, ok: bool)
    requires ManagerFits(e, v, k)
    ensures TemplatesFall(e, v, ManagerTake(v, k, item, ok), k)
  {
    TakeBringsNoTrouble(e, v, k, item, ok);
    UnwrittenTemplatesFall(e, v, ManagerTake(v, k, item, ok), k);
  }

  lemma StepTemplates(e: Env, v: ManagerView, k: Kind, m: ManagerAct)
    requires ManagerFits(e, v, k) && CalmManager(e, v, m)
    ensures TemplatesFall(e, v, ManagerStep(v, k, m), k)
  {
    match m
    case MTake(item, ok) => TakeTemplates(e, v, k, item, ok);
    case MGo =>
      if v.pc.MAddFinalizer? {
        AddFinalizerTemplates(e, v, k);
      } else if v.pc.MReady? {
        ReportTemplates(e, v, k);
      } else if v.pc.MDelete? && v.pc.todo == {} {
        DropFinalizerTemplates(e, v, k);
      } else if !v.pc.MDelete? {
        QuietGoTemplates(e, v, k);
      }
    case _ =>
      if UpToDate(e, v.crs, v.pc) {
        StepStaysUpToDate(e, v, k, m);
      }
  }

  // Managers in flight with an older copy

  /** The writes ahead of a worker that is not up to date. */
  ghost function Stale(e: Env, crs: CrStore, pc: ManagerPc): nat {
    if UpToDate(e, crs, pc) then 0
    else match pc
      case MListNodes(_, _) => |e.all| + |e.keys|
      case MSync(_, _, _, todo) => |todo| + |e.keys|
      case MPut(_, _, _, todo, _, _) => |todo| + 1 + |e.keys|
      case MOrphans(_, _, _, todo) => |todo|
      case MListOwned(_, _) => |e.keys|
      case MDelete(_, _, todo) => |todo|
      case _ => 0
  }

  lemma {:induction false} NamesAreFewer(names: set<string>, keys: set<CrKey>, k: Kind)
    requires forall name :: name in names ==> CrKey(k, name) in keys
    ensures |names| <= |keys|
  {
    if names != {} {
      var name :| name in names;
      NamesAreFewer(names - {name}, keys - {CrKey(k, name)}, k);
      assert |names - {name}| == |names| - 1 && |keys - {CrKey(k, name)}| == |keys| - 1;
    }
  }

  lemma {:induction false} SubsetSize(a: set<string>, b: set<string>)
    requires a <= b
    ensures |a| <= |b|
  {
    if a != {} {
      var x :| x in a;
      SubsetSize(a - {x}, b - {x});
      assert |a - {x}| == |a| - 1 && |b - {x}| == |b| - 1;
    }
  }

  lemma OwnedAreFew(e: Env, crs: CrStore, tk: TemplateKey)
    requires CrsFit(e, crs)
    ensures |Owned(crs, tk)| <= |e.keys|
  {
    NamesAreFewer(Owned(crs, tk), e.keys, tk.kind);
  }

  lemma TakeStale(e: Env, v: ManagerView, k: Kind, item: string, ok: bool)
    requires ManagerFits(e, v, k)
    ensures var v' := ManagerTake(v, k, item, ok);
            && Stale(e, v'.crs, v'.pc) <= Stale(e, v.crs, v.pc)
            && (!UpToDate(e, v.crs, v.pc) && v'.crs != v.crs ==> Stale(e, v'.crs, v'.pc) < Stale(e, v.crs, v.pc))
  {
    if UpToDate(e, v.crs, v.pc) {
      TakeStaysUpToDate(e, v, k, item, ok);
    } else if (v.pc.MSync? || v.pc.MOrphans? || v.pc.MDelete?) && item in v.pc.todo {
      assert |v.pc.todo - {item}| == |v.pc.todo| - 1;
    }
  }

  lemma GoStale(e: Env, v: ManagerView, k: Kind)
    requires ManagerFits(e, v, k)
    ensures var v' := ManagerGo(v, k);
            && Stale(e, v'.crs, v'.pc) <= Stale(e, v.crs, v.pc)
            && (!UpToDate(e, v.crs, v.pc) && v'.crs != v.crs ==> Stale(e, v'.crs, v'.pc) < Stale(e, v.crs, v.pc))
  {
    if UpToDate(e, v.crs, v.pc) {
      GoStaysUpToDate(e, v, k);
    } else if v.pc.MSync? || v.pc.MListOwned? {
      OwnedAreFew(e, v.crs, v.pc.tk);
    }
  }

  lemma StepStale(e: Env, v: ManagerView, k: Kind, m: ManagerAct)
    requires ManagerFits(e, v, k) && CalmManager(e, v, m)
    ensures var v' := ManagerStep(v, k, m);
            && Stale(e, v'.crs, v'.pc) <= Stale(e, v.crs, v.pc)
            && (!UpToDate(e, v.crs, v.pc) && v'.crs != v.crs ==> Stale(e, v'.crs, v'.pc) < Stale(e, v.crs, v.pc))
  {
    match m
    case MTake(item, ok) => TakeStale(e, v, k, item, ok);
    case MGo => GoStale(e, v, k);
    case MNodes(nodes) =>
      if v.pc.MListNodes? {
        SubsetSize(nodes, e.all);
      }
      if UpToDate(e, v.crs, v.pc) {
        StepStaysUpToDate(e, v, k, m);
      }
    case _ =>
      if UpToDate(e, v.crs, v.pc) {
        StepStaysUpToDate(e, v, k, m);
      }
  }
}
