/**
 * Templates of one kind share a worker and a name space. In no reachable state does a run for one of them
 * delete a CR that is labelled for another, although it deletes by name from a list made earlier.
 */
module Ownership {
  import opened Base
  import opened ApiObjects
  import opened ApiStore
  import opened Names
  import opened Protocol
  import opened ProtocolInvariant
  import SyncSafety

  /** Listed CRs still stored carry the template's labels, or no template's: users may have put them there anew. */
  ghost predicate OwnOrBare(crs: CrStore, tk: TemplateKey, todo: set<string>) {
    forall name :: name in todo && CrKey(tk.kind, name) in crs.objs ==>
      var cr := crs.objs[CrKey(tk.kind, name)]; LabelledFor(cr, tk) || TemplateName !in cr.labels
  }

  ghost predicate PcOwns(crs: CrStore, k: Kind, pc: ManagerPc) {
    pc.MOrphans? || pc.MDelete? ==> pc.tk.kind == k && OwnOrBare(crs, pc.tk, pc.todo)
  }

  ghost predicate OwnInv(s: State) {
    Inv(s) && forall k :: PcOwns(s.crs, k, ManagerOf(s, k))
  }

  /** No CR of this kind got other labels, and new ones have no template labels. */
  ghost predicate LabelsStay(crs: CrStore, crs': CrStore, k: Kind) {
    forall key :: key in crs'.objs && key.kind == k ==>
      if key in crs.objs then crs'.objs[key].labels == crs.objs[key].labels else TemplateName !in crs'.objs[key].labels
  }

  lemma LabelsStayOwns(crs: CrStore, crs': CrStore, k: Kind, pc: ManagerPc)
    requires PcOwns(crs, k, pc) && LabelsStay(crs, crs', k)
    ensures PcOwns(crs', k, pc)
  {
  }

  lemma DeleteLabelsStay(crs: CrStore, key: CrKey, j: Kind)
    ensures LabelsStay(crs, Or(Delete(crs, key), crs), j)
  {
  }

  lemma TakeLabelsStay(v: ManagerView, k: Kind, item: string, ok: bool, j: Kind)
    ensures LabelsStay(v.crs, ManagerTake(v, k, item, ok).crs, j)
  {
    DeleteLabelsStay(v.crs, CrKey(k, item), j);
  }

  lemma GoLabelsStay(v: ManagerView, k: Kind, j: Kind)
    requires j != k || !v.pc.MPut?
    ensures LabelsStay(v.crs, ManagerGo(v, k).crs, j)
  {
    if v.pc.MPut? {
      var crs' := ManagerGo(v, k).crs;
      assert crs' == Or(PutCr(v.crs, k, v.pc.tk, v.pc.tmpl, v.pc.node, v.pc.got), v.crs);
      forall key | key in crs'.objs && key.kind == j ensures Lookup(crs'.objs, key) == Lookup(v.crs.objs, key) {
        PutCrElsewhere(v.crs, k, v.pc.tk, v.pc.tmpl, v.pc.node, v.pc.got, key);
      }
    }
  }

  lemma ManagerLabelsStay(v: ManagerView, k: Kind, m: ManagerAct, j: Kind)
    requires j != k || !v.pc.MPut?
    ensures LabelsStay(v.crs, ManagerStep(v, k, m).crs, j)
  {
    match m
    case MTake(item, ok) => TakeLabelsStay(v, k, item, ok, j);
    case MGo => GoLabelsStay(v, k, j);
    case _ =>
  }

  lemma ManagerPcOwns(v: ManagerView, k: Kind, m: ManagerAct)
    requires ViewOk(v, k) && PcOwns(v.crs, k, v.pc)
    ensures PcOwns(ManagerStep(v, k, m).crs, k, ManagerStep(v, k, m).pc)
  {
    if !v.pc.MPut? {
      ManagerLabelsStay(v, k, m, k);
    }
  }

  lemma AgentLabelsStay(v: AgentView, n: string, k: Kind, a: AgentAct, j: Kind)
    requires CrsOk(v.crs) && AgentOk(v.crs, n, k, v.pc)
    ensures LabelsStay(v.crs, AgentStep(v, n, k, a).crs, j)
  {
    SyncSafety.AgentAddsNoCr(v, n, k, a);
    forall key | key in AgentStep(v, n, k, a).crs.objs
      ensures AgentStep(v, n, k, a).crs.objs[key].labels == v.crs.objs[key].labels
    {
      SyncSafety.AgentKeepsManagerSide(v, n, k, a, key);
    }
  }

  lemma UserLabelsStay(crs: CrStore, a: Action, j: Kind)
    ensures LabelsStay(crs, UserCrs(crs, a), j)
  {
  }

  lemma StepKeepsOwnInv(s: State, a: Action)
    requires OwnInv(s)
    ensures OwnInv(Step(s, a))
  {
    StepKeepsInv(s, a);
    forall j ensures PcOwns(Step(s, a).crs, j, ManagerOf(Step(s, a), j)) {
      assert PcOwns(s.crs, j, ManagerOf(s, j));
      match a
      case OfManager(k, m) => ManagerKeepsOwns(s, k, m, j);
      case OfAgent(n, k, m) =>
        assert AgentOk(s.crs, n, k, AgentOf(s, n, k));
        AgentLabelsStay(AgentViewOf(s, n, k), n, k, m, j);
        LabelsStayOwns(s.crs, Step(s, a).crs, j, ManagerOf(s, j));
      case _ =>
        UserLabelsStay(s.crs, a, j);
        LabelsStayOwns(s.crs, Step(s, a).crs, j, ManagerOf(s, j));
    }
  }

  lemma ManagerKeepsOwns(s: State, k: Kind, m: ManagerAct, j: Kind)
    requires OwnInv(s)
    ensures PcOwns(Step(s, OfManager(k, m)).crs, j, ManagerOf(Step(s, OfManager(k, m)), j))
  {
    assert ManagerOk(s.tmpls, s.crs, k, ManagerOf(s, k)) && PcOwns(s.crs, k, ManagerOf(s, k)) && PcOwns(s.crs, j, ManagerOf(s, j));
    if j == k {
      ManagerPcOwns(ManagerViewOf(s, k), k, m);
    } else {
      ManagerLabelsStay(ManagerViewOf(s, k), k, m, j);
      LabelsStayOwns(s.crs, Step(s, OfManager(k, m)).crs, j, ManagerOf(s, j));
    }
  }

  lemma {:induction false} RunKeepsOwnInv(s: State, actions: seq<Action>)
    requires Init(s)
    ensures OwnInv(Run(s, actions))
  {
    if actions == [] {
      InitInv(s);
    } else {
      RunKeepsOwnInv(s, actions[..|actions| - 1]);
      StepKeepsOwnInv(Run(s, actions[..|actions| - 1]), actions[|actions| - 1]);
    }
  }

  /** A step for one template leaves every CR alone that is labelled for another, except to sync its own device name. */
  lemma NeverDeletesAnothers(h: seq<State>, actions: seq<Action>, k: Kind, m: ManagerAct, other: TemplateKey, key: CrKey)
    requires Behaviour(h, actions) && key in Last(h).crs.objs && other.kind == key.kind && LabelledFor(Last(h).crs.objs[key], other)
    requires var pc := ManagerOf(Last(h), k); !pc.MIdle? ==> pc.tk != other
    ensures var s1 := Last(h); var s2 := Step(s1, OfManager(k, m)); var pc := ManagerOf(s1, k);
            && key in s2.crs.objs
            && (s2.crs.objs[key] == s1.crs.objs[key] || (pc.MPut? && key == CrKey(k, Join(pc.node, pc.tmpl.spec.devName))))
            && (s1.crs.objs[key].terminating == s2.crs.objs[key].terminating)
  {
    RunKeepsOwnInv(h[0], actions);
    BehaviourEnds(h, actions);
    var v := ManagerViewOf(Last(h), k);
    assert ManagerOk(Last(h).tmpls, Last(h).crs, k, v.pc) && PcOwns(Last(h).crs, k, v.pc);
    StepLeavesAnothers(v, k, m, other, key);
  }

  lemma StepLeavesAnothers(v: ManagerView, k: Kind, m: ManagerAct, other: TemplateKey, key: CrKey)
    requires ViewOk(v, k) && PcOwns(v.crs, k, v.pc) && (!v.pc.MIdle? ==> v.pc.tk != other)
    requires key in v.crs.objs && other.kind == key.kind && LabelledFor(v.crs.objs[key], other)
    ensures var crs' := ManagerStep(v, k, m).crs;
            && key in crs'.objs && crs'.objs[key].terminating == v.crs.objs[key].terminating
            && (crs'.objs[key] == v.crs.objs[key] || (v.pc.MPut? && key == CrKey(k, Join(v.pc.node, v.pc.tmpl.spec.devName))))
  {
    if m.MGo? && v.pc.MPut? {
      PutKeepsMark(v.crs, k, v.pc.tk, v.pc.tmpl, v.pc.node, v.pc.got, key);
    }
  }

  /** A sync never marks or removes a CR. */
  lemma PutKeepsMark(crs: CrStore, k: Kind, tk: TemplateKey, t: Template, node: string, got: Option<Cr>, key: CrKey)
    requires CrsOk(crs) && key in crs.objs
    requires got.Some? ==> CopyOk(crs, CrKey(k, Join(node, t.spec.devName)), got.value)
    ensures var crs' := Or(PutCr(crs, k, tk, t, node, got), crs);
            && key in crs'.objs && crs'.objs[key].terminating == crs.objs[key].terminating
            && (crs'.objs[key] == crs.objs[key] || key == CrKey(k, Join(node, t.spec.devName)))
  {
  }
}
