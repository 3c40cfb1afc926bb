/**
 * Cascading deletion: once a template is gone, or has lost its finalizer, no live CR carries its labels,
 * however the run went. The template controller ignores failing CR deletes while it
 * tears down; the theorem assumes that those fail only when the CR is not there.
 */
module Cascade {
  import opened Base
  import opened ApiObjects
  import opened ApiStore
  import opened Names
  import opened Protocol
  import opened ProtocolInvariant

  predicate Live(crs: CrStore, tk: TemplateKey, key: CrKey) {
    key in crs.objs && key.kind == tk.kind && LabelledFor(crs.objs[key], tk) && !crs.objs[key].terminating
  }

  /** The template is stored with its finalizer. */
  predicate Guarded(tmpls: TemplateStore, tk: TemplateKey) {
    tk in tmpls.objs && tmpls.objs[tk].finalizer
  }

  ghost predicate NoLive(crs: CrStore, tk: TemplateKey) {
    forall key :: !Live(crs, tk, key)
  }

  /** The positions at which a manager may write or delete CRs for a template. */
  predicate Works(pc: ManagerPc) {
    !pc.MIdle? && !pc.MAddFinalizer?
  }

  /** While it works the template stays guarded; while it tears down it has every live CR on its list. */
  ghost predicate PcGuards(tmpls: TemplateStore, crs: CrStore, k: Kind, pc: ManagerPc) {
    && (Works(pc) ==> pc.tk.kind == k && Guarded(tmpls, pc.tk))
    && (pc.MDelete? ==> forall key :: Live(crs, pc.tk, key) ==> key.name in pc.todo)
  }

  ghost predicate CascadeInv(s: State) {
    && Inv(s)
    && (forall tk :: !Guarded(s.tmpls, tk) ==> NoLive(s.crs, tk))
    && (forall k :: PcGuards(s.tmpls, s.crs, k, ManagerOf(s, k)))
  }

  /** The step is not a teardown's CR delete that failed although it was sent for an existing CR. */
  predicate DeletesCrs(s: State, a: Action) {
    a.OfManager? && a.mact.MTake? && ManagerOf(s, a.kind).MDelete? ==> a.mact.ok
  }

  /** Nothing comes to life under a template's labels. */
  ghost predicate NoneBorn(crs: CrStore, crs': CrStore, tk: TemplateKey) {
    forall key :: Live(crs', tk, key) ==> Live(crs, tk, key)
  }

  /** Guards are dropped only by the manager of the template's kind. */
  ghost predicate GuardsStay(tmpls: TemplateStore, tmpls': TemplateStore, but: set<TemplateKey>) {
    forall tk :: Guarded(tmpls, tk) && tk !in but ==> Guarded(tmpls', tk)
  }

  // What the steps do

  lemma DeleteBearsNothing(crs: CrStore, key: CrKey, tk: TemplateKey)
    ensures NoneBorn(crs, Or(Delete(crs, key), crs), tk)
    ensures !Live(Or(Delete(crs, key), crs), tk, key)
  {
  }

  lemma UserBearsNothing(crs: CrStore, a: Action, tk: TemplateKey)
    ensures NoneBorn(crs, UserCrs(crs, a), tk)
  {
    if a.DeleteCr? {
      DeleteBearsNothing(crs, a.key, tk);
    }
  }

  lemma UserKeepsGuards(tmpls: TemplateStore, a: Action)
    ensures GuardsStay(tmpls, UserTemplates(tmpls, a), {})
  {
  }

  lemma AgentBearsNothing(v: AgentView, n: string, k: Kind, a: AgentAct, tk: TemplateKey)
    requires CrsOk(v.crs) && AgentOk(v.crs, n, k, v.pc)
    ensures NoneBorn(v.crs, AgentStep(v, n, k, a).crs, tk)
  {
    if a.AGo? {
      if WritesCrs(v.pc) {
        AgentWriteBearsNothing(v, n, k, a.ok, tk);
      } else {
        AgentQuietOk(v, n, k, a.ok);
      }
    }
  }

  lemma FinalizerBearsNothing(v: AgentView, n: string, k: Kind, ok: bool, tk: TemplateKey)
    requires CrsOk(v.crs) && AgentOk(v.crs, n, k, v.pc) && (v.pc.AAddFinalizer? || v.pc.ADropFinalizer?)
    ensures NoneBorn(v.crs, AgentGo(v, n, k, ok).crs, tk)
  {
  }

  lemma StatusBearsNothing(v: AgentView, n: string, k: Kind, ok: bool, tk: TemplateKey)
    requires v.pc.AFailed? || v.pc.AReady?
    ensures NoneBorn(v.crs, AgentGo(v, n, k, ok).crs, tk)
  {
  }

  lemma IPBearsNothing(v: AgentView, k: Kind, t: Task, ok: bool, tk: TemplateKey)
    ensures NoneBorn(v.crs, AgentPatchIP(v, k, t, ok).crs, tk)
  {
  }

  lemma AgentWriteBearsNothing(v: AgentView, n: string, k: Kind, ok: bool, tk: TemplateKey)
    requires CrsOk(v.crs) && AgentOk(v.crs, n, k, v.pc) && WritesCrs(v.pc)
    ensures NoneBorn(v.crs, AgentGo(v, n, k, ok).crs, tk)
  {
    if v.pc.APatchIP? {
      assert AgentGo(v, n, k, ok) == AgentPatchIP(v, k, v.pc.task, ok);
      IPBearsNothing(v, k, v.pc.task, ok, tk);
    } else if v.pc.AFailed? || v.pc.AReady? {
      StatusBearsNothing(v, n, k, ok, tk);
    } else {
      FinalizerBearsNothing(v, n, k, ok, tk);
    }
  }

  /** A sync bears live CRs for its own template only. */
  lemma PutCrBearsOwn(crs: CrStore, k: Kind, tk: TemplateKey, t: Template, node: string, got: Option<Cr>, other: TemplateKey)
    requires CrsOk(crs) && PutCr(crs, k, tk, t, node, got).Some? && tk.kind == k && other != tk
    requires got.Some? ==> CopyOk(crs, CrKey(k, Join(node, t.spec.devName)), got.value)
    ensures NoneBorn(crs, PutCr(crs, k, tk, t, node, got).value, other)
  {
  }

  /** The template whose finalizer this step may remove. */
  function Dropped(pc: ManagerPc, a: ManagerAct): set<TemplateKey> {
    if pc.MDelete? && a.MGo? && pc.todo == {} then {pc.tk} else {}
  }

  lemma ManagerKeepsGuards(v: ManagerView, k: Kind, a: ManagerAct)
    requires ViewOk(v, k)
    ensures GuardsStay(v.tmpls, ManagerStep(v, k, a).tmpls, Dropped(v.pc, a))
  {
    if a.MGo? {
      match v.pc
      case MAddFinalizer(tk, t) => assert CopyOk(v.tmpls, tk, t);
      case _ =>
    }
  }

  lemma ManagerBearsOwn(v: ManagerView, k: Kind, a: ManagerAct, tk: TemplateKey)
    requires ViewOk(v, k) && (v.pc.MPut? ==> tk != v.pc.tk)
    ensures NoneBorn(v.crs, ManagerStep(v, k, a).crs, tk)
  {
    match a
    case MTake(item, ok) => DeleteBearsNothing(v.crs, CrKey(k, item), tk);
    case MGo =>
      if v.pc.MPut? && PutCr(v.crs, k, v.pc.tk, v.pc.tmpl, v.pc.node, v.pc.got).Some? {
        PutCrBearsOwn(v.crs, k, v.pc.tk, v.pc.tmpl, v.pc.node, v.pc.got, tk);
      }
    case _ =>
  }

  lemma ManagerPcGuards(v: ManagerView, k: Kind, a: ManagerAct)
    requires ViewOk(v, k) && PcGuards(v.tmpls, v.crs, k, v.pc)
    requires v.pc.MDelete? && a.MTake? ==> a.ok
    ensures PcGuards(ManagerStep(v, k, a).tmpls, ManagerStep(v, k, a).crs, k, ManagerStep(v, k, a).pc)
  {
    ManagerKeepsGuards(v, k, a);
    match a
    case MTake(item, ok) =>
      if v.pc.MDelete? {
        DeleteBearsNothing(v.crs, CrKey(k, item), v.pc.tk);
      }
    case _ =>
  }

  // Every step

  lemma StepKeepsCascadeInv(s: State, a: Action)
    requires CascadeInv(s) && DeletesCrs(s, a)
    ensures CascadeInv(Step(s, a))
  {
    StepKeepsInv(s, a);
    match a
    case OfManager(k, m) => ManagerKeepsCascade(s, k, m);
    case OfAgent(n, k, m) =>
      assert AgentOk(s.crs, n, k, AgentOf(s, n, k));
      forall tk ensures NoneBorn(s.crs, Step(s, a).crs, tk) {
        AgentBearsNothing(AgentViewOf(s, n, k), n, k, m, tk);
      }
      NothingBornKeepsCascade(s, Step(s, a));
    case _ =>
      forall tk ensures NoneBorn(s.crs, Step(s, a).crs, tk) {
        UserBearsNothing(s.crs, a, tk);
      }
      UserKeepsGuards(s.tmpls, a);
      NothingBornKeepsCascade(s, Step(s, a));
  }

  lemma NothingBornKeepsCascade(s: State, s': State)
    requires CascadeInv(s) && Inv(s') && (forall tk :: NoneBorn(s.crs, s'.crs, tk)) && GuardsStay(s.tmpls, s'.tmpls, {})
    requires forall k :: ManagerOf(s', k) == ManagerOf(s, k)
    ensures CascadeInv(s')
  {
    forall tk | !Guarded(s'.tmpls, tk) ensures NoLive(s'.crs, tk) {
      assert NoLive(s.crs, tk) && NoneBorn(s.crs, s'.crs, tk);
    }
    forall k ensures PcGuards(s'.tmpls, s'.crs, k, ManagerOf(s', k)) {
      assert PcGuards(s.tmpls, s.crs, k, ManagerOf(s, k));
      if ManagerOf(s, k).MDelete? {
        assert NoneBorn(s.crs, s'.crs, ManagerOf(s, k).tk);
      }
    }
  }

  lemma ManagerKeepsCascade(s: State, k: Kind, m: ManagerAct)
    requires CascadeInv(s) && Inv(Step(s, OfManager(k, m))) && DeletesCrs(s, OfManager(k, m))
    ensures CascadeInv(Step(s, OfManager(k, m)))
  {
    var s' := Step(s, OfManager(k, m));
    var v := ManagerViewOf(s, k);
    assert ManagerOk(s.tmpls, s.crs, k, v.pc) && PcGuards(s.tmpls, s.crs, k, v.pc);
    ManagerKeepsGuards(v, k, m);
    ManagerPcGuards(v, k, m);
    forall tk | !Guarded(s'.tmpls, tk) ensures NoLive(s'.crs, tk) {
      assert v.pc.MPut? ==> tk != v.pc.tk;
      ManagerBearsOwn(v, k, m, tk);
      assert NoneBorn(s.crs, s'.crs, tk);
      if Guarded(s.tmpls, tk) {
        assert tk in Dropped(v.pc, m) && NoLive(s.crs, tk);
      }
    }
    forall j ensures PcGuards(s'.tmpls, s'.crs, j, ManagerOf(s', j)) {
      if j != k {
        var pc := ManagerOf(s, j);
        assert ManagerOf(s', j) == pc && PcGuards(s.tmpls, s.crs, j, pc);
        if Works(pc) {
          assert pc.tk.kind == j && pc.tk !in Dropped(v.pc, m);
          ManagerBearsOwn(v, k, m, pc.tk);
        }
      }
    }
  }

  ghost predicate DeletesCrsThroughout(s: State, actions: seq<Action>) {
    forall i :: 0 <= i < |actions| ==> DeletesCrs(Run(s, actions[..i]), actions[i])
  }

  lemma {:induction false} RunKeepsCascadeInv(s: State, actions: seq<Action>)
    requires CascadeInv(s) && DeletesCrsThroughout(s, actions)
    ensures CascadeInv(Run(s, actions))
  {
    if actions != [] {
      var init := actions[..|actions| - 1];
      assert forall i :: 0 <= i < |init| ==> init[..i] == actions[..i] && init[i] == actions[i];
      RunKeepsCascadeInv(s, init);
      assert DeletesCrs(Run(s, actions[..|actions| - 1]), actions[|actions| - 1]);
      StepKeepsCascadeInv(Run(s, init), actions[|actions| - 1]);
    }
  }

  lemma BehaviourKeepsCascadeInv(h: seq<State>, actions: seq<Action>)
    requires Behaviour(h, actions) && forall i :: 0 <= i < |actions| ==> DeletesCrs(h[i], actions[i])
    ensures CascadeInv(Last(h))
  {
    forall i | 0 <= i < |actions| ensures DeletesCrs(Run(h[0], actions[..i]), actions[i]) {
      BehaviourIsRun(h, actions, i);
    }
    InitInv(h[0]);
    RunKeepsCascadeInv(h[0], actions);
    BehaviourEnds(h, actions);
  }

  /** In every reachable state a template without its finalizer, or gone, has no live CR. */
  lemma CascadeIsSafe(h: seq<State>, actions: seq<Action>, tk: TemplateKey)
    requires Behaviour(h, actions) && forall i :: 0 <= i < |actions| ==> DeletesCrs(h[i], actions[i])
    requires !Guarded(Last(h).tmpls, tk)
    ensures forall key :: key in Last(h).crs.objs && key.kind == tk.kind && LabelledFor(Last(h).crs.objs[key], tk)
                          ==> Last(h).crs.objs[key].terminating
  {
    BehaviourKeepsCascadeInv(h, actions);
    forall key | key in Last(h).crs.objs && key.kind == tk.kind && LabelledFor(Last(h).crs.objs[key], tk)
      ensures Last(h).crs.objs[key].terminating
    {
      assert !Live(Last(h).crs, tk, key);
    }
  }

  /** Without the hypothesis a live CR outlasts its template: the controller swallows the error. */
  lemma SwallowedDeleteStrandsCr(s: State, tk: TemplateKey, t: Template, name: string)
    requires ManagerOf(s, tk.kind) == MDelete(tk, t, {name}) && Live(s.crs, tk, CrKey(tk.kind, name))
    requires tk in s.tmpls.objs && s.tmpls.objs[tk] == t && t.terminating
    ensures var s' := Step(Step(s, OfManager(tk.kind, MTake(name, false))), OfManager(tk.kind, MGo));
            tk !in s'.tmpls.objs && Live(s'.crs, tk, CrKey(tk.kind, name))
  {
    var s1 := Step(s, OfManager(tk.kind, MTake(name, false)));
    assert {name} - {name} == {};
    assert ManagerOf(s1, tk.kind) == MDelete(tk, t, {}) && s1.crs == s.crs && s1.tmpls == s.tmpls;
  }
}
