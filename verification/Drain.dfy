/**
 * The end of a cascading deletion: whatever the agents are doing when a template is gone, they can go on
 * by their own steps until every CR of the template and every device behind those CRs is gone.
 */
module Drain {
  import opened Base
  import opened ApiObjects
  import opened ApiStore
  import opened Names
  import opened Kernel
  import opened NodeLabels
  import opened Programs
  import opened Protocol
  import opened ProtocolInvariant
  import opened NoLeak
  import opened Cascade
  import SyncSafety

  /** Steps the agents of one kind take by themselves, none of which crashes or fails. */
  predicate OwnSteps(actions: seq<Action>, k: Kind) {
    forall i :: 0 <= i < |actions| ==>
      var a := actions[i];
      && a.OfAgent? && a.kind == k
      && !a.aact.ACrash? && (a.aact.AGo? ==> a.aact.ok) && (a.aact.ATake? ==> a.aact.ok)
  }

  /** What is stored was stored before, with the same spec, labels and deletion mark. */
  ghost predicate Shrinks(crs: CrStore, crs': CrStore) {
    forall key :: key in crs'.objs ==> key in crs.objs && SyncSafety.ManagerSideSame(crs.objs[key], crs'.objs[key])
  }

  lemma AgentShrinks(s: State, n: string, k: Kind, m: AgentAct)
    requires Inv(s)
    ensures Shrinks(s.crs, Step(s, OfAgent(n, k, m)).crs)
  {
    var v := AgentViewOf(s, n, k);
    assert AgentOk(s.crs, n, k, v.pc);
    SyncSafety.AgentAddsNoCr(v, n, k, m);
    forall key | key in AgentStep(v, n, k, m).crs.objs
      ensures key in v.crs.objs && SyncSafety.ManagerSideSame(v.crs.objs[key], AgentStep(v, n, k, m).crs.objs[key])
    {
      SyncSafety.AgentKeepsManagerSide(v, n, k, m, key);
    }
  }

  /** Own steps delete links when they can, so they keep the invariants, and they only shrink the store. */
  lemma {:induction false} OwnStepsShrink(s: State, actions: seq<Action>, k: Kind)
    requires LeakInv(s) && OwnSteps(actions, k)
    ensures LeakInv(Run(s, actions)) && Shrinks(s.crs, Run(s, actions).crs)
  {
    if actions != [] {
      var init, a := actions[..|actions| - 1], actions[|actions| - 1];
      OwnStepsShrink(s, init, k);
      StepKeepsLeakInv(Run(s, init), a);
      AgentShrinks(Run(s, init), a.node, a.kind, a.aact);
    }
  }

  // An agent can always finish what it is doing

  function Size(p: Prog): nat {
    match p
    case Finished => 0
    case Aborted(_) => 0
    case Must(_, _, next) => Size(next) + 1
    case May(_, next) => Size(next) + 1
    case Test(_, yes, no) => Size(yes) + Size(no) + 1
  }

  /** The steps ahead of a worker, once it has its list of peers. */
  function Ahead(pc: AgentPc): nat {
    match pc
    case AIdle => 0
    case AAddFinalizer(_, _) => 1
    case ARun(_, rest) => Size(rest) + 5
    case AFailed(_, _) => 1
    case ALabel(_) => 4
    case ALabelPatch(_, _) => 3
    case APatchIP(_) => 2
    case AReady(_) => 1
    case ADelLink(_, _) => 4
    case AUnlabel(_, _, _) => 3
    case AUnlabelPatch(_, _, _, _) => 2
    case ADropFinalizer(_, _) => 1
    case AListPeers(_) => 0
    case APeers(_, todo) => 3 * |todo| + 1
    case AFdbDel(_, todo, _) => 3 * |todo| + 3
    case AFdbAppend(_, todo, _) => 3 * |todo| + 2
  }

  /** What a worker does next: take the next peer off its list, or go on. */
  ghost function NextAct(pc: AgentPc): AgentAct {
    if pc.APeers? && pc.todo != {} then var name :| name in pc.todo; ATake(name, true) else AGo(true)
  }

  lemma TakeGoesAhead(v: AgentView, n: string, name: string)
    requires v.pc.APeers? && name in v.pc.todo
    ensures Ahead(AgentTake(v, n, name, true)) < Ahead(v.pc) && !AgentTake(v, n, name, true).AListPeers?
  {
    assert |v.pc.todo - {name}| == |v.pc.todo| - 1;
  }

  lemma CommandGoesAhead(v: AgentView, n: string, k: Kind)
    requires v.pc.ARun? && !Ended(v.pc.rest)
    ensures Ahead(AgentGo(v, n, k, true).pc) < Ahead(v.pc) && !AgentGo(v, n, k, true).pc.AListPeers?
  {
    assert AgentGo(v, n, k, true) == AgentCommand(v, v.pc.task, v.pc.rest, true);
  }

  lemma LabelGoesAhead(v: AgentView, n: string, k: Kind)
    requires Labelling(v.pc)
    ensures Ahead(AgentGo(v, n, k, true).pc) < Ahead(v.pc) && !AgentGo(v, n, k, true).pc.AListPeers?
  {
  }

  lemma NextActGoesAhead(v: AgentView, n: string, k: Kind)
    requires !v.pc.AIdle? && !v.pc.AListPeers?
    ensures Ahead(AgentStep(v, n, k, NextAct(v.pc)).pc) < Ahead(v.pc) && !AgentStep(v, n, k, NextAct(v.pc)).pc.AListPeers?
  {
    if v.pc.APeers? && v.pc.todo != {} {
      TakeGoesAhead(v, n, NextAct(v.pc).name);
    } else if v.pc.ARun? && !Ended(v.pc.rest) {
      CommandGoesAhead(v, n, k);
    } else if Labelling(v.pc) {
      LabelGoesAhead(v, n, k);
    }
  }

  lemma {:induction false} Finish(s: State, n: string, k: Kind) returns (actions: seq<Action>)
    ensures OwnSteps(actions, k) && AgentOf(Run(s, actions), n, k).AIdle?
    decreases if AgentOf(s, n, k).AListPeers? then 1 else 0, Ahead(AgentOf(s, n, k))
  {
    if AgentOf(s, n, k).AIdle? {
      actions := [];
    } else {
      var a := OfAgent(n, k, NextAct(AgentOf(s, n, k)));
      if !AgentOf(s, n, k).AListPeers? {
        NextActGoesAhead(AgentViewOf(s, n, k), n, k);
      }
      var more := Finish(Step(s, a), n, k);
      actions := [a] + more;
      RunOne(s, a);
      RunConcat(s, [a], more);
    }
  }

  // Draining

  function Teardown(name: string): seq<AgentAct> {
    [AGet(name, None, None)] + [AGo(true)] + [AGo(true)] + [AGo(true)] + [AGo(true)]
  }

  /** Neither the CR nor its device nor the device's Node label is left. */
  predicate Gone(v: AgentView, k: Kind, name: string, dev: string) {
    CrKey(k, name) !in v.crs.objs && dev !in v.links && NodeLabels.Read(v.labels, DeviceLabel(k, dev)) == None
  }

  lemma TeardownView(v: AgentView, n: string, k: Kind, name: string)
    requires v.pc.AIdle? && CrKey(k, name) in v.crs.objs && v.crs.objs[CrKey(k, name)].terminating
    requires NodeOf(v.crs.objs[CrKey(k, name)]) == n && ParseDeviceName(name, n).Some?
    ensures Gone(AgentRuns(v, n, k, Teardown(name)), k, name, ParseDeviceName(name, n).value)
  {
    var c, dev := v.crs.objs[CrKey(k, name)], ParseDeviceName(name, n).value;
    var get := AGet(name, None, None);
    AgentRunsOne(v, n, k, get);
    var v1 := AgentRuns(v, n, k, [get]);
    assert v1 == v.(pc := ADelLink(name, c));
    AgentRunsSnoc(v, n, k, [get], AGo(true));
    var v2 := AgentRuns(v, n, k, [get] + [AGo(true)]);
    assert v2 == v.(links := Try(v.links, LinkDel(dev), true), pc := AUnlabel(name, c, dev));
    AgentRunsSnoc(v, n, k, [get] + [AGo(true)], AGo(true));
    var v3 := AgentRuns(v, n, k, [get] + [AGo(true)] + [AGo(true)]);
    assert v3 == v2.(pc := AUnlabelPatch(name, c, dev, v.labels));
    AgentRunsSnoc(v, n, k, [get] + [AGo(true)] + [AGo(true)], AGo(true));
    var v4 := AgentRuns(v, n, k, [get] + [AGo(true)] + [AGo(true)] + [AGo(true)]);
    TeardownEnds(v, v3, v4, n, k, name, c, dev);
    AgentRunsSnoc(v, n, k, [get] + [AGo(true)] + [AGo(true)] + [AGo(true)], AGo(true));
  }

  lemma TeardownEnds(v: AgentView, v3: AgentView, v4: AgentView, n: string, k: Kind, name: string, c: Cr, dev: string)
    requires CrKey(k, name) in v.crs.objs && c == v.crs.objs[CrKey(k, name)] && c.terminating
    requires v3 == v.(links := Try(v.links, LinkDel(dev), true), pc := AUnlabelPatch(name, c, dev, v.labels))
    requires v4 == AgentStep(v3, n, k, AGo(true))
    ensures Gone(AgentStep(v4, n, k, AGo(true)), k, name, dev)
  {
    PatchIsEditIff(v.labels, v.labels, LabelEdit(k, dev, ""));
    assert v4 == v3.(labels := Apply(v.labels, LabelEdit(k, dev, "")), pc := ADropFinalizer(name, c));
    assert AgentStep(v4, n, k, AGo(true)) == v4.(crs := Update(v.crs, CrKey(k, name), c.(finalizer := false)).value, pc := AIdle);
  }

  lemma TeardownIsOwn(n: string, k: Kind, name: string)
    ensures OwnSteps(Solo(n, k, Teardown(name)), k)
  {
    var acts := Teardown(name);
    assert acts == [AGet(name, None, None), AGo(true), AGo(true), AGo(true), AGo(true)];
  }

  lemma OwnStepsConcat(a: seq<Action>, b: seq<Action>, k: Kind)
    requires OwnSteps(a, k) && OwnSteps(b, k)
    ensures OwnSteps(a + b, k)
  {
  }

  /** An idle agent tears a terminating CR of its node down in five steps: the device, its Node label and the CR are gone. */
  lemma TeardownErases(s: State, key: CrKey)
    requires Inv(s) && key in s.crs.objs && s.crs.objs[key].terminating
    requires AgentOf(s, NodeOf(s.crs.objs[key]), key.kind).AIdle?
    ensures var n := NodeOf(s.crs.objs[key]);
            && ParseDeviceName(key.name, n).Some?
            && Gone(AgentViewOf(Run(s, Solo(n, key.kind, Teardown(key.name))), n, key.kind), key.kind, key.name, ParseDeviceName(key.name, n).value)
  {
    var n := NodeOf(s.crs.objs[key]);
    OwnerSplits(key.name);
    TeardownView(AgentViewOf(s, n, key.kind), n, key.kind, key.name);
    SoloIsRun(s, n, key.kind, Teardown(key.name));
  }

  lemma DrainOne(s: State, key: CrKey) returns (actions: seq<Action>)
    requires LeakInv(s) && key in s.crs.objs && s.crs.objs[key].terminating
    ensures OwnSteps(actions, key.kind) && key !in Run(s, actions).crs.objs
  {
    var n := NodeOf(s.crs.objs[key]);
    actions := Finish(s, n, key.kind);
    OwnStepsShrink(s, actions, key.kind);
    var s1 := Run(s, actions);
    if key in s1.crs.objs {
      var teardown := Solo(n, key.kind, Teardown(key.name));
      TeardownErases(s1, key);
      TeardownIsOwn(n, key.kind, key.name);
      OwnStepsConcat(actions, teardown, key.kind);
      RunConcat(s, actions, teardown);
      actions := actions + teardown;
    }
  }

  lemma {:induction false} DrainAll(s: State, k: Kind, doomed: set<CrKey>) returns (actions: seq<Action>)
    requires LeakInv(s)
    requires forall key :: key in doomed ==> key.kind == k && (key in s.crs.objs ==> s.crs.objs[key].terminating)
    ensures OwnSteps(actions, k) && forall key :: key in doomed ==> key !in Run(s, actions).crs.objs
    decreases |doomed|
  {
    actions := [];
    if doomed != {} {
      var key :| key in doomed;
      if key in s.crs.objs {
        actions := DrainOne(s, key);
      }
      OwnStepsShrink(s, actions, k);
      var s1 := Run(s, actions);
      var more := DrainAll(s1, k, doomed - {key});
      OwnStepsShrink(s1, more, k);
      RunConcat(s, actions, more);
      actions := actions + more;
    }
  }

  function LabelledKeys(crs: CrStore, tk: TemplateKey): set<CrKey> {
    set key | key in crs.objs && key.kind == tk.kind && LabelledFor(crs.objs[key], tk)
  }

  /**
   * From every reachable state in which a template is gone, the agents' own steps can bring the system
   * to a state with none of its CRs and none of the devices made for them.
   */
  lemma RemovedTemplateDrains(h: seq<State>, actions: seq<Action>, tk: TemplateKey)
    requires Behaviour(h, actions) && !Guarded(Last(h).tmpls, tk)
    requires forall i :: 0 <= i < |actions| ==> DeletesCrs(h[i], actions[i]) && DeletesLinks(h[i], actions[i])
    ensures exists more ::
              && OwnSteps(more, tk.kind)
              && LabelledKeys(Run(Last(h), more).crs, tk) == {}
              && forall n, dev :: CrKey(tk.kind, Join(n, dev)) in LabelledKeys(Last(h).crs, tk)
                                  ==> !MadeBy(LinksOf(Run(Last(h), more), n), dev, tk.kind)
  {
    CascadeIsSafe(h, actions, tk);
    BehaviourKeepsLeakInv(h, actions);
    var doomed := LabelledKeys(Last(h).crs, tk);
    var more := DrainAll(Last(h), tk.kind, doomed);
    OwnStepsShrink(Last(h), more, tk.kind);
    assert forall key :: key in LabelledKeys(Run(Last(h), more).crs, tk) ==> key in doomed;
  }
}
