/**
 * No leaked device: a device made by an agent always has its CR in the store, still carrying the
 * finalizer. The agent ignores a failing `ip link del`; the theorem therefore assumes that this one
 * command fails only when the link is absent, and a lemma shows the leak otherwise.
 */
module NoLeak {
  import opened Base
  import opened ApiObjects
  import opened ApiStore
  import opened Names
  import PortVlan
  import opened Kernel
  import opened Programs
  import opened Protocol
  import opened ProtocolInvariant

  /** The command neither adds nor deletes a link, nor does it touch an FDB. */
  predicate Harmless(c: Cmd) {
    !c.LinkAdd? && !c.LinkDel? && !c.FdbDel? && !c.FdbAppend?
  }

  predicate CreatesOnly(c: Cmd, dev: string, k: Kind) {
    Harmless(c) || (c.LinkAdd? && c.dev == dev && ModeKind(c.mode) == Some(k))
  }

  /** The only link a program adds is its own device, in a mode of its own kind; it deletes none and leaves FDBs alone. */
  predicate OnlyCreates(p: Prog, dev: string, k: Kind) {
    match p
    case Finished => true
    case Aborted(_) => true
    case Must(c, _, next) => CreatesOnly(c, dev, k) && OnlyCreates(next, dev, k)
    case May(c, next) => CreatesOnly(c, dev, k) && OnlyCreates(next, dev, k)
    case Test(c, yes, no) => CreatesOnly(c, dev, k) && OnlyCreates(yes, dev, k) && OnlyCreates(no, dev, k)
  }

  lemma {:induction false} MustAllCreates(cmds: seq<Cmd>, reason: string, next: Prog, dev: string, k: Kind)
    requires (forall c :: c in cmds ==> Harmless(c)) && OnlyCreates(next, dev, k)
    ensures OnlyCreates(MustAll(cmds, reason, next), dev, k)
  {
    if cmds != [] {
      MustAllCreates(cmds[1..], reason, next, dev, k);
    }
  }

  lemma {:induction false} MayAllCreates(cmds: seq<Cmd>, next: Prog, dev: string, k: Kind)
    requires (forall c :: c in cmds ==> Harmless(c)) && OnlyCreates(next, dev, k)
    ensures OnlyCreates(MayAll(cmds, next), dev, k)
  {
    if cmds != [] {
      MayAllCreates(cmds[1..], next, dev, k);
    }
  }

  lemma PortPartCreates(dev: string, cfg: Option<PortVlanConfig>, k: Kind)
    ensures OnlyCreates(PortPart(dev, cfg), dev, k)
  {
    if cfg.Some? {
      MustAllCreates(VlanAdds(dev, PortVlan.Commands(cfg.value)), "VLANConfigFailed", Finished, dev, k);
    }
  }

  lemma {:induction false} SlaveCommandsAddNothing(dev: string, slaves: seq<string>)
    ensures forall c :: c in SlaveCommands(dev, slaves) ==> c.LinkSet?
  {
    if slaves != [] {
      SlaveCommandsAddNothing(dev, slaves[1..]);
    }
  }

  lemma UplinkMasterCreates(dev: string, spec: UplinkSpec)
    ensures OnlyCreates(UplinkMaster(dev, spec), dev, Uplink)
  {
    PortPartCreates(dev, spec.portVlan, Uplink);
    assert OnlyCreates(UplinkPorts(dev, spec), dev, Uplink);
    assert OnlyCreates(UplinkUp(dev, spec), dev, Uplink);
  }

  lemma UplinkSettingsCreate(dev: string, spec: UplinkSpec)
    ensures OnlyCreates(UplinkSettings(dev, spec), dev, Uplink)
  {
    UplinkMasterCreates(dev, spec);
    SlaveCommandsAddNothing(dev, spec.bondSlaves);
    MayAllCreates(SlaveCommands(dev, spec.bondSlaves), UplinkMaster(dev, spec), dev, Uplink);
  }

  lemma UplinkCreates(dev: string, spec: UplinkSpec)
    ensures OnlyCreates(UplinkProgram(dev, spec), dev, Uplink)
  {
    UplinkSettingsCreate(dev, spec);
  }

  lemma VxlanPortsCreate(dev: string, spec: VxlanSpec)
    ensures OnlyCreates(VxlanPorts(dev, spec), dev, Vxlan)
  {
    PortPartCreates(dev, spec.portVlan, Vxlan);
    assert OnlyCreates(May(LinkSet(dev, PortLearning(spec.bridgeLearning)), PortPart(dev, spec.portVlan)), dev, Vxlan);
    assert OnlyCreates(Finished, dev, Vxlan);
  }

  lemma VxlanLearningCreates(dev: string, spec: VxlanSpec)
    ensures OnlyCreates(VxlanLearning(dev, spec), dev, Vxlan)
  {
    VxlanPortsCreate(dev, spec);
    if spec.portVlan.Some? {
      MayAllCreates(VniAdds(dev, PortVlan.FilterVnis(spec.portVlan.value.tunnelInfo)), VxlanPorts(dev, spec), dev, Vxlan);
    }
    assert OnlyCreates(VxlanFilter(dev, spec), dev, Vxlan);
    assert OnlyCreates(Must(LinkSet(dev, Attr.State(true)), "UpFailed", VxlanFilter(dev, spec)), dev, Vxlan);
  }

  lemma VxlanSettingsCreate(dev: string, spec: VxlanSpec, detected: Option<string>)
    ensures OnlyCreates(VxlanSettings(dev, spec, detected), dev, Vxlan)
  {
    VxlanLearningCreates(dev, spec);
    assert OnlyCreates(VxlanMaster(dev, spec), dev, Vxlan);
    assert OnlyCreates(VxlanMtu(dev, spec), dev, Vxlan);
  }

  lemma AgentProgramCreates(k: Kind, dev: string, spec: Spec, resolved: Option<int>, detected: Option<string>)
    ensures OnlyCreates(AgentProgram(k, dev, spec, resolved, detected), dev, k)
  {
    match spec
    case OfBridge(b) => assert OnlyCreates(BridgeSettings(dev, b).next, dev, Bridge);
    case OfUplink(u) => UplinkCreates(dev, u);
    case OfVxlan(v) => VxlanSettingsCreate(dev, v, detected);
  }

  // The invariant

  predicate MadeBy(ls: Links, dev: string, k: Kind) {
    dev in ls && ls[dev].creator == Agent(k)
  }

  ghost predicate DevicesHeld(s: State) {
    forall n, d, k :: MadeBy(LinksOf(s, n), d, k) ==> Held(s.crs, n, k, Join(n, d))
  }

  /** A running program will add only its own device; a teardown past its link deletion has no link left. */
  ghost predicate PcClean(ls: Links, n: string, k: Kind, pc: AgentPc) {
    match pc
    case ARun(t, rest) => OnlyCreates(rest, t.dev, k) && t.name == Join(n, t.dev)
    case AUnlabel(name, _, _) => forall d :: MadeBy(ls, d, k) ==> Join(n, d) != name
    case AUnlabelPatch(name, _, _, _) => forall d :: MadeBy(ls, d, k) ==> Join(n, d) != name
    case ADropFinalizer(name, _) => forall d :: MadeBy(ls, d, k) ==> Join(n, d) != name
    case _ => true
  }

  ghost predicate LeakInv(s: State) {
    && Inv(s) && DevicesHeld(s)
    && forall n, k :: PcClean(LinksOf(s, n), n, k, AgentOf(s, n, k))
  }

  /** The step is not a link deletion that failed although the link is there. */
  predicate DeletesLinks(s: State, a: Action) {
    a.OfAgent? && a.aact.AGo? && AgentOf(s, a.node, a.kind).ADelLink? ==> a.aact.ok
  }

  /** What an agent's step does to its node's links, as far as their makers go. */
  lemma AgentLinks(v: AgentView, n: string, k: Kind, a: AgentAct)
    requires PcClean(v.links, n, k, v.pc)
    ensures forall d, j :: MadeBy(AgentStep(v, n, k, a).links, d, j) ==>
              MadeBy(v.links, d, j) || (v.pc.ARun? && j == k && d == v.pc.task.dev)
  {
    if a.AGo? {
      AgentGoLinks(v, n, k, a.ok);
    }
  }

  lemma EffectMakers(ls: Links, c: Cmd, d: string, j: Kind)
    requires CanSucceed(ls, c) && MadeBy(Effect(ls, c), d, j)
    ensures MadeBy(ls, d, j) || (c.LinkAdd? && d == c.dev && ModeKind(c.mode) == Some(j))
  {
  }

  lemma AgentGoLinks(v: AgentView, n: string, k: Kind, ok: bool)
    requires PcClean(v.links, n, k, v.pc)
    ensures forall d, j :: MadeBy(AgentGo(v, n, k, ok).links, d, j) ==>
              MadeBy(v.links, d, j) || (v.pc.ARun? && j == k && d == v.pc.task.dev)
  {
    if v.pc.ARun? && !Ended(v.pc.rest) {
      var c := v.pc.rest.cmd;
      assert AgentGo(v, n, k, ok) == AgentCommand(v, v.pc.task, v.pc.rest, ok);
      assert CreatesOnly(c, v.pc.task.dev, k);
      forall d, j | MadeBy(AgentCommand(v, v.pc.task, v.pc.rest, ok).links, d, j)
        ensures MadeBy(v.links, d, j) || (j == k && d == v.pc.task.dev)
      {
        if ok && CanSucceed(v.links, c) {
          EffectMakers(v.links, c, d, j);
        }
      }
    }
  }

  lemma AgentPcClean(v: AgentView, n: string, k: Kind, a: AgentAct)
    requires PcClean(v.links, n, k, v.pc)
    requires a.AGo? && v.pc.ADelLink? ==> a.ok
    ensures PcClean(AgentStep(v, n, k, a).links, n, k, AgentStep(v, n, k, a).pc)
  {
    if a.AGo? {
      GoPcClean(v, n, k, a.ok);
    } else if a.AGet? && v.pc.AIdle? {
      GetPcClean(v, n, k, a.name, a.resolved, a.detected);
    }
  }

  lemma RunPcClean(v: AgentView, n: string, k: Kind, ok: bool)
    requires PcClean(v.links, n, k, v.pc) && v.pc.ARun?
    ensures PcClean(AgentGo(v, n, k, ok).links, n, k, AgentGo(v, n, k, ok).pc)
  {
    if !Ended(v.pc.rest) {
      assert AgentGo(v, n, k, ok) == AgentCommand(v, v.pc.task, v.pc.rest, ok);
    }
  }

  lemma DelLinkPcClean(v: AgentView, n: string, k: Kind)
    requires v.pc.ADelLink?
    ensures PcClean(AgentGo(v, n, k, true).links, n, k, AgentGo(v, n, k, true).pc)
  {
    forall d ensures ParseDeviceName(v.pc.name, n) == Some(d) <==> v.pc.name == Join(n, d) {
      ParseInvertsJoin(v.pc.name, n, d);
    }
  }

  lemma GoPcClean(v: AgentView, n: string, k: Kind, ok: bool)
    requires PcClean(v.links, n, k, v.pc) && (v.pc.ADelLink? ==> ok)
    ensures PcClean(AgentGo(v, n, k, ok).links, n, k, AgentGo(v, n, k, ok).pc)
  {
    if v.pc.ARun? {
      RunPcClean(v, n, k, ok);
    } else if v.pc.ADelLink? {
      DelLinkPcClean(v, n, k);
    }
  }

  lemma GetPcClean(v: AgentView, n: string, k: Kind, name: string, resolved: Option<int>, detected: Option<string>)
    requires v.pc.AIdle?
    ensures PcClean(v.links, n, k, AgentGet(v, n, k, name, resolved, detected))
  {
    var dev := ParseDeviceName(name, n);
    forall d ensures ParseDeviceName(name, n) == Some(d) <==> name == Join(n, d) {
      ParseInvertsJoin(name, n, d);
    }
    if dev.Some? && CrKey(k, name) in v.crs.objs {
      AgentProgramCreates(k, dev.value, v.crs.objs[CrKey(k, name)].spec, resolved, detected);
    }
  }

  lemma AgentKeepsDevicesHeld(s: State, n: string, k: Kind, m: AgentAct)
    requires LeakInv(s)
    ensures DevicesHeld(Step(s, OfAgent(n, k, m)))
  {
    var s' := Step(s, OfAgent(n, k, m));
    var v, freed := AgentViewOf(s, n, k), Freed(k, AgentOf(s, n, k), m);
    AgentKeepsInv(s, n, k, m);
    assert AgentOk(s.crs, n, k, v.pc) && PcClean(v.links, n, k, v.pc);
    AgentLinks(v, n, k, m);
    forall n', d, k' | MadeBy(LinksOf(s', n'), d, k')
      ensures Held(s'.crs, n', k', Join(n', d))
    {
      assert n' != n ==> LinksOf(s', n') == LinksOf(s, n');
      assert Held(s.crs, n', k', Join(n', d));
      HeldStays(s.crs, s'.crs, freed, n', k', Join(n', d));
    }
  }

  lemma AgentKeepsPcClean(s: State, n: string, k: Kind, m: AgentAct, n': string, k': Kind)
    requires LeakInv(s) && DeletesLinks(s, OfAgent(n, k, m))
    ensures var s' := Step(s, OfAgent(n, k, m)); PcClean(LinksOf(s', n'), n', k', AgentOf(s', n', k'))
  {
    var v := AgentViewOf(s, n, k);
    assert PcClean(v.links, n, k, v.pc) && PcClean(LinksOf(s, n'), n', k', AgentOf(s, n', k'));
    StepView(s, n, k, m);
    if n' == n {
      if k' == k {
        AgentPcClean(v, n, k, m);
      } else {
        AgentLinks(v, n, k, m);
      }
    }
  }

  lemma AgentKeepsLeakInv(s: State, n: string, k: Kind, m: AgentAct)
    requires LeakInv(s) && DeletesLinks(s, OfAgent(n, k, m))
    ensures LeakInv(Step(s, OfAgent(n, k, m)))
  {
    AgentKeepsInv(s, n, k, m);
    AgentKeepsDevicesHeld(s, n, k, m);
    var s' := Step(s, OfAgent(n, k, m));
    forall n', k' ensures PcClean(LinksOf(s', n'), n', k', AgentOf(s', n', k')) {
      AgentKeepsPcClean(s, n, k, m, n', k');
    }
  }

  lemma StepKeepsLeakInv(s: State, a: Action)
    requires LeakInv(s) && DeletesLinks(s, a)
    ensures LeakInv(Step(s, a))
  {
    var s' := Step(s, a);
    if a.OfAgent? {
      AgentKeepsLeakInv(s, a.node, a.kind, a.aact);
    } else {
      StepKeepsInv(s, a);
      if a.OfManager? {
        ManagerKeepsInv(s, a.kind, a.mact);
      } else {
        UserCrsMove(s.crs, a);
      }
      forall n, d, k | MadeBy(LinksOf(s', n), d, k)
        ensures MadeBy(LinksOf(s, n), d, k) && Held(s'.crs, n, k, Join(n, d))
      {
        HeldStays(s.crs, s'.crs, {}, n, k, Join(n, d));
      }
      forall n, k ensures PcClean(LinksOf(s', n), n, k, AgentOf(s', n, k)) {
        assert PcClean(LinksOf(s, n), n, k, AgentOf(s, n, k));
      }
    }
  }

  /** No link deletion of the run fails with the link in place. */
  ghost predicate DeletesLinksThroughout(s: State, actions: seq<Action>) {
    forall i :: 0 <= i < |actions| ==> DeletesLinks(Run(s, actions[..i]), actions[i])
  }

  lemma {:induction false} RunKeepsLeakInv(s: State, actions: seq<Action>)
    requires LeakInv(s) && DeletesLinksThroughout(s, actions)
    ensures LeakInv(Run(s, actions))
  {
    if actions != [] {
      var init := actions[..|actions| - 1];
      assert forall i :: 0 <= i < |init| ==> init[..i] == actions[..i] && init[i] == actions[i];
      RunKeepsLeakInv(s, init);
      assert DeletesLinks(Run(s, actions[..|actions| - 1]), actions[|actions| - 1]);
      StepKeepsLeakInv(Run(s, init), actions[|actions| - 1]);
    }
  }

  /** In every reachable state, each device made by an agent has its CR with the finalizer on it. */
  lemma NoLeakedDevice(h: seq<State>, actions: seq<Action>, n: string, dev: string, k: Kind)
    requires Behaviour(h, actions) && forall i :: 0 <= i < |actions| ==> DeletesLinks(h[i], actions[i])
    requires MadeBy(LinksOf(Last(h), n), dev, k)
    ensures Held(Last(h).crs, n, k, Join(n, dev))
  {
    BehaviourKeepsLeakInv(h, actions);
  }

  lemma BehaviourKeepsLeakInv(h: seq<State>, actions: seq<Action>)
    requires Behaviour(h, actions) && forall i :: 0 <= i < |actions| ==> DeletesLinks(h[i], actions[i])
    ensures LeakInv(Last(h))
  {
    forall i | 0 <= i < |actions| ensures DeletesLinks(Run(h[0], actions[..i]), actions[i]) {
      BehaviourIsRun(h, actions, i);
    }
    InitInv(h[0]);
    RunKeepsLeakInv(h[0], actions);
    BehaviourEnds(h, actions);
  }

  /** Without that hypothesis the CR disappears and the device stays: the agent swallows the error. */
  lemma SwallowedDeleteLeaks(v: AgentView, n: string, k: Kind, dev: string, c: Cr)
    requires v.pc == ADelLink(Join(n, dev), c)
    requires CrKey(k, Join(n, dev)) in v.crs.objs && v.crs.objs[CrKey(k, Join(n, dev))] == c && c.terminating
    requires MadeBy(v.links, dev, k)
    ensures var v' := AgentRuns(v, n, k, [AGo(false)] + [AGo(true)] + [AGo(true)] + [AGo(true)]);
            MadeBy(v'.links, dev, k) && CrKey(k, Join(n, dev)) !in v'.crs.objs
  {
    ParseInvertsJoin(Join(n, dev), n, dev);
    var v1 := AgentStep(v, n, k, AGo(false));
    var v2 := AgentStep(v1, n, k, AGo(true));
    var v3 := AgentStep(v2, n, k, AGo(true));
    assert v3.pc == ADropFinalizer(Join(n, dev), c) && v3.crs == v.crs && v3.links == v.links;
    AgentRunsOne(v, n, k, AGo(false));
    AgentRunsSnoc(v, n, k, [AGo(false)], AGo(true));
    AgentRunsSnoc(v, n, k, [AGo(false)] + [AGo(true)], AGo(true));
    AgentRunsSnoc(v, n, k, [AGo(false)] + [AGo(true)] + [AGo(true)], AGo(true));
  }

  /** The device an agent works on is the one its CR is named after, and no other node's agent gets it. */
  lemma AgentActsOnItsDevice(h: seq<State>, actions: seq<Action>, key: CrKey, node: string, dev: string)
    requires Behaviour(h, actions) && key in Last(h).crs.objs && key.name == Join(node, dev) && DotFree(dev)
    ensures NodeOf(Last(h).crs.objs[key]) == node
    ensures ParseDeviceName(key.name, node) == Some(dev)
    ensures forall other :: other != node ==> NodeOf(Last(h).crs.objs[key]) != other && !WellNamed(key.name, other)
  {
    BehaviourKeepsInv(h, actions);
    OwnerOfJoin(node, dev);
    ParseInvertsJoin(key.name, node, dev);
    forall other ensures WellNamed(key.name, other) ==> other == node {
      WellNamedIffOwner(key.name, other);
    }
  }

  // What a worker is aimed at

  predicate Aims(n: string, k: Kind, pc: AgentPc) {
    match pc
    case ARun(t, rest) => OnlyCreates(rest, t.dev, k) && t.name == Join(n, t.dev)
    case ALabel(t) => t.name == Join(n, t.dev)
    case ALabelPatch(t, _) => t.name == Join(n, t.dev)
    case APatchIP(t) => t.ip != ""
    case AUnlabel(name, _, dev) => name == Join(n, dev)
    case AUnlabelPatch(name, _, dev, _) => name == Join(n, dev)
    case AListPeers(_) => k.Vxlan?
    case APeers(_, _) => k.Vxlan?
    case AFdbDel(_, _, _) => k.Vxlan?
    case AFdbAppend(_, _, _) => k.Vxlan?
    case _ => true
  }

  lemma GoAims(v: AgentView, n: string, k: Kind, ok: bool)
    requires Aims(n, k, v.pc)
    ensures Aims(n, k, AgentGo(v, n, k, ok).pc)
  {
    if v.pc.ARun? && !Ended(v.pc.rest) {
      assert AgentGo(v, n, k, ok) == AgentCommand(v, v.pc.task, v.pc.rest, ok);
    } else if v.pc.ADelLink? && ParseDeviceName(v.pc.name, n).Some? {
      ParseInvertsJoin(v.pc.name, n, ParseDeviceName(v.pc.name, n).value);
    }
  }

  lemma AgentAims(v: AgentView, n: string, k: Kind, a: AgentAct)
    requires Aims(n, k, v.pc)
    ensures Aims(n, k, AgentStep(v, n, k, a).pc)
  {
    match a
    case AGo(ok) => GoAims(v, n, k, ok);
    case AGet(name, resolved, detected) =>
      if v.pc.AIdle? && CrKey(k, name) in v.crs.objs && ParseDeviceName(name, n).Some? {
        ParseInvertsJoin(name, n, ParseDeviceName(name, n).value);
        AgentProgramCreates(k, ParseDeviceName(name, n).value, v.crs.objs[CrKey(k, name)].spec, resolved, detected);
      }
    case _ =>
  }

  lemma {:induction false} RunAims(s: State, actions: seq<Action>, n: string, k: Kind)
    requires Aims(n, k, AgentOf(s, n, k))
    ensures Aims(n, k, AgentOf(Run(s, actions), n, k))
  {
    if actions != [] {
      var s1, a := Run(s, actions[..|actions| - 1]), actions[|actions| - 1];
      RunAims(s, actions[..|actions| - 1], n, k);
      if a.OfAgent? && a.node == n && a.kind == k {
        AgentAims(AgentViewOf(s1, n, k), n, k, a.aact);
        StepView(s1, n, k, a.aact);
      }
    }
  }

  lemma HeldNameIsDotFree(st: CrStore, n: string, k: Kind, name: string)
    requires CrsOk(st) && Held(st, n, k, name)
    ensures ParseDeviceName(name, n).Some? && DotFree(ParseDeviceName(name, n).value) && name == Join(n, ParseDeviceName(name, n).value)
  {
    WellNamedIffOwner(name, n);
    ParseInvertsJoin(name, n, ParseDeviceName(name, n).value);
  }

  function CrNameOf(pc: AgentPc): string
    requires pc.ARun? || pc.ADelLink?
  {
    if pc.ARun? then pc.task.name else pc.name
  }

  /** What a worker may do to the links: create its own device while it runs, delete it while it tears down. */
  predicate ActsOn(v: AgentView, n: string, k: Kind, name: string, dev: string) {
    && name == Join(n, dev) && DotFree(dev)
    && match v.pc
       case ARun(t, rest) => t.name == name && t.dev == dev && OnlyCreates(rest, dev, k)
       case ADelLink(_, _) =>
         && AgentGo(v, n, k, true).links == Try(v.links, LinkDel(dev), true)
         && AgentGo(v, n, k, false).links == v.links
       case _ => true
  }

  /**
   * In every reachable state the only link a configuring worker may create is the dot-free device its CR is
   * named after, it deletes none, and the one link a tearing-down worker deletes is that of its CR.
   */
  lemma WorkerActsOnItsDevice(h: seq<State>, actions: seq<Action>, n: string, k: Kind)
    requires Behaviour(h, actions) && (AgentOf(Last(h), n, k).ARun? || AgentOf(Last(h), n, k).ADelLink?)
    ensures var name := CrNameOf(AgentOf(Last(h), n, k)); var dev := ParseDeviceName(name, n);
            dev.Some? && ActsOn(AgentViewOf(Last(h), n, k), n, k, name, dev.value)
  {
    var pc := AgentOf(Last(h), n, k);
    var name := CrNameOf(pc);
    BehaviourKeepsInv(h, actions);
    RunAims(h[0], actions, n, k);
    BehaviourEnds(h, actions);
    assert AgentOk(Last(h).crs, n, k, pc);
    HeldNameIsDotFree(Last(h).crs, n, k, name);
    if pc.ARun? {
      ParseInvertsJoin(name, n, pc.task.dev);
    }
  }
}
