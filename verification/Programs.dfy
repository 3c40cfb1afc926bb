/**
 * An agent reconcile as a decision tree of commands: which command comes next, what its failure means,
 * and where the outcome of a probe leads. The imperative controllers are proved to follow these trees,
 * and the interleaved protocol runs them command by command.
 */
module Programs {
  import opened Base
  import opened ApiObjects
  import opened PortVlan
  import opened Kernel

  /**
   * Must aborts with a reason when its command fails, May ignores failure, Test branches on it.
   * Finished is a success and Aborted the Ready=False reason of a failure.
   */
  datatype Prog = Finished
                | Aborted(reason: string)
                | Must(cmd: Cmd, reason: string, next: Prog)
                | May(cmd: Cmd, next: Prog)
                | Test(cmd: Cmd, yes: Prog, no: Prog)

  function Advance(p: Prog, a: Attempt): Option<Prog> {
    match p
    case Finished => None
    case Aborted(_) => None
    case Must(c, reason, next) => if a.cmd != c then None else Some(if a.ok then next else Aborted(reason))
    case May(c, next) => if a.cmd != c then None else Some(next)
    case Test(c, yes, no) => if a.cmd != c then None else Some(if a.ok then yes else no)
  }

  /** What is left of a program after a trace, or None when the trace is not one of its traces. */
  function Rest(p: Prog, t: seq<Attempt>): Option<Prog> {
    if t == [] then Some(p)
    else match Rest(p, t[..|t| - 1])
      case None => None
      case Some(q) => Advance(q, t[|t| - 1])
  }

  lemma {:induction false} RestConcat(p: Prog, t: seq<Attempt>, u: seq<Attempt>, q: Prog)
    requires Rest(p, t) == Some(q)
    ensures Rest(p, t + u) == Rest(q, u)
  {
    if u == [] {
      assert t + u == t;
    } else {
      RestConcat(p, t, u[..|u| - 1], q);
      assert (t + u)[..|t + u| - 1] == t + u[..|u| - 1];
    }
  }

  lemma RestSnoc(p: Prog, t: seq<Attempt>, a: Attempt)
    ensures Rest(p, t + [a]) == match Rest(p, t) case None => None case Some(q) => Advance(q, a)
  {
    assert (t + [a])[..|t|] == t;
  }

  function MustAll(cmds: seq<Cmd>, reason: string, next: Prog): Prog {
    if cmds == [] then next else Must(cmds[0], reason, MustAll(cmds[1..], reason, next))
  }

  function MayAll(cmds: seq<Cmd>, next: Prog): Prog {
    if cmds == [] then next else May(cmds[0], MayAll(cmds[1..], next))
  }

  // Hoare logic for programs: what holds of the links whenever a run ends

  /** post(finished, links) holds at every end of the program, failures of `sure` commands left aside. */
  ghost predicate Establishes(p: Prog, ls: Links, sure: Cmd -> bool, post: (bool, Links) -> bool) {
    match p
    case Finished => post(true, ls)
    case Aborted(_) => post(false, ls)
    case Must(c, _, next) =>
      && (CanSucceed(ls, c) ==> Establishes(next, Effect(ls, c), sure, post))
      && (!sure(c) ==> post(false, ls))
    case May(c, next) =>
      && (CanSucceed(ls, c) ==> Establishes(next, Effect(ls, c), sure, post))
      && (!sure(c) ==> Establishes(next, ls, sure, post))
    case Test(c, yes, no) =>
      && (CanSucceed(ls, c) ==> Establishes(yes, Effect(ls, c), sure, post))
      && (!sure(c) ==> Establishes(no, ls, sure, post))
  }

  predicate NoneSure(c: Cmd) {
    false
  }

  predicate Ended(p: Prog) {
    p.Finished? || p.Aborted?
  }

  ghost predicate SureSucceed(t: seq<Attempt>, sure: Cmd -> bool) {
    forall i :: 0 <= i < |t| && sure(t[i].cmd) ==> t[i].ok
  }

  lemma {:induction false} EstablishesSound(p: Prog, ls: Links, t: seq<Attempt>, sure: Cmd -> bool, post: (bool, Links) -> bool)
    requires Establishes(p, ls, sure, post) && SureSucceed(t, sure)
    requires Possible(ls, t) && Rest(p, t).Some? && Ended(Rest(p, t).value)
    ensures post(Rest(p, t).value.Finished?, After(ls, t))
    decreases |t|
  {
    if t != [] {
      RestHead(p, t);
      assert forall i :: 0 <= i < |t[1..]| ==> t[1..][i] == t[i + 1];
      assert !t[0].ok ==> !sure(t[0].cmd);
      EstablishesSound(Advance(p, t[0]).value, if t[0].ok then Effect(ls, t[0].cmd) else ls, t[1..], sure, post);
    }
  }

  lemma {:induction false} RestHead(p: Prog, t: seq<Attempt>)
    requires t != [] && Rest(p, t).Some?
    ensures Advance(p, t[0]).Some? && Rest(p, t) == Rest(Advance(p, t[0]).value, t[1..])
  {
    if |t| == 1 {
      assert t[..0] == [] && t[1..] == [];
    } else {
      RestHead(p, t[..|t| - 1]);
      assert t[..|t| - 1][1..] == t[1..][..|t[1..]| - 1];
    }
  }

  function WithPort(ls: Links, dev: string, cmds: seq<VlanCmd>): Links
    requires dev in ls
  {
    ls[dev := ls[dev].(port := Run(ls[dev].port, cmds))]
  }

  /** Port VLAN commands stop after any number of them, or go on to the continuation. */
  lemma {:induction false} VlanChainEstablishes(dev: string, cmds: seq<VlanCmd>, reason: string, next: Prog,
                                                ls: Links, sure: Cmd -> bool, post: (bool, Links) -> bool)
    requires IsBridgeSlave(ls, dev)
    requires forall k :: 0 <= k <= |cmds| ==> post(false, WithPort(ls, dev, cmds[..k]))
    requires Establishes(next, WithPort(ls, dev, cmds), sure, post)
    ensures Establishes(MustAll(VlanAdds(dev, cmds), reason, next), ls, sure, post)
    decreases |cmds|
  {
    if cmds == [] {
      assert WithPort(ls, dev, cmds) == ls;
    } else {
      assert VlanAdds(dev, cmds)[1..] == VlanAdds(dev, cmds[1..]);
      assert WithPort(ls, dev, cmds[..0]) == ls;
      var ls1 := Effect(ls, VlanAdd(dev, cmds[0]));
      WithPortStep(ls, dev, cmds, |cmds|);
      forall k | 0 <= k <= |cmds[1..]|
        ensures post(false, WithPort(ls1, dev, cmds[1..][..k]))
      {
        WithPortStep(ls, dev, cmds, k + 1);
      }
      assert cmds[1..][..|cmds| - 1] == cmds[1..] && cmds[..|cmds|] == cmds;
      VlanChainEstablishes(dev, cmds[1..], reason, next, ls1, sure, post);
    }
  }

  lemma WithPortStep(ls: Links, dev: string, cmds: seq<VlanCmd>, k: nat)
    requires IsBridgeSlave(ls, dev) && 0 < k <= |cmds|
    ensures WithPort(Effect(ls, VlanAdd(dev, cmds[0])), dev, cmds[1..][..k - 1]) == WithPort(ls, dev, cmds[..k])
  {
    var p := ls[dev].port;
    assert cmds[..k] == [cmds[0]] + cmds[1..][..k - 1];
    RunConcat(p, [cmds[0]], cmds[1..][..k - 1]);
    assert [cmds[0]][..0] == [];
    assert Run(p, [cmds[0]]) == p + Writes(cmds[0]);
  }

  function VlanAdds(dev: string, cmds: seq<VlanCmd>): seq<Cmd> {
    seq(|cmds|, i requires 0 <= i < |cmds| => VlanAdd(dev, cmds[i]))
  }

  function VniAdds(dev: string, vnis: seq<int>): seq<Cmd> {
    seq(|vnis|, i requires 0 <= i < |vnis| => VniAdd(dev, vnis[i]))
  }

  function PortVlanProgram(dev: string, cfg: PortVlanConfig, next: Prog): Prog {
    MustAll(VlanAdds(dev, Commands(cfg)), "VLANConfigFailed", next)
  }

  function PortPart(dev: string, cfg: Option<PortVlanConfig>): Prog {
    if cfg.Some? then PortVlanProgram(dev, cfg.value, Finished) else Finished
  }

  // The three agents

  function BridgeSettings(dev: string, spec: BridgeSpec): Prog {
    Must(LinkSet(dev, VlanFiltering(spec.vlanFiltering)), "ConfigFailed",
         Must(LinkSet(dev, NfCallIptables(spec.nfCallIptables)), "ConfigFailed",
              Must(LinkSet(dev, State(true)), "UpFailed", Finished)))
  }

  function BridgeProgram(dev: string, spec: BridgeSpec): Prog {
    Test(LinkShow(dev), BridgeSettings(dev, spec),
         Must(LinkAdd(dev, BridgeMode), "CreateFailed", BridgeSettings(dev, spec)))
  }

  function SlaveCommands(dev: string, slaves: seq<string>): seq<Cmd> {
    if slaves == [] then []
    else [LinkSet(slaves[0], State(false)), LinkSet(slaves[0], Master(dev))] + SlaveCommands(dev, slaves[1..])
  }

  function UplinkPorts(dev: string, spec: UplinkSpec): Prog {
    Test(LinkDetail(dev), PortPart(dev, spec.portVlan), Finished)
  }

  function UplinkUp(dev: string, spec: UplinkSpec): Prog {
    Must(LinkSet(dev, State(true)), "UpFailed", UplinkPorts(dev, spec))
  }

  function UplinkMaster(dev: string, spec: UplinkSpec): Prog {
    if spec.master != "" then Must(LinkSet(dev, Master(spec.master)), "MasterFailed", UplinkUp(dev, spec))
    else UplinkUp(dev, spec)
  }

  function UplinkSlaves(dev: string, spec: UplinkSpec, slaves: seq<string>): Prog {
    MayAll(SlaveCommands(dev, slaves), UplinkMaster(dev, spec))
  }

  lemma SlaveStep(dev: string, spec: UplinkSpec, slaves: seq<string>)
    requires slaves != []
    ensures UplinkSlaves(dev, spec, slaves)
         == May(LinkSet(slaves[0], State(false)),
                May(LinkSet(slaves[0], Master(dev)), UplinkSlaves(dev, spec, slaves[1..])))
  {
    var rest := SlaveCommands(dev, slaves[1..]);
    var cmds := SlaveCommands(dev, slaves);
    assert cmds == [LinkSet(slaves[0], State(false)), LinkSet(slaves[0], Master(dev))] + rest;
    assert cmds[1..] == [LinkSet(slaves[0], Master(dev))] + rest;
    assert cmds[1..][1..] == rest;
    assert MayAll(cmds, UplinkMaster(dev, spec)) == May(cmds[0], MayAll(cmds[1..], UplinkMaster(dev, spec)));
  }

  function UplinkSettings(dev: string, spec: UplinkSpec): Prog {
    var slaves := UplinkSlaves(dev, spec, spec.bondSlaves);
    if spec.bondMode != "" then Must(LinkSet(dev, BondModeIs(spec.bondMode)), "ConfigFailed", slaves) else slaves
  }

  function UplinkProgram(dev: string, spec: UplinkSpec): Prog {
    Test(LinkShow(dev), UplinkSettings(dev, spec),
         Must(LinkAdd(dev, BondMode), "CreateFailed", UplinkSettings(dev, spec)))
  }

  // VXLAN: `resolved` is the template's VXLANID as read, `detected` the address found on spec.dev;
  // None stands for the lookup's error.

  function VxlanPorts(dev: string, spec: VxlanSpec): Prog {
    Test(LinkDetail(dev),
         May(LinkSet(dev, PortLearning(spec.bridgeLearning)), PortPart(dev, spec.portVlan)),
         Finished)
  }

  function VxlanFilter(dev: string, spec: VxlanSpec): Prog {
    if spec.vniFilter && spec.portVlan.Some?
    then MayAll(VniAdds(dev, FilterVnis(spec.portVlan.value.tunnelInfo)), VxlanPorts(dev, spec))
    else VxlanPorts(dev, spec)
  }

  function VxlanLearning(dev: string, spec: VxlanSpec): Prog {
    May(LinkSet(dev, Learning(spec.learning)),
        Must(LinkSet(dev, State(true)), "UpFailed", VxlanFilter(dev, spec)))
  }

  function VxlanMaster(dev: string, spec: VxlanSpec): Prog {
    if spec.master != "" then Must(LinkSet(dev, Master(spec.master)), "MasterFailed", VxlanLearning(dev, spec))
    else VxlanLearning(dev, spec)
  }

  function VxlanMtu(dev: string, spec: VxlanSpec): Prog {
    if spec.mtu > 0 then Must(LinkSet(dev, Mtu(spec.mtu)), "MTUFailed", VxlanMaster(dev, spec))
    else VxlanMaster(dev, spec)
  }

  /** The address the device is given: None when it had to be detected and could not be. */
  function LocalAddress(spec: VxlanSpec, detected: Option<string>): Option<string> {
    if spec.localIP == "" && spec.dev != "" then detected else Some(spec.localIP)
  }

  function VxlanSettings(dev: string, spec: VxlanSpec, detected: Option<string>): Prog {
    match LocalAddress(spec, detected)
    case None => Aborted("LocalIPFailed")
    case Some(ip) =>
      if ip != "" then Must(LinkSet(dev, Local(ip)), "ConfigFailed", VxlanMtu(dev, spec)) else VxlanMtu(dev, spec)
  }

  function VxlanCreate(dev: string, spec: VxlanSpec, resolved: Option<int>, next: Prog): Prog {
    if spec.external then Must(LinkAdd(dev, VxlanExternal(spec.vniFilter)), "CreateFailed", next)
    else if spec.vni != 0 then Must(LinkAdd(dev, VxlanId(spec.vni)), "CreateFailed", next)
    else match resolved
      case None => Aborted("ResolveIDFailed")
      case Some(id) => Must(LinkAdd(dev, VxlanId(id)), "CreateFailed", next)
  }

  function VxlanProgram(dev: string, spec: VxlanSpec, resolved: Option<int>, detected: Option<string>): Prog {
    var settings := VxlanSettings(dev, spec, detected);
    Test(LinkShow(dev), settings, VxlanCreate(dev, spec, resolved, settings))
  }

  /** The program a controller of this kind runs; the Go types rule out a spec of another kind. */
  function AgentProgram(kind: Kind, dev: string, spec: Spec, resolved: Option<int>, detected: Option<string>): Prog {
    match spec
    case OfBridge(b) => if kind.Bridge? then BridgeProgram(dev, b) else Aborted("")
    case OfUplink(u) => if kind.Uplink? then UplinkProgram(dev, u) else Aborted("")
    case OfVxlan(v) => if kind.Vxlan? then VxlanProgram(dev, v, resolved, detected) else Aborted("")
  }
}
