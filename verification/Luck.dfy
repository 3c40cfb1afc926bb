/**
 * The verdict of an undisturbed agent run whose commands fail only when they cannot succeed: success, or
 * the one reason that the links, the spec and the two VXLAN lookups decide before the run begins.
 */
module Luck {
  import opened Base
  import opened ApiObjects
  import PortVlan
  import opened Kernel
  import opened Programs

  /** Where the program ends when every command has the outcome the links allow. */
  function End(p: Prog, ls: Links): Prog {
    match p
    case Finished => p
    case Aborted(_) => p
    case Must(c, reason, next) => if CanSucceed(ls, c) then End(next, Effect(ls, c)) else Aborted(reason)
    case May(c, next) => End(next, Try(ls, c, true))
    case Test(c, yes, no) => if CanSucceed(ls, c) then End(yes, Effect(ls, c)) else End(no, ls)
  }

  lemma {:induction false} LuckyRunsEnd(p: Prog, ls: Links, t: seq<Attempt>)
    requires Lucky(ls, t) && Rest(p, t).Some? && Ended(Rest(p, t).value)
    ensures Rest(p, t).value == End(p, ls)
    decreases |t|
  {
    if t != [] {
      RestHead(p, t);
      LuckyRunsEnd(Advance(p, t[0]).value, if t[0].ok then Effect(ls, t[0].cmd) else ls, t[1..]);
    }
  }

  // The verdicts, read off the links before the run

  function MasterVerdict(dev: string, master: string, ls: Links): Prog {
    if master != "" && !CanEnslave(ls, master, dev) then Aborted("MasterFailed") else Finished
  }

  /** An existing device of this name is of the type the setting is for. */
  predicate AbsentOr(ls: Links, dev: string, a: Attr) {
    dev in ls ==> Suits(ls[dev].mode, a)
  }

  /** There is an address to set: an explicit one, or one found on the interface. */
  predicate HasAddress(spec: VxlanSpec, detected: Option<string>) {
    spec.localIP != "" || (spec.dev != "" && detected.Some? && detected.value != "")
  }

  function VxlanVerdict(dev: string, spec: VxlanSpec, resolved: Option<int>, detected: Option<string>, ls: Links): Prog {
    if dev !in ls && !spec.external && spec.vni == 0 && resolved.None? then Aborted("ResolveIDFailed")
    else if spec.localIP == "" && spec.dev != "" && detected.None? then Aborted("LocalIPFailed")
    else if HasAddress(spec, detected) && dev in ls && !IsVxlan(ls[dev].mode) then Aborted("ConfigFailed")
    else MasterVerdict(dev, spec.master, ls)
  }

  /**
   * A bridge needs nothing but a name that is free or a bridge's. A bond needs the same for bonds if its
   * mode is set, and its master. A VXLAN needs its ID when it has to be created, its address, a name that is
   * free or a VXLAN's if there is an address to set, and its master.
   */
  function Verdict(k: Kind, dev: string, spec: Spec, resolved: Option<int>, detected: Option<string>, ls: Links): Prog {
    match spec
    case OfBridge(b) =>
      if !k.Bridge? then Aborted("")
      else if !AbsentOr(ls, dev, VlanFiltering(b.vlanFiltering)) then Aborted("ConfigFailed") else Finished
    case OfUplink(u) =>
      if !k.Uplink? then Aborted("")
      else if u.bondMode != "" && !AbsentOr(ls, dev, BondModeIs(u.bondMode)) then Aborted("ConfigFailed")
      else MasterVerdict(dev, u.master, ls)
    case OfVxlan(v) => if !k.Vxlan? then Aborted("") else VxlanVerdict(dev, v, resolved, detected, ls)
  }

  // Ports

  lemma {:induction false} VlanAddsEnd(dev: string, cmds: seq<PortVlan.VlanCmd>, reason: string, ls: Links)
    requires IsBridgeSlave(ls, dev)
    ensures End(MustAll(VlanAdds(dev, cmds), reason, Finished), ls) == Finished
    decreases |cmds|
  {
    if cmds != [] {
      assert VlanAdds(dev, cmds)[1..] == VlanAdds(dev, cmds[1..]);
      VlanAddsEnd(dev, cmds[1..], reason, Effect(ls, VlanAdd(dev, cmds[0])));
    }
  }

  lemma PortPartEnds(dev: string, cfg: Option<PortVlanConfig>, ls: Links)
    requires IsBridgeSlave(ls, dev)
    ensures End(PortPart(dev, cfg), ls) == Finished
  {
    if cfg.Some? {
      VlanAddsEnd(dev, PortVlan.Commands(cfg.value), "VLANConfigFailed", ls);
    }
  }

  // Bridges

  lemma BridgeEnds(dev: string, spec: BridgeSpec, ls: Links)
    ensures End(BridgeProgram(dev, spec), ls)
         == if AbsentOr(ls, dev, VlanFiltering(spec.vlanFiltering)) then Finished else Aborted("ConfigFailed")
  {
    var ls0 := if dev in ls then ls else Effect(ls, LinkAdd(dev, BridgeMode));
    if ls0[dev].mode.BridgeMode? {
      var ls1 := Effect(ls0, LinkSet(dev, VlanFiltering(spec.vlanFiltering)));
      var ls2 := Effect(ls1, LinkSet(dev, NfCallIptables(spec.nfCallIptables)));
      assert End(Must(LinkSet(dev, State(true)), "UpFailed", Finished), ls2) == Finished;
      assert End(BridgeSettings(dev, spec), ls0) == Finished;
    }
  }

  // Uplinks

  lemma UplinkUpEnds(dev: string, spec: UplinkSpec, ls: Links)
    requires dev in ls
    ensures End(UplinkUp(dev, spec), ls) == Finished
  {
    var ls1 := Effect(ls, LinkSet(dev, State(true)));
    if IsBridgeSlave(ls1, dev) {
      PortPartEnds(dev, spec.portVlan, ls1);
    }
    assert End(UplinkPorts(dev, spec), ls1) == Finished;
  }

  lemma UplinkMasterEnds(dev: string, spec: UplinkSpec, ls: Links)
    requires dev in ls
    ensures End(UplinkMaster(dev, spec), ls) == MasterVerdict(dev, spec.master, ls)
  {
    var enslave := LinkSet(dev, Master(spec.master));
    if spec.master == "" {
      UplinkUpEnds(dev, spec, ls);
    } else if CanSucceed(ls, enslave) {
      UplinkUpEnds(dev, spec, Effect(ls, enslave));
    }
  }

  lemma {:induction false} UplinkSlavesEnd(dev: string, spec: UplinkSpec, slaves: seq<string>, ls: Links)
    requires dev in ls
    ensures End(UplinkSlaves(dev, spec, slaves), ls) == MasterVerdict(dev, spec.master, ls)
    decreases |slaves|
  {
    if slaves == [] {
      UplinkMasterEnds(dev, spec, ls);
    } else {
      SlaveStep(dev, spec, slaves);
      var ls1 := Try(ls, LinkSet(slaves[0], State(false)), true);
      var ls2 := Try(ls1, LinkSet(slaves[0], Master(dev)), true);
      UplinkSlavesEnd(dev, spec, slaves[1..], ls2);
    }
  }

  lemma UplinkSettingsEnd(dev: string, spec: UplinkSpec, ls: Links)
    requires dev in ls
    ensures End(UplinkSettings(dev, spec), ls)
         == if spec.bondMode != "" && !ls[dev].mode.BondMode? then Aborted("ConfigFailed") else MasterVerdict(dev, spec.master, ls)
  {
    var mode := LinkSet(dev, BondModeIs(spec.bondMode));
    if spec.bondMode == "" {
      UplinkSlavesEnd(dev, spec, spec.bondSlaves, ls);
    } else if CanSucceed(ls, mode) {
      UplinkSlavesEnd(dev, spec, spec.bondSlaves, Effect(ls, mode));
    }
  }

  lemma UplinkEnds(dev: string, spec: UplinkSpec, ls: Links)
    ensures End(UplinkProgram(dev, spec), ls)
         == if spec.bondMode != "" && !AbsentOr(ls, dev, BondModeIs(spec.bondMode)) then Aborted("ConfigFailed")
            else MasterVerdict(dev, spec.master, ls)
  {
    UplinkSettingsEnd(dev, spec, if dev in ls then ls else Effect(ls, LinkAdd(dev, BondMode)));
  }

  // VXLANs

  lemma VxlanPortsEnd(dev: string, spec: VxlanSpec, ls: Links)
    ensures End(VxlanPorts(dev, spec), ls) == Finished
  {
    var learn := LinkSet(dev, PortLearning(spec.bridgeLearning));
    if IsBridgeSlave(ls, dev) {
      PortPartEnds(dev, spec.portVlan, Effect(ls, learn));
      assert End(May(learn, PortPart(dev, spec.portVlan)), ls) == Finished;
    }
  }

  lemma {:induction false} VniAddsEnd(dev: string, spec: VxlanSpec, vnis: seq<int>, ls: Links)
    ensures End(MayAll(VniAdds(dev, vnis), VxlanPorts(dev, spec)), ls) == Finished
    decreases |vnis|
  {
    if vnis == [] {
      VxlanPortsEnd(dev, spec, ls);
    } else {
      assert VniAdds(dev, vnis)[1..] == VniAdds(dev, vnis[1..]);
      assert VniAdds(dev, vnis)[0] == VniAdd(dev, vnis[0]);
      VniAddsEnd(dev, spec, vnis[1..], Try(ls, VniAdd(dev, vnis[0]), true));
    }
  }

  lemma VxlanLearningEnds(dev: string, spec: VxlanSpec, ls: Links)
    requires dev in ls
    ensures End(VxlanLearning(dev, spec), ls) == Finished
  {
    var ls1 := Try(ls, LinkSet(dev, Learning(spec.learning)), true);
    var ls2 := Effect(ls1, LinkSet(dev, State(true)));
    VxlanPortsEnd(dev, spec, ls2);
    if spec.portVlan.Some? {
      VniAddsEnd(dev, spec, PortVlan.FilterVnis(spec.portVlan.value.tunnelInfo), ls2);
    }
    assert End(VxlanFilter(dev, spec), ls2) == Finished;
  }

  lemma VxlanMasterEnds(dev: string, spec: VxlanSpec, ls: Links)
    requires dev in ls
    ensures End(VxlanMaster(dev, spec), ls) == MasterVerdict(dev, spec.master, ls)
  {
    var enslave := LinkSet(dev, Master(spec.master));
    if spec.master == "" {
      VxlanLearningEnds(dev, spec, ls);
    } else if CanSucceed(ls, enslave) {
      VxlanLearningEnds(dev, spec, Effect(ls, enslave));
    }
  }

  lemma VxlanMtuEnds(dev: string, spec: VxlanSpec, ls: Links)
    requires dev in ls
    ensures End(VxlanMtu(dev, spec), ls) == MasterVerdict(dev, spec.master, ls)
  {
    VxlanMasterEnds(dev, spec, if spec.mtu > 0 then Effect(ls, LinkSet(dev, Mtu(spec.mtu))) else ls);
  }

  lemma VxlanSettingsEnd(dev: string, spec: VxlanSpec, detected: Option<string>, ls: Links)
    requires dev in ls
    ensures End(VxlanSettings(dev, spec, detected), ls) == VxlanVerdict(dev, spec, Some(0), detected, ls)
  {
    if LocalAddress(spec, detected).Some? {
      var local := LinkSet(dev, Local(LocalAddress(spec, detected).value));
      if LocalAddress(spec, detected).value == "" {
        VxlanMtuEnds(dev, spec, ls);
      } else if CanSucceed(ls, local) {
        VxlanMtuEnds(dev, spec, Effect(ls, local));
      }
    }
  }

  /** Creating the device first changes nothing in the verdict on its settings. */
  lemma CreatedVxlanEnds(dev: string, spec: VxlanSpec, detected: Option<string>, ls: Links, mode: Mode)
    requires dev !in ls && IsVxlan(mode)
    ensures End(VxlanSettings(dev, spec, detected), Effect(ls, LinkAdd(dev, mode))) == VxlanVerdict(dev, spec, Some(0), detected, ls)
  {
    VxlanSettingsEnd(dev, spec, detected, Effect(ls, LinkAdd(dev, mode)));
  }

  lemma VxlanCreateEnds(dev: string, spec: VxlanSpec, resolved: Option<int>, detected: Option<string>, ls: Links)
    requires dev !in ls
    ensures End(VxlanCreate(dev, spec, resolved, VxlanSettings(dev, spec, detected)), ls) == VxlanVerdict(dev, spec, resolved, detected, ls)
  {
    if spec.external {
      CreatedVxlanEnds(dev, spec, detected, ls, VxlanExternal(spec.vniFilter));
    } else if spec.vni != 0 {
      CreatedVxlanEnds(dev, spec, detected, ls, VxlanId(spec.vni));
    } else if resolved.Some? {
      CreatedVxlanEnds(dev, spec, detected, ls, VxlanId(resolved.value));
    }
  }

  lemma VxlanEnds(dev: string, spec: VxlanSpec, resolved: Option<int>, detected: Option<string>, ls: Links)
    ensures End(VxlanProgram(dev, spec, resolved, detected), ls) == VxlanVerdict(dev, spec, resolved, detected, ls)
  {
    if dev in ls {
      VxlanSettingsEnd(dev, spec, detected, ls);
    } else {
      VxlanCreateEnds(dev, spec, resolved, detected, ls);
    }
  }

  lemma ProgramEnds(k: Kind, dev: string, spec: Spec, resolved: Option<int>, detected: Option<string>, ls: Links)
    ensures End(AgentProgram(k, dev, spec, resolved, detected), ls) == Verdict(k, dev, spec, resolved, detected, ls)
  {
    match spec
    case OfBridge(b) => BridgeEnds(dev, b, ls);
    case OfUplink(u) => UplinkEnds(dev, u, ls);
    case OfVxlan(v) => VxlanEnds(dev, v, resolved, detected, ls);
  }

  /** An undisturbed run ends with the verdict that could be read off the links before it. */
  lemma UndisturbedRunEnds(k: Kind, dev: string, spec: Spec, resolved: Option<int>, detected: Option<string>,
                           ls: Links, t: seq<Attempt>)
    requires Lucky(ls, t)
    requires var p := AgentProgram(k, dev, spec, resolved, detected); Rest(p, t).Some? && Ended(Rest(p, t).value)
    ensures Rest(AgentProgram(k, dev, spec, resolved, detected), t) == Some(Verdict(k, dev, spec, resolved, detected, ls))
  {
    LuckyRunsEnd(AgentProgram(k, dev, spec, resolved, detected), ls, t);
    ProgramEnds(k, dev, spec, resolved, detected, ls);
  }
}
