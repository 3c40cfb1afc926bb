/** What the agents' programs promise about the links, for every pattern of command failures. */
module AgentLaws {
  import opened Base
  import opened ApiObjects
  import opened PortVlan
  import opened Kernel
  import opened Programs
  import opened Asked

  predicate Has(ls: Links, dev: string, a: Attr) {
    dev in ls && SlotOf(a) in ls[dev].attrs && ls[dev].attrs[SlotOf(a)] == a
  }

  function PortOf(ls: Links, dev: string): Port {
    if dev in ls then ls[dev].port else map[]
  }

  function VnisOf(ls: Links, dev: string): set<int> {
    if dev in ls then ls[dev].vnis else {}
  }

  function AttrOf(ls: Links, dev: string, slot: Slot): Option<Attr> {
    if dev in ls && slot in ls[dev].attrs then Some(ls[dev].attrs[slot]) else None
  }

  /** The device's port is untouched, or the device is enslaved to a bridge and has the whole configuration. */
  ghost predicate PortDone(before: Links, after: Links, dev: string, cfg: Option<PortVlanConfig>) {
    || PortOf(after, dev) == PortOf(before, dev)
    || (cfg.Some? && IsBridgeSlave(after, dev) && Written(PortOf(before, dev), PortOf(after, dev), cfg.value))
  }

  /** Running the commands of the configuration on a port of a bridge completes it. */
  lemma PortIsDone(before: Links, ls: Links, dev: string, cfg: Option<PortVlanConfig>)
    requires IsBridgeSlave(ls, dev) && cfg.Some? && ls[dev].port == PortOf(before, dev)
    ensures PortDone(before, WithPort(ls, dev, Commands(cfg.value)), dev, cfg)
  {
    ConfigIsWritten(PortOf(before, dev), cfg.value);
  }

  // Bridge

  predicate BridgeDone(ls: Links, dev: string, spec: BridgeSpec) {
    && dev in ls && ls[dev].mode.BridgeMode?
    && Has(ls, dev, VlanFiltering(spec.vlanFiltering))
    && Has(ls, dev, NfCallIptables(spec.nfCallIptables))
    && Has(ls, dev, State(true))
  }

  lemma BridgeReadyMeansConfigured(dev: string, spec: BridgeSpec, ls: Links, t: seq<Attempt>)
    requires Possible(ls, t) && Rest(BridgeProgram(dev, spec), t) == Some(Finished)
    ensures BridgeDone(After(ls, t), dev, spec)
  {
    var post := (finished: bool, ls': Links) => finished ==> BridgeDone(ls', dev, spec);
    BridgeEstablishes(dev, spec, ls, post);
    EstablishesSound(BridgeProgram(dev, spec), ls, t, NoneSure, post);
  }

  lemma BridgeEstablishes(dev: string, spec: BridgeSpec, ls: Links, post: (bool, Links) -> bool)
    requires forall fin, ls' :: post(fin, ls') <==> (fin ==> BridgeDone(ls', dev, spec))
    ensures Establishes(BridgeProgram(dev, spec), ls, NoneSure, post)
  {
    if dev in ls {
      BridgeSettingsEstablish(dev, spec, ls, post);
    } else {
      BridgeSettingsEstablish(dev, spec, Effect(ls, LinkAdd(dev, BridgeMode)), post);
    }
  }

  lemma BridgeSettingsEstablish(dev: string, spec: BridgeSpec, ls: Links, post: (bool, Links) -> bool)
    requires dev in ls
    requires forall fin, ls' :: post(fin, ls') <==> (fin ==> BridgeDone(ls', dev, spec))
    ensures Establishes(BridgeSettings(dev, spec), ls, NoneSure, post)
  {
    var q := BridgeSettings(dev, spec);
    if CanSucceed(ls, q.cmd) {
      var ls1 := Effect(ls, q.cmd);
      var ls2 := Effect(ls1, q.next.cmd);
      assert Establishes(Finished, Effect(ls2, q.next.next.cmd), NoneSure, post);
      assert Establishes(q.next.next, ls2, NoneSure, post);
      assert Establishes(q.next, ls1, NoneSure, post);
    }
  }

  // Uplink

  ghost predicate UplinkDone(before: Links, ls: Links, dev: string, spec: UplinkSpec) {
    && Has(ls, dev, State(true))
    && (spec.bondMode != "" || dev !in before ==> ls[dev].mode.BondMode?)
    && (spec.bondMode != "" ==> Has(ls, dev, BondModeIs(spec.bondMode)))
    && (spec.master != "" ==> Has(ls, dev, Master(spec.master)) && CanEnslave(ls, spec.master, dev))
    && PortDone(before, ls, dev, spec.portVlan)
  }

  /** What enslaving leaves alone on the bond itself, even if it is listed as its own slave. */
  predicate BondKept(ls: Links, ls': Links, dev: string) {
    && dev in ls && dev in ls'
    && ls'[dev].port == ls[dev].port && ls'[dev].mode == ls[dev].mode
    && (SBondMode in ls[dev].attrs ==> SBondMode in ls'[dev].attrs && ls'[dev].attrs[SBondMode] == ls[dev].attrs[SBondMode])
  }

  lemma {:induction false} SlavesEstablish(dev: string, spec: UplinkSpec, slaves: seq<string>, base: Links, ls: Links, post: (bool, Links) -> bool)
    requires BondKept(base, ls, dev)
    requires forall ls' :: BondKept(base, ls', dev) ==> Establishes(UplinkMaster(dev, spec), ls', NoneSure, post)
    ensures Establishes(UplinkSlaves(dev, spec, slaves), ls, NoneSure, post)
    decreases |slaves|
  {
    if slaves != [] {
      SlaveStep(dev, spec, slaves);
      var q := UplinkSlaves(dev, spec, slaves);
      forall ls1 | BondKept(base, ls1, dev)
        ensures Establishes(q.next, ls1, NoneSure, post)
      {
        SlavesEstablish(dev, spec, slaves[1..], base, ls1, post);
        if CanSucceed(ls1, q.next.cmd) {
          SlavesEstablish(dev, spec, slaves[1..], base, Effect(ls1, q.next.cmd), post);
        }
      }
    }
  }

  lemma UplinkReadyMeansConfigured(dev: string, spec: UplinkSpec, ls: Links, t: seq<Attempt>)
    requires Possible(ls, t) && Rest(UplinkProgram(dev, spec), t) == Some(Finished)
    ensures UplinkDone(ls, After(ls, t), dev, spec)
  {
    var post := (finished: bool, ls': Links) => finished ==> UplinkDone(ls, ls', dev, spec);
    UplinkEstablishes(dev, spec, ls, post);
    EstablishesSound(UplinkProgram(dev, spec), ls, t, NoneSure, post);
  }

  lemma UplinkEstablishes(dev: string, spec: UplinkSpec, ls: Links, post: (bool, Links) -> bool)
    requires forall fin, ls' :: post(fin, ls') <==> (fin ==> UplinkDone(ls, ls', dev, spec))
    ensures Establishes(UplinkProgram(dev, spec), ls, NoneSure, post)
  {
    if dev in ls {
      UplinkSettingsEstablish(dev, spec, ls, ls, post);
    } else {
      UplinkSettingsEstablish(dev, spec, ls, Effect(ls, LinkAdd(dev, BondMode)), post);
    }
  }

  lemma UplinkSettingsEstablish(dev: string, spec: UplinkSpec, before: Links, ls: Links, post: (bool, Links) -> bool)
    requires dev in ls && ls[dev].port == PortOf(before, dev) && (dev !in before ==> ls[dev].mode.BondMode?)
    requires forall fin, ls' :: post(fin, ls') <==> (fin ==> UplinkDone(before, ls', dev, spec))
    ensures Establishes(UplinkSettings(dev, spec), ls, NoneSure, post)
  {
    var mode := LinkSet(dev, BondModeIs(spec.bondMode));
    if spec.bondMode == "" || CanSucceed(ls, mode) {
      var ls1 := if spec.bondMode != "" then Effect(ls, mode) else ls;
      forall ls' | BondKept(ls1, ls', dev)
        ensures Establishes(UplinkMaster(dev, spec), ls', NoneSure, post)
      {
        UplinkMasterEstablishes(dev, spec, before, ls', post);
      }
      SlavesEstablish(dev, spec, spec.bondSlaves, ls1, ls1, post);
    }
  }

  lemma UplinkMasterEstablishes(dev: string, spec: UplinkSpec, before: Links, ls: Links, post: (bool, Links) -> bool)
    requires dev in ls && ls[dev].port == PortOf(before, dev)
    requires spec.bondMode != "" || dev !in before ==> ls[dev].mode.BondMode?
    requires spec.bondMode != "" ==> Has(ls, dev, BondModeIs(spec.bondMode))
    requires forall fin, ls' :: post(fin, ls') <==> (fin ==> UplinkDone(before, ls', dev, spec))
    ensures Establishes(UplinkMaster(dev, spec), ls, NoneSure, post)
  {
    var enslave := LinkSet(dev, Master(spec.master));
    if spec.master == "" {
      UplinkUpEstablishes(dev, spec, before, ls, post);
    } else if CanSucceed(ls, enslave) {
      UplinkUpEstablishes(dev, spec, before, Effect(ls, enslave), post);
    }
  }

  lemma UplinkUpEstablishes(dev: string, spec: UplinkSpec, before: Links, ls: Links, post: (bool, Links) -> bool)
    requires dev in ls && ls[dev].port == PortOf(before, dev)
    requires spec.bondMode != "" || dev !in before ==> ls[dev].mode.BondMode?
    requires spec.bondMode != "" ==> Has(ls, dev, BondModeIs(spec.bondMode))
    requires spec.master != "" ==> Has(ls, dev, Master(spec.master)) && CanEnslave(ls, spec.master, dev)
    requires forall fin, ls' :: post(fin, ls') <==> (fin ==> UplinkDone(before, ls', dev, spec))
    ensures Establishes(UplinkUp(dev, spec), ls, NoneSure, post)
  {
    var ls1 := Effect(ls, LinkSet(dev, State(true)));
    assert UplinkDone(before, ls1, dev, spec);
    UplinkPortIsDone(dev, spec, before, ls1);
    PortsEstablish(dev, spec.portVlan, ls1, NoneSure, post);
    assert Establishes(UplinkPorts(dev, spec), ls1, NoneSure, post);
  }

  lemma UplinkPortIsDone(dev: string, spec: UplinkSpec, before: Links, ls: Links)
    requires UplinkDone(before, ls, dev, spec) && ls[dev].port == PortOf(before, dev)
    ensures spec.portVlan.Some? && IsBridgeSlave(ls, dev) ==> UplinkDone(before, WithPort(ls, dev, Commands(spec.portVlan.value)), dev, spec)
  {
    if spec.portVlan.Some? && IsBridgeSlave(ls, dev) {
      PortIsDone(before, ls, dev, spec.portVlan);
    }
  }

  /** The port VLAN part keeps any post that holds of the links with a prefix of the commands applied. */
  lemma PortsEstablish(dev: string, cfg: Option<PortVlanConfig>, ls: Links, sure: Cmd -> bool, post: (bool, Links) -> bool)
    requires dev in ls && post(true, ls)
    requires cfg.Some? ==> forall k :: 0 <= k <= |Commands(cfg.value)| ==> post(false, WithPort(ls, dev, Commands(cfg.value)[..k]))
    requires cfg.Some? && IsBridgeSlave(ls, dev) ==> post(true, WithPort(ls, dev, Commands(cfg.value)))
    ensures IsBridgeSlave(ls, dev) ==> Establishes(PortPart(dev, cfg), ls, sure, post)
  {
    if cfg.Some? && IsBridgeSlave(ls, dev) {
      VlanChainEstablishes(dev, Commands(cfg.value), "VLANConfigFailed", Finished, ls, sure, post);
    }
  }

  // VXLAN

  ghost predicate VxlanDone(before: Links, ls: Links, dev: string, spec: VxlanSpec, ip: string) {
    && Has(ls, dev, State(true))
    && (ip != "" || dev !in before ==> IsVxlan(ls[dev].mode))
    && (ip != "" ==> Has(ls, dev, Local(ip)))
    && (spec.mtu > 0 ==> Has(ls, dev, Mtu(spec.mtu)))
    && (spec.master != "" ==> Has(ls, dev, Master(spec.master)) && CanEnslave(ls, spec.master, dev))
    && PortDone(before, ls, dev, spec.portVlan)
  }

  /** Every VNI some VLAN of the port is tunnelled to passes the device's filter. */
  predicate FilterAdmits(ls: Links, dev: string) {
    TunnelVnis(PortOf(ls, dev)) <= VnisOf(ls, dev)
  }

  /** A finished run has configured the device; any run that could fill the filter leaves it admitting its tunnels. */
  ghost predicate VxlanPost(before: Links, dev: string, spec: VxlanSpec, ip: string, filled: bool, finished: bool, ls: Links) {
    && (finished ==> VxlanDone(before, ls, dev, spec, ip))
    && (filled && spec.vniFilter && FilterAdmits(before, dev) ==> FilterAdmits(ls, dev))
  }

  /** The first `stage` settings are in place and neither tunnels nor filter have lost anything. */
  predicate VxlanSoFar(before: Links, ls: Links, dev: string, spec: VxlanSpec, ip: string, stage: nat) {
    && dev in ls && ls[dev].port == PortOf(before, dev) && VnisOf(before, dev) <= ls[dev].vnis
    && (dev !in before ==> IsVxlan(ls[dev].mode))
    && (stage >= 1 && ip != "" ==> Has(ls, dev, Local(ip)) && IsVxlan(ls[dev].mode))
    && (stage >= 2 && spec.mtu > 0 ==> Has(ls, dev, Mtu(spec.mtu)))
    && (stage >= 3 && spec.master != "" ==> Has(ls, dev, Master(spec.master)) && CanEnslave(ls, spec.master, dev))
    && (stage >= 4 ==> Has(ls, dev, State(true)))
  }

  /** The fixed facts of one VXLAN run: where it began, what it must end in, and which commands cannot fail. */
  ghost predicate VxlanRun(before: Links, dev: string, spec: VxlanSpec, ip: string, filled: bool, sure: Cmd -> bool, post: (bool, Links) -> bool) {
    && (filled ==> forall vni :: sure(VniAdd(dev, vni)))
    && forall fin, ls :: post(fin, ls) <==> VxlanPost(before, dev, spec, ip, filled, fin, ls)
  }

  /** However early the port commands stop, the filter admits what they tunnelled. */
  lemma VxlanStopsSafely(before: Links, ls: Links, dev: string, spec: VxlanSpec, ip: string, filled: bool, k: nat)
    requires VxlanSoFar(before, ls, dev, spec, ip, 4) && IsBridgeSlave(ls, dev)
    requires spec.portVlan.Some? && k <= |Commands(spec.portVlan.value)|
    requires filled && spec.vniFilter ==> SetOf(FilterVnis(spec.portVlan.value.tunnelInfo)) <= ls[dev].vnis
    ensures VxlanPost(before, dev, spec, ip, filled, false, WithPort(ls, dev, Commands(spec.portVlan.value)[..k]))
  {
    FilterAdmitsTunnels(ls[dev].port, spec.portVlan.value, k);
  }

  lemma VxlanPortIsDone(before: Links, ls: Links, dev: string, spec: VxlanSpec, ip: string)
    requires VxlanSoFar(before, ls, dev, spec, ip, 4) && IsBridgeSlave(ls, dev) && spec.portVlan.Some?
    ensures VxlanDone(before, WithPort(ls, dev, Commands(spec.portVlan.value)), dev, spec, ip)
  {
    PortIsDone(before, ls, dev, spec.portVlan);
  }

  lemma VxlanPortPartEstablishes(before: Links, ls: Links, dev: string, spec: VxlanSpec, ip: string, filled: bool, sure: Cmd -> bool, post: (bool, Links) -> bool)
    requires VxlanRun(before, dev, spec, ip, filled, sure, post) && VxlanSoFar(before, ls, dev, spec, ip, 4)
    requires filled && spec.vniFilter && spec.portVlan.Some? ==> SetOf(FilterVnis(spec.portVlan.value.tunnelInfo)) <= ls[dev].vnis
    requires IsBridgeSlave(ls, dev)
    ensures Establishes(PortPart(dev, spec.portVlan), ls, sure, post)
  {
    assert VxlanDone(before, ls, dev, spec, ip);
    if spec.portVlan.Some? {
      var cmds := Commands(spec.portVlan.value);
      forall k | 0 <= k <= |cmds|
        ensures VxlanPost(before, dev, spec, ip, filled, false, WithPort(ls, dev, cmds[..k]))
      {
        VxlanStopsSafely(before, ls, dev, spec, ip, filled, k);
      }
      VxlanStopsSafely(before, ls, dev, spec, ip, filled, |cmds|);
      assert cmds[..|cmds|] == cmds;
      VxlanPortIsDone(before, ls, dev, spec, ip);
      PortsEstablish(dev, spec.portVlan, ls, sure, post);
    }
  }

  lemma VxlanPortsEstablish(before: Links, ls: Links, dev: string, spec: VxlanSpec, ip: string, filled: bool, sure: Cmd -> bool, post: (bool, Links) -> bool)
    requires VxlanRun(before, dev, spec, ip, filled, sure, post) && VxlanSoFar(before, ls, dev, spec, ip, 4)
    requires filled && spec.vniFilter && spec.portVlan.Some? ==> SetOf(FilterVnis(spec.portVlan.value.tunnelInfo)) <= ls[dev].vnis
    ensures Establishes(VxlanPorts(dev, spec), ls, sure, post)
  {
    var learn := LinkSet(dev, PortLearning(spec.bridgeLearning));
    assert VxlanPost(before, dev, spec, ip, filled, true, ls);
    if IsBridgeSlave(ls, dev) {
      var ls1 := Effect(ls, learn);
      assert VxlanSoFar(before, ls1, dev, spec, ip, 4) && IsBridgeSlave(ls1, dev);
      VxlanPortPartEstablishes(before, ls, dev, spec, ip, filled, sure, post);
      VxlanPortPartEstablishes(before, ls1, dev, spec, ip, filled, sure, post);
      assert Establishes(VxlanPorts(dev, spec).yes, ls, sure, post);
    }
  }

  lemma {:induction false} VniAddsEstablish(before: Links, ls: Links, dev: string, spec: VxlanSpec, ip: string, filled: bool, sure: Cmd -> bool,
                                            post: (bool, Links) -> bool, done: nat)
    requires VxlanRun(before, dev, spec, ip, filled, sure, post) && VxlanSoFar(before, ls, dev, spec, ip, 4)
    requires spec.portVlan.Some? && done <= |FilterVnis(spec.portVlan.value.tunnelInfo)|
    requires filled ==> SetOf(FilterVnis(spec.portVlan.value.tunnelInfo)[..done]) <= ls[dev].vnis
    ensures Establishes(MayAll(VniAdds(dev, FilterVnis(spec.portVlan.value.tunnelInfo))[done..], VxlanPorts(dev, spec)), ls, sure, post)
    decreases |FilterVnis(spec.portVlan.value.tunnelInfo)| - done
  {
    var vnis := FilterVnis(spec.portVlan.value.tunnelInfo);
    var cmds := VniAdds(dev, vnis);
    if done == |vnis| {
      assert vnis[..done] == vnis;
      VxlanPortsEstablish(before, ls, dev, spec, ip, filled, sure, post);
    } else {
      assert cmds[done..][1..] == cmds[done + 1..];
      assert vnis[..done + 1] == vnis[..done] + [vnis[done]];
      if CanSucceed(ls, cmds[done]) {
        VniAddsEstablish(before, Effect(ls, cmds[done]), dev, spec, ip, filled, sure, post, done + 1);
      }
      if !sure(cmds[done]) {
        VniAddsEstablish(before, ls, dev, spec, ip, filled, sure, post, done + 1);
      }
    }
  }

  lemma VxlanFilterEstablishes(before: Links, ls: Links, dev: string, spec: VxlanSpec, ip: string, filled: bool, sure: Cmd -> bool, post: (bool, Links) -> bool)
    requires VxlanRun(before, dev, spec, ip, filled, sure, post) && VxlanSoFar(before, ls, dev, spec, ip, 4)
    ensures Establishes(VxlanFilter(dev, spec), ls, sure, post)
  {
    if spec.vniFilter && spec.portVlan.Some? {
      VniAddsEstablish(before, ls, dev, spec, ip, filled, sure, post, 0);
      var cmds := VniAdds(dev, FilterVnis(spec.portVlan.value.tunnelInfo));
      assert cmds[0..] == cmds;
    } else {
      VxlanPortsEstablish(before, ls, dev, spec, ip, filled, sure, post);
    }
  }

  lemma VxlanLearningEstablishes(before: Links, ls: Links, dev: string, spec: VxlanSpec, ip: string, filled: bool, sure: Cmd -> bool, post: (bool, Links) -> bool)
    requires VxlanRun(before, dev, spec, ip, filled, sure, post) && VxlanSoFar(before, ls, dev, spec, ip, 3)
    ensures Establishes(VxlanLearning(dev, spec), ls, sure, post)
  {
    var q := VxlanLearning(dev, spec);
    VxlanUpEstablishes(before, ls, dev, spec, ip, filled, sure, post);
    if CanSucceed(ls, q.cmd) {
      VxlanUpEstablishes(before, Effect(ls, q.cmd), dev, spec, ip, filled, sure, post);
    }
  }

  lemma VxlanUpEstablishes(before: Links, ls: Links, dev: string, spec: VxlanSpec, ip: string, filled: bool, sure: Cmd -> bool, post: (bool, Links) -> bool)
    requires VxlanRun(before, dev, spec, ip, filled, sure, post) && VxlanSoFar(before, ls, dev, spec, ip, 3)
    ensures Establishes(VxlanLearning(dev, spec).next, ls, sure, post)
  {
    var q := VxlanLearning(dev, spec).next;
    VxlanFilterEstablishes(before, Effect(ls, q.cmd), dev, spec, ip, filled, sure, post);
    assert VxlanPost(before, dev, spec, ip, filled, false, ls);
  }

  lemma VxlanSettingsEstablish(before: Links, ls: Links, dev: string, spec: VxlanSpec, detected: Option<string>, ip: string,
                               filled: bool, sure: Cmd -> bool, post: (bool, Links) -> bool)
    requires VxlanRun(before, dev, spec, ip, filled, sure, post) && VxlanSoFar(before, ls, dev, spec, ip, 0)
    requires LocalAddress(spec, detected).None? || LocalAddress(spec, detected).value == ip
    ensures Establishes(VxlanSettings(dev, spec, detected), ls, sure, post)
  {
    var local := LinkSet(dev, Local(ip));
    if ip == "" {
      VxlanMtuEstablishes(before, ls, dev, spec, ip, filled, sure, post);
    } else if CanSucceed(ls, local) {
      VxlanMtuEstablishes(before, Effect(ls, local), dev, spec, ip, filled, sure, post);
    }
    assert VxlanPost(before, dev, spec, ip, filled, false, ls);
  }

  lemma VxlanMtuEstablishes(before: Links, ls: Links, dev: string, spec: VxlanSpec, ip: string, filled: bool, sure: Cmd -> bool, post: (bool, Links) -> bool)
    requires VxlanRun(before, dev, spec, ip, filled, sure, post) && VxlanSoFar(before, ls, dev, spec, ip, 1)
    ensures Establishes(VxlanMtu(dev, spec), ls, sure, post)
  {
    var ls1 := if spec.mtu > 0 then Effect(ls, LinkSet(dev, Mtu(spec.mtu))) else ls;
    VxlanMasterEstablishes(before, ls1, dev, spec, ip, filled, sure, post);
    assert VxlanPost(before, dev, spec, ip, filled, false, ls);
  }

  lemma VxlanMasterEstablishes(before: Links, ls: Links, dev: string, spec: VxlanSpec, ip: string, filled: bool, sure: Cmd -> bool, post: (bool, Links) -> bool)
    requires VxlanRun(before, dev, spec, ip, filled, sure, post) && VxlanSoFar(before, ls, dev, spec, ip, 2)
    ensures Establishes(VxlanMaster(dev, spec), ls, sure, post)
  {
    var enslave := LinkSet(dev, Master(spec.master));
    if spec.master == "" {
      VxlanLearningEstablishes(before, ls, dev, spec, ip, filled, sure, post);
    } else if CanSucceed(ls, enslave) {
      VxlanLearningEstablishes(before, Effect(ls, enslave), dev, spec, ip, filled, sure, post);
    }
    assert VxlanPost(before, dev, spec, ip, filled, false, ls);
  }

  lemma VxlanEstablishes(dev: string, spec: VxlanSpec, resolved: Option<int>, detected: Option<string>,
                         ip: string, filled: bool, sure: Cmd -> bool, ls: Links, post: (bool, Links) -> bool)
    requires LocalAddress(spec, detected).None? || LocalAddress(spec, detected).value == ip
    requires VxlanRun(ls, dev, spec, ip, filled, sure, post)
    ensures Establishes(VxlanProgram(dev, spec, resolved, detected), ls, sure, post)
  {
    var p := VxlanProgram(dev, spec, resolved, detected);
    if dev in ls {
      VxlanSettingsEstablish(ls, ls, dev, spec, detected, ip, filled, sure, post);
    } else if p.no.Must? {
      VxlanSettingsEstablish(ls, Effect(ls, p.no.cmd), dev, spec, detected, ip, filled, sure, post);
    }
    assert Establishes(p.no, ls, sure, post);
  }

  lemma VxlanEnds(dev: string, spec: VxlanSpec, resolved: Option<int>, detected: Option<string>, ls: Links, t: seq<Attempt>,
                  ip: string, filled: bool, sure: Cmd -> bool)
    requires LocalAddress(spec, detected).None? || LocalAddress(spec, detected).value == ip
    requires filled ==> forall vni :: sure(VniAdd(dev, vni))
    requires SureSucceed(t, sure) && Possible(ls, t)
    requires Rest(VxlanProgram(dev, spec, resolved, detected), t).Some? && Ended(Rest(VxlanProgram(dev, spec, resolved, detected), t).value)
    ensures VxlanPost(ls, dev, spec, ip, filled, Rest(VxlanProgram(dev, spec, resolved, detected), t).value.Finished?, After(ls, t))
  {
    var p := VxlanProgram(dev, spec, resolved, detected);
    var post := (fin: bool, ls': Links) => VxlanPost(ls, dev, spec, ip, filled, fin, ls');
    VxlanEstablishes(dev, spec, resolved, detected, ip, filled, sure, ls, post);
    EstablishesSound(p, ls, t, sure, post);
  }

  /** A run whose address lookup failed does not finish. */
  lemma FinishedHasAddress(dev: string, spec: VxlanSpec, resolved: Option<int>, detected: Option<string>, ls: Links, t: seq<Attempt>)
    requires Possible(ls, t) && LocalAddress(spec, detected).None?
    ensures Rest(VxlanProgram(dev, spec, resolved, detected), t) != Some(Finished)
  {
    var p := VxlanProgram(dev, spec, resolved, detected);
    var post := (fin: bool, ls': Links) => !fin;
    assert Establishes(p.no, ls, NoneSure, post);
    if Rest(p, t) == Some(Finished) {
      EstablishesSound(p, ls, t, NoneSure, post);
    }
  }

  /** The commands a VXLAN run may issue make the device as asked, keep it as made, and set no address that is not asked for. */
  lemma {:induction false} AskedIdentity(ls: Links, t: seq<Attempt>, dev: string, spec: VxlanSpec, resolved: Option<int>, detected: Option<string>)
    requires Possible(ls, t) && forall i :: 0 <= i < |t| ==> AsksVxlan(dev, spec, resolved, detected, t[i].cmd)
    ensures dev in ls ==> dev in After(ls, t)
    ensures dev in After(ls, t) ==> MadeAs(ls, After(ls, t), dev, spec, resolved)
    ensures AddressIs(spec, detected, "") ==> AttrOf(After(ls, t), dev, SLocal) == AttrOf(ls, dev, SLocal)
    decreases |t|
  {
    if t != [] {
      var ls1 := if t[0].ok then Effect(ls, t[0].cmd) else ls;
      assert AsksVxlan(dev, spec, resolved, detected, t[0].cmd);
      assert forall i :: 0 <= i < |t[1..]| ==> t[1..][i] == t[i + 1];
      AskedIdentity(ls1, t[1..], dev, spec, resolved, detected);
      if t[0].ok {
        AskedStep(ls, t[0].cmd, dev, spec, resolved, detected);
      }
    }
  }

  lemma AskedStep(ls: Links, c: Cmd, dev: string, spec: VxlanSpec, resolved: Option<int>, detected: Option<string>)
    requires CanSucceed(ls, c) && AsksVxlan(dev, spec, resolved, detected, c)
    ensures dev in ls ==> dev in Effect(ls, c) && Effect(ls, c)[dev].mode == ls[dev].mode
    ensures dev in Effect(ls, c) ==> MadeAs(ls, Effect(ls, c), dev, spec, resolved)
    ensures AddressIs(spec, detected, "") ==> AttrOf(Effect(ls, c), dev, SLocal) == AttrOf(ls, dev, SLocal)
  {
  }

  /**
   * After every successful run the device is up with the settings of its spec. The address `ip` is the explicit one,
   * else the one found on the interface; without either, the device's local address is what it was. A device made by the run has
   * the mode, the VNI filter flag and the ID that spec and template call for; one that was there keeps its mode.
   */
  lemma VxlanReadyMeansConfigured(dev: string, spec: VxlanSpec, resolved: Option<int>, detected: Option<string>, ls: Links, t: seq<Attempt>)
    returns (ip: string)
    requires Possible(ls, t) && Rest(VxlanProgram(dev, spec, resolved, detected), t) == Some(Finished)
    ensures AddressIs(spec, detected, ip)
    ensures VxlanDone(ls, After(ls, t), dev, spec, ip)
    ensures ip == "" ==> AttrOf(After(ls, t), dev, SLocal) == AttrOf(ls, dev, SLocal)
    ensures MadeAs(ls, After(ls, t), dev, spec, resolved)
  {
    if LocalAddress(spec, detected).None? {
      FinishedHasAddress(dev, spec, resolved, detected, ls, t);
    }
    ip := LocalAddress(spec, detected).value;
    AddressIff(spec, detected, ip);
    VxlanEnds(dev, spec, resolved, detected, ls, t, ip, false, NoneSure);
    VxlanIssuesOnly(dev, spec, resolved, detected, t);
    AskedIdentity(ls, t, dev, spec, resolved, detected);
  }

  predicate IsVniAdd(c: Cmd) {
    c.VniAdd?
  }

  /**
   * When all filter commands succeed, the tunnels installed pass the filter at the end of every run,
   * including one that stopped part-way through the tunnel commands.
   */
  lemma FilterAdmitsAtEveryEnd(dev: string, spec: VxlanSpec, resolved: Option<int>, detected: Option<string>, ls: Links, t: seq<Attempt>)
    requires Possible(ls, t) && Rest(VxlanProgram(dev, spec, resolved, detected), t).Some?
    requires Ended(Rest(VxlanProgram(dev, spec, resolved, detected), t).value)
    requires forall i :: 0 <= i < |t| && t[i].cmd.VniAdd? ==> t[i].ok
    requires spec.vniFilter && FilterAdmits(ls, dev)
    ensures FilterAdmits(After(ls, t), dev)
  {
    var ip := if LocalAddress(spec, detected).Some? then LocalAddress(spec, detected).value else "";
    VxlanEnds(dev, spec, resolved, detected, ls, t, ip, true, IsVniAdd);
  }
}
