/**
 * The links a lucky run ends with: the device has every setting its spec asks for. What the run makes of its own
 * device depends on that device and on which links there are, and on nothing else.
 */
module Settings {
  import opened Base
  import opened ApiObjects
  import PortVlan
  import opened Kernel
  import opened Programs
  import opened AgentLaws
  import opened Frames
  import opened Luck

  /** The links at the end when every command has the outcome the links allow. */
  function EndLinks(p: Prog, ls: Links): Links {
    match p
    case Finished => ls
    case Aborted(_) => ls
    case Must(c, _, next) => if CanSucceed(ls, c) then EndLinks(next, Effect(ls, c)) else ls
    case May(c, next) => EndLinks(next, Try(ls, c, true))
    case Test(c, yes, no) => if CanSucceed(ls, c) then EndLinks(yes, Effect(ls, c)) else EndLinks(no, ls)
  }

  lemma {:induction false} EstablishedAtEnd(p: Prog, ls: Links, post: (bool, Links) -> bool)
    requires Establishes(p, ls, NoneSure, post)
    ensures post(End(p, ls).Finished?, EndLinks(p, ls))
    decreases p
  {
    match p
    case Finished =>
    case Aborted(_) =>
    case Must(c, _, next) =>
      if CanSucceed(ls, c) {
        EstablishedAtEnd(next, Effect(ls, c), post);
      }
    case May(c, next) => EstablishedAtEnd(next, Try(ls, c, true), post);
    case Test(c, yes, no) =>
      if CanSucceed(ls, c) {
        EstablishedAtEnd(yes, Effect(ls, c), post);
      } else {
        EstablishedAtEnd(no, ls, post);
      }
  }

  /** One lucky command keeps the links ahead. */
  lemma AdvanceKeepsEndLinks(p: Prog, ls: Links)
    requires !Ended(p)
    ensures var a := Attempt(p.cmd, CanSucceed(ls, p.cmd));
            Advance(p, a).Some? && EndLinks(Advance(p, a).value, Try(ls, p.cmd, true)) == EndLinks(p, ls)
  {
  }

  // The device by itself

  function Bare(l: Link): Link {
    l.(flood := [])
  }

  /** The same links of the same types, and the same device but for its flood list. */
  predicate SameDevice(ls: Links, ls': Links, dev: string) {
    Modes(ls) == Modes(ls') && (dev in ls && dev in ls' ==> Bare(ls[dev]) == Bare(ls'[dev]))
  }

  lemma SameIsAlike(ls: Links, ls': Links, dev: string)
    requires SameDevice(ls, ls', dev)
    ensures Alike(ls, ls', dev) && (IsBridgeSlave(ls, dev) <==> IsBridgeSlave(ls', dev))
  {
    ModesSame(ls, ls', dev);
    if dev in ls && SMaster in ls[dev].attrs && ls[dev].attrs[SMaster].Master? {
      ModesSame(ls, ls', ls[dev].attrs[SMaster].dev);
    }
  }

  lemma OwnSameDevice(c: Cmd, dev: string, ls: Links, ls': Links)
    requires Own(c, dev) && SameDevice(ls, ls', dev)
    ensures CanSucceed(ls, c) <==> CanSucceed(ls', c)
    ensures CanSucceed(ls, c) ==> SameDevice(Effect(ls, c), Effect(ls', c), dev)
  {
    SameIsAlike(ls, ls', dev);
    OwnAlike(c, dev, ls, ls');
    ModesSame(ls, ls', dev);
  }

  lemma AsideSameDevice(c: Cmd, dev: string, managed: set<string>, ls: Links)
    requires Aside(c, dev, managed)
    ensures SameDevice(ls, Try(ls, c, true), dev)
    ensures forall d :: d in managed ==> SameDevice(ls, Try(ls, c, true), d)
  {
    if CanSucceed(ls, c) {
      AsideModes(c, dev, managed, ls);
    }
  }

  lemma SameTrans(a: Links, b: Links, c: Links, dev: string)
    requires SameDevice(a, b, dev) && SameDevice(b, c, dev)
    ensures SameDevice(a, c, dev) && SameDevice(b, a, dev)
  {
    ModesSame(a, b, dev);
  }

  /** The same device comes out of the run. */
  lemma {:induction false} EndLinksSame(p: Prog, dev: string, managed: set<string>, ls: Links, ls': Links)
    requires Stays(p, dev, managed) && SameDevice(ls, ls', dev)
    ensures SameDevice(EndLinks(p, ls), EndLinks(p, ls'), dev)
    decreases p
  {
    match p
    case Finished =>
    case Aborted(_) =>
    case Must(c, _, next) =>
      OwnSameDevice(c, dev, ls, ls');
      if CanSucceed(ls, c) {
        EndLinksSame(next, dev, managed, Effect(ls, c), Effect(ls', c));
      }
    case May(c, next) =>
      TrySame(c, dev, managed, ls, ls');
      EndLinksSame(next, dev, managed, Try(ls, c, true), Try(ls', c, true));
    case Test(c, yes, no) =>
      OwnSameDevice(c, dev, ls, ls');
      if CanSucceed(ls, c) {
        EndLinksSame(yes, dev, managed, Effect(ls, c), Effect(ls', c));
      } else {
        EndLinksSame(no, dev, managed, ls, ls');
      }
  }

  lemma TrySame(c: Cmd, dev: string, managed: set<string>, ls: Links, ls': Links)
    requires (Own(c, dev) || Aside(c, dev, managed)) && SameDevice(ls, ls', dev)
    ensures SameDevice(Try(ls, c, true), Try(ls', c, true), dev)
  {
    if Own(c, dev) {
      OwnSameDevice(c, dev, ls, ls');
    } else {
      AsideSameDevice(c, dev, managed, ls);
      AsideSameDevice(c, dev, managed, ls');
      SameTrans(ls, Try(ls, c, true), ls, dev);
      SameTrans(Try(ls, c, true), ls, ls', dev);
      SameTrans(Try(ls, c, true), ls', Try(ls', c, true), dev);
    }
  }

  lemma TrySameOther(c: Cmd, dev: string, managed: set<string>, other: string, ls: Links, ls': Links)
    requires Own(c, dev) || Aside(c, dev, managed)
    requires SameDevice(ls, ls', dev) && SameDevice(ls, ls', other)
    ensures SameDevice(Try(ls, c, true), Try(ls', c, true), other)
  {
    TrySame(c, dev, managed, ls, ls');
    ModesSame(ls, ls', other);
    if Own(c, dev) {
      OwnSameDevice(c, dev, ls, ls');
    } else if c.dev == other {
      OwnSameDevice(c, other, ls, ls');
    }
  }

  /** And so does any other link that was the same before. */
  lemma {:induction false} EndLinksSameOther(p: Prog, dev: string, managed: set<string>, other: string, ls: Links, ls': Links)
    requires Stays(p, dev, managed) && SameDevice(ls, ls', dev) && SameDevice(ls, ls', other)
    ensures SameDevice(EndLinks(p, ls), EndLinks(p, ls'), other)
    decreases p
  {
    match p
    case Finished =>
    case Aborted(_) =>
    case Must(c, _, next) =>
      OwnSameDevice(c, dev, ls, ls');
      if CanSucceed(ls, c) {
        TrySameOther(c, dev, managed, other, ls, ls');
        EndLinksSameOther(next, dev, managed, other, Effect(ls, c), Effect(ls', c));
      }
    case May(c, next) =>
      TrySame(c, dev, managed, ls, ls');
      TrySameOther(c, dev, managed, other, ls, ls');
      EndLinksSameOther(next, dev, managed, other, Try(ls, c, true), Try(ls', c, true));
    case Test(c, yes, no) =>
      OwnSameDevice(c, dev, ls, ls');
      if CanSucceed(ls, c) {
        TrySameOther(c, dev, managed, other, ls, ls');
        EndLinksSameOther(yes, dev, managed, other, Effect(ls, c), Effect(ls', c));
      } else {
        EndLinksSameOther(no, dev, managed, other, ls, ls');
      }
  }

  // What the spec asks for

  /** A port on a bridge has the whole configuration. */
  ghost predicate PortWhole(ls: Links, dev: string, cfg: Option<PortVlanConfig>) {
    cfg.Some? && IsBridgeSlave(ls, dev) ==> PortVlan.InPlace(PortOf(ls, dev), cfg.value)
  }

  predicate Enslaved(ls: Links, dev: string, master: string) {
    master != "" ==> Has(ls, dev, Master(master)) && CanEnslave(ls, master, dev)
  }

  predicate Attached(ls: Links, dev: string, slave: string) {
    Has(ls, slave, Master(dev)) && Has(ls, slave, State(false))
  }

  /** If the device is a bond, a link that is there, and is not the bond itself, was set down and is its slave. */
  predicate SlaveSet(ls: Links, dev: string, slave: string) {
    slave != dev && slave in ls && dev in ls && ls[dev].mode.BondMode? ==> Attached(ls, dev, slave)
  }

  predicate Addressed(ls: Links, dev: string, ip: string) {
    ip != "" ==> dev in ls && IsVxlan(ls[dev].mode) && Has(ls, dev, Local(ip))
  }

  /** The explicit address if there is one, else the one found on the interface. */
  predicate AddressSet(ls: Links, dev: string, spec: VxlanSpec, detected: Option<string>) {
    && (spec.localIP != "" ==> Addressed(ls, dev, spec.localIP))
    && (spec.localIP == "" && spec.dev != "" ==> detected.Some? && Addressed(ls, dev, detected.value))
  }

  predicate LearningSet(ls: Links, dev: string, spec: VxlanSpec) {
    && (dev in ls && IsVxlan(ls[dev].mode) ==> Has(ls, dev, Learning(spec.learning)))
    && (IsBridgeSlave(ls, dev) ==> Has(ls, dev, PortLearning(spec.bridgeLearning)))
  }

  /**
   * The device is up and has the settings of its spec; `detected` is the address found for a VXLAN, and of the slaves
   * listed for a bond those in `mine` are spoken of.
   */
  ghost predicate DeviceSet(ls: Links, dev: string, spec: Spec, detected: Option<string>, mine: set<string>) {
    match spec
    case OfBridge(b) => BridgeDone(ls, dev, b)
    case OfUplink(u) =>
      && Has(ls, dev, State(true)) && Enslaved(ls, dev, u.master)
      && (u.bondMode != "" ==> ls[dev].mode.BondMode? && Has(ls, dev, BondModeIs(u.bondMode)))
      && (forall slave :: slave in u.bondSlaves && slave in mine ==> SlaveSet(ls, dev, slave))
      && PortWhole(ls, dev, u.portVlan)
    case OfVxlan(v) =>
      && Has(ls, dev, State(true)) && Enslaved(ls, dev, v.master)
      && AddressSet(ls, dev, v, detected)
      && (v.mtu > 0 ==> Has(ls, dev, Mtu(v.mtu)))
      && LearningSet(ls, dev, v) && PortWhole(ls, dev, v.portVlan)
  }

  lemma HasSame(ls: Links, ls': Links, dev: string, a: Attr)
    requires SameDevice(ls, ls', dev)
    ensures Has(ls, dev, a) ==> Has(ls', dev, a)
  {
    ModesSame(ls, ls', dev);
    if dev in ls {
      assert ls'[dev].attrs == Bare(ls'[dev]).attrs == ls[dev].attrs;
    }
  }

  lemma EnslavedSame(ls: Links, ls': Links, dev: string, master: string)
    requires SameDevice(ls, ls', dev) && Enslaved(ls, dev, master)
    ensures Enslaved(ls', dev, master)
  {
    HasSame(ls, ls', dev, Master(master));
    ModesSame(ls, ls', master);
  }

  lemma PortSame(ls: Links, ls': Links, dev: string, cfg: Option<PortVlanConfig>)
    requires SameDevice(ls, ls', dev) && PortWhole(ls, dev, cfg)
    ensures PortWhole(ls', dev, cfg)
  {
    SameIsAlike(ls, ls', dev);
    ModesSame(ls, ls', dev);
    if dev in ls {
      assert ls'[dev].port == Bare(ls'[dev]).port == ls[dev].port;
    }
  }

  lemma SlaveSame(ls: Links, ls': Links, dev: string, slave: string)
    requires SameDevice(ls, ls', slave) && SlaveSet(ls, dev, slave)
    ensures SlaveSet(ls', dev, slave)
  {
    ModesSame(ls, ls', dev);
    ModesSame(ls, ls', slave);
    HasSame(ls, ls', slave, Master(dev));
    HasSame(ls, ls', slave, State(false));
  }

  lemma AddressSame(ls: Links, ls': Links, dev: string, spec: VxlanSpec, detected: Option<string>)
    requires SameDevice(ls, ls', dev) && AddressSet(ls, dev, spec, detected)
    ensures AddressSet(ls', dev, spec, detected)
  {
    ModesSame(ls, ls', dev);
    HasSame(ls, ls', dev, Local(spec.localIP));
    if detected.Some? {
      HasSame(ls, ls', dev, Local(detected.value));
    }
  }

  lemma LearningSame(ls: Links, ls': Links, dev: string, spec: VxlanSpec)
    requires SameDevice(ls, ls', dev) && LearningSet(ls, dev, spec)
    ensures LearningSet(ls', dev, spec)
  {
    SameIsAlike(ls, ls', dev);
    ModesSame(ls, ls', dev);
    HasSame(ls, ls', dev, Learning(spec.learning));
    HasSame(ls, ls', dev, PortLearning(spec.bridgeLearning));
  }

  /** The device and these links are the same but for their flood lists, and all others of the same types. */
  ghost predicate SameWith(ls: Links, ls': Links, dev: string, mine: set<string>) {
    SameDevice(ls, ls', dev) && forall slave :: slave in mine ==> SameDevice(ls, ls', slave)
  }

  lemma EndLinksSameWith(p: Prog, dev: string, managed: set<string>, mine: set<string>, ls: Links, ls': Links)
    requires Stays(p, dev, managed) && SameWith(ls, ls', dev, mine)
    ensures SameWith(EndLinks(p, ls), EndLinks(p, ls'), dev, mine)
  {
    EndLinksSame(p, dev, managed, ls, ls');
    forall slave | slave in mine ensures SameDevice(EndLinks(p, ls), EndLinks(p, ls'), slave) {
      EndLinksSameOther(p, dev, managed, slave, ls, ls');
    }
  }

  lemma SetSame(ls: Links, ls': Links, dev: string, spec: Spec, detected: Option<string>, mine: set<string>)
    requires SameWith(ls, ls', dev, mine) && DeviceSet(ls, dev, spec, detected, mine)
    ensures DeviceSet(ls', dev, spec, detected, mine)
  {
    ModesSame(ls, ls', dev);
    HasSame(ls, ls', dev, State(true));
    match spec
    case OfBridge(b) =>
      HasSame(ls, ls', dev, VlanFiltering(b.vlanFiltering));
      HasSame(ls, ls', dev, NfCallIptables(b.nfCallIptables));
    case OfUplink(u) =>
      EnslavedSame(ls, ls', dev, u.master);
      HasSame(ls, ls', dev, BondModeIs(u.bondMode));
      forall slave | slave in u.bondSlaves && slave in mine ensures SlaveSet(ls', dev, slave) {
        SlaveSame(ls, ls', dev, slave);
      }
      PortSame(ls, ls', dev, u.portVlan);
    case OfVxlan(v) =>
      EnslavedSame(ls, ls', dev, v.master);
      AddressSame(ls, ls', dev, v, detected);
      HasSame(ls, ls', dev, Mtu(v.mtu));
      LearningSame(ls, ls', dev, v);
      PortSame(ls, ls', dev, v.portVlan);
  }

  // Ports at the end of a run

  lemma {:induction false} VlanAddsLinks(dev: string, cmds: seq<PortVlan.VlanCmd>, reason: string, ls: Links)
    requires IsBridgeSlave(ls, dev)
    ensures EndLinks(MustAll(VlanAdds(dev, cmds), reason, Finished), ls) == WithPort(ls, dev, cmds)
    decreases |cmds|
  {
    if cmds == [] {
      assert WithPort(ls, dev, cmds) == ls;
    } else {
      var ls1 := Effect(ls, VlanAdd(dev, cmds[0]));
      assert VlanAdds(dev, cmds)[1..] == VlanAdds(dev, cmds[1..]);
      VlanAddsLinks(dev, cmds[1..], reason, ls1);
      WithPortStep(ls, dev, cmds, |cmds|);
      assert cmds[1..][..|cmds| - 1] == cmds[1..] && cmds[..|cmds|] == cmds;
    }
  }

  lemma PortPartWhole(dev: string, cfg: Option<PortVlanConfig>, ls: Links)
    requires IsBridgeSlave(ls, dev)
    ensures PortWhole(EndLinks(PortPart(dev, cfg), ls), dev, cfg)
  {
    if cfg.Some? {
      var cmds := PortVlan.Commands(cfg.value);
      VlanAddsLinks(dev, cmds, "VLANConfigFailed", ls);
      PortVlan.ConfigIsWritten(ls[dev].port, cfg.value);
    }
  }

  // Bonds

  lemma UplinkUpWhole(dev: string, spec: UplinkSpec, ls: Links)
    requires dev in ls
    ensures PortWhole(EndLinks(UplinkUp(dev, spec), ls), dev, spec.portVlan)
  {
    var ls1 := Effect(ls, LinkSet(dev, State(true)));
    var ports := UplinkPorts(dev, spec);
    if IsBridgeSlave(ls1, dev) {
      PortPartWhole(dev, spec.portVlan, ls1);
      assert EndLinks(ports, ls1) == EndLinks(ports.yes, ls1);
    } else {
      assert EndLinks(ports, ls1) == EndLinks(ports.no, ls1) == ls1;
    }
    assert EndLinks(UplinkUp(dev, spec), ls) == EndLinks(ports, ls1);
  }

  lemma UplinkMasterWhole(dev: string, spec: UplinkSpec, ls: Links)
    requires dev in ls && End(UplinkMaster(dev, spec), ls).Finished?
    ensures PortWhole(EndLinks(UplinkMaster(dev, spec), ls), dev, spec.portVlan)
  {
    var enslave := LinkSet(dev, Master(spec.master));
    UplinkUpWhole(dev, spec, if spec.master != "" && CanSucceed(ls, enslave) then Effect(ls, enslave) else ls);
  }

  lemma {:induction false} UplinkSlavesWhole(dev: string, spec: UplinkSpec, slaves: seq<string>, ls: Links)
    requires dev in ls && End(UplinkSlaves(dev, spec, slaves), ls).Finished?
    ensures PortWhole(EndLinks(UplinkSlaves(dev, spec, slaves), ls), dev, spec.portVlan)
    decreases |slaves|
  {
    if slaves == [] {
      UplinkMasterWhole(dev, spec, ls);
    } else {
      SlaveStep(dev, spec, slaves);
      var ls1 := Try(ls, LinkSet(slaves[0], State(false)), true);
      var ls2 := Try(ls1, LinkSet(slaves[0], Master(dev)), true);
      var rest := UplinkSlaves(dev, spec, slaves[1..]);
      assert End(May(LinkSet(slaves[0], Master(dev)), rest), ls1) == End(rest, ls2);
      UplinkSlavesWhole(dev, spec, slaves[1..], ls2);
      assert EndLinks(May(LinkSet(slaves[0], Master(dev)), rest), ls1) == EndLinks(rest, ls2);
    }
  }

  lemma UplinkWhole(dev: string, spec: UplinkSpec, ls: Links)
    requires End(UplinkProgram(dev, spec), ls).Finished?
    ensures PortWhole(EndLinks(UplinkProgram(dev, spec), ls), dev, spec.portVlan)
  {
    var ls0 := if dev in ls then ls else Effect(ls, LinkAdd(dev, BondMode));
    var mode := LinkSet(dev, BondModeIs(spec.bondMode));
    assert End(UplinkSettings(dev, spec), ls0).Finished?;
    UplinkSlavesWhole(dev, spec, spec.bondSlaves, if spec.bondMode != "" && CanSucceed(ls0, mode) then Effect(ls0, mode) else ls0);
    assert EndLinks(UplinkProgram(dev, spec), ls) == EndLinks(UplinkSettings(dev, spec), ls0);
  }

  // Their slaves

  /** A link other than the device comes out as it went in when the program leaves it alone. */
  lemma {:induction false} EndLinksLeave(p: Prog, dev: string, other: string, ls: Links)
    requires Stays(p, dev, {other}) && other != dev
    ensures other in EndLinks(p, ls) <==> other in ls
    ensures other in ls ==> EndLinks(p, ls)[other] == ls[other]
    decreases p
  {
    match p
    case Finished =>
    case Aborted(_) =>
    case Must(c, _, next) =>
      if CanSucceed(ls, c) {
        EndLinksLeave(next, dev, other, Effect(ls, c));
      }
    case May(c, next) => EndLinksLeave(next, dev, other, Try(ls, c, true));
    case Test(c, yes, no) =>
      if CanSucceed(ls, c) {
        EndLinksLeave(yes, dev, other, Effect(ls, c));
      } else {
        EndLinksLeave(no, dev, other, ls);
      }
  }

  /** Once the device is there, the run changes neither which links there are nor their types. */
  lemma {:induction false} EndLinksModes(p: Prog, dev: string, ls: Links)
    requires Stays(p, dev, {}) && dev in ls
    ensures Modes(EndLinks(p, ls)) == Modes(ls)
    decreases p
  {
    match p
    case Finished =>
    case Aborted(_) =>
    case Must(c, _, next) =>
      if CanSucceed(ls, c) {
        StepModes(c, dev, ls);
        EndLinksModes(next, dev, Effect(ls, c));
      }
    case May(c, next) =>
      StepModes(c, dev, ls);
      EndLinksModes(next, dev, Try(ls, c, true));
    case Test(c, yes, no) =>
      if CanSucceed(ls, c) {
        StepModes(c, dev, ls);
        EndLinksModes(yes, dev, Effect(ls, c));
      } else {
        EndLinksModes(no, dev, ls);
      }
  }

  lemma StepModes(c: Cmd, dev: string, ls: Links)
    requires (Own(c, dev) || Aside(c, dev, {})) && dev in ls
    ensures Modes(Try(ls, c, true)) == Modes(ls) && dev in Try(ls, c, true)
  {
    if CanSucceed(ls, c) {
      if Own(c, dev) {
        OwnModes(c, dev, ls);
      } else {
        AsideModes(c, dev, {}, ls);
      }
      ModesSame(ls, Effect(ls, c), dev);
    }
  }

  /** What the two commands for a slave do to it, and that they undo nothing for another. */
  lemma SlaveAttaches(ls: Links, dev: string, listed: string, slave: string)
    requires dev in ls && ls[dev].mode.BondMode? && slave in ls && slave != dev
    ensures var ls2 := Try(Try(ls, LinkSet(listed, State(false)), true), LinkSet(listed, Master(dev)), true);
            && dev in ls2 && ls2[dev].mode.BondMode? && slave in ls2
            && (listed == slave || Attached(ls, dev, slave) ==> Attached(ls2, dev, slave))
  {
  }

  lemma {:induction false} SlavesAttach(dev: string, spec: UplinkSpec, slaves: seq<string>, ls: Links, slave: string)
    requires dev in ls && ls[dev].mode.BondMode? && slave in ls && slave != dev
    requires slave in slaves || Attached(ls, dev, slave)
    ensures Attached(EndLinks(UplinkSlaves(dev, spec, slaves), ls), dev, slave)
    decreases |slaves|
  {
    if slaves == [] {
      UplinkMasterStays(dev, spec, {slave});
      EndLinksLeave(UplinkMaster(dev, spec), dev, slave, ls);
    } else {
      SlaveStep(dev, spec, slaves);
      SlaveAttaches(ls, dev, slaves[0], slave);
      var ls1 := Try(ls, LinkSet(slaves[0], State(false)), true);
      var ls2 := Try(ls1, LinkSet(slaves[0], Master(dev)), true);
      var rest := UplinkSlaves(dev, spec, slaves[1..]);
      SlavesAttach(dev, spec, slaves[1..], ls2, slave);
      assert EndLinks(May(LinkSet(slaves[0], Master(dev)), rest), ls1) == EndLinks(rest, ls2);
    }
  }

  /** After the run every listed slave that is there, and is not the bond itself, is down and enslaved. */
  lemma UplinkAttaches(dev: string, spec: UplinkSpec, ls: Links, slave: string)
    requires End(UplinkProgram(dev, spec), ls).Finished? && slave in spec.bondSlaves
    ensures SlaveSet(EndLinks(UplinkProgram(dev, spec), ls), dev, slave)
  {
    var ls0 := if dev in ls then ls else Effect(ls, LinkAdd(dev, BondMode));
    var mode := LinkSet(dev, BondModeIs(spec.bondMode));
    var ls1 := if spec.bondMode != "" then Effect(ls0, mode) else ls0;
    var rest := UplinkSlaves(dev, spec, spec.bondSlaves);
    assert End(UplinkSettings(dev, spec), ls0).Finished?;
    assert EndLinks(UplinkProgram(dev, spec), ls) == EndLinks(UplinkSettings(dev, spec), ls0) == EndLinks(rest, ls1);
    SlavesStay(dev, spec);
    EndLinksModes(rest, dev, ls1);
    ModesSame(EndLinks(rest, ls1), ls1, dev);
    ModesSame(EndLinks(rest, ls1), ls1, slave);
    if slave in ls1 && slave != dev && ls1[dev].mode.BondMode? {
      SlavesAttach(dev, spec, spec.bondSlaves, ls1, slave);
    }
  }

  lemma SlavesStay(dev: string, spec: UplinkSpec)
    ensures Stays(UplinkSlaves(dev, spec, spec.bondSlaves), dev, {})
  {
    UplinkMasterStays(dev, spec, {});
    SlaveCommandsAside(dev, spec.bondSlaves, {});
    MayAllStays(SlaveCommands(dev, spec.bondSlaves), UplinkMaster(dev, spec), dev, {});
  }

  // VXLANs

  /** The learning flags and the port are as the spec has them. */
  ghost predicate VxlanWhole(ls: Links, dev: string, spec: VxlanSpec) {
    LearningSet(ls, dev, spec) && PortWhole(ls, dev, spec.portVlan)
  }

  /** The flag of the device itself is set, if it is one that has it. */
  predicate Learned(ls: Links, dev: string, spec: VxlanSpec) {
    dev in ls && (IsVxlan(ls[dev].mode) ==> Has(ls, dev, Learning(spec.learning)))
  }

  lemma PortPartLearned(dev: string, spec: VxlanSpec, ls: Links)
    requires IsBridgeSlave(ls, dev) && Learned(ls, dev, spec) && Has(ls, dev, PortLearning(spec.bridgeLearning))
    ensures VxlanWhole(EndLinks(PortPart(dev, spec.portVlan), ls), dev, spec)
  {
    PortPartWhole(dev, spec.portVlan, ls);
    if spec.portVlan.Some? {
      VlanAddsLinks(dev, PortVlan.Commands(spec.portVlan.value), "VLANConfigFailed", ls);
    }
  }

  lemma VxlanPortsWhole(dev: string, spec: VxlanSpec, ls: Links)
    requires Learned(ls, dev, spec)
    ensures VxlanWhole(EndLinks(VxlanPorts(dev, spec), ls), dev, spec)
  {
    var ports := VxlanPorts(dev, spec);
    if IsBridgeSlave(ls, dev) {
      var learned := Effect(ls, LinkSet(dev, PortLearning(spec.bridgeLearning)));
      PortPartLearned(dev, spec, learned);
      assert EndLinks(ports.yes, ls) == EndLinks(PortPart(dev, spec.portVlan), learned);
      assert EndLinks(ports, ls) == EndLinks(ports.yes, ls);
    } else {
      assert EndLinks(ports, ls) == EndLinks(ports.no, ls) == ls;
    }
  }

  lemma {:induction false} VniAddsWhole(dev: string, spec: VxlanSpec, vnis: seq<int>, ls: Links)
    requires Learned(ls, dev, spec)
    ensures VxlanWhole(EndLinks(MayAll(VniAdds(dev, vnis), VxlanPorts(dev, spec)), ls), dev, spec)
    decreases |vnis|
  {
    if vnis == [] {
      VxlanPortsWhole(dev, spec, ls);
    } else {
      assert VniAdds(dev, vnis)[1..] == VniAdds(dev, vnis[1..]);
      assert VniAdds(dev, vnis)[0] == VniAdd(dev, vnis[0]);
      VniAddsWhole(dev, spec, vnis[1..], Try(ls, VniAdd(dev, vnis[0]), true));
    }
  }

  lemma VxlanLearningWhole(dev: string, spec: VxlanSpec, ls: Links)
    requires dev in ls
    ensures VxlanWhole(EndLinks(VxlanLearning(dev, spec), ls), dev, spec)
  {
    var ls1 := Try(ls, LinkSet(dev, Learning(spec.learning)), true);
    var ls2 := Effect(ls1, LinkSet(dev, State(true)));
    assert Learned(ls2, dev, spec);
    VxlanPortsWhole(dev, spec, ls2);
    if spec.portVlan.Some? {
      VniAddsWhole(dev, spec, PortVlan.FilterVnis(spec.portVlan.value.tunnelInfo), ls2);
    }
    assert EndLinks(VxlanLearning(dev, spec), ls) == EndLinks(VxlanFilter(dev, spec), ls2);
  }

  lemma VxlanMasterWhole(dev: string, spec: VxlanSpec, ls: Links)
    requires dev in ls && End(VxlanMaster(dev, spec), ls).Finished?
    ensures VxlanWhole(EndLinks(VxlanMaster(dev, spec), ls), dev, spec)
  {
    var enslave := LinkSet(dev, Master(spec.master));
    VxlanLearningWhole(dev, spec, if spec.master != "" && CanSucceed(ls, enslave) then Effect(ls, enslave) else ls);
  }

  lemma VxlanSettingsWhole(dev: string, spec: VxlanSpec, detected: Option<string>, ls: Links)
    requires dev in ls && End(VxlanSettings(dev, spec, detected), ls).Finished?
    ensures VxlanWhole(EndLinks(VxlanSettings(dev, spec, detected), ls), dev, spec)
  {
    var ip := LocalAddress(spec, detected).value;
    var ls1 := if ip != "" then Effect(ls, LinkSet(dev, Local(ip))) else ls;
    var ls2 := if spec.mtu > 0 then Effect(ls1, LinkSet(dev, Mtu(spec.mtu))) else ls1;
    assert End(VxlanMtu(dev, spec), ls1) == End(VxlanMaster(dev, spec), ls2);
    VxlanMasterWhole(dev, spec, ls2);
    assert EndLinks(VxlanMtu(dev, spec), ls1) == EndLinks(VxlanMaster(dev, spec), ls2);
  }

  lemma VxlanIsWhole(dev: string, spec: VxlanSpec, resolved: Option<int>, detected: Option<string>, ls: Links)
    requires End(VxlanProgram(dev, spec, resolved, detected), ls).Finished?
    ensures VxlanWhole(EndLinks(VxlanProgram(dev, spec, resolved, detected), ls), dev, spec)
  {
    var p := VxlanProgram(dev, spec, resolved, detected);
    var settings := VxlanSettings(dev, spec, detected);
    if dev in ls {
      VxlanSettingsWhole(dev, spec, detected, ls);
      assert EndLinks(p, ls) == EndLinks(settings, ls);
    } else {
      assert End(p, ls) == End(p.no, ls) && p.no.Must? && p.no.next == settings;
      var ls1 := Effect(ls, p.no.cmd);
      assert End(p.no, ls) == End(settings, ls1);
      VxlanSettingsWhole(dev, spec, detected, ls1);
      assert EndLinks(p, ls) == EndLinks(p.no, ls) == EndLinks(settings, ls1);
    }
  }

  // Whole programs

  lemma BridgeSets(dev: string, spec: BridgeSpec, ls: Links)
    requires End(BridgeProgram(dev, spec), ls).Finished?
    ensures BridgeDone(EndLinks(BridgeProgram(dev, spec), ls), dev, spec)
  {
    var post := (finished: bool, ls': Links) => finished ==> BridgeDone(ls', dev, spec);
    BridgeEstablishes(dev, spec, ls, post);
    EstablishedAtEnd(BridgeProgram(dev, spec), ls, post);
  }

  /** A lucky run that succeeds leaves the bond with its settings, its port and all its slaves. */
  lemma UplinkSets(dev: string, spec: UplinkSpec, ls: Links, detected: Option<string>, mine: set<string>)
    requires End(UplinkProgram(dev, spec), ls).Finished?
    ensures DeviceSet(EndLinks(UplinkProgram(dev, spec), ls), dev, OfUplink(spec), detected, mine)
  {
    var post := (finished: bool, ls': Links) => finished ==> UplinkDone(ls, ls', dev, spec);
    UplinkEstablishes(dev, spec, ls, post);
    EstablishedAtEnd(UplinkProgram(dev, spec), ls, post);
    forall slave | slave in spec.bondSlaves ensures SlaveSet(EndLinks(UplinkProgram(dev, spec), ls), dev, slave) {
      UplinkAttaches(dev, spec, ls, slave);
    }
    UplinkWhole(dev, spec, ls);
  }

  /** A lucky run that succeeds leaves the VXLAN with its address, its settings, its flags and its port. */
  lemma VxlanSets(dev: string, spec: VxlanSpec, resolved: Option<int>, detected: Option<string>, ls: Links, mine: set<string>)
    requires End(VxlanProgram(dev, spec, resolved, detected), ls).Finished?
    ensures DeviceSet(EndLinks(VxlanProgram(dev, spec, resolved, detected), ls), dev, OfVxlan(spec), detected, mine)
  {
    Luck.VxlanEnds(dev, spec, resolved, detected, ls);
    var ip := LocalAddress(spec, detected).value;
    var post := (finished: bool, ls': Links) => VxlanPost(ls, dev, spec, ip, false, finished, ls');
    VxlanEstablishes(dev, spec, resolved, detected, ip, false, NoneSure, ls, post);
    EstablishedAtEnd(VxlanProgram(dev, spec, resolved, detected), ls, post);
    VxlanIsWhole(dev, spec, resolved, detected, ls);
  }
}
