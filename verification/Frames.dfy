/**
 * What an agent's program depends on and what it leaves alone. Its verdict depends on which links exist, on
 * their types, and on the master of its own device; it touches its own device and, for a bond, its slaves.
 */
module Frames {
  import opened Base
  import opened ApiObjects
  import PortVlan
  import opened Kernel
  import opened Programs
  import opened Luck

  /** The links there are and their types. */
  function Modes(ls: Links): map<string, Mode> {
    map d | d in ls :: ls[d].mode
  }

  function MasterOf(ls: Links, dev: string): Option<Attr> {
    if dev in ls && SMaster in ls[dev].attrs then Some(ls[dev].attrs[SMaster]) else None
  }

  /** The same links of the same types, and the same master for this device. */
  predicate Alike(ls: Links, ls': Links, dev: string) {
    Modes(ls) == Modes(ls') && MasterOf(ls, dev) == MasterOf(ls', dev)
  }

  lemma ModesSame(ls: Links, ls': Links, d: string)
    requires Modes(ls) == Modes(ls')
    ensures d in ls <==> d in ls'
    ensures d in ls ==> ls[d].mode == ls'[d].mode
  {
    assert d in Modes(ls) <==> d in Modes(ls');
    if d in ls {
      assert Modes(ls)[d] == Modes(ls')[d];
    }
  }

  /** The verdict of a run can be read off the links there are. */
  lemma VerdictByModes(k: Kind, dev: string, spec: Spec, resolved: Option<int>, detected: Option<string>, ls: Links, ls': Links)
    requires Modes(ls) == Modes(ls')
    ensures Verdict(k, dev, spec, resolved, detected, ls) == Verdict(k, dev, spec, resolved, detected, ls')
  {
    ModesSame(ls, ls', dev);
    match spec
    case OfBridge(_) =>
    case OfUplink(u) => ModesSame(ls, ls', u.master);
    case OfVxlan(v) => ModesSame(ls, ls', v.master);
  }

  // What programs touch

  /** A setting of a device that is nobody's. */
  predicate Aside(c: Cmd, dev: string, managed: set<string>) {
    c.LinkSet? && c.dev != dev && c.dev !in managed
  }

  predicate Own(c: Cmd, dev: string) {
    c.dev == dev && !c.LinkDel? && !c.FdbDel? && !c.FdbAppend?
  }

  /** Everything that counts is about the program's own device; what it does to others, it does to unmanaged ones. */
  predicate Stays(p: Prog, dev: string, managed: set<string>) {
    match p
    case Finished => true
    case Aborted(_) => true
    case Must(c, _, next) => Own(c, dev) && Stays(next, dev, managed)
    case May(c, next) => (Own(c, dev) || Aside(c, dev, managed)) && Stays(next, dev, managed)
    case Test(c, yes, no) => Own(c, dev) && Stays(yes, dev, managed) && Stays(no, dev, managed)
  }

  /** Whichever link one looks at, the program leaves it alone unless it is its own. */
  ghost predicate KeepsToItself(p: Prog, dev: string) {
    forall other: string :: Stays(p, dev, {other})
  }

  lemma {:induction false} MustAllStays(cmds: seq<Cmd>, reason: string, next: Prog, dev: string, managed: set<string>)
    requires (forall c :: c in cmds ==> Own(c, dev)) && Stays(next, dev, managed)
    ensures Stays(MustAll(cmds, reason, next), dev, managed)
  {
    if cmds != [] {
      MustAllStays(cmds[1..], reason, next, dev, managed);
    }
  }

  lemma {:induction false} MayAllStays(cmds: seq<Cmd>, next: Prog, dev: string, managed: set<string>)
    requires (forall c :: c in cmds ==> Own(c, dev) || Aside(c, dev, managed)) && Stays(next, dev, managed)
    ensures Stays(MayAll(cmds, next), dev, managed)
  {
    if cmds != [] {
      MayAllStays(cmds[1..], next, dev, managed);
    }
  }

  lemma PortPartStays(dev: string, cfg: Option<PortVlanConfig>, managed: set<string>)
    ensures Stays(PortPart(dev, cfg), dev, managed)
  {
    if cfg.Some? {
      MustAllStays(VlanAdds(dev, PortVlan.Commands(cfg.value)), "VLANConfigFailed", Finished, dev, managed);
    }
  }

  /** The bond enslaves no managed device but perhaps, in vain, itself. */
  predicate SlavesFree(spec: Spec, dev: string, managed: set<string>) {
    spec.OfUplink? ==> forall slave :: slave in spec.uplink.bondSlaves ==> slave == dev || slave !in managed
  }

  lemma {:induction false} SlaveCommandsAside(dev: string, slaves: seq<string>, managed: set<string>)
    requires forall slave :: slave in slaves ==> slave == dev || slave !in managed
    ensures forall c :: c in SlaveCommands(dev, slaves) ==> Own(c, dev) || Aside(c, dev, managed)
  {
    if slaves != [] {
      assert slaves[0] in slaves;
      SlaveCommandsAside(dev, slaves[1..], managed);
    }
  }

  lemma UplinkMasterStays(dev: string, spec: UplinkSpec, managed: set<string>)
    ensures Stays(UplinkMaster(dev, spec), dev, managed)
  {
    PortPartStays(dev, spec.portVlan, managed);
    assert Stays(UplinkPorts(dev, spec), dev, managed);
    assert Stays(UplinkUp(dev, spec), dev, managed);
  }

  lemma UplinkStays(dev: string, spec: UplinkSpec, managed: set<string>)
    requires SlavesFree(OfUplink(spec), dev, managed)
    ensures Stays(UplinkProgram(dev, spec), dev, managed)
  {
    UplinkMasterStays(dev, spec, managed);
    SlaveCommandsAside(dev, spec.bondSlaves, managed);
    MayAllStays(SlaveCommands(dev, spec.bondSlaves), UplinkMaster(dev, spec), dev, managed);
    assert Stays(UplinkSettings(dev, spec), dev, managed);
  }

  lemma VxlanPortsStay(dev: string, spec: VxlanSpec, managed: set<string>)
    ensures Stays(VxlanPorts(dev, spec), dev, managed)
  {
    PortPartStays(dev, spec.portVlan, managed);
    assert Stays(May(LinkSet(dev, PortLearning(spec.bridgeLearning)), PortPart(dev, spec.portVlan)), dev, managed);
    assert Stays(Finished, dev, managed);
  }

  lemma VxlanLearningStays(dev: string, spec: VxlanSpec, managed: set<string>)
    ensures Stays(VxlanLearning(dev, spec), dev, managed)
  {
    VxlanPortsStay(dev, spec, managed);
    if spec.portVlan.Some? {
      MayAllStays(VniAdds(dev, PortVlan.FilterVnis(spec.portVlan.value.tunnelInfo)), VxlanPorts(dev, spec), dev, managed);
    }
    assert Stays(VxlanFilter(dev, spec), dev, managed);
    assert Stays(Must(LinkSet(dev, Attr.State(true)), "UpFailed", VxlanFilter(dev, spec)), dev, managed);
  }

  lemma VxlanSettingsStay(dev: string, spec: VxlanSpec, detected: Option<string>, managed: set<string>)
    ensures Stays(VxlanSettings(dev, spec, detected), dev, managed)
  {
    VxlanLearningStays(dev, spec, managed);
    assert Stays(VxlanMaster(dev, spec), dev, managed);
    assert Stays(VxlanMtu(dev, spec), dev, managed);
  }

  lemma ProgramStays(k: Kind, dev: string, spec: Spec, resolved: Option<int>, detected: Option<string>, managed: set<string>)
    requires SlavesFree(spec, dev, managed)
    ensures Stays(AgentProgram(k, dev, spec, resolved, detected), dev, managed)
  {
    match spec
    case OfBridge(b) => assert Stays(BridgeSettings(dev, b).next, dev, managed);
    case OfUplink(u) => UplinkStays(dev, u, managed);
    case OfVxlan(v) => VxlanSettingsStay(dev, v, detected, managed);
  }

  /** Bonds alone touch links that are not theirs. */
  lemma OnlyBondsReachOut(k: Kind, dev: string, spec: Spec, resolved: Option<int>, detected: Option<string>)
    ensures !k.Uplink? ==> KeepsToItself(AgentProgram(k, dev, spec, resolved, detected), dev)
  {
    if !k.Uplink? {
      forall other: string ensures Stays(AgentProgram(k, dev, spec, resolved, detected), dev, {other}) {
        if !spec.OfUplink? {
          ProgramStays(k, dev, spec, resolved, detected, {other});
        }
      }
    }
  }

  // What they depend on

  lemma OwnAlike(c: Cmd, dev: string, ls: Links, ls': Links)
    requires Own(c, dev) && Alike(ls, ls', dev)
    ensures CanSucceed(ls, c) <==> CanSucceed(ls', c)
    ensures CanSucceed(ls, c) ==> Alike(Effect(ls, c), Effect(ls', c), dev)
  {
    ModesSame(ls, ls', dev);
    if c.LinkSet? && c.attr.Master? {
      ModesSame(ls, ls', c.attr.dev);
    }
    if MasterOf(ls, dev).Some? && MasterOf(ls, dev).value.Master? {
      ModesSame(ls, ls', MasterOf(ls, dev).value.dev);
    }
    if CanSucceed(ls, c) && CanSucceed(ls', c) {
      OwnModes(c, dev, ls);
      OwnModes(c, dev, ls');
    }
  }

  /** Only creating the device changes the links there are. */
  lemma OwnModes(c: Cmd, dev: string, ls: Links)
    requires Own(c, dev) && CanSucceed(ls, c)
    ensures Modes(Effect(ls, c)) == if c.LinkAdd? then Modes(ls)[dev := c.mode] else Modes(ls)
    ensures forall d :: d != dev ==> MasterOf(Effect(ls, c), d) == MasterOf(ls, d)
  {
  }

  lemma AsideModes(c: Cmd, dev: string, managed: set<string>, ls: Links)
    requires Aside(c, dev, managed) && CanSucceed(ls, c)
    ensures Modes(Effect(ls, c)) == Modes(ls)
    ensures forall d :: d != c.dev ==> MasterOf(Effect(ls, c), d) == MasterOf(ls, d)
  {
  }

  lemma AsideAlike(c: Cmd, dev: string, managed: set<string>, ls: Links, ls': Links)
    requires Aside(c, dev, managed) && Alike(ls, ls', dev)
    ensures Alike(Try(ls, c, true), Try(ls', c, true), dev)
  {
    if CanSucceed(ls, c) {
      AsideModes(c, dev, managed, ls);
    }
    if CanSucceed(ls', c) {
      AsideModes(c, dev, managed, ls');
    }
  }

  /** Links that are alike lead the program to the same end. */
  lemma {:induction false} EndAlike(p: Prog, dev: string, managed: set<string>, ls: Links, ls': Links)
    requires Stays(p, dev, managed) && Alike(ls, ls', dev)
    ensures End(p, ls) == End(p, ls')
    decreases p
  {
    match p
    case Finished =>
    case Aborted(_) =>
    case Must(c, _, next) =>
      OwnAlike(c, dev, ls, ls');
      if CanSucceed(ls, c) {
        EndAlike(next, dev, managed, Effect(ls, c), Effect(ls', c));
      }
    case May(c, next) =>
      if Own(c, dev) {
        OwnAlike(c, dev, ls, ls');
      } else {
        AsideAlike(c, dev, managed, ls, ls');
      }
      EndAlike(next, dev, managed, Try(ls, c, true), Try(ls', c, true));
    case Test(c, yes, no) =>
      OwnAlike(c, dev, ls, ls');
      if CanSucceed(ls, c) {
        EndAlike(yes, dev, managed, Effect(ls, c), Effect(ls', c));
      } else {
        EndAlike(no, dev, managed, ls, ls');
      }
  }

  /** What one command of a program does to the links and masters of others. */
  lemma CommandFrame(p: Prog, dev: string, managed: set<string>, ls: Links)
    requires Stays(p, dev, managed) && !Ended(p) && CanSucceed(ls, p.cmd)
    ensures Modes(Effect(ls, p.cmd)) == if p.cmd.LinkAdd? then Modes(ls)[dev := p.cmd.mode] else Modes(ls)
    ensures p.cmd.LinkAdd? ==> p.cmd.dev == dev
    ensures forall d :: d in managed && d != dev ==> MasterOf(Effect(ls, p.cmd), d) == MasterOf(ls, d)
  {
    if Own(p.cmd, dev) {
      OwnModes(p.cmd, dev, ls);
    } else {
      AsideModes(p.cmd, dev, managed, ls);
    }
  }

  lemma AdvanceStays(p: Prog, dev: string, managed: set<string>, a: Attempt)
    requires Stays(p, dev, managed) && Advance(p, a).Some?
    ensures Stays(Advance(p, a).value, dev, managed)
  {
  }

  lemma AdvanceKeepsToItself(p: Prog, dev: string, a: Attempt)
    requires KeepsToItself(p, dev) && Advance(p, a).Some?
    ensures KeepsToItself(Advance(p, a).value, dev)
  {
    forall other: string ensures Stays(Advance(p, a).value, dev, {other}) {
      AdvanceStays(p, dev, {other}, a);
    }
  }

  lemma {:induction false} RestStays(p: Prog, t: seq<Attempt>, dev: string, managed: set<string>)
    requires Stays(p, dev, managed) && Rest(p, t).Some?
    ensures Stays(Rest(p, t).value, dev, managed)
  {
    if t != [] {
      RestStays(p, t[..|t| - 1], dev, managed);
      AdvanceStays(Rest(p, t[..|t| - 1]).value, dev, managed, t[|t| - 1]);
    }
  }

  lemma RestKeepsToItself(p: Prog, t: seq<Attempt>, dev: string)
    requires KeepsToItself(p, dev) && Rest(p, t).Some?
    ensures KeepsToItself(Rest(p, t).value, dev)
  {
    forall other: string ensures Stays(Rest(p, t).value, dev, {other}) {
      RestStays(p, t, dev, {other});
    }
  }

  /** One lucky command keeps the end ahead. */
  lemma AdvanceKeepsEnd(p: Prog, ls: Links)
    requires !Ended(p)
    ensures var a := Attempt(p.cmd, CanSucceed(ls, p.cmd));
            Advance(p, a).Some? && End(Advance(p, a).value, Try(ls, p.cmd, true)) == End(p, ls)
  {
  }
}
