/**
 * What a spec asks for, read off its fields, and what the runs of the three agents issue: every command asked for, in
 * the order of the controller, nothing else, and with every failure told by its own reason.
 */
module Asked {
  import opened Base
  import opened ApiObjects
  import opened PortVlan
  import opened Kernel
  import opened Programs

  // What the specs ask for

  /** The address a VXLAN is to have: the explicit one, else the one found on its interface, else none. */
  predicate AddressIs(spec: VxlanSpec, detected: Option<string>, ip: string) {
    && (spec.localIP != "" ==> ip == spec.localIP)
    && (spec.localIP == "" && spec.dev != "" ==> detected == Some(ip))
    && (spec.localIP == "" && spec.dev == "" ==> ip == "")
  }

  lemma AddressIff(spec: VxlanSpec, detected: Option<string>, ip: string)
    ensures AddressIs(spec, detected, ip) <==> LocalAddress(spec, detected) == Some(ip)
  {
  }

  /** The device is what it was or, if it was not there, a VXLAN of the mode, flag and ID the spec calls for. */
  predicate MadeAs(before: Links, after: Links, dev: string, spec: VxlanSpec, resolved: Option<int>) {
    && dev in after
    && (dev in before ==> after[dev].mode == before[dev].mode)
    && (dev !in before && spec.external ==> after[dev].mode == VxlanExternal(spec.vniFilter))
    && (dev !in before && !spec.external && spec.vni != 0 ==> after[dev].mode == VxlanId(spec.vni))
    && (dev !in before && !spec.external && spec.vni == 0 ==> resolved.Some? && after[dev].mode == VxlanId(resolved.value))
  }

  /** The port command is one of the configuration. */
  ghost predicate AsksPort(cfg: Option<PortVlanConfig>, w: VlanCmd) {
    cfg.Some? &&
    match w
    case AddPvid(vid) => cfg.value.pvid == Some(vid)
    case AddVid(vid) => vid in cfg.value.vids
    case AddTunnel(vid, vni) => exists m :: m in cfg.value.tunnelInfo && Covers(m, vid) && vni == VniFor(m, vid)
  }

  ghost predicate AsksBridge(dev: string, spec: BridgeSpec, c: Cmd) {
    c == LinkShow(dev) || c == LinkAdd(dev, BridgeMode) || c == LinkSet(dev, State(true))
    || c == LinkSet(dev, VlanFiltering(spec.vlanFiltering)) || c == LinkSet(dev, NfCallIptables(spec.nfCallIptables))
  }

  ghost predicate AsksUplink(dev: string, spec: UplinkSpec, c: Cmd) {
    match c
    case LinkShow(d) => d == dev
    case LinkDetail(d) => d == dev
    case LinkAdd(d, mode) => d == dev && mode == BondMode
    case LinkSet(d, a) =>
      || (d == dev && (a == State(true) || (spec.bondMode != "" && a == BondModeIs(spec.bondMode)) || (spec.master != "" && a == Master(spec.master))))
      || (d in spec.bondSlaves && (a == State(false) || a == Master(dev)))
    case VlanAdd(d, w) => d == dev && AsksPort(spec.portVlan, w)
    case _ => false
  }

  ghost predicate AsksVxlan(dev: string, spec: VxlanSpec, resolved: Option<int>, detected: Option<string>, c: Cmd) {
    c.dev == dev &&
    match c
    case LinkShow(_) => true
    case LinkDetail(_) => true
    case LinkAdd(_, mode) =>
      if spec.external then mode == VxlanExternal(spec.vniFilter)
      else mode.VxlanId? && if spec.vni != 0 then mode.id == spec.vni else resolved == Some(mode.id)
    case LinkSet(_, a) =>
      || (a.Local? && a.ip != "" && AddressIs(spec, detected, a.ip))
      || (spec.mtu > 0 && a == Mtu(spec.mtu)) || (spec.master != "" && a == Master(spec.master))
      || a == Learning(spec.learning) || a == State(true) || a == PortLearning(spec.bridgeLearning)
    case VlanAdd(_, w) => AsksPort(spec.portVlan, w)
    case VniAdd(_, vni) => spec.vniFilter && spec.portVlan.Some? && exists m :: m in spec.portVlan.value.tunnelInfo && HasVni(m, vni)
    case _ => false
  }

  // What a program can issue at all

  ghost predicate Only(p: Prog, good: Cmd -> bool) {
    match p
    case Finished => true
    case Aborted(_) => true
    case Must(c, _, next) => good(c) && Only(next, good)
    case May(c, next) => good(c) && Only(next, good)
    case Test(c, yes, no) => good(c) && Only(yes, good) && Only(no, good)
  }

  lemma {:induction false} OnlySound(p: Prog, t: seq<Attempt>, good: Cmd -> bool)
    requires Only(p, good) && Rest(p, t).Some?
    ensures forall i :: 0 <= i < |t| ==> good(t[i].cmd)
    decreases |t|
  {
    if t != [] {
      RestHead(p, t);
      OnlySound(Advance(p, t[0]).value, t[1..], good);
      assert forall i :: 0 < i < |t| ==> t[i] == t[1..][i - 1];
    }
  }

  lemma {:induction false} MustAllOnly(cmds: seq<Cmd>, reason: string, next: Prog, good: Cmd -> bool)
    requires (forall c :: c in cmds ==> good(c)) && Only(next, good)
    ensures Only(MustAll(cmds, reason, next), good)
  {
    if cmds != [] {
      MustAllOnly(cmds[1..], reason, next, good);
    }
  }

  lemma {:induction false} MayAllOnly(cmds: seq<Cmd>, next: Prog, good: Cmd -> bool)
    requires (forall c :: c in cmds ==> good(c)) && Only(next, good)
    ensures Only(MayAll(cmds, next), good)
  {
    if cmds != [] {
      MayAllOnly(cmds[1..], next, good);
    }
  }

  lemma {:induction false} ExpandAsks(ms: seq<VlanTunnelMapping>, w: VlanCmd)
    requires w in Expand(ms)
    ensures w.AddTunnel? && exists m :: m in ms && Covers(m, w.vid) && w.vni == VniFor(m, w.vid)
  {
    var last := ms[|ms| - 1];
    if w in ExpandOne(last) {
      assert last in ms && Covers(last, w.vid) && w.vni == VniFor(last, w.vid);
    } else {
      ExpandAsks(ms[..|ms| - 1], w);
    }
  }

  lemma PortPartOnly(dev: string, cfg: Option<PortVlanConfig>, good: Cmd -> bool)
    requires forall w :: AsksPort(cfg, w) ==> good(VlanAdd(dev, w))
    ensures Only(PortPart(dev, cfg), good)
  {
    if cfg.Some? {
      forall w | w in Commands(cfg.value) ensures AsksPort(cfg, w) {
        if w in Expand(cfg.value.tunnelInfo) {
          ExpandAsks(cfg.value.tunnelInfo, w);
        }
      }
      MustAllOnly(VlanAdds(dev, Commands(cfg.value)), "VLANConfigFailed", Finished, good);
    }
  }

  /** A bridge run issues what the bridge's spec asks for and nothing else. */
  lemma BridgeIssuesOnly(dev: string, spec: BridgeSpec, t: seq<Attempt>)
    requires Rest(BridgeProgram(dev, spec), t).Some?
    ensures forall i :: 0 <= i < |t| ==> AsksBridge(dev, spec, t[i].cmd)
  {
    var good := (c: Cmd) => AsksBridge(dev, spec, c);
    assert Only(BridgeSettings(dev, spec).next, good);
    OnlySound(BridgeProgram(dev, spec), t, good);
  }

  lemma {:induction false} SlaveCommandsAsked(dev: string, slaves: seq<string>, c: Cmd)
    requires c in SlaveCommands(dev, slaves)
    ensures c.LinkSet? && c.dev in slaves && (c.attr == State(false) || c.attr == Master(dev))
  {
    if c != LinkSet(slaves[0], State(false)) && c != LinkSet(slaves[0], Master(dev)) {
      SlaveCommandsAsked(dev, slaves[1..], c);
    }
  }

  lemma UplinkMasterOnly(dev: string, spec: UplinkSpec, good: Cmd -> bool)
    requires forall c :: good(c) <==> AsksUplink(dev, spec, c)
    ensures Only(UplinkMaster(dev, spec), good)
  {
    PortPartOnly(dev, spec.portVlan, good);
    assert good(LinkDetail(dev));
    assert Only(UplinkPorts(dev, spec), good);
    assert good(LinkSet(dev, State(true)));
    assert Only(UplinkUp(dev, spec), good);
    if spec.master != "" {
      assert good(LinkSet(dev, Master(spec.master)));
    }
  }

  lemma UplinkSettingsOnly(dev: string, spec: UplinkSpec, good: Cmd -> bool)
    requires forall c :: good(c) <==> AsksUplink(dev, spec, c)
    ensures Only(UplinkSettings(dev, spec), good)
  {
    forall c | c in SlaveCommands(dev, spec.bondSlaves) ensures good(c) {
      SlaveCommandsAsked(dev, spec.bondSlaves, c);
    }
    UplinkMasterOnly(dev, spec, good);
    MayAllOnly(SlaveCommands(dev, spec.bondSlaves), UplinkMaster(dev, spec), good);
    if spec.bondMode != "" {
      assert good(LinkSet(dev, BondModeIs(spec.bondMode)));
    }
  }

  /** A bond run issues what the bond's spec asks for and nothing else. */
  lemma UplinkIssuesOnly(dev: string, spec: UplinkSpec, t: seq<Attempt>)
    requires Rest(UplinkProgram(dev, spec), t).Some?
    ensures forall i :: 0 <= i < |t| ==> AsksUplink(dev, spec, t[i].cmd)
  {
    var good := (c: Cmd) => AsksUplink(dev, spec, c);
    UplinkSettingsOnly(dev, spec, good);
    assert good(LinkShow(dev)) && good(LinkAdd(dev, BondMode));
    OnlySound(UplinkProgram(dev, spec), t, good);
  }

  lemma VxlanFilterOnly(dev: string, spec: VxlanSpec, resolved: Option<int>, detected: Option<string>, good: Cmd -> bool)
    requires forall c :: good(c) <==> AsksVxlan(dev, spec, resolved, detected, c)
    ensures Only(VxlanFilter(dev, spec), good)
  {
    PortPartOnly(dev, spec.portVlan, good);
    assert good(LinkSet(dev, PortLearning(spec.bridgeLearning))) && good(LinkDetail(dev));
    assert Only(VxlanPorts(dev, spec).yes, good);
    if spec.vniFilter && spec.portVlan.Some? {
      var vnis := FilterVnis(spec.portVlan.value.tunnelInfo);
      forall c | c in VniAdds(dev, vnis) ensures good(c) {
        var j, i := FilterVniAt(spec.portVlan.value.tunnelInfo, c.vni);
        assert HasVni(spec.portVlan.value.tunnelInfo[j], c.vni);
      }
      MayAllOnly(VniAdds(dev, vnis), VxlanPorts(dev, spec), good);
    }
  }

  lemma VxlanMtuOnly(dev: string, spec: VxlanSpec, resolved: Option<int>, detected: Option<string>, good: Cmd -> bool)
    requires forall c :: good(c) <==> AsksVxlan(dev, spec, resolved, detected, c)
    ensures Only(VxlanMtu(dev, spec), good)
  {
    VxlanFilterOnly(dev, spec, resolved, detected, good);
    assert good(LinkSet(dev, Learning(spec.learning))) && good(LinkSet(dev, State(true)));
    assert Only(VxlanLearning(dev, spec).next, good);
    assert Only(VxlanLearning(dev, spec), good);
    if spec.master != "" {
      assert good(LinkSet(dev, Master(spec.master)));
    }
    assert Only(VxlanMaster(dev, spec), good);
    if spec.mtu > 0 {
      assert good(LinkSet(dev, Mtu(spec.mtu)));
    }
  }

  lemma VxlanSettingsOnly(dev: string, spec: VxlanSpec, resolved: Option<int>, detected: Option<string>, good: Cmd -> bool)
    requires forall c :: good(c) <==> AsksVxlan(dev, spec, resolved, detected, c)
    ensures Only(VxlanSettings(dev, spec, detected), good)
  {
    VxlanMtuOnly(dev, spec, resolved, detected, good);
    if LocalAddress(spec, detected).Some? && LocalAddress(spec, detected).value != "" {
      assert good(LinkSet(dev, Local(LocalAddress(spec, detected).value)));
    }
  }

  /** A VXLAN run issues what the VXLAN's spec asks for and nothing else. */
  lemma VxlanIssuesOnly(dev: string, spec: VxlanSpec, resolved: Option<int>, detected: Option<string>, t: seq<Attempt>)
    requires Rest(VxlanProgram(dev, spec, resolved, detected), t).Some?
    ensures forall i :: 0 <= i < |t| ==> AsksVxlan(dev, spec, resolved, detected, t[i].cmd)
  {
    var good := (c: Cmd) => AsksVxlan(dev, spec, resolved, detected, c);
    var p := VxlanProgram(dev, spec, resolved, detected);
    VxlanSettingsOnly(dev, spec, resolved, detected, good);
    assert good(LinkShow(dev));
    if p.no.Must? {
      assert good(p.no.cmd);
    }
    assert Only(p.no, good);
    OnlySound(p, t, good);
  }

  // What every path to success issues, and in which order

  /** What is left to wait for once c has come. */
  function Past(cs: seq<Cmd>, c: Cmd): seq<Cmd> {
    if cs != [] && cs[0] == c then cs[1..] else cs
  }

  /** Every path to success issues these commands in this order, with others between them. */
  predicate Orders(p: Prog, cs: seq<Cmd>)
    decreases p
  {
    match p
    case Finished => cs == []
    case Aborted(_) => true
    case Must(c, _, next) => Orders(next, Past(cs, c))
    case May(c, next) => Orders(next, Past(cs, c))
    case Test(c, yes, no) => Orders(yes, Past(cs, c)) && Orders(no, Past(cs, c))
  }

  /** The places of the commands in the trace. */
  ghost predicate Places(t: seq<Attempt>, cs: seq<Cmd>, at: seq<nat>) {
    && |at| == |cs|
    && (forall k :: 0 <= k < |cs| ==> at[k] < |t| && t[at[k]].cmd == cs[k])
    && forall k, l :: 0 <= k < l < |cs| ==> at[k] < at[l]
  }

  lemma {:induction false} OrdersNothing(p: Prog)
    ensures Orders(p, [])
    decreases p
  {
    match p
    case Finished =>
    case Aborted(_) =>
    case Must(_, _, next) => OrdersNothing(next);
    case May(_, next) => OrdersNothing(next);
    case Test(_, yes, no) => OrdersNothing(yes); OrdersNothing(no);
  }

  lemma {:induction false} OrdersLess(p: Prog, cs: seq<Cmd>)
    requires cs != [] && Orders(p, cs)
    ensures Orders(p, cs[1..])
    decreases p, 0
  {
    match p
    case Finished =>
    case Aborted(_) =>
    case Must(c, _, next) => OrdersLater(next, cs, c);
    case May(c, next) => OrdersLater(next, cs, c);
    case Test(c, yes, no) =>
      OrdersLater(yes, cs, c);
      OrdersLater(no, cs, c);
  }

  lemma {:induction false} OrdersLater(p: Prog, cs: seq<Cmd>, c: Cmd)
    requires cs != [] && Orders(p, Past(cs, c))
    ensures Orders(p, Past(cs[1..], c))
    decreases p, 1
  {
    if cs[0] != c {
      OrdersLess(p, cs);
    }
    if cs[1..] != [] && cs[1] == c {
      OrdersLess(p, cs[1..]);
    }
  }

  /** A command more does no harm. */
  lemma OrdersAnyway(p: Prog, cs: seq<Cmd>, c: Cmd)
    requires Orders(p, cs)
    ensures Orders(p, Past(cs, c))
  {
    if cs != [] {
      OrdersLess(p, cs);
    }
  }

  function Moved(at: seq<nat>): seq<nat> {
    seq(|at|, k requires 0 <= k < |at| => at[k] + 1)
  }

  lemma PlacesLater(t: seq<Attempt>, cs: seq<Cmd>, at: seq<nat>)
    requires t != [] && Places(t[1..], cs, at)
    ensures Places(t, cs, Moved(at))
  {
    forall k | 0 <= k < |cs| ensures Moved(at)[k] < |t| && t[Moved(at)[k]].cmd == cs[k] {
      assert t[1..][at[k]] == t[at[k] + 1];
    }
  }

  lemma PlacesNow(t: seq<Attempt>, c: Cmd, cs: seq<Cmd>, at: seq<nat>)
    requires t != [] && t[0].cmd == c && Places(t, cs, at) && forall k :: 0 <= k < |at| ==> at[k] > 0
    ensures Places(t, [c] + cs, [0] + at)
  {
    forall k | 0 <= k < |[c] + cs| ensures ([0] + at)[k] < |t| && t[([0] + at)[k]].cmd == ([c] + cs)[k] {
      if k > 0 {
        assert ([0] + at)[k] == at[k - 1] && ([c] + cs)[k] == cs[k - 1];
      }
    }
  }

  lemma {:induction false} OrdersSound(p: Prog, t: seq<Attempt>, cs: seq<Cmd>) returns (at: seq<nat>)
    requires Rest(p, t) == Some(Finished) && Orders(p, cs)
    ensures Places(t, cs, at)
    decreases |t|
  {
    if t == [] {
      at := [];
    } else {
      RestHead(p, t);
      var later := OrdersSound(Advance(p, t[0]).value, t[1..], Past(cs, t[0].cmd));
      if cs != [] && cs[0] == t[0].cmd {
        PlacesLater(t, cs[1..], later);
        PlacesNow(t, cs[0], cs[1..], Moved(later));
        assert [cs[0]] + cs[1..] == cs;
        at := [0] + Moved(later);
      } else {
        PlacesLater(t, cs, later);
        at := Moved(later);
      }
    }
  }

  lemma {:induction false} MayAllOrders(cmds: seq<Cmd>, next: Prog, cs: seq<Cmd>)
    requires Orders(next, cs)
    ensures Orders(MayAll(cmds, next), cmds + cs)
  {
    if cmds == [] {
      assert cmds + cs == cs;
    } else {
      MayAllOrders(cmds[1..], next, cs);
      assert (cmds + cs)[1..] == cmds[1..] + cs;
    }
  }

  /** The command is one whose failure ends every run. */
  predicate Insists(p: Prog, c: Cmd) {
    match p
    case Finished => true
    case Aborted(_) => true
    case Must(_, _, next) => Insists(next, c)
    case May(d, next) => d != c && Insists(next, c)
    case Test(d, yes, no) => d != c && Insists(yes, c) && Insists(no, c)
  }

  lemma {:induction false} InsistsSound(p: Prog, t: seq<Attempt>, c: Cmd, i: nat)
    requires Rest(p, t) == Some(Finished) && Insists(p, c) && i < |t| && t[i].cmd == c
    ensures t[i].ok
    decreases |t|
  {
    RestHead(p, t);
    var q := Advance(p, t[0]).value;
    if i > 0 {
      InsistsSound(q, t[1..], c, i - 1);
    } else if !t[0].ok && t[1..] != [] {
      RestHead(q, t[1..]);
    }
  }

  lemma {:induction false} MayAllInsists(cmds: seq<Cmd>, next: Prog, c: Cmd)
    requires c !in cmds && Insists(next, c)
    ensures Insists(MayAll(cmds, next), c)
  {
    if cmds != [] {
      MayAllInsists(cmds[1..], next, c);
    }
  }

  lemma {:induction false} MustAllInsists(cmds: seq<Cmd>, reason: string, next: Prog, c: Cmd)
    requires Insists(next, c)
    ensures Insists(MustAll(cmds, reason, next), c)
  {
    if cmds != [] {
      MustAllInsists(cmds[1..], reason, next, c);
    }
  }

  lemma PortPartInsists(dev: string, cfg: Option<PortVlanConfig>, c: Cmd)
    ensures Insists(PortPart(dev, cfg), c)
  {
    if cfg.Some? {
      MustAllInsists(VlanAdds(dev, Commands(cfg.value)), "VLANConfigFailed", Finished, c);
    }
  }

  // Bonds

  lemma {:induction false} SlaveCommandsAt(dev: string, slaves: seq<string>, x: nat)
    requires x < |slaves|
    ensures |SlaveCommands(dev, slaves)| == 2 * |slaves|
    ensures SlaveCommands(dev, slaves)[2 * x] == LinkSet(slaves[x], State(false))
    ensures SlaveCommands(dev, slaves)[2 * x + 1] == LinkSet(slaves[x], Master(dev))
  {
    if x > 0 {
      SlaveCommandsAt(dev, slaves[1..], x - 1);
    } else if |slaves| > 1 {
      SlaveCommandsAt(dev, slaves[1..], 0);
    }
  }

  lemma SlaveCount(dev: string, slaves: seq<string>)
    ensures |SlaveCommands(dev, slaves)| == 2 * |slaves|
  {
    if slaves != [] {
      SlaveCommandsAt(dev, slaves, 0);
    }
  }

  lemma UplinkOrders(dev: string, spec: UplinkSpec)
    ensures Orders(UplinkProgram(dev, spec), SlaveCommands(dev, spec.bondSlaves) + [LinkSet(dev, State(true))])
    ensures Insists(UplinkProgram(dev, spec), LinkSet(dev, State(true)))
  {
    var up := LinkSet(dev, State(true));
    var slaves := SlaveCommands(dev, spec.bondSlaves);
    OrdersNothing(UplinkPorts(dev, spec));
    assert Orders(UplinkUp(dev, spec), [up]);
    assert Orders(UplinkMaster(dev, spec), [up]);
    MayAllOrders(slaves, UplinkMaster(dev, spec), [up]);
    if spec.bondMode != "" {
      OrdersAnyway(UplinkSlaves(dev, spec, spec.bondSlaves), slaves + [up], LinkSet(dev, BondModeIs(spec.bondMode)));
    }
    OrdersAnyway(UplinkSettings(dev, spec), slaves + [up], LinkShow(dev));
    OrdersAnyway(UplinkSettings(dev, spec), Past(slaves + [up], LinkShow(dev)), LinkAdd(dev, BondMode));
    UplinkInsists(dev, spec);
  }

  lemma UplinkInsists(dev: string, spec: UplinkSpec)
    ensures Insists(UplinkProgram(dev, spec), LinkSet(dev, State(true)))
  {
    var up := LinkSet(dev, State(true));
    PortPartInsists(dev, spec.portVlan, up);
    assert Insists(UplinkPorts(dev, spec), up);
    assert Insists(UplinkUp(dev, spec), up);
    assert Insists(UplinkMaster(dev, spec), up);
    if up in SlaveCommands(dev, spec.bondSlaves) {
      SlaveCommandsAsked(dev, spec.bondSlaves, up);
    }
    MayAllInsists(SlaveCommands(dev, spec.bondSlaves), UplinkMaster(dev, spec), up);
    assert Insists(UplinkSettings(dev, spec), up);
  }

  /**
   * Each listed slave was set down and enslaved, in the order of the list, and the bond was raised after that: `at` has
   * the places of these commands, the last that of the bond's own.
   */
  ghost predicate TriedAt(dev: string, slaves: seq<string>, t: seq<Attempt>, at: seq<nat>) {
    && |at| == 2 * |slaves| + 1
    && (forall k :: 0 <= k < |at| ==> at[k] < |t|)
    && (forall k, l :: 0 <= k < l < |at| ==> at[k] < at[l])
    && (forall x :: 0 <= x < |slaves| ==>
          t[at[2 * x]].cmd == LinkSet(slaves[x], State(false)) && t[at[2 * x + 1]].cmd == LinkSet(slaves[x], Master(dev)))
    && t[at[2 * |slaves|]] == Attempt(LinkSet(dev, State(true)), true)
  }

  ghost predicate SlavesTried(dev: string, slaves: seq<string>, t: seq<Attempt>) {
    exists at :: TriedAt(dev, slaves, t, at)
  }

  /** Every successful run of a bond attaches all the listed slaves before it raises the bond. */
  lemma SlavesAreTried(dev: string, spec: UplinkSpec, t: seq<Attempt>)
    requires Rest(UplinkProgram(dev, spec), t) == Some(Finished)
    ensures SlavesTried(dev, spec.bondSlaves, t)
  {
    var slaves, up := spec.bondSlaves, LinkSet(dev, State(true));
    var cs := SlaveCommands(dev, slaves) + [up];
    UplinkOrders(dev, spec);
    var at := OrdersSound(UplinkProgram(dev, spec), t, cs);
    SlaveCount(dev, slaves);
    forall x | 0 <= x < |slaves|
      ensures t[at[2 * x]].cmd == LinkSet(slaves[x], State(false)) && t[at[2 * x + 1]].cmd == LinkSet(slaves[x], Master(dev))
    {
      SlaveCommandsAt(dev, slaves, x);
      assert cs[2 * x] == LinkSet(slaves[x], State(false)) && cs[2 * x + 1] == LinkSet(slaves[x], Master(dev));
    }
    assert cs[2 * |slaves|] == up;
    InsistsSound(UplinkProgram(dev, spec), t, up, at[2 * |slaves|]);
    assert TriedAt(dev, slaves, t, at);
  }

  // VXLANs

  /** A command that is issued only in this case. */
  function When(b: bool, c: Cmd): seq<Cmd> {
    if b then [c] else []
  }

  lemma {:induction false} OrdersSuffix(p: Prog, a: seq<Cmd>, b: seq<Cmd>)
    requires Orders(p, a + b)
    ensures Orders(p, b)
  {
    if a == [] {
      assert a + b == b;
    } else {
      OrdersLess(p, a + b);
      assert (a + b)[1..] == a[1..] + b;
      OrdersSuffix(p, a[1..], b);
    }
  }

  /** The filter's commands, then the question whether the device is on a bridge. */
  function FilterSteps(dev: string, spec: VxlanSpec): seq<Cmd> {
    (if spec.vniFilter && spec.portVlan.Some? then VniAdds(dev, FilterVnis(spec.portVlan.value.tunnelInfo)) else []) + [LinkDetail(dev)]
  }

  /** What a successful run issues for a VXLAN that is to have this address. */
  function VxlanSteps(dev: string, spec: VxlanSpec, ip: string): seq<Cmd> {
    When(ip != "", LinkSet(dev, Local(ip)))
    + (When(spec.mtu > 0, LinkSet(dev, Mtu(spec.mtu)))
       + (When(spec.master != "", LinkSet(dev, Master(spec.master)))
          + ([LinkSet(dev, Learning(spec.learning)), LinkSet(dev, State(true))] + FilterSteps(dev, spec))))
  }

  lemma FilterOrders(dev: string, spec: VxlanSpec)
    ensures Orders(VxlanFilter(dev, spec), FilterSteps(dev, spec))
  {
    OrdersNothing(VxlanPorts(dev, spec).yes);
    assert Past([LinkDetail(dev)], LinkDetail(dev)) == [];
    assert Orders(VxlanPorts(dev, spec), [LinkDetail(dev)]);
    if spec.vniFilter && spec.portVlan.Some? {
      MayAllOrders(VniAdds(dev, FilterVnis(spec.portVlan.value.tunnelInfo)), VxlanPorts(dev, spec), [LinkDetail(dev)]);
    } else {
      assert FilterSteps(dev, spec) == [LinkDetail(dev)];
    }
  }

  lemma LearningOrders(dev: string, spec: VxlanSpec)
    ensures Orders(VxlanLearning(dev, spec), [LinkSet(dev, Learning(spec.learning)), LinkSet(dev, State(true))] + FilterSteps(dev, spec))
  {
    var up, filter := [LinkSet(dev, State(true))], FilterSteps(dev, spec);
    FilterOrders(dev, spec);
    assert (up + filter)[1..] == filter;
    assert Orders(VxlanLearning(dev, spec).next, up + filter);
    var all := [LinkSet(dev, Learning(spec.learning)), LinkSet(dev, State(true))] + filter;
    assert all[1..] == up + filter;
  }

  lemma MustWhen(b: bool, c: Cmd, reason: string, next: Prog, cs: seq<Cmd>)
    requires Orders(next, cs)
    ensures Orders(if b then Must(c, reason, next) else next, When(b, c) + cs)
  {
    if b {
      assert ([c] + cs)[1..] == cs;
    } else {
      assert [] + cs == cs;
    }
  }

  lemma VxlanOrders(dev: string, spec: VxlanSpec, resolved: Option<int>, detected: Option<string>, ip: string)
    requires AddressIs(spec, detected, ip)
    ensures Orders(VxlanProgram(dev, spec, resolved, detected), VxlanSteps(dev, spec, ip))
  {
    var p, settings, cs := VxlanProgram(dev, spec, resolved, detected), VxlanSettings(dev, spec, detected), VxlanSteps(dev, spec, ip);
    AddressIff(spec, detected, ip);
    LearningOrders(dev, spec);
    var rest := [LinkSet(dev, Learning(spec.learning)), LinkSet(dev, State(true))] + FilterSteps(dev, spec);
    MustWhen(spec.master != "", LinkSet(dev, Master(spec.master)), "MasterFailed", VxlanLearning(dev, spec), rest);
    rest := When(spec.master != "", LinkSet(dev, Master(spec.master))) + rest;
    MustWhen(spec.mtu > 0, LinkSet(dev, Mtu(spec.mtu)), "MTUFailed", VxlanMaster(dev, spec), rest);
    rest := When(spec.mtu > 0, LinkSet(dev, Mtu(spec.mtu))) + rest;
    MustWhen(ip != "", LinkSet(dev, Local(ip)), "ConfigFailed", VxlanMtu(dev, spec), rest);
    OrdersAnyway(settings, cs, LinkShow(dev));
    if p.no.Must? {
      OrdersAnyway(settings, Past(cs, LinkShow(dev)), p.no.cmd);
    }
  }

  /**
   * Every successful run of a VXLAN issues address, MTU and master if the spec has them, the learning flag it has, the
   * raising, and every VNI of the filter, in this order.
   */
  lemma VxlanIssues(dev: string, spec: VxlanSpec, resolved: Option<int>, detected: Option<string>, ip: string, t: seq<Attempt>)
    returns (at: seq<nat>)
    requires AddressIs(spec, detected, ip) && Rest(VxlanProgram(dev, spec, resolved, detected), t) == Some(Finished)
    ensures Places(t, VxlanSteps(dev, spec, ip), at)
  {
    VxlanOrders(dev, spec, resolved, detected, ip);
    at := OrdersSound(VxlanProgram(dev, spec, resolved, detected), t, VxlanSteps(dev, spec, ip));
  }

  /** What a successful run issues for a bond. */
  function UplinkSteps(dev: string, spec: UplinkSpec): seq<Cmd> {
    When(spec.bondMode != "", LinkSet(dev, BondModeIs(spec.bondMode)))
    + (SlaveCommands(dev, spec.bondSlaves)
       + (When(spec.master != "", LinkSet(dev, Master(spec.master))) + [LinkSet(dev, State(true)), LinkDetail(dev)]))
  }

  /** Every successful run of a bond issues its mode, its slaves' commands, its master and the raising, in this order. */
  lemma UplinkIssues(dev: string, spec: UplinkSpec, t: seq<Attempt>) returns (at: seq<nat>)
    requires Rest(UplinkProgram(dev, spec), t) == Some(Finished)
    ensures Places(t, UplinkSteps(dev, spec), at)
  {
    var cs, settings := UplinkSteps(dev, spec), UplinkSettings(dev, spec);
    var rest := [LinkSet(dev, State(true)), LinkDetail(dev)];
    OrdersNothing(PortPart(dev, spec.portVlan));
    assert rest[1..] == [LinkDetail(dev)] && Past([LinkDetail(dev)], LinkDetail(dev)) == [];
    assert Orders(UplinkPorts(dev, spec), [LinkDetail(dev)]);
    assert Orders(UplinkUp(dev, spec), rest);
    MustWhen(spec.master != "", LinkSet(dev, Master(spec.master)), "MasterFailed", UplinkUp(dev, spec), rest);
    rest := When(spec.master != "", LinkSet(dev, Master(spec.master))) + rest;
    MayAllOrders(SlaveCommands(dev, spec.bondSlaves), UplinkMaster(dev, spec), rest);
    rest := SlaveCommands(dev, spec.bondSlaves) + rest;
    MustWhen(spec.bondMode != "", LinkSet(dev, BondModeIs(spec.bondMode)), "ConfigFailed", UplinkSlaves(dev, spec, spec.bondSlaves), rest);
    OrdersAnyway(settings, cs, LinkShow(dev));
    OrdersAnyway(settings, Past(cs, LinkShow(dev)), LinkAdd(dev, BondMode));
    at := OrdersSound(UplinkProgram(dev, spec), t, cs);
  }

  // What the failures are told as

  /** The reason reported when this command fails and that counts. */
  function ReasonFor(c: Cmd): string {
    match c
    case LinkAdd(_, _) => "CreateFailed"
    case LinkSet(_, Mtu(_)) => "MTUFailed"
    case LinkSet(_, Master(_)) => "MasterFailed"
    case LinkSet(_, State(_)) => "UpFailed"
    case VlanAdd(_, _) => "VLANConfigFailed"
    case _ => "ConfigFailed"
  }

  /** Every counting failure is told by its own reason; the excuses are those that need no command to fail. */
  predicate Tells(p: Prog, excuses: set<string>) {
    match p
    case Finished => true
    case Aborted(reason) => reason in excuses
    case Must(c, reason, next) => reason == ReasonFor(c) && Tells(next, excuses)
    case May(_, next) => Tells(next, excuses)
    case Test(_, yes, no) => Tells(yes, excuses) && Tells(no, excuses)
  }

  lemma {:induction false} TellsSound(p: Prog, t: seq<Attempt>, excuses: set<string>, reason: string)
    requires Tells(p, excuses) && Rest(p, t) == Some(Aborted(reason))
    ensures reason in excuses || (t != [] && !t[|t| - 1].ok && reason == ReasonFor(t[|t| - 1].cmd))
    decreases |t|
  {
    if t != [] {
      RestHead(p, t);
      var q := Advance(p, t[0]).value;
      if p.Must? && !t[0].ok {
        if t[1..] != [] {
          RestHead(q, t[1..]);
        }
      } else {
        TellsSound(q, t[1..], excuses, reason);
      }
    }
  }

  lemma {:induction false} MustAllTells(cmds: seq<Cmd>, reason: string, next: Prog, excuses: set<string>)
    requires (forall c :: c in cmds ==> ReasonFor(c) == reason) && Tells(next, excuses)
    ensures Tells(MustAll(cmds, reason, next), excuses)
  {
    if cmds != [] {
      MustAllTells(cmds[1..], reason, next, excuses);
    }
  }

  lemma {:induction false} MayAllTells(cmds: seq<Cmd>, next: Prog, excuses: set<string>)
    requires Tells(next, excuses)
    ensures Tells(MayAll(cmds, next), excuses)
  {
    if cmds != [] {
      MayAllTells(cmds[1..], next, excuses);
    }
  }

  lemma PortPartTells(dev: string, cfg: Option<PortVlanConfig>, excuses: set<string>)
    ensures Tells(PortPart(dev, cfg), excuses)
  {
    if cfg.Some? {
      MustAllTells(VlanAdds(dev, Commands(cfg.value)), "VLANConfigFailed", Finished, excuses);
    }
  }

  lemma BridgeTells(dev: string, spec: BridgeSpec)
    ensures Tells(BridgeProgram(dev, spec), {})
  {
    assert Tells(BridgeSettings(dev, spec).next, {});
    assert Tells(BridgeSettings(dev, spec), {});
  }

  lemma UplinkTells(dev: string, spec: UplinkSpec)
    ensures Tells(UplinkProgram(dev, spec), {})
  {
    PortPartTells(dev, spec.portVlan, {});
    assert Tells(UplinkPorts(dev, spec), {});
    assert Tells(UplinkMaster(dev, spec), {});
    MayAllTells(SlaveCommands(dev, spec.bondSlaves), UplinkMaster(dev, spec), {});
    assert Tells(UplinkSettings(dev, spec), {});
  }

  /** The two lookups of a VXLAN that may fail, each only where it is made. */
  function LookupFailures(spec: VxlanSpec, resolved: Option<int>, detected: Option<string>): set<string> {
    (if !spec.external && spec.vni == 0 && resolved.None? then {"ResolveIDFailed"} else {})
    + (if spec.localIP == "" && spec.dev != "" && detected.None? then {"LocalIPFailed"} else {})
  }

  lemma VxlanMtuTells(dev: string, spec: VxlanSpec, excuses: set<string>)
    ensures Tells(VxlanMtu(dev, spec), excuses)
  {
    PortPartTells(dev, spec.portVlan, excuses);
    assert Tells(VxlanPorts(dev, spec).yes, excuses);
    if spec.portVlan.Some? {
      MayAllTells(VniAdds(dev, FilterVnis(spec.portVlan.value.tunnelInfo)), VxlanPorts(dev, spec), excuses);
    }
    assert Tells(VxlanFilter(dev, spec), excuses);
    assert Tells(VxlanLearning(dev, spec).next, excuses);
    assert Tells(VxlanMaster(dev, spec), excuses);
  }

  lemma VxlanTells(dev: string, spec: VxlanSpec, resolved: Option<int>, detected: Option<string>)
    ensures Tells(VxlanProgram(dev, spec, resolved, detected), LookupFailures(spec, resolved, detected))
  {
    var excuses := LookupFailures(spec, resolved, detected);
    VxlanMtuTells(dev, spec, excuses);
    assert Tells(VxlanSettings(dev, spec, detected), excuses);
    assert Tells(VxlanCreate(dev, spec, resolved, VxlanSettings(dev, spec, detected)), excuses);
  }

  /** A reported failure names what failed: the last command issued, or a lookup of a VXLAN that had no answer. */
  lemma FailuresAreNamed(k: Kind, dev: string, spec: Spec, resolved: Option<int>, detected: Option<string>, t: seq<Attempt>, reason: string)
    requires OfKind(spec, k) && Rest(AgentProgram(k, dev, spec, resolved, detected), t) == Some(Aborted(reason))
    ensures (t != [] && !t[|t| - 1].ok && reason == ReasonFor(t[|t| - 1].cmd))
         || (spec.OfVxlan? && reason in LookupFailures(spec.vxlan, resolved, detected))
  {
    match spec
    case OfBridge(b) =>
      BridgeTells(dev, b);
      TellsSound(BridgeProgram(dev, b), t, {}, reason);
    case OfUplink(u) =>
      UplinkTells(dev, u);
      TellsSound(UplinkProgram(dev, u), t, {}, reason);
    case OfVxlan(v) =>
      VxlanTells(dev, v, resolved, detected);
      TellsSound(VxlanProgram(dev, v, resolved, detected), t, LookupFailures(v, resolved, detected), reason);
  }
}
