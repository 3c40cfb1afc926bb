/**
 * Port VLAN configuration: which `bridge vlan add` commands a PortVLANConfig stands for, in order,
 * and what they do to a port.
 *
 * A port is a last-write-wins map of cells: its PVID, the flags of each VLAN, and the VNI each VLAN is
 * tunnelled to. The VNI filter of a VXLAN device is a set. Commands only ever add.
 */
module PortVlan {
  import opened Base
  import opened ApiObjects

  datatype Cell = Pvid | Vlan(vid: int) | Tunnel(vid: int)
  type Port = map<Cell, int>

  const TAGGED := 0
  const UNTAGGED := 1

  datatype VlanCmd = AddPvid(vid: int) | AddVid(vid: int) | AddTunnel(vid: int, vni: int)

  function Writes(c: VlanCmd): Port {
    match c
    case AddPvid(vid) => map[Pvid := vid, Vlan(vid) := UNTAGGED]
    case AddVid(vid) => map[Vlan(vid) := TAGGED]
    case AddTunnel(vid, vni) => map[Tunnel(vid) := vni]
  }

  /** The port after the commands, issued left to right. */
  function Run(p: Port, cmds: seq<VlanCmd>): Port {
    if cmds == [] then p else Run(p, cmds[..|cmds| - 1]) + Writes(cmds[|cmds| - 1])
  }

  // What a configuration stands for

  function VidEnd(m: VlanTunnelMapping): int {
    if m.vidEnd.Some? then m.vidEnd.value else m.vid
  }

  /** How many VLANs the mapping covers: none when the range is empty. */
  function Width(m: VlanTunnelMapping): nat {
    if VidEnd(m) < m.vid then 0 else VidEnd(m) - m.vid + 1
  }

  function ExpandOne(m: VlanTunnelMapping): seq<VlanCmd> {
    seq(Width(m), i => AddTunnel(m.vid + i, m.vni + i))
  }

  function Expand(ms: seq<VlanTunnelMapping>): seq<VlanCmd> {
    if ms == [] then [] else Expand(ms[..|ms| - 1]) + ExpandOne(ms[|ms| - 1])
  }

  function PvidCommands(cfg: PortVlanConfig): seq<VlanCmd> {
    if cfg.pvid.Some? then [AddPvid(cfg.pvid.value)] else []
  }

  function VidCommands(cfg: PortVlanConfig): seq<VlanCmd> {
    seq(|cfg.vids|, i requires 0 <= i < |cfg.vids| => AddVid(cfg.vids[i]))
  }

  function Commands(cfg: PortVlanConfig): seq<VlanCmd> {
    PvidCommands(cfg) + VidCommands(cfg) + Expand(cfg.tunnelInfo)
  }

  /** The VNIs the separately written filter loop adds, in order. */
  function FilterVnis(ms: seq<VlanTunnelMapping>): seq<int> {
    if ms == [] then []
    else FilterVnis(ms[..|ms| - 1]) + seq(Width(ms[|ms| - 1]), i => ms[|ms| - 1].vni + i)
  }

  // Declarative reading

  predicate Covers(m: VlanTunnelMapping, v: int) {
    m.vid <= v <= VidEnd(m)
  }

  function VniFor(m: VlanTunnelMapping, v: int): int {
    m.vni + (v - m.vid)
  }

  /** Mapping i is the last one whose range holds v. */
  ghost predicate LastMatch(ms: seq<VlanTunnelMapping>, i: int, v: int) {
    0 <= i < |ms| && Covers(ms[i], v) && forall j :: i < j < |ms| ==> !Covers(ms[j], v)
  }

  ghost predicate Uncovered(ms: seq<VlanTunnelMapping>, v: int) {
    forall i :: 0 <= i < |ms| ==> !Covers(ms[i], v)
  }

  /** Cells are read like this throughout: None when never written. */
  function Read(p: Port, c: Cell): Option<int> {
    if c in p then Some(p[c]) else None
  }

  // Running lists of commands

  lemma {:induction false} RunConcat(p: Port, a: seq<VlanCmd>, b: seq<VlanCmd>)
    ensures Run(p, a + b) == Run(Run(p, a), b)
  {
    if b == [] {
      assert a + b == a;
    } else {
      RunConcat(p, a, b[..|b| - 1]);
      assert (a + b)[..|a + b| - 1] == a + b[..|b| - 1];
    }
  }

  /** A list of commands is an overlay: what it writes does not depend on the port. */
  lemma {:induction false} RunIsOverlay(p: Port, cmds: seq<VlanCmd>)
    ensures Run(p, cmds) == p + Run(map[], cmds)
  {
    if cmds != [] {
      RunIsOverlay(p, cmds[..|cmds| - 1]);
    }
  }

  lemma {:induction false} PrefixWritesLess(cmds: seq<VlanCmd>, k: nat)
    requires k <= |cmds|
    ensures Run(map[], cmds[..k]).Keys <= Run(map[], cmds).Keys
  {
    if k < |cmds| {
      PrefixWritesLess(cmds[..|cmds| - 1], k);
      assert cmds[..|cmds| - 1][..k] == cmds[..k];
    } else {
      assert cmds[..k] == cmds;
    }
  }

  // Retry absorption

  /** An attempt that stops after k commands leaves no trace once the whole list has been run. */
  lemma RetryAbsorbs(p: Port, cmds: seq<VlanCmd>, k: nat)
    requires k <= |cmds|
    ensures Run(Run(p, cmds[..k]), cmds) == Run(p, cmds)
  {
    RunIsOverlay(p, cmds[..k]);
    RunIsOverlay(Run(p, cmds[..k]), cmds);
    RunIsOverlay(p, cmds);
    PrefixWritesLess(cmds, k);
  }

  /** The port after a series of attempts, attempt i stopping after stops[i] commands. */
  function Attempted(p: Port, cmds: seq<VlanCmd>, stops: seq<nat>): Port
    requires forall i :: 0 <= i < |stops| ==> stops[i] <= |cmds|
  {
    if stops == [] then p
    else Run(Attempted(p, cmds, stops[..|stops| - 1]), cmds[..stops[|stops| - 1]])
  }

  /** Any number of failed attempts followed by one success gives the failure-free port. */
  lemma {:induction false} RetriesAbsorb(p: Port, cmds: seq<VlanCmd>, stops: seq<nat>)
    requires forall i :: 0 <= i < |stops| ==> stops[i] <= |cmds|
    ensures Run(Attempted(p, cmds, stops), cmds) == Run(p, cmds)
  {
    if stops != [] {
      var earlier := stops[..|stops| - 1];
      RetryAbsorbs(Attempted(p, cmds, earlier), cmds, stops[|stops| - 1]);
      RetriesAbsorb(p, cmds, earlier);
    }
  }

  // The tunnel loops against the declarative reading

  /** The first n commands of one range: the VLANs below vid + n are mapped, all other cells stay. */
  lemma {:induction false} RangePrefix(p: Port, m: VlanTunnelMapping, n: nat)
    requires n <= Width(m)
    ensures forall c :: Read(Run(p, ExpandOne(m)[..n]), c) ==
                        if c.Tunnel? && m.vid <= c.vid < m.vid + n then Some(VniFor(m, c.vid)) else Read(p, c)
  {
    if n > 0 {
      RangePrefix(p, m, n - 1);
      assert ExpandOne(m)[..n][..n - 1] == ExpandOne(m)[..n - 1];
    }
  }

  lemma RangeRun(p: Port, m: VlanTunnelMapping, c: Cell)
    ensures Read(Run(p, ExpandOne(m)), c) ==
            if c.Tunnel? && Covers(m, c.vid) then Some(VniFor(m, c.vid)) else Read(p, c)
  {
    RangePrefix(p, m, Width(m));
    assert ExpandOne(m)[..Width(m)] == ExpandOne(m);
  }

  /** What the last mapping of the list adds to the others. */
  lemma LastRangeRun(p: Port, ms: seq<VlanTunnelMapping>, c: Cell)
    requires ms != []
    ensures var last := ms[|ms| - 1];
            Read(Run(p, Expand(ms)), c) == if c.Tunnel? && Covers(last, c.vid) then Some(VniFor(last, c.vid))
                                           else Read(Run(p, Expand(ms[..|ms| - 1])), c)
  {
    RunConcat(p, Expand(ms[..|ms| - 1]), ExpandOne(ms[|ms| - 1]));
    RangeRun(Run(p, Expand(ms[..|ms| - 1])), ms[|ms| - 1], c);
  }

  /** The nested loops refine a lookup: the last range holding v decides, an uncovered cell is kept. */
  lemma {:induction false} TunnelIsLastMatch(p: Port, ms: seq<VlanTunnelMapping>, v: int, i: int)
    ensures LastMatch(ms, i, v) ==> Read(Run(p, Expand(ms)), Tunnel(v)) == Some(VniFor(ms[i], v))
    ensures Uncovered(ms, v) ==> Read(Run(p, Expand(ms)), Tunnel(v)) == Read(p, Tunnel(v))
  {
    if ms != [] {
      LastRangeRun(p, ms, Tunnel(v));
      TunnelIsLastMatch(p, ms[..|ms| - 1], v, i);
    }
  }

  /** The tunnel commands touch tunnel cells only. */
  lemma {:induction false} TunnelKeepsOtherCells(p: Port, ms: seq<VlanTunnelMapping>, c: Cell)
    requires !c.Tunnel?
    ensures Read(Run(p, Expand(ms)), c) == Read(p, c)
  {
    if ms != [] {
      LastRangeRun(p, ms, c);
      TunnelKeepsOtherCells(p, ms[..|ms| - 1], c);
    }
  }

  // The whole configuration against its declarative reading

  /**
   * The port has what the configuration says and has kept the rest: the PVID, the VLANs tagged or, for the PVID that is
   * not listed, untagged, and for each VLAN the VNI of the last range that holds it.
   */
  ghost predicate Written(before: Port, after: Port, cfg: PortVlanConfig) {
    && Read(after, Pvid) == (if cfg.pvid.Some? then cfg.pvid else Read(before, Pvid))
    && (forall v :: Read(after, Vlan(v)) == if v in cfg.vids then Some(TAGGED)
                                            else if cfg.pvid == Some(v) then Some(UNTAGGED) else Read(before, Vlan(v)))
    && (forall v, i :: LastMatch(cfg.tunnelInfo, i, v) ==> Read(after, Tunnel(v)) == Some(VniFor(cfg.tunnelInfo[i], v)))
    && (forall v :: Uncovered(cfg.tunnelInfo, v) ==> Read(after, Tunnel(v)) == Read(before, Tunnel(v)))
  }

  /** The configuration is in place: writing it once more would change nothing. */
  ghost predicate InPlace(port: Port, cfg: PortVlanConfig) {
    Written(port, port, cfg)
  }

  /** The first n VLAN commands tag the first n VLANs. */
  lemma {:induction false} VidsRun(p: Port, cfg: PortVlanConfig, n: nat, c: Cell)
    requires n <= |cfg.vids|
    ensures Read(Run(p, VidCommands(cfg)[..n]), c) == if c.Vlan? && c.vid in cfg.vids[..n] then Some(TAGGED) else Read(p, c)
  {
    if n > 0 {
      VidsRun(p, cfg, n - 1, c);
      assert VidCommands(cfg)[..n][..n - 1] == VidCommands(cfg)[..n - 1];
      assert cfg.vids[..n] == cfg.vids[..n - 1] + [cfg.vids[n - 1]];
    }
  }

  /** The configuration by its three parts. */
  lemma PartsRun(p: Port, cfg: PortVlanConfig)
    ensures Run(p, Commands(cfg)) == Run(Run(Run(p, PvidCommands(cfg)), VidCommands(cfg)), Expand(cfg.tunnelInfo))
  {
    RunConcat(p, PvidCommands(cfg) + VidCommands(cfg), Expand(cfg.tunnelInfo));
    RunConcat(p, PvidCommands(cfg), VidCommands(cfg));
  }

  lemma PvidRun(p: Port, cfg: PortVlanConfig, c: Cell)
    ensures Read(Run(p, PvidCommands(cfg)), c) == if cfg.pvid.Some? && c == Pvid then cfg.pvid
                                                  else if cfg.pvid.Some? && c == Vlan(cfg.pvid.value) then Some(UNTAGGED) else Read(p, c)
  {
    if cfg.pvid.Some? {
      assert PvidCommands(cfg)[..0] == [];
      assert Run(p, PvidCommands(cfg)) == p + Writes(AddPvid(cfg.pvid.value));
    }
  }

  /** What the parts before the tunnels make of a cell. */
  lemma MembersRun(p: Port, cfg: PortVlanConfig, c: Cell)
    ensures Read(Run(Run(p, PvidCommands(cfg)), VidCommands(cfg)), c)
            == if c.Vlan? && c.vid in cfg.vids then Some(TAGGED) else Read(Run(p, PvidCommands(cfg)), c)
  {
    VidsRun(Run(p, PvidCommands(cfg)), cfg, |cfg.vids|, c);
    assert VidCommands(cfg)[..|cfg.vids|] == VidCommands(cfg) && cfg.vids[..|cfg.vids|] == cfg.vids;
  }

  lemma MembersWritten(p: Port, cfg: PortVlanConfig, v: int)
    ensures var after := Run(p, Commands(cfg));
            && Read(after, Pvid) == (if cfg.pvid.Some? then cfg.pvid else Read(p, Pvid))
            && Read(after, Vlan(v)) == if v in cfg.vids then Some(TAGGED)
                                       else if cfg.pvid == Some(v) then Some(UNTAGGED) else Read(p, Vlan(v))
  {
    var port := Run(Run(p, PvidCommands(cfg)), VidCommands(cfg));
    PartsRun(p, cfg);
    TunnelKeepsOtherCells(port, cfg.tunnelInfo, Pvid);
    TunnelKeepsOtherCells(port, cfg.tunnelInfo, Vlan(v));
    MembersRun(p, cfg, Pvid);
    MembersRun(p, cfg, Vlan(v));
    PvidRun(p, cfg, Pvid);
    PvidRun(p, cfg, Vlan(v));
  }

  lemma TunnelsWritten(p: Port, cfg: PortVlanConfig, v: int, i: int)
    ensures var after := Run(p, Commands(cfg));
            && (LastMatch(cfg.tunnelInfo, i, v) ==> Read(after, Tunnel(v)) == Some(VniFor(cfg.tunnelInfo[i], v)))
            && (Uncovered(cfg.tunnelInfo, v) ==> Read(after, Tunnel(v)) == Read(p, Tunnel(v)))
  {
    PartsRun(p, cfg);
    TunnelIsLastMatch(Run(Run(p, PvidCommands(cfg)), VidCommands(cfg)), cfg.tunnelInfo, v, i);
    MembersRun(p, cfg, Tunnel(v));
    PvidRun(p, cfg, Tunnel(v));
  }

  lemma ConfigIsWritten(p: Port, cfg: PortVlanConfig)
    ensures Written(p, Run(p, Commands(cfg)), cfg)
  {
    forall v, i
      ensures var after := Run(p, Commands(cfg));
              && Read(after, Pvid) == (if cfg.pvid.Some? then cfg.pvid else Read(p, Pvid))
              && Read(after, Vlan(v)) == (if v in cfg.vids then Some(TAGGED)
                                          else if cfg.pvid == Some(v) then Some(UNTAGGED) else Read(p, Vlan(v)))
              && (LastMatch(cfg.tunnelInfo, i, v) ==> Read(after, Tunnel(v)) == Some(VniFor(cfg.tunnelInfo[i], v)))
              && (Uncovered(cfg.tunnelInfo, v) ==> Read(after, Tunnel(v)) == Read(p, Tunnel(v)))
    {
      MembersWritten(p, cfg, v);
      TunnelsWritten(p, cfg, v, i);
    }
  }

  /** The reading leaves no cell open. */
  lemma WrittenDetermines(before: Port, a: Port, b: Port, cfg: PortVlanConfig)
    requires Written(before, a, cfg) && Written(before, b, cfg)
    ensures a == b
  {
    forall c ensures Read(a, c) == Read(b, c) {
      if c.Tunnel? && !Uncovered(cfg.tunnelInfo, c.vid) {
        var i := LastMatchExists(cfg.tunnelInfo, c.vid);
      }
    }
    assert forall c :: c in a <==> Read(a, c).Some?;
    assert forall c :: c in b <==> Read(b, c).Some?;
  }

  /** The commands of a configuration lead from one port to another exactly when the reading relates them. */
  lemma WrittenIff(before: Port, after: Port, cfg: PortVlanConfig)
    ensures Written(before, after, cfg) <==> after == Run(before, Commands(cfg))
  {
    ConfigIsWritten(before, cfg);
    if Written(before, after, cfg) {
      WrittenDetermines(before, after, Run(before, Commands(cfg)), cfg);
    }
  }

  function TotalWidth(ms: seq<VlanTunnelMapping>): nat {
    if ms == [] then 0 else TotalWidth(ms[..|ms| - 1]) + Width(ms[|ms| - 1])
  }

  lemma {:induction false} CommandCount(ms: seq<VlanTunnelMapping>)
    ensures |Expand(ms)| == TotalWidth(ms)
  {
    if ms != [] {
      CommandCount(ms[..|ms| - 1]);
    }
  }

  /** Where the command for VLAN number i of range j sits in the list. */
  lemma {:induction false} ExpandAt(ms: seq<VlanTunnelMapping>, j: nat, i: nat)
    requires j < |ms| && i < Width(ms[j])
    ensures |Expand(ms[..j])| + i < |Expand(ms)|
    ensures Expand(ms)[|Expand(ms[..j])| + i] == AddTunnel(ms[j].vid + i, ms[j].vni + i)
  {
    var init := ms[..|ms| - 1];
    if j < |init| {
      ExpandAt(init, j, i);
      assert init[..j] == ms[..j];
    }
  }

  // The two loops agree

  /** The filter loop adds the same VNIs as the tunnel loop, in the same order. */
  lemma {:induction false} FilterIssuesTunnelVnis(ms: seq<VlanTunnelMapping>)
    ensures |FilterVnis(ms)| == |Expand(ms)|
    ensures forall i :: 0 <= i < |Expand(ms)| ==> Expand(ms)[i].AddTunnel? && FilterVnis(ms)[i] == Expand(ms)[i].vni
  {
    if ms != [] {
      FilterIssuesTunnelVnis(ms[..|ms| - 1]);
    }
  }

  /** The VNIs some VLAN is tunnelled to. */
  function TunnelVnis(p: Port): set<int> {
    set c | c in p && c.Tunnel? :: p[c]
  }

  function SetOf(s: seq<int>): set<int> {
    set x | x in s
  }

  /** However early the commands stop, the VNIs they tunnelled to pass a filter that was filled. */
  lemma {:induction false} FilterAdmitsTunnels(p: Port, cfg: PortVlanConfig, k: nat)
    requires k <= |Commands(cfg)|
    ensures TunnelVnis(Run(p, Commands(cfg)[..k])) <= TunnelVnis(p) + SetOf(FilterVnis(cfg.tunnelInfo))
  {
    if k > 0 {
      FilterAdmitsTunnels(p, cfg, k - 1);
      var cmds := Commands(cfg)[..k];
      assert cmds[..k - 1] == Commands(cfg)[..k - 1];
      FilterIssuesTunnelVnis(cfg.tunnelInfo);
      var base := |PvidCommands(cfg)| + |cfg.vids|;
      if base < k {
        assert FilterVnis(cfg.tunnelInfo)[k - 1 - base] == cmds[k - 1].vni;
      }
    }
  }

  // Isolation

  ghost predicate VlansDisjoint(ms: seq<VlanTunnelMapping>) {
    forall i, j, v :: 0 <= i < j < |ms| ==> !(Covers(ms[i], v) && Covers(ms[j], v))
  }

  predicate HasVni(m: VlanTunnelMapping, n: int) {
    m.vni <= n < m.vni + Width(m)
  }

  ghost predicate VnisDisjoint(ms: seq<VlanTunnelMapping>) {
    forall i, j, n :: 0 <= i < j < |ms| ==> !(HasVni(ms[i], n) && HasVni(ms[j], n))
  }

  /** No two VLANs share a VNI. */
  ghost predicate Isolated(p: Port) {
    forall v, w :: Tunnel(v) in p && Tunnel(w) in p && p[Tunnel(v)] == p[Tunnel(w)] ==> v == w
  }

  lemma {:induction false} LastMatchExists(ms: seq<VlanTunnelMapping>, v: int) returns (i: int)
    requires !Uncovered(ms, v)
    ensures LastMatch(ms, i, v)
  {
    if Covers(ms[|ms| - 1], v) {
      i := |ms| - 1;
    } else {
      i := LastMatchExists(ms[..|ms| - 1], v);
    }
  }

  /** From an empty port and disjoint VLAN ranges, the map is exactly the union of the ranges. */
  lemma DisjointTunnels(ms: seq<VlanTunnelMapping>, i: int, v: int)
    requires VlansDisjoint(ms) && 0 <= i < |ms| && Covers(ms[i], v)
    ensures Read(Run(map[], Expand(ms)), Tunnel(v)) == Some(VniFor(ms[i], v))
  {
    assert LastMatch(ms, i, v);
    TunnelIsLastMatch(map[], ms, v, i);
  }

  lemma InstalledIsCovered(ms: seq<VlanTunnelMapping>, v: int) returns (i: int)
    requires Tunnel(v) in Run(map[], Expand(ms))
    ensures LastMatch(ms, i, v) && Run(map[], Expand(ms))[Tunnel(v)] == VniFor(ms[i], v)
  {
    TunnelIsLastMatch(map[], ms, v, 0);
    i := LastMatchExists(ms, v);
    TunnelIsLastMatch(map[], ms, v, i);
  }

  /** With disjoint VLAN ranges, VLANs are kept apart exactly when the VNI ranges are disjoint. */
  lemma IsolationIff(ms: seq<VlanTunnelMapping>)
    requires VlansDisjoint(ms)
    ensures Isolated(Run(map[], Expand(ms))) <==> VnisDisjoint(ms)
  {
    var p := Run(map[], Expand(ms));
    if VnisDisjoint(ms) {
      forall v, w | Tunnel(v) in p && Tunnel(w) in p && p[Tunnel(v)] == p[Tunnel(w)]
        ensures v == w
      {
        var i := InstalledIsCovered(ms, v);
        var j := InstalledIsCovered(ms, w);
        assert HasVni(ms[i], p[Tunnel(v)]) && HasVni(ms[j], p[Tunnel(w)]);
      }
    }
    if Isolated(p) {
      forall i, j, n | 0 <= i < j < |ms|
        ensures !(HasVni(ms[i], n) && HasVni(ms[j], n))
      {
        if HasVni(ms[i], n) && HasVni(ms[j], n) {
          var v, w := ms[i].vid + (n - ms[i].vni), ms[j].vid + (n - ms[j].vni);
          assert Covers(ms[i], v) && Covers(ms[j], w);
          DisjointTunnels(ms, i, v);
          DisjointTunnels(ms, j, w);
        }
      }
    }
  }

  lemma FilterVniIsTunnelled(ms: seq<VlanTunnelMapping>, n: int)
    requires VlansDisjoint(ms) && n in FilterVnis(ms)
    ensures n in TunnelVnis(Run(map[], Expand(ms)))
  {
    var j, i := FilterVniAt(ms, n);
    assert Covers(ms[j], ms[j].vid + i);
    DisjointTunnels(ms, j, ms[j].vid + i);
    assert Tunnel(ms[j].vid + i) in Run(map[], Expand(ms));
  }

  lemma TunnelVnisAreFiltered(ms: seq<VlanTunnelMapping>)
    ensures TunnelVnis(Run(map[], Expand(ms))) <= SetOf(FilterVnis(ms))
  {
    var cfg := PortVlanConfig(None, [], ms);
    assert Commands(cfg) == Expand(ms) && Commands(cfg)[..|Commands(cfg)|] == Commands(cfg);
    FilterAdmitsTunnels(map[], cfg, |Commands(cfg)|);
  }

  /** From empty state and disjoint VLAN ranges the filter admits exactly the tunnelled VNIs. */
  lemma FilterEqualsTunnels(ms: seq<VlanTunnelMapping>)
    requires VlansDisjoint(ms)
    ensures TunnelVnis(Run(map[], Expand(ms))) == SetOf(FilterVnis(ms))
  {
    TunnelVnisAreFiltered(ms);
    forall n | n in FilterVnis(ms)
      ensures n in TunnelVnis(Run(map[], Expand(ms)))
    {
      FilterVniIsTunnelled(ms, n);
    }
  }

  lemma {:induction false} FilterVniAt(ms: seq<VlanTunnelMapping>, n: int) returns (j: nat, i: nat)
    requires n in FilterVnis(ms)
    ensures j < |ms| && i < Width(ms[j]) && n == ms[j].vni + i
  {
    var last := ms[|ms| - 1];
    if HasVni(last, n) {
      j, i := |ms| - 1, n - last.vni;
    } else {
      j, i := FilterVniAt(ms[..|ms| - 1], n);
    }
  }

  // Bounds: VLAN IDs 1..4094 (IEEE 802.1Q) and 24-bit VNIs (section 5 of RFC 7348)

  predicate PairInBounds(vid: int, vni: int) {
    1 <= vid <= 4094 && 0 <= vni < 0x100_0000
  }

  ghost predicate CommandsInBounds(ms: seq<VlanTunnelMapping>) {
    forall c :: c in Expand(ms) ==> c.AddTunnel? && PairInBounds(c.vid, c.vni)
  }

  ghost predicate EndpointsInBounds(ms: seq<VlanTunnelMapping>) {
    forall m :: m in ms && Width(m) > 0 ==> PairInBounds(m.vid, m.vni) && PairInBounds(VidEnd(m), VniFor(m, VidEnd(m)))
  }

  /** Every emitted pair is legal exactly when the two end pairs of each non-empty range are. */
  lemma {:induction false} BoundsIffEndpoints(ms: seq<VlanTunnelMapping>)
    ensures CommandsInBounds(ms) <==> EndpointsInBounds(ms)
  {
    if ms != [] {
      var init, last := ms[..|ms| - 1], ms[|ms| - 1];
      BoundsIffEndpoints(init);
      assert forall c :: c in Expand(ms) <==> c in Expand(init) || c in ExpandOne(last);
      assert forall m :: m in ms <==> m in init || m == last;
      if Width(last) > 0 {
        assert ExpandOne(last)[0] in ExpandOne(last) && ExpandOne(last)[Width(last) - 1] in ExpandOne(last);
      }
    }
  }
}
