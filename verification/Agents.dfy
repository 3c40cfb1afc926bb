/**
 * The command sequences of the three agent controllers, in their own imperative form, proved to follow
 * the decision trees of Programs.dfy. `t` collects what the method did to the host.
 */
module Agents {
  import opened Base
  import opened ApiObjects
  import opened PortVlan
  import opened Kernel
  import opened Programs
  import opened Asked

  /** `done` commands succeeded and, unless all did, the next one failed. */
  function VlanTrace(dev: string, cmds: seq<VlanCmd>, done: nat, failed: bool): seq<Attempt>
    requires done <= |cmds| && (failed ==> done < |cmds|)
  {
    seq(done, i requires 0 <= i < done => Attempt(VlanAdd(dev, cmds[i]), true))
    + if failed then [Attempt(VlanAdd(dev, cmds[done]), false)] else []
  }

  lemma {:induction false} VlanTraceRest(dev: string, cmds: seq<VlanCmd>, done: nat, failed: bool, reason: string, next: Prog)
    requires done <= |cmds| && (failed ==> done < |cmds|)
    ensures Rest(MustAll(VlanAdds(dev, cmds), reason, next), VlanTrace(dev, cmds, done, failed))
            == Some(if failed then Aborted(reason) else MustAll(VlanAdds(dev, cmds)[done..], reason, next))
    decreases done, failed
  {
    var p := MustAll(VlanAdds(dev, cmds), reason, next);
    if failed {
      VlanTraceRest(dev, cmds, done, false, reason, next);
      MustAllFrom(VlanAdds(dev, cmds), done, reason, next);
      var a := Attempt(VlanAdd(dev, cmds[done]), false);
      RestSnoc(p, VlanTrace(dev, cmds, done, false), a);
      assert VlanTrace(dev, cmds, done, true) == VlanTrace(dev, cmds, done, false) + [a];
    } else if done > 0 {
      VlanTraceRest(dev, cmds, done - 1, false, reason, next);
      var a := Attempt(VlanAdd(dev, cmds[done - 1]), true);
      RestSnoc(p, VlanTrace(dev, cmds, done - 1, false), a);
      assert VlanTrace(dev, cmds, done, false) == VlanTrace(dev, cmds, done - 1, false) + [a];
      MustAllFrom(VlanAdds(dev, cmds), done - 1, reason, next);
    }
  }

  lemma MustAllFrom(cmds: seq<Cmd>, i: nat, reason: string, next: Prog)
    requires i < |cmds|
    ensures MustAll(cmds[i..], reason, next) == Must(cmds[i], reason, MustAll(cmds[i + 1..], reason, next))
  {
    assert cmds[i..][1..] == cmds[i + 1..];
  }

  lemma VidCommandAt(cfg: PortVlanConfig, v: nat)
    requires v < |cfg.vids|
    ensures |PvidCommands(cfg)| + v < |Commands(cfg)|
    ensures Commands(cfg)[|PvidCommands(cfg)| + v] == AddVid(cfg.vids[v])
  {
  }

  lemma TunnelsStart(cfg: PortVlanConfig)
    ensures var start := |PvidCommands(cfg)| + |cfg.vids|;
            start <= |Commands(cfg)| && Commands(cfg)[start..] == Expand(cfg.tunnelInfo)
  {
  }

  /** How many commands the first j mappings stand for. */
  function Offset(ms: seq<VlanTunnelMapping>, j: nat): nat
    requires j <= |ms|
  {
    if j == 0 then 0 else Offset(ms, j - 1) + Width(ms[j - 1])
  }

  lemma {:induction false} OffsetIsLength(ms: seq<VlanTunnelMapping>, j: nat)
    requires j <= |ms|
    ensures Offset(ms, j) == |Expand(ms[..j])|
  {
    if j > 0 {
      OffsetIsLength(ms, j - 1);
      assert ms[..j][..j - 1] == ms[..j - 1];
    }
  }

  lemma OffsetEnd(ms: seq<VlanTunnelMapping>)
    ensures Offset(ms, |ms|) == |Expand(ms)|
  {
    OffsetIsLength(ms, |ms|);
    assert ms[..|ms|] == ms;
  }

  lemma TunnelCommandAt(cmds: seq<VlanCmd>, start: nat, ms: seq<VlanTunnelMapping>, j: nat, i: nat)
    requires start <= |cmds| && cmds[start..] == Expand(ms) && j < |ms| && i < Width(ms[j])
    ensures start + Offset(ms, j) + i < |cmds|
    ensures cmds[start + Offset(ms, j) + i] == AddTunnel(ms[j].vid + i, ms[j].vni + i)
  {
    OffsetIsLength(ms, j);
    ExpandAt(ms, j, i);
    assert cmds[start + Offset(ms, j) + i] == cmds[start..][Offset(ms, j) + i];
  }

  /** `done` commands took effect on the port of dev and, if `failed`, the next one was tried in vain. */
  ghost predicate Stopped(host: Host, dev: string, links0: Links, trace0: seq<Attempt>, cmds: seq<VlanCmd>, done: nat, failed: bool)
    reads host
    requires done <= |cmds| && (failed ==> done < |cmds|)
  {
    && host.Since(links0, trace0, VlanTrace(dev, cmds, done, failed))
    && (dev in links0 ==>
          host.links == links0[dev := links0[dev].(port := Run(links0[dev].port, cmds[..done]))])
    && (dev !in links0 ==> done == 0 && host.links == links0)
  }

  method AddOne(host: Host, dev: string, c: VlanCmd, ghost links0: Links, ghost trace0: seq<Attempt>,
                ghost cmds: seq<VlanCmd>, ghost done: nat)
    returns (ok: bool)
    requires done < |cmds| && cmds[done] == c && Stopped(host, dev, links0, trace0, cmds, done, false)
    modifies host
    ensures Stopped(host, dev, links0, trace0, cmds, if ok then done + 1 else done, !ok)
  {
    ok := host.ExecCmd(VlanAdd(dev, c));
    assert VlanTrace(dev, cmds, if ok then done + 1 else done, !ok)
        == VlanTrace(dev, cmds, done, false) + [Attempt(VlanAdd(dev, c), ok)];
    assert cmds[..done + 1][..done] == cmds[..done];
  }

  /** The nested tunnel_info loops, whose commands are the last ones of the list. */
  method ApplyTunnels(host: Host, dev: string, tunnelInfo: seq<VlanTunnelMapping>,
                      ghost links0: Links, ghost trace0: seq<Attempt>, ghost cmds: seq<VlanCmd>, start: nat)
    returns (ok: bool, done: nat)
    requires start <= |cmds| && cmds[start..] == Expand(tunnelInfo)
    requires Stopped(host, dev, links0, trace0, cmds, start, false)
    modifies host
    ensures done <= |cmds| && (ok <==> done == |cmds|)
    ensures Stopped(host, dev, links0, trace0, cmds, done, !ok)
  {
    done := start;
    for j := 0 to |tunnelInfo|
      invariant done == start + Offset(tunnelInfo, j) <= |cmds|
      invariant Stopped(host, dev, links0, trace0, cmds, done, false)
    {
      var mapping := tunnelInfo[j];
      var vidEnd := mapping.vid;
      if mapping.vidEnd.Some? {
        vidEnd := mapping.vidEnd.value;
      }
      var i := 0;
      while i <= vidEnd - mapping.vid
        invariant 0 <= i <= Width(mapping)
        invariant done == start + Offset(tunnelInfo, j) + i <= |cmds|
        invariant Stopped(host, dev, links0, trace0, cmds, done, false)
      {
        TunnelCommandAt(cmds, start, tunnelInfo, j, i);
        ok := AddOne(host, dev, AddTunnel(mapping.vid + i, mapping.vni + i), links0, trace0, cmds, done);
        if !ok {
          return;
        }
        done := done + 1;
        i := i + 1;
      }
    }
    OffsetEnd(tunnelInfo);
    ok := true;
  }

  /**
   * Stops at the first command that fails; the port then holds exactly the commands before it. After a success it has
   * the PVID, the VLANs and the tunnels of the configuration, and nothing else changed.
   */
  method ApplyPortVlanConfig(host: Host, dev: string, cfg: PortVlanConfig) returns (ok: bool, done: nat)
    modifies host
    ensures done <= |Commands(cfg)| && (ok <==> done == |Commands(cfg)|)
    ensures Stopped(host, dev, old(host.links), old(host.trace), Commands(cfg), done, !ok)
    ensures ok && dev in old(host.links) ==> dev in host.links && Written(old(host.links)[dev].port, host.links[dev].port, cfg)
  {
    ghost var links0, trace0, cmds := host.links, host.trace, Commands(cfg);
    done := 0;
    assert VlanTrace(dev, cmds, 0, false) == [];
    assert dev in links0 ==> links0[dev := links0[dev].(port := Run(links0[dev].port, cmds[..0]))] == links0;
    if cfg.pvid.Some? {
      ok := AddOne(host, dev, AddPvid(cfg.pvid.value), links0, trace0, cmds, done);
      if !ok {
        return;
      }
      done := done + 1;
    }

    for v := 0 to |cfg.vids|
      invariant done == |PvidCommands(cfg)| + v <= |cmds|
      invariant Stopped(host, dev, links0, trace0, cmds, done, false)
    {
      VidCommandAt(cfg, v);
      ok := AddOne(host, dev, AddVid(cfg.vids[v]), links0, trace0, cmds, done);
      if !ok {
        return;
      }
      done := done + 1;
    }

    TunnelsStart(cfg);
    ok, done := ApplyTunnels(host, dev, cfg.tunnelInfo, links0, trace0, cmds, done);
    AllIsWritten(links0, dev, cfg);
  }

  lemma AllIsWritten(ls: Links, dev: string, cfg: PortVlanConfig)
    ensures Commands(cfg)[..|Commands(cfg)|] == Commands(cfg)
    ensures dev in ls ==> Written(ls[dev].port, Run(ls[dev].port, Commands(cfg)), cfg)
  {
    if dev in ls {
      ConfigIsWritten(ls[dev].port, cfg);
    }
  }

  /** What a method was called to run, and from where. */
  datatype Job = Job(prog: Prog, links: Links, trace: seq<Attempt>)

  /** The host has done t since the job began, and q is what is left of its program. */
  ghost predicate At(host: Host, job: Job, t: seq<Attempt>, q: Prog)
    reads host
  {
    host.Since(job.links, job.trace, t) && Rest(job.prog, t) == Some(q)
  }

  method Exec(host: Host, c: Cmd, ghost job: Job, ghost t0: seq<Attempt>, ghost q: Prog) returns (ok: bool, ghost t: seq<Attempt>)
    requires At(host, job, t0, q) && Advance(q, Attempt(c, true)).Some?
    modifies host
    ensures At(host, job, t, Advance(q, Attempt(c, ok)).value)
    ensures ok ==> CanSucceed(old(host.links), c) && host.links == Effect(old(host.links), c)
    ensures !ok ==> host.links == old(host.links)
  {
    ok := host.ExecCmd(c);
    t := t0 + [Attempt(c, ok)];
    RestSnoc(job.prog, t0, Attempt(c, ok));
  }

  method BridgeOnChange(host: Host, dev: string, spec: BridgeSpec) returns (ready: bool, reason: string, ghost t: seq<Attempt>)
    modifies host
    ensures At(host, Job(BridgeProgram(dev, spec), old(host.links), old(host.trace)), t,
               if ready then Finished else Aborted(reason))
  {
    ghost var job := Job(BridgeProgram(dev, spec), host.links, host.trace);
    ghost var q := job.prog;
    t := [];
    var ok;
    ok, t := Exec(host, LinkShow(dev), job, t, q);
    if !ok {
      q := q.no;
      ok, t := Exec(host, LinkAdd(dev, BridgeMode), job, t, q);
      if !ok {
        return false, "CreateFailed", t;
      }
    }
    q := BridgeSettings(dev, spec);
    ok, t := Exec(host, LinkSet(dev, VlanFiltering(spec.vlanFiltering)), job, t, q);
    if !ok {
      return false, "ConfigFailed", t;
    }
    q := q.next;
    ok, t := Exec(host, LinkSet(dev, NfCallIptables(spec.nfCallIptables)), job, t, q);
    if !ok {
      return false, "ConfigFailed", t;
    }
    q := q.next;
    ok, t := Exec(host, LinkSet(dev, State(true)), job, t, q);
    if !ok {
      return false, "UpFailed", t;
    }
    return true, "Configured", t;
  }

  lemma PortVlanRest(p: Prog, t0: seq<Attempt>, dev: string, cfg: PortVlanConfig, done: nat, failed: bool)
    requires done <= |Commands(cfg)| && (failed <==> done < |Commands(cfg)|)
    requires Rest(p, t0) == Some(PortVlanProgram(dev, cfg, Finished))
    ensures Rest(p, t0 + VlanTrace(dev, Commands(cfg), done, failed)) == Some(if failed then Aborted("VLANConfigFailed") else Finished)
  {
    VlanTraceRest(dev, Commands(cfg), done, failed, "VLANConfigFailed", Finished);
    RestConcat(p, t0, VlanTrace(dev, Commands(cfg), done, failed), PortVlanProgram(dev, cfg, Finished));
    if !failed {
      assert VlanAdds(dev, Commands(cfg))[done..] == [];
    }
  }

  /** What happened since a later moment happened since the job began. */
  lemma SinceBegan(host: Host, job: Job, t0: seq<Attempt>, links0: Links, trace0: seq<Attempt>, u: seq<Attempt>)
    requires trace0 == job.trace + t0 && Possible(job.links, t0) && links0 == After(job.links, t0)
    requires host.reliable ==> Lucky(job.links, t0)
    requires host.Since(links0, trace0, u)
    ensures host.Since(job.links, job.trace, t0 + u)
  {
    AfterConcat(job.links, t0, u);
    if host.reliable {
      LuckyConcat(job.links, t0, u);
    }
    assert trace0 + u == job.trace + (t0 + u);
  }

  /** ApplyPortVlanConfig as the last part of a job. */
  method PortVlanPart(host: Host, dev: string, cfg: PortVlanConfig, ghost job: Job, ghost t0: seq<Attempt>)
    returns (ok: bool, ghost t: seq<Attempt>)
    requires At(host, job, t0, PortVlanProgram(dev, cfg, Finished))
    modifies host
    ensures At(host, job, t, if ok then Finished else Aborted("VLANConfigFailed"))
  {
    ghost var links0, trace0 := host.links, host.trace;
    var done;
    ok, done := ApplyPortVlanConfig(host, dev, cfg);
    ghost var u := VlanTrace(dev, Commands(cfg), done, !ok);
    t := t0 + u;
    SinceBegan(host, job, t0, links0, trace0, u);
    PortVlanRest(job.prog, t0, dev, cfg, done, !ok);
  }

  method UplinkOnChange(host: Host, dev: string, spec: UplinkSpec) returns (ready: bool, reason: string, ghost t: seq<Attempt>)
    modifies host
    ensures At(host, Job(UplinkProgram(dev, spec), old(host.links), old(host.trace)), t,
               if ready then Finished else Aborted(reason))
    ensures ready ==> SlavesTried(dev, spec.bondSlaves, t)
  {
    ghost var job := Job(UplinkProgram(dev, spec), host.links, host.trace);
    ghost var q := job.prog;
    t := [];
    var ok;
    ok, t := Exec(host, LinkShow(dev), job, t, q);
    if !ok {
      q := q.no;
      ok, t := Exec(host, LinkAdd(dev, BondMode), job, t, q);
      if !ok {
        return false, "CreateFailed", t;
      }
    }
    q := UplinkSettings(dev, spec);
    if spec.bondMode != "" {
      ok, t := Exec(host, LinkSet(dev, BondModeIs(spec.bondMode)), job, t, q);
      if !ok {
        return false, "ConfigFailed", t;
      }
    }
    t := AttachSlaves(host, dev, spec, job, t);
    q := UplinkMaster(dev, spec);
    if spec.master != "" {
      ok, t := Exec(host, LinkSet(dev, Master(spec.master)), job, t, q);
      if !ok {
        return false, "MasterFailed", t;
      }
    }
    ready, reason, t := RaiseBond(host, dev, spec, job, t);
    if ready {
      SlavesAreTried(dev, spec, t);
    }
  }

  method RaiseBond(host: Host, dev: string, spec: UplinkSpec, ghost job: Job, ghost t0: seq<Attempt>)
    returns (ready: bool, reason: string, ghost t: seq<Attempt>)
    requires At(host, job, t0, UplinkUp(dev, spec))
    modifies host
    ensures At(host, job, t, if ready then Finished else Aborted(reason))
  {
    var ok, slave;
    ok, t := Exec(host, LinkSet(dev, State(true)), job, t0, UplinkUp(dev, spec));
    if !ok {
      return false, "UpFailed", t;
    }
    slave, t := Exec(host, LinkDetail(dev), job, t, UplinkPorts(dev, spec));
    if slave && spec.portVlan.Some? {
      ok, t := PortVlanPart(host, dev, spec.portVlan.value, job, t);
      if !ok {
        return false, "VLANConfigFailed", t;
      }
    }
    return true, "Configured", t;
  }

  /** Slaves are taken down and enslaved one after the other; failures are only logged. */
  method AttachSlaves(host: Host, dev: string, spec: UplinkSpec, ghost job: Job, ghost t0: seq<Attempt>) returns (ghost t: seq<Attempt>)
    requires At(host, job, t0, UplinkSlaves(dev, spec, spec.bondSlaves))
    modifies host
    ensures At(host, job, t, UplinkMaster(dev, spec))
  {
    t := t0;
    for i := 0 to |spec.bondSlaves|
      invariant At(host, job, t, UplinkSlaves(dev, spec, spec.bondSlaves[i..]))
    {
      SlaveStep(dev, spec, spec.bondSlaves[i..]);
      assert spec.bondSlaves[i..][1..] == spec.bondSlaves[i + 1..];
      ghost var q := UplinkSlaves(dev, spec, spec.bondSlaves[i..]);
      var ok;
      ok, t := Exec(host, LinkSet(spec.bondSlaves[i], State(false)), job, t, q);
      ok, t := Exec(host, LinkSet(spec.bondSlaves[i], Master(dev)), job, t, q.next);
    }
  }

  method VxlanOnChange(host: Host, dev: string, spec: VxlanSpec, resolved: Option<int>, detected: Option<string>)
    returns (ready: bool, reason: string, localIP: string, ghost t: seq<Attempt>)
    modifies host
    ensures At(host, Job(VxlanProgram(dev, spec, resolved, detected), old(host.links), old(host.trace)), t,
               if ready then Finished else Aborted(reason))
    ensures ready ==> AddressIs(spec, detected, localIP)
  {
    ghost var job := Job(VxlanProgram(dev, spec, resolved, detected), host.links, host.trace);
    localIP := "";
    ready, reason, t := EnsureVxlanDevice(host, dev, spec, resolved, detected, job);
    if !ready {
      return;
    }
    ready, reason, localIP, t := ConfigureVxlanDevice(host, dev, spec, detected, job, t);
    if !ready {
      return;
    }
    ready, reason, t := ApplyBridgeSlaveSettings(host, dev, spec, job, t);
  }

  /** An existing device is taken as it is, whatever mode it was created in. */
  method EnsureVxlanDevice(host: Host, dev: string, spec: VxlanSpec, resolved: Option<int>, detected: Option<string>, ghost job: Job)
    returns (ok: bool, reason: string, ghost t: seq<Attempt>)
    requires job == Job(VxlanProgram(dev, spec, resolved, detected), host.links, host.trace)
    modifies host
    ensures At(host, job, t, if ok then VxlanSettings(dev, spec, detected) else Aborted(reason))
    ensures ok ==> MadeAs(old(host.links), host.links, dev, spec, resolved)
  {
    t := [];
    ok, t := Exec(host, LinkShow(dev), job, t, job.prog);
    if ok {
      return true, "", t;
    }
    ghost var q := job.prog.no;
    if spec.external {
      ok, t := Exec(host, LinkAdd(dev, VxlanExternal(spec.vniFilter)), job, t, q);
      return ok, "CreateFailed", t;
    }
    var vxlanID := spec.vni;
    if vxlanID == 0 {
      if resolved.None? {
        return false, "ResolveIDFailed", t;
      }
      vxlanID := resolved.value;
    }
    ok, t := Exec(host, LinkAdd(dev, VxlanId(vxlanID)), job, t, q);
    reason := "CreateFailed";
  }

  method ConfigureVxlanDevice(host: Host, dev: string, spec: VxlanSpec, detected: Option<string>, ghost job: Job, ghost t0: seq<Attempt>)
    returns (ok: bool, reason: string, localIP: string, ghost t: seq<Attempt>)
    requires At(host, job, t0, VxlanSettings(dev, spec, detected))
    modifies host
    ensures At(host, job, t, if ok then VxlanPorts(dev, spec) else Aborted(reason))
    ensures ok ==> AddressIs(spec, detected, localIP)
  {
    t := t0;
    localIP := spec.localIP;
    if localIP == "" && spec.dev != "" {
      if detected.None? {
        return false, "LocalIPFailed", "", t;
      }
      localIP := detected.value;
    }
    if localIP != "" {
      ok, t := Exec(host, LinkSet(dev, Local(localIP)), job, t, VxlanSettings(dev, spec, detected));
      if !ok {
        return false, "ConfigFailed", "", t;
      }
    }
    if spec.mtu > 0 {
      ok, t := Exec(host, LinkSet(dev, Mtu(spec.mtu)), job, t, VxlanMtu(dev, spec));
      if !ok {
        return false, "MTUFailed", "", t;
      }
    }
    if spec.master != "" {
      ok, t := Exec(host, LinkSet(dev, Master(spec.master)), job, t, VxlanMaster(dev, spec));
      if !ok {
        return false, "MasterFailed", "", t;
      }
    }
    ok, t := RaiseVxlanDevice(host, dev, spec, job, t);
    reason := "UpFailed";
  }

  method RaiseVxlanDevice(host: Host, dev: string, spec: VxlanSpec, ghost job: Job, ghost t0: seq<Attempt>)
    returns (ok: bool, ghost t: seq<Attempt>)
    requires At(host, job, t0, VxlanLearning(dev, spec))
    modifies host
    ensures At(host, job, t, if ok then VxlanPorts(dev, spec) else Aborted("UpFailed"))
  {
    ghost var q := VxlanLearning(dev, spec);
    ok, t := Exec(host, LinkSet(dev, Learning(spec.learning)), job, t0, q);
    ok, t := Exec(host, LinkSet(dev, State(true)), job, t, q.next);
    if ok && spec.vniFilter && spec.portVlan.Some? {
      t := ApplyVniFilter(host, dev, spec.portVlan.value.tunnelInfo, job, t, VxlanPorts(dev, spec));
    }
  }

  lemma VniCommandAt(ms: seq<VlanTunnelMapping>, j: nat, i: nat)
    requires j < |ms| && i < Width(ms[j])
    ensures Offset(ms, j) + i < |FilterVnis(ms)| && FilterVnis(ms)[Offset(ms, j) + i] == ms[j].vni + i
  {
    OffsetIsLength(ms, j);
    ExpandAt(ms, j, i);
    FilterIssuesTunnelVnis(ms);
  }

  lemma VnisEnd(ms: seq<VlanTunnelMapping>)
    ensures Offset(ms, |ms|) == |FilterVnis(ms)|
  {
    OffsetEnd(ms);
    FilterIssuesTunnelVnis(ms);
  }

  /** One command of a list whose failures are ignored. */
  method ExecNext(host: Host, c: Cmd, ghost cmds: seq<Cmd>, ghost done: nat, ghost next: Prog, ghost job: Job, ghost t0: seq<Attempt>)
    returns (ghost t: seq<Attempt>)
    requires done < |cmds| && cmds[done] == c && At(host, job, t0, MayAll(cmds[done..], next))
    modifies host
    ensures At(host, job, t, MayAll(cmds[done + 1..], next))
  {
    assert cmds[done..][1..] == cmds[done + 1..];
    var ok;
    ok, t := Exec(host, c, job, t0, MayAll(cmds[done..], next));
  }

  /** Every VNI is tried, in order; a failure is logged and the loop goes on. */
  method ApplyVniFilter(host: Host, dev: string, tunnelInfo: seq<VlanTunnelMapping>, ghost job: Job, ghost t0: seq<Attempt>, ghost next: Prog)
    returns (ghost t: seq<Attempt>)
    requires At(host, job, t0, MayAll(VniAdds(dev, FilterVnis(tunnelInfo)), next))
    modifies host
    ensures At(host, job, t, next)
  {
    ghost var cmds := VniAdds(dev, FilterVnis(tunnelInfo));
    ghost var done := 0;
    t := t0;
    for j := 0 to |tunnelInfo|
      invariant done == Offset(tunnelInfo, j) <= |cmds|
      invariant At(host, job, t, MayAll(cmds[done..], next))
    {
      var mapping := tunnelInfo[j];
      var vidEnd := mapping.vid;
      if mapping.vidEnd.Some? {
        vidEnd := mapping.vidEnd.value;
      }
      var i := 0;
      while i <= vidEnd - mapping.vid
        invariant 0 <= i <= Width(mapping)
        invariant done == Offset(tunnelInfo, j) + i <= |cmds|
        invariant At(host, job, t, MayAll(cmds[done..], next))
      {
        VniCommandAt(tunnelInfo, j, i);
        t := ExecNext(host, VniAdd(dev, mapping.vni + i), cmds, done, next, job, t);
        done := done + 1;
        i := i + 1;
      }
    }
    VnisEnd(tunnelInfo);
    assert cmds[done..] == [];
  }

  method ApplyBridgeSlaveSettings(host: Host, dev: string, spec: VxlanSpec, ghost job: Job, ghost t0: seq<Attempt>)
    returns (ok: bool, reason: string, ghost t: seq<Attempt>)
    requires At(host, job, t0, VxlanPorts(dev, spec))
    modifies host
    ensures At(host, job, t, if ok then Finished else Aborted(reason))
  {
    ghost var q := VxlanPorts(dev, spec);
    ok, t := Exec(host, LinkDetail(dev), job, t0, q);
    if !ok {
      return true, "", t;
    }
    ok, t := Exec(host, LinkSet(dev, PortLearning(spec.bridgeLearning)), job, t, q.yes);
    ok := true;
    if spec.portVlan.Some? {
      ok, t := PortVlanPart(host, dev, spec.portVlan.value, job, t);
    }
    reason := "VLANConfigFailed";
  }
}
