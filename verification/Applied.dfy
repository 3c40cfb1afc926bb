/**
 * The settings behind the status: in a stretch of the run in which nothing changes, every CR whose reconcile is
 * served, and whose device can be brought up, has a device with all the settings of its spec at the end of the
 * reconcile, whatever the other workers of the node do to their own devices meanwhile.
 */
module Applied {
  import opened Base
  import opened ApiObjects
  import opened Kernel
  import opened Programs
  import opened Frames
  import opened Protocol
  import opened ProtocolInvariant
  import opened Rank
  import opened AgentRank
  import opened Quiescence
  import opened Goal
  import opened Stretches
  import opened Rounds
  import opened Settings
  import Luck
  import StillAgents

  // What a worker's step does to the links of others

  lemma OwnLeaves(c: Cmd, dev: string, ls: Links, d: string)
    requires Own(c, dev) && CanSucceed(ls, c) && d != dev
    ensures (d in Effect(ls, c) <==> d in ls) && (d in ls ==> Effect(ls, c)[d] == ls[d])
  {
  }

  /** The worker is on no run that touches the link. */
  predicate Spares(e: Env, pc: AgentPc, d: string) {
    pc.ARun? ==> d != pc.task.dev && (d in Devices(e.keys) || Stays(pc.rest, pc.task.dev, {d}))
  }

  lemma CommandLeaves(e: Env, v: AgentView, n: string, k: Kind, d: string)
    requires AgentFits(e, k, v.pc) && v.pc.ARun? && !Ended(v.pc.rest) && !Creates(v) && Spares(e, v.pc, d)
    ensures SameDevice(v.links, AgentGo(v, n, k, true).links, d)
  {
    var c := v.pc.rest.cmd;
    CommandGo(v, n, k);
    CommandModes(e, v, n, k);
    if CanSucceed(v.links, c) {
      if Own(c, v.pc.task.dev) {
        OwnLeaves(c, v.pc.task.dev, v.links, d);
      } else {
        AsideSameDevice(c, v.pc.task.dev, if d in Devices(e.keys) then Devices(e.keys) else {d}, v.links);
      }
    }
  }

  lemma FloodLeaves(ls: Links, c: Cmd, ok: bool, d: string)
    requires c.FdbDel? || c.FdbAppend?
    ensures SameDevice(ls, Try(ls, c, ok), d)
  {
    FloodModes(ls, c, ok);
  }

  /** What the steps about peers do to the links. */
  lemma PeersLinks(v: AgentView, n: string, k: Kind, ok: bool)
    requires AboutPeers(v.pc)
    ensures AgentGo(v, n, k, ok).links
         == if v.pc.AFdbDel? then Try(v.links, FdbDel(v.pc.dev, v.pc.remote.status.localIP), ok)
            else if v.pc.AFdbAppend? then Try(v.links, FdbAppend(v.pc.dev, v.pc.remote.status.localIP), ok)
            else v.links
  {
  }

  lemma PeersLeave(v: AgentView, n: string, k: Kind, ok: bool, d: string)
    requires AboutPeers(v.pc)
    ensures SameDevice(v.links, AgentGo(v, n, k, ok).links, d)
  {
    PeersLinks(v, n, k, ok);
    if v.pc.AFdbDel? {
      FloodLeaves(v.links, FdbDel(v.pc.dev, v.pc.remote.status.localIP), ok, d);
    } else if v.pc.AFdbAppend? {
      FloodLeaves(v.links, FdbAppend(v.pc.dev, v.pc.remote.status.localIP), ok, d);
    }
  }

  lemma RunLeaves(e: Env, v: AgentView, n: string, k: Kind, d: string)
    requires AgentFits(e, k, v.pc) && v.pc.ARun? && !Creates(v) && Spares(e, v.pc, d)
    ensures SameDevice(v.links, AgentGo(v, n, k, true).links, d)
  {
    if Ended(v.pc.rest) {
      EndGo(v, n, k, true);
    } else {
      CommandLeaves(e, v, n, k, d);
    }
  }

  /** A step that creates and deletes no link leaves every link alone that no run of the worker touches. */
  lemma DeviceFrame(e: Env, v: AgentView, n: string, k: Kind, a: AgentAct, d: string)
    requires ViewFits(e, v, n, k) && CalmAct(e, v, k, a) && KeepsModes(v, n, a) && Spares(e, v.pc, d)
    ensures SameDevice(v.links, AgentStep(v, n, k, a).links, d)
  {
    if a.AGo? {
      if v.pc.ARun? {
        RunLeaves(e, v, n, k, d);
      } else if v.pc.ADelLink? {
        DelLinkFalls(e, v, n, k, a.ok, CrKey(k, v.pc.name));
      } else if AboutPeers(v.pc) {
        PeersLeave(v, n, k, a.ok, d);
      } else {
        NoLinksGo(v, n, k, a.ok);
      }
    }
  }

  ghost predicate SparesAll(e: Env, pc: AgentPc, dev: string, mine: set<string>) {
    Spares(e, pc, dev) && forall slave :: slave in mine ==> Spares(e, pc, slave)
  }

  lemma DevicesFrame(e: Env, v: AgentView, n: string, k: Kind, a: AgentAct, dev: string, mine: set<string>)
    requires ViewFits(e, v, n, k) && CalmAct(e, v, k, a) && KeepsModes(v, n, a) && SparesAll(e, v.pc, dev, mine)
    ensures SameWith(v.links, AgentStep(v, n, k, a).links, dev, mine)
  {
    DeviceFrame(e, v, n, k, a, dev);
    forall slave | slave in mine ensures SameDevice(v.links, AgentStep(v, n, k, a).links, slave) {
      DeviceFrame(e, v, n, k, a, slave);
    }
  }

  // The settings of one CR

  predicate Lists(spec: Spec, slave: string) {
    spec.OfUplink? && slave in spec.uplink.bondSlaves
  }

  /** The slaves of a bond that no other stored bond of the node lists. */
  ghost function OwnSlaves(crs: CrStore, key: CrKey): set<string>
    requires key in crs.objs
  {
    if !key.kind.Uplink? || !crs.objs[key].spec.OfUplink? then {}
    else set slave | slave in crs.objs[key].spec.uplink.bondSlaves
                     && forall other :: other in crs.objs && other.kind.Uplink? && HostOf(other) == HostOf(key) && Lists(crs.objs[other].spec, slave) ==> other == key
  }

  ghost predicate SettingsDone(e: Env, key: CrKey, spec: Spec, mine: set<string>, ls: Links) {
    DeviceSet(ls, DevOf(key), spec, e.detected(key, spec), mine)
  }

  /** The links as they will be when the worker is through with its run for this CR, if it is on one. */
  function LinksAhead(key: CrKey, x: Spot): Links {
    if x.pc.ARun? && On(key, x.pc) then EndLinks(x.pc.rest, x.ls) else x.ls
  }

  ghost predicate SetAhead(e: Env, key: CrKey, spec: Spec, mine: set<string>, x: Spot) {
    SettingsDone(e, key, spec, mine, LinksAhead(key, x))
  }

  lemma ProgramSets(e: Env, key: CrKey, spec: Spec, mine: set<string>, ls: Links)
    requires Outcome(e, key, spec, ls).Finished?
    ensures SettingsDone(e, key, spec, mine, EndLinks(ProgramFor(e, key, spec), ls))
  {
    Luck.ProgramEnds(key.kind, DevOf(key), spec, e.resolved(key, spec), e.detected(key, spec), ls);
    match spec
    case OfBridge(b) => BridgeSets(DevOf(key), b, ls);
    case OfUplink(u) => UplinkSets(DevOf(key), u, ls, e.detected(key, spec), mine);
    case OfVxlan(v) => VxlanSets(DevOf(key), v, e.resolved(key, spec), e.detected(key, spec), ls, mine);
  }

  /** A CR that is to be configured, and can be. */
  predicate Configurable(e: Env, key: CrKey, c: Cr, ls: Links) {
    !c.terminating && c.finalizer && Outcome(e, key, c.spec, ls).Finished?
  }

  // The runs of others

  /** The worker of the CR's kind is on no run for another CR that touches these slaves. */
  ghost predicate OffMine(key: CrKey, mine: set<string>, pc: AgentPc) {
    pc.ARun? && !On(key, pc) ==> forall slave :: slave in mine ==> Stays(pc.rest, pc.task.dev, {slave})
  }

  lemma OwnSlavesUnmanaged(e: Env, crs: CrStore, key: CrKey, slave: string)
    requires CrsFit(e, crs) && key in crs.objs && slave in OwnSlaves(crs, key)
    ensures slave !in Devices(e.keys)
  {
    assert SlaveFree(e, crs.objs[key].spec);
  }

  lemma DeviceIsManaged(e: Env, v: AgentView, n: string, k: Kind)
    requires ViewFits(e, v, n, k) && v.pc.ARun?
    ensures CrKey(k, v.pc.task.name) in e.keys && HostOf(CrKey(k, v.pc.task.name)) == n
    ensures v.pc.task.dev == DevOf(CrKey(k, v.pc.task.name)) && v.pc.task.dev in Devices(e.keys)
  {
    HeldKey(v.crs, n, k, v.pc.task.name);
  }

  /** A run for another CR of the kind, or of another kind, spares the device and its own slaves. */
  lemma OthersSpare(e: Env, v: AgentView, n: string, k: Kind, key: CrKey)
    requires ViewFits(e, v, n, k) && key in v.crs.objs && HostOf(key) == n
    requires v.pc.ARun? ==> key != CrKey(k, v.pc.task.name)
    requires key.kind == k ==> OffMine(key, OwnSlaves(v.crs, key), v.pc)
    ensures SparesAll(e, v.pc, DevOf(key), OwnSlaves(v.crs, key))
  {
    if v.pc.ARun? {
      DeviceIsManaged(e, v, n, k);
      OtherDevice(e.keys, key, CrKey(k, v.pc.task.name));
      forall slave | slave in OwnSlaves(v.crs, key) ensures Spares(e, v.pc, slave) {
        OwnSlavesUnmanaged(e, v.crs, key, slave);
      }
    }
  }

  lemma StartOffMine(e: Env, v: AgentView, n: string, k: Kind, a: AgentAct, key: CrKey)
    requires ViewFits(e, v, n, k) && a.AGet? && v.pc.AIdle? && key in v.crs.objs && key.kind == k && HostOf(key) == n
    ensures OffMine(key, OwnSlaves(v.crs, key), AgentStep(v, n, k, a).pc)
  {
    var other, pc' := CrKey(k, a.name), AgentStep(v, n, k, a).pc;
    if pc'.ARun? && other != key {
      NameIsHostAndDev(other);
      forall slave | slave in OwnSlaves(v.crs, key) ensures Stays(pc'.rest, pc'.task.dev, {slave}) {
        assert !Lists(v.crs.objs[other].spec, slave);
        ProgramStays(k, pc'.task.dev, v.crs.objs[other].spec, a.resolved, a.detected, {slave});
      }
    }
  }

  lemma CommandOffMine(v: AgentView, n: string, k: Kind, key: CrKey, mine: set<string>, ok: bool)
    requires v.pc.ARun? && !Ended(v.pc.rest) && OffMine(key, mine, v.pc)
    ensures OffMine(key, mine, AgentGo(v, n, k, ok).pc)
  {
    var attempt := Attempt(v.pc.rest.cmd, ok && CanSucceed(v.links, v.pc.rest.cmd));
    assert AgentGo(v, n, k, ok) == AgentCommand(v, v.pc.task, v.pc.rest, ok);
    if !On(key, v.pc) {
      forall slave | slave in mine ensures Stays(Advance(v.pc.rest, attempt).value, v.pc.task.dev, {slave}) {
        AdvanceStays(v.pc.rest, v.pc.task.dev, {slave}, attempt);
      }
    }
  }

  lemma StepOffMine(e: Env, v: AgentView, n: string, k: Kind, a: AgentAct, key: CrKey)
    requires ViewFits(e, v, n, k) && key in v.crs.objs && key.kind == k && HostOf(key) == n
    requires OffMine(key, OwnSlaves(v.crs, key), v.pc)
    ensures OffMine(key, OwnSlaves(v.crs, key), AgentStep(v, n, k, a).pc)
  {
    if a.AGet? && v.pc.AIdle? {
      StartOffMine(e, v, n, k, a, key);
    } else if a.AGo? {
      if v.pc.ARun? && !Ended(v.pc.rest) {
        CommandOffMine(v, n, k, key, OwnSlaves(v.crs, key), a.ok);
      } else if v.pc.ARun? {
        EndGo(v, n, k, a.ok);
      } else {
        NoRunGo(v, n, k, a.ok);
      }
    }
  }

  // Steps of the CR's own worker

  lemma StartSets(e: Env, v: AgentView, n: string, k: Kind, a: AgentAct, key: CrKey, mine: set<string>)
    requires ViewFits(e, v, n, k) && CalmAct(e, v, k, a) && a.AGet? && v.pc.AIdle? && key == CrKey(k, a.name)
    requires key in v.crs.objs && HostOf(key) == n && Configurable(e, key, v.crs.objs[key], v.links)
    ensures SetAhead(e, key, v.crs.objs[key].spec, mine, SpotOf(AgentStep(v, n, k, a), key))
  {
    NameIsHostAndDev(key);
    ProgramSets(e, key, v.crs.objs[key].spec, mine, v.links);
  }

  lemma CommandSets(e: Env, v: AgentView, n: string, k: Kind, key: CrKey, spec: Spec, mine: set<string>)
    requires v.pc.ARun? && !Ended(v.pc.rest) && SetAhead(e, key, spec, mine, SpotOf(v, key)) && On(key, v.pc)
    ensures SetAhead(e, key, spec, mine, SpotOf(AgentGo(v, n, k, true), key))
  {
    CommandGo(v, n, k);
    AdvanceKeepsEndLinks(v.pc.rest, v.links);
  }

  lemma EndSets(e: Env, v: AgentView, n: string, k: Kind, key: CrKey, spec: Spec, mine: set<string>)
    requires v.pc.ARun? && Ended(v.pc.rest) && SetAhead(e, key, spec, mine, SpotOf(v, key))
    ensures SetAhead(e, key, spec, mine, SpotOf(AgentGo(v, n, k, true), key))
  {
    EndGo(v, n, k, true);
  }

  /** Only a get starts a run. */
  lemma NoRunGo(v: AgentView, n: string, k: Kind, ok: bool)
    requires !v.pc.ARun?
    ensures !AgentGo(v, n, k, ok).pc.ARun?
  {
  }

  lemma OffRunSets(e: Env, v: AgentView, n: string, k: Kind, a: AgentAct, key: CrKey, spec: Spec)
    requires ViewFits(e, v, n, k) && CalmAct(e, v, k, a) && KeepsModes(v, n, a) && key in v.crs.objs && key.kind == k && HostOf(key) == n
    requires OffMine(key, OwnSlaves(v.crs, key), v.pc) && SetAhead(e, key, spec, OwnSlaves(v.crs, key), SpotOf(v, key))
    requires !(v.pc.ARun? && On(key, v.pc)) && !(a.AGet? && a.name == key.name && v.pc.AIdle?)
    ensures SetAhead(e, key, spec, OwnSlaves(v.crs, key), SpotOf(AgentStep(v, n, k, a), key))
  {
    var v', mine := AgentStep(v, n, k, a), OwnSlaves(v.crs, key);
    OthersSpare(e, v, n, k, key);
    DevicesFrame(e, v, n, k, a, DevOf(key), mine);
    StaysOff(v, n, k, a, key);
    SetSame(v.links, v'.links, DevOf(key), spec, e.detected(key, spec), mine);
  }

  lemma StaysOff(v: AgentView, n: string, k: Kind, a: AgentAct, key: CrKey)
    requires !(v.pc.ARun? && On(key, v.pc)) && !(a.AGet? && a.name == key.name && v.pc.AIdle?)
    ensures !(AgentStep(v, n, k, a).pc.ARun? && On(key, AgentStep(v, n, k, a).pc))
  {
    if a.AGo? {
      if v.pc.ARun? {
        if Ended(v.pc.rest) {
          EndGo(v, n, k, a.ok);
        } else {
          assert AgentGo(v, n, k, a.ok) == AgentCommand(v, v.pc.task, v.pc.rest, a.ok);
        }
      } else {
        NoRunGo(v, n, k, a.ok);
      }
    }
  }

  lemma OwnStepSets(e: Env, v: AgentView, n: string, k: Kind, a: AgentAct, key: CrKey)
    requires ViewFits(e, v, n, k) && CalmAct(e, v, k, a) && KeepsModes(v, n, a) && StillAgents.Lasting(a)
    requires key in v.crs.objs && key.kind == k && HostOf(key) == n && Configurable(e, key, v.crs.objs[key], v.links)
    requires (SetAhead(e, key, v.crs.objs[key].spec, OwnSlaves(v.crs, key), SpotOf(v, key)) && OffMine(key, OwnSlaves(v.crs, key), v.pc))
          || (a.AGet? && a.name == key.name && v.pc.AIdle?)
    ensures SetAhead(e, key, v.crs.objs[key].spec, OwnSlaves(v.crs, key), SpotOf(AgentStep(v, n, k, a), key))
  {
    var spec, mine := v.crs.objs[key].spec, OwnSlaves(v.crs, key);
    if a.AGet? && a.name == key.name && v.pc.AIdle? {
      StartSets(e, v, n, k, a, key, mine);
    } else if v.pc.ARun? && On(key, v.pc) {
      if a.AGo? {
        if Ended(v.pc.rest) {
          EndSets(e, v, n, k, key, spec, mine);
        } else {
          CommandSets(e, v, n, k, key, spec, mine);
        }
      }
    } else {
      OffRunSets(e, v, n, k, a, key, spec);
    }
  }

  // Steps of others

  lemma OthersSet(e: Env, key: CrKey, spec: Spec, mine: set<string>, x: Spot, x': Spot)
    requires SetAhead(e, key, spec, mine, x) && SameWith(x.ls, x'.ls, DevOf(key), mine) && x'.pc == x.pc && Keeps(e, key, x.pc)
    ensures SetAhead(e, key, spec, mine, x')
  {
    if x.pc.ARun? && On(key, x.pc) {
      EndLinksSameWith(x.pc.rest, DevOf(key), Devices(e.keys), mine, x.ls, x'.ls);
    }
    SetSame(LinksAhead(key, x), LinksAhead(key, x'), DevOf(key), spec, e.detected(key, spec), mine);
  }

  lemma OtherKindSets(e: Env, v: AgentView, n: string, k: Kind, a: AgentAct, key: CrKey, spec: Spec, x: Spot, x': Spot)
    requires ViewFits(e, v, n, k) && CalmAct(e, v, k, a) && KeepsModes(v, n, a) && key in v.crs.objs && HostOf(key) == n && key.kind != k
    requires SetAhead(e, key, spec, OwnSlaves(v.crs, key), x) && Keeps(e, key, x.pc)
    requires x.ls == v.links && x'.ls == AgentStep(v, n, k, a).links && x'.pc == x.pc
    ensures SetAhead(e, key, spec, OwnSlaves(v.crs, key), x')
  {
    OthersSpare(e, v, n, k, key);
    DevicesFrame(e, v, n, k, a, DevOf(key), OwnSlaves(v.crs, key));
    OthersSet(e, key, spec, OwnSlaves(v.crs, key), x, x');
  }

  lemma OtherStepSets(e: Env, s: State, n: string, k: Kind, a: AgentAct, key: CrKey, spec: Spec)
    requires Fits(e, s) && Calm(e, s, OfAgent(n, k, a)) && KeepsModes(AgentViewOf(s, n, k), n, a)
    requires key in s.crs.objs && (HostOf(key) != n || key.kind != k) && SetAhead(e, key, spec, OwnSlaves(s.crs, key), SpotAt(s, key))
    ensures SetAhead(e, key, spec, OwnSlaves(s.crs, key), SpotAt(Step(s, OfAgent(n, k, a)), key))
  {
    var v, s' := AgentViewOf(s, n, k), Step(s, OfAgent(n, k, a));
    AgentViewFits(e, s, n, k);
    SpotAfterStep(s, n, k, a, key);
    if HostOf(key) == n {
      assert AgentFits(e, key.kind, AgentOf(s, n, key.kind)) && key == CrKey(key.kind, key.name);
      OtherKindSets(e, v, n, k, a, key, spec, SpotAt(s, key), SpotAt(s', key));
    }
  }

  // Any step of a stretch in which nothing changes

  ghost predicate OnItsWay(e: Env, s: State, key: CrKey) {
    && key in s.crs.objs && SetAhead(e, key, s.crs.objs[key].spec, OwnSlaves(s.crs, key), SpotAt(s, key))
    && OffMine(key, OwnSlaves(s.crs, key), AgentOf(s, HostOf(key), key.kind))
  }

  lemma SameSlaves(crs: CrStore, crs': CrStore, key: CrKey)
    requires crs'.objs == crs.objs && key in crs.objs
    ensures OwnSlaves(crs', key) == OwnSlaves(crs, key)
  {
  }

  lemma OwnStepOnItsWay(e: Env, s: State, n: string, k: Kind, a: AgentAct, key: CrKey)
    requires Fits(e, s) && Calm(e, s, OfAgent(n, k, a)) && KeepsModes(AgentViewOf(s, n, k), n, a) && StillAgents.Lasting(a)
    requires key in s.crs.objs && HostOf(key) == n && key.kind == k && Configurable(e, key, s.crs.objs[key], LinksOf(s, n))
    requires OnItsWay(e, s, key) || (a.AGet? && a.name == key.name && AgentOf(s, n, k).AIdle?)
    requires Step(s, OfAgent(n, k, a)).crs.objs == s.crs.objs
    ensures OnItsWay(e, Step(s, OfAgent(n, k, a)), key)
  {
    var v := AgentViewOf(s, n, k);
    AgentViewFits(e, s, n, k);
    StepView(s, n, k, a);
    OwnStepSets(e, v, n, k, a, key);
    StepOffMine(e, v, n, k, a, key);
    SpotAfterStep(s, n, k, a, key);
    SameSlaves(s.crs, Step(s, OfAgent(n, k, a)).crs, key);
  }

  lemma OtherStepOnItsWay(e: Env, s: State, n: string, k: Kind, a: AgentAct, key: CrKey)
    requires Fits(e, s) && Calm(e, s, OfAgent(n, k, a)) && KeepsModes(AgentViewOf(s, n, k), n, a)
    requires OnItsWay(e, s, key) && (HostOf(key) != n || key.kind != k)
    requires Step(s, OfAgent(n, k, a)).crs.objs == s.crs.objs
    ensures OnItsWay(e, Step(s, OfAgent(n, k, a)), key)
  {
    OtherStepSets(e, s, n, k, a, key, s.crs.objs[key].spec);
    SpotAfterStep(s, n, k, a, key);
    SameSlaves(s.crs, Step(s, OfAgent(n, k, a)).crs, key);
  }

  lemma StepSets(e: Env, s: State, a: Action, key: CrKey)
    requires Fits(e, s) && Calm(e, s, a) && !Changed(s, Step(s, a))
    requires key in s.crs.objs && Configurable(e, key, s.crs.objs[key], LinksOf(s, HostOf(key)))
    requires a.OfAgent? && a.node == HostOf(key) && a.kind == key.kind ==> StillAgents.Lasting(a.aact)
    requires OnItsWay(e, s, key)
          || (a.OfAgent? && a.node == HostOf(key) && a.kind == key.kind && a.aact.AGet? && a.aact.name == key.name && AgentOf(s, a.node, a.kind).AIdle?)
    ensures OnItsWay(e, Step(s, a), key)
  {
    if a.OfManager? {
      SpotUnderManager(s, a.kind, a.mact, key);
      SameSlaves(s.crs, Step(s, a).crs, key);
    } else {
      var n, k, v := a.node, a.kind, AgentViewOf(s, a.node, a.kind);
      AgentViewFits(e, s, n, k);
      StepView(s, n, k, a.aact);
      assert Modes(LinksOf(Step(s, a), n)) == Modes(LinksOf(s, n));
      StillAgents.StillKeepsModes(e, v, n, k, a.aact);
      if HostOf(key) == n && key.kind == k {
        OwnStepOnItsWay(e, s, n, k, a.aact, key);
      } else {
        OtherStepOnItsWay(e, s, n, k, a.aact, key);
      }
    }
  }

  lemma ConfigurableStays(e: Env, s: State, s': State, key: CrKey)
    requires !Changed(s, s') && key in s.crs.objs
    ensures Configurable(e, key, s'.crs.objs[key], LinksOf(s', HostOf(key))) <==> Configurable(e, key, s.crs.objs[key], LinksOf(s, HostOf(key)))
  {
    var n := HostOf(key);
    assert Modes(LinksOf(s', n)) == Modes(LinksOf(s, n));
    OutcomeByModes(e, key, s.crs.objs[key].spec, LinksOf(s, n), LinksOf(s', n));
  }

  // Rounds

  ghost predicate ConfigurableRound(e: Env, s: State, seg: seq<Action>, key: CrKey, i: nat, j: nat) {
    AgentRound(e, s, seg, key, i, j) && Configurable(e, key, s.crs.objs[key], LinksOf(s, HostOf(key)))
  }

  /** After the get the settings are on their way. */
  ghost predicate WayAt(e: Env, s: State, seg: seq<Action>, key: CrKey, i: nat, m: nat) {
    m <= |seg| && (i < m ==> OnItsWay(e, StateAt(s, seg, m), key))
  }

  lemma WayNext(e: Env, s: State, seg: seq<Action>, key: CrKey, i: nat, j: nat, m: nat)
    requires ConfigurableRound(e, s, seg, key, i, j) && i <= m < j && WayAt(e, s, seg, key, i, m)
    ensures WayAt(e, s, seg, key, i, m + 1)
  {
    var now, next := QuietStep(e, s, seg, m);
    ConfigurableStays(e, s, now, key);
    StepSets(e, now, seg[m], key);
  }

  lemma WayGoesOn(e: Env, s: State, seg: seq<Action>, key: CrKey, i: nat, j: nat, p: nat -> bool)
    requires ConfigurableRound(e, s, seg, key, i, j)
    requires p == ((m: nat) => WayAt(e, s, seg, key, i, m))
    ensures forall m: nat :: i <= m < j ==> Next(p, m)
  {
    forall m: nat | i <= m < j ensures Next(p, m) {
      if p(m) {
        WayNext(e, s, seg, key, i, j, m);
      }
    }
  }

  /**
   * In a stretch in which nothing changes, the end of every served reconcile of a CR whose device can be brought up
   * finds the device with all the settings of the CR's spec, and a bond with all its slaves that no other bond lists.
   */
  lemma QuietAgentRoundSets(e: Env, s: State, seg: seq<Action>, key: CrKey, i: nat, j: nat)
    requires AgentRound(e, s, seg, key, i, j) && Outcome(e, key, s.crs.objs[key].spec, LinksOf(s, HostOf(key))).Finished?
    ensures SettingsDone(e, key, s.crs.objs[key].spec, OwnSlaves(s.crs, key), LinksOf(StateAt(s, seg, j), HostOf(key)))
  {
    QuietAgentRoundIsDone(e, s, seg, key, i, j);
    var way := (m: nat) => WayAt(e, s, seg, key, i, m);
    WayGoesOn(e, s, seg, key, i, j, way);
    Chain(way, i, j, j);
    SpecStays(s, seg, key, j);
    SameSlaves(s.crs, StateAt(s, seg, j).crs, key);
  }

  lemma SpecStays(s: State, seg: seq<Action>, key: CrKey, j: nat)
    requires Changes(s, seg) == 0 && j <= |seg|
    ensures StateAt(s, seg, j).crs.objs == s.crs.objs
  {
    QuietPrefix(s, seg, j);
    NothingChanges(s, seg[..j]);
  }
}
