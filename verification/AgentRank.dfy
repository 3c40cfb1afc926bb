/**
 * What one step of an agent does to the ranks. A step that creates or deletes no link never raises the rank of a
 * CR of its own node, and lowers it when it writes the CR or its Node label; one that does pays with the skeleton.
 */
module AgentRank {
  import opened Base
  import opened ApiObjects
  import opened ApiStore
  import opened Names
  import opened NodeLabels
  import opened Kernel
  import opened Programs
  import opened Frames
  import opened Protocol
  import opened ProtocolInvariant
  import opened Rank
  import L = Labelling

  /** Each name in play belongs to a node, and is used by one kind only: kinds use different devices. */
  predicate KeysFit(keys: set<CrKey>) {
    && (forall key :: key in keys ==> OwnerOf(key.name).Some?)
    && forall k1, k2 :: k1 in keys && k2 in keys && k1.name == k2.name ==> k1 == k2
  }

  lemma OtherDevice(keys: set<CrKey>, key: CrKey, other: CrKey)
    requires KeysFit(keys) && key in keys && other in keys && key != other && HostOf(key) == HostOf(other)
    ensures DevOf(key) != DevOf(other)
  {
    NameIsHostAndDev(key);
    NameIsHostAndDev(other);
  }

  /** A worker's device is its CR's, and its program keeps to that device; only VXLANs have peers. */
  ghost predicate AgentFits(e: Env, k: Kind, pc: AgentPc) {
    match pc
    case ARun(t, rest) =>
      t.dev == DevOf(CrKey(k, t.name)) && Stays(rest, t.dev, Devices(e.keys)) && (!k.Uplink? ==> KeepsToItself(rest, t.dev))
    case ALabel(t) => t.dev == DevOf(CrKey(k, t.name))
    case ALabelPatch(t, _) => t.dev == DevOf(CrKey(k, t.name))
    case APatchIP(t) => t.ip != ""
    case AUnlabel(name, _, dev) => dev == DevOf(CrKey(k, name))
    case AUnlabelPatch(name, _, dev, _) => dev == DevOf(CrKey(k, name))
    case AListPeers(_) => k.Vxlan?
    case APeers(_, _) => k.Vxlan?
    case AFdbDel(_, _, _) => k.Vxlan?
    case AFdbAppend(_, _, _) => k.Vxlan?
    case _ => true
  }

  /** No bond takes a device of ours as its slave. */
  predicate SlaveFree(e: Env, spec: Spec) {
    spec.OfUplink? ==> forall slave :: slave in spec.uplink.bondSlaves ==> slave !in Devices(e.keys)
  }

  ghost predicate CrsFit(e: Env, crs: CrStore) {
    forall key :: key in crs.objs ==> key in e.keys && SlaveFree(e, crs.objs[key].spec)
  }

  /** The worker of node n and kind k, with all that is known of its view. */
  ghost predicate ViewFits(e: Env, v: AgentView, n: string, k: Kind) {
    && CrsOk(v.crs) && KeysFit(e.keys) && CrsFit(e, v.crs) && AgentOk(v.crs, n, k, v.pc) && AgentFits(e, k, v.pc)
    && L.Current(v.labels, k, v.pc)
  }

  /** The two lookups have constant answers, and configuring commands fail only when they cannot succeed. */
  predicate CalmAct(e: Env, v: AgentView, k: Kind, a: AgentAct) {
    match a
    case AGet(name, resolved, detected) =>
      var key := CrKey(k, name);
      v.pc.AIdle? && key in v.crs.objs ==>
        resolved == e.resolved(key, v.crs.objs[key].spec) && detected == e.detected(key, v.crs.objs[key].spec)
    case AGo(ok) => v.pc.ARun? ==> ok
    case _ => true
  }

  function SpotOf(v: AgentView, key: CrKey): Spot {
    Spot(Lookup(v.crs.objs, key), v.links, v.labels, v.pc)
  }

  // Steps about another CR, or about none

  lemma OffKeyFalls(e: Env, v: AgentView, v': AgentView, key: CrKey)
    requires Lookup(v'.crs.objs, key) == Lookup(v.crs.objs, key) && Modes(v'.links) == Modes(v.links)
    requires OwnLabel(key, v'.labels) == OwnLabel(key, v.labels) && !On(key, v.pc) && !On(key, v'.pc)
    ensures Falls(e, key, SpotOf(v, key), SpotOf(v', key))
  {
    RestFalls(e, key, SpotOf(v, key), SpotOf(v', key));
  }

  /** The name of the CR a worker is busy with. */
  function Subject(pc: AgentPc): Option<string> {
    match pc
    case AIdle => None
    case AAddFinalizer(name, _) => Some(name)
    case ADelLink(name, _) => Some(name)
    case AUnlabel(name, _, _) => Some(name)
    case AUnlabelPatch(name, _, _, _) => Some(name)
    case ADropFinalizer(name, _) => Some(name)
    case AListPeers(_) => None
    case APeers(_, _) => None
    case AFdbDel(_, _, _) => None
    case AFdbAppend(_, _, _) => None
    case _ => Some(pc.task.name)
  }

  lemma HeldKey(crs: CrStore, n: string, k: Kind, name: string)
    requires CrsOk(crs) && Held(crs, n, k, name)
    ensures HostOf(CrKey(k, name)) == n && OwnerOf(name) == Some(n) && ParseDeviceName(name, n) == Some(DevOf(CrKey(k, name)))
  {
    NameIsHostAndDev(CrKey(k, name));
  }

  // Writes of CRs

  lemma AddFinalizerFalls(e: Env, v: AgentView, n: string, k: Kind, ok: bool, key: CrKey)
    requires ViewFits(e, v, n, k) && v.pc.AAddFinalizer?
    ensures Falls(e, key, SpotOf(v, key), SpotOf(AgentGo(v, n, k, ok), key))
  {
    var v' := AgentGo(v, n, k, ok);
    assert v'.links == v.links && v'.labels == v.labels && v'.pc == AIdle;
    if v'.crs != v.crs && key == CrKey(k, v.pc.name) {
      FinalizerFalls(e, key, v.crs.objs[key], v'.crs.objs[key], SpotOf(v, key), SpotOf(v', key));
    } else {
      OffKeyFalls(e, v, v', key);
    }
  }

  lemma DropFinalizerFalls(e: Env, v: AgentView, n: string, k: Kind, ok: bool, key: CrKey)
    requires ViewFits(e, v, n, k) && v.pc.ADropFinalizer?
    ensures Falls(e, key, SpotOf(v, key), SpotOf(AgentGo(v, n, k, ok), key))
  {
    var v' := AgentGo(v, n, k, ok);
    assert v'.links == v.links && v'.labels == v.labels && v'.pc == AIdle;
    if v'.crs != v.crs && key == CrKey(k, v.pc.name) {
      EraseFalls(e, key, v.crs.objs[key], SpotOf(v, key), SpotOf(v', key));
    } else {
      OffKeyFalls(e, v, v', key);
    }
  }

  /** A report of the condition, with the store it leads to. */
  lemma ReportGo(v: AgentView, n: string, k: Kind, ok: bool)
    requires v.pc.AReady? || v.pc.AFailed?
    ensures AgentGo(v, n, k, ok)
         == v.(crs := Or(PatchReady(v.crs, CrKey(k, v.pc.task.name), v.pc.task.copy, Report(v.pc)), v.crs), pc := AIdle)
  {
  }

  lemma ReportFalls(e: Env, v: AgentView, n: string, k: Kind, ok: bool, key: CrKey)
    requires ViewFits(e, v, n, k) && (v.pc.AReady? || v.pc.AFailed?)
    ensures Falls(e, key, SpotOf(v, key), SpotOf(AgentGo(v, n, k, ok), key))
  {
    var v' := AgentGo(v, n, k, ok);
    ReportGo(v, n, k, ok);
    if key == CrKey(k, v.pc.task.name) {
      ReadyFalls(e, key, v.crs.objs[key], v'.crs.objs[key], SpotOf(v, key), SpotOf(v', key));
    } else if v.pc.task.name != key.name {
      OffKeyFalls(e, v, v', key);
    } else {
      assert Lookup(v'.crs.objs, key) == Lookup(v.crs.objs, key);
      RestFalls(e, key, SpotOf(v, key), SpotOf(v', key));
    }
  }

  lemma PatchIPGo(v: AgentView, k: Kind, t: Task)
    requires CrKey(k, t.name) in v.crs.objs
    ensures var crs' := PatchLocalIP(v.crs, CrKey(k, t.name), t.ip).value;
            AgentPatchIP(v, k, t, true) == v.(crs := crs', pc := AReady(t.(copy := crs'.objs[CrKey(k, t.name)])))
    ensures AgentPatchIP(v, k, t, false) == v.(pc := AReady(t.(copy := t.copy.(status := t.copy.status.(localIP := t.ip)))))
  {
  }

  lemma PatchIPFalls(e: Env, v: AgentView, n: string, k: Kind, ok: bool, key: CrKey)
    requires ViewFits(e, v, n, k) && v.pc.APatchIP? && key.kind == k
    ensures Falls(e, key, SpotOf(v, key), SpotOf(AgentGo(v, n, k, ok), key))
  {
    var t, v' := v.pc.task, AgentGo(v, n, k, ok);
    assert v' == AgentPatchIP(v, k, t, ok);
    PatchIPGo(v, k, t);
    if key.name != t.name {
      OffKeyFalls(e, v, v', key);
    } else if ok {
      IPFalls(e, key, t, v.crs.objs[key], v'.crs.objs[key], SpotOf(v, key), SpotOf(v', key));
    } else {
      RestFalls(e, key, SpotOf(v, key), SpotOf(v', key));
    }
  }

  // Node labels

  /** A patch that arrives sets or removes exactly the label of the worker's own CR. */
  lemma LabelEditSeen(labels: NodeMap, edit: Edit, key: CrKey, other: CrKey)
    requires edit.key == DeviceLabel(key.kind, DevOf(key))
    ensures OwnLabel(key, Apply(labels, edit)) == edit.value
    ensures key.kind != other.kind || DevOf(key) != DevOf(other) ==> OwnLabel(other, Apply(labels, edit)) == OwnLabel(other, labels)
    ensures Apply(labels, edit) != labels ==> OwnLabel(key, labels) != edit.value
  {
    DeviceLabelInjective(key.kind, DevOf(key), other.kind, DevOf(other));
  }

  /** Reading the Node, or failing to. */
  lemma ReadNodeGo(v: AgentView, n: string, k: Kind, ok: bool)
    requires v.pc.ALabel? || v.pc.AUnlabel?
    ensures AgentGo(v, n, k, ok) == v.(pc := AgentGo(v, n, k, ok).pc)
    ensures v.pc.ALabel? ==> AgentGo(v, n, k, ok).pc == if ok then ALabelPatch(v.pc.task, v.labels) else AfterLabel(k, v.pc.task)
    ensures v.pc.AUnlabel? ==> !HasTask(AgentGo(v, n, k, ok).pc)
  {
  }

  lemma ReadNodeFalls(e: Env, v: AgentView, n: string, k: Kind, ok: bool, key: CrKey)
    requires v.pc.ALabel? || v.pc.AUnlabel?
    ensures Falls(e, key, SpotOf(v, key), SpotOf(AgentGo(v, n, k, ok), key))
  {
    ReadNodeGo(v, n, k, ok);
    RestFalls(e, key, SpotOf(v, key), SpotOf(v.(pc := AgentGo(v, n, k, ok).pc), key));
  }

  lemma LabelPatchFalls(e: Env, v: AgentView, n: string, k: Kind, ok: bool, key: CrKey)
    requires ViewFits(e, v, n, k) && v.pc.ALabelPatch? && key in e.keys && HostOf(key) == n && key.kind == k
    ensures Falls(e, key, SpotOf(v, key), SpotOf(AgentGo(v, n, k, ok), key))
  {
    var v', t := AgentGo(v, n, k, ok), v.pc.task;
    var own := CrKey(k, t.name);
    LabelGo(v, n, k, ok);
    L.AgentLabels(v, n, k, AGo(ok));
    HeldKey(v.crs, n, k, t.name);
    LabelEditSeen(v.labels, LabelEdit(k, t.dev, LabelValue(t.spec)), own, key);
    if key != own {
      OtherDevice(e.keys, key, own);
      OffKeyFalls(e, v, v', key);
    } else {
      LabelFalls(e, key, t, v.crs.objs[key], SpotOf(v, key), SpotOf(v', key));
    }
  }

  lemma UnlabelPatchFalls(e: Env, v: AgentView, n: string, k: Kind, ok: bool, key: CrKey)
    requires ViewFits(e, v, n, k) && v.pc.AUnlabelPatch? && key in e.keys && HostOf(key) == n && key.kind == k
    ensures Falls(e, key, SpotOf(v, key), SpotOf(AgentGo(v, n, k, ok), key))
  {
    var v' := AgentGo(v, n, k, ok);
    var own := CrKey(k, v.pc.name);
    LabelGo(v, n, k, ok);
    L.AgentLabels(v, n, k, AGo(ok));
    HeldKey(v.crs, n, k, v.pc.name);
    LabelEditSeen(v.labels, LabelEdit(k, v.pc.dev, ""), own, key);
    if key != own {
      OtherDevice(e.keys, key, own);
      OffKeyFalls(e, v, v', key);
    } else {
      UnlabelFalls(e, key, v.crs.objs[key], SpotOf(v, key), SpotOf(v', key));
    }
  }

  // Commands

  lemma EndGo(v: AgentView, n: string, k: Kind, ok: bool)
    requires v.pc.ARun? && Ended(v.pc.rest)
    ensures AgentGo(v, n, k, ok) == v.(pc := if v.pc.rest.Finished? then ALabel(v.pc.task) else AFailed(v.pc.task, v.pc.rest.reason))
  {
  }

  lemma EndGoFalls(e: Env, v: AgentView, n: string, k: Kind, ok: bool, key: CrKey)
    requires v.pc.ARun? && Ended(v.pc.rest)
    ensures Falls(e, key, SpotOf(v, key), SpotOf(AgentGo(v, n, k, ok), key))
  {
    EndGo(v, n, k, ok);
    RestFalls(e, key, SpotOf(v, key), SpotOf(AgentGo(v, n, k, ok), key));
  }

  lemma CommandGo(v: AgentView, n: string, k: Kind)
    requires v.pc.ARun? && !Ended(v.pc.rest)
    ensures var a := Attempt(v.pc.rest.cmd, CanSucceed(v.links, v.pc.rest.cmd));
            && Advance(v.pc.rest, a).Some?
            && AgentGo(v, n, k, true) == v.(links := Try(v.links, v.pc.rest.cmd, true),
                                            pc := ARun(v.pc.task.(trace := v.pc.task.trace + [a]), Advance(v.pc.rest, a).value))
  {
    assert AgentGo(v, n, k, true) == AgentCommand(v, v.pc.task, v.pc.rest, true);
  }

  predicate Creates(v: AgentView) {
    v.pc.ARun? && !Ended(v.pc.rest) && v.pc.rest.cmd.LinkAdd? && CanSucceed(v.links, v.pc.rest.cmd)
  }

  lemma CommandModes(e: Env, v: AgentView, n: string, k: Kind)
    requires AgentFits(e, k, v.pc) && v.pc.ARun? && !Ended(v.pc.rest) && !Creates(v)
    ensures var v' := AgentGo(v, n, k, true);
            && Modes(v'.links) == Modes(v.links)
            && forall d :: d in Devices(e.keys) && d != v.pc.task.dev ==> MasterOf(v'.links, d) == MasterOf(v.links, d)
  {
    CommandGo(v, n, k);
    if CanSucceed(v.links, v.pc.rest.cmd) {
      CommandFrame(v.pc.rest, v.pc.task.dev, Devices(e.keys), v.links);
    }
  }

  /** A command keeps a current run current, as long as it creates no link. */
  lemma CommandDebt(e: Env, v: AgentView, n: string, k: Kind, key: CrKey)
    requires v.pc.ARun? && !Ended(v.pc.rest) && Modes(AgentGo(v, n, k, true).links) == Modes(v.links)
    ensures Debt(e, key, SpotOf(AgentGo(v, n, k, true), key)) == Debt(e, key, SpotOf(v, key))
    ensures Adding(key, AgentGo(v, n, k, true).pc) ==> Adding(key, v.pc)
  {
    CommandGo(v, n, k);
    AdvanceKeepsEnd(v.pc.rest, v.links);
    if key in v.crs.objs {
      OutcomeByModes(e, key, v.crs.objs[key].spec, v.links, AgentGo(v, n, k, true).links);
    }
  }

  lemma CommandFalls(e: Env, v: AgentView, n: string, k: Kind, key: CrKey)
    requires AgentFits(e, k, v.pc) && v.pc.ARun? && !Ended(v.pc.rest) && !Creates(v)
    ensures Falls(e, key, SpotOf(v, key), SpotOf(AgentGo(v, n, k, true), key))
  {
    CommandModes(e, v, n, k);
    CommandDebt(e, v, n, k, key);
    CommandGo(v, n, k);
    RestFalls(e, key, SpotOf(v, key), SpotOf(AgentGo(v, n, k, true), key));
  }

  /** A created link: the device of the worker's own CR, which was missing. */
  lemma CreationView(e: Env, v: AgentView, n: string, k: Kind)
    requires AgentFits(e, k, v.pc) && Creates(v)
    ensures var v' := AgentGo(v, n, k, true); var dev := DevOf(CrKey(k, v.pc.task.name));
            && v'.crs == v.crs && v'.labels == v.labels && dev !in v.links && dev in v'.links
            && forall d :: d != dev ==> (d in v'.links <==> d in v.links)
  {
    CommandGo(v, n, k);
  }

  // Teardown

  lemma DelLinkGo(v: AgentView, n: string, k: Kind, ok: bool)
    requires v.pc.ADelLink? && ParseDeviceName(v.pc.name, n).Some?
    ensures var dev := ParseDeviceName(v.pc.name, n).value;
            AgentGo(v, n, k, ok) == v.(links := Try(v.links, LinkDel(dev), ok), pc := AUnlabel(v.pc.name, v.pc.copy, dev))
  {
  }

  predicate Deletes(v: AgentView, n: string, ok: bool) {
    ok && v.pc.ADelLink? && ParseDeviceName(v.pc.name, n).Some? && ParseDeviceName(v.pc.name, n).value in v.links
  }

  lemma DelLinkFalls(e: Env, v: AgentView, n: string, k: Kind, ok: bool, key: CrKey)
    requires ViewFits(e, v, n, k) && v.pc.ADelLink? && !Deletes(v, n, ok)
    ensures AgentGo(v, n, k, ok).links == v.links
    ensures Falls(e, key, SpotOf(v, key), SpotOf(AgentGo(v, n, k, ok), key))
  {
    HeldKey(v.crs, n, k, v.pc.name);
    DelLinkGo(v, n, k, ok);
    OffKeyFalls(e, v, AgentGo(v, n, k, ok), key);
  }

  lemma DeletionView(e: Env, v: AgentView, n: string, k: Kind)
    requires ViewFits(e, v, n, k) && Deletes(v, n, true)
    ensures var v' := AgentGo(v, n, k, true); var dev := DevOf(CrKey(k, v.pc.name));
            && v'.crs == v.crs && v'.labels == v.labels && v'.pc.AUnlabel? && dev in v.links && dev !in v'.links
            && forall d :: d != dev ==> (d in v'.links <==> d in v.links)
  {
    HeldKey(v.crs, n, k, v.pc.name);
    DelLinkGo(v, n, k, true);
  }

  // Peers

  predicate AboutPeers(pc: AgentPc) {
    pc.AListPeers? || pc.APeers? || pc.AFdbDel? || pc.AFdbAppend?
  }

  lemma FloodModes(ls: Links, c: Cmd, ok: bool)
    requires c.FdbDel? || c.FdbAppend?
    ensures Modes(Try(ls, c, ok)) == Modes(ls) && forall d :: MasterOf(Try(ls, c, ok), d) == MasterOf(ls, d)
  {
  }

  lemma PeersGo(v: AgentView, n: string, k: Kind, ok: bool)
    requires AboutPeers(v.pc)
    ensures var v' := AgentGo(v, n, k, ok);
            && v'.crs == v.crs && v'.labels == v.labels && !HasTask(v'.pc)
            && Modes(v'.links) == Modes(v.links) && forall d :: MasterOf(v'.links, d) == MasterOf(v.links, d)
  {
    if v.pc.AFdbDel? {
      FloodModes(v.links, FdbDel(v.pc.dev, v.pc.remote.status.localIP), ok);
    } else if v.pc.AFdbAppend? {
      FloodModes(v.links, FdbAppend(v.pc.dev, v.pc.remote.status.localIP), ok);
    }
  }

  lemma PeersFall(e: Env, v: AgentView, n: string, k: Kind, ok: bool, key: CrKey)
    requires AboutPeers(v.pc)
    ensures Falls(e, key, SpotOf(v, key), SpotOf(AgentGo(v, n, k, ok), key))
  {
    PeersGo(v, n, k, ok);
    OffKeyFalls(e, v, AgentGo(v, n, k, ok), key);
  }

  // Any step

  lemma GetFalls(e: Env, v: AgentView, n: string, k: Kind, a: AgentAct, key: CrKey)
    requires ViewFits(e, v, n, k) && CalmAct(e, v, k, a) && a.AGet? && v.pc.AIdle? && HostOf(key) == n && key.kind == k
    ensures Falls(e, key, SpotOf(v, key), SpotOf(AgentStep(v, n, k, a), key))
  {
    var v' := AgentStep(v, n, k, a);
    var own := CrKey(k, a.name);
    if own in v.crs.objs && NodeOf(v.crs.objs[own]) == n {
      NameIsHostAndDev(own);
    }
    if HasTask(v'.pc) && key == own {
      StartFalls(e, key, v.crs.objs[key], SpotOf(v, key), SpotOf(v', key));
    } else {
      OffKeyFalls(e, v, v', key);
    }
  }

  /** The step neither creates nor deletes a link. */
  predicate KeepsModes(v: AgentView, n: string, a: AgentAct) {
    a.AGo? ==> !Creates(v) && !Deletes(v, n, a.ok)
  }

  lemma GoFalls(e: Env, v: AgentView, n: string, k: Kind, ok: bool, key: CrKey)
    requires ViewFits(e, v, n, k) && CalmAct(e, v, k, AGo(ok)) && KeepsModes(v, n, AGo(ok))
    requires key in e.keys && HostOf(key) == n && key.kind == k
    ensures Falls(e, key, SpotOf(v, key), SpotOf(AgentGo(v, n, k, ok), key))
  {
    match v.pc
    case AIdle => OffKeyFalls(e, v, v, key);
    case AAddFinalizer(_, _) => AddFinalizerFalls(e, v, n, k, ok, key);
    case ARun(_, rest) => if Ended(rest) { EndGoFalls(e, v, n, k, ok, key); } else { CommandFalls(e, v, n, k, key); }
    case AFailed(_, _) => ReportFalls(e, v, n, k, ok, key);
    case ALabel(_) => ReadNodeFalls(e, v, n, k, ok, key);
    case ALabelPatch(_, _) => LabelPatchFalls(e, v, n, k, ok, key);
    case APatchIP(_) => PatchIPFalls(e, v, n, k, ok, key);
    case AReady(_) => ReportFalls(e, v, n, k, ok, key);
    case ADelLink(_, _) => DelLinkFalls(e, v, n, k, ok, key);
    case AUnlabel(_, _, _) => ReadNodeFalls(e, v, n, k, ok, key);
    case AUnlabelPatch(_, _, _, _) => UnlabelPatchFalls(e, v, n, k, ok, key);
    case ADropFinalizer(_, _) => DropFinalizerFalls(e, v, n, k, ok, key);
    case _ => PeersFall(e, v, n, k, ok, key);
  }

  lemma TakeFalls(e: Env, v: AgentView, n: string, name: string, ok: bool, key: CrKey)
    ensures Falls(e, key, SpotOf(v, key), SpotOf(v.(pc := AgentTake(v, n, name, ok)), key))
  {
    RestFalls(e, key, SpotOf(v, key), SpotOf(v.(pc := AgentTake(v, n, name, ok)), key));
  }

  lemma CrashFalls(e: Env, v: AgentView, key: CrKey)
    ensures Falls(e, key, SpotOf(v, key), SpotOf(v.(pc := AIdle), key))
  {
    RestFalls(e, key, SpotOf(v, key), SpotOf(v.(pc := AIdle), key));
  }

  /** A step of an agent, as seen by a CR of its own node and kind. */
  lemma StepFalls(e: Env, v: AgentView, n: string, k: Kind, a: AgentAct, key: CrKey)
    requires ViewFits(e, v, n, k) && CalmAct(e, v, k, a) && KeepsModes(v, n, a)
    requires key in e.keys && HostOf(key) == n && key.kind == k
    ensures Falls(e, key, SpotOf(v, key), SpotOf(AgentStep(v, n, k, a), key))
  {
    match a
    case AGo(ok) => GoFalls(e, v, n, k, ok, key);
    case AGet(_, _, _) => if v.pc.AIdle? { GetFalls(e, v, n, k, a, key); } else { RestFalls(e, key, SpotOf(v, key), SpotOf(v, key)); }
    case ATake(name, ok) => TakeFalls(e, v, n, name, ok, key);
    case ACrash => CrashFalls(e, v, key);
  }

  // What the others notice

  /** Neither the links and the master nor the Node label of another kind's CR. */
  ghost predicate Unnoticed(key: CrKey, v: AgentView, v': AgentView) {
    Alike(v.links, v'.links, DevOf(key)) && OwnLabel(key, v'.labels) == OwnLabel(key, v.labels)
  }

  lemma OtherLabelKept(labels: NodeMap, edit: Edit, k: Kind, dev: string, key: CrKey)
    requires edit.key == DeviceLabel(k, dev) && key.kind != k
    ensures OwnLabel(key, Apply(labels, edit)) == OwnLabel(key, labels)
  {
    DeviceLabelInjective(k, dev, key.kind, DevOf(key));
  }

  lemma LabelsUnnoticed(e: Env, v: AgentView, n: string, k: Kind, a: AgentAct, key: CrKey)
    requires ViewFits(e, v, n, k) && key.kind != k
    ensures OwnLabel(key, AgentStep(v, n, k, a).labels) == OwnLabel(key, v.labels)
  {
    L.AgentLabels(v, n, k, a);
    var p := L.PendingOf(k, v.pc);
    if p.Some? {
      var dev := L.PendingIsOwn(k, v.pc);
      OtherLabelKept(v.labels, p.value.edit, k, dev, key);
    }
  }

  lemma NoLinksGo(v: AgentView, n: string, k: Kind, ok: bool)
    requires !v.pc.ARun? && !v.pc.ADelLink? && !AboutPeers(v.pc)
    ensures AgentGo(v, n, k, ok).links == v.links
  {
  }

  lemma GoLinks(e: Env, v: AgentView, n: string, k: Kind, ok: bool)
    requires ViewFits(e, v, n, k) && CalmAct(e, v, k, AGo(ok)) && KeepsModes(v, n, AGo(ok))
    ensures Modes(AgentGo(v, n, k, ok).links) == Modes(v.links)
    ensures forall d :: d in Devices(e.keys) && (v.pc.ARun? ==> d != v.pc.task.dev) ==> MasterOf(AgentGo(v, n, k, ok).links, d) == MasterOf(v.links, d)
  {
    if v.pc.ARun? {
      if Ended(v.pc.rest) {
        EndGo(v, n, k, ok);
      } else {
        CommandModes(e, v, n, k);
      }
    } else if v.pc.ADelLink? {
      DelLinkFalls(e, v, n, k, ok, CrKey(k, v.pc.name));
    } else if AboutPeers(v.pc) {
      PeersGo(v, n, k, ok);
    } else {
      NoLinksGo(v, n, k, ok);
    }
  }

  lemma LinksUnnoticed(e: Env, v: AgentView, n: string, k: Kind, a: AgentAct)
    requires ViewFits(e, v, n, k) && CalmAct(e, v, k, a) && KeepsModes(v, n, a)
    ensures Modes(AgentStep(v, n, k, a).links) == Modes(v.links)
    ensures forall key :: key in e.keys && HostOf(key) == n && key.kind != k ==> MasterOf(AgentStep(v, n, k, a).links, DevOf(key)) == MasterOf(v.links, DevOf(key))
  {
    if a.AGo? {
      GoLinks(e, v, n, k, a.ok);
      forall key | key in e.keys && HostOf(key) == n && key.kind != k
        ensures DevOf(key) in Devices(e.keys) && (v.pc.ARun? ==> DevOf(key) != v.pc.task.dev)
      {
        if v.pc.ARun? {
          HeldKey(v.crs, n, k, v.pc.task.name);
          OtherDevice(e.keys, key, CrKey(k, v.pc.task.name));
        }
      }
    }
  }

  lemma OthersNotice(e: Env, v: AgentView, n: string, k: Kind, a: AgentAct, key: CrKey)
    requires ViewFits(e, v, n, k) && CalmAct(e, v, k, a) && KeepsModes(v, n, a)
    requires key in e.keys && HostOf(key) == n && key.kind != k
    ensures Unnoticed(key, v, AgentStep(v, n, k, a))
  {
    LinksUnnoticed(e, v, n, k, a);
    LabelsUnnoticed(e, v, n, k, a, key);
  }

  /** Only the CR a worker is about is written, and that one belongs to the worker's node. */
  lemma WritesOwn(v: AgentView, n: string, k: Kind, a: AgentAct, key: CrKey)
    requires CrsOk(v.crs) && AgentOk(v.crs, n, k, v.pc) && (key.kind != k || HostOf(key) != n)
    ensures Lookup(AgentStep(v, n, k, a).crs.objs, key) == Lookup(v.crs.objs, key)
  {
    if a.AGo? && !WritesCrs(v.pc) {
      AgentQuietOk(v, n, k, a.ok);
    }
  }

  /** A changed Node label is that of the CR the worker is about. */
  lemma LabelChangeIsOwn(e: Env, v: AgentView, n: string, k: Kind, a: AgentAct)
    requires ViewFits(e, v, n, k) && AgentStep(v, n, k, a).labels != v.labels
    ensures Subject(v.pc).Some?
    ensures var key := CrKey(k, Subject(v.pc).value);
            key in e.keys && HostOf(key) == n && OwnLabel(key, AgentStep(v, n, k, a).labels) != OwnLabel(key, v.labels)
  {
    L.AgentLabels(v, n, k, a);
    var key := CrKey(k, Subject(v.pc).value);
    HeldKey(v.crs, n, k, key.name);
    LabelEditSeen(v.labels, L.PendingOf(k, v.pc).value.edit, key, key);
  }

  lemma OnlySubjectWritten(v: AgentView, n: string, k: Kind, ok: bool)
    requires WritesCrs(v.pc)
    ensures forall key :: key != CrKey(k, Subject(v.pc).value) ==> Lookup(AgentGo(v, n, k, ok).crs.objs, key) == Lookup(v.crs.objs, key)
    ensures CrKey(k, Subject(v.pc).value) !in v.crs.objs ==> AgentGo(v, n, k, ok).crs == v.crs
  {
  }

  lemma LookupsDetermine<K, V>(m: map<K, V>, m': map<K, V>)
    requires forall k :: Lookup(m', k) == Lookup(m, k)
    ensures m' == m
  {
    assert forall k :: k in m <==> Lookup(m, k).Some?;
    assert forall k :: k in m' <==> Lookup(m', k).Some?;
    assert forall k :: k in m ==> Lookup(m, k) == Some(m[k]);
    assert forall k :: k in m' ==> Lookup(m', k) == Some(m'[k]);
  }

  /** A step either writes no CR or the one the worker is about. */
  lemma CrChangeIsOwn(e: Env, v: AgentView, n: string, k: Kind, a: AgentAct)
    requires ViewFits(e, v, n, k)
    ensures AgentStep(v, n, k, a).crs.objs == v.crs.objs || (
              && Subject(v.pc).Some?
              && var key := CrKey(k, Subject(v.pc).value);
                 key in e.keys && HostOf(key) == n && Lookup(AgentStep(v, n, k, a).crs.objs, key) != Lookup(v.crs.objs, key))
  {
    if a.AGo? && WritesCrs(v.pc) {
      var key := CrKey(k, Subject(v.pc).value);
      OnlySubjectWritten(v, n, k, a.ok);
      if Lookup(AgentStep(v, n, k, a).crs.objs, key) == Lookup(v.crs.objs, key) {
        LookupsDetermine(v.crs.objs, AgentStep(v, n, k, a).crs.objs);
      } else if HostOf(key) != n {
        WritesOwn(v, n, k, a, key);
      }
    } else if a.AGo? {
      AgentQuietOk(v, n, k, a.ok);
    }
  }

  // The surroundings stay

  lemma StartStaysFit(e: Env, v: AgentView, n: string, k: Kind, a: AgentAct)
    requires ViewFits(e, v, n, k) && a.AGet? && v.pc.AIdle?
    ensures AgentFits(e, k, AgentStep(v, n, k, a).pc)
  {
    var own := CrKey(k, a.name);
    if own in v.crs.objs && NodeOf(v.crs.objs[own]) == n {
      NameIsHostAndDev(own);
      ProgramStays(k, DevOf(own), v.crs.objs[own].spec, a.resolved, a.detected, Devices(e.keys));
      OnlyBondsReachOut(k, DevOf(own), v.crs.objs[own].spec, a.resolved, a.detected);
    }
  }

  lemma CommandStaysFit(e: Env, v: AgentView, n: string, k: Kind, ok: bool)
    requires AgentFits(e, k, v.pc) && v.pc.ARun? && !Ended(v.pc.rest)
    ensures AgentFits(e, k, AgentGo(v, n, k, ok).pc)
  {
    var attempt := Attempt(v.pc.rest.cmd, ok && CanSucceed(v.links, v.pc.rest.cmd));
    assert AgentGo(v, n, k, ok) == AgentCommand(v, v.pc.task, v.pc.rest, ok);
    AdvanceStays(v.pc.rest, v.pc.task.dev, Devices(e.keys), attempt);
    if !k.Uplink? {
      AdvanceKeepsToItself(v.pc.rest, v.pc.task.dev, attempt);
    }
  }

  lemma GoStaysFit(e: Env, v: AgentView, n: string, k: Kind, ok: bool)
    requires ViewFits(e, v, n, k)
    ensures AgentFits(e, k, AgentGo(v, n, k, ok).pc)
  {
    if v.pc.ARun? {
      if Ended(v.pc.rest) {
        EndGo(v, n, k, ok);
      } else {
        CommandStaysFit(e, v, n, k, ok);
      }
    } else if v.pc.ADelLink? {
      HeldKey(v.crs, n, k, v.pc.name);
      DelLinkGo(v, n, k, ok);
    } else if Labelling(v.pc) {
      LabelGo(v, n, k, ok);
    }
  }

  lemma StepStaysFit(e: Env, v: AgentView, n: string, k: Kind, a: AgentAct)
    requires ViewFits(e, v, n, k)
    ensures AgentFits(e, k, AgentStep(v, n, k, a).pc)
  {
    match a
    case AGo(ok) => GoStaysFit(e, v, n, k, ok);
    case AGet(_, _, _) => if v.pc.AIdle? { StartStaysFit(e, v, n, k, a); }
    case _ =>
  }

  /** A step that creates or deletes a link does nothing else that counts; the CR's node has one link more or less. */
  lemma ShakeView(e: Env, v: AgentView, n: string, k: Kind, a: AgentAct) returns (key: CrKey)
    requires ViewFits(e, v, n, k) && CalmAct(e, v, k, a) && !KeepsModes(v, n, a)
    ensures var v': AgentView := AgentStep(v, n, k, a);
            && v'.crs == v.crs && v'.labels == v.labels
            && key in e.keys && HostOf(key) == n && key.kind == k
            && Skeleton(e, key, SpotOf(v', key)) < Skeleton(e, key, SpotOf(v, key))
            && (forall other: CrKey :: other in e.keys && HostOf(other) == n && other != key ==> (DevOf(other) in v'.links <==> DevOf(other) in v.links))
            && (forall other: CrKey :: other.kind == k && other.name != key.name ==> !On(other, v.pc) && !On(other, v'.pc))
  {
    key := CrKey(k, if Subject(v.pc).Some? then Subject(v.pc).value else "");
    var v': AgentView := AgentStep(v, n, k, a);
    HeldKey(v.crs, n, k, key.name);
    if Creates(v) {
      CreationView(e, v, n, k);
      CommandGo(v, n, k);
      CreationPays(e, key, SpotOf(v, key), SpotOf(v', key));
    } else {
      DeletionView(e, v, n, k);
      DelLinkGo(v, n, k, true);
      DeletionPays(e, key, SpotOf(v, key), SpotOf(v', key));
    }
    forall other | other in e.keys && HostOf(other) == n && other != key
      ensures DevOf(other) in v'.links <==> DevOf(other) in v.links
    {
      OtherDevice(e.keys, other, key);
    }
  }
}
