/**
 * An agent in a stretch of the run in which nothing changes: from the get of a CR to the end of the reconcile its
 * worker stays on course, and at the end the CR is configured, labelled and reported.
 */
module StillAgents {
  import opened Base
  import opened ApiObjects
  import opened ApiStore
  import opened NodeLabels
  import opened Kernel
  import opened Programs
  import opened Frames
  import opened Protocol
  import opened ProtocolInvariant
  import opened Rank
  import opened AgentRank
  import opened Goal
  import L = Labelling
  import PortVlan

  /** What remains possible for the worker of a CR between its get and its end. */
  predicate Underway(e: Env, key: CrKey, c: Cr, x: Spot) {
    match x.pc
    case AAddFinalizer(name, copy) => name == key.name && copy == c && !c.finalizer && !c.terminating
    case ADelLink(name, copy) => name == key.name && copy == c && c.terminating
    case AUnlabel(name, copy, _) => name == key.name && copy == c && c.terminating
    case AUnlabelPatch(name, copy, _, _) => name == key.name && copy == c && c.terminating
    case ADropFinalizer(name, copy) => name == key.name && copy == c && c.terminating
    case ARun(t, rest) => Sound(e, key, c, x) && Unmade(e, key, c, rest, x.ls)
    case AFailed(_, _) => Sound(e, key, c, x) && Made(e, key, c, x.ls)
    case ALabel(_) => Sound(e, key, c, x) && Made(e, key, c, x.ls)
    case ALabelPatch(_, _) => Sound(e, key, c, x) && Made(e, key, c, x.ls)
    case APatchIP(t) => Sound(e, key, c, x) && Made(e, key, c, x.ls) && !LabelMissing(e, key, c, x.ls, x.labels) && c.status.localIP != t.ip
    case AReady(t) => Sound(e, key, c, x) && Made(e, key, c, x.ls) && !LabelMissing(e, key, c, x.ls, x.labels) && !IPMissing(e, key, c, x.ls)
    case _ => false
  }

  /** The run is about the stored CR and ends as a new run would. */
  predicate Sound(e: Env, key: CrKey, c: Cr, x: Spot) {
    x.cr == Some(c) && On(key, x.pc) && x.pc.task.copy == c && c.finalizer && Current(e, key, c, x.ls, x.pc)
  }

  /** If the device is still missing, the run has not come to its creation. */
  predicate Unmade(e: Env, key: CrKey, c: Cr, rest: Prog, ls: Links) {
    var p := ProgramFor(e, key, c.spec);
    DevOf(key) in ls || rest == p || (p.Test? && rest == p.no)
  }

  /** Programs begin with a look for their device, and create it, if they can, when it is not there. */
  lemma ProgramsLookFirst(e: Env, key: CrKey, spec: Spec)
    ensures var p := ProgramFor(e, key, spec);
            if p.Test? then
              p.cmd == LinkShow(DevOf(key)) && (p.no.Aborted? || (p.no.Must? && p.no.cmd.LinkAdd? && p.no.cmd.dev == DevOf(key)))
              && (p.no.Aborted? ==> !HasAdd(p))
            else p.Aborted?
  {
    match spec
    case OfBridge(b) =>
    case OfUplink(u) =>
    case OfVxlan(v) =>
      SettingsAddNothing(DevOf(key), v, e.detected(key, spec));
  }

  lemma {:induction false} MustAllAdds(cmds: seq<Cmd>, reason: string, next: Prog)
    requires (forall c :: c in cmds ==> !c.LinkAdd?) && !HasAdd(next)
    ensures !HasAdd(MustAll(cmds, reason, next))
  {
    if cmds != [] {
      MustAllAdds(cmds[1..], reason, next);
    }
  }

  lemma {:induction false} MayAllAdds(cmds: seq<Cmd>, next: Prog)
    requires (forall c :: c in cmds ==> !c.LinkAdd?) && !HasAdd(next)
    ensures !HasAdd(MayAll(cmds, next))
  {
    if cmds != [] {
      MayAllAdds(cmds[1..], next);
    }
  }

  lemma SettingsAddNothing(dev: string, spec: VxlanSpec, detected: Option<string>)
    ensures !HasAdd(VxlanSettings(dev, spec, detected))
  {
    PortsAddNothing(dev, spec);
    if spec.portVlan.Some? {
      MayAllAdds(VniAdds(dev, PortVlan.FilterVnis(spec.portVlan.value.tunnelInfo)), VxlanPorts(dev, spec));
    }
    assert !HasAdd(VxlanFilter(dev, spec));
    assert !HasAdd(VxlanLearning(dev, spec));
    assert !HasAdd(VxlanMaster(dev, spec));
    assert !HasAdd(VxlanMtu(dev, spec));
  }

  lemma PortsAddNothing(dev: string, spec: VxlanSpec)
    ensures !HasAdd(VxlanPorts(dev, spec))
  {
    if spec.portVlan.Some? {
      MustAllAdds(VlanAdds(dev, PortVlan.Commands(spec.portVlan.value)), "VLANConfigFailed", Finished);
    }
    assert !HasAdd(May(LinkSet(dev, PortLearning(spec.bridgeLearning)), PortPart(dev, spec.portVlan)));
  }

  /** The step leaves everything that counts as it was. */
  predicate Still(v: AgentView, v': AgentView) {
    v'.crs.objs == v.crs.objs && v'.labels == v.labels && Modes(v'.links) == Modes(v.links)
  }

  ghost predicate Next(e: Env, key: CrKey, c: Cr, x: Spot) {
    Configured(e, key, c, x) || Underway(e, key, c, x)
  }

  // One step of the worker of the CR

  lemma StillGet(e: Env, v: AgentView, n: string, k: Kind, a: AgentAct, key: CrKey)
    requires ViewFits(e, v, n, k) && CalmAct(e, v, k, a) && a.AGet? && v.pc.AIdle?
    requires key == CrKey(k, a.name) && key in v.crs.objs && HostOf(key) == n
    ensures Underway(e, key, v.crs.objs[key], SpotOf(AgentStep(v, n, k, a), key))
  {
    var c, v' := v.crs.objs[key], AgentStep(v, n, k, a);
    NameIsHostAndDev(key);
    if !c.terminating && c.finalizer {
      StartFalls(e, key, c, SpotOf(v, key), SpotOf(v', key));
    }
  }

  lemma StillAddFinalizer(e: Env, v: AgentView, n: string, k: Kind, key: CrKey)
    requires v.pc.AAddFinalizer? && key in v.crs.objs && key.kind == k && Underway(e, key, v.crs.objs[key], SpotOf(v, key))
    ensures AgentGo(v, n, k, true).crs.objs != v.crs.objs
  {
    assert AgentGo(v, n, k, true).crs.objs[key].finalizer;
  }

  lemma StillDropFinalizer(e: Env, v: AgentView, n: string, k: Kind, key: CrKey)
    requires v.pc.ADropFinalizer? && key in v.crs.objs && key.kind == k && Underway(e, key, v.crs.objs[key], SpotOf(v, key))
    ensures AgentGo(v, n, k, true).crs.objs != v.crs.objs
  {
    assert key !in AgentGo(v, n, k, true).crs.objs;
  }

  lemma ReportChanges(e: Env, v: AgentView, n: string, k: Kind, key: CrKey)
    requires (v.pc.AReady? || v.pc.AFailed?) && key in v.crs.objs && key.kind == k && Underway(e, key, v.crs.objs[key], SpotOf(v, key))
    ensures AgentGo(v, n, k, true).crs.objs == v.crs.objs ==> v.crs.objs[key].status.ready == Some(Report(v.pc))
  {
    ReportGo(v, n, k, true);
    if v.crs.objs[key].status.ready != Some(Report(v.pc)) {
      assert AgentGo(v, n, k, true).crs.objs[key].status.ready == Some(Report(v.pc));
    }
  }

  lemma StillReport(e: Env, v: AgentView, n: string, k: Kind, key: CrKey)
    requires (v.pc.AReady? || v.pc.AFailed?) && key in v.crs.objs && key.kind == k && Underway(e, key, v.crs.objs[key], SpotOf(v, key))
    requires AgentGo(v, n, k, true).crs.objs == v.crs.objs
    ensures Configured(e, key, v.crs.objs[key], SpotOf(v, key))
  {
    ReportChanges(e, v, n, k, key);
    assert Report(v.pc) == FinalReady(e, key, v.crs.objs[key], v.links);
  }

  lemma StillPatchIP(e: Env, v: AgentView, n: string, k: Kind, key: CrKey)
    requires v.pc.APatchIP? && key in v.crs.objs && key.kind == k && Underway(e, key, v.crs.objs[key], SpotOf(v, key))
    ensures AgentGo(v, n, k, true).crs.objs != v.crs.objs
  {
    PatchIPGo(v, k, v.pc.task);
    assert AgentGo(v, n, k, true) == AgentPatchIP(v, k, v.pc.task, true);
    assert AgentGo(v, n, k, true).crs.objs[key].status.localIP == v.pc.task.ip;
  }

  /** A label patch without effect means that the label was there. */
  lemma LabelIsThere(e: Env, v: AgentView, n: string, k: Kind, key: CrKey)
    requires ViewFits(e, v, n, k) && v.pc.ALabelPatch? && key.kind == k && v.pc.task.name == key.name
    requires AgentGo(v, n, k, true).labels == v.labels
    ensures OwnLabel(key, v.labels) == WantedLabel(key, v.pc.task.spec)
  {
    var t := v.pc.task;
    L.AgentLabels(v, n, k, AGo(true));
    LabelEditSeen(v.labels, LabelEdit(k, t.dev, LabelValue(t.spec)), key, key);
  }

  lemma Labelled(e: Env, key: CrKey, c: Cr, x: Spot, x': Spot)
    requires x.pc.ALabelPatch? && Underway(e, key, c, x) && OwnLabel(key, x.labels) == WantedLabel(key, x.pc.task.spec)
    requires x' == x.(pc := AfterLabel(key.kind, x.pc.task))
    ensures Underway(e, key, c, x')
  {
  }

  lemma StillLabelPatch(e: Env, v: AgentView, n: string, k: Kind, key: CrKey)
    requires ViewFits(e, v, n, k) && v.pc.ALabelPatch? && key in v.crs.objs && key.kind == k && Underway(e, key, v.crs.objs[key], SpotOf(v, key))
    requires Still(v, AgentGo(v, n, k, true))
    ensures Underway(e, key, v.crs.objs[key], SpotOf(AgentGo(v, n, k, true), key))
  {
    LabelGo(v, n, k, true);
    LabelIsThere(e, v, n, k, key);
    Labelled(e, key, v.crs.objs[key], SpotOf(v, key), SpotOf(AgentGo(v, n, k, true), key));
  }

  lemma StillReadNode(e: Env, v: AgentView, n: string, k: Kind, key: CrKey)
    requires (v.pc.ALabel? || v.pc.AUnlabel?) && key in v.crs.objs && key.kind == k && Underway(e, key, v.crs.objs[key], SpotOf(v, key))
    ensures Underway(e, key, v.crs.objs[key], SpotOf(AgentGo(v, n, k, true), key))
  {
    LabelGo(v, n, k, true);
    ReadNodeGo(v, n, k, true);
  }

  lemma StillUnlabelPatch(e: Env, v: AgentView, n: string, k: Kind, key: CrKey)
    requires v.pc.AUnlabelPatch? && key in v.crs.objs && key.kind == k && Underway(e, key, v.crs.objs[key], SpotOf(v, key))
    ensures Underway(e, key, v.crs.objs[key], SpotOf(AgentGo(v, n, k, true), key))
  {
    LabelGo(v, n, k, true);
  }

  /** The run goes on; the device is found, or there is no way to make it. */
  lemma StillCommand(e: Env, v: AgentView, n: string, k: Kind, key: CrKey)
    requires ViewFits(e, v, n, k) && v.pc.ARun? && key in v.crs.objs && key.kind == k && Underway(e, key, v.crs.objs[key], SpotOf(v, key))
    requires !Ended(v.pc.rest) && Modes(AgentGo(v, n, k, true).links) == Modes(v.links)
    ensures Underway(e, key, v.crs.objs[key], SpotOf(AgentGo(v, n, k, true), key))
  {
    var c := v.crs.objs[key];
    CommandGo(v, n, k);
    CommandDebt(e, v, n, k, key);
    ModesSame(v.links, AgentGo(v, n, k, true).links, DevOf(key));
    ProgramsLookFirst(e, key, c.spec);
    if DevOf(key) !in v.links && v.pc.rest != ProgramFor(e, key, c.spec) {
      CreationView(e, v, n, k);
    }
  }

  lemma StillEnd(e: Env, v: AgentView, n: string, k: Kind, key: CrKey)
    requires v.pc.ARun? && key in v.crs.objs && key.kind == k && Underway(e, key, v.crs.objs[key], SpotOf(v, key)) && Ended(v.pc.rest)
    ensures Underway(e, key, v.crs.objs[key], SpotOf(AgentGo(v, n, k, true), key))
  {
    EndGo(v, n, k, true);
    ProgramsLookFirst(e, key, v.crs.objs[key].spec);
  }

  /** Some steps cannot come up where nothing changes. */
  lemma WritesChange(e: Env, v: AgentView, n: string, k: Kind, key: CrKey)
    requires key in v.crs.objs && key.kind == k && Underway(e, key, v.crs.objs[key], SpotOf(v, key))
    requires Still(v, AgentGo(v, n, k, true))
    ensures !v.pc.AAddFinalizer? && !v.pc.ADropFinalizer? && !v.pc.APatchIP?
  {
    if v.pc.AAddFinalizer? {
      StillAddFinalizer(e, v, n, k, key);
    } else if v.pc.ADropFinalizer? {
      StillDropFinalizer(e, v, n, k, key);
    } else if v.pc.APatchIP? {
      StillPatchIP(e, v, n, k, key);
    }
  }

  lemma StillReports(e: Env, v: AgentView, n: string, k: Kind, key: CrKey)
    requires (v.pc.AReady? || v.pc.AFailed?) && key in v.crs.objs && key.kind == k && Underway(e, key, v.crs.objs[key], SpotOf(v, key))
    requires Still(v, AgentGo(v, n, k, true))
    ensures Configured(e, key, v.crs.objs[key], SpotOf(AgentGo(v, n, k, true), key))
  {
    StillReport(e, v, n, k, key);
    ReportGo(v, n, k, true);
  }

  /** A step of the worker itself, in a stretch in which nothing changes. */
  lemma StillGo(e: Env, v: AgentView, n: string, k: Kind, key: CrKey)
    requires ViewFits(e, v, n, k) && key in v.crs.objs && key.kind == k && Underway(e, key, v.crs.objs[key], SpotOf(v, key))
    requires Still(v, AgentGo(v, n, k, true))
    ensures Next(e, key, v.crs.objs[key], SpotOf(AgentGo(v, n, k, true), key))
  {
    WritesChange(e, v, n, k, key);
    if v.pc.ARun? {
      if Ended(v.pc.rest) {
        StillEnd(e, v, n, k, key);
      } else {
        StillCommand(e, v, n, k, key);
      }
    } else if v.pc.AReady? || v.pc.AFailed? {
      StillReports(e, v, n, k, key);
    } else if v.pc.ALabelPatch? {
      StillLabelPatch(e, v, n, k, key);
    } else if v.pc.AUnlabelPatch? {
      StillUnlabelPatch(e, v, n, k, key);
    } else if v.pc.ADelLink? {
      StillDelLink(e, v, n, k, key);
    } else {
      StillReadNode(e, v, n, k, key);
    }
  }

  lemma StillDelLink(e: Env, v: AgentView, n: string, k: Kind, key: CrKey)
    requires ViewFits(e, v, n, k) && v.pc.ADelLink? && key in v.crs.objs && key.kind == k && Underway(e, key, v.crs.objs[key], SpotOf(v, key))
    ensures Underway(e, key, v.crs.objs[key], SpotOf(AgentGo(v, n, k, true), key))
  {
    HeldKey(v.crs, n, k, v.pc.name);
    DelLinkGo(v, n, k, true);
  }

  /** The worker neither crashes nor fails at a call that could succeed. */
  predicate Lasting(a: AgentAct) {
    !a.ACrash? && (a.AGo? ==> a.ok)
  }

  lemma StillStep(e: Env, v: AgentView, n: string, k: Kind, a: AgentAct, key: CrKey)
    requires ViewFits(e, v, n, k) && key in v.crs.objs && key.kind == k && Underway(e, key, v.crs.objs[key], SpotOf(v, key))
    requires Lasting(a) && Still(v, AgentStep(v, n, k, a))
    ensures Next(e, key, v.crs.objs[key], SpotOf(AgentStep(v, n, k, a), key))
  {
    if a.AGo? {
      StillGo(e, v, n, k, key);
    }
  }

  // Steps of others

  lemma ConfiguredKept(e: Env, key: CrKey, c: Cr, x: Spot, x': Spot)
    requires Modes(x'.ls) == Modes(x.ls) && OwnLabel(key, x'.labels) == OwnLabel(key, x.labels)
    ensures Configured(e, key, c, x') <==> Configured(e, key, c, x)
  {
    ModesSame(x.ls, x'.ls, DevOf(key));
    OutcomeByModes(e, key, c.spec, x.ls, x'.ls);
  }

  lemma SoundKept(e: Env, key: CrKey, c: Cr, x: Spot, x': Spot)
    requires x'.cr == x.cr && Alike(x.ls, x'.ls, DevOf(key)) && x'.pc == x.pc && Keeps(e, key, x.pc) && Sound(e, key, c, x)
    ensures Sound(e, key, c, x')
  {
    OthersDebt(e, key, x, x');
  }

  lemma UnderwayKept(e: Env, key: CrKey, c: Cr, x: Spot, x': Spot)
    requires x'.cr == x.cr && Alike(x.ls, x'.ls, DevOf(key)) && OwnLabel(key, x'.labels) == OwnLabel(key, x.labels)
    requires x'.pc == x.pc && Keeps(e, key, x.pc) && Underway(e, key, c, x)
    ensures Underway(e, key, c, x')
  {
    ModesSame(x.ls, x'.ls, DevOf(key));
    OutcomeByModes(e, key, c.spec, x.ls, x'.ls);
    if HasTask(x.pc) {
      SoundKept(e, key, c, x, x');
    }
  }

  lemma StillKeepsModes(e: Env, v: AgentView, n: string, k: Kind, a: AgentAct)
    requires ViewFits(e, v, n, k) && CalmAct(e, v, k, a) && Modes(AgentStep(v, n, k, a).links) == Modes(v.links)
    ensures KeepsModes(v, n, a)
  {
    var v' := AgentStep(v, n, k, a);
    if a.AGo? {
      if Creates(v) {
        CreationView(e, v, n, k);
        ModesSame(v.links, v'.links, DevOf(CrKey(k, v.pc.task.name)));
      }
      if Deletes(v, n, a.ok) {
        DeletionView(e, v, n, k);
        ModesSame(v.links, v'.links, DevOf(CrKey(k, v.pc.name)));
      }
    }
  }
}
