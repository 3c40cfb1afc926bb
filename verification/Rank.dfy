/**
 * How far the CRs, links and Node labels are from what the templates ask for. KeyRank counts the writes ahead
 * of one CR, as long as the links of its node stay the same; Skeleton counts the creations and deletions of its
 * device that are ahead. Both are read off one Spot: the CR, and its node's links, labels and worker.
 */
module Rank {
  import opened Base
  import opened ApiObjects
  import opened ApiStore
  import opened Names
  import opened NodeLabels
  import opened Kernel
  import opened Programs
  import opened Frames
  import opened Protocol
  import opened ProtocolInvariant
  import Luck

  /** What a live template asks for. */
  datatype Plan = Plan(dev: string, spec: Spec, nodes: set<string>, generation: nat)

  /**
   * The fixed surroundings: live templates, all templates, the CR names in play, all nodes, and what the two
   * lookups of a VXLAN agent answer for a CR and its spec.
   */
  datatype Env = Env(live: map<TemplateKey, Plan>, known: set<TemplateKey>, keys: set<CrKey>, all: set<string>,
                     resolved: (CrKey, Spec) -> Option<int>, detected: (CrKey, Spec) -> Option<string>)

  /** Live templates of one kind that select a common node name different, dot-free devices. */
  ghost predicate DistinctDevices(e: Env) {
    && e.live.Keys <= e.known
    && (forall tk :: tk in e.live ==> DotFree(e.live[tk].dev))
    && forall t1, t2 :: t1 in e.live && t2 in e.live && t1 != t2 && t1.kind == t2.kind ==>
         e.live[t1].dev != e.live[t2].dev || e.live[t1].nodes !! e.live[t2].nodes
  }

  ghost predicate Wants(e: Env, tk: TemplateKey, key: CrKey) {
    tk in e.live && tk.kind == key.kind && exists node :: node in e.live[tk].nodes && key.name == Join(node, e.live[tk].dev)
  }

  ghost function Claim(e: Env, key: CrKey): Option<TemplateKey> {
    if exists tk :: Wants(e, tk, key) then var tk :| Wants(e, tk, key); Some(tk) else None
  }

  lemma ClaimIsUnique(e: Env, tk: TemplateKey, key: CrKey)
    requires DistinctDevices(e)
    ensures Wants(e, tk, key) <==> Claim(e, key) == Some(tk)
  {
    if Wants(e, tk, key) {
      var t2 := Claim(e, key).value;
      var n1 :| n1 in e.live[tk].nodes && key.name == Join(n1, e.live[tk].dev);
      var n2 :| n2 in e.live[t2].nodes && key.name == Join(n2, e.live[t2].dev);
      CollisionIffShifted(n1, e.live[tk].dev, n2, e.live[t2].dev);
      ShiftedHasDot(n1, e.live[tk].dev, n2, e.live[t2].dev);
      ShiftedHasDot(n2, e.live[t2].dev, n1, e.live[tk].dev);
    }
  }

  // Names

  /** The node a CR name belongs to. */
  function HostOf(key: CrKey): string {
    if OwnerOf(key.name).Some? then OwnerOf(key.name).value else ""
  }

  /** The device a CR name stands for on its node. */
  function DevOf(key: CrKey): string {
    var dev := ParseDeviceName(key.name, HostOf(key));
    if dev.Some? then dev.value else ""
  }

  lemma NameIsHostAndDev(key: CrKey)
    requires OwnerOf(key.name).Some?
    ensures ParseDeviceName(key.name, HostOf(key)) == Some(DevOf(key))
    ensures key.name == Join(HostOf(key), DevOf(key))
  {
    OwnerSplits(key.name);
    ParseInvertsJoin(key.name, HostOf(key), DevOf(key));
  }

  function Devices(keys: set<CrKey>): set<string> {
    set key | key in keys :: DevOf(key)
  }

  // What the agents find

  function ProgramFor(e: Env, key: CrKey, spec: Spec): Prog {
    AgentProgram(key.kind, DevOf(key), spec, e.resolved(key, spec), e.detected(key, spec))
  }

  function IPFor(e: Env, key: CrKey, spec: Spec): string {
    LocalIP(spec, e.detected(key, spec))
  }

  /** How a run for this spec ends when it meets these links and nobody disturbs it. */
  function Outcome(e: Env, key: CrKey, spec: Spec, ls: Links): Prog {
    Luck.Verdict(key.kind, DevOf(key), spec, e.resolved(key, spec), e.detected(key, spec), ls)
  }

  lemma OutcomeByModes(e: Env, key: CrKey, spec: Spec, ls: Links, ls': Links)
    requires Modes(ls) == Modes(ls')
    ensures Outcome(e, key, spec, ls) == Outcome(e, key, spec, ls')
  {
    VerdictByModes(key.kind, DevOf(key), spec, e.resolved(key, spec), e.detected(key, spec), ls, ls');
  }

  function FinalReady(e: Env, key: CrKey, c: Cr, ls: Links): Condition {
    var end := Outcome(e, key, c.spec, ls);
    Condition(end.Finished?, if end.Aborted? then end.reason else "Configured", c.generation)
  }

  // One CR and its surroundings on its node

  datatype Spot = Spot(cr: Option<Cr>, ls: Links, labels: NodeMap, pc: AgentPc)

  function OwnLabel(key: CrKey, labels: NodeMap): Option<string> {
    Read(labels, DeviceLabel(key.kind, DevOf(key)))
  }

  function WantedLabel(key: CrKey, spec: Spec): Option<string> {
    LabelEdit(key.kind, DevOf(key), LabelValue(spec)).value
  }

  function One(b: bool): nat {
    if b then 1 else 0
  }

  /** The address is recorded, and the Node labelled, only when the configuration succeeds. */
  predicate IPMissing(e: Env, key: CrKey, c: Cr, ls: Links) {
    var ip := IPFor(e, key, c.spec);
    key.kind.Vxlan? && Outcome(e, key, c.spec, ls).Finished? && ip != "" && c.status.localIP != ip
  }

  predicate LabelMissing(e: Env, key: CrKey, c: Cr, ls: Links, labels: NodeMap) {
    Outcome(e, key, c.spec, ls).Finished? && OwnLabel(key, labels) != WantedLabel(key, c.spec)
  }

  /** The writes an agent still has to make for a live CR. */
  function Pending(e: Env, key: CrKey, c: Cr, ls: Links, labels: NodeMap): nat {
    One(!c.finalizer) + One(IPMissing(e, key, c, ls)) + One(LabelMissing(e, key, c, ls, labels))
    + One(c.status.ready != Some(FinalReady(e, key, c, ls)))
  }

  predicate InSync(e: Env, tk: TemplateKey, key: CrKey, c: Cr) {
    && tk in e.live && c.spec == e.live[tk].spec
    && OwnerOf(key.name).Some? && c.labels == SyncLabels(c.labels, tk, OwnerOf(key.name).value)
  }

  /** Some template other than the claimant may delete the CR as its own. */
  ghost predicate Exposed(e: Env, key: CrKey, c: Cr) {
    exists tk :: tk in e.known && tk.kind == key.kind && Claim(e, key) != Some(tk) && LabelledFor(c, tk)
  }

  /** Where a name stands: is it wanted, is its CR there, dying, in danger, in step with its template. */
  datatype Standing = Absent(wanted: bool) | Dying(wanted: bool, synced: bool) | Live(wanted: bool, exposed: bool, synced: bool)

  ghost function StandingOf(e: Env, key: CrKey, cr: Option<Cr>): Standing {
    var claim := Claim(e, key);
    match cr
    case None => Absent(claim.Some?)
    case Some(c) =>
      var synced := claim.Some? && InSync(e, claim.value, key, c);
      if c.terminating then Dying(claim.Some?, synced) else Live(claim.Some?, Exposed(e, key, c), synced)
  }

  /** The writes of managers ahead, each with the agents' writes that it may bring about. */
  function Ahead(st: Standing): nat {
    match st
    case Absent(wanted) => if wanted then 5 else 0
    case Dying(wanted, synced) => if !wanted then 1 else if synced then 6 else 7
    case Live(wanted, exposed, synced) => if exposed then if wanted then 15 else 9 else if wanted && !synced then 11 else 0
  }

  ghost function Distance(e: Env, key: CrKey, x: Spot): nat {
    Ahead(StandingOf(e, key, x.cr))
    + (match x.cr
       case None => 0
       case Some(c) => if c.terminating then One(OwnLabel(key, x.labels).Some?) else Pending(e, key, c, x.ls, x.labels))
  }

  /** The worker is busy with a run for this CR. */
  predicate On(key: CrKey, pc: AgentPc) {
    HasTask(pc) && pc.task.name == key.name
  }

  /** How the run will end, left alone with these links. */
  function Predicted(pc: AgentPc, ls: Links): Prog {
    match pc
    case ARun(_, rest) => Luck.End(rest, ls)
    case AFailed(_, reason) => Aborted(reason)
    case _ => Finished
  }

  /** The run is about the CR as it is now stored, and will find what a new run would find. */
  predicate Current(e: Env, key: CrKey, c: Cr, ls: Links, pc: AgentPc)
    requires HasTask(pc)
  {
    var t := pc.task;
    && t.spec == c.spec && t.copy.generation == c.generation && !c.terminating
    && t.dev == DevOf(key) && t.ip == IPFor(e, key, c.spec)
    && Predicted(pc, ls) == Outcome(e, key, c.spec, ls)
  }

  /** The damage an outdated run can still do: a label, an address, a condition, twice over. */
  function Debt(e: Env, key: CrKey, x: Spot): nat {
    if x.cr.None? || !On(key, x.pc) || Current(e, key, x.cr.value, x.ls, x.pc) then 0
    else if x.pc.APatchIP? then 4
    else if x.pc.AFailed? || x.pc.AReady? then 2
    else 6
  }

  ghost function KeyRank(e: Env, key: CrKey, x: Spot): nat {
    Distance(e, key, x) + Debt(e, key, x)
  }

  // Links

  predicate HasAdd(p: Prog) {
    match p
    case Finished => false
    case Aborted(_) => false
    case Must(c, _, next) => c.LinkAdd? || HasAdd(next)
    case May(c, next) => c.LinkAdd? || HasAdd(next)
    case Test(c, yes, no) => c.LinkAdd? || HasAdd(yes) || HasAdd(no)
  }

  /** The worker's run may still create the device. */
  predicate Adding(key: CrKey, pc: AgentPc) {
    pc.ARun? && pc.task.name == key.name && HasAdd(pc.rest)
  }

  /** The creations and deletions of the device that are ahead. */
  ghost function Skeleton(e: Env, key: CrKey, x: Spot): nat {
    var present := DevOf(key) in x.ls;
    match StandingOf(e, key, x.cr)
    case Absent(wanted) => One(wanted && !present)
    case Dying(wanted, _) => (if present then 1 else if Adding(key, x.pc) then 2 else 0) + One(wanted)
    case Live(wanted, exposed, synced) =>
      if exposed then One(!present) + 1 + One(wanted)
      else if wanted && !synced then One(!present)
      else One(!present && (Adding(key, x.pc) || (x.cr.Some? && HasAdd(ProgramFor(e, key, x.cr.value.spec)))))
  }

  /** Nothing got worse, and a written CR or Node label got strictly better. */
  ghost predicate Falls(e: Env, key: CrKey, x: Spot, x': Spot) {
    && Skeleton(e, key, x') <= Skeleton(e, key, x)
    && KeyRank(e, key, x') <= KeyRank(e, key, x)
    && (x'.cr != x.cr || OwnLabel(key, x'.labels) != OwnLabel(key, x.labels) ==> KeyRank(e, key, x') < KeyRank(e, key, x))
  }

  // What does not matter

  lemma StandingSame(e: Env, key: CrKey, c: Cr, c': Cr)
    requires c'.spec == c.spec && c'.labels == c.labels && c'.terminating == c.terminating
    ensures StandingOf(e, key, Some(c')) == StandingOf(e, key, Some(c))
  {
    assert Exposed(e, key, c') <==> Exposed(e, key, c);
  }

  /** Links change without creation or deletion; the worker goes on or turns to other matters. */
  lemma RestFalls(e: Env, key: CrKey, x: Spot, x': Spot)
    requires x'.cr == x.cr && Modes(x'.ls) == Modes(x.ls) && OwnLabel(key, x'.labels) == OwnLabel(key, x.labels)
    requires Debt(e, key, x') <= Debt(e, key, x) && (Adding(key, x'.pc) ==> Adding(key, x.pc))
    ensures Falls(e, key, x, x')
  {
    ModesSame(x.ls, x'.ls, DevOf(key));
    if x.cr.Some? {
      OutcomeByModes(e, key, x.cr.value.spec, x.ls, x'.ls);
    }
  }

  /** A run whose program stays with its own device does not notice what others do to other links. */
  ghost predicate Keeps(e: Env, key: CrKey, pc: AgentPc) {
    pc.ARun? && pc.task.name == key.name ==> Stays(pc.rest, DevOf(key), Devices(e.keys))
  }

  lemma OthersDebt(e: Env, key: CrKey, x: Spot, x': Spot)
    requires x'.cr == x.cr && Alike(x.ls, x'.ls, DevOf(key)) && x'.pc == x.pc && Keeps(e, key, x.pc)
    ensures Debt(e, key, x') == Debt(e, key, x)
  {
    if x.cr.Some? {
      OutcomeByModes(e, key, x.cr.value.spec, x.ls, x'.ls);
    }
    if x.pc.ARun? && x.pc.task.name == key.name {
      EndAlike(x.pc.rest, DevOf(key), Devices(e.keys), x.ls, x'.ls);
    }
  }

  /** Other workers' steps on the node, as seen by this CR. */
  lemma OthersFall(e: Env, key: CrKey, x: Spot, x': Spot)
    requires x'.cr == x.cr && Alike(x.ls, x'.ls, DevOf(key)) && OwnLabel(key, x'.labels) == OwnLabel(key, x.labels)
    requires x'.pc == x.pc && Keeps(e, key, x.pc)
    ensures Falls(e, key, x, x')
  {
    OthersDebt(e, key, x, x');
    RestFalls(e, key, x, x');
  }

  /** When links come or go anywhere on the node, at most what agents write is to be done again. */
  lemma ShakenRank(e: Env, key: CrKey, x: Spot, x': Spot)
    requires x'.cr == x.cr && OwnLabel(key, x'.labels) == OwnLabel(key, x.labels)
    ensures KeyRank(e, key, x') <= KeyRank(e, key, x) + 9
  {
  }

  lemma ShakenSkeleton(e: Env, key: CrKey, x: Spot, x': Spot)
    requires x'.cr == x.cr && (Adding(key, x'.pc) <==> Adding(key, x.pc)) && (DevOf(key) in x'.ls <==> DevOf(key) in x.ls)
    ensures Skeleton(e, key, x') == Skeleton(e, key, x)
  {
  }

  // Creation and deletion of the device

  lemma CreationPays(e: Env, key: CrKey, x: Spot, x': Spot)
    requires x'.cr == x.cr && x.cr.Some? && Adding(key, x.pc)
    requires DevOf(key) !in x.ls && DevOf(key) in x'.ls
    ensures Skeleton(e, key, x') < Skeleton(e, key, x)
  {
  }

  lemma DeletionPays(e: Env, key: CrKey, x: Spot, x': Spot)
    requires x'.cr == x.cr && x.cr.Some? && x.cr.value.terminating && !x'.pc.ARun?
    requires DevOf(key) in x.ls && DevOf(key) !in x'.ls
    ensures Skeleton(e, key, x') < Skeleton(e, key, x)
  {
  }

  // The manager's writes

  lemma SyncStands(e: Env, key: CrKey, tk: TemplateKey, node: string, c: Cr, c': Cr)
    requires DistinctDevices(e) && Claim(e, key) == Some(tk) && tk in e.live && OwnerOf(key.name) == Some(node)
    requires c'.(rv := 0) == Edited(c, SyncLabels(c.labels, tk, node), e.live[tk].spec, c.finalizer).(rv := 0)
    ensures StandingOf(e, key, Some(c')) == if c.terminating then Dying(true, true) else Live(true, false, true)
  {
    assert InSync(e, tk, key, c');
    assert !Exposed(e, key, c');
  }

  /** The most that agents may have to do for a CR in this standing. */
  function Reach(st: Standing): nat {
    match st
    case Absent(_) => 0
    case Dying(_, _) => 7
    case Live(_, _, _) => 10
  }

  lemma RankWithin(e: Env, key: CrKey, x: Spot)
    ensures Ahead(StandingOf(e, key, x.cr)) <= KeyRank(e, key, x) <= Ahead(StandingOf(e, key, x.cr)) + Reach(StandingOf(e, key, x.cr))
  {
  }

  lemma RanksAreSmall(e: Env, key: CrKey, x: Spot)
    ensures KeyRank(e, key, x) <= 25 && Skeleton(e, key, x) <= 3
  {
    RankWithin(e, key, x);
  }

  lemma SyncSkeleton(e: Env, key: CrKey, x: Spot, x': Spot)
    requires x.cr.Some? && x'.cr.Some? && x'.ls == x.ls && x'.pc == x.pc
    requires var st := StandingOf(e, key, x.cr);
             && st.wanted && (st.Live? ==> st.exposed || !st.synced)
             && StandingOf(e, key, x'.cr) == if st.Dying? then Dying(true, true) else Live(true, false, true)
    ensures Skeleton(e, key, x') <= Skeleton(e, key, x)
  {
  }

  lemma SyncFalls(e: Env, key: CrKey, tk: TemplateKey, node: string, c: Cr, c': Cr, x: Spot, x': Spot)
    requires DistinctDevices(e) && Claim(e, key) == Some(tk) && tk in e.live && OwnerOf(key.name) == Some(node)
    requires c'.(rv := 0) == Edited(c, SyncLabels(c.labels, tk, node), e.live[tk].spec, c.finalizer).(rv := 0)
    requires !InSync(e, tk, key, c) && x.cr == Some(c) && x' == x.(cr := Some(c'))
    ensures Falls(e, key, x, x')
  {
    SyncStands(e, key, tk, node, c, c');
    SyncSkeleton(e, key, x, x');
    if c.terminating {
      assert Debt(e, key, x') == Debt(e, key, x);
    } else {
      RankWithin(e, key, x);
      RankWithin(e, key, x');
    }
  }

  lemma DeleteStands(e: Env, key: CrKey, tk: TemplateKey, c: Cr, cr': Option<Cr>)
    requires tk in e.known && tk.kind == key.kind && Claim(e, key) != Some(tk) && LabelledFor(c, tk) && !c.terminating
    requires Deleted(c).Some? == cr'.Some? && (cr'.Some? ==> cr'.value.(rv := 0) == Deleted(c).value.(rv := 0))
    ensures var st := StandingOf(e, key, Some(c));
            && st.Live? && st.exposed
            && StandingOf(e, key, cr') == if c.finalizer then Dying(st.wanted, st.synced) else Absent(st.wanted)
  {
    assert Exposed(e, key, c);
  }

  lemma DeleteFalls(e: Env, key: CrKey, tk: TemplateKey, c: Cr, cr': Option<Cr>, x: Spot, x': Spot)
    requires tk in e.known && tk.kind == key.kind && Claim(e, key) != Some(tk) && LabelledFor(c, tk)
    requires Deleted(c).Some? == cr'.Some? && (cr'.Some? ==> cr'.value.(rv := 0) == Deleted(c).value.(rv := 0))
    requires Deleted(c) == Some(c) ==> cr' == Some(c)
    requires (c.terminating ==> c.finalizer) && x.cr == Some(c) && x' == x.(cr := cr')
    ensures Falls(e, key, x, x')
  {
    if !c.terminating {
      DeleteStands(e, key, tk, c, cr');
      RankWithin(e, key, x);
      RankWithin(e, key, x');
    }
  }

  lemma CreateFalls(e: Env, key: CrKey, tk: TemplateKey, node: string, c: Cr, x: Spot, x': Spot)
    requires DistinctDevices(e) && Claim(e, key) == Some(tk) && tk in e.live && OwnerOf(key.name) == Some(node)
    requires c.(rv := 0) == Fresh(SyncLabels(map[], tk, node), e.live[tk].spec)
    requires x.cr == None && !On(key, x.pc) && x' == x.(cr := Some(c))
    ensures Falls(e, key, x, x')
  {
    assert InSync(e, tk, key, c);
    assert !Exposed(e, key, c);
  }

  // The agents' writes

  /** What is ahead of an agent, and what an outdated run may add to it. */
  function Toll(e: Env, key: CrKey, c: Cr, x: Spot): nat {
    (if c.terminating then 0 else Pending(e, key, c, x.ls, x.labels)) + Debt(e, key, x)
  }

  lemma WriteFalls(e: Env, key: CrKey, c: Cr, c': Cr, x: Spot, x': Spot)
    requires c'.spec == c.spec && c'.labels == c.labels && c'.terminating == c.terminating
    requires x.cr == Some(c) && x'.cr == Some(c') && x'.ls == x.ls && x'.labels == x.labels && !x'.pc.ARun?
    requires Toll(e, key, c', x') <= Toll(e, key, c, x) && (c' != c ==> Toll(e, key, c', x') < Toll(e, key, c, x))
    ensures Falls(e, key, x, x')
  {
    StandingSame(e, key, c, c');
  }

  lemma FinalizerToll(e: Env, key: CrKey, c: Cr, c': Cr, x: Spot, x': Spot)
    requires !c.finalizer && !c.terminating && c'.(rv := 0) == c.(finalizer := true, rv := 0)
    requires x.cr == Some(c) && x'.cr == Some(c') && x'.ls == x.ls && x'.labels == x.labels
    requires x'.pc == x.pc || (!On(key, x.pc) && !On(key, x'.pc))
    ensures Toll(e, key, c', x') < Toll(e, key, c, x)
  {
    assert FinalReady(e, key, c', x'.ls) == FinalReady(e, key, c, x.ls);
  }

  lemma FinalizerFalls(e: Env, key: CrKey, c: Cr, c': Cr, x: Spot, x': Spot)
    requires !c.finalizer && !c.terminating && c'.(rv := 0) == c.(finalizer := true, rv := 0)
    requires x.cr == Some(c) && x'.cr == Some(c') && x'.ls == x.ls && x'.labels == x.labels
    requires x'.pc == x.pc || (!On(key, x.pc) && !On(key, x'.pc))
    ensures Falls(e, key, x, x')
  {
    FinalizerToll(e, key, c, c', x, x');
    StandingSame(e, key, c, c');
  }

  lemma EraseFalls(e: Env, key: CrKey, c: Cr, x: Spot, x': Spot)
    requires c.terminating && x.cr == Some(c) && x' == x.(cr := None, pc := x'.pc)
    ensures Falls(e, key, x, x')
  {
  }

  /** Recording the address: right for a current run, and otherwise paid for by the run's debt. */
  lemma IPToll(e: Env, key: CrKey, t: Task, c: Cr, c': Cr, x: Spot, x': Spot)
    requires key.kind.Vxlan? && t.name == key.name && t.ip != ""
    requires c'.(rv := 0) == c.(status := c.status.(localIP := t.ip), rv := 0) && (c.status.localIP == t.ip ==> c' == c)
    requires x.cr == Some(c) && x.pc == APatchIP(t) && x' == x.(cr := Some(c'), pc := AReady(t.(copy := c')))
    ensures Toll(e, key, c', x') <= Toll(e, key, c, x) && (c' != c ==> Toll(e, key, c', x') < Toll(e, key, c, x))
  {
    assert FinalReady(e, key, c', x'.ls) == FinalReady(e, key, c, x.ls);
    assert LabelMissing(e, key, c', x'.ls, x'.labels) == LabelMissing(e, key, c, x.ls, x.labels);
    if Current(e, key, c, x.ls, x.pc) {
      assert Current(e, key, c', x'.ls, x'.pc);
    }
  }

  lemma IPFalls(e: Env, key: CrKey, t: Task, c: Cr, c': Cr, x: Spot, x': Spot)
    requires key.kind.Vxlan? && t.name == key.name && t.ip != ""
    requires c'.(rv := 0) == c.(status := c.status.(localIP := t.ip), rv := 0) && (c.status.localIP == t.ip ==> c' == c)
    requires x.cr == Some(c) && x.pc == APatchIP(t) && x' == x.(cr := Some(c'), pc := AReady(t.(copy := c')))
    ensures Falls(e, key, x, x')
  {
    IPToll(e, key, t, c, c', x, x');
    WriteFalls(e, key, c, c', x, x');
  }

  /** The condition a worker at the end of its run reports. */
  function Report(pc: AgentPc): Condition
    requires pc.AReady? || pc.AFailed?
  {
    Condition(pc.AReady?, if pc.AReady? then "Configured" else pc.reason, pc.task.copy.generation)
  }

  lemma ReadyToll(e: Env, key: CrKey, c: Cr, c': Cr, x: Spot, x': Spot)
    requires (x.pc.AReady? || x.pc.AFailed?) && x.pc.task.name == key.name
    requires c'.(rv := 0) == c.(status := c.status.(ready := Some(Report(x.pc))), rv := 0)
    requires c.status.ready != Some(Report(x.pc)) && x.cr == Some(c) && x' == x.(cr := Some(c'), pc := AIdle)
    ensures Toll(e, key, c', x') < Toll(e, key, c, x)
  {
    assert FinalReady(e, key, c', x'.ls) == FinalReady(e, key, c, x.ls);
    assert LabelMissing(e, key, c', x'.ls, x'.labels) == LabelMissing(e, key, c, x.ls, x.labels);
    assert IPMissing(e, key, c', x'.ls) == IPMissing(e, key, c, x.ls);
    if Current(e, key, c, x.ls, x.pc) {
      assert Report(x.pc) == FinalReady(e, key, c, x.ls);
    }
  }

  lemma ReadyFalls(e: Env, key: CrKey, c: Cr, c': Cr, x: Spot, x': Spot)
    requires (x.pc.AReady? || x.pc.AFailed?) && x.pc.task.name == key.name
    requires c' == c || (c'.(rv := 0) == c.(status := c.status.(ready := Some(Report(x.pc))), rv := 0) && c.status.ready != Some(Report(x.pc)))
    requires x.cr == Some(c) && x' == x.(cr := Some(c'), pc := AIdle)
    ensures Falls(e, key, x, x')
  {
    if c' != c {
      ReadyToll(e, key, c, c', x, x');
    }
    WriteFalls(e, key, c, c', x, x');
  }

  /** The label while the device is up: right for a current run, otherwise paid for. */
  lemma LabelToll(e: Env, key: CrKey, t: Task, c: Cr, x: Spot, x': Spot)
    requires x.pc.ALabelPatch? && x.pc.task == t && t.name == key.name && x.cr == Some(c)
    requires x'.pc == AfterLabel(key.kind, t) && x'.cr == x.cr && x'.ls == x.ls
    requires OwnLabel(key, x'.labels) == WantedLabel(key, t.spec) != OwnLabel(key, x.labels)
    ensures Toll(e, key, c, x') < Toll(e, key, c, x) && (c.terminating ==> Toll(e, key, c, x') + 1 < Toll(e, key, c, x))
  {
    if Current(e, key, c, x.ls, x.pc) {
      assert Current(e, key, c, x'.ls, x'.pc);
    }
  }

  lemma LabelFalls(e: Env, key: CrKey, t: Task, c: Cr, x: Spot, x': Spot)
    requires x.pc.ALabelPatch? && x.pc.task == t && t.name == key.name && x.cr == Some(c)
    requires x'.pc == AfterLabel(key.kind, t) && x'.cr == x.cr && x'.ls == x.ls
    requires OwnLabel(key, x'.labels) == OwnLabel(key, x.labels)
          || OwnLabel(key, x'.labels) == WantedLabel(key, t.spec)
    ensures Falls(e, key, x, x')
  {
    if OwnLabel(key, x'.labels) != OwnLabel(key, x.labels) {
      LabelToll(e, key, t, c, x, x');
    } else {
      assert Debt(e, key, x') <= Debt(e, key, x);
      RestFalls(e, key, x, x');
    }
  }

  lemma UnlabelFalls(e: Env, key: CrKey, c: Cr, x: Spot, x': Spot)
    requires c.terminating && x.cr == Some(c) && x'.cr == x.cr && x'.ls == x.ls && !On(key, x.pc) && !On(key, x'.pc)
    requires OwnLabel(key, x'.labels) == OwnLabel(key, x.labels) || OwnLabel(key, x'.labels) == None
    ensures Falls(e, key, x, x')
  {
  }

  /** A new run, with the lookups' constant answers, is current. */
  lemma StartFalls(e: Env, key: CrKey, c: Cr, x: Spot, x': Spot)
    requires x.cr == Some(c) && !c.terminating && !On(key, x.pc)
    requires x' == x.(pc := StartTask(HostOf(key), key.kind, key.name, c, DevOf(key), e.resolved(key, c.spec), e.detected(key, c.spec)))
    ensures Falls(e, key, x, x') && Debt(e, key, x') == 0
  {
    Luck.ProgramEnds(key.kind, DevOf(key), c.spec, e.resolved(key, c.spec), e.detected(key, c.spec), x.ls);
  }
}
