/**
 * The manager and the agents as a step machine. One step is one API call, one kernel command, or one
 * move of a user or of the host; the workers of all controllers interleave freely. Each controller has
 * one worker. A worker may crash, or give up on an error, before any of its steps.
 *
 * Steps are total: an action that is not enabled changes nothing.
 */
module Protocol {
  import opened Base
  import opened ApiObjects
  import opened ApiStore
  import opened Names
  import opened Kernel
  import opened Programs
  import opened FloodList
  import opened NodeLabels

  type CrStore = Store<CrKey, Spec>
  type TemplateStore = Store<TemplateKey, TemplateSpec>

  /** An agent's configuration run: its in-memory copy of the CR, the spec it runs, and what it did so far. */
  datatype Task = Task(name: string, copy: Cr, spec: Spec, dev: string, ip: string, start: Prog, trace: seq<Attempt>)

  datatype AgentPc = AIdle
                   | AAddFinalizer(name: string, copy: Cr)
                   | ARun(task: Task, rest: Prog)
                   | AFailed(task: Task, reason: string)
                   | ALabel(task: Task)
                   | ALabelPatch(task: Task, snapshot: NodeMap)
                   | APatchIP(task: Task)
                   | AReady(task: Task)
                   | ADelLink(name: string, copy: Cr)
                   | AUnlabel(name: string, copy: Cr, dev: string)
                   | AUnlabelPatch(name: string, copy: Cr, dev: string, snapshot: NodeMap)
                   | ADropFinalizer(name: string, copy: Cr)
                   | AListPeers(remote: Cr)
                   | APeers(remote: Cr, todo: set<string>)
                   | AFdbDel(remote: Cr, todo: set<string>, dev: string)
                   | AFdbAppend(remote: Cr, todo: set<string>, dev: string)

  /** The worker is busy with a configuration run. */
  predicate HasTask(pc: AgentPc) {
    pc.ARun? || pc.AFailed? || pc.ALabel? || pc.ALabelPatch? || pc.APatchIP? || pc.AReady?
  }

  /** The loops over lists keep the set of names still to do, so that every list order is covered. */
  datatype ManagerPc = MIdle
                     | MAddFinalizer(tk: TemplateKey, tmpl: Template)
                     | MListNodes(tk: TemplateKey, tmpl: Template)
                     | MSync(tk: TemplateKey, tmpl: Template, nodes: set<string>, todo: set<string>)
                     | MPut(tk: TemplateKey, tmpl: Template, nodes: set<string>, todo: set<string>, node: string, got: Option<Cr>)
                     | MOrphans(tk: TemplateKey, tmpl: Template, nodes: set<string>, todo: set<string>)
                     | MReady(tk: TemplateKey, tmpl: Template, condition: Condition)
                     | MListOwned(tk: TemplateKey, tmpl: Template)
                     | MDelete(tk: TemplateKey, tmpl: Template, todo: set<string>)

  datatype State = State(tmpls: TemplateStore, crs: CrStore, kernels: map<string, Links>, nodes: map<string, NodeMap>,
                         managers: map<Kind, ManagerPc>, agents: map<(string, Kind), AgentPc>)

  /** `ok` is the luck of the step: without it a call or command fails although it could succeed. */
  datatype ManagerAct = MGet(tk: TemplateKey) | MNodes(nodes: set<string>) | MBadSelector | MTake(item: string, ok: bool) | MGo | MCrash
  datatype AgentAct = AGet(name: string, resolved: Option<int>, detected: Option<string>)
                    | ATake(name: string, ok: bool) | AGo(ok: bool) | ACrash

  datatype Action = OfManager(kind: Kind, mact: ManagerAct)
                  | OfAgent(node: string, kind: Kind, aact: AgentAct)
                  | PutTemplate(tk: TemplateKey, tspec: TemplateSpec)
                  | DeleteTemplate(tk: TemplateKey)
                  | CreateCr(key: CrKey, labels: Labels, spec: Spec)
                  | EditCr(key: CrKey, spec: Spec)
                  | DeleteCr(key: CrKey)
                  | PutLink(host: string, dev: string, link: Link)
                  | DelLink(host: string, dev: string)
                  | EditLabel(host: string, edit: Edit)

  function ManagerOf(s: State, k: Kind): ManagerPc {
    if k in s.managers then s.managers[k] else MIdle
  }

  function AgentOf(s: State, n: string, k: Kind): AgentPc {
    if (n, k) in s.agents then s.agents[(n, k)] else AIdle
  }

  function LinksOf(s: State, n: string): Links {
    if n in s.kernels then s.kernels[n] else map[]
  }

  function LabelsOf(s: State, n: string): NodeMap {
    if n in s.nodes then s.nodes[n] else map[]
  }

  /** The store after a call that may have been refused. */
  function Or<K, S>(r: Option<Store<K, S>>, s: Store<K, S>): Store<K, S> {
    if r.Some? then r.value else s
  }

  function Lookup<K, V>(m: map<K, V>, k: K): Option<V> {
    if k in m then Some(m[k]) else None
  }

  // The manager: what one step makes of the stores and of the worker's position

  datatype ManagerView = ManagerView(tmpls: TemplateStore, crs: CrStore, pc: ManagerPc)

  /** The CRs a list request with the template's labels answers. */
  function Owned(crs: CrStore, tk: TemplateKey): set<string> {
    set key | key in crs.objs && key.kind == tk.kind && LabelledFor(crs.objs[key], tk) :: key.name
  }

  function SyncedCopy(tk: TemplateKey, tmpl: Template, node: string, copy: Cr): Cr {
    copy.(labels := SyncLabels(copy.labels, tk, node), spec := tmpl.spec.spec)
  }

  /** The write of CreateOrUpdate; a copy that is already as wanted is not written back. */
  function PutCr(crs: CrStore, k: Kind, tk: TemplateKey, tmpl: Template, node: string, got: Option<Cr>): Option<CrStore> {
    var key := CrKey(k, Join(node, tmpl.spec.devName));
    match got
    case None => Create(crs, key, SyncLabels(map[], tk, node), tmpl.spec.spec)
    case Some(copy) =>
      if SyncedCopy(tk, tmpl, node, copy) == copy then Some(crs)
      else Update(crs, key, SyncedCopy(tk, tmpl, node, copy))
  }

  function ManagerGet(v: ManagerView, k: Kind, tk: TemplateKey): ManagerPc {
    if tk !in v.tmpls.objs || tk.kind != k then v.pc
    else
      var t := v.tmpls.objs[tk];
      if t.terminating then MListOwned(tk, t) else if !t.finalizer then MAddFinalizer(tk, t) else MListNodes(tk, t)
  }

  function ManagerTake(v: ManagerView, k: Kind, item: string, ok: bool): ManagerView {
    match v.pc
    case MSync(tk, t, nodes, todo) =>
      if item !in todo then v
      else v.(pc := MPut(tk, t, nodes, todo - {item}, item, Lookup(v.crs.objs, CrKey(k, Join(item, t.spec.devName)))))
    case MOrphans(tk, t, nodes, todo) =>
      if item !in todo then v
      else
        var spared := !ok || exists n :: n in nodes && item == Join(n, t.spec.devName);
        ManagerView(v.tmpls, if spared then v.crs else Or(Delete(v.crs, CrKey(k, item)), v.crs), MOrphans(tk, t, nodes, todo - {item}))
    case MDelete(tk, t, todo) =>
      if item !in todo then v
      else ManagerView(v.tmpls, if ok then Or(Delete(v.crs, CrKey(k, item)), v.crs) else v.crs, MDelete(tk, t, todo - {item}))
    case _ => v
  }

  function ManagerGo(v: ManagerView, k: Kind): ManagerView {
    match v.pc
    case MAddFinalizer(tk, t) => ManagerView(Or(Update(v.tmpls, tk, t.(finalizer := true)), v.tmpls), v.crs, MIdle)
    case MSync(tk, t, nodes, todo) => if todo != {} then v else v.(pc := MOrphans(tk, t, nodes, Owned(v.crs, tk)))
    case MPut(tk, t, nodes, todo, node, got) =>
      var r := PutCr(v.crs, k, tk, t, node, got);
      if r.Some? then ManagerView(v.tmpls, r.value, MSync(tk, t, nodes, todo))
      else v.(pc := MReady(tk, t, Condition(false, "ReconcileError", t.generation)))
    case MOrphans(tk, t, nodes, todo) =>
      if todo != {} then v else v.(pc := MReady(tk, t, Condition(true, "ReconcileSucceeded", t.generation)))
    case MReady(tk, t, c) => ManagerView(Or(PatchReady(v.tmpls, tk, t, c), v.tmpls), v.crs, MIdle)
    case MListOwned(tk, t) => v.(pc := MDelete(tk, t, Owned(v.crs, tk)))
    case MDelete(tk, t, todo) =>
      if todo != {} then v else ManagerView(Or(Update(v.tmpls, tk, t.(finalizer := false)), v.tmpls), v.crs, MIdle)
    case _ => v
  }

  function ManagerStep(v: ManagerView, k: Kind, a: ManagerAct): ManagerView {
    match a
    case MGet(tk) => if v.pc.MIdle? then v.(pc := ManagerGet(v, k, tk)) else v
    case MNodes(nodes) => if v.pc.MListNodes? then v.(pc := MSync(v.pc.tk, v.pc.tmpl, nodes, nodes)) else v
    case MBadSelector =>
      if v.pc.MListNodes?
      then v.(pc := MReady(v.pc.tk, v.pc.tmpl, Condition(false, "InvalidSelector", v.pc.tmpl.generation))) else v
    case MTake(item, ok) => ManagerTake(v, k, item, ok)
    case MGo => ManagerGo(v, k)
    case MCrash => v.(pc := MIdle)
  }

  // The agents: what one step makes of the CRs, of the node's links and labels and of the worker's position

  datatype AgentView = AgentView(crs: CrStore, links: Links, labels: NodeMap, pc: AgentPc)

  /** The value of a device's label while it is up: its master for a VXLAN, "true" for the others. */
  function LabelValue(spec: Spec): string {
    if spec.OfVxlan? then spec.vxlan.master else "true"
  }

  function LocalIP(spec: Spec, detected: Option<string>): string {
    if spec.OfVxlan? && LocalAddress(spec.vxlan, detected).Some? then LocalAddress(spec.vxlan, detected).value else ""
  }

  function StartTask(n: string, k: Kind, name: string, c: Cr, dev: string, resolved: Option<int>, detected: Option<string>): AgentPc {
    var p := AgentProgram(k, dev, c.spec, resolved, detected);
    ARun(Task(name, c, c.spec, dev, LocalIP(c.spec, detected), p, []), p)
  }

  function AgentGet(v: AgentView, n: string, k: Kind, name: string, resolved: Option<int>, detected: Option<string>): AgentPc {
    if CrKey(k, name) !in v.crs.objs then v.pc
    else
      var c := v.crs.objs[CrKey(k, name)];
      var dev := ParseDeviceName(name, n);
      if NodeOf(c) == n then
        if c.terminating then if dev.Some? then ADelLink(name, c) else ADropFinalizer(name, c)
        else if !c.finalizer then AAddFinalizer(name, c)
        else if dev.None? then AIdle
        else StartTask(n, k, name, c, dev.value, resolved, detected)
      else if k.Vxlan? && c.status.localIP != "" && Label(c.labels, TemplateName) != "" then AListPeers(c)
      else AIdle
  }

  /** One command of a running program. */
  function AgentCommand(v: AgentView, task: Task, rest: Prog, ok: bool): AgentView
    requires !Ended(rest)
  {
    var a := Attempt(rest.cmd, ok && CanSucceed(v.links, rest.cmd));
    v.(links := if a.ok then Effect(v.links, rest.cmd) else v.links,
    pc := ARun(task.(trace := task.trace + [a]), Advance(rest, a).value))
  }

  function PeersOf(crs: CrStore, remote: Cr, n: string): set<string> {
    set key | key in crs.objs && key.kind.Vxlan? && LocalPeer(crs.objs[key], remote, n) :: key.name
  }

  /** The answer to a patch replaces the in-memory object; a failed one leaves the changed copy. */
  function AgentPatchIP(v: AgentView, k: Kind, task: Task, ok: bool): AgentView {
    var key := CrKey(k, task.name);
    var r := PatchLocalIP(v.crs, key, task.ip);
    if ok && r.Some? then v.(crs := r.value, pc := AReady(task.(copy := r.value.objs[key])))
    else v.(pc := AReady(task.(copy := task.copy.(status := task.copy.status.(localIP := task.ip)))))
  }

  /** What follows the labelling of the Node. */
  function AfterLabel(k: Kind, task: Task): AgentPc {
    if k.Vxlan? && task.ip != "" && task.copy.status.localIP != task.ip then APatchIP(task) else AReady(task)
  }

  /** The agent labels the Node by a get and a merge patch; either may fail, which is only logged. */
  function AgentGo(v: AgentView, n: string, k: Kind, ok: bool): AgentView {
    match v.pc
    case AIdle => v
    case AAddFinalizer(name, c) =>
      v.(crs := Or(Update(v.crs, CrKey(k, name), c.(finalizer := true)), v.crs), pc := AIdle)
    case ARun(task, rest) =>
      if rest.Finished? then v.(pc := ALabel(task))
      else if rest.Aborted? then v.(pc := AFailed(task, rest.reason))
      else AgentCommand(v, task, rest, ok)
    case AFailed(task, reason) =>
      var c := Condition(false, reason, task.copy.generation);
      v.(crs := Or(PatchReady(v.crs, CrKey(k, task.name), task.copy, c), v.crs), pc := AIdle)
    case ALabel(task) => v.(pc := if ok then ALabelPatch(task, v.labels) else AfterLabel(k, task))
    case ALabelPatch(task, snapshot) =>
      v.(labels := if ok then SendPatch(v.labels, snapshot, LabelEdit(k, task.dev, LabelValue(task.spec))) else v.labels,
      pc := AfterLabel(k, task))
    case APatchIP(task) => AgentPatchIP(v, k, task, ok)
    case AReady(task) =>
      var c := Condition(true, "Configured", task.copy.generation);
      v.(crs := Or(PatchReady(v.crs, CrKey(k, task.name), task.copy, c), v.crs), pc := AIdle)
    case ADelLink(name, c) =>
      var dev := ParseDeviceName(name, n);
      if dev.None? then v.(pc := ADropFinalizer(name, c))
      else v.(links := Try(v.links, LinkDel(dev.value), ok), pc := AUnlabel(name, c, dev.value))
    case AUnlabel(name, c, dev) => v.(pc := if ok then AUnlabelPatch(name, c, dev, v.labels) else ADropFinalizer(name, c))
    case AUnlabelPatch(name, c, dev, snapshot) =>
      v.(labels := if ok then SendPatch(v.labels, snapshot, LabelEdit(k, dev, "")) else v.labels, pc := ADropFinalizer(name, c))
    case ADropFinalizer(name, c) =>
      v.(crs := Or(Update(v.crs, CrKey(k, name), c.(finalizer := false)), v.crs), pc := AIdle)
    case AListPeers(remote) => v.(pc := APeers(remote, PeersOf(v.crs, remote, n)))
    case APeers(_, todo) => if todo != {} then v else v.(pc := AIdle)
    case AFdbDel(remote, todo, dev) =>
      v.(links := Try(v.links, FdbDel(dev, remote.status.localIP), ok), pc := AFdbAppend(remote, todo, dev))
    case AFdbAppend(remote, todo, dev) =>
      v.(links := Try(v.links, FdbAppend(dev, remote.status.localIP), ok), pc := APeers(remote, todo))
  }

  function AgentTake(v: AgentView, n: string, name: string, ok: bool): AgentPc {
    if !v.pc.APeers? || name !in v.pc.todo then v.pc
    else
      var dev := ParseDeviceName(name, n);
      if ok && dev.Some? && dev.value in v.links then AFdbDel(v.pc.remote, v.pc.todo - {name}, dev.value)
      else APeers(v.pc.remote, v.pc.todo - {name})
  }

  function AgentStep(v: AgentView, n: string, k: Kind, a: AgentAct): AgentView {
    match a
    case AGet(name, resolved, detected) => if v.pc.AIdle? then v.(pc := AgentGet(v, n, k, name, resolved, detected)) else v
    case ATake(name, ok) => v.(pc := AgentTake(v, n, name, ok))
    case AGo(ok) => AgentGo(v, n, k, ok)
    case ACrash => v.(pc := AIdle)
  }

  // Users and hosts. Users keep device names dot-free and leave kvnet's labels and finalizers alone;
  // CRs they create themselves carry no template labels. Hosts change links as they like, except that
  // flood lists and the record of who made a link are not theirs to write.

  function UserTemplates(st: TemplateStore, a: Action): TemplateStore {
    match a
    case PutTemplate(tk, spec) =>
      if !DotFree(spec.devName) then st
      else if tk in st.objs then Put(st, tk, Edited(st.objs[tk], st.objs[tk].labels, spec, st.objs[tk].finalizer))
      else Put(st, tk, Fresh(map[], spec))
    case DeleteTemplate(tk) => Or(Delete(st, tk), st)
    case _ => st
  }

  function UserCrs(st: CrStore, a: Action): CrStore {
    match a
    case CreateCr(key, labels, spec) =>
      if OwnerOf(key.name) != Some(Label(labels, NodeName)) || TemplateName in labels then st
      else Or(Create(st, key, labels, spec), st)
    case EditCr(key, spec) =>
      if key !in st.objs then st
      else Put(st, key, Edited(st.objs[key], st.objs[key].labels, spec, st.objs[key].finalizer))
    case DeleteCr(key) => Or(Delete(st, key), st)
    case _ => st
  }

  function HostLinks(s: State, a: Action): map<string, Links> {
    match a
    case PutLink(n, dev, link) =>
      var ls := LinksOf(s, n);
      if (if dev in ls then link.creator == ls[dev].creator && link.flood == ls[dev].flood else link.creator.Someone?)
      then s.kernels[n := ls[dev := link]]
      else s.kernels
    case DelLink(n, dev) => s.kernels[n := Unlinked(LinksOf(s, n), dev)]
    case _ => s.kernels
  }

  /** Anyone may edit Node labels other than the devices'. */
  function NodeEdits(s: State, a: Action): map<string, NodeMap> {
    match a
    case EditLabel(n, edit) => if IsDeviceLabel(edit.key) then s.nodes else s.nodes[n := Apply(LabelsOf(s, n), edit)]
    case _ => s.nodes
  }

  function ManagerViewOf(s: State, k: Kind): ManagerView {
    ManagerView(s.tmpls, s.crs, ManagerOf(s, k))
  }

  function AgentViewOf(s: State, n: string, k: Kind): AgentView {
    AgentView(s.crs, LinksOf(s, n), LabelsOf(s, n), AgentOf(s, n, k))
  }

  function Step(s: State, a: Action): State {
    match a
    case OfManager(k, m) =>
      var v := ManagerStep(ManagerViewOf(s, k), k, m);
      s.(tmpls := v.tmpls, crs := v.crs, managers := s.managers[k := v.pc])
    case OfAgent(n, k, m) =>
      var v := AgentStep(AgentViewOf(s, n, k), n, k, m);
      s.(crs := v.crs, kernels := s.kernels[n := v.links], nodes := s.nodes[n := v.labels], agents := s.agents[(n, k) := v.pc])
    case _ => s.(tmpls := UserTemplates(s.tmpls, a), crs := UserCrs(s.crs, a), kernels := HostLinks(s, a), nodes := NodeEdits(s, a))
  }

  function Run(s: State, actions: seq<Action>): State {
    if actions == [] then s else Step(Run(s, actions[..|actions| - 1]), actions[|actions| - 1])
  }

  lemma StepView(s: State, n: string, k: Kind, a: AgentAct)
    ensures AgentViewOf(Step(s, OfAgent(n, k, a)), n, k) == AgentStep(AgentViewOf(s, n, k), n, k, a)
  {
  }

  lemma RunSnoc(s: State, actions: seq<Action>, a: Action)
    ensures Run(s, actions + [a]) == Step(Run(s, actions), a)
  {
    assert (actions + [a])[..|actions + [a]| - 1] == actions;
  }

  lemma RunOne(s: State, a: Action)
    ensures Run(s, [a]) == Step(s, a)
  {
    assert [a][..0] == [];
  }

  lemma {:induction false} RunConcat(s: State, a: seq<Action>, b: seq<Action>)
    ensures Run(s, a + b) == Run(Run(s, a), b)
  {
    if b == [] {
      assert a + b == a;
    } else {
      RunConcat(s, a, b[..|b| - 1]);
      assert (a + b)[..|a + b| - 1] == a + b[..|b| - 1];
    }
  }

  // One worker by itself

  function AgentRuns(v: AgentView, n: string, k: Kind, acts: seq<AgentAct>): AgentView {
    if acts == [] then v else AgentStep(AgentRuns(v, n, k, acts[..|acts| - 1]), n, k, acts[|acts| - 1])
  }

  function ManagerRuns(v: ManagerView, k: Kind, acts: seq<ManagerAct>): ManagerView {
    if acts == [] then v else ManagerStep(ManagerRuns(v, k, acts[..|acts| - 1]), k, acts[|acts| - 1])
  }

  lemma {:induction false} AgentRunsConcat(v: AgentView, n: string, k: Kind, a: seq<AgentAct>, b: seq<AgentAct>)
    ensures AgentRuns(v, n, k, a + b) == AgentRuns(AgentRuns(v, n, k, a), n, k, b)
  {
    if b == [] {
      assert a + b == a;
    } else {
      AgentRunsConcat(v, n, k, a, b[..|b| - 1]);
      assert (a + b)[..|a + b| - 1] == a + b[..|b| - 1];
    }
  }

  lemma AgentRunsOne(v: AgentView, n: string, k: Kind, a: AgentAct)
    ensures AgentRuns(v, n, k, [a]) == AgentStep(v, n, k, a)
  {
    assert [a][..0] == [];
  }

  /** The worker's acts as steps of the whole system. */
  function Solo(n: string, k: Kind, acts: seq<AgentAct>): seq<Action> {
    seq(|acts|, i requires 0 <= i < |acts| => OfAgent(n, k, acts[i]))
  }

  lemma {:induction false} SoloIsRun(s: State, n: string, k: Kind, acts: seq<AgentAct>)
    ensures AgentViewOf(Run(s, Solo(n, k, acts)), n, k) == AgentRuns(AgentViewOf(s, n, k), n, k, acts)
  {
    if acts != [] {
      SoloIsRun(s, n, k, acts[..|acts| - 1]);
      assert Solo(n, k, acts)[..|acts| - 1] == Solo(n, k, acts[..|acts| - 1]);
      StepView(Run(s, Solo(n, k, acts[..|acts| - 1])), n, k, acts[|acts| - 1]);
    }
  }

  lemma AgentRunsSnoc(v: AgentView, n: string, k: Kind, acts: seq<AgentAct>, a: AgentAct)
    ensures AgentRuns(v, n, k, acts + [a]) == AgentStep(AgentRuns(v, n, k, acts), n, k, a)
  {
    assert (acts + [a])[..|acts|] == acts;
  }

  /** Empty stores, idle workers, and hosts whose links are all somebody else's. */
  predicate Init(s: State) {
    && s.tmpls == Store(map[], 0) && s.crs == Store(map[], 0)
    && s.managers == map[] && s.agents == map[]
    && forall n :: n in s.kernels ==> forall d :: d in s.kernels[n] ==> s.kernels[n][d].creator.Someone?
  }

  /** The states of a run of the whole system from its beginning, and the actions between them. */
  ghost predicate Behaviour(h: seq<State>, actions: seq<Action>) {
    |h| == |actions| + 1 && Init(h[0]) && forall i :: 0 <= i < |actions| ==> h[i + 1] == Step(h[i], actions[i])
  }

  function Last(h: seq<State>): State
    requires h != []
  {
    h[|h| - 1]
  }

  lemma {:induction false} BehaviourIsRun(h: seq<State>, actions: seq<Action>, i: nat)
    requires Behaviour(h, actions) && i <= |actions|
    ensures h[i] == Run(h[0], actions[..i])
  {
    if i > 0 {
      BehaviourIsRun(h, actions, i - 1);
      assert actions[..i][..i - 1] == actions[..i - 1];
      assert h[i - 1 + 1] == Step(h[i - 1], actions[i - 1]);
    }
  }

  lemma BehaviourEnds(h: seq<State>, actions: seq<Action>)
    requires Behaviour(h, actions)
    ensures Last(h) == Run(h[0], actions)
  {
    BehaviourIsRun(h, actions, |actions|);
    assert actions[..|actions|] == actions;
  }
}
