/**
 * Where flood destinations come from. In any behaviour of the whole system, every destination on a VXLAN
 * device made by the agent was recorded, at some moment since the device exists, as the local IP of a
 * VXLAN CR of another node; and a local CR of that device then had the same template.
 */
module FloodHistory {
  import opened Base
  import opened ApiObjects
  import opened ApiStore
  import opened Names
  import opened Kernel
  import opened Programs
  import opened Protocol
  import opened ProtocolInvariant
  import SyncSafety
  import opened FloodList
  import opened NoLeak

  predicate Made(s: State, n: string, dev: string) {
    MadeBy(LinksOf(s, n), dev, Vxlan)
  }

  ghost predicate NoNewDevice(s: State, s': State, n: string) {
    forall dev :: Made(s', n, dev) ==> Made(s, n, dev)
  }

  /** The device exists, made by the agent, in every state from the i-th on. */
  ghost predicate Lasting(h: seq<State>, i: nat, n: string, dev: string) {
    forall j :: i <= j < |h| ==> Made(h[j], n, dev)
  }

  /** The remote CR is stored, belongs to another node and announces an address. */
  ghost predicate Source(s: State, remote: Cr, n: string) {
    && (exists key :: key in s.crs.objs && key.kind.Vxlan? && s.crs.objs[key] == remote)
    && NodeOf(remote) != n && remote.status.localIP != "" && Label(remote.labels, TemplateName) != ""
  }

  /** A local CR for the device has the remote's template. */
  predicate PeerAt(s: State, remote: Cr, n: string, dev: string) {
    var key := CrKey(Vxlan, Join(n, dev));
    key in s.crs.objs && LocalPeer(s.crs.objs[key], remote, n)
  }

  /** The remote was read at moment i, and no device of this node is younger. */
  ghost predicate Seen(h: seq<State>, i: nat, n: string, remote: Cr) {
    && i < |h| && Source(h[i], remote, n)
    && forall dev :: Made(Last(h), n, dev) ==> Lasting(h, i, n, dev)
  }

  /** The names were listed as its local peers at moment l. */
  ghost predicate Listed(h: seq<State>, i: nat, l: nat, n: string, remote: Cr, todo: set<string>) {
    && Seen(h, i, n, remote) && i <= l < |h|
    && forall name :: name in todo ==> name in PeersOf(h[l].crs, remote, n)
  }

  ghost predicate PcSeen(h: seq<State>, n: string, pc: AgentPc) {
    match pc
    case AListPeers(r) => exists i: nat :: Seen(h, i, n, r)
    case APeers(r, todo) => exists i: nat, l: nat :: Listed(h, i, l, n, r, todo)
    case AFdbDel(r, todo, dev) => exists i: nat, l: nat :: Listed(h, i, l, n, r, todo) && PeerAt(h[l], r, n, dev)
    case AFdbAppend(r, todo, dev) => exists i: nat, l: nat :: Listed(h, i, l, n, r, todo) && PeerAt(h[l], r, n, dev)
    case _ => true
  }

  ghost predicate WorkerSeen(h: seq<State>, n: string)
    requires h != []
  {
    PcSeen(h, n, AgentOf(Last(h), n, Vxlan))
  }

  /** At moment i the address was that of a remote CR, at l a local CR was its peer, and the device is older. */
  ghost predicate Explained(h: seq<State>, i: nat, l: nat, n: string, dev: string, remote: Cr) {
    i <= l < |h| && Source(h[i], remote, n) && PeerAt(h[l], remote, n, dev) && Lasting(h, i, n, dev)
  }

  ghost predicate FloodSeen(h: seq<State>, n: string, dev: string, ip: string) {
    exists i: nat, l: nat, remote :: Explained(h, i, l, n, dev, remote) && remote.status.localIP == ip
  }

  ghost predicate FloodsSeen(h: seq<State>)
    requires h != []
  {
    forall n, dev, ip :: Made(Last(h), n, dev) && ip in LinksOf(Last(h), n)[dev].flood ==> FloodSeen(h, n, dev, ip)
  }

  /** Programs leave FDBs alone, and only VXLAN workers handle remote peers. */
  predicate PcModest(k: Kind, pc: AgentPc) {
    && (pc.ARun? ==> OnlyCreates(pc.rest, pc.task.dev, k))
    && (pc.AListPeers? || pc.APeers? || pc.AFdbDel? || pc.AFdbAppend? ==> k.Vxlan?)
  }

  predicate WorkerModest(s: State, n: string, k: Kind) {
    PcModest(k, AgentOf(s, n, k))
  }

  ghost predicate HistoryInv(h: seq<State>)
    requires h != []
  {
    && FloodsSeen(h)
    && (forall n :: WorkerSeen(h, n))
    && (forall n, k :: WorkerModest(Last(h), n, k))
  }

  // One agent step

  lemma GoModest(v: AgentView, n: string, k: Kind, ok: bool)
    requires PcModest(k, v.pc)
    ensures PcModest(k, AgentGo(v, n, k, ok).pc)
  {
    if v.pc.ARun? && !Ended(v.pc.rest) {
      assert AgentGo(v, n, k, ok) == AgentCommand(v, v.pc.task, v.pc.rest, ok);
    }
  }

  lemma AgentModest(v: AgentView, n: string, k: Kind, a: AgentAct)
    requires PcModest(k, v.pc)
    ensures PcModest(k, AgentStep(v, n, k, a).pc)
  {
    match a
    case AGet(name, resolved, detected) =>
      if v.pc.AIdle? && CrKey(k, name) in v.crs.objs && ParseDeviceName(name, n).Some? {
        AgentProgramCreates(k, ParseDeviceName(name, n).value, v.crs.objs[CrKey(k, name)].spec, resolved, detected);
      }
    case AGo(ok) => GoModest(v, n, k, ok);
    case _ =>
  }

  /** What a step can add to the flood list of a device. */
  function Adds(pc: AgentPc, dev: string): set<string> {
    if pc.AFdbAppend? && pc.dev == dev then {pc.remote.status.localIP} else {}
  }

  /** A device made by the VXLAN agent was there before, or is new with an empty flood list. */
  ghost predicate Floods(ls: Links, ls': Links, k: Kind, pc: AgentPc, dev: string) {
    MadeBy(ls', dev, Vxlan) ==>
      if MadeBy(ls, dev, Vxlan) then forall ip :: ip in ls'[dev].flood ==> ip in ls[dev].flood || ip in Adds(pc, dev)
      else ls'[dev].flood == [] && k.Vxlan? && pc.ARun?
  }

  lemma CommandFloods(ls: Links, c: Cmd, k: Kind, pc: AgentPc, dev: string)
    requires CanSucceed(ls, c) && pc.ARun? && CreatesOnly(c, pc.task.dev, k)
    ensures Floods(ls, Effect(ls, c), k, pc, dev)
  {
  }

  lemma TryFloods(ls: Links, c: Cmd, ok: bool, k: Kind, pc: AgentPc, dev: string)
    requires c.LinkDel? || c.FdbDel? || (c.FdbAppend? && pc.AFdbAppend? && c.dev == pc.dev && c.dst == pc.remote.status.localIP)
    ensures Floods(ls, Try(ls, c, ok), k, pc, dev)
  {
    if c.FdbDel? && c.dev in ls {
      WithoutDrops(ls[c.dev].flood, c.dst);
    }
  }

  lemma RunFloods(v: AgentView, n: string, k: Kind, ok: bool, dev: string)
    requires PcModest(k, v.pc) && v.pc.ARun?
    ensures Floods(v.links, AgentGo(v, n, k, ok).links, k, v.pc, dev)
  {
    if !Ended(v.pc.rest) {
      assert AgentGo(v, n, k, ok) == AgentCommand(v, v.pc.task, v.pc.rest, ok);
      if ok && CanSucceed(v.links, v.pc.rest.cmd) {
        CommandFloods(v.links, v.pc.rest.cmd, k, v.pc, dev);
      }
    }
  }

  /** The command of a step outside any program. */
  function Tried(v: AgentView, n: string): Option<Cmd> {
    match v.pc
    case ADelLink(name, _) =>
      if ParseDeviceName(name, n).Some? then Some(LinkDel(ParseDeviceName(name, n).value)) else None
    case AFdbDel(r, _, d) => Some(FdbDel(d, r.status.localIP))
    case AFdbAppend(r, _, d) => Some(FdbAppend(d, r.status.localIP))
    case _ => None
  }

  lemma GoTries(v: AgentView, n: string, k: Kind, ok: bool)
    requires !v.pc.ARun?
    ensures AgentGo(v, n, k, ok).links == if Tried(v, n).Some? then Try(v.links, Tried(v, n).value, ok) else v.links
  {
  }

  lemma AgentFloods(v: AgentView, n: string, k: Kind, a: AgentAct, dev: string)
    requires PcModest(k, v.pc)
    ensures Floods(v.links, AgentStep(v, n, k, a).links, k, v.pc, dev)
  {
    if a.AGo? {
      if v.pc.ARun? {
        RunFloods(v, n, k, a.ok, dev);
      } else {
        GoTries(v, n, k, a.ok);
        if Tried(v, n).Some? {
          TryFloods(v.links, Tried(v, n).value, a.ok, k, v.pc, dev);
        }
      }
    }
  }

  /** The worker whose step may add devices or destinations on a node. */
  function Actor(s: State, a: Action, n: string): AgentPc {
    if a.OfAgent? && a.node == n && a.kind.Vxlan? then AgentOf(s, n, Vxlan) else AIdle
  }

  lemma StepFloods(s: State, a: Action, n: string, dev: string)
    requires forall k :: WorkerModest(s, n, k)
    ensures Floods(LinksOf(s, n), LinksOf(Step(s, a), n), Vxlan, Actor(s, a, n), dev)
  {
    if a.OfAgent? && a.node == n {
      assert WorkerModest(s, n, a.kind);
      AgentFloods(AgentViewOf(s, n, a.kind), n, a.kind, a.aact, dev);
    }
  }

  lemma OnlyRunsCreate(s: State, a: Action, n: string)
    requires (forall k :: WorkerModest(s, n, k)) && !Actor(s, a, n).ARun?
    ensures NoNewDevice(s, Step(s, a), n)
  {
    forall dev | Made(Step(s, a), n, dev) ensures Made(s, n, dev) {
      StepFloods(s, a, n, dev);
    }
  }

  // Histories grow

  lemma LastingGrows(h: seq<State>, s': State, i: nat, n: string, dev: string)
    requires Lasting(h, i, n, dev) && Made(s', n, dev)
    ensures Lasting(h + [s'], i, n, dev)
  {
  }

  lemma SeenGrows(h: seq<State>, s': State, i: nat, n: string, r: Cr)
    requires Seen(h, i, n, r) && NoNewDevice(Last(h), s', n)
    ensures Seen(h + [s'], i, n, r)
  {
    forall dev | Made(s', n, dev) ensures Lasting(h + [s'], i, n, dev) {
      LastingGrows(h, s', i, n, dev);
    }
  }

  lemma PcSeenGrows(h: seq<State>, s': State, n: string, pc: AgentPc)
    requires h != [] && PcSeen(h, n, pc) && NoNewDevice(Last(h), s', n)
    ensures PcSeen(h + [s'], n, pc)
  {
    match pc
    case AListPeers(r) => {
      var i: nat :| Seen(h, i, n, r);
      SeenGrows(h, s', i, n, r);
    }
    case APeers(r, todo) => {
      var i: nat, l: nat :| Listed(h, i, l, n, r, todo);
      ListedGrows(h, s', i, l, n, r, todo);
    }
    case AFdbDel(r, todo, dev) => {
      var i: nat, l: nat :| Listed(h, i, l, n, r, todo) && PeerAt(h[l], r, n, dev);
      ListedGrows(h, s', i, l, n, r, todo);
    }
    case AFdbAppend(r, todo, dev) => {
      var i: nat, l: nat :| Listed(h, i, l, n, r, todo) && PeerAt(h[l], r, n, dev);
      ListedGrows(h, s', i, l, n, r, todo);
    }
    case _ =>
  }

  lemma ListedGrows(h: seq<State>, s': State, i: nat, l: nat, n: string, r: Cr, todo: set<string>)
    requires Listed(h, i, l, n, r, todo) && NoNewDevice(Last(h), s', n)
    ensures Listed(h + [s'], i, l, n, r, todo)
  {
    SeenGrows(h, s', i, n, r);
  }

  /** The worker's next position, told from its last one in the same history. */
  lemma PcMoves(h: seq<State>, n: string, pc: AgentPc, v': AgentView, a: AgentAct)
    requires h != [] && PcSeen(h, n, pc)
    requires var s := Last(h); v' == AgentStep(AgentView(s.crs, LinksOf(s, n), LabelsOf(s, n), pc), n, Vxlan, a)
    requires a.AGet? ==> !pc.AIdle?
    requires !pc.AListPeers? || !a.AGo?
    ensures PcSeen(h, n, v'.pc)
  {
    if a.ATake? && pc.APeers? && a.name in pc.todo {
      var r, todo := pc.remote, pc.todo;
      var i: nat, l: nat :| Listed(h, i, l, n, r, todo);
      assert Listed(h, i, l, n, r, todo - {a.name});
      if v'.pc.AFdbDel? {
        assert a.name in PeersOf(h[l].crs, r, n);
        ParseInvertsJoin(a.name, n, v'.pc.dev);
        assert PeerAt(h[l], r, n, v'.pc.dev);
      }
    }
  }

  // Every step

  lemma WorkerStep(h: seq<State>, n: string, a: AgentAct)
    requires h != [] && WorkerSeen(h, n) && WorkerModest(Last(h), n, Vxlan)
    requires AgentOf(Last(h), n, Vxlan).ARun? || NoNewDevice(Last(h), Step(Last(h), OfAgent(n, Vxlan, a)), n)
    ensures WorkerSeen(h + [Step(Last(h), OfAgent(n, Vxlan, a))], n)
  {
    var s := Last(h);
    var s' := Step(s, OfAgent(n, Vxlan, a));
    var v := AgentViewOf(s, n, Vxlan);
    var v', h' := AgentStep(v, n, Vxlan, a), h + [s'];
    StepView(s, n, Vxlan, a);
    if a.AGet? && v.pc.AIdle? {
      if v'.pc.AListPeers? {
        assert s'.crs.objs[CrKey(Vxlan, a.name)] == v'.pc.remote;
        assert Source(h'[|h|], v'.pc.remote, n);
        assert Seen(h', |h|, n, v'.pc.remote);
      }
    } else if a.AGo? && v.pc.AListPeers? {
      var r := v.pc.remote;
      var i: nat :| Seen(h, i, n, r);
      SeenGrows(h, s', i, n, r);
      assert Listed(h', i, |h|, n, r, v'.pc.todo);
    } else if !v.pc.ARun? {
      PcMoves(h, n, v.pc, v', a);
      PcSeenGrows(h, s', n, v'.pc);
    }
  }

  /** A destination that was there keeps its explanation. */
  lemma OldFlood(h: seq<State>, s': State, n: string, dev: string, ip: string)
    requires h != [] && FloodSeen(h, n, dev, ip) && Made(s', n, dev)
    ensures FloodSeen(h + [s'], n, dev, ip)
  {
    var i: nat, l: nat, r :| Explained(h, i, l, n, dev, r) && r.status.localIP == ip;
    LastingGrows(h, s', i, n, dev);
    assert Explained(h + [s'], i, l, n, dev, r);
  }

  /** An appended destination is explained by what the worker has seen. */
  lemma NewFlood(h: seq<State>, s': State, n: string, pc: AgentPc)
    requires h != [] && pc.AFdbAppend? && PcSeen(h, n, pc) && Made(Last(h), n, pc.dev) && Made(s', n, pc.dev)
    ensures FloodSeen(h + [s'], n, pc.dev, pc.remote.status.localIP)
  {
    var r := pc.remote;
    var i: nat, l: nat :| Listed(h, i, l, n, r, pc.todo) && PeerAt(h[l], r, n, pc.dev);
    LastingGrows(h, s', i, n, pc.dev);
    assert Explained(h + [s'], i, l, n, pc.dev, r);
  }

  lemma FloodStep(h: seq<State>, a: Action, n: string, dev: string, ip: string)
    requires h != [] && HistoryInv(h) && Made(Step(Last(h), a), n, dev)
    requires ip in LinksOf(Step(Last(h), a), n)[dev].flood
    ensures FloodSeen(h + [Step(Last(h), a)], n, dev, ip)
  {
    var s := Last(h);
    StepFloods(s, a, n, dev);
    assert WorkerSeen(h, n);
    if ip in LinksOf(s, n)[dev].flood {
      OldFlood(h, Step(s, a), n, dev, ip);
    } else {
      NewFlood(h, Step(s, a), n, Actor(s, a, n));
    }
  }

  lemma WorkersStep(h: seq<State>, a: Action, n: string)
    requires h != [] && HistoryInv(h)
    ensures WorkerSeen(h + [Step(Last(h), a)], n)
  {
    var s := Last(h);
    assert WorkerSeen(h, n) && WorkerModest(s, n, Vxlan);
    if !Actor(s, a, n).ARun? {
      OnlyRunsCreate(s, a, n);
    }
    if a.OfAgent? && a.node == n && a.kind.Vxlan? {
      WorkerStep(h, n, a.aact);
    } else {
      PcSeenGrows(h, Step(s, a), n, AgentOf(s, n, Vxlan));
    }
  }

  lemma ModestStep(s: State, a: Action, n: string, k: Kind)
    requires WorkerModest(s, n, k)
    ensures WorkerModest(Step(s, a), n, k)
  {
    if a.OfAgent? && a.node == n && a.kind == k {
      AgentModest(AgentViewOf(s, n, k), n, k, a.aact);
    }
  }

  lemma HistoryStep(h: seq<State>, a: Action)
    requires h != [] && HistoryInv(h)
    ensures HistoryInv(h + [Step(Last(h), a)])
  {
    var s' := Step(Last(h), a);
    forall n, dev, ip | Made(s', n, dev) && ip in LinksOf(s', n)[dev].flood
      ensures FloodSeen(h + [s'], n, dev, ip)
    {
      FloodStep(h, a, n, dev, ip);
    }
    forall n ensures WorkerSeen(h + [s'], n) {
      WorkersStep(h, a, n);
    }
    forall n, k ensures WorkerModest(s', n, k) {
      ModestStep(Last(h), a, n, k);
    }
  }

  lemma {:induction false} HistoryHolds(h: seq<State>, actions: seq<Action>)
    requires Behaviour(h, actions)
    ensures HistoryInv(h)
  {
    if actions != [] {
      var past, a := h[..|h| - 1], actions[|actions| - 1];
      HistoryHolds(past, actions[..|actions| - 1]);
      assert h[|actions| - 1 + 1] == Step(Last(past), a);
      HistoryStep(past, a);
      assert h == past + [Step(Last(past), a)];
    }
  }

  // Template labels come in pairs

  /** Whatever names a template names its namespace too. */
  ghost predicate Paired(crs: CrStore) {
    forall key :: key in crs.objs && TemplateName in crs.objs[key].labels ==> TemplateNS in crs.objs[key].labels
  }

  lemma PutCrPairs(crs: CrStore, k: Kind, tk: TemplateKey, t: Template, node: string, got: Option<Cr>)
    requires Paired(crs)
    ensures Paired(Or(PutCr(crs, k, tk, t, node, got), crs))
  {
  }

  lemma ManagerPairs(v: ManagerView, k: Kind, m: ManagerAct)
    requires Paired(v.crs)
    ensures Paired(ManagerStep(v, k, m).crs)
  {
    if m.MGo? && v.pc.MPut? {
      PutCrPairs(v.crs, k, v.pc.tk, v.pc.tmpl, v.pc.node, v.pc.got);
      assert ManagerGo(v, k).crs == Or(PutCr(v.crs, k, v.pc.tk, v.pc.tmpl, v.pc.node, v.pc.got), v.crs);
    }
  }

  lemma AgentPairs(v: AgentView, n: string, k: Kind, a: AgentAct)
    requires Paired(v.crs) && CrsOk(v.crs) && AgentOk(v.crs, n, k, v.pc)
    ensures Paired(AgentStep(v, n, k, a).crs)
  {
    var crs' := AgentStep(v, n, k, a).crs;
    forall key | key in crs'.objs ensures key in v.crs.objs && crs'.objs[key].labels == v.crs.objs[key].labels {
      SyncSafety.AgentAddsNoCr(v, n, k, a);
      SyncSafety.AgentKeepsManagerSide(v, n, k, a, key);
    }
  }

  lemma StepPairs(s: State, a: Action)
    requires Inv(s) && Paired(s.crs)
    ensures Paired(Step(s, a).crs)
  {
    match a
    case OfManager(k, m) => ManagerPairs(ManagerViewOf(s, k), k, m);
    case OfAgent(n, k, m) =>
      assert AgentOk(s.crs, n, k, AgentOf(s, n, k));
      AgentPairs(AgentViewOf(s, n, k), n, k, m);
    case _ => UsersPair(s.crs, a);
  }

  lemma UsersPair(crs: CrStore, a: Action)
    requires Paired(crs)
    ensures Paired(UserCrs(crs, a))
  {
  }

  lemma {:induction false} AlwaysPaired(h: seq<State>, actions: seq<Action>, i: nat)
    requires Behaviour(h, actions) && i < |h|
    ensures Paired(h[i].crs)
  {
    if i > 0 {
      AlwaysPaired(h, actions, i - 1);
      assert h[i - 1 + 1] == Step(h[i - 1], actions[i - 1]);
      InvAt(h, actions, i - 1);
      StepPairs(h[i - 1], actions[i - 1]);
    }
  }

  lemma InvAt(h: seq<State>, actions: seq<Action>, i: nat)
    requires Behaviour(h, actions) && i < |h|
    ensures Inv(h[i])
  {
    assert Behaviour(h[..i + 1], actions[..i]);
    BehaviourKeepsInv(h[..i + 1], actions[..i]);
  }

  /**
   * At moment i the remote CR announced its address, and since then the device exists; the remote and, at moment l, the
   * device's own CR were labelled for one template, the one for another node and the other for this.
   */
  ghost predicate SharedTemplate(h: seq<State>, i: nat, l: nat, n: string, dev: string, remote: Cr, tk: TemplateKey) {
    var key := CrKey(Vxlan, Join(n, dev));
    && i <= l < |h| && Source(h[i], remote, n) && LabelledFor(remote, tk) && Lasting(h, i, n, dev)
    && key in h[l].crs.objs && LabelledFor(h[l].crs.objs[key], tk) && OnNode(h[l].crs.objs[key], n)
  }

  /** The template of a remote CR that has been listed for. */
  function TemplateOf(cr: Cr): TemplateKey {
    TemplateKey(Vxlan, Label(cr.labels, TemplateNS), Label(cr.labels, TemplateName))
  }

  lemma ExplainedIsShared(h: seq<State>, i: nat, l: nat, n: string, dev: string, remote: Cr)
    requires Explained(h, i, l, n, dev, remote) && Paired(h[i].crs)
    ensures SharedTemplate(h, i, l, n, dev, remote, TemplateOf(remote))
  {
    var key := CrKey(Vxlan, Join(n, dev));
    assert LabelledFor(remote, TemplateOf(remote));
    PeerIffLabelled(h[l].crs.objs[key], remote, n, TemplateOf(remote));
  }

  /**
   * Soundness of flood lists: in every reachable state each destination of an agent-made device was
   * announced by a CR of another node while the device existed, and by one with the labels of the same template.
   */
  lemma FloodsComeFromPeers(h: seq<State>, actions: seq<Action>, n: string, dev: string, ip: string)
    requires Behaviour(h, actions) && Made(Last(h), n, dev) && ip in LinksOf(Last(h), n)[dev].flood
    ensures exists i: nat, l: nat, remote, tk ::
              SharedTemplate(h, i, l, n, dev, remote, tk) && remote.status.localIP == ip
  {
    HistoryHolds(h, actions);
    assert FloodSeen(h, n, dev, ip);
    var i: nat, l: nat, remote :| Explained(h, i, l, n, dev, remote) && remote.status.localIP == ip;
    AlwaysPaired(h, actions, i);
    ExplainedIsShared(h, i, l, n, dev, remote);
  }

  /** The address is only ever recorded for CRs of this node. */
  ghost predicate BelongsTo(h: seq<State>, ip: string, n: string) {
    forall i, key :: 0 <= i < |h| && key in h[i].crs.objs && key.kind.Vxlan? && h[i].crs.objs[key].status.localIP == ip
                     ==> NodeOf(h[i].crs.objs[key]) == n
  }

  lemma PeersAreElsewhere(h: seq<State>, n: string, dev: string, ip: string)
    requires FloodSeen(h, n, dev, ip)
    ensures !BelongsTo(h, ip, n)
  {
    var i: nat, l: nat, r :| Explained(h, i, l, n, dev, r) && r.status.localIP == ip;
    var key :| key in h[i].crs.objs && key.kind.Vxlan? && h[i].crs.objs[key] == r;
    assert NodeOf(h[i].crs.objs[key]) != n;
  }

  /** With addresses that belong to one node over time, no device floods to its own node. */
  lemma NoDeviceFloodsToItself(h: seq<State>, actions: seq<Action>, n: string, dev: string, ip: string)
    requires Behaviour(h, actions) && Made(Last(h), n, dev) && BelongsTo(h, ip, n)
    ensures ip !in LinksOf(Last(h), n)[dev].flood
  {
    if ip in LinksOf(Last(h), n)[dev].flood {
      HistoryHolds(h, actions);
      PeersAreElsewhere(h, n, dev, ip);
    }
  }
}
