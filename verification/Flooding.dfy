/**
 * Flood lists are complete: in a stretch of the run in which nothing changes, once a node's VXLAN agent has read
 * every recorded VXLAN of the other nodes without needless failure, each of its devices floods to all of them that
 * have the same template, whatever else the agents of the node do meanwhile.
 */
module Flooding {
  import opened Base
  import opened ApiObjects
  import opened Names
  import opened Kernel
  import opened Programs
  import opened FloodList
  import opened Frames
  import opened Protocol
  import opened ProtocolInvariant
  import opened Rank
  import opened AgentRank
  import opened Quiescence
  import opened Stretches
  import opened Rounds
  import StillAgents

  // What the steps do to flood lists

  /** The device, if there is a VXLAN of this name, floods to the address. */
  predicate Flooded(ls: Links, dev: string, ip: string) {
    dev in ls && IsVxlan(ls[dev].mode) ==> ip in ls[dev].flood
  }

  /** The links differ in neither types nor flood lists. */
  predicate SameFloods(ls: Links, ls': Links) {
    ls.Keys == ls'.Keys && forall d :: d in ls ==> ls[d].flood == ls'[d].flood && ls[d].mode == ls'[d].mode
  }

  lemma CommandFloods(e: Env, v: AgentView, n: string, k: Kind)
    requires AgentFits(e, k, v.pc) && v.pc.ARun? && !Ended(v.pc.rest) && !Creates(v)
    ensures SameFloods(v.links, AgentGo(v, n, k, true).links)
  {
    CommandGo(v, n, k);
    assert Own(v.pc.rest.cmd, v.pc.task.dev) || Aside(v.pc.rest.cmd, v.pc.task.dev, Rank.Devices(e.keys));
  }

  predicate Touching(pc: AgentPc) {
    pc.AFdbDel? || pc.AFdbAppend?
  }

  lemma NoTouchNoFlood(e: Env, v: AgentView, n: string, k: Kind, a: AgentAct)
    requires ViewFits(e, v, n, k) && CalmAct(e, v, k, a) && KeepsModes(v, n, a) && !(a.AGo? && Touching(v.pc))
    ensures SameFloods(v.links, AgentStep(v, n, k, a).links)
  {
    if a.AGo? {
      if v.pc.ARun? {
        if Ended(v.pc.rest) {
          EndGo(v, n, k, a.ok);
        } else {
          CommandFloods(e, v, n, k);
        }
      } else if v.pc.ADelLink? {
        DelLinkFalls(e, v, n, k, a.ok, CrKey(k, v.pc.name));
      } else if AboutPeers(v.pc) {
        ListingGo(v, n, k, a.ok);
      } else {
        NoLinksGo(v, n, k, a.ok);
      }
    }
  }

  lemma ListingGo(v: AgentView, n: string, k: Kind, ok: bool)
    requires v.pc.AListPeers? || v.pc.APeers?
    ensures AgentGo(v, n, k, ok).links == v.links
    ensures AgentGo(v, n, k, ok).pc == if v.pc.AListPeers? then APeers(v.pc.remote, PeersOf(v.crs, v.pc.remote, n))
                                       else if v.pc.todo != {} then v.pc else AIdle
  {
  }

  lemma DelGo(v: AgentView, n: string, k: Kind)
    requires v.pc.AFdbDel?
    ensures AgentGo(v, n, k, true) == v.(links := Try(v.links, FdbDel(v.pc.dev, v.pc.remote.status.localIP), true),
                                         pc := AFdbAppend(v.pc.remote, v.pc.todo, v.pc.dev))
  {
  }

  lemma AppendGo(v: AgentView, n: string, k: Kind)
    requires v.pc.AFdbAppend?
    ensures AgentGo(v, n, k, true) == v.(links := Try(v.links, FdbAppend(v.pc.dev, v.pc.remote.status.localIP), true),
                                         pc := APeers(v.pc.remote, v.pc.todo))
  {
  }

  // One device and one address

  /** The device floods to the address, or the worker is just about to append it again. */
  predicate Reaches(v: AgentView, dev: string, ip: string) {
    Flooded(v.links, dev, ip) || (v.pc.AFdbAppend? && v.pc.dev == dev && v.pc.remote.status.localIP == ip)
  }

  /** The worker neither crashes nor fails at a call or command that could succeed. */
  predicate Tireless(a: AgentAct) {
    StillAgents.Lasting(a) && (a.ATake? ==> a.ok)
  }

  lemma DelReaches(v: AgentView, n: string, dev: string, ip: string)
    requires v.pc.AFdbDel? && Reaches(v, dev, ip)
    ensures Reaches(AgentGo(v, n, Vxlan, true), dev, ip)
  {
    DelGo(v, n, Vxlan);
    var gone := v.pc.remote.status.localIP;
    if !(v.pc.dev == dev && gone == ip) && v.pc.dev == dev && CanSucceed(v.links, FdbDel(dev, gone)) {
      WithoutDrops(v.links[dev].flood, gone);
    }
  }

  lemma AppendReaches(v: AgentView, n: string, dev: string, ip: string)
    requires v.pc.AFdbAppend? && Reaches(v, dev, ip)
    ensures Reaches(AgentGo(v, n, Vxlan, true), dev, ip)
  {
    AppendGo(v, n, Vxlan);
  }

  /** Once reached, always reached. */
  lemma StepReaches(e: Env, v: AgentView, n: string, a: AgentAct, dev: string, ip: string)
    requires ViewFits(e, v, n, Vxlan) && CalmAct(e, v, Vxlan, a) && KeepsModes(v, n, a) && Tireless(a) && Reaches(v, dev, ip)
    ensures Reaches(AgentStep(v, n, Vxlan, a), dev, ip)
  {
    if a.AGo? && v.pc.AFdbDel? {
      DelReaches(v, n, dev, ip);
    } else if a.AGo? && v.pc.AFdbAppend? {
      AppendReaches(v, n, dev, ip);
    } else {
      NoTouchNoFlood(e, v, n, Vxlan, a);
    }
  }

  // The handling of one remote VXLAN

  /** The same for the device a CR is named after. */
  predicate ReachesName(v: AgentView, n: string, name: string, ip: string) {
    var dev := ParseDeviceName(name, n);
    dev.Some? ==> Reaches(v, dev.value, ip)
  }

  ghost predicate AllReached(v: AgentView, n: string, names: set<string>, ip: string) {
    forall name :: name in names ==> ReachesName(v, n, name, ip)
  }

  /** Between its list of peers and its end, the worker has reached whatever is off its list. */
  ghost predicate OnTour(v: AgentView, n: string, c: Cr, peers: set<string>) {
    match v.pc
    case AListPeers(r) => r == c
    case APeers(r, todo) => r == c && AllReached(v, n, peers - todo, c.status.localIP)
    case AFdbDel(r, todo, dev) =>
      r == c && forall name :: name in peers - todo ==> ReachesName(v, n, name, c.status.localIP) || ParseDeviceName(name, n) == Some(dev)
    case AFdbAppend(r, todo, dev) => r == c && AllReached(v, n, peers - todo, c.status.localIP)
    case _ => false
  }

  ghost predicate Touring(v: AgentView, n: string, c: Cr, peers: set<string>) {
    AllReached(v, n, peers, c.status.localIP) || OnTour(v, n, c, peers)
  }

  lemma ReachedStays(e: Env, v: AgentView, n: string, a: AgentAct, names: set<string>, ip: string)
    requires ViewFits(e, v, n, Vxlan) && CalmAct(e, v, Vxlan, a) && KeepsModes(v, n, a) && Tireless(a) && AllReached(v, n, names, ip)
    ensures AllReached(AgentStep(v, n, Vxlan, a), n, names, ip)
  {
    forall name | name in names ensures ReachesName(AgentStep(v, n, Vxlan, a), n, name, ip) {
      assert ReachesName(v, n, name, ip);
      if ParseDeviceName(name, n).Some? {
        StepReaches(e, v, n, a, ParseDeviceName(name, n).value, ip);
      }
    }
  }

  lemma TakeTours(v: AgentView, n: string, c: Cr, peers: set<string>, name: string)
    requires v.pc.APeers? && OnTour(v, n, c, peers)
    ensures OnTour(v.(pc := AgentTake(v, n, name, true)), n, c, peers)
  {
    var v', ip := v.(pc := AgentTake(v, n, name, true)), c.status.localIP;
    if name in v.pc.todo {
      forall other | other in peers - (v.pc.todo - {name}) && other != name ensures ReachesName(v', n, other, ip) {
        assert ReachesName(v, n, other, ip);
      }
    }
  }

  lemma DelTours(e: Env, v: AgentView, n: string, c: Cr, peers: set<string>)
    requires ViewFits(e, v, n, Vxlan) && v.pc.AFdbDel? && OnTour(v, n, c, peers)
    ensures OnTour(AgentGo(v, n, Vxlan, true), n, c, peers)
  {
    var v' := AgentGo(v, n, Vxlan, true);
    DelGo(v, n, Vxlan);
    forall name | name in peers - v.pc.todo ensures ReachesName(v', n, name, c.status.localIP) {
      if ParseDeviceName(name, n).Some? && ReachesName(v, n, name, c.status.localIP) {
        DelReaches(v, n, ParseDeviceName(name, n).value, c.status.localIP);
      }
    }
  }

  lemma AppendTours(v: AgentView, n: string, c: Cr, peers: set<string>)
    requires v.pc.AFdbAppend? && OnTour(v, n, c, peers)
    ensures OnTour(AgentGo(v, n, Vxlan, true), n, c, peers)
  {
    var v' := AgentGo(v, n, Vxlan, true);
    AppendGo(v, n, Vxlan);
    forall name | name in peers - v.pc.todo ensures ReachesName(v', n, name, c.status.localIP) {
      assert ReachesName(v, n, name, c.status.localIP);
      if ParseDeviceName(name, n).Some? {
        AppendReaches(v, n, ParseDeviceName(name, n).value, c.status.localIP);
      }
    }
  }

  lemma ListTours(v: AgentView, n: string, c: Cr, peers: set<string>)
    requires (v.pc.AListPeers? || v.pc.APeers?) && OnTour(v, n, c, peers) && PeersOf(v.crs, c, n) == peers
    ensures Touring(AgentGo(v, n, Vxlan, true), n, c, peers)
  {
    var v' := AgentGo(v, n, Vxlan, true);
    ListingGo(v, n, Vxlan, true);
    if v.pc.APeers? && v.pc.todo == {} {
      forall name | name in peers ensures ReachesName(v', n, name, c.status.localIP) {
        assert name in peers - v.pc.todo;
        assert ReachesName(v, n, name, c.status.localIP);
      }
    }
  }

  lemma StepTours(e: Env, v: AgentView, n: string, a: AgentAct, c: Cr, peers: set<string>)
    requires ViewFits(e, v, n, Vxlan) && CalmAct(e, v, Vxlan, a) && KeepsModes(v, n, a) && Tireless(a)
    requires Touring(v, n, c, peers) && PeersOf(v.crs, c, n) == peers
    ensures Touring(AgentStep(v, n, Vxlan, a), n, c, peers)
  {
    if AllReached(v, n, peers, c.status.localIP) {
      ReachedStays(e, v, n, a, peers, c.status.localIP);
    } else if a.AGo? {
      if v.pc.AFdbDel? {
        DelTours(e, v, n, c, peers);
      } else if v.pc.AFdbAppend? {
        AppendTours(v, n, c, peers);
      } else {
        ListTours(v, n, c, peers);
      }
    } else if a.ATake? && v.pc.APeers? {
      TakeTours(v, n, c, peers, a.name);
    }
  }

  // Steps of others

  lemma OthersTour(v: AgentView, v': AgentView, n: string, c: Cr, peers: set<string>)
    requires SameFloods(v.links, v'.links) && v'.pc == v.pc && Touring(v, n, c, peers)
    ensures Touring(v', n, c, peers)
  {
    forall name | ReachesName(v, n, name, c.status.localIP) ensures ReachesName(v', n, name, c.status.localIP) {
    }
  }

  /** Another worker's step on the node, as the VXLAN worker sees it. */
  lemma OtherKindTours(e: Env, s: State, n: string, k: Kind, a: AgentAct, c: Cr, peers: set<string>)
    requires Fits(e, s) && Calm(e, s, OfAgent(n, k, a)) && KeepsModes(AgentViewOf(s, n, k), n, a) && !k.Vxlan?
    requires Touring(AgentViewOf(s, n, Vxlan), n, c, peers)
    ensures Touring(AgentViewOf(Step(s, OfAgent(n, k, a)), n, Vxlan), n, c, peers)
  {
    AgentViewFits(e, s, n, k);
    StepView(s, n, k, a);
    NoTouchNoFlood(e, AgentViewOf(s, n, k), n, k, a);
    OthersTour(AgentViewOf(s, n, Vxlan), AgentViewOf(Step(s, OfAgent(n, k, a)), n, Vxlan), n, c, peers);
  }

  // Any step of a stretch in which nothing changes

  /** A VXLAN with a recorded address and template labels, on another node. */
  predicate Announces(c: Cr, n: string) {
    NodeOf(c) != n && c.status.localIP != "" && Label(c.labels, TemplateName) != ""
  }

  ghost predicate TouringAt(s: State, n: string, c: Cr) {
    Touring(AgentViewOf(s, n, Vxlan), n, c, PeersOf(s.crs, c, n))
  }

  lemma SamePeers(crs: CrStore, crs': CrStore, c: Cr, n: string)
    requires crs'.objs == crs.objs
    ensures PeersOf(crs', c, n) == PeersOf(crs, c, n)
  {
  }

  lemma StaysOnTour(e: Env, s: State, a: Action, n: string, c: Cr)
    requires Fits(e, s) && Calm(e, s, a) && !Changed(s, Step(s, a)) && TouringAt(s, n, c)
    requires a.OfAgent? && a.node == n && a.kind.Vxlan? ==> Tireless(a.aact)
    ensures TouringAt(Step(s, a), n, c)
  {
    SamePeers(s.crs, Step(s, a).crs, c, n);
    if a.OfAgent? && a.node == n {
      var k, v := a.kind, AgentViewOf(s, n, a.kind);
      AgentViewFits(e, s, n, k);
      StepView(s, n, k, a.aact);
      assert Modes(LinksOf(Step(s, a), n)) == Modes(LinksOf(s, n));
      StillAgents.StillKeepsModes(e, v, n, k, a.aact);
      if k.Vxlan? {
        StepTours(e, v, n, a.aact, c, PeersOf(s.crs, c, n));
      } else {
        OtherKindTours(e, s, n, k, a.aact, c, PeersOf(s.crs, c, n));
      }
    } else {
      OthersTour(AgentViewOf(s, n, Vxlan), AgentViewOf(Step(s, a), n, Vxlan), n, c, PeersOf(s.crs, c, n));
    }
  }

  lemma GetsOnTour(s: State, a: Action, n: string, key: CrKey)
    requires key.kind.Vxlan? && key in s.crs.objs && Announces(s.crs.objs[key], n)
    requires a.OfAgent? && a.node == n && a.kind.Vxlan? && a.aact.AGet? && a.aact.name == key.name && AgentOf(s, n, Vxlan).AIdle?
    ensures TouringAt(Step(s, a), n, s.crs.objs[key])
  {
    assert key == CrKey(Vxlan, key.name);
    StepView(s, n, Vxlan, a.aact);
  }

  // Whole rounds

  /** The node's VXLAN worker gets the remote CR, and is idle again later, without a crash or a needless failure. */
  ghost predicate RemoteServes(s: State, seg: seq<Action>, n: string, key: CrKey, i: nat, j: nat) {
    && i < j <= |seg| && key.kind.Vxlan?
    && seg[i].OfAgent? && seg[i].node == n && seg[i].kind.Vxlan? && seg[i].aact.AGet? && seg[i].aact.name == key.name
    && AgentOf(StateAt(s, seg, i), n, Vxlan).AIdle? && AgentOf(StateAt(s, seg, j), n, Vxlan).AIdle?
    && forall m :: i < m < j && seg[m].OfAgent? && seg[m].node == n && seg[m].kind.Vxlan? ==> Tireless(seg[m].aact)
  }

  ghost predicate RemoteRound(e: Env, s: State, seg: seq<Action>, n: string, key: CrKey, i: nat, j: nat) {
    QuietStretch(e, s, seg) && key in s.crs.objs && Announces(s.crs.objs[key], n) && RemoteServes(s, seg, n, key, i, j)
  }

  /** After the get the tour is under way. */
  ghost predicate TourAt(s: State, seg: seq<Action>, n: string, key: CrKey, i: nat, m: nat)
    requires key in s.crs.objs
  {
    m <= |seg| && (i < m ==> TouringAt(StateAt(s, seg, m), n, s.crs.objs[key]))
  }

  lemma TourNext(e: Env, s: State, seg: seq<Action>, n: string, key: CrKey, i: nat, j: nat, m: nat)
    requires RemoteRound(e, s, seg, n, key, i, j) && i <= m < j && TourAt(s, seg, n, key, i, m)
    ensures TourAt(s, seg, n, key, i, m + 1)
  {
    var now, next := QuietStep(e, s, seg, m);
    if m == i {
      GetsOnTour(now, seg[m], n, key);
    } else {
      StaysOnTour(e, now, seg[m], n, s.crs.objs[key]);
    }
  }

  lemma TourGoesOn(e: Env, s: State, seg: seq<Action>, n: string, key: CrKey, i: nat, j: nat, p: nat -> bool)
    requires RemoteRound(e, s, seg, n, key, i, j)
    requires p == ((m: nat) => TourAt(s, seg, n, key, i, m))
    ensures forall m: nat :: i <= m < j ==> Next(p, m)
  {
    forall m: nat | i <= m < j ensures Next(p, m) {
      if p(m) {
        TourNext(e, s, seg, n, key, i, j, m);
      }
    }
  }

  lemma TourEnds(e: Env, s: State, seg: seq<Action>, n: string, key: CrKey, i: nat, j: nat)
    requires RemoteRound(e, s, seg, n, key, i, j)
    ensures AllReached(AgentViewOf(StateAt(s, seg, j), n, Vxlan), n, PeersOf(s.crs, s.crs.objs[key], n), s.crs.objs[key].status.localIP)
  {
    var tour := (m: nat) => TourAt(s, seg, n, key, i, m);
    TourGoesOn(e, s, seg, n, key, i, j, tour);
    Chain(tour, i, j, j);
    QuietPrefix(s, seg, j);
    NothingChanges(s, seg[..j]);
    SamePeers(s.crs, StateAt(s, seg, j).crs, s.crs.objs[key], n);
  }

  /** Once an idle worker has handled a remote VXLAN, every local device of the same template floods to it. */
  lemma RemoteIsReached(e: Env, s: State, seg: seq<Action>, n: string, key: CrKey, i: nat, j: nat, local: CrKey)
    requires RemoteRound(e, s, seg, n, key, i, j)
    requires local.kind.Vxlan? && local in s.crs.objs && LocalPeer(s.crs.objs[local], s.crs.objs[key], n)
    ensures Flooded(LinksOf(StateAt(s, seg, j), n), DevOf(local), s.crs.objs[key].status.localIP)
  {
    TourEnds(e, s, seg, n, key, i, j);
    var v := AgentViewOf(StateAt(s, seg, j), n, Vxlan);
    assert local == CrKey(Vxlan, local.name);
    assert local.name in PeersOf(s.crs, s.crs.objs[key], n);
    assert ReachesName(v, n, local.name, s.crs.objs[key].status.localIP);
    NameIsHostAndDev(local);
  }

  /** By step j the node has heard of every recorded VXLAN elsewhere. */
  ghost predicate HeardOfAll(s: State, seg: seq<Action>, n: string, j: nat) {
    forall key :: key in s.crs.objs && key.kind.Vxlan? && Announces(s.crs.objs[key], n) ==> Heard(s, seg, n, key, j)
  }

  ghost predicate Heard(s: State, seg: seq<Action>, n: string, key: CrKey, j: nat) {
    exists i :: RemoteServes(s, seg, n, key, i, j)
  }

  /** A recorded VXLAN of another node and a VXLAN of this one are labelled for the same template. */
  predicate SameTemplate(crs: CrStore, n: string, key: CrKey, local: CrKey, tk: TemplateKey) {
    && key in crs.objs && key.kind.Vxlan? && LabelledFor(crs.objs[key], tk) && NodeOf(crs.objs[key]) != n
    && local in crs.objs && local.kind.Vxlan? && LabelledFor(crs.objs[local], tk) && OnNode(crs.objs[local], n)
  }

  /**
   * In a stretch in which nothing changes, a node that has heard of every recorded VXLAN of the others floods from
   * each of its VXLAN devices to the recorded addresses of all that are labelled for the device's template.
   */
  lemma FloodsAreComplete(e: Env, s: State, seg: seq<Action>, n: string, j: nat)
    requires QuietStretch(e, s, seg) && j <= |seg| && HeardOfAll(s, seg, n, j)
    ensures forall key, local, tk :: SameTemplate(s.crs, n, key, local, tk) && tk.name != "" && s.crs.objs[key].status.localIP != ""
              ==> Flooded(LinksOf(StateAt(s, seg, j), n), DevOf(local), s.crs.objs[key].status.localIP)
  {
    forall key, local, tk | SameTemplate(s.crs, n, key, local, tk) && tk.name != "" && s.crs.objs[key].status.localIP != ""
      ensures Flooded(LinksOf(StateAt(s, seg, j), n), DevOf(local), s.crs.objs[key].status.localIP)
    {
      PeerIffLabelled(s.crs.objs[local], s.crs.objs[key], n, tk);
      assert Heard(s, seg, n, key, j);
      var i :| RemoteServes(s, seg, n, key, i, j);
      RemoteIsReached(e, s, seg, n, key, i, j, local);
    }
  }
}
