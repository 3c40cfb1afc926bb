/**
 * Quiescence: with users and hosts silent, the lookups and the selected nodes constant, and configuring commands
 * failing only when they cannot succeed, every step that changes a CR, a template, a Node label, or which links
 * there are, decreases a natural number. The loop of syncs, finalizers, labels, status patches and deletions
 * therefore ends from every reachable state, whatever the interleaving, the crashes and the conflicts.
 */
module Quiescence {
  import opened Base
  import opened ApiObjects
  import opened ApiStore
  import opened Names
  import opened NodeLabels
  import opened Kernel
  import opened Programs
  import opened Frames
  import opened Protocol
  import opened ProtocolInvariant
  import opened Rank
  import opened AgentRank
  import opened ManagerRank
  import L = Labelling
  import NoLeak
  import ReadyHonest
  import SyncSafety

  // Sums

  ghost function Pick<K(!new)>(keys: set<K>): (key: K)
    requires keys != {}
    ensures key in keys
  {
    var key :| key in keys; key
  }

  ghost function Sum<K(!new)>(f: K -> nat, keys: set<K>): nat {
    if keys == {} then 0 else f(Pick(keys)) + Sum(f, keys - {Pick(keys)})
  }

  lemma {:induction false} SumFalls<K(!new)>(f: K -> nat, g: K -> nat, keys: set<K>)
    requires forall key :: key in keys ==> g(key) <= f(key)
    ensures Sum(g, keys) <= Sum(f, keys)
  {
    if keys != {} {
      SumFalls(f, g, keys - {Pick(keys)});
    }
  }

  lemma {:induction false} SumMoves<K(!new)>(f: K -> nat, g: K -> nat, keys: set<K>, one: K, d: int)
    requires one in keys && g(one) <= f(one) + d && forall key :: key in keys && key != one ==> g(key) <= f(key)
    ensures Sum(g, keys) <= Sum(f, keys) + d
  {
    if Pick(keys) == one {
      SumFalls(f, g, keys - {one});
    } else {
      SumMoves(f, g, keys - {Pick(keys)}, one, d);
    }
  }

  lemma {:induction false} SumShakes<K(!new)>(f: K -> nat, g: K -> nat, keys: set<K>)
    requires forall key :: key in keys ==> g(key) <= f(key) + 9
    ensures Sum(g, keys) <= Sum(f, keys) + 9 * |keys|
  {
    if keys != {} {
      SumShakes(f, g, keys - {Pick(keys)});
      assert |keys - {Pick(keys)}| == |keys| - 1;
    }
  }

  // The surroundings, and what the steps keep of them

  ghost predicate Fits(e: Env, s: State) {
    && PlansFit(e) && Inv(s) && L.CopiesCurrent(s) && TemplatesFit(e, s.tmpls) && CrsFit(e, s.crs)
    && (forall k :: ManagerCovered(e, s.crs, k, ManagerOf(s, k)))
    && (forall n, k :: AgentFits(e, k, AgentOf(s, n, k)))
  }

  /** A step of a manager or an agent that agrees with the surroundings. */
  ghost predicate Calm(e: Env, s: State, a: Action) {
    match a
    case OfManager(k, m) => CalmManager(e, ManagerViewOf(s, k), m)
    case OfAgent(n, k, m) => CalmAct(e, AgentViewOf(s, n, k), k, m)
    case _ => false
  }

  lemma ManagerViewFits(e: Env, s: State, k: Kind)
    requires Fits(e, s)
    ensures ManagerFits(e, ManagerViewOf(s, k), k)
  {
    assert ManagerOk(s.tmpls, s.crs, k, ManagerOf(s, k)) && ManagerCovered(e, s.crs, k, ManagerOf(s, k));
  }

  lemma AgentViewFits(e: Env, s: State, n: string, k: Kind)
    requires Fits(e, s)
    ensures ViewFits(e, AgentViewOf(s, n, k), n, k)
  {
    assert AgentOk(s.crs, n, k, AgentOf(s, n, k)) && AgentFits(e, k, AgentOf(s, n, k));
    assert L.Current(LabelsOf(s, n), k, AgentOf(s, n, k));
  }

  /** A manager writes CRs of its own kind only. */
  lemma ManagersKeepToTheirKind(v: ManagerView, k: Kind, m: ManagerAct, key: CrKey)
    requires key.kind != k
    ensures Lookup(ManagerStep(v, k, m).crs.objs, key) == Lookup(v.crs.objs, key)
  {
    if m.MGo? && v.pc.MPut? {
      assert ManagerGo(v, k).crs == Or(PutCr(v.crs, k, v.pc.tk, v.pc.tmpl, v.pc.node, v.pc.got), v.crs);
      PutCrElsewhere(v.crs, k, v.pc.tk, v.pc.tmpl, v.pc.node, v.pc.got, key);
    }
  }

  /** The CRs of this kind are, as far as a manager in flight can tell, the same. */
  ghost predicate SameLabels(crs: CrStore, crs': CrStore, k: Kind) {
    forall name :: CrKey(k, name) in crs'.objs ==>
      CrKey(k, name) in crs.objs && crs'.objs[CrKey(k, name)].labels == crs.objs[CrKey(k, name)].labels
  }

  lemma StaysUpToDate(e: Env, crs: CrStore, crs': CrStore, k: Kind, pc: ManagerPc)
    requires UpToDate(e, crs, pc) && SameLabels(crs, crs', k) && (pc.MIdle? || pc.tk.kind == k)
    ensures UpToDate(e, crs', pc)
  {
  }

  lemma SameLookupsSameLabels(crs: CrStore, crs': CrStore, k: Kind)
    requires forall name :: Lookup(crs'.objs, CrKey(k, name)) == Lookup(crs.objs, CrKey(k, name))
    ensures SameLabels(crs, crs', k)
  {
    forall name | CrKey(k, name) in crs'.objs
      ensures CrKey(k, name) in crs.objs && crs'.objs[CrKey(k, name)].labels == crs.objs[CrKey(k, name)].labels
    {
      assert Lookup(crs'.objs, CrKey(k, name)) == Lookup(crs.objs, CrKey(k, name));
    }
  }

  lemma AgentKeepsCrs(e: Env, v: AgentView, n: string, k: Kind, a: AgentAct)
    requires ViewFits(e, v, n, k)
    ensures CrsFit(e, AgentStep(v, n, k, a).crs) && forall j :: SameLabels(v.crs, AgentStep(v, n, k, a).crs, j)
  {
    var crs' := AgentStep(v, n, k, a).crs;
    forall key | key in crs'.objs
      ensures key in v.crs.objs && crs'.objs[key].labels == v.crs.objs[key].labels && crs'.objs[key].spec == v.crs.objs[key].spec
    {
      SyncSafety.AgentAddsNoCr(v, n, k, a);
      SyncSafety.AgentKeepsManagerSide(v, n, k, a, key);
    }
  }

  lemma ManagerStepStaysFit(e: Env, s: State, k: Kind, m: ManagerAct)
    requires Fits(e, s) && Calm(e, s, OfManager(k, m))
    ensures Fits(e, Step(s, OfManager(k, m)))
  {
    var s' := Step(s, OfManager(k, m));
    StepKeepsInv(s, OfManager(k, m));
    L.StepCurrent(s, OfManager(k, m));
    ManagerViewFits(e, s, k);
    ManagerStaysFit(e, ManagerViewOf(s, k), k, m);
    forall j ensures ManagerCovered(e, s'.crs, j, ManagerOf(s', j)) {
      if j != k {
        ManagerViewFits(e, s, j);
        OtherManagersKeep(e, s, k, m, j);
      }
    }
    forall n, j ensures AgentFits(e, j, AgentOf(s', n, j)) {
      assert AgentFits(e, j, AgentOf(s, n, j));
    }
  }

  /** What a manager's step means to the manager of another kind. */
  lemma OtherManagersKeep(e: Env, s: State, k: Kind, m: ManagerAct, j: Kind)
    requires Inv(s) && j != k
    ensures SameLabels(s.crs, Step(s, OfManager(k, m)).crs, j)
    ensures UpToDate(e, s.crs, ManagerOf(s, j)) ==> UpToDate(e, Step(s, OfManager(k, m)).crs, ManagerOf(s, j))
    ensures forall name :: Lookup(Step(s, OfManager(k, m)).crs.objs, CrKey(j, name)) == Lookup(s.crs.objs, CrKey(j, name))
  {
    var s' := Step(s, OfManager(k, m));
    forall name ensures Lookup(s'.crs.objs, CrKey(j, name)) == Lookup(s.crs.objs, CrKey(j, name)) {
      ManagersKeepToTheirKind(ManagerViewOf(s, k), k, m, CrKey(j, name));
    }
    SameLookupsSameLabels(s.crs, s'.crs, j);
    assert ManagerOk(s.tmpls, s.crs, j, ManagerOf(s, j));
    if UpToDate(e, s.crs, ManagerOf(s, j)) {
      StaysUpToDate(e, s.crs, s'.crs, j, ManagerOf(s, j));
    }
  }

  lemma AgentStepStaysFit(e: Env, s: State, n: string, k: Kind, m: AgentAct)
    requires Fits(e, s)
    ensures Fits(e, Step(s, OfAgent(n, k, m)))
  {
    var s' := Step(s, OfAgent(n, k, m));
    StepKeepsInv(s, OfAgent(n, k, m));
    L.StepCurrent(s, OfAgent(n, k, m));
    AgentViewFits(e, s, n, k);
    StepStaysFit(e, AgentViewOf(s, n, k), n, k, m);
    AgentKeepsCrs(e, AgentViewOf(s, n, k), n, k, m);
    forall j ensures ManagerCovered(e, s'.crs, j, ManagerOf(s', j)) {
      assert ManagerCovered(e, s.crs, j, ManagerOf(s, j)) && ManagerOk(s.tmpls, s.crs, j, ManagerOf(s, j));
      if UpToDate(e, s.crs, ManagerOf(s, j)) {
        StaysUpToDate(e, s.crs, s'.crs, j, ManagerOf(s, j));
      }
    }
    forall n', j ensures AgentFits(e, j, AgentOf(s', n', j)) {
      assert AgentFits(e, j, AgentOf(s, n', j));
    }
  }

  lemma CalmStaysFit(e: Env, s: State, a: Action)
    requires Fits(e, s) && Calm(e, s, a)
    ensures Fits(e, Step(s, a))
  {
    if a.OfManager? {
      ManagerStepStaysFit(e, s, a.kind, a.mact);
    } else {
      AgentStepStaysFit(e, s, a.node, a.kind, a.aact);
    }
  }

  // The ranks of a state

  function SpotAt(s: State, key: CrKey): Spot {
    Spot(Lookup(s.crs.objs, key), LinksOf(s, HostOf(key)), LabelsOf(s, HostOf(key)), AgentOf(s, HostOf(key), key.kind))
  }

  ghost function Ranks(e: Env, s: State): nat {
    Sum(key => KeyRank(e, key, SpotAt(s, key)), e.keys)
  }

  ghost function Skeletons(e: Env, s: State): nat {
    Sum(key => Skeleton(e, key, SpotAt(s, key)), e.keys)
  }

  ghost function TemplateRanks(e: Env, s: State): nat {
    Sum(tk => TemplateRank(e, tk, Lookup(s.tmpls.objs, tk)), e.known)
  }

  ghost function TroubleOf(e: Env, s: State, k: Kind): nat {
    Trouble(e, s.crs, k, ManagerOf(s, k))
  }

  ghost function StaleOf(e: Env, s: State, k: Kind): nat {
    Stale(e, s.crs, ManagerOf(s, k))
  }

  ghost function Troubles(e: Env, s: State): nat {
    TroubleOf(e, s, Bridge) + TroubleOf(e, s, Uplink) + TroubleOf(e, s, Vxlan)
  }

  ghost function Stales(e: Env, s: State): nat {
    StaleOf(e, s, Bridge) + StaleOf(e, s, Uplink) + StaleOf(e, s, Vxlan)
  }

  /** `n` is the number of names in play. */
  function Weigh(n: nat, ranks: nat, skeletons: nat, templates: nat, stales: nat): nat {
    3 * ranks + (27 * n + 3) * skeletons + templates + (81 * n + 85) * stales
  }

  ghost function Potential(e: Env, s: State): nat {
    Weigh(|e.keys|, Ranks(e, s), Skeletons(e, s), TemplateRanks(e, s) + Troubles(e, s), Stales(e, s))
  }

  lemma MulUp(c: nat, x: nat, y: nat, d: int)
    requires x <= y + d
    ensures c * x <= c * y + c * d
  {
    var z := y + d - x;
    assert c * (x + z) == c * x + c * z;
  }

  lemma WeighCalm(n: nat, a: nat, b: nat, t: nat, o: nat, a': nat, b': nat, t': nat, o': nat, d: nat)
    requires 3 * a' + t' + d <= 3 * a + t && b' <= b && o' <= o
    ensures Weigh(n, a', b', t', o') + d <= Weigh(n, a, b, t, o)
  {
    MulUp(27 * n + 3, b', b, 0);
    MulUp(81 * n + 85, o', o, 0);
  }

  lemma WeighShaken(n: nat, a: nat, b: nat, t: nat, o: nat, a': nat, b': nat, t': nat, o': nat)
    requires a' <= a + 9 * n && b' <= b - 1 && t' <= t && o' <= o
    ensures Weigh(n, a', b', t', o') + 1 <= Weigh(n, a, b, t, o)
  {
    MulUp(27 * n + 3, b', b, -1);
    MulUp(81 * n + 85, o', o, 0);
  }

  lemma WeighStale(n: nat, a: nat, b: nat, t: nat, o: nat, a': nat, b': nat, t': nat, o': nat)
    requires a' <= a + 25 && b' <= b + 3 && t' <= t && o' <= o - 1
    ensures Weigh(n, a', b', t', o') + 1 <= Weigh(n, a, b, t, o)
  {
    MulUp(27 * n + 3, b', b, 3);
    MulUp(81 * n + 85, o', o, -1);
  }

  // What counts as a change

  ghost predicate Relabelled(s: State, s': State) {
    exists n :: LabelsOf(s', n) != LabelsOf(s, n)
  }

  ghost predicate Relinked(s: State, s': State) {
    exists n :: Modes(LinksOf(s', n)) != Modes(LinksOf(s, n))
  }

  /** Of CRs and templates anything counts, of Nodes the labels, of links which there are and of what type. */
  ghost predicate Changed(s: State, s': State) {
    s'.crs.objs != s.crs.objs || s'.tmpls.objs != s.tmpls.objs || Relabelled(s, s') || Relinked(s, s')
  }

  ghost predicate KeyFalls(e: Env, s: State, s': State, key: CrKey) {
    Falls(e, key, SpotAt(s, key), SpotAt(s', key))
  }

  lemma AllFall(e: Env, s: State, s': State)
    requires forall key :: key in e.keys ==> KeyFalls(e, s, s', key)
    ensures Ranks(e, s') <= Ranks(e, s) && Skeletons(e, s') <= Skeletons(e, s)
  {
    SumFalls(key => KeyRank(e, key, SpotAt(s, key)), key => KeyRank(e, key, SpotAt(s', key)), e.keys);
    SumFalls(key => Skeleton(e, key, SpotAt(s, key)), key => Skeleton(e, key, SpotAt(s', key)), e.keys);
  }

  /** One CR or label was written. */
  lemma OneFalls(e: Env, s: State, s': State, one: CrKey)
    requires one in e.keys && forall key :: key in e.keys ==> KeyFalls(e, s, s', key)
    requires KeyRank(e, one, SpotAt(s', one)) < KeyRank(e, one, SpotAt(s, one))
    ensures Ranks(e, s') < Ranks(e, s) && Skeletons(e, s') <= Skeletons(e, s)
  {
    AllFall(e, s, s');
    assert forall key :: key in e.keys && key != one ==> KeyFalls(e, s, s', key);
    SumMoves(key => KeyRank(e, key, SpotAt(s, key)), key => KeyRank(e, key, SpotAt(s', key)), e.keys, one, -1);
  }

  // One step of an agent

  /** What a CR's surroundings become when this worker goes from one view to another. */
  function SpotAfter(s: State, n: string, k: Kind, v': AgentView, key: CrKey): Spot {
    if HostOf(key) != n then SpotAt(s, key).(cr := Lookup(v'.crs.objs, key))
    else Spot(Lookup(v'.crs.objs, key), v'.links, v'.labels, if key.kind == k then v'.pc else SpotAt(s, key).pc)
  }

  /** The state in which this worker has this view. */
  function With(s: State, n: string, k: Kind, v: AgentView): State {
    s.(crs := v.crs, kernels := s.kernels[n := v.links], nodes := s.nodes[n := v.labels], agents := s.agents[(n, k) := v.pc])
  }

  lemma Seen(s: State, n: string, k: Kind, v: AgentView, m: string, j: Kind)
    ensures LinksOf(With(s, n, k, v), m) == if m == n then v.links else LinksOf(s, m)
    ensures LabelsOf(With(s, n, k, v), m) == if m == n then v.labels else LabelsOf(s, m)
    ensures AgentOf(With(s, n, k, v), m, j) == if m == n && j == k then v.pc else AgentOf(s, m, j)
  {
  }

  lemma SpotWith(s: State, n: string, k: Kind, v: AgentView, key: CrKey)
    ensures SpotAt(With(s, n, k, v), key) == SpotAfter(s, n, k, v, key)
    ensures SpotAt(s, key) == SpotAfter(s, n, k, AgentViewOf(s, n, k), key)
  {
    Seen(s, n, k, v, HostOf(key), key.kind);
  }

  lemma SpotAfterStep(s: State, n: string, k: Kind, a: AgentAct, key: CrKey)
    ensures SpotAt(Step(s, OfAgent(n, k, a)), key) == SpotAfter(s, n, k, AgentStep(AgentViewOf(s, n, k), n, k, a), key)
    ensures SpotAt(s, key) == SpotAfter(s, n, k, AgentViewOf(s, n, k), key)
  {
    SpotWith(s, n, k, AgentStep(AgentViewOf(s, n, k), n, k, a), key);
  }

  lemma ViewKeyFalls(e: Env, s: State, n: string, k: Kind, a: AgentAct, v': AgentView, key: CrKey)
    requires Fits(e, s) && Calm(e, s, OfAgent(n, k, a)) && KeepsModes(AgentViewOf(s, n, k), n, a) && key in e.keys
    requires v' == AgentStep(AgentViewOf(s, n, k), n, k, a)
    ensures Falls(e, key, SpotAfter(s, n, k, AgentViewOf(s, n, k), key), SpotAfter(s, n, k, v', key))
  {
    var v := AgentViewOf(s, n, k);
    AgentViewFits(e, s, n, k);
    if HostOf(key) == n && key.kind == k {
      StepFalls(e, v, n, k, a, key);
    } else {
      WritesOwn(v, n, k, a, key);
      if HostOf(key) == n {
        OthersNotice(e, v, n, k, a, key);
        assert AgentFits(e, key.kind, AgentOf(s, n, key.kind)) && key == CrKey(key.kind, key.name);
        OthersFall(e, key, SpotAfter(s, n, k, v, key), SpotAfter(s, n, k, v', key));
      } else {
        UnwrittenFalls(e, key, SpotAt(s, key));
      }
    }
  }

  lemma AgentKeyFalls(e: Env, s: State, n: string, k: Kind, a: AgentAct, key: CrKey)
    requires Fits(e, s) && Calm(e, s, OfAgent(n, k, a)) && KeepsModes(AgentViewOf(s, n, k), n, a) && key in e.keys
    ensures KeyFalls(e, s, Step(s, OfAgent(n, k, a)), key)
  {
    ViewKeyFalls(e, s, n, k, a, AgentStep(AgentViewOf(s, n, k), n, k, a), key);
    SpotAfterStep(s, n, k, a, key);
  }

  /** A manager in flight sees at most one conflict come up. */
  lemma TroubleMoves(e: Env, crs: CrStore, crs': CrStore, k: Kind, pc: ManagerPc)
    requires SameLabels(crs, crs', k) && (pc.MIdle? || pc.tk.kind == k)
    ensures Trouble(e, crs', k, pc) <= Trouble(e, crs, k, pc) + 2
    ensures (forall name :: Lookup(crs'.objs, CrKey(k, name)) == Lookup(crs.objs, CrKey(k, name))) ==> Trouble(e, crs', k, pc) <= Trouble(e, crs, k, pc)
    ensures Stale(e, crs', pc) <= Stale(e, crs, pc)
  {
    if UpToDate(e, crs, pc) {
      StaysUpToDate(e, crs, crs', k, pc);
      if pc.MPut? {
        assert forall name :: Lookup(crs'.objs, CrKey(k, name)) == Lookup(crs.objs, CrKey(k, name)) ==>
          (CrKey(k, name) in crs'.objs <==> CrKey(k, name) in crs.objs);
      }
    }
  }

  lemma AgentTroubles(e: Env, s: State, n: string, k: Kind, a: AgentAct)
    requires Fits(e, s)
    ensures var s' := Step(s, OfAgent(n, k, a));
            && Stales(e, s') <= Stales(e, s)
            && Troubles(e, s') <= Troubles(e, s) + 2 * One(s'.crs.objs != s.crs.objs)
  {
    var s' := Step(s, OfAgent(n, k, a));
    AgentViewFits(e, s, n, k);
    AgentKeepsCrs(e, AgentViewOf(s, n, k), n, k, a);
    forall j ensures StaleOf(e, s', j) <= StaleOf(e, s, j)
      ensures TroubleOf(e, s', j) <= TroubleOf(e, s, j) + (if j == k then 2 * One(s'.crs.objs != s.crs.objs) else 0)
    {
      assert ManagerOk(s.tmpls, s.crs, j, ManagerOf(s, j));
      assert SameLabels(s.crs, s'.crs, j);
      TroubleMoves(e, s.crs, s'.crs, j, ManagerOf(s, j));
      if j != k {
        forall name ensures Lookup(s'.crs.objs, CrKey(j, name)) == Lookup(s.crs.objs, CrKey(j, name)) {
          WritesOwn(AgentViewOf(s, n, k), n, k, a, CrKey(j, name));
        }
      }
    }
  }

  /** A change lowers the rank of the CR the worker is about. */
  lemma AgentChangeFalls(e: Env, s: State, n: string, k: Kind, a: AgentAct)
    requires Fits(e, s) && Calm(e, s, OfAgent(n, k, a)) && KeepsModes(AgentViewOf(s, n, k), n, a)
    requires var v := AgentViewOf(s, n, k); AgentStep(v, n, k, a).crs.objs != v.crs.objs || AgentStep(v, n, k, a).labels != v.labels
    ensures Subject(AgentOf(s, n, k)).Some?
    ensures var key := CrKey(k, Subject(AgentOf(s, n, k)).value);
            key in e.keys && KeyRank(e, key, SpotAt(Step(s, OfAgent(n, k, a)), key)) < KeyRank(e, key, SpotAt(s, key))
  {
    var v := AgentViewOf(s, n, k);
    AgentViewFits(e, s, n, k);
    CrChangeIsOwn(e, v, n, k, a);
    if AgentStep(v, n, k, a).crs.objs == v.crs.objs {
      LabelChangeIsOwn(e, v, n, k, a);
    }
    var key := CrKey(k, Subject(v.pc).value);
    ViewKeyFalls(e, s, n, k, a, AgentStep(v, n, k, a), key);
    SpotAfterStep(s, n, k, a, key);
  }

  /** Seen from outside, an agent's step changes what it changes in the worker's view. */
  lemma ChangedWith(s: State, n: string, k: Kind, v: AgentView)
    requires Modes(v.links) == Modes(LinksOf(s, n))
    ensures Changed(s, With(s, n, k, v)) <==> v.crs.objs != s.crs.objs || v.labels != LabelsOf(s, n)
  {
    assert LabelsOf(With(s, n, k, v), n) == v.labels;
  }

  lemma AgentChanges(s: State, n: string, k: Kind, a: AgentAct)
    requires Modes(AgentStep(AgentViewOf(s, n, k), n, k, a).links) == Modes(LinksOf(s, n))
    ensures var v := AgentViewOf(s, n, k);
            Changed(s, Step(s, OfAgent(n, k, a))) <==> AgentStep(v, n, k, a).crs.objs != v.crs.objs || AgentStep(v, n, k, a).labels != v.labels
  {
    ChangedWith(s, n, k, AgentStep(AgentViewOf(s, n, k), n, k, a));
  }

  lemma AgentCalmDescends(e: Env, s: State, n: string, k: Kind, a: AgentAct)
    requires Fits(e, s) && Calm(e, s, OfAgent(n, k, a)) && KeepsModes(AgentViewOf(s, n, k), n, a)
    ensures Potential(e, Step(s, OfAgent(n, k, a))) + One(Changed(s, Step(s, OfAgent(n, k, a)))) <= Potential(e, s)
  {
    var s' := Step(s, OfAgent(n, k, a));
    AgentViewFits(e, s, n, k);
    forall key | key in e.keys ensures KeyFalls(e, s, s', key) {
      AgentKeyFalls(e, s, n, k, a, key);
    }
    LinksUnnoticed(e, AgentViewOf(s, n, k), n, k, a);
    AgentChanges(s, n, k, a);
    AgentTroubles(e, s, n, k, a);
    if Changed(s, s') {
      AgentChangeFalls(e, s, n, k, a);
      OneFalls(e, s, s', CrKey(k, Subject(AgentOf(s, n, k)).value));
    } else {
      AllFall(e, s, s');
    }
    WeighCalm(|e.keys|, Ranks(e, s), Skeletons(e, s), TemplateRanks(e, s) + Troubles(e, s), Stales(e, s),
              Ranks(e, s'), Skeletons(e, s'), TemplateRanks(e, s') + Troubles(e, s'), Stales(e, s'), One(Changed(s, s')));
  }

  /** A worker's new view that differs in the device of one of its CRs and in nothing else that counts for others. */
  ghost predicate Shaken(e: Env, s: State, n: string, k: Kind, v': AgentView, one: CrKey) {
    var v := AgentViewOf(s, n, k);
    && one in e.keys && HostOf(one) == n && one.kind == k
    && v'.crs == v.crs && v'.labels == v.labels
    && (forall other: CrKey :: other in e.keys && HostOf(other) == n && other != one ==> (DevOf(other) in v'.links <==> DevOf(other) in v.links))
    && (forall other: CrKey :: other.kind == k && other.name != one.name ==> !On(other, v.pc) && !On(other, v'.pc))
  }

  /** How the creation or deletion of a link looks to any CR. */
  lemma ShakenKey(e: Env, s: State, n: string, k: Kind, v': AgentView, one: CrKey, key: CrKey)
    requires Shaken(e, s, n, k, v', one) && key in e.keys
    ensures KeyRank(e, key, SpotAfter(s, n, k, v', key)) <= KeyRank(e, key, SpotAt(s, key)) + 9
    ensures key != one ==> Skeleton(e, key, SpotAfter(s, n, k, v', key)) == Skeleton(e, key, SpotAt(s, key))
  {
    var x, x' := SpotAt(s, key), SpotAfter(s, n, k, v', key);
    ShakenRank(e, key, x, x');
    if key != one {
      if HostOf(key) == n && key.kind == k {
        assert key.name != one.name;
        assert !On(key, x.pc) && !On(key, x'.pc);
      } else {
        assert x'.pc == x.pc;
      }
      ShakenSkeleton(e, key, x, x');
    }
  }

  lemma ShakenRanks(e: Env, s: State, n: string, k: Kind, v': AgentView, one: CrKey, s': State)
    requires Shaken(e, s, n, k, v', one) && forall key :: key in e.keys ==> SpotAt(s', key) == SpotAfter(s, n, k, v', key)
    ensures Ranks(e, s') <= Ranks(e, s) + 9 * |e.keys|
  {
    forall key | key in e.keys ensures KeyRank(e, key, SpotAt(s', key)) <= KeyRank(e, key, SpotAt(s, key)) + 9 {
      ShakenKey(e, s, n, k, v', one, key);
    }
    SumShakes(key => KeyRank(e, key, SpotAt(s, key)), key => KeyRank(e, key, SpotAt(s', key)), e.keys);
  }

  lemma ShakenSkeletons(e: Env, s: State, n: string, k: Kind, v': AgentView, one: CrKey, s': State)
    requires Shaken(e, s, n, k, v', one) && forall key :: key in e.keys ==> SpotAt(s', key) == SpotAfter(s, n, k, v', key)
    requires Skeleton(e, one, SpotOf(v', one)) < Skeleton(e, one, SpotOf(AgentViewOf(s, n, k), one))
    ensures Skeletons(e, s') <= Skeletons(e, s) - 1
  {
    forall key | key in e.keys && key != one ensures Skeleton(e, key, SpotAt(s', key)) <= Skeleton(e, key, SpotAt(s, key)) {
      ShakenKey(e, s, n, k, v', one, key);
    }
    assert SpotAt(s, one) == SpotOf(AgentViewOf(s, n, k), one) && SpotAt(s', one) == SpotOf(v', one);
    SumMoves(key => Skeleton(e, key, SpotAt(s, key)), key => Skeleton(e, key, SpotAt(s', key)), e.keys, one, -1);
  }

  lemma AgentShakeDescends(e: Env, s: State, n: string, k: Kind, a: AgentAct)
    requires Fits(e, s) && Calm(e, s, OfAgent(n, k, a)) && !KeepsModes(AgentViewOf(s, n, k), n, a)
    ensures Potential(e, Step(s, OfAgent(n, k, a))) + 1 <= Potential(e, s)
  {
    var v, s' := AgentViewOf(s, n, k), Step(s, OfAgent(n, k, a));
    AgentViewFits(e, s, n, k);
    var one := ShakeView(e, v, n, k, a);
    forall key | key in e.keys ensures SpotAt(s', key) == SpotAfter(s, n, k, AgentStep(v, n, k, a), key) {
      SpotAfterStep(s, n, k, a, key);
    }
    ShakenRanks(e, s, n, k, AgentStep(v, n, k, a), one, s');
    ShakenSkeletons(e, s, n, k, AgentStep(v, n, k, a), one, s');
    AgentTroubles(e, s, n, k, a);
    WeighShaken(|e.keys|, Ranks(e, s), Skeletons(e, s), TemplateRanks(e, s) + Troubles(e, s), Stales(e, s),
                Ranks(e, s'), Skeletons(e, s'), TemplateRanks(e, s') + Troubles(e, s'), Stales(e, s'));
  }

  // One step of a manager

  lemma SpotUnderManager(s: State, k: Kind, m: ManagerAct, key: CrKey)
    ensures SpotAt(Step(s, OfManager(k, m)), key) == At(ManagerStep(ManagerViewOf(s, k), k, m).crs, key, SpotAt(s, key))
    ensures SpotAt(s, key) == At(s.crs, key, SpotAt(s, key))
  {
  }

  lemma NoRunWithoutCr(s: State, key: CrKey)
    requires Inv(s) && key !in s.crs.objs
    ensures !On(key, AgentOf(s, HostOf(key), key.kind))
  {
    assert AgentOk(s.crs, HostOf(key), key.kind, AgentOf(s, HostOf(key), key.kind));
    assert key == CrKey(key.kind, key.name);
  }

  lemma ManagerKeyFalls(e: Env, s: State, k: Kind, m: ManagerAct, key: CrKey)
    requires Fits(e, s) && UpToDate(e, s.crs, ManagerOf(s, k))
    ensures KeyFalls(e, s, Step(s, OfManager(k, m)), key)
  {
    ManagerViewFits(e, s, k);
    SpotUnderManager(s, k, m, key);
    if key !in s.crs.objs {
      NoRunWithoutCr(s, key);
    }
    ManagerFalls(e, ManagerViewOf(s, k), k, m, key, SpotAt(s, key));
  }

  /** A manager writes one CR at a time. */
  lemma ManagerWritesOne(v: ManagerView, k: Kind, m: ManagerAct) returns (one: CrKey)
    ensures forall key :: key != one ==> Lookup(ManagerStep(v, k, m).crs.objs, key) == Lookup(v.crs.objs, key)
  {
    one := CrKey(k, "");
    if m.MTake? {
      one := CrKey(k, m.item);
    } else if m.MGo? && v.pc.MPut? {
      one := CrKey(k, Join(v.pc.node, v.pc.tmpl.spec.devName));
      assert ManagerGo(v, k).crs == Or(PutCr(v.crs, k, v.pc.tk, v.pc.tmpl, v.pc.node, v.pc.got), v.crs);
      forall key | key != one ensures Lookup(ManagerGo(v, k).crs.objs, key) == Lookup(v.crs.objs, key) {
        PutCrElsewhere(v.crs, k, v.pc.tk, v.pc.tmpl, v.pc.node, v.pc.got, key);
      }
    }
  }

  lemma ManagerChange(e: Env, v: ManagerView, k: Kind, m: ManagerAct) returns (one: CrKey)
    requires ManagerFits(e, v, k) && CalmManager(e, v, m) && ManagerStep(v, k, m).crs.objs != v.crs.objs
    ensures one in e.keys && Lookup(ManagerStep(v, k, m).crs.objs, one) != Lookup(v.crs.objs, one)
    ensures forall key :: key != one ==> Lookup(ManagerStep(v, k, m).crs.objs, key) == Lookup(v.crs.objs, key)
  {
    one := ManagerWritesOne(v, k, m);
    ManagerStaysFit(e, v, k, m);
    if Lookup(ManagerStep(v, k, m).crs.objs, one) == Lookup(v.crs.objs, one) {
      LookupsDetermine(v.crs.objs, ManagerStep(v, k, m).crs.objs);
    }
  }

  lemma TemplateSum(e: Env, s: State, s': State, tk: TemplateKey, d: int)
    requires TemplatesFit(e, s.tmpls) && TemplatesFit(e, s'.tmpls)
    requires forall other :: other != tk ==> Lookup(s'.tmpls.objs, other) == Lookup(s.tmpls.objs, other)
    requires TemplateRank(e, tk, Lookup(s'.tmpls.objs, tk)) <= TemplateRank(e, tk, Lookup(s.tmpls.objs, tk)) + d && (tk !in e.known ==> d >= 0)
    ensures TemplateRanks(e, s') <= TemplateRanks(e, s) + d
  {
    if tk in e.known {
      SumMoves(other => TemplateRank(e, other, Lookup(s.tmpls.objs, other)), other => TemplateRank(e, other, Lookup(s'.tmpls.objs, other)), e.known, tk, d);
    } else {
      SumFalls(other => TemplateRank(e, other, Lookup(s.tmpls.objs, other)), other => TemplateRank(e, other, Lookup(s'.tmpls.objs, other)), e.known);
    }
  }

  /** What the manager's own steps do to the templates and to its troubles. */
  lemma OwnTemplates(e: Env, s: State, k: Kind, m: ManagerAct)
    requires Fits(e, s) && Calm(e, s, OfManager(k, m))
    ensures var s' := Step(s, OfManager(k, m));
            TemplateRanks(e, s') + TroubleOf(e, s', k) + One(s'.tmpls.objs != s.tmpls.objs) <= TemplateRanks(e, s) + TroubleOf(e, s, k)
  {
    var s' := Step(s, OfManager(k, m));
    var v, v' := ManagerViewOf(s, k), ManagerStep(ManagerViewOf(s, k), k, m);
    ManagerViewFits(e, s, k);
    StepTemplates(e, v, k, m);
    ManagerStaysFit(e, v, k, m);
    assert TroubleOf(e, s', k) == Trouble(e, v'.crs, k, v'.pc) && s'.tmpls == v'.tmpls;
    if !v.pc.MIdle? {
      var tk := v.pc.tk;
      if Lookup(v'.tmpls.objs, tk) == Lookup(v.tmpls.objs, tk) {
        LookupsDetermine(v.tmpls.objs, v'.tmpls.objs);
      }
      TemplateSum(e, s, s', tk, TemplateRank(e, tk, Lookup(v'.tmpls.objs, tk)) - TemplateRank(e, tk, Lookup(v.tmpls.objs, tk)));
    }
  }

  lemma OthersTroubles(e: Env, s: State, k: Kind, m: ManagerAct, j: Kind)
    requires Fits(e, s) && j != k
    ensures TroubleOf(e, Step(s, OfManager(k, m)), j) <= TroubleOf(e, s, j) && StaleOf(e, Step(s, OfManager(k, m)), j) <= StaleOf(e, s, j)
  {
    OtherManagersKeep(e, s, k, m, j);
    assert ManagerOk(s.tmpls, s.crs, j, ManagerOf(s, j));
    TroubleMoves(e, s.crs, Step(s, OfManager(k, m)).crs, j, ManagerOf(s, j));
  }

  lemma ManagerTroubles(e: Env, s: State, k: Kind, m: ManagerAct)
    requires Fits(e, s) && Calm(e, s, OfManager(k, m))
    ensures var s' := Step(s, OfManager(k, m));
            && TemplateRanks(e, s') + Troubles(e, s') + One(s'.tmpls.objs != s.tmpls.objs) <= TemplateRanks(e, s) + Troubles(e, s)
            && Stales(e, s') <= Stales(e, s)
            && (!UpToDate(e, s.crs, ManagerOf(s, k)) && s'.crs != s.crs ==> Stales(e, s') < Stales(e, s))
  {
    var s' := Step(s, OfManager(k, m));
    OwnTemplates(e, s, k, m);
    ManagerViewFits(e, s, k);
    StepStale(e, ManagerViewOf(s, k), k, m);
    assert StaleOf(e, s', k) == Stale(e, s'.crs, ManagerStep(ManagerViewOf(s, k), k, m).pc);
    forall j | j != k ensures TroubleOf(e, s', j) <= TroubleOf(e, s, j) && StaleOf(e, s', j) <= StaleOf(e, s, j) {
      OthersTroubles(e, s, k, m, j);
    }
  }

  lemma ManagerChanges(s: State, k: Kind, m: ManagerAct)
    ensures var s' := Step(s, OfManager(k, m)); Changed(s, s') <==> s'.crs.objs != s.crs.objs || s'.tmpls.objs != s.tmpls.objs
  {
  }

  lemma UpToDateRanks(e: Env, s: State, k: Kind, m: ManagerAct)
    requires Fits(e, s) && Calm(e, s, OfManager(k, m)) && UpToDate(e, s.crs, ManagerOf(s, k))
    ensures var s' := Step(s, OfManager(k, m));
            Ranks(e, s') + One(s'.crs.objs != s.crs.objs) <= Ranks(e, s) && Skeletons(e, s') <= Skeletons(e, s)
  {
    var s' := Step(s, OfManager(k, m));
    forall key | key in e.keys ensures KeyFalls(e, s, s', key) {
      ManagerKeyFalls(e, s, k, m, key);
    }
    if s'.crs.objs != s.crs.objs {
      ManagerViewFits(e, s, k);
      var one := ManagerChange(e, ManagerViewOf(s, k), k, m);
      assert KeyFalls(e, s, s', one);
      OneFalls(e, s, s', one);
    } else {
      AllFall(e, s, s');
    }
  }

  lemma OneUndone(e: Env, s: State, s': State, one: CrKey)
    requires one in e.keys && forall key :: key in e.keys && key != one ==> SpotAt(s', key) == SpotAt(s, key)
    ensures Ranks(e, s') <= Ranks(e, s) + 25 && Skeletons(e, s') <= Skeletons(e, s) + 3
  {
    RanksAreSmall(e, one, SpotAt(s', one));
    SumMoves(key => KeyRank(e, key, SpotAt(s, key)), key => KeyRank(e, key, SpotAt(s', key)), e.keys, one, 25);
    SumMoves(key => Skeleton(e, key, SpotAt(s, key)), key => Skeleton(e, key, SpotAt(s', key)), e.keys, one, 3);
  }

  /** A write from an outdated copy may undo what was done for one CR. */
  lemma OutdatedRanks(e: Env, s: State, k: Kind, m: ManagerAct)
    requires Fits(e, s) && Calm(e, s, OfManager(k, m)) && Step(s, OfManager(k, m)).crs.objs != s.crs.objs
    ensures Ranks(e, Step(s, OfManager(k, m))) <= Ranks(e, s) + 25 && Skeletons(e, Step(s, OfManager(k, m))) <= Skeletons(e, s) + 3
  {
    var s' := Step(s, OfManager(k, m));
    ManagerViewFits(e, s, k);
    var one := ManagerChange(e, ManagerViewOf(s, k), k, m);
    forall key | key in e.keys && key != one ensures SpotAt(s', key) == SpotAt(s, key) {
      SpotUnderManager(s, k, m, key);
    }
    OneUndone(e, s, s', one);
  }

  lemma NothingWritten(e: Env, s: State, k: Kind, m: ManagerAct)
    requires Step(s, OfManager(k, m)).crs.objs == s.crs.objs
    ensures Ranks(e, Step(s, OfManager(k, m))) <= Ranks(e, s) && Skeletons(e, Step(s, OfManager(k, m))) <= Skeletons(e, s)
  {
    var s' := Step(s, OfManager(k, m));
    forall key ensures KeyFalls(e, s, s', key) {
      SpotUnderManager(s, k, m, key);
      UnwrittenFalls(e, key, SpotAt(s, key));
    }
    AllFall(e, s, s');
  }

  lemma ManagerDescends(e: Env, s: State, k: Kind, m: ManagerAct)
    requires Fits(e, s) && Calm(e, s, OfManager(k, m))
    ensures Potential(e, Step(s, OfManager(k, m))) + One(Changed(s, Step(s, OfManager(k, m)))) <= Potential(e, s)
  {
    var s' := Step(s, OfManager(k, m));
    ManagerTroubles(e, s, k, m);
    ManagerChanges(s, k, m);
    if !UpToDate(e, s.crs, ManagerOf(s, k)) && s'.crs.objs != s.crs.objs {
      OutdatedRanks(e, s, k, m);
      WeighStale(|e.keys|, Ranks(e, s), Skeletons(e, s), TemplateRanks(e, s) + Troubles(e, s), Stales(e, s),
                 Ranks(e, s'), Skeletons(e, s'), TemplateRanks(e, s') + Troubles(e, s'), Stales(e, s'));
    } else {
      if s'.crs.objs != s.crs.objs {
        UpToDateRanks(e, s, k, m);
      } else {
        NothingWritten(e, s, k, m);
      }
      WeighCalm(|e.keys|, Ranks(e, s), Skeletons(e, s), TemplateRanks(e, s) + Troubles(e, s), Stales(e, s),
                Ranks(e, s'), Skeletons(e, s'), TemplateRanks(e, s') + Troubles(e, s'), Stales(e, s'), One(Changed(s, s')));
    }
  }

  // Whole runs

  /** A step that changes anything brings the potential down; no other step raises it. */
  lemma StepDescends(e: Env, s: State, a: Action)
    requires Fits(e, s) && Calm(e, s, a)
    ensures Fits(e, Step(s, a))
    ensures Potential(e, Step(s, a)) + One(Changed(s, Step(s, a))) <= Potential(e, s)
  {
    CalmStaysFit(e, s, a);
    if a.OfManager? {
      ManagerDescends(e, s, a.kind, a.mact);
    } else if KeepsModes(AgentViewOf(s, a.node, a.kind), a.node, a.aact) {
      AgentCalmDescends(e, s, a.node, a.kind, a.aact);
    } else {
      AgentShakeDescends(e, s, a.node, a.kind, a.aact);
    }
  }

  /** How many of the steps changed anything. */
  ghost function Changes(s: State, actions: seq<Action>): nat {
    if actions == [] then 0
    else
      var s1 := Run(s, actions[..|actions| - 1]);
      Changes(s, actions[..|actions| - 1]) + One(Changed(s1, Step(s1, actions[|actions| - 1])))
  }

  /** The state before step i. */
  function StateAt(s: State, actions: seq<Action>, i: nat): State
    requires i <= |actions|
  {
    Run(s, actions[..i])
  }

  ghost predicate CalmThroughout(e: Env, s: State, actions: seq<Action>) {
    forall i {:trigger StateAt(s, actions, i)} :: 0 <= i < |actions| ==> Calm(e, StateAt(s, actions, i), actions[i])
  }

  lemma CalmPrefix(e: Env, s: State, actions: seq<Action>, i: nat)
    requires CalmThroughout(e, s, actions) && i <= |actions|
    ensures CalmThroughout(e, s, actions[..i])
  {
    forall j | 0 <= j < i ensures Calm(e, StateAt(s, actions[..i], j), actions[..i][j]) {
      assert actions[..i][..j] == actions[..j];
      assert Calm(e, StateAt(s, actions, j), actions[j]);
    }
  }

  /** However the steps interleave, no run from here changes things more often than the potential of its first state says. */
  lemma {:induction false} ChangesAreBounded(e: Env, s: State, actions: seq<Action>)
    requires Fits(e, s) && CalmThroughout(e, s, actions)
    ensures Fits(e, Run(s, actions))
    ensures Changes(s, actions) + Potential(e, Run(s, actions)) <= Potential(e, s)
  {
    if actions != [] {
      var init := actions[..|actions| - 1];
      CalmPrefix(e, s, actions, |actions| - 1);
      ChangesAreBounded(e, s, init);
      assert Calm(e, StateAt(s, actions, |actions| - 1), actions[|actions| - 1]);
      StepDescends(e, Run(s, init), actions[|actions| - 1]);
    }
  }

  /**
   * What is asked of the moment at which users and hosts fall silent: templates and plans agree, every name that is
   * used or will be asked for is in play, and no spec in use makes a bond take one of our devices as its slave.
   */
  ghost predicate Surrounds(e: Env, s: State) {
    && PlansFit(e) && TemplatesFit(e, s.tmpls) && CrsFit(e, s.crs)
    && (forall k :: ManagerCovered(e, s.crs, k, ManagerOf(s, k)))
    && forall n, k :: AgentOf(s, n, k).ARun? ==> SlaveFree(e, AgentOf(s, n, k).task.spec)
  }

  /** Workers in flight fit, whatever they are doing. */
  lemma InFlightFits(e: Env, s: State, n: string, k: Kind)
    requires Inv(s) && AgentOk(s.crs, n, k, AgentOf(s, n, k)) && ReadyHonest.Evidence(n, k, AgentOf(s, n, k)) && NoLeak.Aims(n, k, AgentOf(s, n, k))
    requires AgentOf(s, n, k).ARun? ==> SlaveFree(e, AgentOf(s, n, k).task.spec)
    ensures AgentFits(e, k, AgentOf(s, n, k))
  {
    var pc := AgentOf(s, n, k);
    if pc.ARun? || Labelling(pc) {
      var name := Subject(pc).value;
      HeldKey(s.crs, n, k, name);
      if pc.AUnlabel? || pc.AUnlabelPatch? {
        ParseInvertsJoin(name, n, pc.dev);
      } else {
        ParseInvertsJoin(name, n, pc.task.dev);
      }
    }
    if pc.ARun? {
      var resolved, detected :| pc.task.start == AgentProgram(k, pc.task.dev, pc.task.spec, resolved, detected);
      ProgramStays(k, pc.task.dev, pc.task.spec, resolved, detected, Devices(e.keys));
      RestStays(pc.task.start, pc.task.trace, pc.task.dev, Devices(e.keys));
      OnlyBondsReachOut(k, pc.task.dev, pc.task.spec, resolved, detected);
      if !k.Uplink? {
        RestKeepsToItself(pc.task.start, pc.task.trace, pc.task.dev);
      }
    }
  }

  lemma SurroundedFits(e: Env, h: seq<State>, past: seq<Action>)
    requires Behaviour(h, past) && Surrounds(e, Last(h))
    ensures Fits(e, Last(h))
  {
    BehaviourKeepsInv(h, past);
    ReadyHonest.RunKeepsEvidence(h[0], past);
    L.RunLabels(h[0], past, "");
    BehaviourEnds(h, past);
    forall n, k ensures AgentFits(e, k, AgentOf(Last(h), n, k)) {
      NoLeak.RunAims(h[0], past, n, k);
      assert AgentOk(Last(h).crs, n, k, AgentOf(Last(h), n, k)) && ReadyHonest.Evidence(n, k, AgentOf(Last(h), n, k));
      InFlightFits(e, Last(h), n, k);
    }
  }

  /**
   * The loop ends: from every reachable state, with workers in the middle of anything, the number of changes of
   * CRs, templates, Node labels and links still to come has a bound that the state decides.
   */
  lemma LoopTerminates(e: Env, h: seq<State>, past: seq<Action>, actions: seq<Action>)
    requires Behaviour(h, past) && Surrounds(e, Last(h)) && CalmThroughout(e, Last(h), actions)
    ensures Changes(Last(h), actions) <= Potential(e, Last(h))
  {
    SurroundedFits(e, h, past);
    ChangesAreBounded(e, Last(h), actions);
  }
}
