/**
 * Why devices must be distinct: two live templates of one kind that want the same device on a node take its CR away
 * from each other in every reconcile. No crash, no failure and no other actor is needed for it to go on for ever, and
 * no run that serves both of them ever comes to rest.
 */
module Contention {
  import opened Base
  import opened ApiObjects
  import opened ApiStore
  import opened Names
  import opened Protocol
  import opened ProtocolInvariant
  import opened Rank
  import ManagerRank
  import opened Quiescence
  import opened Stretches
  import opened Rounds
  import StillManagers

  // One reconcile of a manager by itself

  /** A template to be synced: live and with its finalizer. */
  predicate Active(tmpls: TemplateStore, tk: TemplateKey, spec: TemplateSpec) {
    tk in tmpls.objs && tmpls.objs[tk].spec == spec && tmpls.objs[tk].finalizer && !tmpls.objs[tk].terminating
  }

  predicate LabelledAt(crs: CrStore, key: CrKey, tk: TemplateKey) {
    key in crs.objs && LabelledFor(crs.objs[key], tk)
  }

  /** A step that neither crashes nor fails needlessly, and gets these nodes for its selector. */
  predicate Willing(a: ManagerAct, nodes: set<string>) {
    !a.MCrash? && !a.MBadSelector? && (a.MTake? ==> a.ok) && (a.MNodes? ==> a.nodes == nodes)
  }

  predicate AllWilling(acts: seq<ManagerAct>, nodes: set<string>) {
    forall i :: 0 <= i < |acts| ==> Willing(acts[i], nodes)
  }

  lemma ManagerRunsSnoc(v: ManagerView, k: Kind, acts: seq<ManagerAct>, a: ManagerAct)
    ensures ManagerRuns(v, k, acts + [a]) == ManagerStep(ManagerRuns(v, k, acts), k, a)
  {
    assert (acts + [a])[..|acts|] == acts;
  }

  /** Going on from where a run has come. */
  lemma Extend(v: ManagerView, k: Kind, acts: seq<ManagerAct>, a: ManagerAct, nodes: set<string>) returns (more: seq<ManagerAct>)
    requires AllWilling(acts, nodes) && Willing(a, nodes)
    ensures AllWilling(more, nodes) && ManagerRuns(v, k, more) == ManagerStep(ManagerRuns(v, k, acts), k, a)
  {
    more := acts + [a];
    ManagerRunsSnoc(v, k, acts, a);
  }

  lemma {:induction false} ManagerRunsOk(v: ManagerView, k: Kind, acts: seq<ManagerAct>)
    requires ViewOk(v, k)
    ensures ViewOk(ManagerRuns(v, k, acts), k)
  {
    if acts != [] {
      ManagerRunsOk(v, k, acts[..|acts| - 1]);
      ManagerStepOk(ManagerRuns(v, k, acts[..|acts| - 1]), k, acts[|acts| - 1]);
    }
  }

  /** The position in the middle of the syncs: what is synced carries the template's labels. */
  predicate Syncing(v: ManagerView, tk: TemplateKey, spec: TemplateSpec, nodes: set<string>, node: string) {
    && v.pc.MSync? && v.pc.tk == tk && v.pc.tmpl.spec == spec && v.pc.nodes == nodes && v.pc.todo <= nodes
    && (node !in v.pc.todo ==> LabelledAt(v.crs, CrKey(tk.kind, Join(node, spec.devName)), tk))
  }

  lemma PutLabels(v: ManagerView, k: Kind)
    requires ViewOk(v, k) && v.pc.MPut? && v.pc.got == Lookup(v.crs.objs, CrKey(k, Join(v.pc.node, v.pc.tmpl.spec.devName)))
    ensures var v' := ManagerGo(v, k); var key := CrKey(k, Join(v.pc.node, v.pc.tmpl.spec.devName));
            && v'.tmpls == v.tmpls && v'.pc == MSync(v.pc.tk, v.pc.tmpl, v.pc.nodes, v.pc.todo)
            && LabelledAt(v'.crs, key, v.pc.tk)
            && forall other :: other != key ==> Lookup(v'.crs.objs, other) == Lookup(v.crs.objs, other)
  {
    var tk, t, node, got := v.pc.tk, v.pc.tmpl, v.pc.node, v.pc.got;
    var r := PutCr(v.crs, k, tk, t, node, got);
    assert r.Some?;
    ManagerRank.PutWrites(v, k);
    forall other | other != CrKey(k, Join(node, t.spec.devName))
      ensures Lookup(ManagerGo(v, k).crs.objs, other) == Lookup(v.crs.objs, other)
    {
      PutCrElsewhere(v.crs, k, tk, t, node, got, other);
    }
    SyncIsLabelled(if got.Some? then got.value.labels else map[], tk, node);
  }

  lemma SyncIsLabelled(labels: Labels, tk: TemplateKey, node: string)
    ensures var l := SyncLabels(labels, tk, node);
            TemplateName in l && l[TemplateName] == tk.name && TemplateNS in l && l[TemplateNS] == tk.ns
  {
  }

  /** One node is synced. */
  lemma SyncOne(v: ManagerView, k: Kind, tk: TemplateKey, spec: TemplateSpec, nodes: set<string>, node: string, item: string)
    requires ViewOk(v, k) && tk.kind == k && Syncing(v, tk, spec, nodes, node) && item in v.pc.todo
    ensures var v' := ManagerStep(ManagerStep(v, k, MTake(item, true)), k, MGo);
            Syncing(v', tk, spec, nodes, node) && v'.pc.todo == v.pc.todo - {item} && v'.tmpls == v.tmpls
  {
    var v1 := ManagerStep(v, k, MTake(item, true));
    assert v1 == v.(pc := MPut(tk, v.pc.tmpl, nodes, v.pc.todo - {item}, item, Lookup(v.crs.objs, CrKey(k, Join(item, spec.devName)))));
    ManagerStepOk(v, k, MTake(item, true));
    PutLabels(v1, k);
    if item != node {
      JoinInjective(item, node, spec.devName);
      var key := CrKey(k, Join(node, spec.devName));
      assert Lookup(ManagerGo(v1, k).crs.objs, key) == Lookup(v.crs.objs, key);
    }
  }

  lemma JoinInjective(n1: string, n2: string, dev: string)
    ensures Join(n1, dev) == Join(n2, dev) <==> n1 == n2
  {
    if Join(n1, dev) == Join(n2, dev) {
      assert |Join(n1, dev)| == |n1| + 1 + |dev|;
      assert n1 == Join(n1, dev)[..|n1|];
      assert n2 == Join(n2, dev)[..|n2|];
    }
  }

  lemma {:induction false} SyncAll(v: ManagerView, k: Kind, tk: TemplateKey, spec: TemplateSpec, nodes: set<string>, node: string,
                                   acts: seq<ManagerAct>) returns (more: seq<ManagerAct>)
    requires ViewOk(v, k) && tk.kind == k && AllWilling(acts, nodes) && Syncing(ManagerRuns(v, k, acts), tk, spec, nodes, node)
    ensures AllWilling(more, nodes) && Syncing(ManagerRuns(v, k, more), tk, spec, nodes, node)
    ensures ManagerRuns(v, k, more).pc.todo == {} && ManagerRuns(v, k, more).tmpls == ManagerRuns(v, k, acts).tmpls
    decreases |ManagerRuns(v, k, acts).pc.todo|
  {
    more := acts;
    var now := ManagerRuns(v, k, acts);
    if now.pc.todo != {} {
      var item :| item in now.pc.todo;
      var taken := Extend(v, k, acts, MTake(item, true), nodes);
      var put := Extend(v, k, taken, MGo, nodes);
      ManagerRunsOk(v, k, acts);
      SyncOne(now, k, tk, spec, nodes, node, item);
      assert |now.pc.todo - {item}| == |now.pc.todo| - 1;
      more := SyncAll(v, k, tk, spec, nodes, node, put);
    }
  }

  /** The position in the middle of the sweep: the CR of the node is still the template's. */
  predicate Sweeping(v: ManagerView, tk: TemplateKey, spec: TemplateSpec, nodes: set<string>, node: string) {
    && v.pc.MOrphans? && v.pc.tk == tk && v.pc.tmpl.spec == spec && v.pc.nodes == nodes && node in nodes
    && LabelledAt(v.crs, CrKey(tk.kind, Join(node, spec.devName)), tk)
  }

  lemma SweepOne(v: ManagerView, k: Kind, tk: TemplateKey, spec: TemplateSpec, nodes: set<string>, node: string, item: string)
    requires tk.kind == k && Sweeping(v, tk, spec, nodes, node) && item in v.pc.todo
    ensures var v' := ManagerStep(v, k, MTake(item, true));
            Sweeping(v', tk, spec, nodes, node) && v'.pc.todo == v.pc.todo - {item} && v'.tmpls == v.tmpls
  {
    var key := CrKey(k, Join(node, spec.devName));
    var v' := ManagerStep(v, k, MTake(item, true));
    ManagerRank.TakeWrites(v, k, item, true);
    ManagerRank.DeleteWrites(v.crs, CrKey(k, item));
    assert Lookup(v'.crs.objs, key) == Lookup(v.crs.objs, key);
  }

  lemma {:induction false} SweepAll(v: ManagerView, k: Kind, tk: TemplateKey, spec: TemplateSpec, nodes: set<string>, node: string,
                                    acts: seq<ManagerAct>) returns (more: seq<ManagerAct>)
    requires tk.kind == k && AllWilling(acts, nodes) && Sweeping(ManagerRuns(v, k, acts), tk, spec, nodes, node)
    ensures AllWilling(more, nodes) && Sweeping(ManagerRuns(v, k, more), tk, spec, nodes, node)
    ensures ManagerRuns(v, k, more).pc.todo == {} && ManagerRuns(v, k, more).tmpls == ManagerRuns(v, k, acts).tmpls
    decreases |ManagerRuns(v, k, acts).pc.todo|
  {
    more := acts;
    var now := ManagerRuns(v, k, acts);
    if now.pc.todo != {} {
      var item :| item in now.pc.todo;
      var taken := Extend(v, k, acts, MTake(item, true), nodes);
      SweepOne(now, k, tk, spec, nodes, node, item);
      assert |now.pc.todo - {item}| == |now.pc.todo| - 1;
      more := SweepAll(v, k, tk, spec, nodes, node, taken);
    }
  }

  lemma ReportKeepsActive(tmpls: TemplateStore, tk: TemplateKey, copy: Template, c: Condition, other: TemplateKey, spec: TemplateSpec)
    requires Active(tmpls, other, spec)
    ensures Active(Or(PatchReady(tmpls, tk, copy, c), tmpls), other, spec)
  {
  }

  /** A whole reconcile of one template: afterwards the node's CR carries its labels. */
  lemma TakeOver(v: ManagerView, k: Kind, tk: TemplateKey, spec: TemplateSpec, nodes: set<string>, node: string)
    returns (acts: seq<ManagerAct>)
    requires ViewOk(v, k) && v.pc.MIdle? && tk.kind == k && Active(v.tmpls, tk, spec) && node in nodes
    ensures AllWilling(acts, nodes) && ManagerRuns(v, k, acts).pc.MIdle?
    ensures LabelledAt(ManagerRuns(v, k, acts).crs, CrKey(k, Join(node, spec.devName)), tk)
    ensures forall other, s :: Active(v.tmpls, other, s) ==> Active(ManagerRuns(v, k, acts).tmpls, other, s)
  {
    var got := Extend(v, k, [], MGet(tk), nodes);
    var listed := Extend(v, k, got, MNodes(nodes), nodes);
    assert ManagerRuns(v, k, listed) == v.(pc := MSync(tk, v.tmpls.objs[tk], nodes, nodes));
    var synced := SyncAll(v, k, tk, spec, nodes, node, listed);
    var owned := Extend(v, k, synced, MGo, nodes);
    var swept := SweepAll(v, k, tk, spec, nodes, node, owned);
    acts := Finish(v, k, tk, spec, nodes, node, swept);
  }

  lemma Finish(v: ManagerView, k: Kind, tk: TemplateKey, spec: TemplateSpec, nodes: set<string>, node: string, swept: seq<ManagerAct>)
    returns (acts: seq<ManagerAct>)
    requires AllWilling(swept, nodes) && tk.kind == k && Sweeping(ManagerRuns(v, k, swept), tk, spec, nodes, node)
    requires ManagerRuns(v, k, swept).pc.todo == {} && ManagerRuns(v, k, swept).tmpls == v.tmpls
    ensures AllWilling(acts, nodes) && ManagerRuns(v, k, acts).pc.MIdle?
    ensures LabelledAt(ManagerRuns(v, k, acts).crs, CrKey(k, Join(node, spec.devName)), tk)
    ensures forall other, s :: Active(v.tmpls, other, s) ==> Active(ManagerRuns(v, k, acts).tmpls, other, s)
  {
    var now := ManagerRuns(v, k, swept);
    var c := Condition(true, "ReconcileSucceeded", now.pc.tmpl.generation);
    var reporting := Extend(v, k, swept, MGo, nodes);
    acts := Extend(v, k, reporting, MGo, nodes);
    assert ManagerRuns(v, k, acts).tmpls == Or(PatchReady(v.tmpls, tk, now.pc.tmpl, c), v.tmpls);
    forall other, s | Active(v.tmpls, other, s) ensures Active(ManagerRuns(v, k, acts).tmpls, other, s) {
      ReportKeepsActive(v.tmpls, tk, now.pc.tmpl, c, other, s);
    }
  }

  // Runs of the whole system

  function Managed(k: Kind, acts: seq<ManagerAct>): seq<Action> {
    seq(|acts|, i requires 0 <= i < |acts| => OfManager(k, acts[i]))
  }

  lemma {:induction false} ManagedIsRun(s: State, k: Kind, acts: seq<ManagerAct>)
    ensures ManagerViewOf(Run(s, Managed(k, acts)), k) == ManagerRuns(ManagerViewOf(s, k), k, acts)
  {
    if acts != [] {
      ManagedIsRun(s, k, acts[..|acts| - 1]);
      assert Managed(k, acts)[..|acts| - 1] == Managed(k, acts[..|acts| - 1]);
    }
  }

  /** How many of the steps rewrite this CR. */
  function Rewrites(s: State, actions: seq<Action>, key: CrKey): nat {
    if actions == [] then 0
    else
      var s1 := Run(s, actions[..|actions| - 1]);
      Rewrites(s, actions[..|actions| - 1], key)
      + if Lookup(Step(s1, actions[|actions| - 1]).crs.objs, key) != Lookup(s1.crs.objs, key) then 1 else 0
  }

  lemma {:induction false} RewritesConcat(s: State, a: seq<Action>, b: seq<Action>, key: CrKey)
    ensures Rewrites(s, a + b, key) == Rewrites(s, a, key) + Rewrites(Run(s, a), b, key)
    decreases |b|
  {
    if b == [] {
      assert a + b == a;
    } else {
      var init := b[..|b| - 1];
      RewritesConcat(s, a, init, key);
      RunConcat(s, a, init);
      assert (a + b)[..|a + b| - 1] == a + init;
    }
  }

  lemma {:induction false} ChangedMeansRewritten(s: State, actions: seq<Action>, key: CrKey)
    ensures Lookup(Run(s, actions).crs.objs, key) != Lookup(s.crs.objs, key) ==> Rewrites(s, actions, key) > 0
    decreases |actions|
  {
    if actions != [] {
      ChangedMeansRewritten(s, actions[..|actions| - 1], key);
    }
  }

  /** Steps of one manager only, none of which crashes or fails; the selectors of both templates select these nodes. */
  predicate OwnRounds(actions: seq<Action>, k: Kind, nodes: set<string>) {
    forall i :: 0 <= i < |actions| ==> actions[i].OfManager? && actions[i].kind == k && Willing(actions[i].mact, nodes)
  }

  ghost predicate Contended(s: State, t1: TemplateKey, d1: TemplateSpec, t2: TemplateKey, d2: TemplateSpec) {
    && Inv(s) && t1 != t2 && t1.kind == t2.kind && d1.devName == d2.devName
    && Active(s.tmpls, t1, d1) && Active(s.tmpls, t2, d2) && ManagerOf(s, t1.kind).MIdle?
  }

  /** One reconcile takes the CR over, and leaves everything ready for the next. */
  lemma OneTurn(s: State, t1: TemplateKey, d1: TemplateSpec, t2: TemplateKey, d2: TemplateSpec, nodes: set<string>, node: string)
    returns (actions: seq<Action>)
    requires Contended(s, t1, d1, t2, d2) && node in nodes
    ensures OwnRounds(actions, t1.kind, nodes) && Contended(Run(s, actions), t2, d2, t1, d1)
    ensures LabelledAt(Run(s, actions).crs, CrKey(t1.kind, Join(node, d1.devName)), t1)
  {
    var k := t1.kind;
    assert ManagerOk(s.tmpls, s.crs, k, ManagerOf(s, k));
    var acts := TakeOver(ManagerViewOf(s, k), k, t1, d1, nodes, node);
    actions := Managed(k, acts);
    ManagedIsRun(s, k, acts);
    RunKeepsInv(s, actions);
  }

  /** The CR is labelled for one template at most. */
  lemma OneLabel(crs: CrStore, key: CrKey, t1: TemplateKey, t2: TemplateKey)
    requires t1 != t2 && t1.kind == t2.kind && LabelledAt(crs, key, t1)
    ensures !LabelledAt(crs, key, t2)
  {
  }

  lemma {:induction false} KeepTurning(s: State, t1: TemplateKey, d1: TemplateSpec, t2: TemplateKey, d2: TemplateSpec,
                                       nodes: set<string>, node: string, rounds: nat) returns (actions: seq<Action>)
    requires Contended(s, t1, d1, t2, d2) && node in nodes
    ensures OwnRounds(actions, t1.kind, nodes)
    ensures var key := CrKey(t1.kind, Join(node, d1.devName));
            Rewrites(s, actions, key) >= rounds + (if LabelledAt(s.crs, key, t1) then 0 else 1)
    decreases rounds
  {
    var key := CrKey(t1.kind, Join(node, d1.devName));
    var turn := OneTurn(s, t1, d1, t2, d2, nodes, node);
    var s1 := Run(s, turn);
    actions := turn;
    OneLabel(s1.crs, key, t1, t2);
    ChangedMeansRewritten(s, turn, key);
    if rounds > 0 {
      var more := KeepTurning(s1, t2, d2, t1, d1, nodes, node, rounds - 1);
      RewritesConcat(s, turn, more, key);
      actions := turn + more;
    }
  }

  /**
   * From every state in which two live templates of one kind select a common node with the same device name, their
   * manager's own reconciles can rewrite that node's CR any number of times.
   */
  lemma TwoOwnersNeverSettle(s: State, t1: TemplateKey, d1: TemplateSpec, t2: TemplateKey, d2: TemplateSpec,
                             nodes: set<string>, node: string, rounds: nat)
    requires Contended(s, t1, d1, t2, d2) && node in nodes
    ensures exists actions :: OwnRounds(actions, t1.kind, nodes) && Rewrites(s, actions, CrKey(t1.kind, Join(node, d1.devName))) >= rounds
  {
    var actions := KeepTurning(s, t1, d1, t2, d2, nodes, node, rounds);
  }

  // No rest

  /** Both templates are live and want this device on this node. */
  predicate Contested(e: Env, t1: TemplateKey, t2: TemplateKey, node: string) {
    && t1 in e.live && t2 in e.live && t1 != t2 && t1.kind == t2.kind
    && e.live[t1].dev == e.live[t2].dev && node in e.live[t1].nodes && node in e.live[t2].nodes
  }

  /** Managers get the selected nodes of the plans; anyone else may do anything. */
  ghost predicate SelectsThroughout(e: Env, s: State, seg: seq<Action>) {
    forall m {:trigger StateAt(s, seg, m)} :: 0 <= m < |seg| && seg[m].OfManager? ==>
      ManagerRank.CalmManager(e, ManagerViewOf(StateAt(s, seg, m), seg[m].kind), seg[m].mact)
  }

  ghost predicate QuietRound(e: Env, s: State, seg: seq<Action>, tk: TemplateKey, i: nat, j: nat) {
    && Inv(s) && ManagerRank.TemplatesFit(e, s.tmpls) && SelectsThroughout(e, s, seg) && Changes(s, seg) == 0
    && tk in s.tmpls.objs && ManagerServes(s, seg, tk, i, j)
  }

  lemma StepAtWork(e: Env, s: State, a: Action, tk: TemplateKey)
    requires Inv(s) && ManagerRank.TemplatesFit(e, s.tmpls) && tk in s.tmpls.objs && !Changed(s, Step(s, a))
    requires a.OfManager? ==> ManagerRank.CalmManager(e, ManagerViewOf(s, a.kind), a.mact)
    requires (AtWork(e, s, tk) && (a.OfManager? && a.kind == tk.kind ==> StillManagers.LastingManager(a.mact)))
          || (a == OfManager(tk.kind, MGet(tk)) && ManagerOf(s, tk.kind).MIdle?)
    ensures AtWork(e, Step(s, a), tk)
  {
    if a.OfManager? && a.kind == tk.kind && !StillManagers.Settled(e, s.tmpls.objs, s.crs.objs, tk) {
      var v := ManagerViewOf(s, a.kind);
      assert ManagerOk(s.tmpls, s.crs, a.kind, ManagerOf(s, a.kind));
      if a.mact == MGet(tk) && v.pc.MIdle? {
        StillManagers.GetTemplate(e, v, a.kind, tk);
      } else {
        StillManagers.StillManagerStep(e, v, a.kind, tk, a.mact);
      }
      assert ManagerViewOf(Step(s, a), a.kind) == ManagerStep(v, a.kind, a.mact);
    }
  }

  lemma StretchFacts(e: Env, s: State, seg: seq<Action>, m: nat)
    requires Inv(s) && Changes(s, seg) == 0 && m < |seg|
    ensures Inv(StateAt(s, seg, m)) && StateAt(s, seg, m + 1) == Step(StateAt(s, seg, m), seg[m])
    ensures StateAt(s, seg, m).tmpls.objs == s.tmpls.objs && StateAt(s, seg, m).crs.objs == s.crs.objs
    ensures !Changed(StateAt(s, seg, m), StateAt(s, seg, m + 1))
  {
    RunKeepsInv(s, seg[..m]);
    RunNext(s, seg, m);
    StepIsQuiet(s, seg, m);
  }

  /** After the get the manager is at work. */
  ghost predicate BusyAt(e: Env, s: State, seg: seq<Action>, tk: TemplateKey, i: nat, m: nat) {
    m <= |seg| && (i < m ==> AtWork(e, StateAt(s, seg, m), tk))
  }

  lemma BusyNext(e: Env, s: State, seg: seq<Action>, tk: TemplateKey, i: nat, j: nat, m: nat)
    requires QuietRound(e, s, seg, tk, i, j) && i <= m < j && BusyAt(e, s, seg, tk, i, m)
    ensures BusyAt(e, s, seg, tk, i, m + 1)
  {
    StretchFacts(e, s, seg, m);
    StepAtWork(e, StateAt(s, seg, m), seg[m], tk);
  }

  lemma BusyGoesOn(e: Env, s: State, seg: seq<Action>, tk: TemplateKey, i: nat, j: nat, p: nat -> bool)
    requires QuietRound(e, s, seg, tk, i, j) && p == ((m: nat) => BusyAt(e, s, seg, tk, i, m))
    ensures forall m: nat :: i <= m < j ==> Next(p, m)
  {
    forall m: nat | i <= m < j ensures Next(p, m) {
      if p(m) {
        BusyNext(e, s, seg, tk, i, j, m);
      }
    }
  }

  lemma RoundSettles(e: Env, s: State, seg: seq<Action>, tk: TemplateKey, i: nat, j: nat)
    requires QuietRound(e, s, seg, tk, i, j)
    ensures StillManagers.Settled(e, s.tmpls.objs, s.crs.objs, tk)
  {
    var busy := (m: nat) => BusyAt(e, s, seg, tk, i, m);
    BusyGoesOn(e, s, seg, tk, i, j, busy);
    Chain(busy, i, j, j);
    QuietPrefix(s, seg, j);
    NothingChanges(s, seg[..j]);
  }

  /** A CR cannot be in step with two templates. */
  lemma NotBothSettled(e: Env, s: State, t1: TemplateKey, t2: TemplateKey, node: string)
    requires Contested(e, t1, t2, node)
    ensures !(StillManagers.Settled(e, s.tmpls.objs, s.crs.objs, t1) && StillManagers.Settled(e, s.tmpls.objs, s.crs.objs, t2))
  {
    var key := CrKey(t1.kind, Join(node, e.live[t1].dev));
    if key in s.crs.objs && InSync(e, t1, key, s.crs.objs[key]) {
      SyncIsLabelled(s.crs.objs[key].labels, t1, OwnerOf(key.name).value);
      SyncIsLabelled(s.crs.objs[key].labels, t2, OwnerOf(key.name).value);
    }
  }

  /**
   * No run comes to rest while two templates contest a device: every stretch that serves both of them, whoever else
   * does whatever in it, changes something.
   */
  lemma ContestedNeverRests(e: Env, s: State, seg: seq<Action>, t1: TemplateKey, t2: TemplateKey, node: string,
                            i1: nat, j1: nat, i2: nat, j2: nat)
    requires Inv(s) && ManagerRank.TemplatesFit(e, s.tmpls) && SelectsThroughout(e, s, seg) && Contested(e, t1, t2, node)
    requires ManagerServes(s, seg, t1, i1, j1) && ManagerServes(s, seg, t2, i2, j2)
    ensures Changes(s, seg) > 0
  {
    if Changes(s, seg) == 0 {
      RoundSettles(e, s, seg, t1, i1, j1);
      RoundSettles(e, s, seg, t2, i2, j2);
      NotBothSettled(e, s, t1, t2, node);
    }
  }
}
