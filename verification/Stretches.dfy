/**
 * Stretches of a run in which nothing changes, and what each of their steps means to the worker that is reconciling
 * a CR or a template.
 */
module Stretches {
  import opened Base
  import opened ApiObjects
  import opened ApiStore
  import opened NodeLabels
  import opened Kernel
  import opened Frames
  import opened Protocol
  import opened ProtocolInvariant
  import opened Rank
  import opened AgentRank
  import opened ManagerRank
  import opened Quiescence
  import opened Goal
  import StillAgents
  import StillManagers

  // Stretches in which nothing changes

  lemma NothingChangedYet(s: State, s1: State, s2: State)
    requires !Changed(s, s1) && !Changed(s1, s2)
    ensures !Changed(s, s2)
  {
    forall n ensures LabelsOf(s2, n) == LabelsOf(s, n) && Modes(LinksOf(s2, n)) == Modes(LinksOf(s, n)) {
      assert LabelsOf(s2, n) == LabelsOf(s1, n) == LabelsOf(s, n);
      assert Modes(LinksOf(s2, n)) == Modes(LinksOf(s1, n)) && Modes(LinksOf(s1, n)) == Modes(LinksOf(s, n));
    }
  }

  lemma {:induction false} QuietPrefix(s: State, seg: seq<Action>, i: nat)
    requires Changes(s, seg) == 0 && i <= |seg|
    ensures Changes(s, seg[..i]) == 0
    decreases |seg|
  {
    if i == |seg| {
      assert seg[..i] == seg;
    } else {
      assert seg[..|seg| - 1][..i] == seg[..i];
      QuietPrefix(s, seg[..|seg| - 1], i);
    }
  }

  lemma {:induction false} NothingChanges(s: State, seg: seq<Action>)
    requires Changes(s, seg) == 0
    ensures !Changed(s, Run(s, seg))
    decreases |seg|
  {
    if seg != [] {
      NothingChanges(s, seg[..|seg| - 1]);
      NothingChangedYet(s, Run(s, seg[..|seg| - 1]), Run(s, seg));
    }
  }

  lemma CalmSoFar(e: Env, s: State, seg: seq<Action>, i: nat)
    requires Fits(e, s) && CalmThroughout(e, s, seg) && i <= |seg|
    ensures Fits(e, StateAt(s, seg, i))
  {
    CalmPrefix(e, s, seg, i);
    ChangesAreBounded(e, s, seg[..i]);
  }

  lemma RunNext(s: State, seg: seq<Action>, i: nat)
    requires i < |seg|
    ensures Run(s, seg[..i + 1]) == Step(Run(s, seg[..i]), seg[i])
  {
    assert seg[..i + 1][..i] == seg[..i];
  }

  /** The surroundings fit, every step agrees with them, and nothing changes. */
  ghost predicate QuietStretch(e: Env, s: State, seg: seq<Action>) {
    Fits(e, s) && CalmThroughout(e, s, seg) && Changes(s, seg) == 0
  }

  lemma StepFits(e: Env, s: State, seg: seq<Action>, i: nat)
    requires QuietStretch(e, s, seg) && i < |seg|
    ensures Fits(e, StateAt(s, seg, i)) && Calm(e, StateAt(s, seg, i), seg[i])
  {
    CalmSoFar(e, s, seg, i);
  }

  lemma StepIsQuiet(s: State, seg: seq<Action>, i: nat)
    requires Changes(s, seg) == 0 && i < |seg|
    ensures !Changed(s, StateAt(s, seg, i)) && !Changed(StateAt(s, seg, i), Step(StateAt(s, seg, i), seg[i]))
  {
    QuietPrefix(s, seg, i);
    NothingChanges(s, seg[..i]);
    QuietPrefix(s, seg, i + 1);
    assert seg[..i + 1][..i] == seg[..i];
  }

  /** What is known of each step of such a stretch. */
  lemma QuietStep(e: Env, s: State, seg: seq<Action>, i: nat) returns (now: State, next: State)
    requires QuietStretch(e, s, seg) && i < |seg|
    ensures now == StateAt(s, seg, i) && next == StateAt(s, seg, i + 1) && next == Step(now, seg[i])
    ensures Fits(e, now) && Calm(e, now, seg[i]) && !Changed(s, now) && !Changed(now, next)
  {
    now, next := StateAt(s, seg, i), StateAt(s, seg, i + 1);
    RunNext(s, seg, i);
    StepFits(e, s, seg, i);
    StepIsQuiet(s, seg, i);
  }

  // Agents

  /** The worker of this node and kind gets the CR, and is idle again later, without a crash or a needless failure. */
  ghost predicate AgentServes(s: State, seg: seq<Action>, key: CrKey, i: nat, j: nat) {
    var n, k := HostOf(key), key.kind;
    && i < j <= |seg|
    && seg[i].OfAgent? && seg[i].node == n && seg[i].kind == k && seg[i].aact.AGet? && seg[i].aact.name == key.name
    && AgentOf(StateAt(s, seg, i), n, k).AIdle? && AgentOf(StateAt(s, seg, j), n, k).AIdle?
    && forall m :: i < m < j && seg[m].OfAgent? && seg[m].node == n && seg[m].kind == k ==> StillAgents.Lasting(seg[m].aact)
  }

  lemma OwnStays(e: Env, s: State, n: string, k: Kind, a: AgentAct, key: CrKey)
    requires Fits(e, s) && Calm(e, s, OfAgent(n, k, a)) && !Changed(s, Step(s, OfAgent(n, k, a))) && key in s.crs.objs
    requires HostOf(key) == n && key.kind == k && StillAgents.Lasting(a) && StillAgents.Underway(e, key, s.crs.objs[key], SpotAt(s, key))
    ensures StillAgents.Next(e, key, s.crs.objs[key], SpotAt(Step(s, OfAgent(n, k, a)), key))
  {
    var s' := Step(s, OfAgent(n, k, a));
    AgentViewFits(e, s, n, k);
    StepView(s, n, k, a);
    assert LabelsOf(s', n) == LabelsOf(s, n) && Modes(LinksOf(s', n)) == Modes(LinksOf(s, n));
    StillAgents.StillStep(e, AgentViewOf(s, n, k), n, k, a, key);
    SpotAfterStep(s, n, k, a, key);
  }

  lemma OthersStay(e: Env, s: State, n: string, k: Kind, a: AgentAct, key: CrKey)
    requires Fits(e, s) && Calm(e, s, OfAgent(n, k, a)) && !Changed(s, Step(s, OfAgent(n, k, a))) && key in s.crs.objs
    requires (HostOf(key) != n || key.kind != k) && StillAgents.Underway(e, key, s.crs.objs[key], SpotAt(s, key))
    ensures StillAgents.Underway(e, key, s.crs.objs[key], SpotAt(Step(s, OfAgent(n, k, a)), key))
  {
    var v, s' := AgentViewOf(s, n, k), Step(s, OfAgent(n, k, a));
    AgentViewFits(e, s, n, k);
    StepView(s, n, k, a);
    SpotAfterStep(s, n, k, a, key);
    assert LabelsOf(s', n) == LabelsOf(s, n) && Modes(LinksOf(s', n)) == Modes(LinksOf(s, n));
    assert Lookup(s'.crs.objs, key) == Lookup(s.crs.objs, key);
    if HostOf(key) == n {
      StillAgents.StillKeepsModes(e, v, n, k, a);
      OthersNotice(e, v, n, k, a, key);
      assert AgentFits(e, key.kind, AgentOf(s, n, key.kind)) && key == CrKey(key.kind, key.name);
      StillAgents.UnderwayKept(e, key, s.crs.objs[key], SpotAt(s, key), SpotAt(s', key));
    } else {
      assert SpotAt(s', key) == SpotAt(s, key);
    }
  }

  lemma ConfiguredStays(e: Env, s: State, s': State, key: CrKey)
    requires !Changed(s, s') && key in s.crs.objs
    ensures KeyDone(e, s', key) <==> KeyDone(e, s, key)
  {
    var n := HostOf(key);
    assert LabelsOf(s', n) == LabelsOf(s, n) && Modes(LinksOf(s', n)) == Modes(LinksOf(s, n));
    StillAgents.ConfiguredKept(e, key, s.crs.objs[key], SpotAt(s, key), SpotAt(s', key));
  }

  /** The worker of the CR is on course, or the CR is configured. */
  ghost predicate OnCourse(e: Env, s: State, key: CrKey) {
    key in s.crs.objs && StillAgents.Next(e, key, s.crs.objs[key], SpotAt(s, key))
  }

  lemma StaysOnCourse(e: Env, s: State, a: Action, key: CrKey)
    requires Fits(e, s) && Calm(e, s, a) && !Changed(s, Step(s, a)) && OnCourse(e, s, key)
    requires a.OfAgent? && a.node == HostOf(key) && a.kind == key.kind ==> StillAgents.Lasting(a.aact)
    ensures OnCourse(e, Step(s, a), key)
  {
    if KeyDone(e, s, key) {
      ConfiguredStays(e, s, Step(s, a), key);
    } else if a.OfManager? {
      SpotUnderManager(s, a.kind, a.mact, key);
    } else if HostOf(key) == a.node && key.kind == a.kind {
      OwnStays(e, s, a.node, a.kind, a.aact, key);
    } else {
      OthersStay(e, s, a.node, a.kind, a.aact, key);
    }
  }

  lemma GetsOnCourse(e: Env, s: State, a: Action, key: CrKey)
    requires Fits(e, s) && Calm(e, s, a) && key in s.crs.objs
    requires a.OfAgent? && a.node == HostOf(key) && a.kind == key.kind && a.aact.AGet? && a.aact.name == key.name && AgentOf(s, a.node, a.kind).AIdle?
    ensures OnCourse(e, Step(s, a), key)
  {
    AgentViewFits(e, s, a.node, a.kind);
    assert key == CrKey(key.kind, key.name);
    StillAgents.StillGet(e, AgentViewOf(s, a.node, a.kind), a.node, a.kind, a.aact, key);
    SpotAfterStep(s, a.node, a.kind, a.aact, key);
  }

  /** The CR's reconcile from i to j, in a stretch in which nothing changes. */
  ghost predicate AgentRound(e: Env, s: State, seg: seq<Action>, key: CrKey, i: nat, j: nat) {
    QuietStretch(e, s, seg) && key in s.crs.objs && AgentServes(s, seg, key, i, j)
  }

  /** What the step at this position does to the course of the CR's worker. */
  lemma CourseOfStep(e: Env, s: State, seg: seq<Action>, key: CrKey, i: nat, j: nat, m: nat)
    requires AgentRound(e, s, seg, key, i, j)
    requires i <= m < j && (i < m ==> OnCourse(e, StateAt(s, seg, m), key))
    ensures OnCourse(e, StateAt(s, seg, m + 1), key)
  {
    var now, next := QuietStep(e, s, seg, m);
    if m == i {
      GetsOnCourse(e, now, seg[m], key);
    } else {
      StaysOnCourse(e, now, seg[m], key);
    }
  }

  // Managers

  /** The manager gets the template, and is idle again later, without a crash or a needless failure. */
  ghost predicate ManagerServes(s: State, seg: seq<Action>, tk: TemplateKey, i: nat, j: nat) {
    && i < j <= |seg|
    && seg[i] == OfManager(tk.kind, MGet(tk))
    && ManagerOf(StateAt(s, seg, i), tk.kind).MIdle? && ManagerOf(StateAt(s, seg, j), tk.kind).MIdle?
    && forall m :: i < m < j && seg[m].OfManager? && seg[m].kind == tk.kind ==> StillManagers.LastingManager(seg[m].mact)
  }

  ghost predicate AtWork(e: Env, s: State, tk: TemplateKey) {
    StillManagers.NextFor(e, ManagerViewOf(s, tk.kind), tk)
  }

  lemma StaysAtWork(e: Env, s: State, a: Action, tk: TemplateKey)
    requires Fits(e, s) && Calm(e, s, a) && !Changed(s, Step(s, a)) && AtWork(e, s, tk)
    requires a.OfManager? && a.kind == tk.kind ==> StillManagers.LastingManager(a.mact)
    ensures AtWork(e, Step(s, a), tk)
  {
    if a.OfManager? && a.kind == tk.kind && !StillManagers.Settled(e, s.tmpls.objs, s.crs.objs, tk) {
      ManagerViewFits(e, s, a.kind);
      StillManagers.StillManagerStep(e, ManagerViewOf(s, a.kind), a.kind, tk, a.mact);
      assert ManagerViewOf(Step(s, a), a.kind) == ManagerStep(ManagerViewOf(s, a.kind), a.kind, a.mact);
    }
  }

  lemma GetsToWork(e: Env, s: State, tk: TemplateKey)
    requires Fits(e, s) && tk in s.tmpls.objs && ManagerOf(s, tk.kind).MIdle?
    ensures AtWork(e, Step(s, OfManager(tk.kind, MGet(tk))), tk)
  {
    ManagerViewFits(e, s, tk.kind);
    StillManagers.GetTemplate(e, ManagerViewOf(s, tk.kind), tk.kind, tk);
  }

  /** The template's reconcile from i to j, in a stretch in which nothing changes. */
  ghost predicate ManagerRound(e: Env, s: State, seg: seq<Action>, tk: TemplateKey, i: nat, j: nat) {
    QuietStretch(e, s, seg) && tk in s.tmpls.objs && ManagerServes(s, seg, tk, i, j)
  }

  lemma WorkOfStep(e: Env, s: State, seg: seq<Action>, tk: TemplateKey, i: nat, j: nat, m: nat)
    requires ManagerRound(e, s, seg, tk, i, j)
    requires i <= m < j && (i < m ==> AtWork(e, StateAt(s, seg, m), tk))
    ensures AtWork(e, StateAt(s, seg, m + 1), tk)
  {
    var now, next := QuietStep(e, s, seg, m);
    if m == i {
      GetsToWork(e, now, tk);
    } else {
      StaysAtWork(e, now, seg[m], tk);
    }
  }

  // Runs of agents

  /** A step without a change leaves a run that will end as a new run would, such a run. */
  lemma StaysPredicted(e: Env, s: State, a: Action, key: CrKey)
    requires Fits(e, s) && Calm(e, s, a) && !Changed(s, Step(s, a)) && key in e.keys
    ensures Debt(e, key, SpotAt(Step(s, a), key)) <= Debt(e, key, SpotAt(s, key))
  {
    var s', n := Step(s, a), HostOf(key);
    assert LabelsOf(s', n) == LabelsOf(s, n) && Modes(LinksOf(s', n)) == Modes(LinksOf(s, n));
    SameDistance(e, key, SpotAt(s, key), SpotAt(s', key));
    if a.OfManager? {
      SpotUnderManager(s, a.kind, a.mact, key);
    } else {
      AgentViewFits(e, s, a.node, a.kind);
      StepView(s, a.node, a.kind, a.aact);
      assert Modes(LinksOf(s', a.node)) == Modes(LinksOf(s, a.node));
      StillAgents.StillKeepsModes(e, AgentViewOf(s, a.node, a.kind), a.node, a.kind, a.aact);
      AgentKeyFalls(e, s, a.node, a.kind, a.aact, key);
    }
  }

  lemma SameDistance(e: Env, key: CrKey, x: Spot, x': Spot)
    requires x'.cr == x.cr && OwnLabel(key, x'.labels) == OwnLabel(key, x.labels) && Modes(x'.ls) == Modes(x.ls)
    ensures Distance(e, key, x') == Distance(e, key, x)
  {
    if x.cr.Some? {
      OutcomeByModes(e, key, x.cr.value.spec, x.ls, x'.ls);
    }
  }
}
