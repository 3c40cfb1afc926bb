/**
 * Whole reconciles in a stretch in which nothing changes: whatever else goes on, at their end the CR is configured
 * and the template is done.
 */
module Rounds {
  import opened Base
  import opened ApiObjects
  import opened Frames
  import opened Programs
  import opened Protocol
  import opened Rank
  import opened Quiescence
  import opened Goal
  import opened Stretches

  ghost predicate Next(p: nat -> bool, m: nat) {
    p(m) ==> p(m + 1)
  }

  lemma {:induction false} Chain(p: nat -> bool, i: nat, j: nat, m: nat)
    requires forall q: nat :: i <= q < j ==> Next(p, q)
    requires i <= m <= j && p(i)
    ensures p(m)
    decreases m
  {
    if i < m {
      var before := m - 1;
      Chain(p, i, j, before);
      assert Next(p, before);
    }
  }

  // How runs end

  /** The worker is on no run for this CR, or on one that will end as a new one would. */
  ghost predicate PredictedAt(e: Env, s: State, seg: seq<Action>, key: CrKey, m: nat) {
    m <= |seg| && Debt(e, key, SpotAt(StateAt(s, seg, m), key)) == 0
  }

  lemma PredictedNext(e: Env, s: State, seg: seq<Action>, key: CrKey, m: nat)
    requires QuietStretch(e, s, seg) && key in e.keys && m < |seg| && PredictedAt(e, s, seg, key, m)
    ensures PredictedAt(e, s, seg, key, m + 1)
  {
    var now, next := QuietStep(e, s, seg, m);
    StaysPredicted(e, now, seg[m], key);
  }

  lemma PredictedGoesOn(e: Env, s: State, seg: seq<Action>, key: CrKey, p: nat -> bool)
    requires QuietStretch(e, s, seg) && key in e.keys && p == ((m: nat) => PredictedAt(e, s, seg, key, m))
    ensures forall m: nat :: m < |seg| ==> Next(p, m)
  {
    forall m: nat | m < |seg| ensures Next(p, m) {
      if p(m) {
        PredictedNext(e, s, seg, key, m);
      }
    }
  }

  /**
   * With constant lookups and commands that fail only when they cannot succeed, every run started in a stretch in
   * which nothing changes ends with the verdict read off the links before it.
   */
  lemma RunsEndAsPredicted(e: Env, s: State, seg: seq<Action>, key: CrKey, m: nat)
    requires QuietStretch(e, s, seg) && key in s.crs.objs && AgentOf(s, HostOf(key), key.kind).AIdle? && m <= |seg|
    ensures var pc := AgentOf(StateAt(s, seg, m), HostOf(key), key.kind);
            On(key, pc) && pc.ARun? && Ended(pc.rest) ==> pc.rest == Outcome(e, key, s.crs.objs[key].spec, LinksOf(s, HostOf(key)))
  {
    var predicted := (q: nat) => PredictedAt(e, s, seg, key, q);
    assert s.crs.objs.Keys <= e.keys;
    PredictedGoesOn(e, s, seg, key, predicted);
    assert seg[..0] == [];
    Chain(predicted, 0, |seg|, m);
    QuietPrefix(s, seg, m);
    NothingChanges(s, seg[..m]);
    OutcomeStays(e, s, StateAt(s, seg, m), key);
  }

  lemma OutcomeStays(e: Env, s: State, s': State, key: CrKey)
    requires !Changed(s, s') && key in s.crs.objs && Debt(e, key, SpotAt(s', key)) == 0
    ensures var pc := AgentOf(s', HostOf(key), key.kind);
            On(key, pc) && pc.ARun? && Ended(pc.rest) ==> pc.rest == Outcome(e, key, s.crs.objs[key].spec, LinksOf(s, HostOf(key)))
  {
    var n := HostOf(key);
    assert Modes(LinksOf(s', n)) == Modes(LinksOf(s, n));
    OutcomeByModes(e, key, s.crs.objs[key].spec, LinksOf(s, n), LinksOf(s', n));
  }

  // Agents

  /** After the get the worker is on course. */
  ghost predicate CourseAt(e: Env, s: State, seg: seq<Action>, key: CrKey, i: nat, m: nat) {
    m <= |seg| && (i < m ==> OnCourse(e, StateAt(s, seg, m), key))
  }

  lemma CourseNext(e: Env, s: State, seg: seq<Action>, key: CrKey, i: nat, j: nat, m: nat)
    requires AgentRound(e, s, seg, key, i, j) && i <= m < j && CourseAt(e, s, seg, key, i, m)
    ensures CourseAt(e, s, seg, key, i, m + 1)
  {
    CourseOfStep(e, s, seg, key, i, j, m);
  }

  lemma CourseGoesOn(e: Env, s: State, seg: seq<Action>, key: CrKey, i: nat, j: nat, p: nat -> bool)
    requires AgentRound(e, s, seg, key, i, j)
    requires p == ((m: nat) => CourseAt(e, s, seg, key, i, m))
    ensures forall m: nat :: i <= m < j ==> Next(p, m)
  {
    forall m: nat | i <= m < j ensures Next(p, m) {
      if p(m) {
        CourseNext(e, s, seg, key, i, j, m);
      }
    }
  }

  /** In a stretch in which nothing changes, a CR whose reconcile is served is configured, labelled and reported. */
  lemma QuietAgentRoundIsDone(e: Env, s: State, seg: seq<Action>, key: CrKey, i: nat, j: nat)
    requires AgentRound(e, s, seg, key, i, j)
    ensures KeyDone(e, s, key)
  {
    var course := (m: nat) => CourseAt(e, s, seg, key, i, m);
    CourseGoesOn(e, s, seg, key, i, j, course);
    Chain(course, i, j, j);
    QuietPrefix(s, seg, j);
    NothingChanges(s, seg[..j]);
    ConfiguredStays(e, s, StateAt(s, seg, j), key);
  }

  // Managers

  /** After the get the manager is at work. */
  ghost predicate WorkAt(e: Env, s: State, seg: seq<Action>, tk: TemplateKey, i: nat, m: nat) {
    m <= |seg| && (i < m ==> AtWork(e, StateAt(s, seg, m), tk))
  }

  lemma WorkNext(e: Env, s: State, seg: seq<Action>, tk: TemplateKey, i: nat, j: nat, m: nat)
    requires ManagerRound(e, s, seg, tk, i, j) && i <= m < j && WorkAt(e, s, seg, tk, i, m)
    ensures WorkAt(e, s, seg, tk, i, m + 1)
  {
    WorkOfStep(e, s, seg, tk, i, j, m);
  }

  lemma WorkGoesOn(e: Env, s: State, seg: seq<Action>, tk: TemplateKey, i: nat, j: nat, p: nat -> bool)
    requires ManagerRound(e, s, seg, tk, i, j)
    requires p == ((m: nat) => WorkAt(e, s, seg, tk, i, m))
    ensures forall m: nat :: i <= m < j ==> Next(p, m)
  {
    forall m: nat | i <= m < j ensures Next(p, m) {
      if p(m) {
        WorkNext(e, s, seg, tk, i, j, m);
      }
    }
  }

  /** In a stretch in which nothing changes, a template whose reconcile is served is live, reported, and has its CRs only. */
  lemma QuietManagerRoundIsDone(e: Env, s: State, seg: seq<Action>, tk: TemplateKey, i: nat, j: nat)
    requires ManagerRound(e, s, seg, tk, i, j)
    ensures TemplateDone(e, s, tk)
  {
    var work := (m: nat) => WorkAt(e, s, seg, tk, i, m);
    WorkGoesOn(e, s, seg, tk, i, j, work);
    Chain(work, i, j, j);
    QuietPrefix(s, seg, j);
    NothingChanges(s, seg[..j]);
  }
}
