/**
 * Where the loop ends, for whole runs: a stretch in which every reconcile is served and nothing changes is at the
 * goal, and of a run made of serving stretches all but boundedly many are. A removed template is drained on the way.
 */
module Settling {
  import opened Base
  import opened ApiObjects
  import opened ApiStore
  import opened Names
  import opened Protocol
  import opened ProtocolInvariant
  import opened Rank
  import opened AgentRank
  import opened ManagerRank
  import opened Quiescence
  import opened Goal
  import opened Rounds
  import opened Stretches
  import Applied
  import Cascade
  import Drain
  import NoLeak

  // Serving stretches

  ghost predicate AgentServed(s: State, seg: seq<Action>, key: CrKey) {
    exists i, j :: AgentServes(s, seg, key, i, j)
  }

  ghost predicate ManagerServed(s: State, seg: seq<Action>, tk: TemplateKey) {
    exists i, j :: ManagerServes(s, seg, tk, i, j)
  }

  /** Every CR and every template stored at its beginning is reconciled once. */
  ghost predicate Serving(s: State, seg: seq<Action>) {
    && (forall key :: key in s.crs.objs ==> AgentServed(s, seg, key))
    && forall tk :: tk in s.tmpls.objs ==> ManagerServed(s, seg, tk)
  }

  lemma NothingForeign(e: Env, s: State, tk: TemplateKey, key: CrKey)
    requires Cascade.CascadeInv(s) && key in s.crs.objs && tk.kind == key.kind && LabelledFor(s.crs.objs[key], tk)
    requires KeyDone(e, s, key) && (tk in s.tmpls.objs ==> TemplateDone(e, s, tk))
    ensures Wants(e, tk, key)
  {
    assert key == CrKey(tk.kind, key.name);
    if tk !in s.tmpls.objs {
      assert Cascade.NoLive(s.crs, tk);
      assert Cascade.Live(s.crs, tk, key);
    }
  }

  /** A serving stretch in which nothing changes is at the goal. */
  lemma QuietMeansGoal(e: Env, s: State, seg: seq<Action>)
    requires QuietStretch(e, s, seg) && Cascade.CascadeInv(s) && Serving(s, seg)
    ensures AtGoal(e, s)
  {
    forall key | key in s.crs.objs ensures KeyDone(e, s, key) {
      assert AgentServed(s, seg, key);
      var i, j :| AgentServes(s, seg, key, i, j);
      QuietAgentRoundIsDone(e, s, seg, key, i, j);
    }
    forall tk | tk in s.tmpls.objs ensures TemplateDone(e, s, tk) {
      assert ManagerServed(s, seg, tk);
      var i, j :| ManagerServes(s, seg, tk, i, j);
      QuietManagerRoundIsDone(e, s, seg, tk, i, j);
    }
    forall tk: TemplateKey, key: CrKey | key in s.crs.objs && tk.kind == key.kind && LabelledFor(s.crs.objs[key], tk)
      ensures Wants(e, tk, key)
    {
      NothingForeign(e, s, tk, key);
    }
  }

  // Fair runs

  function Flat(segs: seq<seq<Action>>): seq<Action> {
    if segs == [] then [] else Flat(segs[..|segs| - 1]) + segs[|segs| - 1]
  }

  /** The state before stretch i. */
  function Before(s: State, segs: seq<seq<Action>>, i: nat): State
    requires i <= |segs|
  {
    Run(s, Flat(segs[..i]))
  }

  /** A calm run cut into serving stretches. Teardowns do not lose CR deletes. */
  ghost predicate Fair(e: Env, s: State, segs: seq<seq<Action>>) {
    forall i :: 0 <= i < |segs| ==>
      && CalmThroughout(e, Before(s, segs, i), segs[i]) && Serving(Before(s, segs, i), segs[i])
      && Cascade.DeletesCrsThroughout(Before(s, segs, i), segs[i])
  }

  /** How many of the stretches change anything. */
  ghost function Disturbed(s: State, segs: seq<seq<Action>>): nat {
    if segs == [] then 0
    else
      var last := |segs| - 1;
      Disturbed(s, segs[..last]) + One(Changes(Before(s, segs, last), segs[last]) > 0)
  }

  lemma BeforeNext(s: State, segs: seq<seq<Action>>, i: nat)
    requires i < |segs|
    ensures Before(s, segs, i + 1) == Run(Before(s, segs, i), segs[i])
  {
    assert segs[..i + 1][..i] == segs[..i];
    RunConcat(s, Flat(segs[..i]), segs[i]);
  }

  lemma BeforeInit(s: State, segs: seq<seq<Action>>, i: nat)
    requires segs != [] && i <= |segs| - 1
    ensures Before(s, segs[..|segs| - 1], i) == Before(s, segs, i)
  {
    assert segs[..|segs| - 1][..i] == segs[..i];
  }

  /** What every state of a fair run is known to satisfy. */
  ghost predicate Healthy(e: Env, s: State) {
    Fits(e, s) && Cascade.CascadeInv(s)
  }

  lemma StretchKeepsHealth(e: Env, s: State, segs: seq<seq<Action>>, i: nat)
    requires i < |segs| && Fair(e, s, segs) && Healthy(e, Before(s, segs, i))
    ensures Healthy(e, Before(s, segs, i + 1))
  {
    BeforeNext(s, segs, i);
    ChangesAreBounded(e, Before(s, segs, i), segs[i]);
    Cascade.RunKeepsCascadeInv(Before(s, segs, i), segs[i]);
  }

  lemma {:induction false} FairPrefix(e: Env, s: State, segs: seq<seq<Action>>, i: nat)
    requires Healthy(e, s) && Fair(e, s, segs) && i <= |segs|
    ensures Healthy(e, Before(s, segs, i))
    decreases i
  {
    if i > 0 {
      FairPrefix(e, s, segs, i - 1);
      StretchKeepsHealth(e, s, segs, i - 1);
    }
  }

  /** One stretch: what it changes, it pays for. */
  lemma StretchDescends(e: Env, s: State, seg: seq<Action>, s': State)
    requires Healthy(e, s) && CalmThroughout(e, s, seg) && s' == Run(s, seg)
    ensures One(Changes(s, seg) > 0) + Potential(e, s') <= Potential(e, s)
  {
    ChangesAreBounded(e, s, seg);
  }

  lemma DisturbedNext(s: State, segs: seq<seq<Action>>, i: nat)
    requires i < |segs|
    ensures Disturbed(s, segs[..i + 1]) == Disturbed(s, segs[..i]) + One(Changes(Before(s, segs, i), segs[i]) > 0)
  {
    var upTo := segs[..i + 1];
    assert upTo[..i] == segs[..i] && upTo[i] == segs[i];
    assert Before(s, upTo, i) == Before(s, segs, i);
  }

  /** After i stretches, each that changed anything has been paid for. */
  ghost predicate PaidFor(e: Env, s: State, segs: seq<seq<Action>>, i: nat) {
    i <= |segs| && Disturbed(s, segs[..i]) + Potential(e, Before(s, segs, i)) <= Potential(e, s)
  }

  lemma PaidForNext(e: Env, s: State, segs: seq<seq<Action>>, i: nat)
    requires i < |segs| && PaidFor(e, s, segs, i)
    requires Healthy(e, Before(s, segs, i)) && CalmThroughout(e, Before(s, segs, i), segs[i])
    ensures PaidFor(e, s, segs, i + 1)
  {
    BeforeNext(s, segs, i);
    StretchDescends(e, Before(s, segs, i), segs[i], Before(s, segs, i + 1));
    DisturbedNext(s, segs, i);
  }

  lemma PaidForGoesOn(e: Env, s: State, segs: seq<seq<Action>>, p: nat -> bool)
    requires Healthy(e, s) && Fair(e, s, segs) && p == ((i: nat) => PaidFor(e, s, segs, i))
    ensures forall i: nat :: i < |segs| ==> Next(p, i)
  {
    forall i: nat | i < |segs| ensures Next(p, i) {
      if p(i) {
        FairPrefix(e, s, segs, i);
        PaidForNext(e, s, segs, i);
      }
    }
  }

  lemma FewAreDisturbed(e: Env, s: State, segs: seq<seq<Action>>)
    requires Healthy(e, s) && Fair(e, s, segs)
    ensures Disturbed(s, segs) <= Potential(e, s)
  {
    var paid := (i: nat) => PaidFor(e, s, segs, i);
    PaidForGoesOn(e, s, segs, paid);
    assert segs[..0] == [] && segs[..|segs|] == segs;
    Chain(paid, 0, |segs|, |segs|);
  }

  /**
   * Fair runs settle: from every reachable state, of the serving stretches of a calm run at most as many as the
   * potential says change anything at all, and the others are at the goal.
   */
  lemma FairRunsSettle(e: Env, h: seq<State>, past: seq<Action>, segs: seq<seq<Action>>)
    requires Behaviour(h, past) && forall i :: 0 <= i < |past| ==> Cascade.DeletesCrs(h[i], past[i])
    requires Surrounds(e, Last(h)) && Fair(e, Last(h), segs)
    ensures Disturbed(Last(h), segs) <= Potential(e, Last(h))
    ensures forall i :: 0 <= i < |segs| && Changes(Before(Last(h), segs, i), segs[i]) == 0 ==> AtGoal(e, Before(Last(h), segs, i))
  {
    SurroundedFits(e, h, past);
    Cascade.BehaviourKeepsCascadeInv(h, past);
    FewAreDisturbed(e, Last(h), segs);
    forall i | 0 <= i < |segs| && Changes(Before(Last(h), segs, i), segs[i]) == 0
      ensures AtGoal(e, Before(Last(h), segs, i))
    {
      FairPrefix(e, Last(h), segs, i);
      QuietMeansGoal(e, Before(Last(h), segs, i), segs[i]);
    }
  }

  // The settings behind the goal

  /** The CR is reconciled, and at the end of every reconcile its device has all the settings of its spec. */
  ghost predicate SetWhenServed(e: Env, s: State, seg: seq<Action>, key: CrKey)
    requires key in s.crs.objs
  {
    && AgentServed(s, seg, key)
    && forall i, j :: AgentServes(s, seg, key, i, j) ==> Applied.SettingsDone(e, key, s.crs.objs[key].spec, Applied.OwnSlaves(s.crs, key), LinksOf(StateAt(s, seg, j), HostOf(key)))
  }

  /** What a serving stretch without changes means for every CR whose device can be brought up. */
  ghost predicate AllSetWhenServed(e: Env, s: State, seg: seq<Action>) {
    forall key :: key in s.crs.objs && Outcome(e, key, s.crs.objs[key].spec, LinksOf(s, HostOf(key))).Finished? ==> SetWhenServed(e, s, seg, key)
  }

  lemma QuietMeansSet(e: Env, s: State, seg: seq<Action>)
    requires QuietStretch(e, s, seg) && Serving(s, seg)
    ensures AllSetWhenServed(e, s, seg)
  {
    forall key | key in s.crs.objs && Outcome(e, key, s.crs.objs[key].spec, LinksOf(s, HostOf(key))).Finished?
      ensures SetWhenServed(e, s, seg, key)
    {
      assert AgentServed(s, seg, key);
      forall i, j | AgentServes(s, seg, key, i, j)
        ensures Applied.SettingsDone(e, key, s.crs.objs[key].spec, Applied.OwnSlaves(s.crs, key), LinksOf(StateAt(s, seg, j), HostOf(key)))
      {
        Applied.QuietAgentRoundSets(e, s, seg, key, i, j);
      }
    }
  }

  /**
   * In every fair run, of the serving stretches at most as many as the potential says change anything, and in each
   * of the others every CR whose device can be brought up is reconciled, and each time the device then has all its settings.
   */
  lemma FairRunsApplySettings(e: Env, h: seq<State>, past: seq<Action>, segs: seq<seq<Action>>)
    requires Behaviour(h, past) && forall i :: 0 <= i < |past| ==> Cascade.DeletesCrs(h[i], past[i])
    requires Surrounds(e, Last(h)) && Fair(e, Last(h), segs)
    ensures Disturbed(Last(h), segs) <= Potential(e, Last(h))
    ensures forall i :: 0 <= i < |segs| && Changes(Before(Last(h), segs, i), segs[i]) == 0 ==> AllSetWhenServed(e, Before(Last(h), segs, i), segs[i])
  {
    SurroundedFits(e, h, past);
    Cascade.BehaviourKeepsCascadeInv(h, past);
    FewAreDisturbed(e, Last(h), segs);
    forall i | 0 <= i < |segs| && Changes(Before(Last(h), segs, i), segs[i]) == 0
      ensures AllSetWhenServed(e, Before(Last(h), segs, i), segs[i])
    {
      FairPrefix(e, Last(h), segs, i);
      QuietMeansSet(e, Before(Last(h), segs, i), segs[i]);
    }
  }

  lemma {:induction false} SomeIsQuiet(s: State, segs: seq<seq<Action>>)
    requires Disturbed(s, segs) < |segs|
    ensures exists i :: 0 <= i < |segs| && Changes(Before(s, segs, i), segs[i]) == 0
    decreases |segs|
  {
    var last := |segs| - 1;
    if Changes(Before(s, segs, last), segs[last]) != 0 {
      SomeIsQuiet(s, segs[..last]);
      var i :| 0 <= i < last && Changes(Before(s, segs[..last], i), segs[..last][i]) == 0;
      BeforeInit(s, segs, i);
      assert Changes(Before(s, segs, i), segs[i]) == 0;
    }
  }

  // What becomes of a removed template

  ghost predicate KeepsLinks(s: State, segs: seq<seq<Action>>) {
    forall i :: 0 <= i < |segs| ==> NoLeak.DeletesLinksThroughout(Before(s, segs, i), segs[i])
  }

  lemma {:induction false} LeakPrefix(s: State, segs: seq<seq<Action>>, i: nat)
    requires NoLeak.LeakInv(s) && KeepsLinks(s, segs) && i <= |segs|
    ensures NoLeak.LeakInv(Before(s, segs, i))
    decreases i
  {
    if i > 0 {
      LeakPrefix(s, segs, i - 1);
      BeforeNext(s, segs, i - 1);
      NoLeak.RunKeepsLeakInv(Before(s, segs, i - 1), segs[i - 1]);
    }
  }

  /** No CR of the template is left, and every device the agents made belongs to a CR that is none of its own. */
  ghost predicate Drained(s: State, tk: TemplateKey) {
    && Drain.LabelledKeys(s.crs, tk) == {}
    && forall n, dev :: NoLeak.MadeBy(LinksOf(s, n), dev, tk.kind) ==>
         var key := CrKey(tk.kind, Join(n, dev)); key in s.crs.objs && !LabelledFor(s.crs.objs[key], tk)
  }

  lemma GoalIsDrained(e: Env, s: State, tk: TemplateKey)
    requires AtGoal(e, s) && NoLeak.LeakInv(s) && tk !in e.live
    ensures Drained(s, tk)
  {
    assert forall key: CrKey :: key in s.crs.objs && tk.kind == key.kind && LabelledFor(s.crs.objs[key], tk) ==> Wants(e, tk, key);
    assert NoLeak.DevicesHeld(s);
    forall n, dev | NoLeak.MadeBy(LinksOf(s, n), dev, tk.kind)
      ensures var key := CrKey(tk.kind, Join(n, dev)); key in s.crs.objs && !LabelledFor(s.crs.objs[key], tk)
    {
      assert Held(s.crs, n, tk.kind, Join(n, dev));
    }
  }

  /**
   * Every fair run drains a removed template: among one more serving stretches than the potential says, at least one
   * begins in a state without any of its CRs and without any device made for them.
   */
  lemma FairRunsDrain(e: Env, h: seq<State>, past: seq<Action>, segs: seq<seq<Action>>, tk: TemplateKey)
    requires Behaviour(h, past)
    requires forall i :: 0 <= i < |past| ==> Cascade.DeletesCrs(h[i], past[i]) && NoLeak.DeletesLinks(h[i], past[i])
    requires Surrounds(e, Last(h)) && Fair(e, Last(h), segs) && KeepsLinks(Last(h), segs)
    requires tk !in e.live && |segs| > Potential(e, Last(h))
    ensures exists i :: 0 <= i < |segs| && Drained(Before(Last(h), segs, i), tk)
  {
    FairRunsSettle(e, h, past, segs);
    SomeIsQuiet(Last(h), segs);
    var i :| 0 <= i < |segs| && Changes(Before(Last(h), segs, i), segs[i]) == 0;
    NoLeak.BehaviourKeepsLeakInv(h, past);
    LeakPrefix(Last(h), segs, i);
    GoalIsDrained(e, Before(Last(h), segs, i), tk);
  }
}
