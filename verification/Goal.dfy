/**
 * Where the loop ends: every wanted CR is in place, configured, labelled and reported, nothing of the templates is
 * left over; and there nothing changes any more.
 */
module Goal {
  import opened Base
  import opened ApiObjects
  import opened ApiStore
  import opened Names
  import opened Protocol
  import opened ProtocolInvariant
  import opened Kernel
  import opened Rank
  import opened AgentRank
  import opened ManagerRank
  import opened Quiescence

  /** The CR is live, has its finalizer, its address, its Node label, the right condition, and its device if one can be made. */
  predicate Configured(e: Env, key: CrKey, c: Cr, x: Spot) {
    !c.terminating && Pending(e, key, c, x.ls, x.labels) == 0 && Made(e, key, c, x.ls)
  }

  predicate Made(e: Env, key: CrKey, c: Cr, ls: Links) {
    HasAdd(ProgramFor(e, key, c.spec)) ==> DevOf(key) in ls
  }

  predicate KeyDone(e: Env, s: State, key: CrKey)
    requires key in s.crs.objs
  {
    Configured(e, key, s.crs.objs[key], SpotAt(s, key))
  }

  /** The CRs of these nodes are in place. */
  ghost predicate Served(e: Env, objs: map<CrKey, Cr>, tk: TemplateKey, nodes: set<string>)
    requires tk in e.live
  {
    forall node :: node in nodes ==>
      var key := CrKey(tk.kind, Join(node, e.live[tk].dev)); key in objs && InSync(e, tk, key, objs[key])
  }

  /** Whatever carries the template's labels is wanted by it, on its way out, or still on the list. */
  ghost predicate Swept(e: Env, objs: map<CrKey, Cr>, tk: TemplateKey, todo: set<string>) {
    forall name :: CrKey(tk.kind, name) in objs && LabelledFor(objs[CrKey(tk.kind, name)], tk) && name !in todo ==>
      Wants(e, tk, CrKey(tk.kind, name)) || objs[CrKey(tk.kind, name)].terminating
  }

  /** The template is live, reported, and has its CRs and no other live ones. */
  ghost predicate TemplateDone(e: Env, s: State, tk: TemplateKey) {
    && tk in e.live && tk in s.tmpls.objs && TemplateRank(e, tk, Some(s.tmpls.objs[tk])) == 0
    && Served(e, s.crs.objs, tk, e.live[tk].nodes) && Swept(e, s.crs.objs, tk, {})
  }

  /** Every stored CR is configured, every template has exactly what it wants, and of the others nothing is left. */
  ghost predicate AtGoal(e: Env, s: State) {
    && (forall key :: key in s.crs.objs ==> KeyDone(e, s, key))
    && (forall tk :: tk in e.live || tk in s.tmpls.objs ==> TemplateDone(e, s, tk))
    && (forall tk: TemplateKey, key: CrKey :: key in s.crs.objs && tk.kind == key.kind && LabelledFor(s.crs.objs[key], tk) ==> Wants(e, tk, key))
  }

  // At the goal nothing changes

  lemma WantedAtGoal(e: Env, s: State, key: CrKey)
    requires AtGoal(e, s) && Claim(e, key).Some?
    ensures key in s.crs.objs && InSync(e, Claim(e, key).value, key, s.crs.objs[key])
  {
    var tk := Claim(e, key).value;
    assert TemplateDone(e, s, tk);
    var node :| node in e.live[tk].nodes && key.name == Join(node, e.live[tk].dev);
    assert key == CrKey(tk.kind, Join(node, e.live[tk].dev));
  }

  lemma SafeAtGoal(e: Env, s: State, key: CrKey)
    requires PlansFit(e) && AtGoal(e, s) && key in s.crs.objs
    ensures !Exposed(e, key, s.crs.objs[key]) && !s.crs.objs[key].terminating
  {
    forall tk | tk in e.known && tk.kind == key.kind && LabelledFor(s.crs.objs[key], tk) ensures Claim(e, key) == Some(tk) {
      ClaimIsUnique(e, tk, key);
    }
    assert KeyDone(e, s, key);
  }

  lemma GoalStands(e: Env, s: State, key: CrKey)
    requires PlansFit(e) && AtGoal(e, s)
    ensures StandingOf(e, key, Lookup(s.crs.objs, key))
         == if key in s.crs.objs then Live(Claim(e, key).Some?, false, Claim(e, key).Some?) else Absent(false)
  {
    if Claim(e, key).Some? {
      WantedAtGoal(e, s, key);
    }
    if key in s.crs.objs {
      SafeAtGoal(e, s, key);
    }
  }

  lemma GoalRank(e: Env, s: State, key: CrKey)
    requires PlansFit(e) && AtGoal(e, s) && AgentOf(s, HostOf(key), key.kind).AIdle?
    ensures KeyRank(e, key, SpotAt(s, key)) == 0
  {
    GoalStands(e, s, key);
    assert key in s.crs.objs ==> KeyDone(e, s, key);
  }

  lemma GoalSkeleton(e: Env, s: State, key: CrKey)
    requires PlansFit(e) && AtGoal(e, s) && AgentOf(s, HostOf(key), key.kind).AIdle?
    ensures Skeleton(e, key, SpotAt(s, key)) == 0
  {
    GoalStands(e, s, key);
    assert key in s.crs.objs ==> KeyDone(e, s, key);
  }

  lemma {:induction false} SumZero<K(!new)>(f: K -> nat, keys: set<K>)
    requires forall key :: key in keys ==> f(key) == 0
    ensures Sum(f, keys) == 0
  {
    if keys != {} {
      SumZero(f, keys - {Pick(keys)});
    }
  }

  ghost predicate AllIdle(s: State) {
    (forall k :: ManagerOf(s, k).MIdle?) && forall n, k :: AgentOf(s, n, k).AIdle?
  }

  lemma NoTemplateWaits(e: Env, s: State)
    requires AtGoal(e, s)
    ensures TemplateRanks(e, s) == 0
  {
    forall tk ensures TemplateRank(e, tk, Lookup(s.tmpls.objs, tk)) == 0 {
      assert tk in s.tmpls.objs ==> TemplateDone(e, s, tk);
    }
    SumZero(tk => TemplateRank(e, tk, Lookup(s.tmpls.objs, tk)), e.known);
  }

  lemma NoCrWaits(e: Env, s: State)
    requires PlansFit(e) && AtGoal(e, s) && AllIdle(s)
    ensures Ranks(e, s) == 0 && Skeletons(e, s) == 0
  {
    forall key | key in e.keys ensures KeyRank(e, key, SpotAt(s, key)) == 0 && Skeleton(e, key, SpotAt(s, key)) == 0 {
      GoalRank(e, s, key);
      GoalSkeleton(e, s, key);
    }
    SumZero(key => KeyRank(e, key, SpotAt(s, key)), e.keys);
    SumZero(key => Skeleton(e, key, SpotAt(s, key)), e.keys);
  }

  lemma NoManagerWaits(e: Env, s: State)
    requires AllIdle(s)
    ensures Troubles(e, s) == 0 && Stales(e, s) == 0
  {
    assert ManagerOf(s, Bridge).MIdle? && ManagerOf(s, Uplink).MIdle? && ManagerOf(s, Vxlan).MIdle?;
  }

  lemma GoalHasNoPotential(e: Env, s: State)
    requires PlansFit(e) && AtGoal(e, s) && AllIdle(s)
    ensures Potential(e, s) == 0
  {
    NoCrWaits(e, s);
    NoTemplateWaits(e, s);
    NoManagerWaits(e, s);
  }

  /** At the goal, with all workers idle, nothing changes ever again. */
  lemma GoalIsStable(e: Env, s: State, actions: seq<Action>)
    requires Fits(e, s) && AtGoal(e, s) && AllIdle(s) && CalmThroughout(e, s, actions)
    ensures Changes(s, actions) == 0
  {
    GoalHasNoPotential(e, s);
    ChangesAreBounded(e, s, actions);
  }
}
