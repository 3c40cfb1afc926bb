/** What a template run means: exactness, idempotence, and when two templates do not disturb each other. */
module FanOutLaws {
  import opened Base
  import opened ApiObjects
  import opened ApiStore
  import opened Names
  import opened FanOut

  /** The labels name the template and the node. */
  predicate Wears(labels: Labels, tk: TemplateKey, node: string) {
    && TemplateName in labels && labels[TemplateName] == tk.name
    && TemplateNS in labels && labels[TemplateNS] == tk.ns
    && NodeName in labels && labels[NodeName] == node
  }

  /** Every selected node has its CR, nothing else of the template is left alive. */
  ghost predicate Settled(s: CrStore, o: Order) {
    && (forall node :: node in o.nodes ==>
          var name := Join(node, o.dev);
          && name in s.objs
          && Wears(s.objs[name].labels, o.tk, node) && s.objs[name].spec == o.spec)
    && (forall name :: name in s.objs && LabelledFor(s.objs[name], o.tk) && name !in Desired(o) ==> s.objs[name].terminating)
  }

  /** The finalizer, the status and any foreign label survive a sync; the agent's side is not touched. */
  predicate AgentPartKept(was: Cr, now: Cr) {
    && now.finalizer == was.finalizer && now.terminating == was.terminating && now.status == was.status
    && forall k :: k in was.labels && k.Other? ==> k in now.labels && now.labels[k] == was.labels[k]
  }

  ghost predicate OnTarget(s0: CrStore, s: CrStore, o: Order) {
    forall name :: Becomes(Lookup(s0.objs, name), Lookup(s.objs, name), Target(o, name, Lookup(s0.objs, name)))
  }

  /** A successful run settles the template and leaves every CR it does not own exactly as it was. */
  lemma RunIsExact(s0: CrStore, s: CrStore, o: Order)
    requires NoZombies(s0) && Reached(s0, s, o, Everywhere(s0, o))
    ensures Settled(s, o)
    ensures forall name :: name in s0.objs && name in Desired(o) ==> name in s.objs && AgentPartKept(s0.objs[name], s.objs[name])
    ensures forall name :: name in s0.objs && name !in Desired(o) && !LabelledFor(s0.objs[name], o.tk) ==>
                             name in s.objs && s.objs[name] == s0.objs[name]
    ensures forall name :: name in s.objs && name !in s0.objs ==> name in Desired(o) && !s.objs[name].finalizer
  {
    forall name
      ensures Becomes(Lookup(s0.objs, name), Lookup(s.objs, name), Target(o, name, Lookup(s0.objs, name)))
    {
      assert name !in Everywhere(s0, o) ==> Lookup(s.objs, name) == Lookup(s0.objs, name);
    }
    forall name
      ensures name in s0.objs && name in Desired(o) ==> name in s.objs && AgentPartKept(s0.objs[name], s.objs[name])
      ensures name in s.objs && name !in s0.objs ==> name in Desired(o) && !s.objs[name].finalizer
      ensures name in s0.objs && name !in Desired(o) && !LabelledFor(s0.objs[name], o.tk) ==>
                name in s.objs && s.objs[name] == s0.objs[name]
      ensures name in s.objs && LabelledFor(s.objs[name], o.tk) && name !in Desired(o) ==> s.objs[name].terminating
    {
      OneName(s0, s, o, name);
    }
    forall node | node in o.nodes
      ensures var name := Join(node, o.dev);
              name in s.objs && Wears(s.objs[name].labels, o.tk, node) && s.objs[name].spec == o.spec
    {
      NodePartOfJoin(node, o.dev);
      WantedIsServed(s0, s, o, Join(node, o.dev), node);
    }
  }

  lemma OneName(s0: CrStore, s: CrStore, o: Order, name: string)
    requires NoZombies(s0) && OnTarget(s0, s, o)
    ensures name in s0.objs && name in Desired(o) ==> name in s.objs && AgentPartKept(s0.objs[name], s.objs[name])
    ensures name in s.objs && name !in s0.objs ==> name in Desired(o) && !s.objs[name].finalizer
    ensures name in s0.objs && name !in Desired(o) && !LabelledFor(s0.objs[name], o.tk) ==>
              name in s.objs && s.objs[name] == s0.objs[name]
    ensures name in s.objs && LabelledFor(s.objs[name], o.tk) && name !in Desired(o) ==> s.objs[name].terminating
  {
    var was, now := Lookup(s0.objs, name), Lookup(s.objs, name);
    assert Becomes(was, now, Target(o, name, was));
  }

  lemma WantedIsServed(s0: CrStore, s: CrStore, o: Order, name: string, node: string)
    requires OnTarget(s0, s, o) && name in Desired(o) && NodePart(name, o.dev) == node
    ensures name in s.objs && Wears(s.objs[name].labels, o.tk, node) && s.objs[name].spec == o.spec
  {
    assert Becomes(Lookup(s0.objs, name), Lookup(s.objs, name), Target(o, name, Lookup(s0.objs, name)));
  }

  /** On a settled template every CR is already its own target, so a run writes nothing at all. */
  lemma SettledIsStable(s: CrStore, s': CrStore, o: Order)
    requires NoZombies(s) && Settled(s, o) && Reachable(s, s', o)
    ensures s'.objs == s.objs
  {
    forall name
      ensures Lookup(s'.objs, name) == Lookup(s.objs, name)
    {
      if name in Desired(o) {
        var node :| node in o.nodes && name == Join(node, o.dev);
        NodePartOfJoin(node, o.dev);
        var cr := s.objs[name];
        assert SyncLabels(cr.labels, o.tk, node) == cr.labels;
      }
      assert Target(o, name, Lookup(s.objs, name)) == Lookup(s.objs, name);
    }
    assert forall name :: name in s'.objs <==> Lookup(s'.objs, name).Some?;
  }

  /** Hence a second run after a successful one changes no CR, whatever fails during it. */
  lemma SecondRunChangesNothing(s0: CrStore, s1: CrStore, s2: CrStore, o: Order)
    requires NoZombies(s0) && Reached(s0, s1, o, Everywhere(s0, o)) && NoZombies(s1) && Reachable(s1, s2, o)
    ensures s2.objs == s1.objs
  {
    RunIsExact(s0, s1, o);
    SettledIsStable(s1, s2, o);
  }

  // Two templates of one kind. Stores are compared up to resourceVersions.

  type Crs = map<string, Cr>

  /** A successful run as a function on the CRs. */
  function Ran(o: Order, m: Crs): Crs {
    map name | name in m.Keys + Desired(o) && Target(o, name, Lookup(m, name)).Some? :: Target(o, name, Lookup(m, name)).value
  }

  lemma RanAt(o: Order, m: Crs, name: string)
    ensures Lookup(Ran(o, m), name) == Target(o, name, Lookup(m, name))
  {
  }

  function Bare(cr: Option<Cr>): Option<Cr> {
    if cr.Some? then Some(cr.value.(rv := 0)) else None
  }

  ghost predicate SameCrs(m: Crs, m': Crs) {
    forall name :: Bare(Lookup(m, name)) == Bare(Lookup(m', name))
  }

  /** Taking this CR over from another template leads to the same CR whether or not it is deleted first. */
  predicate TakenOverQuietly(cr: Cr, spec: Spec) {
    if cr.finalizer then cr.terminating
    else !cr.terminating && cr.status == EMPTY_STATUS && cr.generation == 1 && cr.spec == spec
         && forall k :: k in cr.labels ==> !k.Other?
  }

  /** The CR is wanted by one template while it still carries the labels of the other. */
  predicate Contested(cr: Cr, name: string, o: Order, other: Order) {
    name in Desired(o) && LabelledFor(cr, other.tk)
  }

  lemma DesiredAreDisjoint(o: Order, p: Order, name: string)
    requires DotFree(o.dev) && DotFree(p.dev) && o.dev != p.dev
    ensures !(name in Desired(o) && name in Desired(p))
  {
    if name in Desired(o) && name in Desired(p) {
      var n :| n in o.nodes && name == Join(n, o.dev);
      var m :| m in p.nodes && name == Join(m, p.dev);
      CollisionIffShifted(n, o.dev, m, p.dev);
      ShiftedHasDot(n, o.dev, m, p.dev);
      ShiftedHasDot(m, p.dev, n, o.dev);
    }
  }

  /** A CR wanted by o: the two orders agree on it exactly when it is not contested or is taken over quietly. */
  lemma CommuteWanted(o: Order, p: Order, name: string, cr: Option<Cr>)
    requires o.tk != p.tk && o.tk.kind == p.tk.kind && name in Desired(o) && name !in Desired(p)
    requires cr.Some? ==> cr.value.generation >= 1
    ensures Bare(Target(p, name, Target(o, name, cr))) == Bare(Target(o, name, Target(p, name, cr)))
            <==> (cr.Some? && LabelledFor(cr.value, p.tk) ==> TakenOverQuietly(cr.value, o.spec))
  {
    if cr.Some? && LabelledFor(cr.value, p.tk) {
      var node := NodePart(name, o.dev);
      var labels := cr.value.labels;
      if forall k :: k in labels ==> !k.Other? {
        assert SyncLabels(labels, o.tk, node) == SyncLabels(map[], o.tk, node);
      } else {
        var k :| k in labels && k.Other?;
        assert k in SyncLabels(labels, o.tk, node) && k !in SyncLabels(map[], o.tk, node);
      }
    }
  }

  lemma RansCommuteIff(o: Order, p: Order, m: Crs)
    requires o.tk != p.tk && o.tk.kind == p.tk.kind && o.dev != p.dev && DotFree(o.dev) && DotFree(p.dev)
    requires forall name :: name in m ==> m[name].generation >= 1
    ensures SameCrs(Ran(p, Ran(o, m)), Ran(o, Ran(p, m))) <==> Undisputed(o, p, m)
  {
    forall name
      ensures Bare(Lookup(Ran(p, Ran(o, m)), name)) == Bare(Lookup(Ran(o, Ran(p, m)), name)) <==>
              (name in m ==> UndisputedAt(o, p, name, m[name]))
    {
      RanAt(o, m, name);
      RanAt(p, m, name);
      RanAt(p, Ran(o, m), name);
      RanAt(o, Ran(p, m), name);
      DesiredAreDisjoint(o, p, name);
      if name in Desired(o) {
        CommuteWanted(o, p, name, Lookup(m, name));
      } else if name in Desired(p) {
        CommuteWanted(p, o, name, Lookup(m, name));
      }
    }
  }

  /** A CR that one template wants and the other still labels is taken over quietly. */
  predicate UndisputedAt(o: Order, p: Order, name: string, cr: Cr) {
    && (Contested(cr, name, o, p) ==> TakenOverQuietly(cr, o.spec))
    && (Contested(cr, name, p, o) ==> TakenOverQuietly(cr, p.spec))
  }

  ghost predicate Undisputed(o: Order, p: Order, m: Crs) {
    forall name :: name in m ==> UndisputedAt(o, p, name, m[name])
  }

  /** A successful run of the controller does what the function says, up to resourceVersions. */
  lemma RunIsRan(s0: CrStore, s: CrStore, o: Order)
    requires Reached(s0, s, o, Everywhere(s0, o))
    ensures SameCrs(s.objs, Ran(o, s0.objs))
  {
    forall name ensures Bare(Lookup(s.objs, name)) == Bare(Lookup(Ran(o, s0.objs), name)) {
      RanAt(o, s0.objs, name);
      if name !in Everywhere(s0, o) {
        assert Lookup(s.objs, name) == Lookup(s0.objs, name);
      }
    }
  }

  lemma TargetIgnoresVersions(o: Order, name: string, cr: Option<Cr>, cr': Option<Cr>)
    requires Bare(cr) == Bare(cr')
    ensures Bare(Target(o, name, cr)) == Bare(Target(o, name, cr'))
  {
  }

  lemma RanIgnoresVersions(o: Order, m: Crs, m': Crs)
    requires SameCrs(m, m')
    ensures SameCrs(Ran(o, m), Ran(o, m'))
  {
    forall name ensures Bare(Lookup(Ran(o, m), name)) == Bare(Lookup(Ran(o, m'), name)) {
      RanAt(o, m, name);
      RanAt(o, m', name);
      TargetIgnoresVersions(o, name, Lookup(m, name), Lookup(m', name));
    }
  }

  lemma TwoRunsAreRan(s0: CrStore, s1: CrStore, s2: CrStore, o: Order, p: Order)
    requires Reached(s0, s1, o, Everywhere(s0, o)) && Reached(s1, s2, p, Everywhere(s1, p))
    ensures SameCrs(s2.objs, Ran(p, Ran(o, s0.objs)))
  {
    RunIsRan(s0, s1, o);
    RunIsRan(s1, s2, p);
    RanIgnoresVersions(p, s1.objs, Ran(o, s0.objs));
  }

  /**
   * The stores reached by successful runs of two templates, one after the other in either order, have the same
   * CRs exactly when every CR that one wants and the other still labels is already on its way out, or is
   * indistinguishable from a newly created one.
   */
  lemma RunsCommuteIff(s0: CrStore, s1: CrStore, s2: CrStore, s3: CrStore, s4: CrStore, o: Order, p: Order)
    requires o.tk != p.tk && o.tk.kind == p.tk.kind && o.dev != p.dev && DotFree(o.dev) && DotFree(p.dev)
    requires forall name :: name in s0.objs ==> s0.objs[name].generation >= 1
    requires BothOrders(s0, s1, s2, s3, s4, o, p)
    ensures SameCrs(s2.objs, s4.objs) <==> Undisputed(o, p, s0.objs)
  {
    TwoRunsAreRan(s0, s1, s2, o, p);
    TwoRunsAreRan(s0, s3, s4, p, o);
    RansCommuteIff(o, p, s0.objs);
  }

  /** The first run of a template makes fresh CRs only. */
  lemma FirstRunIsFresh(first: Order, s1: CrStore, name: string)
    requires Reached(Store(map[], 0), s1, first, Everywhere(Store(map[], 0), first)) && name in s1.objs
    ensures s1.objs[name].(rv := 0) == Fresh(SyncLabels(map[], first.tk, NodePart(name, first.dev)), first.spec)
  {
    assert Lookup(s1.objs, name).Some?;
    assert name in Everywhere(Store(map[], 0), first);
  }

  /** The agent's finalizer on one of them leaves it labelled, live and held. */
  lemma HeldAfterFirstRun(first: Order, s1: CrStore, s2: CrStore, name: string)
    requires Reached(Store(map[], 0), s1, first, Everywhere(Store(map[], 0), first)) && name in s1.objs
    requires ApiStore.Update(s1, name, s1.objs[name].(finalizer := true)) == Some(s2)
    ensures forall other :: other in s2.objs ==> s2.objs[other].generation >= 1
    ensures name in s2.objs && LabelledFor(s2.objs[name], first.tk) && s2.objs[name].finalizer && !s2.objs[name].terminating
  {
    forall other | other in s1.objs ensures s1.objs[other].generation >= 1 {
      FirstRunIsFresh(first, s1, other);
    }
    FirstRunIsFresh(first, s1, name);
    assert LabelledFor(s1.objs[name], first.tk);
  }

  lemma HeldCrIsDisputed(o: Order, p: Order, node: string, m: Crs)
    requires node in o.nodes && Join(node, o.dev) in m
    requires var cr := m[Join(node, o.dev)]; LabelledFor(cr, p.tk) && cr.finalizer && !cr.terminating
    ensures !Undisputed(o, p, m)
  {
    assert Join(node, o.dev) in Desired(o);
    assert !UndisputedAt(o, p, Join(node, o.dev), m[Join(node, o.dev)]);
  }

  /** The stores two orders of runs reach from one store. */
  ghost predicate BothOrders(s0: CrStore, s1: CrStore, s2: CrStore, s3: CrStore, s4: CrStore, o: Order, p: Order) {
    && Reached(s0, s1, o, Everywhere(s0, o)) && Reached(s1, s2, p, Everywhere(s1, p))
    && Reached(s0, s3, p, Everywhere(s0, p)) && Reached(s3, s4, o, Everywhere(s3, o))
  }

  /**
   * An input on which the orders differ: template p made the CR of a device and the agent put its finalizer on
   * it; then p is renamed to another device and o takes over the one p gave up.
   */
  lemma RenamedDeviceDoesNotCommute(first: Order, o: Order, p: Order, node: string, s1: CrStore, s2: CrStore,
                                    s3: CrStore, s4: CrStore, s5: CrStore, s6: CrStore)
    requires o.tk != p.tk && o.tk.kind == p.tk.kind && o.dev != p.dev && DotFree(o.dev) && DotFree(p.dev)
    requires first == p.(dev := o.dev) && node in o.nodes && node in p.nodes
    requires Reached(Store(map[], 0), s1, first, Everywhere(Store(map[], 0), first))
    requires var name := Join(node, o.dev);
             name in s1.objs && ApiStore.Update(s1, name, s1.objs[name].(finalizer := true)) == Some(s2)
    requires BothOrders(s2, s3, s4, s5, s6, o, p)
    ensures !SameCrs(s4.objs, s6.objs)
  {
    HeldAfterFirstRun(first, s1, s2, Join(node, o.dev));
    HeldCrIsDisputed(o, p, node, s2.objs);
    RunsCommuteIff(s2, s3, s4, s5, s6, o, p);
  }
}
