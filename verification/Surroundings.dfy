/**
 * The surroundings a reachable state gives rise to once users and hosts fall silent. They are read off the state, the
 * selected nodes and the lookups' answers; what is left to ask of the state is that devices are distinct where
 * selections meet, that no name serves two kinds, and that no bond takes one of our devices as its slave.
 */
module Surroundings {
  import opened Base
  import opened ApiObjects
  import opened Names
  import opened Protocol
  import opened ProtocolInvariant
  import opened Rank
  import opened AgentRank
  import opened ManagerRank
  import opened Quiescence

  /** The nodes each selector selects, all nodes, and the answers of the lookups. */
  datatype World = World(selected: TemplateKey -> set<string>, all: set<string>,
                         resolved: (CrKey, Spec) -> Option<int>, detected: (CrKey, Spec) -> Option<string>)

  function LiveTemplates(s: State): set<TemplateKey> {
    set tk | tk in s.tmpls.objs && !s.tmpls.objs[tk].terminating
  }

  function PlanOf(s: State, w: World, tk: TemplateKey): Plan
    requires tk in s.tmpls.objs
  {
    var t := s.tmpls.objs[tk];
    Plan(t.spec.devName, t.spec.spec, w.selected(tk), t.generation)
  }

  function WantedNames(s: State, w: World): set<CrKey> {
    set tk, node | tk in LiveTemplates(s) && node in w.selected(tk) :: CrKey(tk.kind, Join(node, s.tmpls.objs[tk].spec.devName))
  }

  /** The nodes a manager in flight may still write CRs for. */
  function NodesAhead(w: World, pc: ManagerPc): set<string> {
    match pc
    case MListNodes(_, _) => w.all
    case MSync(_, _, _, todo) => todo
    case MPut(_, _, _, todo, node, _) => todo + {node}
    case _ => {}
  }

  function NamesAhead(w: World, k: Kind, pc: ManagerPc): set<CrKey> {
    set node | node in NodesAhead(w, pc) :: CrKey(k, Join(node, if pc.MIdle? then "" else pc.tmpl.spec.devName))
  }

  /** Every name that is used, asked for, or about to be used. */
  function NamesInPlay(s: State, w: World): set<CrKey> {
    s.crs.objs.Keys + WantedNames(s, w)
    + NamesAhead(w, Bridge, ManagerOf(s, Bridge)) + NamesAhead(w, Uplink, ManagerOf(s, Uplink)) + NamesAhead(w, Vxlan, ManagerOf(s, Vxlan))
  }

  function SurroundingsOf(s: State, w: World): Env {
    Env(map tk | tk in LiveTemplates(s) :: PlanOf(s, w, tk), s.tmpls.objs.Keys, NamesInPlay(s, w), w.all, w.resolved, w.detected)
  }

  // What is asked of the state

  /** Live templates of one kind that select a common node have different devices. */
  ghost predicate DevicesDiffer(s: State, w: World) {
    forall t1, t2 :: t1 in LiveTemplates(s) && t2 in LiveTemplates(s) && t1 != t2 && t1.kind == t2.kind ==>
      s.tmpls.objs[t1].spec.devName != s.tmpls.objs[t2].spec.devName || w.selected(t1) !! w.selected(t2)
  }

  ghost predicate KindsDiffer(s: State, w: World) {
    forall k1, k2 :: k1 in NamesInPlay(s, w) && k2 in NamesInPlay(s, w) && k1.name == k2.name ==> k1 == k2
  }

  /** The bond lists no device that a name in play stands for. */
  predicate Unslaved(s: State, w: World, spec: Spec) {
    spec.OfUplink? ==> forall slave :: slave in spec.uplink.bondSlaves ==> slave !in Devices(NamesInPlay(s, w))
  }

  /** No spec in use does: of a CR, of a live template, of a template copy in flight, of a configuration run. */
  ghost predicate SlavesAreOthers(s: State, w: World) {
    && (forall key :: key in s.crs.objs ==> Unslaved(s, w, s.crs.objs[key].spec))
    && (forall tk :: tk in LiveTemplates(s) ==> Unslaved(s, w, s.tmpls.objs[tk].spec.spec))
    && (forall k :: !ManagerOf(s, k).MIdle? ==> Unslaved(s, w, ManagerOf(s, k).tmpl.spec.spec))
    && (forall n, k :: AgentOf(s, n, k).ARun? ==> Unslaved(s, w, AgentOf(s, n, k).task.spec))
  }

  ghost predicate Orderly(s: State, w: World) {
    && (forall tk :: tk in LiveTemplates(s) ==> w.selected(tk) <= w.all)
    && DevicesDiffer(s, w) && KindsDiffer(s, w) && SlavesAreOthers(s, w)
  }

  // Names

  lemma AheadAreOwned(s: State, w: World, k: Kind)
    requires Inv(s)
    ensures forall key :: key in NamesAhead(w, k, ManagerOf(s, k)) ==> OwnerOf(key.name).Some?
    ensures NamesAhead(w, k, ManagerOf(s, k)) <= NamesInPlay(s, w)
  {
    var pc := ManagerOf(s, k);
    assert ManagerOk(s.tmpls, s.crs, k, pc);
    forall node | node in NodesAhead(w, pc) ensures OwnerOf(Join(node, pc.tmpl.spec.devName)).Some? {
      OwnerOfJoin(node, pc.tmpl.spec.devName);
    }
  }

  lemma WantedAreOwned(s: State, w: World)
    requires Inv(s)
    ensures forall key :: key in WantedNames(s, w) ==> OwnerOf(key.name).Some?
  {
    forall tk, node | tk in LiveTemplates(s) && node in w.selected(tk)
      ensures OwnerOf(Join(node, s.tmpls.objs[tk].spec.devName)).Some?
    {
      OwnerOfJoin(node, s.tmpls.objs[tk].spec.devName);
    }
  }

  lemma NamesFit(s: State, w: World)
    requires Inv(s) && KindsDiffer(s, w)
    ensures KeysFit(NamesInPlay(s, w))
  {
    WantedAreOwned(s, w);
    forall k ensures forall key :: key in NamesAhead(w, k, ManagerOf(s, k)) ==> OwnerOf(key.name).Some? {
      AheadAreOwned(s, w, k);
    }
  }

  // The parts

  lemma PlansFitHere(s: State, w: World)
    requires Inv(s) && Orderly(s, w)
    ensures PlansFit(SurroundingsOf(s, w))
  {
    var e := SurroundingsOf(s, w);
    NamesFit(s, w);
    forall tk, key | Wants(e, tk, key) ensures key in e.keys {
      var node :| node in e.live[tk].nodes && key.name == Join(node, e.live[tk].dev);
      assert key == CrKey(tk.kind, Join(node, s.tmpls.objs[tk].spec.devName));
      assert key in WantedNames(s, w);
    }
  }

  lemma ManagerCoveredHere(s: State, w: World, k: Kind)
    requires Inv(s) && Orderly(s, w)
    ensures ManagerCovered(SurroundingsOf(s, w), s.crs, k, ManagerOf(s, k))
  {
    var e, pc := SurroundingsOf(s, w), ManagerOf(s, k);
    AheadAreOwned(s, w, k);
    if !pc.MIdle? {
      forall node | node in NodesAhead(w, pc) ensures CrKey(k, Join(node, pc.tmpl.spec.devName)) in e.keys {
        assert CrKey(k, Join(node, pc.tmpl.spec.devName)) in NamesAhead(w, k, pc);
      }
      assert SlaveFree(e, pc.tmpl.spec.spec);
      assert Covered(e, k, pc.tmpl, NodesAhead(w, pc));
    }
  }

  /** Every orderly state has its surroundings. */
  lemma StateHasSurroundings(s: State, w: World)
    requires Inv(s) && Orderly(s, w)
    ensures Surrounds(SurroundingsOf(s, w), s)
  {
    PlansFitHere(s, w);
    forall k ensures ManagerCovered(SurroundingsOf(s, w), s.crs, k, ManagerOf(s, k)) {
      ManagerCoveredHere(s, w, k);
    }
  }

  /**
   * The loop ends from every reachable orderly state, whatever its workers are doing, with a bound that can be
   * computed from the state, the selections and the lookups' answers.
   */
  lemma OrderlyLoopTerminates(h: seq<State>, past: seq<Action>, w: World, actions: seq<Action>)
    requires Behaviour(h, past) && Orderly(Last(h), w) && CalmThroughout(SurroundingsOf(Last(h), w), Last(h), actions)
    ensures Changes(Last(h), actions) <= Potential(SurroundingsOf(Last(h), w), Last(h))
  {
    BehaviourKeepsInv(h, past);
    StateHasSurroundings(Last(h), w);
    LoopTerminates(SurroundingsOf(Last(h), w), h, past, actions);
  }
}
