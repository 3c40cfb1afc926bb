/**
 * Ready=True is honest: it is written only after every command that may not fail has succeeded, in order, for
 * the spec that was read. For VXLANs the status patch that records the local IP refreshes the in-memory object;
 * the generation reported is that of another spec exactly when the CR was edited before that patch.
 */
module ReadyHonest {
  import opened Base
  import opened ApiObjects
  import opened ApiStore
  import opened Names
  import opened Kernel
  import Luck
  import opened Programs
  import opened Protocol
  import opened ProtocolInvariant

  ghost predicate IsProgram(p: Prog, k: Kind, dev: string, spec: Spec) {
    exists resolved, detected :: p == AgentProgram(k, dev, spec, resolved, detected)
  }

  /** The trace of a Task is a run of its program for its spec on its device. */
  ghost predicate TraceOk(n: string, k: Kind, t: Task, rest: Prog) {
    && ParseDeviceName(t.name, n) == Some(t.dev)
    && IsProgram(t.start, k, t.dev, t.spec)
    && Rest(t.start, t.trace) == Some(rest)
  }

  ghost predicate Evidence(n: string, k: Kind, pc: AgentPc) {
    match pc
    case ARun(t, rest) => TraceOk(n, k, t, rest)
    case ALabel(t) => TraceOk(n, k, t, Finished)
    case ALabelPatch(t, _) => TraceOk(n, k, t, Finished)
    case APatchIP(t) => TraceOk(n, k, t, Finished)
    case AReady(t) => TraceOk(n, k, t, Finished)
    case _ => true
  }

  ghost predicate EvidenceInv(s: State) {
    forall n, k :: Evidence(n, k, AgentOf(s, n, k))
  }

  lemma CommandEvidence(v: AgentView, n: string, k: Kind, t: Task, rest: Prog, ok: bool)
    requires TraceOk(n, k, t, rest) && !Ended(rest)
    ensures Evidence(n, k, AgentCommand(v, t, rest, ok).pc)
  {
    RestSnoc(t.start, t.trace, Attempt(rest.cmd, ok && CanSucceed(v.links, rest.cmd)));
  }

  lemma StartEvidence(n: string, k: Kind, name: string, c: Cr, dev: string, resolved: Option<int>, detected: Option<string>)
    requires ParseDeviceName(name, n) == Some(dev)
    ensures Evidence(n, k, StartTask(n, k, name, c, dev, resolved, detected))
  {
    var p := AgentProgram(k, dev, c.spec, resolved, detected);
    assert IsProgram(p, k, dev, c.spec);
  }

  lemma GoKeepsEvidence(v: AgentView, n: string, k: Kind, ok: bool)
    requires Evidence(n, k, v.pc)
    ensures Evidence(n, k, AgentGo(v, n, k, ok).pc)
  {
    if v.pc.ARun? && !Ended(v.pc.rest) {
      CommandEvidence(v, n, k, v.pc.task, v.pc.rest, ok);
      assert AgentGo(v, n, k, ok) == AgentCommand(v, v.pc.task, v.pc.rest, ok);
    }
  }

  lemma AgentKeepsEvidence(v: AgentView, n: string, k: Kind, a: AgentAct)
    requires Evidence(n, k, v.pc)
    ensures Evidence(n, k, AgentStep(v, n, k, a).pc)
  {
    if a.AGet? && v.pc.AIdle? {
      var dev := ParseDeviceName(a.name, n);
      if dev.Some? && CrKey(k, a.name) in v.crs.objs {
        StartEvidence(n, k, a.name, v.crs.objs[CrKey(k, a.name)], dev.value, a.resolved, a.detected);
      }
    } else if a.AGo? {
      GoKeepsEvidence(v, n, k, a.ok);
    }
  }

  lemma {:induction false} RunKeepsEvidence(s: State, actions: seq<Action>)
    requires Init(s)
    ensures EvidenceInv(Run(s, actions))
  {
    if actions != [] {
      var s1, a := Run(s, actions[..|actions| - 1]), actions[|actions| - 1];
      RunKeepsEvidence(s, actions[..|actions| - 1]);
      forall n, k ensures Evidence(n, k, AgentOf(Step(s1, a), n, k)) {
        assert Evidence(n, k, AgentOf(s1, n, k));
        if a.OfAgent? && a.node == n && a.kind == k {
          AgentKeepsEvidence(AgentViewOf(s1, n, k), n, k, a.aact);
        }
      }
    }
  }

  /** In a finished run no command that had to succeed failed. */
  lemma {:induction false} MustsSucceeded(p: Prog, t: seq<Attempt>, i: nat)
    requires Rest(p, t) == Some(Finished) && i < |t|
    ensures Rest(p, t[..i]).Some?
    ensures Rest(p, t[..i]).value.Must? ==> t[i].cmd == Rest(p, t[..i]).value.cmd && t[i].ok
    decreases |t|
  {
    RestPrefix(p, t, i + 1);
    assert t[..i + 1][..i] == t[..i];
    if Rest(p, t[..i]).value.Must? && !t[i].ok {
      AbortedIsFinal(p, t, i + 1);
    }
  }

  lemma {:induction false} RestPrefix(p: Prog, t: seq<Attempt>, i: nat)
    requires Rest(p, t).Some? && i <= |t|
    ensures Rest(p, t[..i]).Some?
  {
    if i < |t| {
      RestPrefix(p, t[..|t| - 1], i);
      assert t[..|t| - 1][..i] == t[..i];
    } else {
      assert t[..i] == t;
    }
  }

  lemma {:induction false} AbortedIsFinal(p: Prog, t: seq<Attempt>, i: nat)
    requires Rest(p, t).Some? && i <= |t| && Rest(p, t[..i]).Some? && Rest(p, t[..i]).value.Aborted?
    ensures Rest(p, t).value.Aborted?
  {
    if i < |t| {
      assert t[..|t| - 1][..i] == t[..i];
      AbortedIsFinal(p, t[..|t| - 1], i);
    } else {
      assert t[..i] == t;
    }
  }

  // Where the reported generation comes from

  /** The worker is busy with a run of this spec of this CR. */
  predicate About(pc: AgentPc, t: Task) {
    HasTask(pc) && pc.task.name == t.name && pc.task.spec == t.spec
  }

  predicate SpecIs(s: State, key: CrKey, spec: Spec) {
    key in s.crs.objs && s.crs.objs[key].spec == spec
  }

  predicate AtGeneration(s: State, key: CrKey, g: nat) {
    key in s.crs.objs && s.crs.objs[key].generation == g
  }

  /** At moment r the CR was read with the spec of the task, and since then the worker is busy with it. */
  ghost predicate ReadAt(h: seq<State>, r: nat, n: string, k: Kind, t: Task) {
    && r < |h| && SpecIs(h[r], CrKey(k, t.name), t.spec)
    && forall j :: r < j < |h| ==> About(AgentOf(h[j], n, k), t)
  }

  /** Step i is the patch of the local IP whose answer, the CR with an edited spec, became the copy of the task. */
  ghost predicate EditedAtPatch(h: seq<State>, i: nat, n: string, k: Kind, t: Task) {
    && i + 1 < |h|
    && AgentOf(h[i], n, k).APatchIP? && About(AgentOf(h[i], n, k), t) && AgentOf(h[i + 1], n, k) == AReady(t)
    && var key := CrKey(k, t.name);
       && key in h[i].crs.objs && h[i].crs.objs[key].spec != t.spec
       && key in h[i + 1].crs.objs && t.copy == h[i + 1].crs.objs[key]
  }

  ghost predicate Refreshed(h: seq<State>, r: nat, n: string, k: Kind, t: Task) {
    exists i: nat :: r < i && EditedAtPatch(h, i, n, k, t)
  }

  ghost predicate Told(h: seq<State>, n: string, k: Kind, pc: AgentPc) {
    HasTask(pc) ==> exists r: nat :: ReadAt(h, r, n, k, pc.task)
                                     && (pc.AReady? && pc.task.copy.spec != pc.task.spec ==> Refreshed(h, r, n, k, pc.task))
  }

  lemma RefreshedGrows(h: seq<State>, s': State, r: nat, n: string, k: Kind, t: Task)
    requires Refreshed(h, r, n, k, t)
    ensures Refreshed(h + [s'], r, n, k, t)
  {
    var i: nat :| r < i && EditedAtPatch(h, i, n, k, t);
    assert (h + [s'])[i] == h[i] && (h + [s'])[i + 1] == h[i + 1];
    assert EditedAtPatch(h + [s'], i, n, k, t);
  }

  lemma ReadGrows(h: seq<State>, s': State, r: nat, n: string, k: Kind, t: Task)
    requires ReadAt(h, r, n, k, t) && About(AgentOf(s', n, k), t)
    ensures ReadAt(h + [s'], r, n, k, t)
  {
  }

  /** Nothing happens to the worker. */
  lemma ToldStays(h: seq<State>, s': State, n: string, k: Kind)
    requires h != [] && Told(h, n, k, AgentOf(Last(h), n, k)) && AgentOf(s', n, k) == AgentOf(Last(h), n, k)
    ensures Told(h + [s'], n, k, AgentOf(s', n, k))
  {
    var pc := AgentOf(s', n, k);
    if HasTask(pc) {
      var r: nat :| ReadAt(h, r, n, k, pc.task) && (pc.AReady? && pc.task.copy.spec != pc.task.spec ==> Refreshed(h, r, n, k, pc.task));
      ReadGrows(h, s', r, n, k, pc.task);
      if pc.AReady? && pc.task.copy.spec != pc.task.spec {
        RefreshedGrows(h, s', r, n, k, pc.task);
      }
    }
  }

  lemma ReadBegins(h: seq<State>, s': State, n: string, k: Kind, t: Task)
    requires h != [] && SpecIs(Last(h), CrKey(k, t.name), t.spec) && About(AgentOf(s', n, k), t)
    ensures ReadAt(h + [s'], |h| - 1, n, k, t)
  {
  }

  /** The read that starts a run. */
  lemma ToldByGet(h: seq<State>, n: string, k: Kind, a: AgentAct)
    requires h != [] && a.AGet? && AgentOf(Last(h), n, k).AIdle?
    ensures var s' := Step(Last(h), OfAgent(n, k, a)); Told(h + [s'], n, k, AgentOf(s', n, k))
  {
    var s' := Step(Last(h), OfAgent(n, k, a));
    StepView(Last(h), n, k, a);
    var pc := AgentOf(s', n, k);
    if HasTask(pc) {
      ReadBegins(h, s', n, k, pc.task);
    }
  }

  /** How a busy worker goes on: with the same run, its copy refreshed only by the patch. */
  lemma GoOn(v: AgentView, n: string, k: Kind, ok: bool)
    requires HasTask(v.pc) && HasTask(AgentGo(v, n, k, ok).pc)
    ensures var pc' := AgentGo(v, n, k, ok).pc;
            && About(pc', v.pc.task)
            && (pc'.AReady? && pc'.task.copy.spec != v.pc.task.copy.spec ==> v.pc.APatchIP?)
            && (pc'.AReady? && v.pc.APatchIP? && pc'.task.copy.spec != v.pc.task.copy.spec ==>
                  var key := CrKey(k, v.pc.task.name);
                  && key in v.crs.objs && key in AgentGo(v, n, k, ok).crs.objs
                  && pc'.task.copy == AgentGo(v, n, k, ok).crs.objs[key] && pc'.task.copy.spec == v.crs.objs[key].spec)
  {
    if v.pc.ARun? && !Ended(v.pc.rest) {
      assert AgentGo(v, n, k, ok) == AgentCommand(v, v.pc.task, v.pc.rest, ok);
    } else if v.pc.APatchIP? {
      assert AgentGo(v, n, k, ok) == AgentPatchIP(v, k, v.pc.task, ok);
    }
  }

  lemma ToldByGo(h: seq<State>, n: string, k: Kind, ok: bool)
    requires h != [] && Inv(Last(h)) && Told(h, n, k, AgentOf(Last(h), n, k)) && HasTask(AgentOf(Last(h), n, k))
    ensures var s' := Step(Last(h), OfAgent(n, k, AGo(ok))); Told(h + [s'], n, k, AgentOf(s', n, k))
  {
    var s, s' := Last(h), Step(Last(h), OfAgent(n, k, AGo(ok)));
    var pc, pc' := AgentOf(s, n, k), AgentOf(s', n, k);
    StepView(s, n, k, AGo(ok));
    if HasTask(pc') {
      GoOn(AgentViewOf(s, n, k), n, k, ok);
      assert AgentOk(s.crs, n, k, pc);
      var r: nat :| ReadAt(h, r, n, k, pc.task);
      ReadGrows(h, s', r, n, k, pc'.task);
      if pc'.AReady? && pc'.task.copy.spec != pc'.task.spec {
        PatchRefreshes(h, s', r, n, k, pc'.task);
      }
    }
  }

  lemma PatchRefreshes(h: seq<State>, s': State, r: nat, n: string, k: Kind, t: Task)
    requires h != [] && ReadAt(h, r, n, k, t) && AgentOf(Last(h), n, k).APatchIP? && About(AgentOf(Last(h), n, k), t)
    requires AgentOf(s', n, k) == AReady(t) && t.copy.spec != t.spec
    requires var key := CrKey(k, t.name);
             key in Last(h).crs.objs && Last(h).crs.objs[key].spec == t.copy.spec && key in s'.crs.objs && t.copy == s'.crs.objs[key]
    ensures Refreshed(h + [s'], r, n, k, t)
  {
    assert EditedAtPatch(h + [s'], |h| - 1, n, k, t);
    assert r < |h| - 1;
  }

  ghost predicate AllTold(h: seq<State>)
    requires h != []
  {
    forall n, k :: Told(h, n, k, AgentOf(Last(h), n, k))
  }

  lemma ToldStep(h: seq<State>, a: Action)
    requires h != [] && Inv(Last(h)) && AllTold(h)
    ensures AllTold(h + [Step(Last(h), a)])
  {
    var s, s' := Last(h), Step(Last(h), a);
    forall n, k ensures Told(h + [s'], n, k, AgentOf(s', n, k)) {
      assert Told(h, n, k, AgentOf(s, n, k));
      if AgentOf(s', n, k) == AgentOf(s, n, k) {
        ToldStays(h, s', n, k);
      } else if HasTask(AgentOf(s', n, k)) {
        WorkerMoved(s, a, n, k);
        if a.aact.AGet? {
          ToldByGet(h, n, k, a.aact);
        } else {
          ToldByGo(h, n, k, a.aact.ok);
        }
      }
    }
  }

  /** Only a read starts a run, and only going on keeps one. */
  lemma WorkerTurns(v: AgentView, n: string, k: Kind, a: AgentAct)
    requires AgentStep(v, n, k, a).pc != v.pc && HasTask(AgentStep(v, n, k, a).pc)
    ensures (a.AGet? && v.pc.AIdle?) || (a.AGo? && HasTask(v.pc))
  {
  }

  /** A worker that turned to, or went on with, a run did so by its own read or step. */
  lemma WorkerMoved(s: State, a: Action, n: string, k: Kind)
    requires AgentOf(Step(s, a), n, k) != AgentOf(s, n, k) && HasTask(AgentOf(Step(s, a), n, k))
    ensures a.OfAgent? && a.node == n && a.kind == k
    ensures (a.aact.AGet? && AgentOf(s, n, k).AIdle?) || (a.aact.AGo? && HasTask(AgentOf(s, n, k)))
  {
    OthersKeepTheirPlace(s, a, n, k);
    StepView(s, n, k, a.aact);
    WorkerTurns(AgentViewOf(s, n, k), n, k, a.aact);
  }

  lemma OthersKeepTheirPlace(s: State, a: Action, n: string, k: Kind)
    ensures AgentOf(Step(s, a), n, k) != AgentOf(s, n, k) ==> a.OfAgent? && a.node == n && a.kind == k
  {
  }

  lemma {:induction false} BehaviourTells(h: seq<State>, actions: seq<Action>)
    requires Behaviour(h, actions)
    ensures AllTold(h)
  {
    if actions != [] {
      var past, a := h[..|h| - 1], actions[|actions| - 1];
      BehaviourTells(past, actions[..|actions| - 1]);
      BehaviourKeepsInv(past, actions[..|actions| - 1]);
      assert h[|actions| - 1 + 1] == Step(Last(past), a);
      ToldStep(past, a);
      assert h == past + [Step(Last(past), a)];
    }
  }

  /** The patch leaves the spec alone, so a copy it refreshed has the spec edited before it. */
  lemma EditShows(h: seq<State>, actions: seq<Action>, i: nat, n: string, k: Kind, t: Task)
    requires Behaviour(h, actions) && EditedAtPatch(h, i, n, k, t)
    ensures t.copy.spec != t.spec
  {
    var v := AgentViewOf(h[i], n, k);
    assert h[i + 1] == Step(h[i], actions[i]);
    WorkerMoved(h[i], actions[i], n, k);
    StepView(h[i], n, k, actions[i].aact);
    assert AgentGo(v, n, k, actions[i].aact.ok) == AgentPatchIP(v, k, v.pc.task, actions[i].aact.ok);
  }

  lemma OtherSpecIffEdited(h: seq<State>, actions: seq<Action>, n: string, k: Kind, t: Task)
    requires Behaviour(h, actions) && AgentOf(Last(h), n, k) == AReady(t)
    ensures t.copy.spec != t.spec <==> exists i: nat :: EditedAtPatch(h, i, n, k, t)
  {
    BehaviourTells(h, actions);
    assert Told(h, n, k, AgentOf(Last(h), n, k));
    if i: nat :| EditedAtPatch(h, i, n, k, t) {
      EditShows(h, actions, i, n, k, t);
    }
  }

  /**
   * Whenever an agent is about to write Ready=True, in any behaviour: it has finished the program of the spec
   * it read; the generation it reports is that of another spec exactly when its own patch of the local IP
   * came after an edit and refreshed the copy; and a CR still at that generation has the copy's spec.
   */
  lemma ReadyIsHonest(h: seq<State>, actions: seq<Action>, n: string, k: Kind)
    requires Behaviour(h, actions) && AgentOf(Last(h), n, k).AReady?
    ensures var s := Last(h); var t := AgentOf(s, n, k).task; var key := CrKey(k, t.name);
            && TraceOk(n, k, t, Finished)
            && key in s.crs.objs
            && AgentStep(AgentViewOf(s, n, k), n, k, AGo(true)).crs
               == PatchReady(s.crs, key, t.copy, Condition(true, "Configured", t.copy.generation)).value
            && (t.copy.spec != t.spec <==> exists i: nat :: EditedAtPatch(h, i, n, k, t))
            && (AtGeneration(s, key, t.copy.generation) ==> SpecIs(s, key, t.copy.spec))
            && (!k.Vxlan? ==> t.copy.spec == t.spec)
  {
    var s := Last(h);
    BehaviourKeepsInv(h, actions);
    RunKeepsEvidence(h[0], actions);
    BehaviourEnds(h, actions);
    assert AgentOk(s.crs, n, k, AgentOf(s, n, k));
    assert Evidence(n, k, AgentOf(s, n, k));
    OtherSpecIffEdited(h, actions, n, k, AgentOf(s, n, k).task);
  }

  /**
   * Hence, under any interleaving: if the CR has kept its spec since the agent read it, the generation
   * reported is that of the spec that was run.
   */
  lemma UneditedIsHonest(h: seq<State>, actions: seq<Action>, n: string, k: Kind)
    requires Behaviour(h, actions) && AgentOf(Last(h), n, k).AReady?
    ensures var t := AgentOf(Last(h), n, k).task; var key := CrKey(k, t.name);
            exists r: nat ::
              && ReadAt(h, r, n, k, t)
              && ((forall j :: r <= j < |h| && AgentOf(h[j], n, k).APatchIP? ==> SpecIs(h[j], key, t.spec)) ==>
                    t.copy.spec == t.spec
                    && (AtGeneration(Last(h), key, t.copy.generation) ==> SpecIs(Last(h), key, t.spec)))
  {
    var t := AgentOf(Last(h), n, k).task;
    ReadyIsHonest(h, actions, n, k);
    BehaviourTells(h, actions);
    assert Told(h, n, k, AgentOf(Last(h), n, k));
    var r: nat :| ReadAt(h, r, n, k, t) && (t.copy.spec != t.spec ==> Refreshed(h, r, n, k, t));
    if t.copy.spec != t.spec {
      var i: nat :| r < i && EditedAtPatch(h, i, n, k, t);
      assert !SpecIs(h[i], CrKey(k, t.name), t.spec);
    }
  }

  /** The CR reports Ready for the generation it has. */
  predicate ReadyNow(cr: Cr) {
    cr.status.ready.Some? && cr.status.ready.value.ready && cr.status.ready.value.observedGeneration == cr.generation
  }

  lemma PatchThenReady(v: AgentView, n: string, t: Task)
    requires v.pc == APatchIP(t) && CrKey(Vxlan, t.name) in v.crs.objs
    ensures var v' := AgentStep(AgentStep(v, n, Vxlan, AGo(true)), n, Vxlan, AGo(true)); var key := CrKey(Vxlan, t.name);
            key in v'.crs.objs && ReadyNow(v'.crs.objs[key]) && v'.crs.objs[key].spec == v.crs.objs[key].spec
  {
    var key := CrKey(Vxlan, t.name);
    var patched := PatchLocalIP(v.crs, key, t.ip).value;
    assert AgentStep(v, n, Vxlan, AGo(true)) == v.(crs := patched, pc := AReady(t.(copy := patched.objs[key])));
  }

  lemma UndisturbedEnd(s: State, n: string)
    requires Inv(s) && AgentOf(s, n, Vxlan).APatchIP?
    ensures var t := AgentOf(s, n, Vxlan).task; var key := CrKey(Vxlan, t.name);
            var s2 := Step(Step(s, OfAgent(n, Vxlan, AGo(true))), OfAgent(n, Vxlan, AGo(true)));
            && key in s.crs.objs && key in s2.crs.objs && ReadyNow(s2.crs.objs[key])
            && s2.crs.objs[key].spec == s.crs.objs[key].spec
  {
    assert AgentOk(s.crs, n, Vxlan, AgentOf(s, n, Vxlan));
    PatchThenReady(AgentViewOf(s, n, Vxlan), n, AgentOf(s, n, Vxlan).task);
    StepView(s, n, Vxlan, AGo(true));
    StepView(Step(s, OfAgent(n, Vxlan, AGo(true))), n, Vxlan, AGo(true));
  }

  /** An edit at that moment, followed by the agent's two last steps. */
  function EditThenReady(n: string, name: string, spec: Spec): seq<Action> {
    [EditCr(CrKey(Vxlan, name), spec)] + [OfAgent(n, Vxlan, AGo(true))] + [OfAgent(n, Vxlan, AGo(true))]
  }

  predicate ReadyFor(s: State, name: string, spec: Spec) {
    var key := CrKey(Vxlan, name); key in s.crs.objs && ReadyNow(s.crs.objs[key]) && s.crs.objs[key].spec == spec
  }

  /** So one edit at that moment makes the VXLAN ready for a spec none of whose commands was issued. */
  lemma EditBeforePatchMakesReadyLie(s: State, n: string, spec: Spec)
    requires Inv(s) && AgentOf(s, n, Vxlan).APatchIP?
    ensures var name := AgentOf(s, n, Vxlan).task.name; ReadyFor(Run(s, EditThenReady(n, name, spec)), name, spec)
  {
    var name := AgentOf(s, n, Vxlan).task.name;
    var edit, go := EditCr(CrKey(Vxlan, name), spec), OfAgent(n, Vxlan, AGo(true));
    assert AgentOk(s.crs, n, Vxlan, AgentOf(s, n, Vxlan));
    StepKeepsInv(s, edit);
    UndisturbedEnd(Step(s, edit), n);
    RunOne(s, edit);
    RunSnoc(s, [edit], go);
    RunSnoc(s, [edit] + [go], go);
  }

  /** A finished run labels the Node and then patches the address. */
  lemma FinishedReachesPatch(s: State, n: string, t: Task)
    requires AgentOf(s, n, Vxlan) == ARun(t, Finished) && t.ip != "" && t.copy.status.localIP != t.ip
    ensures AgentOf(Run(s, Solo(n, Vxlan, [AGo(true)] + [AGo(true)] + [AGo(true)])), n, Vxlan) == APatchIP(t)
  {
    var v, one, two := AgentViewOf(s, n, Vxlan), [AGo(true)], [AGo(true)] + [AGo(true)];
    AgentRunsOne(v, n, Vxlan, AGo(true));
    assert AgentRuns(v, n, Vxlan, one) == v.(pc := ALabel(t));
    AgentRunsSnoc(v, n, Vxlan, one, AGo(true));
    assert AgentRuns(v, n, Vxlan, two) == v.(pc := ALabelPatch(t, v.labels));
    AgentRunsSnoc(v, n, Vxlan, two, AGo(true));
    assert AgentStep(v.(pc := ALabelPatch(t, v.labels)), n, Vxlan, AGo(true)).pc == APatchIP(t);
    SoloIsRun(s, n, Vxlan, two + [AGo(true)]);
  }

  /** A lucky command brings the run closer to the same end. */
  lemma LuckyCommand(s: State, n: string, t: Task, rest: Prog) returns (t': Task, rest': Prog)
    requires AgentOf(s, n, Vxlan) == ARun(t, rest) && Luck.End(rest, LinksOf(s, n)) == Finished && !Ended(rest)
    ensures var s' := Step(s, OfAgent(n, Vxlan, AGo(true)));
            AgentOf(s', n, Vxlan) == ARun(t', rest') && Luck.End(rest', LinksOf(s', n)) == Finished
    ensures t'.name == t.name && t'.spec == t.spec && t'.ip == t.ip && t'.copy == t.copy && rest' < rest
  {
    var v := AgentViewOf(s, n, Vxlan);
    StepView(s, n, Vxlan, AGo(true));
    var v' := AgentCommand(v, t, rest, true);
    assert AgentStep(v, n, Vxlan, AGo(true)) == v';
    t', rest' := v'.pc.task, v'.pc.rest;
  }

  /** A run whose commands succeed when they can gets to the point where the address is patched. */
  lemma {:induction false} LuckyRunReachesPatch(s: State, n: string, t: Task, rest: Prog) returns (more: seq<Action>)
    requires AgentOf(s, n, Vxlan) == ARun(t, rest) && Luck.End(rest, LinksOf(s, n)) == Finished
    requires t.ip != "" && t.copy.status.localIP != t.ip
    ensures var pc := AgentOf(Run(s, more), n, Vxlan); pc.APatchIP? && pc.task.name == t.name && pc.task.spec == t.spec
    ensures forall a :: a in more ==> a == OfAgent(n, Vxlan, AGo(true))
    decreases rest
  {
    if rest.Finished? {
      more := Solo(n, Vxlan, [AGo(true)] + [AGo(true)] + [AGo(true)]);
      FinishedReachesPatch(s, n, t);
    } else {
      var go := OfAgent(n, Vxlan, AGo(true));
      var t', rest' := LuckyCommand(s, n, t, rest);
      RunOne(s, go);
      var tail := LuckyRunReachesPatch(Step(s, go), n, t', rest');
      RunConcat(s, [go], tail);
      more := [go] + tail;
    }
  }

  /** One reconcile of this CR: a read, then the steps that follow from it. */
  predicate OneRound(round: seq<Action>, n: string, name: string) {
    && round != [] && round[0].OfAgent? && round[0].node == n && round[0].kind == Vxlan
    && round[0].aact.AGet? && round[0].aact.name == name
    && forall i :: 0 < i < |round| ==> round[i] == OfAgent(n, Vxlan, AGo(true))
  }

  /**
   * The CR is to be configured, its agent has nothing to do, its address is not recorded, and its device can be
   * brought up: the name is free or a VXLAN's, and the master, if any, is there.
   */
  predicate Unrecorded(s: State, n: string, name: string) {
    var key, dev := CrKey(Vxlan, name), ParseDeviceName(name, n);
    && Held(s.crs, n, Vxlan, name) && !s.crs.objs[key].terminating && AgentOf(s, n, Vxlan).AIdle?
    && s.crs.objs[key].spec.OfVxlan? && s.crs.objs[key].spec.vxlan.localIP != ""
    && s.crs.objs[key].status.localIP != s.crs.objs[key].spec.vxlan.localIP
    && dev.Some? && Luck.AbsentOr(LinksOf(s, n), dev.value, Local(s.crs.objs[key].spec.vxlan.localIP))
    && (s.crs.objs[key].spec.vxlan.master == "" || CanEnslave(LinksOf(s, n), s.crs.objs[key].spec.vxlan.master, dev.value))
  }

  /** What the read makes of it: a run that completes under luck. */
  lemma ReadStartsRun(s: State, n: string, name: string)
    requires Unrecorded(s, n, name)
    ensures var v, c := AgentViewOf(s, n, Vxlan), s.crs.objs[CrKey(Vxlan, name)];
            var pc := AgentStep(v, n, Vxlan, AGet(name, Some(1), None)).pc;
            && pc.ARun? && pc.task.name == name && pc.task.copy == c && pc.task.ip == c.spec.vxlan.localIP
            && Luck.End(pc.rest, v.links) == Finished
  {
    var c, dev := s.crs.objs[CrKey(Vxlan, name)], ParseDeviceName(name, n).value;
    Luck.VxlanEnds(dev, c.spec.vxlan, Some(1), None, LinksOf(s, n));
  }

  lemma StartReachesPatch(s: State, n: string, name: string) returns (round: seq<Action>)
    requires Inv(s) && Unrecorded(s, n, name)
    ensures OneRound(round, n, name)
    ensures var pc := AgentOf(Run(s, round), n, Vxlan); pc.APatchIP? && pc.task.name == name
  {
    var get := OfAgent(n, Vxlan, AGet(name, Some(1), None));
    ReadStartsRun(s, n, name);
    StepView(s, n, Vxlan, get.aact);
    RunOne(s, get);
    var pc := AgentOf(Step(s, get), n, Vxlan);
    var tail := LuckyRunReachesPatch(Step(s, get), n, pc.task, pc.rest);
    RunConcat(s, [get], tail);
    round := [get] + tail;
    OneRoundOf(get, tail, n, name);
  }

  lemma OneRoundOf(get: Action, tail: seq<Action>, n: string, name: string)
    requires get == OfAgent(n, Vxlan, AGet(name, Some(1), None)) && forall a :: a in tail ==> a == OfAgent(n, Vxlan, AGo(true))
    ensures OneRound([get] + tail, n, name)
  {
    forall i | 0 < i < |[get] + tail| ensures ([get] + tail)[i] == OfAgent(n, Vxlan, AGo(true)) {
      assert ([get] + tail)[i] == tail[i - 1] && tail[i - 1] in tail;
    }
  }

  /**
   * This is no corner case: in every reachable state in which a VXLAN's address is not recorded yet, its
   * device can be brought up and its agent is idle, one reconcile with an edit before its last two steps leaves the CR reported ready
   * for a spec that no reconcile has read.
   */
  lemma VxlanReadyCanLie(h: seq<State>, actions: seq<Action>, n: string, name: string, spec: Spec)
    requires Behaviour(h, actions) && Unrecorded(Last(h), n, name)
    ensures exists round :: OneRound(round, n, name) && ReadyFor(Run(Last(h), round + EditThenReady(n, name, spec)), name, spec)
  {
    BehaviourKeepsInv(h, actions);
    var round := StartReachesPatch(Last(h), n, name);
    RunKeepsInv(Last(h), round);
    EditBeforePatchMakesReadyLie(Run(Last(h), round), n, spec);
    RunConcat(Last(h), round, EditThenReady(n, name, spec));
  }
}
