/**
 * Node labelling in the whole system: whatever the interleaving of the agents' get and patch steps with each
 * other and with edits of other labels, no label is lost.
 */
module Labelling {
  import opened Base
  import opened ApiObjects
  import opened NodeLabels
  import Programs
  import opened Protocol

  /** A worker about to send a patch: the copy it read, and the edit it makes. */
  datatype Pending = Pending(snapshot: NodeMap, edit: Edit)

  function PendingOf(k: Kind, pc: AgentPc): Option<Pending> {
    match pc
    case ALabelPatch(t, snapshot) => Some(Pending(snapshot, LabelEdit(k, t.dev, LabelValue(t.spec))))
    case AUnlabelPatch(_, _, dev, snapshot) => Some(Pending(snapshot, LabelEdit(k, dev, "")))
    case _ => None
  }

  /** The copy in flight is not stale on the one label it is about. */
  predicate Current(labels: NodeMap, k: Kind, pc: AgentPc) {
    var p := PendingOf(k, pc);
    p.Some? ==> Read(p.value.snapshot, p.value.edit.key) == Read(labels, p.value.edit.key)
  }

  ghost predicate CopiesCurrent(s: State) {
    forall n, k :: Current(LabelsOf(s, n), k, AgentOf(s, n, k))
  }

  lemma PendingIsOwn(k: Kind, pc: AgentPc) returns (dev: string)
    requires PendingOf(k, pc).Some?
    ensures PendingOf(k, pc).value.edit.key == DeviceLabel(k, dev)
  {
    dev := if pc.ALabelPatch? then pc.task.dev else pc.dev;
  }

  lemma OtherEditKeeps(labels: NodeMap, e: Edit, k: Kind, pc: AgentPc)
    requires Current(labels, k, pc) && (PendingOf(k, pc).Some? ==> PendingOf(k, pc).value.edit.key != e.key)
    ensures Current(Apply(labels, e), k, pc)
  {
  }

  /** The edits that reach a Node at this step. */
  function Commits(s: State, a: Action, n: string): seq<Edit> {
    match a
    case OfAgent(m, k, act) =>
      if m == n && act == AGo(true) && PendingOf(k, AgentOf(s, n, k)).Some? then [PendingOf(k, AgentOf(s, n, k)).value.edit] else []
    case EditLabel(m, edit) => if m == n && !IsDeviceLabel(edit.key) then [edit] else []
    case _ => []
  }

  // One step

  lemma AgentLabels(v: AgentView, n: string, k: Kind, a: AgentAct)
    requires Current(v.labels, k, v.pc)
    ensures AgentStep(v, n, k, a).labels
         == if a == AGo(true) && PendingOf(k, v.pc).Some? then Apply(v.labels, PendingOf(k, v.pc).value.edit) else v.labels
  {
    if a == AGo(true) && PendingOf(k, v.pc).Some? {
      var p := PendingOf(k, v.pc).value;
      PatchIsEditIff(v.labels, p.snapshot, p.edit);
    }
  }

  /** A copy taken by this step is as fresh as can be. */
  lemma GoTakesFreshCopy(v: AgentView, n: string, k: Kind, ok: bool)
    ensures PendingOf(k, AgentGo(v, n, k, ok).pc).Some? ==>
              PendingOf(k, AgentGo(v, n, k, ok).pc).value.snapshot == AgentGo(v, n, k, ok).labels
  {
    if v.pc.ARun? && !Programs.Ended(v.pc.rest) {
      assert AgentGo(v, n, k, ok) == AgentCommand(v, v.pc.task, v.pc.rest, ok);
    }
  }

  lemma AgentCurrent(v: AgentView, n: string, k: Kind, a: AgentAct)
    requires Current(v.labels, k, v.pc)
    ensures Current(AgentStep(v, n, k, a).labels, k, AgentStep(v, n, k, a).pc)
  {
    if a.AGo? {
      GoTakesFreshCopy(v, n, k, a.ok);
    }
  }

  /** The other workers of the node write other labels. */
  lemma OthersCurrent(v: AgentView, n: string, k: Kind, a: AgentAct, j: Kind, pc: AgentPc)
    requires Current(v.labels, k, v.pc) && Current(v.labels, j, pc) && j != k
    ensures Current(AgentStep(v, n, k, a).labels, j, pc)
  {
    AgentLabels(v, n, k, a);
    if PendingOf(k, v.pc).Some? && PendingOf(j, pc).Some? {
      var d1 := PendingIsOwn(k, v.pc);
      var d2 := PendingIsOwn(j, pc);
      DeviceLabelInjective(k, d1, j, d2);
    }
    if PendingOf(k, v.pc).Some? {
      OtherEditKeeps(v.labels, PendingOf(k, v.pc).value.edit, j, pc);
    }
  }

  lemma UserEditKeeps(labels: NodeMap, e: Edit, k: Kind, pc: AgentPc)
    requires Current(labels, k, pc) && !IsDeviceLabel(e.key)
    ensures Current(Apply(labels, e), k, pc)
  {
    if PendingOf(k, pc).Some? {
      var dev := PendingIsOwn(k, pc);
      assert Prefix(k) <= DeviceLabel(k, dev);
    }
    OtherEditKeeps(labels, e, k, pc);
  }

  lemma StepCurrent(s: State, a: Action)
    requires CopiesCurrent(s)
    ensures CopiesCurrent(Step(s, a))
  {
    forall n, j ensures Current(LabelsOf(Step(s, a), n), j, AgentOf(Step(s, a), n, j)) {
      assert Current(LabelsOf(s, n), j, AgentOf(s, n, j));
      match a
      case OfAgent(m, k, act) =>
        if m == n {
          assert Current(LabelsOf(s, n), k, AgentOf(s, n, k));
          StepView(s, n, k, act);
          if j == k {
            AgentCurrent(AgentViewOf(s, n, k), n, k, act);
          } else {
            OthersCurrent(AgentViewOf(s, n, k), n, k, act, j, AgentOf(s, n, j));
          }
        }
      case EditLabel(m, edit) =>
        if m == n && !IsDeviceLabel(edit.key) {
          UserEditKeeps(LabelsOf(s, n), edit, j, AgentOf(s, n, j));
        }
      case _ =>
    }
  }

  lemma AgentStepLabels(s: State, m: string, k: Kind, act: AgentAct, n: string)
    requires CopiesCurrent(s)
    ensures LabelsOf(Step(s, OfAgent(m, k, act)), n) == ApplyAll(LabelsOf(s, n), Commits(s, OfAgent(m, k, act), n))
  {
    if m == n {
      assert Current(LabelsOf(s, n), k, AgentOf(s, n, k));
      StepView(s, n, k, act);
      AgentLabels(AgentViewOf(s, n, k), n, k, act);
      if act == AGo(true) && PendingOf(k, AgentOf(s, n, k)).Some? {
        ApplyOne(LabelsOf(s, n), PendingOf(k, AgentOf(s, n, k)).value.edit);
      }
    } else {
      OtherNodesLabels(s, m, k, act, n);
    }
  }

  lemma OtherNodesLabels(s: State, m: string, k: Kind, act: AgentAct, n: string)
    requires m != n
    ensures LabelsOf(Step(s, OfAgent(m, k, act)), n) == LabelsOf(s, n)
  {
  }

  lemma UserStepLabels(s: State, a: Action, n: string)
    requires !a.OfAgent?
    ensures LabelsOf(Step(s, a), n) == ApplyAll(LabelsOf(s, n), Commits(s, a, n))
  {
    if a.EditLabel? && a.host == n && !IsDeviceLabel(a.edit.key) {
      ApplyOne(LabelsOf(s, n), a.edit);
    }
  }

  lemma StepLabels(s: State, a: Action, n: string)
    requires CopiesCurrent(s)
    ensures LabelsOf(Step(s, a), n) == ApplyAll(LabelsOf(s, n), Commits(s, a, n))
  {
    if a.OfAgent? {
      AgentStepLabels(s, a.node, a.kind, a.aact, n);
    } else {
      UserStepLabels(s, a, n);
    }
  }

  // Whole runs

  /** The edits of a Node in the order in which they reached the server. */
  function Serial(s: State, actions: seq<Action>, n: string): seq<Edit> {
    if actions == [] then []
    else
      var init := actions[..|actions| - 1];
      Serial(s, init, n) + Commits(Run(s, init), actions[|actions| - 1], n)
  }

  lemma {:induction false} RunLabels(s: State, actions: seq<Action>, n: string)
    requires CopiesCurrent(s)
    ensures CopiesCurrent(Run(s, actions))
    ensures LabelsOf(Run(s, actions), n) == ApplyAll(LabelsOf(s, n), Serial(s, actions, n))
  {
    if actions != [] {
      var init, a := actions[..|actions| - 1], actions[|actions| - 1];
      RunLabels(s, init, n);
      StepCurrent(Run(s, init), a);
      StepLabels(Run(s, init), a, n);
      ApplyAllConcat(LabelsOf(s, n), Serial(s, init, n), Commits(Run(s, init), a, n));
    }
  }

  /**
   * No label is lost: in every behaviour the labels of a Node are those of one sequential order of the edits,
   * namely the order in which the patches arrived, and a patch in flight would still have exactly its effect.
   */
  lemma LabellingIsSerializable(h: seq<State>, actions: seq<Action>, n: string)
    requires Behaviour(h, actions)
    ensures LabelsOf(Last(h), n) == ApplyAll(LabelsOf(h[0], n), Serial(h[0], actions, n))
    ensures forall k :: PendingOf(k, AgentOf(Last(h), n, k)).Some? ==>
              var p := PendingOf(k, AgentOf(Last(h), n, k)).value;
              SendPatch(LabelsOf(Last(h), n), p.snapshot, p.edit) == Apply(LabelsOf(Last(h), n), p.edit)
  {
    assert CopiesCurrent(h[0]);
    RunLabels(h[0], actions, n);
    BehaviourEnds(h, actions);
    forall k | PendingOf(k, AgentOf(Last(h), n, k)).Some?
      ensures var p := PendingOf(k, AgentOf(Last(h), n, k)).value;
              SendPatch(LabelsOf(Last(h), n), p.snapshot, p.edit) == Apply(LabelsOf(Last(h), n), p.edit)
    {
      var p := PendingOf(k, AgentOf(Last(h), n, k)).value;
      assert Current(LabelsOf(Last(h), n), k, AgentOf(Last(h), n, k));
      PatchIsEditIff(LabelsOf(Last(h), n), p.snapshot, p.edit);
    }
  }
}
