/**
 * One agent's Reconcile in its own imperative form, for all three kinds, with every API call, command and
 * Node patch. Undisturbed, it is the reconcile of this CR by the agent's worker in the step machine; when
 * no call and no command fails needlessly, it is that reconcile from start to end.
 */
module Reconciler {
  import opened Base
  import opened ApiObjects
  import opened ApiStore
  import opened Names
  import opened Kernel
  import opened Programs
  import opened Agents
  import opened FloodList
  import opened NodeLabels
  import opened Protocol

  /** The API server's calls on CRs; every call may fail. */
  class Server {
    var crs: CrStore
    /** On a reliable server every call succeeds that can. */
    const reliable: bool

    constructor (crs: CrStore, reliable: bool)
      ensures this.crs == crs && this.reliable == reliable
    {
      this.crs, this.reliable := crs, reliable;
    }

    method Get(key: CrKey) returns (ok: bool, cr: Option<Cr>)
      ensures ok ==> cr == Lookup(crs.objs, key)
      ensures reliable ==> ok
    {
      ok, cr := *, Lookup(crs.objs, key);
      ok := ok || reliable;
    }

    /** A write with its answer; None is a refusal. */
    method Write(answer: Option<CrStore>) returns (ok: bool)
      modifies this
      ensures crs == if ok then Or(answer, old(crs)) else old(crs)
      ensures ok ==> answer.Some?
      ensures reliable ==> ok == answer.Some?
    {
      var reached: bool := *;
      ok := (reliable || reached) && answer.Some?;
      if ok {
        crs := answer.value;
      }
    }

    /** The CRs with the labels of the remote one's template and of this node, each once, in any order. */
    method ListPeers(remote: Cr, node: string) returns (ok: bool, items: seq<string>)
      ensures ok ==> forall name :: name in items <==> name in PeersOf(crs, remote, node)
      ensures forall i, j :: 0 <= i < j < |items| ==> items[i] != items[j]
      ensures reliable ==> ok
    {
      ok := *;
      ok := ok || reliable;
      items := [];
      var todo := PeersOf(crs, remote, node);
      while todo != {}
        invariant forall name :: name in items || name in todo <==> name in PeersOf(crs, remote, node)
        invariant forall name :: name in items ==> name !in todo
        invariant forall i, j :: 0 <= i < j < |items| ==> items[i] != items[j]
      {
        var name :| name in todo;
        items, todo := items + [name], todo - {name};
      }
    }
  }

  // Going on with a reconcile

  /** Acts that go on with the reconcile begun; giving up, and failures that need not be, only without luck. */
  predicate GoesOn(a: AgentAct, lucky: bool) {
    match a
    case AGet(_, _, _) => false
    case ATake(_, ok) => lucky ==> ok
    case AGo(ok) => lucky ==> ok
    case ACrash => !lucky
  }

  /** The worker of the machine can get from one view to the other by going on. */
  ghost predicate Reaches(v: AgentView, v': AgentView, n: string, k: Kind, lucky: bool) {
    exists acts :: v' == AgentRuns(v, n, k, acts) && forall i :: 0 <= i < |acts| ==> GoesOn(acts[i], lucky)
  }

  lemma ReachesItself(v: AgentView, n: string, k: Kind, lucky: bool)
    ensures Reaches(v, v, n, k, lucky)
  {
    assert AgentRuns(v, n, k, []) == v;
  }

  lemma ReachesByStep(v: AgentView, n: string, k: Kind, a: AgentAct, lucky: bool)
    requires GoesOn(a, lucky)
    ensures Reaches(v, AgentStep(v, n, k, a), n, k, lucky)
  {
    AgentRunsOne(v, n, k, a);
    assert forall i :: 0 <= i < |[a]| ==> GoesOn([a][i], lucky);
  }

  lemma ReachesOn(u: AgentView, v: AgentView, w: AgentView, n: string, k: Kind, lucky: bool)
    requires Reaches(u, v, n, k, lucky) && Reaches(v, w, n, k, lucky)
    ensures Reaches(u, w, n, k, lucky)
  {
    var a :| v == AgentRuns(u, n, k, a) && forall i :: 0 <= i < |a| ==> GoesOn(a[i], lucky);
    var b :| w == AgentRuns(v, n, k, b) && forall i :: 0 <= i < |b| ==> GoesOn(b[i], lucky);
    AgentRunsConcat(u, n, k, a, b);
    assert forall i :: 0 <= i < |a + b| ==> GoesOn((a + b)[i], lucky);
  }

  /** One call whose outcome the machine has as `ok`. */
  lemma ReachesByGo(v: AgentView, n: string, k: Kind, ok: bool, lucky: bool)
    requires lucky ==> ok
    ensures Reaches(v, AgentStep(v, n, k, AGo(ok)), n, k, lucky)
  {
    ReachesByStep(v, n, k, AGo(ok), lucky);
  }

  /** The worker's view part-way through a program. */
  function Midway(v: AgentView, links: Links, task: Task, t: seq<Attempt>, rest: Prog): AgentView {
    v.(links := links, pc := ARun(task.(trace := task.trace + t), rest))
  }

  function AfterOne(ls: Links, a: Attempt): Links
    requires a.ok ==> CanSucceed(ls, a.cmd)
  {
    if a.ok then Effect(ls, a.cmd) else ls
  }

  lemma TraceHead(ls: Links, p: Prog, t: seq<Attempt>)
    requires t != [] && Possible(ls, t) && Rest(p, t).Some?
    ensures (t[0].ok ==> CanSucceed(ls, t[0].cmd)) && Advance(p, t[0]).Some?
    ensures var rest := AfterOne(ls, t[0]);
            && Possible(rest, t[1..]) && After(rest, t[1..]) == After(ls, t)
            && Rest(Advance(p, t[0]).value, t[1..]) == Rest(p, t)
            && (Lucky(ls, t) ==> t[0].ok == CanSucceed(ls, t[0].cmd) && Lucky(rest, t[1..]))
  {
    RestHead(p, t);
  }

  lemma MidwayTwice(v: AgentView, l1: Links, l2: Links, task: Task, t: seq<Attempt>, p: Prog, q: Prog)
    requires t != []
    ensures Midway(Midway(v, l1, task, [t[0]], p), l2, task.(trace := task.trace + [t[0]]), t[1..], q) == Midway(v, l2, task, t, q)
  {
    assert task.trace + [t[0]] + t[1..] == task.trace + t;
  }

  /** A trace of a program is a run of the machine, one command a step. */
  lemma {:induction false} TraceIsRun(v: AgentView, n: string, k: Kind, task: Task, p: Prog, t: seq<Attempt>, lucky: bool)
    requires v.pc == ARun(task, p) && Possible(v.links, t) && Rest(p, t).Some? && (lucky ==> Lucky(v.links, t))
    ensures Reaches(v, Midway(v, After(v.links, t), task, t, Rest(p, t).value), n, k, lucky)
    decreases |t|
  {
    if t == [] {
      assert task.trace + t == task.trace;
      ReachesItself(v, n, k, lucky);
    } else {
      TraceHead(v.links, p, t);
      var links, p' := AfterOne(v.links, t[0]), Advance(p, t[0]).value;
      var v' := Midway(v, links, task, [t[0]], p');
      CommandIsStep(v, n, k, task, p, t[0], lucky);
      TraceIsRun(v', n, k, task.(trace := task.trace + [t[0]]), p', t[1..], lucky);
      MidwayTwice(v, links, After(v.links, t), task, t, p', Rest(p, t).value);
      ReachesOn(v, v', Midway(v, After(v.links, t), task, t, Rest(p, t).value), n, k, lucky);
    }
  }

  lemma CommandIsStep(v: AgentView, n: string, k: Kind, task: Task, p: Prog, a: Attempt, lucky: bool)
    requires v.pc == ARun(task, p) && Advance(p, a).Some? && (a.ok ==> CanSucceed(v.links, a.cmd))
    requires lucky ==> a.ok == CanSucceed(v.links, a.cmd)
    ensures Reaches(v, Midway(v, AfterOne(v.links, a), task, [a], Advance(p, a).value), n, k, lucky)
  {
    ReachesByGo(v, n, k, a.ok || lucky, lucky);
    assert AgentStep(v, n, k, AGo(a.ok || lucky)) == AgentCommand(v, task, p, a.ok || lucky);
  }

  /** What a call leaves of the store: its answer or, without luck, perhaps nothing. */
  predicate Answered(crs: CrStore, crs': CrStore, answer: Option<CrStore>, lucky: bool) {
    crs' == Or(answer, crs) || (!lucky && crs' == crs)
  }

  /** The end of a reconcile that reports a condition: the patch arrives, or fails and is only logged. */
  lemma ReportIsRun(v: AgentView, n: string, k: Kind, task: Task, c: Condition, crs': CrStore, lucky: bool)
    requires || (v.pc == AReady(task) && c == Condition(true, "Configured", task.copy.generation))
             || (v.pc.AFailed? && v.pc.task == task && c == Condition(false, v.pc.reason, task.copy.generation))
    requires Answered(v.crs, crs', PatchReady(v.crs, CrKey(k, task.name), task.copy, c), lucky)
    ensures Reaches(v, v.(crs := crs', pc := AIdle), n, k, lucky)
  {
    if crs' == Or(PatchReady(v.crs, CrKey(k, task.name), task.copy, c), v.crs) {
      ReachesByGo(v, n, k, true, lucky);
    } else {
      ReachesByStep(v, n, k, ACrash, lucky);
    }
  }

  lemma AbortIsRun(v: AgentView, n: string, k: Kind, task: Task, reason: string, crs': CrStore, lucky: bool)
    requires v.pc == ARun(task, Aborted(reason))
    requires Answered(v.crs, crs', PatchReady(v.crs, CrKey(k, task.name), task.copy, Condition(false, reason, task.copy.generation)), lucky)
    ensures Reaches(v, v.(crs := crs', pc := AIdle), n, k, lucky)
  {
    var mid := v.(pc := AFailed(task, reason));
    ReachesByGo(v, n, k, true, lucky);
    assert AgentStep(v, n, k, AGo(true)) == mid;
    ReportIsRun(mid, n, k, task, Condition(false, reason, task.copy.generation), crs', lucky);
    ReachesOn(v, mid, v.(crs := crs', pc := AIdle), n, k, lucky);
  }

  /** What labelling the Node leaves of its labels. */
  predicate Labelled(labels: NodeMap, labels': NodeMap, e: Edit, lucky: bool) {
    labels' == Apply(labels, e) || (!lucky && labels' == labels)
  }

  lemma OwnPatchIsEdit(labels: NodeMap, e: Edit)
    ensures SendPatch(labels, labels, e) == Apply(labels, e)
  {
    PatchIsEditIff(labels, labels, e);
  }

  lemma FinishIsStep(v: AgentView, n: string, k: Kind, task: Task, lucky: bool)
    requires v.pc == ARun(task, Finished)
    ensures Reaches(v, v.(pc := ALabel(task)), n, k, lucky)
  {
    ReachesByGo(v, n, k, true, lucky);
  }

  lemma GetNodeIsStep(v: AgentView, n: string, k: Kind, task: Task, lucky: bool)
    requires v.pc == ALabel(task)
    ensures Reaches(v, v.(pc := ALabelPatch(task, v.labels)), n, k, lucky)
  {
    ReachesByGo(v, n, k, true, lucky);
  }

  lemma PatchNodeIsStep(v: AgentView, n: string, k: Kind, task: Task, labels': NodeMap, lucky: bool)
    requires v.pc == ALabelPatch(task, v.labels)
    requires Labelled(v.labels, labels', LabelEdit(k, task.dev, LabelValue(task.spec)), lucky)
    ensures Reaches(v, v.(labels := labels', pc := AfterLabel(k, task)), n, k, lucky)
  {
    var e := LabelEdit(k, task.dev, LabelValue(task.spec));
    var ok := labels' == Apply(v.labels, e);
    PatchNodeGo(v, n, k, task, ok);
    OwnPatchIsEdit(v.labels, e);
    ReachesByGo(v, n, k, ok, lucky);
  }

  lemma PatchNodeGo(v: AgentView, n: string, k: Kind, task: Task, ok: bool)
    requires v.pc == ALabelPatch(task, v.labels)
    ensures AgentGo(v, n, k, ok)
         == v.(labels := if ok then SendPatch(v.labels, v.labels, LabelEdit(k, task.dev, LabelValue(task.spec))) else v.labels, pc := AfterLabel(k, task))
  {
  }

  lemma LabelIsRun(v: AgentView, n: string, k: Kind, task: Task, labels': NodeMap, lucky: bool)
    requires v.pc == ARun(task, Finished) && Labelled(v.labels, labels', LabelEdit(k, task.dev, LabelValue(task.spec)), lucky)
    ensures Reaches(v, v.(labels := labels', pc := AfterLabel(k, task)), n, k, lucky)
  {
    var v1, v2 := v.(pc := ALabel(task)), v.(pc := ALabelPatch(task, v.labels));
    FinishIsStep(v, n, k, task, lucky);
    GetNodeIsStep(v1, n, k, task, lucky);
    PatchNodeIsStep(v2, n, k, task, labels', lucky);
    ReachesOn(v, v1, v2, n, k, lucky);
    ReachesOn(v, v2, v.(labels := labels', pc := AfterLabel(k, task)), n, k, lucky);
  }

  /** The patch of the local IP: its answer is the copy from then on; a failed one leaves the changed copy. */
  predicate Recorded(crs: CrStore, crs': CrStore, key: CrKey, cr: Cr, ip: string, copy: Cr, lucky: bool) {
    var answer := PatchLocalIP(crs, key, ip);
    || (answer.Some? && crs' == answer.value && copy == crs'.objs[key])
    || ((lucky ==> answer.None?) && crs' == crs && copy == cr.(status := cr.status.(localIP := ip)))
  }

  lemma PatchIsRun(v: AgentView, n: string, k: Kind, task: Task, copy: Cr, crs': CrStore, lucky: bool)
    requires v.pc == APatchIP(task) && Recorded(v.crs, crs', CrKey(k, task.name), task.copy, task.ip, copy, lucky)
    ensures Reaches(v, v.(crs := crs', pc := AReady(task.(copy := copy))), n, k, lucky)
  {
    var answer := PatchLocalIP(v.crs, CrKey(k, task.name), task.ip);
    var ok := answer.None? || (crs' == answer.value && copy == crs'.objs[CrKey(k, task.name)]);
    ReachesByGo(v, n, k, ok, lucky);
    assert AgentStep(v, n, k, AGo(ok)) == AgentPatchIP(v, k, task, ok);
  }

  lemma DropIsRun(v: AgentView, n: string, k: Kind, name: string, c: Cr, crs': CrStore, lucky: bool)
    requires v.pc == ADropFinalizer(name, c) && Answered(v.crs, crs', Update(v.crs, CrKey(k, name), c.(finalizer := false)), lucky)
    ensures Reaches(v, v.(crs := crs', pc := AIdle), n, k, lucky)
  {
    if crs' == Or(Update(v.crs, CrKey(k, name), c.(finalizer := false)), v.crs) {
      ReachesByGo(v, n, k, true, lucky);
    } else {
      ReachesByStep(v, n, k, ACrash, lucky);
    }
  }

  lemma DelLinkIsStep(v: AgentView, n: string, k: Kind, name: string, c: Cr, dev: string, deleted: bool, lucky: bool)
    requires v.pc == ADelLink(name, c) && ParseDeviceName(name, n) == Some(dev)
    requires lucky ==> deleted == CanSucceed(v.links, LinkDel(dev))
    ensures Reaches(v, v.(links := Try(v.links, LinkDel(dev), deleted), pc := AUnlabel(name, c, dev)), n, k, lucky)
  {
    ReachesByGo(v, n, k, deleted || lucky, lucky);
  }

  lemma GetNodeAgainIsStep(v: AgentView, n: string, k: Kind, name: string, c: Cr, dev: string, lucky: bool)
    requires v.pc == AUnlabel(name, c, dev)
    ensures Reaches(v, v.(pc := AUnlabelPatch(name, c, dev, v.labels)), n, k, lucky)
  {
    ReachesByGo(v, n, k, true, lucky);
  }

  lemma UnlabelIsStep(v: AgentView, n: string, k: Kind, name: string, c: Cr, dev: string, labels': NodeMap, lucky: bool)
    requires v.pc == AUnlabelPatch(name, c, dev, v.labels) && Labelled(v.labels, labels', LabelEdit(k, dev, ""), lucky)
    ensures Reaches(v, v.(labels := labels', pc := ADropFinalizer(name, c)), n, k, lucky)
  {
    OwnPatchIsEdit(v.labels, LabelEdit(k, dev, ""));
    ReachesByGo(v, n, k, labels' == Apply(v.labels, LabelEdit(k, dev, "")), lucky);
  }

  lemma UnlinkIsRun(v: AgentView, n: string, k: Kind, name: string, c: Cr, dev: string, deleted: bool, labels': NodeMap, lucky: bool)
    requires v.pc == ADelLink(name, c) && ParseDeviceName(name, n) == Some(dev)
    requires lucky ==> deleted == CanSucceed(v.links, LinkDel(dev))
    requires Labelled(v.labels, labels', LabelEdit(k, dev, ""), lucky)
    ensures Reaches(v, v.(links := Try(v.links, LinkDel(dev), deleted), labels := labels', pc := ADropFinalizer(name, c)), n, k, lucky)
  {
    var v1 := v.(links := Try(v.links, LinkDel(dev), deleted), pc := AUnlabel(name, c, dev));
    var v2 := v1.(pc := AUnlabelPatch(name, c, dev, v.labels));
    DelLinkIsStep(v, n, k, name, c, dev, deleted, lucky);
    GetNodeAgainIsStep(v1, n, k, name, c, dev, lucky);
    UnlabelIsStep(v2, n, k, name, c, dev, labels', lucky);
    ReachesOn(v, v1, v2, n, k, lucky);
    ReachesOn(v, v2, v1.(labels := labels', pc := ADropFinalizer(name, c)), n, k, lucky);
  }

  // Remote peers

  lemma RoundIsRun(v: AgentView, n: string, remote: Cr, todo: set<string>, r: Round, lucky: bool)
    requires v.pc == APeers(remote, todo) && r.name in todo && (lucky ==> RoundLucky(v.links, n, remote.status.localIP, r))
    ensures Reaches(v, v.(links := AfterRound(v.links, n, remote.status.localIP, r), pc := APeers(remote, todo - {r.name})), n, Vxlan, lucky)
  {
    var dev, ip := ParseDeviceName(r.name, n), remote.status.localIP;
    var end := v.(links := AfterRound(v.links, n, ip, r), pc := APeers(remote, todo - {r.name}));
    ReachesByStep(v, n, Vxlan, ATake(r.name, r.shown || lucky), lucky);
    if r.shown && dev.Some? && dev.value in v.links {
      TouchIsRun(v, n, remote, todo - {r.name}, dev.value, r, lucky);
      ReachesOn(v, v.(pc := AFdbDel(remote, todo - {r.name}, dev.value)), end, n, Vxlan, lucky);
    }
  }

  lemma FdbDelIsStep(v: AgentView, n: string, remote: Cr, todo: set<string>, dev: string, deleted: bool, lucky: bool)
    requires v.pc == AFdbDel(remote, todo, dev) && (lucky ==> deleted == CanSucceed(v.links, FdbDel(dev, remote.status.localIP)))
    ensures Reaches(v, v.(links := Try(v.links, FdbDel(dev, remote.status.localIP), deleted), pc := AFdbAppend(remote, todo, dev)),
                    n, Vxlan, lucky)
  {
    ReachesByGo(v, n, Vxlan, deleted || lucky, lucky);
  }

  lemma FdbAppendIsStep(v: AgentView, n: string, remote: Cr, todo: set<string>, dev: string, appended: bool, lucky: bool)
    requires v.pc == AFdbAppend(remote, todo, dev) && (lucky ==> appended == CanSucceed(v.links, FdbAppend(dev, remote.status.localIP)))
    ensures Reaches(v, v.(links := Try(v.links, FdbAppend(dev, remote.status.localIP), appended), pc := APeers(remote, todo)),
                    n, Vxlan, lucky)
  {
    ReachesByGo(v, n, Vxlan, appended || lucky, lucky);
  }

  lemma TouchIsRun(v: AgentView, n: string, remote: Cr, todo: set<string>, dev: string, r: Round, lucky: bool)
    requires dev in v.links
    requires lucky ==> r.deleted == CanSucceed(v.links, FdbDel(dev, remote.status.localIP))
    requires lucky ==> r.appended == IsVxlan(v.links[dev].mode)
    ensures var ip := remote.status.localIP;
            Reaches(v.(pc := AFdbDel(remote, todo, dev)),
                    v.(links := Try(Try(v.links, FdbDel(dev, ip), r.deleted), FdbAppend(dev, ip), r.appended), pc := APeers(remote, todo)),
                    n, Vxlan, lucky)
  {
    var ip := remote.status.localIP;
    var links := Try(v.links, FdbDel(dev, ip), r.deleted);
    var v1, v2 := v.(pc := AFdbDel(remote, todo, dev)), v.(links := links, pc := AFdbAppend(remote, todo, dev));
    assert dev in links && links[dev].mode == v.links[dev].mode;
    FdbDelIsStep(v1, n, remote, todo, dev, r.deleted, lucky);
    FdbAppendIsStep(v2, n, remote, todo, dev, r.appended, lucky);
    ReachesOn(v1, v2, v.(links := Try(links, FdbAppend(dev, ip), r.appended), pc := APeers(remote, todo)), n, Vxlan, lucky);
  }

  ghost predicate Distinct(names: seq<string>) {
    forall i, j :: 0 <= i < j < |names| ==> names[i] != names[j]
  }

  function SetOf(names: seq<string>): set<string> {
    set name | name in names
  }

  lemma {:induction false} RoundsAreRun(v: AgentView, n: string, remote: Cr, todo: set<string>, rounds: seq<Round>, lucky: bool)
    requires v.pc == APeers(remote, todo) && Distinct(NamesOf(rounds)) && SetOf(NamesOf(rounds)) <= todo
    requires lucky ==> RoundsLucky(v.links, n, remote.status.localIP, rounds)
    ensures Reaches(v, v.(links := AfterRounds(v.links, n, remote.status.localIP, rounds),
                          pc := APeers(remote, todo - SetOf(NamesOf(rounds)))), n, Vxlan, lucky)
  {
    var ip := remote.status.localIP;
    if rounds == [] {
      assert todo - SetOf(NamesOf(rounds)) == todo;
      ReachesItself(v, n, Vxlan, lucky);
    } else {
      var init, r := rounds[..|rounds| - 1], rounds[|rounds| - 1];
      assert rounds == init + [r];
      InitIsDistinct(init, r);
      RoundsAreRun(v, n, remote, todo, init, lucky);
      var mid := v.(links := AfterRounds(v.links, n, ip, init), pc := APeers(remote, todo - SetOf(NamesOf(init))));
      RoundIsRun(mid, n, remote, todo - SetOf(NamesOf(init)), r, lucky);
      assert todo - SetOf(NamesOf(init)) - {r.name} == todo - SetOf(NamesOf(rounds));
      ReachesOn(v, mid, v.(links := AfterRounds(v.links, n, ip, rounds), pc := APeers(remote, todo - SetOf(NamesOf(rounds)))), n, Vxlan, lucky);
    }
  }

  lemma InitIsDistinct(init: seq<Round>, r: Round)
    requires Distinct(NamesOf(init + [r]))
    ensures Distinct(NamesOf(init)) && SetOf(NamesOf(init + [r])) == SetOf(NamesOf(init)) + {r.name} && r.name !in NamesOf(init)
  {
    assert NamesOf(init + [r]) == NamesOf(init) + [r.name];
    forall i | 0 <= i < |init| ensures NamesOf(init)[i] != r.name {
      assert NamesOf(init + [r])[i] != NamesOf(init + [r])[|init|];
    }
    forall i, j | 0 <= i < j < |init| ensures NamesOf(init)[i] != NamesOf(init)[j] {
      assert NamesOf(init + [r])[i] != NamesOf(init + [r])[j];
    }
  }

  lemma ListIsStep(v: AgentView, n: string, remote: Cr, lucky: bool)
    requires v.pc == AListPeers(remote)
    ensures Reaches(v, v.(pc := APeers(remote, PeersOf(v.crs, remote, n))), n, Vxlan, lucky)
  {
    ReachesByGo(v, n, Vxlan, true, lucky);
  }

  lemma PeersDoneIsStep(v: AgentView, n: string, remote: Cr, lucky: bool)
    requires v.pc == APeers(remote, {})
    ensures Reaches(v, v.(pc := AIdle), n, Vxlan, lucky)
  {
    ReachesByGo(v, n, Vxlan, true, lucky);
  }

  lemma RemoteIsRun(v: AgentView, n: string, remote: Cr, rounds: seq<Round>, lucky: bool)
    requires v.pc == AListPeers(remote) && Distinct(NamesOf(rounds)) && SetOf(NamesOf(rounds)) == PeersOf(v.crs, remote, n)
    requires lucky ==> RoundsLucky(v.links, n, remote.status.localIP, rounds)
    ensures Reaches(v, v.(links := AfterRounds(v.links, n, remote.status.localIP, rounds), pc := AIdle), n, Vxlan, lucky)
  {
    var todo, links := PeersOf(v.crs, remote, n), AfterRounds(v.links, n, remote.status.localIP, rounds);
    var v1, v2 := v.(pc := APeers(remote, todo)), v.(links := links, pc := APeers(remote, {}));
    assert todo - SetOf(NamesOf(rounds)) == {};
    ListIsStep(v, n, remote, lucky);
    RoundsAreRun(v1, n, remote, todo, rounds, lucky);
    PeersDoneIsStep(v2, n, remote, lucky);
    ReachesOn(v, v1, v2, n, Vxlan, lucky);
    ReachesOn(v, v2, v.(links := links, pc := AIdle), n, Vxlan, lucky);
  }

  // The controller

  ghost predicate Typed(crs: CrStore) {
    forall key :: key in crs.objs ==> OfKind(crs.objs[key].spec, key.kind)
  }

  function Vxlans(crs: CrStore): map<string, Cr> {
    map name | name in (set key | key in crs.objs && key.kind.Vxlan? :: key.name) :: crs.objs[CrKey(Vxlan, name)]
  }

  class Agent {
    const node: string
    const kind: Kind
    const server: Server
    const host: Host
    const nodeApi: NodeApi

    constructor (node: string, kind: Kind, server: Server, host: Host, nodeApi: NodeApi)
      ensures this.node == node && this.kind == kind && this.server == server && this.host == host && this.nodeApi == nodeApi
    {
      this.node, this.kind, this.server, this.host, this.nodeApi := node, kind, server, host, nodeApi;
    }

    /** Nothing the agent calls fails needlessly. */
    predicate Reliable() {
      server.reliable && host.reliable && nodeApi.reliable
    }

    ghost function View(pc: AgentPc): AgentView
      reads server, host, nodeApi
    {
      AgentView(server.crs, host.links, nodeApi.labels, pc)
    }

    method SetReadyCondition(name: string, copy: Cr, ready: bool, reason: string)
      modifies server
      ensures Answered(old(server.crs), server.crs,
                       PatchReady(old(server.crs), CrKey(kind, name), copy, Condition(ready, reason, copy.generation)), server.reliable)
    {
      var ok := server.Write(PatchReady(server.crs, CrKey(kind, name), copy, Condition(ready, reason, copy.generation)));
    }

    /** The commands of the kind's onChange, up to their verdict. */
    method RunCommands(dev: string, cr: Cr, resolved: Option<int>, detected: Option<string>)
      returns (ready: bool, reason: string, localIP: string, ghost t: seq<Attempt>)
      requires OfKind(cr.spec, kind)
      modifies host
      ensures At(host, Job(AgentProgram(kind, dev, cr.spec, resolved, detected), old(host.links), old(host.trace)), t,
                 if ready then Finished else Aborted(reason))
      ensures ready ==> localIP == LocalIP(cr.spec, detected)
    {
      localIP := "";
      match cr.spec
      case OfBridge(b) => ready, reason, t := BridgeOnChange(host, dev, b);
      case OfUplink(u) => ready, reason, t := UplinkOnChange(host, dev, u);
      case OfVxlan(v) => ready, reason, localIP, t := VxlanOnChange(host, dev, v, resolved, detected);
    }

    /** The same as steps of the machine. */
    method Configure(name: string, dev: string, cr: Cr, resolved: Option<int>, detected: Option<string>)
      returns (ready: bool, reason: string, localIP: string, ghost task: Task)
      requires OfKind(cr.spec, kind)
      modifies host
      ensures Reaches(old(View(StartTask(node, kind, name, cr, dev, resolved, detected))),
                      View(ARun(task, if ready then Finished else Aborted(reason))), node, kind, Reliable())
      ensures task.name == name && task.copy == cr && task.spec == cr.spec && task.dev == dev && task.ip == LocalIP(cr.spec, detected)
      ensures ready ==> localIP == task.ip
    {
      ghost var v0 := View(StartTask(node, kind, name, cr, dev, resolved, detected));
      ghost var t;
      ready, reason, localIP, t := RunCommands(dev, cr, resolved, detected);
      task := v0.pc.task.(trace := t);
      assert [] + t == t;
      TraceIsRun(v0, node, kind, v0.pc.task, v0.pc.rest, t, Reliable());
    }

    /** The status patch of the local IP; the answer, or the copy as changed before a failed patch, is used from then on. */
    method RecordLocalIP(name: string, cr: Cr, ip: string) returns (copy: Cr)
      modifies server
      ensures Recorded(old(server.crs), server.crs, CrKey(kind, name), cr, ip, copy, server.reliable)
    {
      copy := cr.(status := cr.status.(localIP := ip));
      var ok := server.Write(PatchLocalIP(server.crs, CrKey(kind, name), ip));
      if ok {
        copy := server.crs.objs[CrKey(kind, name)];
      }
    }

    /** What follows a successful configuration: the Node label, the local IP, the condition. */
    method ReportConfigured(name: string, cr: Cr, dev: string, localIP: string, ghost task: Task)
      requires task.name == name && task.copy == cr && task.spec == cr.spec && task.dev == dev && task.ip == localIP
      requires localIP != "" ==> kind.Vxlan?
      modifies server, nodeApi
      ensures Reaches(old(View(ARun(task, Finished))), View(AIdle), node, kind, Reliable())
      ensures Reliable() ==> NodeLabels.Read(nodeApi.labels, DeviceLabel(kind, dev)) == LabelOf(cr.spec)
    {
      ghost var v1 := View(ARun(task, Finished));
      var labelled := nodeApi.LabelNode(kind, dev, LabelValue(cr.spec));
      LabelIsRun(v1, node, kind, task, nodeApi.labels, Reliable());
      ghost var v2 := View(AfterLabel(kind, task));
      var copy := cr;
      if localIP != "" && cr.status.localIP != localIP {
        copy := RecordLocalIP(name, cr, localIP);
        PatchIsRun(v2, node, kind, task, copy, server.crs, Reliable());
      } else {
        ReachesItself(v2, node, kind, Reliable());
      }
      ghost var v3 := View(AReady(task.(copy := copy)));
      ReachesOn(v1, v2, v3, node, kind, Reliable());
      SetReadyCondition(name, copy, true, "Configured");
      ReportIsRun(v3, node, kind, v3.pc.task, Condition(true, "Configured", copy.generation), server.crs, Reliable());
      ReachesOn(v1, v3, View(AIdle), node, kind, Reliable());
    }

    method OnChange(name: string, cr: Cr, resolved: Option<int>, detected: Option<string>)
      requires OfKind(cr.spec, kind)
      modifies server, host, nodeApi
      ensures var dev := ParseDeviceName(name, node);
              Reaches(old(View(if dev.Some? then StartTask(node, kind, name, cr, dev.value, resolved, detected) else AIdle)),
                      View(AIdle), node, kind, Reliable())
    {
      var parsed := ParseDeviceName(name, node);
      if parsed.None? {
        ReachesItself(View(AIdle), node, kind, Reliable());
        return;
      }
      var dev := parsed.value;
      ghost var v0 := View(StartTask(node, kind, name, cr, dev, resolved, detected));
      var ready, reason, localIP;
      ghost var task;
      ready, reason, localIP, task := Configure(name, dev, cr, resolved, detected);
      ghost var v1 := View(ARun(task, if ready then Finished else Aborted(reason)));
      if ready {
        ReportConfigured(name, cr, dev, localIP, task);
      } else {
        SetReadyCondition(name, cr, false, reason);
        AbortIsRun(v1, node, kind, task, reason, server.crs, Reliable());
      }
      ReachesOn(v0, v1, View(AIdle), node, kind, Reliable());
    }

    /** If nothing fails needlessly, neither the device nor its label is left. */
    method OnDelete(name: string, cr: Cr)
      modifies server, host, nodeApi
      ensures Reliable() && ParseDeviceName(name, node).Some? ==>
                var dev := ParseDeviceName(name, node).value;
                dev !in host.links && NodeLabels.Read(nodeApi.labels, DeviceLabel(kind, dev)) == None
      ensures Answered(old(server.crs), server.crs, Update(old(server.crs), CrKey(kind, name), cr.(finalizer := false)), server.reliable)
      ensures Reaches(old(View(if ParseDeviceName(name, node).Some? then ADelLink(name, cr) else ADropFinalizer(name, cr))),
                      View(AIdle), node, kind, Reliable())
    {
      var parsed := ParseDeviceName(name, node);
      ghost var v0 := View(if parsed.Some? then ADelLink(name, cr) else ADropFinalizer(name, cr));
      if parsed.Some? {
        var deleted := host.ExecCmd(LinkDel(parsed.value));
        var unlabelled := nodeApi.LabelNode(kind, parsed.value, "");
        UnlinkIsRun(v0, node, kind, name, cr, parsed.value, deleted, nodeApi.labels, Reliable());
      } else {
        ReachesItself(v0, node, kind, Reliable());
      }
      ghost var v1 := View(ADropFinalizer(name, cr));
      var ok := server.Write(Update(server.crs, CrKey(kind, name), cr.(finalizer := false)));
      DropIsRun(v1, node, kind, name, cr, server.crs, Reliable());
      ReachesOn(v0, v1, View(AIdle), node, kind, Reliable());
    }

    /** Where the worker is after reading a remote CR. */
    function HearsOf(remote: Cr): AgentPc {
      if remote.status.localIP != "" && Label(remote.labels, TemplateName) != "" then AListPeers(remote) else AIdle
    }

    method HearOf(remote: Cr)
      requires kind.Vxlan?
      modifies host
      ensures Reaches(old(View(HearsOf(remote))), View(AIdle), node, kind, Reliable())
    {
      ghost var v0 := View(HearsOf(remote));
      if remote.status.localIP == "" || Label(remote.labels, TemplateName) == "" {
        ReachesItself(v0, node, kind, Reliable());
        return;
      }
      var ok, items := server.ListPeers(remote, node);
      if !ok {
        ReachesByStep(v0, node, kind, ACrash, Reliable());
        return;
      }
      ghost var rounds := OnRemoteChange(host, node, remote, Vxlans(server.crs), items);
      RemoteIsRun(v0, node, remote, rounds, Reliable());
    }

    /**
     * Undisturbed, a reconcile is the read of this CR by this agent's worker and what the worker makes of it;
     * with everything reliable the worker goes on without a failure or crash until it is done.
     */
    method Reconcile(name: string, resolved: Option<int>, detected: Option<string>)
      requires Typed(server.crs)
      modifies server, host, nodeApi
      ensures Reaches(AgentStep(old(View(AIdle)), node, kind, AGet(name, resolved, detected)), View(AIdle), node, kind, Reliable())
    {
      ghost var v1 := AgentStep(View(AIdle), node, kind, AGet(name, resolved, detected));
      var ok, got := server.Get(CrKey(kind, name));
      if !ok {
        ReachesByStep(v1, node, kind, ACrash, Reliable());
        return;
      }
      if got.None? {
        ReachesItself(v1, node, kind, Reliable());
        return;
      }
      var cr := got.value;
      if NodeOf(cr) == node {
        if cr.terminating {
          OnDelete(name, cr);
        } else if !cr.finalizer {
          ok := server.Write(Update(server.crs, CrKey(kind, name), cr.(finalizer := true)));
          ReachesByStep(v1, node, kind, if ok then AGo(true) else ACrash, Reliable());
        } else {
          OnChange(name, cr, resolved, detected);
        }
      } else if kind.Vxlan? {
        HearOf(cr);
      } else {
        ReachesItself(v1, node, kind, Reliable());
      }
    }
  }
}
