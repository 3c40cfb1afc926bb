/**
 * Manager and agents write the same CRs without losing each other's part: a stale copy is refused, so
 * the manager never drops a finalizer, a status or a deletion, and no agent reverts a spec or a label.
 */
module SyncSafety {
  import opened Base
  import opened ApiObjects
  import opened ApiStore
  import Names
  import opened Protocol
  import opened ProtocolInvariant

  /** The agent's and the user's part of a CR, as opposed to what a sync is meant to overwrite. */
  predicate AgentSideSame(was: Cr, now: Cr) {
    now.finalizer == was.finalizer && now.status == was.status && (was.terminating ==> now.terminating)
  }

  predicate ManagerSideSame(was: Cr, now: Cr) {
    now.spec == was.spec && now.labels == was.labels && now.generation == was.generation && now.terminating == was.terminating
  }

  lemma PutCrKeepsAgentSide(crs: CrStore, k: Kind, tk: TemplateKey, t: Template, node: string, got: Option<Cr>)
    requires CrsOk(crs) && PutCr(crs, k, tk, t, node, got).Some?
    requires got.Some? ==> CopyOk(crs, CrKey(k, Names.Join(node, t.spec.devName)), got.value)
    ensures var crs' := PutCr(crs, k, tk, t, node, got).value;
            forall key :: key in crs.objs ==> key in crs'.objs && AgentSideSame(crs.objs[key], crs'.objs[key])
  {
  }

  /** A sync keeps every CR stored, with the finalizer and status the agent last wrote. */
  lemma SyncKeepsAgentState(h: seq<State>, actions: seq<Action>, k: Kind, key: CrKey)
    requires Behaviour(h, actions) && ManagerOf(Last(h), k).MPut? && key in Last(h).crs.objs
    ensures var s := Step(Last(h), OfManager(k, MGo));
            key in s.crs.objs && AgentSideSame(Last(h).crs.objs[key], s.crs.objs[key])
  {
    var s := Last(h);
    var pc := ManagerOf(s, k);
    BehaviourKeepsInv(h, actions);
    assert ManagerOk(s.tmpls, s.crs, k, pc);
    if PutCr(s.crs, k, pc.tk, pc.tmpl, pc.node, pc.got).Some? {
      PutCrKeepsAgentSide(s.crs, k, pc.tk, pc.tmpl, pc.node, pc.got);
    }
  }

  lemma StatusWriteKeepsManagerSide(v: AgentView, n: string, k: Kind, ok: bool, key: CrKey)
    requires v.pc.AFailed? || v.pc.AReady? || v.pc.APatchIP?
    requires key in v.crs.objs && key in AgentGo(v, n, k, ok).crs.objs
    ensures ManagerSideSame(v.crs.objs[key], AgentGo(v, n, k, ok).crs.objs[key])
  {
  }

  lemma FinalizerWriteKeepsManagerSide(v: AgentView, n: string, k: Kind, ok: bool, key: CrKey)
    requires AgentOk(v.crs, n, k, v.pc) && (v.pc.AAddFinalizer? || v.pc.ADropFinalizer?)
    requires key in v.crs.objs && key in AgentGo(v, n, k, ok).crs.objs
    ensures ManagerSideSame(v.crs.objs[key], AgentGo(v, n, k, ok).crs.objs[key])
  {
  }

  /** Agents create no CRs. */
  lemma AgentAddsNoCr(v: AgentView, n: string, k: Kind, a: AgentAct)
    requires CrsOk(v.crs) && AgentOk(v.crs, n, k, v.pc)
    ensures AgentStep(v, n, k, a).crs.objs.Keys <= v.crs.objs.Keys
  {
    if a.AGo? && !WritesCrs(v.pc) {
      AgentQuietOk(v, n, k, a.ok);
    }
  }

  lemma AgentKeepsManagerSide(v: AgentView, n: string, k: Kind, a: AgentAct, key: CrKey)
    requires CrsOk(v.crs) && AgentOk(v.crs, n, k, v.pc)
    requires key in v.crs.objs && key in AgentStep(v, n, k, a).crs.objs
    ensures ManagerSideSame(v.crs.objs[key], AgentStep(v, n, k, a).crs.objs[key])
  {
    if a.AGo? {
      if v.pc.AAddFinalizer? || v.pc.ADropFinalizer? {
        FinalizerWriteKeepsManagerSide(v, n, k, a.ok, key);
      } else if WritesCrs(v.pc) {
        StatusWriteKeepsManagerSide(v, n, k, a.ok, key);
      } else {
        AgentQuietOk(v, n, k, a.ok);
      }
    }
  }

  /** No step of an agent changes the spec, labels or generation of a CR that it leaves in the store. */
  lemma AgentNeverRevertsSpec(h: seq<State>, actions: seq<Action>, n: string, k: Kind, m: AgentAct, key: CrKey)
    requires Behaviour(h, actions) && key in Last(h).crs.objs && key in Step(Last(h), OfAgent(n, k, m)).crs.objs
    ensures ManagerSideSame(Last(h).crs.objs[key], Step(Last(h), OfAgent(n, k, m)).crs.objs[key])
  {
    BehaviourKeepsInv(h, actions);
    assert AgentOk(Last(h).crs, n, k, AgentOf(Last(h), n, k));
    AgentKeepsManagerSide(AgentViewOf(Last(h), n, k), n, k, m, key);
  }

  /**
   * The refusal is what does it: a sync based on a copy from before the agent's last write leaves the
   * store alone.
   */
  lemma StaleSyncIsRefused(crs: CrStore, k: Kind, tk: TemplateKey, t: Template, node: string, copy: Cr)
    requires var key := CrKey(k, Names.Join(node, t.spec.devName)); key in crs.objs && crs.objs[key].rv != copy.rv
    requires SyncedCopy(tk, t, node, copy) != copy
    ensures PutCr(crs, k, tk, t, node, Some(copy)) == None
  {
  }
}
