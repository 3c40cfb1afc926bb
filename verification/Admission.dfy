/**
 * The admission rule for VXLANTemplates, what it guarantees about the VNI an agent later passes to
 * `ip link add`, and what it does to the controller's own writes.
 */
module Admission {
  import opened Base
  import opened ApiObjects
  import opened ApiStore
  import opened Names
  import opened Kernel
  import opened Programs

  datatype Refusal = NameRequired | IDMustBePositive | ListFailed | MasterNotABridge

  /** `bridges` are the bridge names of all BridgeTemplates, None when they cannot be listed. */
  function MasterRefusal(master: string, bridges: Option<seq<string>>): Option<Refusal> {
    if master == "" then None
    else if bridges.None? then Some(ListFailed)
    else if master in bridges.value then None
    else Some(MasterNotABridge)
  }

  method ValidateMasterIsBridge(master: string, bridges: Option<seq<string>>) returns (refusal: Option<Refusal>)
    ensures refusal == MasterRefusal(master, bridges)
    ensures refusal == None <==> master == "" || (bridges.Some? && master in bridges.value)
    ensures refusal == Some(ListFailed) <==> master != "" && bridges.None?
    ensures refusal.Some? ==> refusal.value == ListFailed || refusal.value == MasterNotABridge
  {
    if master == "" {
      return None;
    }
    if bridges.None? {
      return Some(ListFailed);
    }
    for i := 0 to |bridges.value|
      invariant master !in bridges.value[..i]
    {
      if bridges.value[i] == master {
        return None;
      }
    }
    assert bridges.value[..|bridges.value|] == bridges.value;
    return Some(MasterNotABridge);
  }

  function Validate(t: TemplateSpec, bridges: Option<seq<string>>): Option<Refusal>
    requires t.spec.OfVxlan?
  {
    if t.devName == "" then Some(NameRequired)
    else if !t.spec.vxlan.external && t.vxlanID <= 0 then Some(IDMustBePositive)
    else MasterRefusal(t.spec.vxlan.master, bridges)
  }

  /** What it takes to be admitted, and the first thing that is told when it is missing. */
  lemma AdmittedIff(t: TemplateSpec, bridges: Option<seq<string>>)
    requires t.spec.OfVxlan?
    ensures Validate(t, bridges) == None <==>
            && t.devName != "" && (t.spec.vxlan.external || t.vxlanID > 0)
            && (t.spec.vxlan.master == "" || (bridges.Some? && t.spec.vxlan.master in bridges.value))
    ensures Validate(t, bridges) == Some(NameRequired) <==> t.devName == ""
    ensures Validate(t, bridges) == Some(IDMustBePositive) <==> t.devName != "" && !t.spec.vxlan.external && t.vxlanID <= 0
  {
  }

  /** The CRs of an admitted template stand for a device with a name, on every node. */
  lemma AdmittedIsNamed(t: TemplateSpec, bridges: Option<seq<string>>, node: string)
    requires t.spec.OfVxlan? && Validate(t, bridges) == None
    ensures ParseDeviceName(Join(node, t.devName), node).Some? && ParseDeviceName(Join(node, t.devName), node).value != ""
  {
    ParseInvertsJoin(Join(node, t.devName), node, t.devName);
  }

  // The ID an agent passes to `ip link add`

  type Templates = map<TemplateKey, Template>

  /** The agent's lookup of the template behind a CR; None stands for its errors. */
  function ResolveID(labels: Labels, tmpls: Templates): Option<int> {
    var name, ns := Label(labels, TemplateName), Label(labels, TemplateNS);
    var tk := TemplateKey(Vxlan, ns, name);
    if name == "" || ns == "" || tk !in tmpls then None else Some(tmpls[tk].spec.vxlanID)
  }

  /** The only command that creates the device carries this ID; None when there is no such command. */
  function CreationID(spec: VxlanSpec, labels: Labels, tmpls: Templates): Option<int> {
    var p := VxlanCreate("", spec, ResolveID(labels, tmpls), Finished);
    if p.Must? && p.cmd.LinkAdd? && p.cmd.mode.VxlanId? then Some(p.cmd.mode.id) else None
  }

  /** The template stored under these labels. */
  predicate TemplateBehind(labels: Labels, tmpls: Templates, t: Template) {
    var tk := TemplateKey(Vxlan, Label(labels, TemplateNS), Label(labels, TemplateName));
    tk.ns != "" && tk.name != "" && tk in tmpls && tmpls[tk] == t
  }

  /** The ID is the CR's own, or that of the template its labels name; without such a template there is none. */
  lemma CreationIDIs(spec: VxlanSpec, labels: Labels, tmpls: Templates)
    requires !spec.external
    ensures spec.vni != 0 ==> CreationID(spec, labels, tmpls) == Some(spec.vni)
    ensures spec.vni == 0 ==> forall t :: TemplateBehind(labels, tmpls, t) ==> CreationID(spec, labels, tmpls) == Some(t.spec.vxlanID)
    ensures spec.vni == 0 && (forall t :: !TemplateBehind(labels, tmpls, t)) ==> CreationID(spec, labels, tmpls) == None
  {
    var tk := TemplateKey(Vxlan, Label(labels, TemplateNS), Label(labels, TemplateName));
    if tk.ns != "" && tk.name != "" && tk in tmpls {
      assert TemplateBehind(labels, tmpls, tmpls[tk]);
    }
  }

  /**
   * With an admitted template stored now, a non-external CR is created with a positive ID exactly when its
   * own VNI is positive, or is unset while the template is not an external one without an ID.
   */
  lemma CreationIDPositiveIff(spec: VxlanSpec, labels: Labels, tmpls: Templates, t: Template, bridges: Option<seq<string>>)
    requires !spec.external && TemplateBehind(labels, tmpls, t)
    requires t.spec.spec.OfVxlan? && Validate(t.spec, bridges) == None
    ensures CreationID(spec, labels, tmpls).Some?
    ensures CreationID(spec, labels, tmpls).value > 0 <==>
            spec.vni > 0 || (spec.vni == 0 && (t.spec.spec.vxlan.external ==> t.spec.vxlanID > 0))
  {
  }

  /** For a CR in step with its admitted template only a negative VNI gets through. */
  lemma SyncedIDPositiveIff(labels: Labels, tmpls: Templates, tk: TemplateKey, node: string, bridges: Option<seq<string>>)
    requires tk in tmpls && tk.kind.Vxlan? && tk.ns != "" && tk.name != ""
    requires tmpls[tk].spec.spec.OfVxlan? && Validate(tmpls[tk].spec, bridges) == None && !tmpls[tk].spec.spec.vxlan.external
    ensures var id := CreationID(tmpls[tk].spec.spec.vxlan, SyncLabels(labels, tk, node), tmpls);
            id.Some? && (id.value > 0 <==> tmpls[tk].spec.spec.vxlan.vni >= 0)
  {
    CreationIDPositiveIff(tmpls[tk].spec.spec.vxlan, SyncLabels(labels, tk, node), tmpls, tmpls[tk], bridges);
  }

  const PLAIN := VxlanSpec(0, "", "", "", 0, false, false, false, false, None)

  /**
   * A race the rule does not cover: the template is switched to external mode without an ID, which is
   * admitted, and an agent still acting on the CR synced before creates its device with ID 0.
   */
  lemma SwitchToExternalGivesZero(tk: TemplateKey, node: string, before: Template, now: Template)
    requires tk.kind.Vxlan? && tk.ns != "" && tk.name != ""
    requires before.spec == TemplateSpec("vx", 100, OfVxlan(PLAIN))
    requires now.spec == TemplateSpec("vx", 0, OfVxlan(PLAIN.(external := true)))
    ensures Validate(before.spec, Some([])) == None && Validate(now.spec, Some([])) == None
    ensures CreationID(PLAIN, SyncLabels(map[], tk, node), map[tk := before]) == Some(100)
    ensures CreationID(PLAIN, SyncLabels(map[], tk, node), map[tk := now]) == Some(0)
  {
    assert Label(SyncLabels(map[], tk, node), TemplateName) == tk.name;
    assert Label(SyncLabels(map[], tk, node), TemplateNS) == tk.ns;
  }

  // The rule applies to every update, also to those of the template controller itself

  type TemplateStore = Store<TemplateKey, TemplateSpec>

  function AdmittedUpdate(st: TemplateStore, tk: TemplateKey, copy: Template, bridges: Option<seq<string>>): Option<TemplateStore>
    requires copy.spec.spec.OfVxlan?
  {
    if Validate(copy.spec, bridges).Some? then None else Update(st, tk, copy)
  }

  /**
   * Once admitted, a template that is being deleted is let go by its controller exactly when a
   * BridgeTemplate for its master is still there: deleting that one first keeps the VXLANTemplate for ever.
   */
  lemma ReleasedIffMasterRemains(st: TemplateStore, tk: TemplateKey, atAdmission: Option<seq<string>>, now: Option<seq<string>>)
    requires tk in st.objs && st.objs[tk].spec.spec.OfVxlan? && st.objs[tk].terminating
    requires Validate(st.objs[tk].spec, atAdmission) == None
    ensures var r := AdmittedUpdate(st, tk, st.objs[tk].(finalizer := false), now);
            var master := st.objs[tk].spec.spec.vxlan.master;
            && (r.Some? && tk !in r.value.objs <==> master == "" || (now.Some? && master in now.value))
            && (r.None? <==> !(master == "" || (now.Some? && master in now.value)))
  {
  }
}
