/**
 * The objects kept by the API server: templates and per-node CRs of the three kinds, with the
 * metadata the controllers rely on. The three label keys of api/v1alpha1/constants.go are
 * constructors of LabelKey; every other label is Other.
 */
module ApiObjects {
  import opened Base

  datatype Kind = Bridge | Uplink | Vxlan

  datatype VlanTunnelMapping = VlanTunnelMapping(vid: int, vidEnd: Option<int>, vni: int)

  datatype PortVlanConfig = PortVlanConfig(pvid: Option<int>, vids: seq<int>, tunnelInfo: seq<VlanTunnelMapping>)

  datatype BridgeSpec = BridgeSpec(vlanFiltering: bool, nfCallIptables: bool)

  datatype UplinkSpec = UplinkSpec(master: string, bondMode: string, bondSlaves: seq<string>,
                                   portVlan: Option<PortVlanConfig>)

  datatype VxlanSpec = VxlanSpec(vni: int, master: string, localIP: string, dev: string, mtu: int,
                                 learning: bool, bridgeLearning: bool, external: bool, vniFilter: bool,
                                 portVlan: Option<PortVlanConfig>)

  datatype Spec = OfBridge(bridge: BridgeSpec) | OfUplink(uplink: UplinkSpec) | OfVxlan(vxlan: VxlanSpec)

  /** The Go types give every CR a spec of its own kind. */
  predicate OfKind(spec: Spec, k: Kind) {
    match spec
    case OfBridge(_) => k.Bridge?
    case OfUplink(_) => k.Uplink?
    case OfVxlan(_) => k.Vxlan?
  }

  /** devName is bridgeName, bondName or vxlanName; vxlanID is 0 for the kinds that have none. */
  datatype TemplateSpec = TemplateSpec(devName: string, vxlanID: int, spec: Spec)

  datatype LabelKey = TemplateName | TemplateNS | NodeName | Other(key: string)

  type Labels = map<LabelKey, string>

  /** A Go map lookup: an absent label reads as the empty string. */
  function Label(labels: Labels, key: LabelKey): string {
    if key in labels then labels[key] else ""
  }

  datatype Condition = Condition(ready: bool, reason: string, observedGeneration: nat)

  datatype Status = Status(localIP: string, ready: Option<Condition>)

  /** `rv` is the resourceVersion; `finalizer` says whether kvnet's own finalizer is present. */
  datatype Obj<S> = Obj(labels: Labels, spec: S, status: Status, generation: nat, rv: nat,
                        finalizer: bool, terminating: bool)

  type Cr = Obj<Spec>
  type Template = Obj<TemplateSpec>

  datatype TemplateKey = TemplateKey(kind: Kind, ns: string, name: string)
  datatype CrKey = CrKey(kind: Kind, name: string)

  const EMPTY_STATUS := Status("", None)

  function NodeOf(cr: Cr): string {
    Label(cr.labels, NodeName)
  }

  /** The MatchingLabels filter the template controllers list with. */
  predicate LabelledFor(cr: Cr, tk: TemplateKey) {
    && TemplateName in cr.labels && cr.labels[TemplateName] == tk.name
    && TemplateNS in cr.labels && cr.labels[TemplateNS] == tk.ns
  }

  predicate OnNode(cr: Cr, node: string) {
    NodeName in cr.labels && cr.labels[NodeName] == node
  }

  /** The labels a template controller sets; all others are left as they are. */
  function SyncLabels(labels: Labels, tk: TemplateKey, node: string): Labels {
    labels[TemplateName := tk.name][TemplateNS := tk.ns][NodeName := node]
  }

  /** A synced CR is labelled for its template alone and belongs to the node; its other labels are kept. */
  lemma SyncedForOne(cr: Cr, tk: TemplateKey, node: string, other: TemplateKey)
    ensures var synced := cr.(labels := SyncLabels(cr.labels, tk, node));
            && (LabelledFor(synced, other) <==> other.name == tk.name && other.ns == tk.ns)
            && OnNode(synced, node)
            && forall k: LabelKey :: k.Other? ==> Label(synced.labels, k) == Label(cr.labels, k)
  {
  }
}
