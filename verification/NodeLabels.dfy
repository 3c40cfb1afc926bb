/**
 * Node labels: the Bridge, VXLAN and Uplink controllers of one agent each read the Node, change one label in
 * their copy and send the difference as a JSON merge patch (section 2 of RFC 7386), without a version check.
 */
module NodeLabels {
  import opened Base
  import opened ApiObjects

  type NodeMap = map<string, string>

  function Prefix(kind: Kind): string {
    match kind
    case Bridge => "bridge.kvnet.kojuro.date/"
    case Uplink => "uplink.kvnet.kojuro.date/"
    case Vxlan => "vxlan.kvnet.kojuro.date/"
  }

  function DeviceLabel(kind: Kind, dev: string): string {
    Prefix(kind) + dev
  }

  lemma PrefixStart(kind: Kind)
    ensures Prefix(kind) != "" && Prefix(kind)[0] == match kind case Bridge => 'b' case Uplink => 'u' case Vxlan => 'v'
  {
  }

  /** Different controllers never write the same label, nor does one for two devices. */
  lemma DeviceLabelInjective(k1: Kind, d1: string, k2: Kind, d2: string)
    ensures DeviceLabel(k1, d1) == DeviceLabel(k2, d2) <==> k1 == k2 && d1 == d2
  {
    PrefixStart(k1);
    PrefixStart(k2);
    assert DeviceLabel(k1, d1)[0] == Prefix(k1)[0] && DeviceLabel(k2, d2)[0] == Prefix(k2)[0];
    assert DeviceLabel(k1, d1)[|Prefix(k1)|..] == d1 && DeviceLabel(k2, d2)[|Prefix(k2)|..] == d2;
  }

  /** One change of one label; None removes it. */
  datatype Edit = Edit(key: string, value: Option<string>)

  function Read(labels: NodeMap, key: string): Option<string> {
    if key in labels then Some(labels[key]) else None
  }

  function Apply(labels: NodeMap, e: Edit): NodeMap {
    if e.value.Some? then labels[e.key := e.value.value] else labels - {e.key}
  }

  function ApplyAll(labels: NodeMap, edits: seq<Edit>): NodeMap {
    if edits == [] then labels else Apply(ApplyAll(labels, edits[..|edits| - 1]), edits[|edits| - 1])
  }

  /** labelNode's change: the empty string stands for removal. */
  function LabelEdit(kind: Kind, dev: string, value: string): Edit {
    Edit(DeviceLabel(kind, dev), if value == "" then None else Some(value))
  }

  /** The label of a device that is up: a VXLAN's names its master, if it has one; the others' say "true". */
  function LabelOf(spec: Spec): Option<string> {
    match spec
    case OfBridge(_) => Some("true")
    case OfUplink(_) => Some("true")
    case OfVxlan(v) => if v.master == "" then None else Some(v.master)
  }

  // Merge patches

  type MergePatch = map<string, Option<string>>

  function Diff(before: NodeMap, after: NodeMap): MergePatch {
    map key | key in before.Keys + after.Keys && Read(before, key) != Read(after, key) :: Read(after, key)
  }

  function Patched(labels: NodeMap, p: MergePatch): NodeMap {
    map key | key in labels.Keys + p.Keys && (if key in p then p[key].Some? else true)
      :: if key in p then p[key].value else labels[key]
  }

  /** The patch touches at most the label it is about. */
  lemma PatchTouchesOneKey(snapshot: NodeMap, e: Edit)
    ensures Diff(snapshot, Apply(snapshot, e)).Keys <= {e.key}
  {
  }

  /**
   * Sending the difference amounts to the edit itself exactly when the copy did not already have the
   * value, or the Node still has it: otherwise the patch is empty and a concurrent change survives.
   */
  lemma PatchIsEditIff(labels: NodeMap, snapshot: NodeMap, e: Edit)
    ensures Patched(labels, Diff(snapshot, Apply(snapshot, e))) == Apply(labels, e)
            <==> Read(snapshot, e.key) != e.value || Read(labels, e.key) == e.value
  {
    var p := Diff(snapshot, Apply(snapshot, e));
    var result := Patched(labels, p);
    assert forall key :: key != e.key ==> Read(result, key) == Read(labels, key) == Read(Apply(labels, e), key);
    assert Read(Apply(labels, e), e.key) == e.value;
    if Read(snapshot, e.key) == e.value {
      assert e.key !in p && Read(result, e.key) == Read(labels, e.key);
    } else {
      assert e.key in p && Read(result, e.key) == e.value;
    }
    ReadDetermines(result, Apply(labels, e));
  }

  lemma ReadDetermines(a: NodeMap, b: NodeMap)
    ensures a == b <==> forall key :: Read(a, key) == Read(b, key)
  {
    if forall key :: Read(a, key) == Read(b, key) {
      assert forall key :: key in a <==> Read(a, key).Some?;
      assert forall key :: key in b <==> Read(b, key).Some?;
    }
  }

  /** Edits of different labels commute. */
  lemma EditsCommute(labels: NodeMap, e: Edit, f: Edit)
    requires e.key != f.key
    ensures Apply(Apply(labels, e), f) == Apply(Apply(labels, f), e)
  {
  }

  predicate IsDeviceLabel(key: string) {
    Prefix(Bridge) <= key || Prefix(Uplink) <= key || Prefix(Vxlan) <= key
  }

  /** What a successful patch makes of the labels, computed from an earlier copy. */
  function SendPatch(labels: NodeMap, snapshot: NodeMap, e: Edit): NodeMap {
    Patched(labels, Diff(snapshot, Apply(snapshot, e)))
  }

  lemma ApplyOne(labels: NodeMap, e: Edit)
    ensures ApplyAll(labels, [e]) == Apply(labels, e)
  {
    assert [e][..0] == [];
  }

  lemma {:induction false} ApplyAllConcat(labels: NodeMap, a: seq<Edit>, b: seq<Edit>)
    ensures ApplyAll(labels, a + b) == ApplyAll(ApplyAll(labels, a), b)
  {
    if b == [] {
      assert a + b == a;
    } else {
      ApplyAllConcat(labels, a, b[..|b| - 1]);
      assert (a + b)[..|a + b| - 1] == a + b[..|b| - 1];
    }
  }

  // labelNode itself

  /** The Node object behind the API server. */
  class NodeApi {
    var labels: NodeMap
    /** On a reliable server every call succeeds that can. */
    const reliable: bool

    constructor (labels: NodeMap, reliable: bool)
      ensures this.labels == labels && this.reliable == reliable
    {
      this.labels, this.reliable := labels, reliable;
    }

    method Get() returns (ok: bool, copy: NodeMap)
      ensures ok ==> copy == labels
      ensures reliable ==> ok
    {
      ok, copy := *, labels;
      ok := ok || reliable;
    }

    method Patch(p: MergePatch) returns (ok: bool)
      modifies this
      ensures labels == if ok then Patched(old(labels), p) else old(labels)
      ensures reliable ==> ok
    {
      ok := *;
      ok := ok || reliable;
      if ok {
        labels := Patched(labels, p);
      }
    }

    /** Undisturbed, it makes exactly its edit or, when a call fails, nothing. */
    method LabelNode(kind: Kind, dev: string, value: string) returns (ok: bool)
      modifies this
      ensures labels == if ok then Apply(old(labels), LabelEdit(kind, dev, value)) else old(labels)
      ensures ok ==> Read(labels, DeviceLabel(kind, dev)) == if value == "" then None else Some(value)
      ensures forall key :: key != DeviceLabel(kind, dev) ==> Read(labels, key) == Read(old(labels), key)
      ensures reliable ==> ok
    {
      var node;
      ok, node := Get();
      if !ok {
        return;
      }
      var key := DeviceLabel(kind, dev);
      var changed := node;
      if value == "" {
        changed := changed - {key};
      } else {
        changed := changed[key := value];
      }
      PatchIsEditIff(node, node, LabelEdit(kind, dev, value));
      ok := Patch(Diff(node, changed));
    }
  }
}
