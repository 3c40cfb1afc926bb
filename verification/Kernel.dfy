/**
 * One node's kernel as the agent sees it: links by name, and the `ip` and `bridge` commands.
 * Every command may fail for reasons of its own; CanSucceed says when it is able to succeed: the
 * devices it names exist and are of the kind it is for.
 */
module Kernel {
  import opened Base
  import opened ApiObjects
  import opened PortVlan

  /** OtherMode stands for every type of link that kvnet does not create. */
  datatype Mode = BridgeMode | BondMode | VxlanExternal(vnifilter: bool) | VxlanId(id: int) | OtherMode

  function ModeKind(m: Mode): Option<Kind> {
    match m
    case BridgeMode => Some(Bridge)
    case BondMode => Some(Uplink)
    case VxlanExternal(_) => Some(Vxlan)
    case VxlanId(_) => Some(Vxlan)
    case OtherMode => None
  }

  predicate IsVxlan(m: Mode) {
    m.VxlanExternal? || m.VxlanId?
  }

  /** Who made a link: the agent's controller of some kind, or anyone else on the host. */
  datatype Creator = Agent(kind: Kind) | Someone

  /** Link settings are last-write-wins slots. */
  datatype Slot = SVlanFiltering | SNfCallIptables | SState | SBondMode | SMaster | SLocal | SMtu | SLearning | SPortLearning

  datatype Attr = VlanFiltering(on: bool) | NfCallIptables(on: bool) | State(up: bool) | BondModeIs(mode: string)
                | Master(dev: string) | Local(ip: string) | Mtu(mtu: int) | Learning(on: bool) | PortLearning(on: bool)

  function SlotOf(a: Attr): Slot {
    match a
    case VlanFiltering(_) => SVlanFiltering
    case NfCallIptables(_) => SNfCallIptables
    case State(_) => SState
    case BondModeIs(_) => SBondMode
    case Master(_) => SMaster
    case Local(_) => SLocal
    case Mtu(_) => SMtu
    case Learning(_) => SLearning
    case PortLearning(_) => SPortLearning
  }

  /** `flood` lists the destinations of the all-zero MAC in the link's FDB. */
  datatype Link = Link(creator: Creator, mode: Mode, attrs: map<Slot, Attr>, port: Port, vnis: set<int>, flood: seq<string>)

  type Links = map<string, Link>

  /** LinkDetail is `ip -d link show` read for a bridge_slave line. */
  datatype Cmd = LinkShow(dev: string)
               | LinkDetail(dev: string)
               | LinkAdd(dev: string, mode: Mode)
               | LinkDel(dev: string)
               | LinkSet(dev: string, attr: Attr)
               | VlanAdd(dev: string, what: VlanCmd)
               | VniAdd(dev: string, vni: int)
               | FdbDel(dev: string, dst: string)
               | FdbAppend(dev: string, dst: string)

  datatype Attempt = Attempt(cmd: Cmd, ok: bool)

  predicate IsBridgeSlave(ls: Links, dev: string) {
    && dev in ls && SMaster in ls[dev].attrs && ls[dev].attrs[SMaster].Master?
    && ls[dev].attrs[SMaster].dev in ls && ls[ls[dev].attrs[SMaster].dev].mode.BridgeMode?
  }

  function NewLink(mode: Mode): Link {
    Link(if ModeKind(mode).Some? then Agent(ModeKind(mode).value) else Someone, mode, map[], map[], {}, [])
  }

  /** Only bridges and bonds take slaves, and none takes itself. */
  predicate CanEnslave(ls: Links, master: string, dev: string) {
    master != dev && master in ls && (ls[master].mode.BridgeMode? || ls[master].mode.BondMode?)
  }

  /** The setting is one that a device of this type has. */
  predicate Suits(m: Mode, a: Attr) {
    match a
    case VlanFiltering(_) => m.BridgeMode?
    case NfCallIptables(_) => m.BridgeMode?
    case BondModeIs(_) => m.BondMode?
    case Local(_) => IsVxlan(m)
    case Learning(_) => IsVxlan(m)
    case _ => true
  }

  predicate CanSet(ls: Links, dev: string, a: Attr) {
    && dev in ls && Suits(ls[dev].mode, a)
    && (a.Master? ==> CanEnslave(ls, a.dev, dev))
    && (a.PortLearning? ==> IsBridgeSlave(ls, dev))
  }

  function Without(list: seq<string>, dst: string): seq<string> {
    if list == [] then []
    else Without(list[..|list| - 1], dst) + (if list[|list| - 1] == dst then [] else [list[|list| - 1]])
  }

  predicate CanSucceed(ls: Links, c: Cmd) {
    match c
    case LinkDetail(dev) => IsBridgeSlave(ls, dev)
    case LinkAdd(dev, _) => dev !in ls
    case LinkSet(dev, attr) => CanSet(ls, dev, attr)
    case VlanAdd(dev, _) => IsBridgeSlave(ls, dev)
    case VniAdd(dev, _) => dev in ls && ls[dev].mode.VxlanExternal? && ls[dev].mode.vnifilter
    case FdbDel(dev, dst) => dev in ls && IsVxlan(ls[dev].mode) && dst in ls[dev].flood
    case FdbAppend(dev, _) => dev in ls && IsVxlan(ls[dev].mode)
    case _ => c.dev in ls
  }

  /** Deleting a link also releases its slaves. */
  function Unlinked(ls: Links, dev: string): Links {
    map d | d in ls && d != dev :: if SMaster in ls[d].attrs && ls[d].attrs[SMaster] == Master(dev)
                                   then ls[d].(attrs := ls[d].attrs - {SMaster}) else ls[d]
  }

  /** The links after the command has succeeded. */
  function Effect(ls: Links, c: Cmd): Links
    requires CanSucceed(ls, c)
  {
    match c
    case LinkShow(_) => ls
    case LinkDetail(_) => ls
    case LinkAdd(dev, mode) => ls[dev := NewLink(mode)]
    case LinkDel(dev) => Unlinked(ls, dev)
    case LinkSet(dev, attr) => ls[dev := ls[dev].(attrs := ls[dev].attrs[SlotOf(attr) := attr])]
    case VlanAdd(dev, what) => ls[dev := ls[dev].(port := ls[dev].port + Writes(what))]
    case VniAdd(dev, vni) => ls[dev := ls[dev].(vnis := ls[dev].vnis + {vni})]
    case FdbDel(dev, dst) => ls[dev := ls[dev].(flood := Without(ls[dev].flood, dst))]
    case FdbAppend(dev, dst) => ls[dev := ls[dev].(flood := ls[dev].flood + [dst])]
  }

  /** A command whose failure, for whatever reason, is ignored. */
  function Try(ls: Links, c: Cmd, ok: bool): Links {
    if ok && CanSucceed(ls, c) then Effect(ls, c) else ls
  }

  /** A trace that really happened from these links: a command succeeds only when it can. */
  predicate Possible(ls: Links, t: seq<Attempt>)
    decreases |t|
  {
    if t == [] then true
    else
      var a := t[0];
      if a.ok then CanSucceed(ls, a.cmd) && Possible(Effect(ls, a.cmd), t[1..]) else Possible(ls, t[1..])
  }

  function After(ls: Links, t: seq<Attempt>): Links
    requires Possible(ls, t)
    decreases |t|
  {
    if t == [] then ls
    else if t[0].ok then After(Effect(ls, t[0].cmd), t[1..]) else After(ls, t[1..])
  }

  /** Every command of the trace had the outcome the links allowed. */
  predicate Lucky(ls: Links, t: seq<Attempt>)
    decreases |t|
  {
    t == [] || (t[0].ok == CanSucceed(ls, t[0].cmd) && Lucky(if t[0].ok then Effect(ls, t[0].cmd) else ls, t[1..]))
  }

  lemma {:induction false} LuckyConcat(ls: Links, t: seq<Attempt>, u: seq<Attempt>)
    requires Possible(ls, t) && Lucky(ls, t) && Lucky(After(ls, t), u)
    ensures Lucky(ls, t + u)
    decreases |t|
  {
    if t == [] {
      assert t + u == u;
    } else {
      assert (t + u)[1..] == t[1..] + u;
      LuckyConcat(if t[0].ok then Effect(ls, t[0].cmd) else ls, t[1..], u);
    }
  }

  lemma {:induction false} AfterConcat(ls: Links, t: seq<Attempt>, u: seq<Attempt>)
    requires Possible(ls, t) && Possible(After(ls, t), u)
    ensures Possible(ls, t + u) && After(ls, t + u) == After(After(ls, t), u)
    decreases |t|
  {
    if t == [] {
      assert t + u == u;
    } else {
      assert (t + u)[1..] == t[1..] + u;
      AfterConcat(if t[0].ok then Effect(ls, t[0].cmd) else ls, t[1..], u);
    }
  }

  /** The kernel itself: the links, and every command issued so far with its outcome. */
  class Host {
    var links: Links
    var trace: seq<Attempt>
    /** On a reliable host a command fails only when it cannot succeed. */
    const reliable: bool

    constructor (reliable: bool)
      ensures links == map[] && trace == [] && this.reliable == reliable
    {
      links, trace := map[], [];
      this.reliable := reliable;
    }

    /** What happened since an earlier moment of this host. */
    ghost predicate Since(links0: Links, trace0: seq<Attempt>, t: seq<Attempt>)
      reads this
    {
      trace == trace0 + t && Possible(links0, t) && links == After(links0, t) && (reliable ==> Lucky(links0, t))
    }

    method ExecCmd(c: Cmd) returns (ok: bool)
      modifies this
      ensures trace == old(trace) + [Attempt(c, ok)]
      ensures ok ==> CanSucceed(old(links), c) && links == Effect(old(links), c)
      ensures !ok ==> links == old(links)
      ensures reliable ==> ok == CanSucceed(old(links), c)
      ensures forall ls, tr, t :: old(Since(ls, tr, t)) ==> Since(ls, tr, t + [Attempt(c, ok)])
    {
      var willing: bool := *;
      ok := (reliable || willing) && CanSucceed(links, c);
      if ok {
        links := Effect(links, c);
      }
      trace := trace + [Attempt(c, ok)];
      forall ls, tr, t | old(Since(ls, tr, t))
        ensures Since(ls, tr, t + [Attempt(c, ok)])
      {
        AfterConcat(ls, t, [Attempt(c, ok)]);
        if reliable {
          LuckyConcat(ls, t, [Attempt(c, ok)]);
        }
      }
    }
  }
}
