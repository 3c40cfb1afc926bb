/**
 * VXLAN flood lists. Every event about a remote VXLAN makes the agent delete and re-append that peer's
 * address on the local devices of the same template.
 */
module FloodList {
  import opened Base
  import opened ApiObjects
  import opened Names
  import opened Kernel

  /** The local CRs listed for a remote one: same template labels, this node's label. */
  predicate LocalPeer(cr: Cr, remote: Cr, node: string) {
    && TemplateName in cr.labels && cr.labels[TemplateName] == Label(remote.labels, TemplateName)
    && TemplateNS in cr.labels && cr.labels[TemplateNS] == Label(remote.labels, TemplateNS)
    && NodeName in cr.labels && cr.labels[NodeName] == node
  }

  /** For a remote VXLAN of one template these are the node's CRs labelled for that template. */
  lemma PeerIffLabelled(cr: Cr, remote: Cr, node: string, tk: TemplateKey)
    requires LabelledFor(remote, tk)
    ensures LocalPeer(cr, remote, node) <==> LabelledFor(cr, tk) && OnNode(cr, node)
  {
  }

  /** The CR of this name is the node's, is labelled for the template, and stands for the device. */
  predicate PeerDevice(crs: map<string, Cr>, name: string, tk: TemplateKey, node: string, dev: string) {
    name in crs && LabelledFor(crs[name], tk) && OnNode(crs[name], node) && ParseDeviceName(name, node) == Some(dev)
  }

  ghost predicate HasPeer(crs: map<string, Cr>, tk: TemplateKey, node: string, dev: string) {
    exists name :: PeerDevice(crs, name, tk, node, dev)
  }

  /** One event as a node sees it: the devices it concerns and the address it announces. */
  datatype Event = Event(targets: set<string>, ip: string)

  function EventOf(crs: map<string, Cr>, remote: Cr, node: string): Event {
    if Label(remote.labels, TemplateName) == "" then Event({}, remote.status.localIP)
    else Event(set name | name in crs && LocalPeer(crs[name], remote, node) && ParseDeviceName(name, node).Some?
                        :: ParseDeviceName(name, node).value,
               remote.status.localIP)
  }

  /** The event concerns the devices of the template on this node, and no others. */
  lemma TargetIffPeer(crs: map<string, Cr>, remote: Cr, node: string, tk: TemplateKey, dev: string)
    requires LabelledFor(remote, tk)
    ensures dev in EventOf(crs, remote, node).targets <==> tk.name != "" && HasPeer(crs, tk, node, dev)
  {
    if dev in EventOf(crs, remote, node).targets {
      var name :| name in crs && LocalPeer(crs[name], remote, node) && ParseDeviceName(name, node) == Some(dev);
      PeerIffLabelled(crs[name], remote, node, tk);
      assert PeerDevice(crs, name, tk, node, dev);
    }
    if tk.name != "" && HasPeer(crs, tk, node, dev) {
      var name :| PeerDevice(crs, name, tk, node, dev);
      PeerIffLabelled(crs[name], remote, node, tk);
      assert ParseDeviceName(name, node).value in EventOf(crs, remote, node).targets;
    }
  }

  function Touch(flood: seq<string>, ip: string): seq<string> {
    Without(flood, ip) + [ip]
  }

  function Touched(ls: Links, targets: set<string>, ip: string): Links {
    map dev | dev in ls :: if dev in targets && IsVxlan(ls[dev].mode) then ls[dev].(flood := Touch(ls[dev].flood, ip)) else ls[dev]
  }

  /** The links after one event whose commands all succeed when they can; only VXLAN devices have flood lists to change. */
  function Hear(ls: Links, e: Event): (after: Links)
    ensures after.Keys == ls.Keys
  {
    if e.ip == "" then ls else Touched(ls, e.targets, e.ip)
  }

  function HearAll(ls: Links, events: seq<Event>): (after: Links)
    ensures after.Keys == ls.Keys
  {
    if events == [] then ls else Hear(HearAll(ls, events[..|events| - 1]), events[|events| - 1])
  }

  ghost predicate NoRepeats(s: seq<string>) {
    forall i, j :: 0 <= i < j < |s| ==> s[i] != s[j]
  }

  /** The addresses announced to one device. */
  function Announced(events: seq<Event>, dev: string): set<string> {
    set e | e in events && dev in e.targets && e.ip != "" :: e.ip
  }

  lemma NoRepeatsSnoc(s: seq<string>, x: string)
    ensures NoRepeats(s + [x]) <==> NoRepeats(s) && x !in s
  {
    if NoRepeats(s + [x]) {
      assert forall i :: 0 <= i < |s| ==> (s + [x])[i] == s[i] && (s + [x])[|s|] == x;
    }
  }

  lemma {:induction false} WithoutDrops(s: seq<string>, ip: string)
    ensures forall x :: x in Without(s, ip) <==> x in s && x != ip
    ensures NoRepeats(s) ==> NoRepeats(Without(s, ip))
  {
    if s != [] {
      var init, last := s[..|s| - 1], s[|s| - 1];
      WithoutDrops(init, ip);
      assert s == init + [last];
      NoRepeatsSnoc(init, last);
      NoRepeatsSnoc(Without(init, ip), last);
    }
  }

  lemma {:induction false} WithoutAbsent(s: seq<string>, ip: string)
    requires ip !in s
    ensures Without(s, ip) == s
  {
    if s != [] {
      WithoutAbsent(s[..|s| - 1], ip);
    }
  }

  lemma {:induction false} WithoutConcat(s: seq<string>, t: seq<string>, ip: string)
    ensures Without(s + t, ip) == Without(s, ip) + Without(t, ip)
  {
    if t == [] {
      assert s + t == s;
    } else {
      WithoutConcat(s, t[..|t| - 1], ip);
      assert (s + t)[..|s + t| - 1] == s + t[..|t| - 1];
    }
  }

  /** Repeating an event changes nothing. */
  lemma TouchTwice(s: seq<string>, ip: string)
    ensures Touch(Touch(s, ip), ip) == Touch(s, ip)
  {
    WithoutDrops(s, ip);
    WithoutAbsent(Without(s, ip), ip);
    WithoutConcat(Without(s, ip), [ip], ip);
    assert [ip][..0] == [];
    assert Without([ip], ip) == [];
  }

  /**
   * Confluence: whatever the order and the repeats, an existing device ends with its old destinations
   * plus, if it is a VXLAN, every address announced to it, and no destination twice.
   */
  lemma {:induction false} FloodListConfluence(ls: Links, events: seq<Event>, dev: string)
    requires dev in ls
    ensures var after := HearAll(ls, events);
            && after.Keys == ls.Keys
            && (forall ip :: ip in after[dev].flood <==>
                  ip in ls[dev].flood || (IsVxlan(ls[dev].mode) && ip in Announced(events, dev)))
            && (NoRepeats(ls[dev].flood) ==> NoRepeats(after[dev].flood))
            && after[dev] == ls[dev].(flood := after[dev].flood)
  {
    if events != [] {
      var init, e := events[..|events| - 1], events[|events| - 1];
      FloodListConfluence(ls, init, dev);
      WithoutDrops(HearAll(ls, init)[dev].flood, e.ip);
      NoRepeatsSnoc(Without(HearAll(ls, init)[dev].flood, e.ip), e.ip);
      assert events == init + [e];
      assert forall ip :: ip in Announced(events, dev) <==> ip in Announced(init, dev) || (dev in e.targets && e.ip != "" && ip == e.ip);
    }
  }

  /** Two event orders announcing the same addresses agree on the destinations. */
  lemma OrderDoesNotMatter(ls: Links, events: seq<Event>, others: seq<Event>, dev: string)
    requires dev in ls && Announced(events, dev) == Announced(others, dev)
    ensures forall ip :: ip in HearAll(ls, events)[dev].flood <==> ip in HearAll(ls, others)[dev].flood
  {
    FloodListConfluence(ls, events, dev);
    FloodListConfluence(ls, others, dev);
  }

  // The handler of one remote event

  /** How the commands for one listed peer went. */
  datatype Round = Round(name: string, shown: bool, deleted: bool, appended: bool)

  function AfterRound(ls: Links, node: string, ip: string, r: Round): Links {
    var dev := ParseDeviceName(r.name, node);
    if r.shown && dev.Some? && dev.value in ls
    then Try(Try(ls, FdbDel(dev.value, ip), r.deleted), FdbAppend(dev.value, ip), r.appended)
    else ls
  }

  function AfterRounds(ls: Links, node: string, ip: string, rounds: seq<Round>): Links {
    if rounds == [] then ls else AfterRound(AfterRounds(ls, node, ip, rounds[..|rounds| - 1]), node, ip, rounds[|rounds| - 1])
  }

  /** Every command succeeded that could. */
  predicate RoundLucky(ls: Links, node: string, ip: string, r: Round) {
    var dev := ParseDeviceName(r.name, node);
    dev.Some? ==> r.shown == (dev.value in ls) && (r.shown ==>
      && r.deleted == (IsVxlan(ls[dev.value].mode) && ip in ls[dev.value].flood)
      && r.appended == IsVxlan(ls[dev.value].mode))
  }

  predicate RoundsLucky(ls: Links, node: string, ip: string, rounds: seq<Round>) {
    rounds == []
    || (RoundsLucky(ls, node, ip, rounds[..|rounds| - 1])
        && RoundLucky(AfterRounds(ls, node, ip, rounds[..|rounds| - 1]), node, ip, rounds[|rounds| - 1]))
  }

  function Devices(node: string, names: seq<string>): set<string> {
    set name | name in names && ParseDeviceName(name, node).Some? :: ParseDeviceName(name, node).value
  }

  function NamesOf(rounds: seq<Round>): seq<string> {
    seq(|rounds|, i requires 0 <= i < |rounds| => rounds[i].name)
  }

  /** Skipped when the device does not exist; failures of the two FDB commands are only logged. */
  method TouchDevice(host: Host, node: string, name: string, ip: string) returns (ghost r: Round)
    modifies host
    ensures r.name == name && host.links == AfterRound(old(host.links), node, ip, r)
    ensures host.reliable ==> RoundLucky(old(host.links), node, ip, r)
  {
    r := Round(name, false, false, false);
    var localDev := ParseDeviceName(name, node);
    if localDev.None? {
      return;
    }
    var ok := host.ExecCmd(LinkShow(localDev.value));
    if !ok {
      return;
    }
    var deleted := host.ExecCmd(FdbDel(localDev.value, ip));
    var appended := host.ExecCmd(FdbAppend(localDev.value, ip));
    r := Round(name, true, deleted, appended);
  }

  /**
   * `items` is the answer to the handler's list request, in any order. For a remote VXLAN of a template only devices of
   * the node's CRs of the same template change, and if nothing fails needlessly all of these flood to its address.
   */
  method OnRemoteChange(host: Host, node: string, remote: Cr, crs: map<string, Cr>, items: seq<string>)
    returns (ghost rounds: seq<Round>)
    requires forall name :: name in items <==> name in crs && LocalPeer(crs[name], remote, node)
    modifies host
    ensures host.reliable ==> host.links == Hear(old(host.links), EventOf(crs, remote, node))
    ensures host.reliable ==> RoundsLucky(old(host.links), node, remote.status.localIP, rounds)
    ensures FloodsOnly(old(host.links), host.links, EventOf(crs, remote, node))
    ensures host.links.Keys == old(host.links).Keys
    ensures PeersOnly(old(host.links), host.links, crs, remote, node)
    ensures host.reliable && remote.status.localIP != "" ==> PeersReached(host.links, crs, remote, node)
    ensures host.links == AfterRounds(old(host.links), node, remote.status.localIP, rounds)
    ensures NamesOf(rounds) == if remote.status.localIP == "" || Label(remote.labels, TemplateName) == "" then [] else items
  {
    rounds := [];
    var ip := remote.status.localIP;
    if ip == "" {
      return;
    }
    if Label(remote.labels, TemplateName) == "" {
      assert Touched(host.links, {}, ip) == host.links;
      return;
    }
    for i := 0 to |items|
      invariant NamesOf(rounds) == items[..i]
      invariant host.links == AfterRounds(old(host.links), node, ip, rounds)
      invariant host.reliable ==> RoundsLucky(old(host.links), node, ip, rounds)
    {
      ghost var r := TouchDevice(host, node, items[i], ip);
      assert (rounds + [r])[..|rounds|] == rounds;
      rounds := rounds + [r];
      assert items[..i + 1] == items[..i] + [items[i]];
    }
    assert items[..|items|] == items;
    RoundsTouch(old(host.links), node, ip, rounds);
    assert EventOf(crs, remote, node).targets == Devices(node, items);
    PeersFlood(old(host.links), host.links, crs, remote, node);
  }

  /** Every device that changed belongs to a CR of this node with the remote's template. */
  ghost predicate PeersOnly(before: Links, after: Links, crs: map<string, Cr>, remote: Cr, node: string)
    requires after.Keys == before.Keys
  {
    forall tk, dev :: LabelledFor(remote, tk) && dev in after && after[dev] != before[dev] ==> HasPeer(crs, tk, node, dev)
  }

  /** Every VXLAN device of such a CR floods to the remote's address. */
  ghost predicate PeersReached(after: Links, crs: map<string, Cr>, remote: Cr, node: string) {
    forall tk, dev :: LabelledFor(remote, tk) && tk.name != "" && HasPeer(crs, tk, node, dev) ==>
      (dev in after && IsVxlan(after[dev].mode) ==> remote.status.localIP in after[dev].flood)
  }

  lemma PeersFlood(before: Links, after: Links, crs: map<string, Cr>, remote: Cr, node: string)
    requires FloodsOnly(before, after, EventOf(crs, remote, node))
    ensures PeersOnly(before, after, crs, remote, node)
    ensures after == Hear(before, EventOf(crs, remote, node)) && remote.status.localIP != "" ==> PeersReached(after, crs, remote, node)
  {
    forall tk, dev | LabelledFor(remote, tk) && dev in after
      ensures dev in EventOf(crs, remote, node).targets <==> tk.name != "" && HasPeer(crs, tk, node, dev)
    {
      TargetIffPeer(crs, remote, node, tk, dev);
    }
  }

  /** Whatever fails, only flood lists of targeted devices change, and only by the announced address. */
  ghost predicate FloodsOnly(before: Links, after: Links, e: Event) {
    && after.Keys == before.Keys
    && forall dev :: dev in before ==>
         && (dev !in e.targets ==> after[dev] == before[dev])
         && after[dev] == before[dev].(flood := after[dev].flood)
         && (forall ip :: ip in after[dev].flood ==> ip in before[dev].flood || (dev in e.targets && ip == e.ip))
         && (forall ip :: ip in before[dev].flood && !(dev in e.targets && ip == e.ip) ==> ip in after[dev].flood)
  }

  function WithFlood(ls: Links, dev: string, flood: seq<string>): Links
    requires dev in ls
  {
    ls[dev := ls[dev].(flood := flood)]
  }

  /** The flood list after one round: a link that is no VXLAN has none to change. */
  function RoundFlood(l: Link, ip: string, r: Round): seq<string> {
    if !IsVxlan(l.mode) then l.flood
    else (if r.deleted then Without(l.flood, ip) else l.flood) + (if r.appended then [ip] else [])
  }

  lemma AfterDelete(ls: Links, dev: string, ip: string, deleted: bool)
    requires dev in ls && IsVxlan(ls[dev].mode)
    ensures Try(ls, FdbDel(dev, ip), deleted) == WithFlood(ls, dev, if deleted then Without(ls[dev].flood, ip) else ls[dev].flood)
  {
    if ip !in ls[dev].flood {
      WithoutAbsent(ls[dev].flood, ip);
    }
    assert WithFlood(ls, dev, ls[dev].flood) == ls;
  }

  lemma RoundIsFlood(ls: Links, node: string, ip: string, r: Round)
    requires ParseDeviceName(r.name, node).Some? && r.shown && ParseDeviceName(r.name, node).value in ls
    ensures var dev := ParseDeviceName(r.name, node).value;
            AfterRound(ls, node, ip, r) == WithFlood(ls, dev, RoundFlood(ls[dev], ip, r))
  {
    var dev := ParseDeviceName(r.name, node).value;
    if IsVxlan(ls[dev].mode) {
      var flood := if r.deleted then Without(ls[dev].flood, ip) else ls[dev].flood;
      AfterDelete(ls, dev, ip, r.deleted);
      assert flood + [] == flood;
      assert WithFlood(WithFlood(ls, dev, flood), dev, flood + [ip]) == WithFlood(ls, dev, flood + [ip]);
    } else {
      assert WithFlood(ls, dev, ls[dev].flood) == ls;
    }
  }

  lemma RoundFloodOnly(l: Link, ip: string, r: Round)
    ensures forall x :: x in RoundFlood(l, ip, r) ==> x in l.flood || x == ip
    ensures forall x :: x in l.flood && x != ip ==> x in RoundFlood(l, ip, r)
    ensures IsVxlan(l.mode) && r.appended && r.deleted == (ip in l.flood) ==> RoundFlood(l, ip, r) == Touch(l.flood, ip)
  {
    WithoutDrops(l.flood, ip);
    if ip !in l.flood {
      WithoutAbsent(l.flood, ip);
    }
  }

  lemma FloodsOnlyGrows(a: Links, b: Links, targets: set<string>, dev: string, ip: string, flood: seq<string>)
    requires FloodsOnly(a, b, Event(targets, ip)) && dev in b
    requires forall x :: x in flood ==> x in b[dev].flood || x == ip
    requires forall x :: x in b[dev].flood && x != ip ==> x in flood
    ensures FloodsOnly(a, WithFlood(b, dev, flood), Event(targets + {dev}, ip))
  {
  }

  lemma TouchPresent(ls: Links, done: set<string>, dev: string, ip: string)
    requires dev in ls
    ensures var now := Touched(ls, done, ip);
            Touched(ls, done + {dev}, ip)
            == WithFlood(now, dev, if IsVxlan(ls[dev].mode) then Touch(now[dev].flood, ip) else now[dev].flood)
  {
    TouchTwice(ls[dev].flood, ip);
    var now, after := Touched(ls, done, ip), Touched(ls, done + {dev}, ip);
    var flood := if IsVxlan(ls[dev].mode) then Touch(now[dev].flood, ip) else now[dev].flood;
    forall d | d in ls ensures after[d] == WithFlood(now, dev, flood)[d] {
    }
  }

  lemma DevicesSnoc(node: string, names: seq<string>, name: string)
    ensures Devices(node, names + [name])
            == Devices(node, names) + (if ParseDeviceName(name, node).Some? then {ParseDeviceName(name, node).value} else {})
  {
  }

  /** What the rounds amount to: floods of the listed devices only, and under luck the whole event. */
  lemma {:induction false} RoundsTouch(ls: Links, node: string, ip: string, rounds: seq<Round>)
    ensures FloodsOnly(ls, AfterRounds(ls, node, ip, rounds), Event(Devices(node, NamesOf(rounds)), ip))
    ensures RoundsLucky(ls, node, ip, rounds) ==> AfterRounds(ls, node, ip, rounds) == Touched(ls, Devices(node, NamesOf(rounds)), ip)
  {
    if rounds == [] {
      assert Touched(ls, {}, ip) == ls && NamesOf(rounds) == [] && Devices(node, []) == {};
    } else {
      var init, r := rounds[..|rounds| - 1], rounds[|rounds| - 1];
      RoundsTouch(ls, node, ip, init);
      assert NamesOf(rounds) == NamesOf(init) + [r.name];
      DevicesSnoc(node, NamesOf(init), r.name);
      RoundTouches(ls, AfterRounds(ls, node, ip, init), node, ip, Devices(node, NamesOf(init)), r);
    }
  }

  lemma RoundTouches(ls: Links, now: Links, node: string, ip: string, targets: set<string>, r: Round)
    requires FloodsOnly(ls, now, Event(targets, ip))
    ensures var dev := ParseDeviceName(r.name, node);
            var targets' := targets + (if dev.Some? then {dev.value} else {});
            && FloodsOnly(ls, AfterRound(now, node, ip, r), Event(targets', ip))
            && (now == Touched(ls, targets, ip) && RoundLucky(now, node, ip, r) ==> AfterRound(now, node, ip, r) == Touched(ls, targets', ip))
  {
    var dev := ParseDeviceName(r.name, node);
    if dev.None? {
      assert targets + {} == targets;
    } else if dev.value !in ls {
      assert Touched(ls, targets + {dev.value}, ip) == Touched(ls, targets, ip);
    } else {
      TouchPresent(ls, targets, dev.value, ip);
      if r.shown {
        RoundIsFlood(now, node, ip, r);
        RoundFloodOnly(now[dev.value], ip, r);
        FloodsOnlyGrows(ls, now, targets, dev.value, ip, RoundFlood(now[dev.value], ip, r));
      }
    }
  }
}
