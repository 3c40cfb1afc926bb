/** What a configured CR reports, read off the CR, its spec and the answers of the lookups. */
module Reports {
  import opened Base
  import opened ApiObjects
  import opened NodeLabels
  import opened Kernel
  import opened Programs
  import opened Asked
  import opened Protocol
  import opened Rank
  import opened Quiescence
  import opened Goal

  /** A configured CR is live with its finalizer and says how its configuration ends. */
  lemma ConfiguredIsReported(e: Env, s: State, key: CrKey)
    requires key in s.crs.objs && KeyDone(e, s, key)
    ensures var c := s.crs.objs[key]; var end := Outcome(e, key, c.spec, LinksOf(s, HostOf(key)));
            && c.finalizer && !c.terminating
            && c.status.ready == Some(if end.Aborted? then Condition(false, end.reason, c.generation) else Condition(true, "Configured", c.generation))
  {
    var c := s.crs.objs[key];
    OutcomeEnds(e, key, c.spec, LinksOf(s, HostOf(key)));
  }

  lemma OutcomeEnds(e: Env, key: CrKey, spec: Spec, ls: Links)
    ensures Ended(Outcome(e, key, spec, ls))
  {
  }

  /** If its configuration succeeds, its device is there, its Node carries its label, and its address is recorded. */
  lemma ConfiguredFromSpec(e: Env, s: State, key: CrKey)
    requires key in s.crs.objs && KeyDone(e, s, key)
    requires Outcome(e, key, s.crs.objs[key].spec, LinksOf(s, HostOf(key))).Finished?
    ensures var c := s.crs.objs[key]; var n := HostOf(key);
            && DevOf(key) in LinksOf(s, n)
            && NodeLabels.Read(LabelsOf(s, n), DeviceLabel(key.kind, DevOf(key))) == LabelOf(c.spec)
            && (c.spec.OfVxlan? ==> forall ip :: AddressIs(c.spec.vxlan, e.detected(key, c.spec), ip) && ip != "" ==> c.status.localIP == ip)
  {
    var c := s.crs.objs[key];
    if DevOf(key) !in LinksOf(s, HostOf(key)) {
      FinishedMakes(e, key, c.spec, LinksOf(s, HostOf(key)));
    }
    if c.spec.OfVxlan? {
      forall ip | AddressIs(c.spec.vxlan, e.detected(key, c.spec), ip) && ip != "" ensures IPFor(e, key, c.spec) == ip {
        AddressIff(c.spec.vxlan, e.detected(key, c.spec), ip);
      }
    }
  }

  /** A configuration that succeeds makes the device if it is missing. */
  lemma FinishedMakes(e: Env, key: CrKey, spec: Spec, ls: Links)
    requires Outcome(e, key, spec, ls).Finished? && DevOf(key) !in ls
    ensures HasAdd(ProgramFor(e, key, spec))
  {
    var p := ProgramFor(e, key, spec);
    assert p.Test? && p.no.Must? && p.no.cmd.LinkAdd?;
    assert HasAdd(p.no);
  }
}
