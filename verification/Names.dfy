/**
 * CR names: the manager writes `{node}.{device}` and the agent takes the device name back out.
 * Node names may contain dots; the laws below say exactly when that is harmless.
 */
module Names {
  import opened Base

  function Join(node: string, dev: string): string {
    node + "." + dev
  }

  /** The agent's parser: None stands for the "does not match node" error. */
  function ParseDeviceName(crName: string, nodeName: string): Option<string> {
    var prefix := nodeName + ".";
    if prefix <= crName then Some(crName[|prefix|..]) else None
  }

  predicate DotFree(dev: string) {
    '.' !in dev
  }

  /** The CR name is one the manager gives to some dot-free device on this node. */
  predicate WellNamed(crName: string, node: string) {
    var dev := ParseDeviceName(crName, node);
    dev.Some? && DotFree(dev.value)
  }

  /** Node n2 continues n1 past a dot, and d1 starts with that continuation. */
  ghost predicate Shifted(n1: string, d1: string, n2: string, d2: string) {
    exists x :: n2 == Join(n1, x) && d1 == Join(x, d2)
  }

  lemma ParseInvertsJoin(crName: string, node: string, dev: string)
    ensures ParseDeviceName(crName, node) == Some(dev) <==> crName == Join(node, dev)
  {
    var prefix := node + ".";
    assert Join(node, dev)[|prefix|..] == dev;
    if prefix <= crName {
      assert crName == prefix + crName[|prefix|..];
    }
  }

  /** Two (node, device) pairs share a CR name exactly when they are equal or one is a shift of the other. */
  lemma CollisionIffShifted(n1: string, d1: string, n2: string, d2: string)
    ensures Join(n1, d1) == Join(n2, d2) <==>
            (n1 == n2 && d1 == d2) || Shifted(n1, d1, n2, d2) || Shifted(n2, d2, n1, d1)
  {
    if Join(n1, d1) == Join(n2, d2) {
      if |n1| < |n2| {
        ShiftFrom(n1, d1, n2, d2);
      } else if |n2| < |n1| {
        ShiftFrom(n2, d2, n1, d1);
      } else {
        assert n1 == Join(n1, d1)[..|n1|] == n2;
        assert d1 == Join(n1, d1)[|n1| + 1..] == d2;
      }
    }
    if Shifted(n1, d1, n2, d2) {
      ShiftCollides(n1, d1, n2, d2);
    }
    if Shifted(n2, d2, n1, d1) {
      ShiftCollides(n2, d2, n1, d1);
    }
  }

  lemma ShiftFrom(n1: string, d1: string, n2: string, d2: string)
    requires Join(n1, d1) == Join(n2, d2) && |n1| < |n2|
    ensures Shifted(n1, d1, n2, d2)
  {
    var whole := Join(n1, d1);
    var x := n2[|n1| + 1..];
    assert n2 == whole[..|n2|] && n2[..|n1|] == whole[..|n1|] == n1 && n2[|n1|] == whole[|n1|] == '.';
    assert n2 == Join(n1, x);
    assert d1 == whole[|n1| + 1..] == x + whole[|n2|..] && whole[|n2|..] == "." + d2;
    assert d1 == Join(x, d2);
  }

  lemma ShiftCollides(n1: string, d1: string, n2: string, d2: string)
    requires Shifted(n1, d1, n2, d2)
    ensures Join(n1, d1) == Join(n2, d2)
  {
    var x :| n2 == Join(n1, x) && d1 == Join(x, d2);
    assert n1 + "." + (x + "." + d2) == (n1 + "." + x) + "." + d2;
  }

  lemma ShiftedHasDot(n1: string, d1: string, n2: string, d2: string)
    ensures Shifted(n1, d1, n2, d2) ==> !DotFree(d1)
  {
    if Shifted(n1, d1, n2, d2) {
      var x :| n2 == Join(n1, x) && d1 == Join(x, d2);
      assert d1[|x|] == '.';
    }
  }

  /** With dot-free devices a CR name belongs to one node and one device. */
  lemma OwnerIsUnique(crName: string, n1: string, n2: string)
    requires WellNamed(crName, n1) && WellNamed(crName, n2)
    ensures n1 == n2
  {
    var d1, d2 := ParseDeviceName(crName, n1).value, ParseDeviceName(crName, n2).value;
    ParseInvertsJoin(crName, n1, d1);
    ParseInvertsJoin(crName, n2, d2);
    CollisionIffShifted(n1, d1, n2, d2);
    ShiftedHasDot(n1, d1, n2, d2);
    ShiftedHasDot(n2, d2, n1, d1);
  }

  /** The node a name belongs to when devices are dot-free: the part before the last dot. */
  function OwnerOf(crName: string): Option<string> {
    if crName == "" then None
    else if crName[|crName| - 1] == '.' then Some(crName[..|crName| - 1])
    else OwnerOf(crName[..|crName| - 1])
  }

  lemma {:induction false} OwnerOfJoin(node: string, dev: string)
    requires DotFree(dev)
    ensures OwnerOf(Join(node, dev)) == Some(node)
  {
    if dev == "" {
      assert Join(node, dev)[..|node|] == node;
    } else {
      OwnerOfJoin(node, dev[..|dev| - 1]);
      assert Join(node, dev)[..|Join(node, dev)| - 1] == Join(node, dev[..|dev| - 1]);
    }
  }

  lemma {:induction false} OwnerSplits(crName: string)
    requires OwnerOf(crName).Some?
    ensures WellNamed(crName, OwnerOf(crName).value)
  {
    var last := |crName| - 1;
    if crName[last] == '.' {
      assert crName == Join(crName[..last], "");
      ParseInvertsJoin(crName, crName[..last], "");
    } else {
      OwnerSplits(crName[..last]);
      var node := OwnerOf(crName).value;
      var dev := ParseDeviceName(crName[..last], node).value;
      ParseInvertsJoin(crName[..last], node, dev);
      assert crName == Join(node, dev + [crName[last]]);
      ParseInvertsJoin(crName, node, dev + [crName[last]]);
    }
  }

  /** A name is well formed for a node exactly when that node is its owner. */
  lemma WellNamedIffOwner(crName: string, node: string)
    ensures WellNamed(crName, node) <==> OwnerOf(crName) == Some(node)
  {
    if WellNamed(crName, node) {
      var dev := ParseDeviceName(crName, node).value;
      ParseInvertsJoin(crName, node, dev);
      OwnerOfJoin(node, dev);
    }
    if OwnerOf(crName).Some? {
      OwnerSplits(crName);
    }
  }

  /** Without that hypothesis node `a` accepts the CR of node `a.b` as a device of its own. */
  lemma DottedNodeIsAmbiguous()
    ensures ParseDeviceName(Join("a.b", "br0"), "a") == Some("b.br0")
    ensures ParseDeviceName(Join("a.b", "br0"), "a.b") == Some("br0")
    ensures !WellNamed(Join("a.b", "br0"), "a")
  {
    assert Join("a.b", "br0") == Join("a", "b.br0");
    ParseInvertsJoin(Join("a.b", "br0"), "a", "b.br0");
    ParseInvertsJoin(Join("a.b", "br0"), "a.b", "br0");
    assert "b.br0"[1] == '.';
  }
}
