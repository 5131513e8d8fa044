/** The host list of the script's entry point: the management addresses of
    the Kaizen racks, then of the Kumo nodes, in a fixed order. */
module Hosts {
  import opened Text

  /** The racks whose units 1 to 41 are Kaizen nodes, in the order visited. */
  const Racks: seq<nat> := [3, 5, 15, 17, 19]

  /** Units per rack: `range(1, 42)`. */
  const UnitsPerRack: nat := 41

  /** The four parts of an IPv4 address. */
  datatype Quad = Quad(a: nat, b: nat, c: nat, d: nat)

  /** The dotted text of an address. */
  function Dotted(q: Quad): string
  {
    Decimal(q.a) + "." + Decimal(q.b) + "." + Decimal(q.c) + "." + Decimal(q.d)
  }

  /** The `k`-th address of the list: the Kaizen units rack by rack, then
      `10.0.23.101`..`116`, then `10.1.10.1`..`16`, then the Kumo storage
      node `10.0.23.11`. */
  function HostQuad(k: nat): Quad
    requires k < 238
  {
    if k < 205 then Quad(10, 0, Racks[k / UnitsPerRack], k % UnitsPerRack + 1)
    else if k < 221 then Quad(10, 0, 23, 101 + (k - 205))
    else if k < 237 then Quad(10, 1, 10, 1 + (k - 221))
    else Quad(10, 0, 23, 11)
  }

  /** The whole list, `all_nodes`. */
  function AllNodes(): seq<string>
  {
    seq(238, k requires 0 <= k < 238 => Dotted(HostQuad(k)))
  }

  lemma NoDotInDecimal(n: nat)
    ensures '.' !in Decimal(n)
  {
    DecimalRoundTrip(n);
    forall k | 0 <= k < |Decimal(n)| ensures Decimal(n)[k] != '.' {
      assert IsDigit(Decimal(n)[k]);
    }
  }

  /** Different addresses have different texts. */
  lemma DottedInjective(q: Quad, q': Quad)
    requires Dotted(q) == Dotted(q')
    ensures q == q'
  {
    NoDotInDecimal(q.b);
    NoDotInDecimal(q'.b);
    NoDotInDecimal(q.c);
    NoDotInDecimal(q'.c);
    NoDotInDecimal(q.d);
    NoDotInDecimal(q'.d);
    var ab, ab' := Decimal(q.a) + "." + Decimal(q.b), Decimal(q'.a) + "." + Decimal(q'.b);
    SplitAtLastDot(ab + "." + Decimal(q.c), Decimal(q.d), ab' + "." + Decimal(q'.c), Decimal(q'.d));
    SplitAtLastDot(ab, Decimal(q.c), ab', Decimal(q'.c));
    SplitAtLastDot(Decimal(q.a), Decimal(q.b), Decimal(q'.a), Decimal(q'.b));
    DecimalInjective(q.a, q'.a);
    DecimalInjective(q.b, q'.b);
    DecimalInjective(q.c, q'.c);
    DecimalInjective(q.d, q'.d);
  }

  lemma KaizenPosition(k: nat)
    requires k < 205
    ensures k / UnitsPerRack < 5 && k == UnitsPerRack * (k / UnitsPerRack) + k % UnitsPerRack
  {
  }

  /** Different positions hold different addresses. */
  lemma HostQuadInjective(i: nat, j: nat)
    requires i < 238 && j < 238 && HostQuad(i) == HostQuad(j)
    ensures i == j
  {
    if i < 205 && j < 205 {
      KaizenPosition(i);
      KaizenPosition(j);
      assert Racks[i / UnitsPerRack] == Racks[j / UnitsPerRack];
      assert i / UnitsPerRack == j / UnitsPerRack;
    }
  }

  /** The list as built: 238 addresses, no two alike (the storage node
      `10.0.23.11` is not among `10.0.23.101`..`116`). */
  lemma AllNodesDistinct()
    ensures |AllNodes()| == 238
    ensures forall i, j :: 0 <= i < j < |AllNodes()| ==> AllNodes()[i] != AllNodes()[j]
  {
    forall i, j | 0 <= i < j < 238 ensures AllNodes()[i] != AllNodes()[j] {
      if AllNodes()[i] == AllNodes()[j] {
        DottedInjective(HostQuad(i), HostQuad(j));
        HostQuadInjective(i, j);
      }
    }
  }

  /** The texts of the first parts of the addresses in the list. */
  lemma Prefixes()
    ensures Decimal(10) + "." + Decimal(0) + "." == "10.0."
    ensures Decimal(10) + "." + Decimal(1) + "." == "10.1."
    ensures Decimal(10) + "." + Decimal(0) + "." + Decimal(23) + "." == "10.0.23."
    ensures Decimal(10) + "." + Decimal(1) + "." + Decimal(10) + "." == "10.1.10."
  {
  }

  /** The list starts at unit 1 of rack 3, the Kumo nodes start at position
      205, and the storage node comes last. */
  lemma AllNodesLandmarks()
    ensures AllNodes()[0] == "10.0.3.1"
    ensures AllNodes()[204] == "10.0.19.41"
    ensures AllNodes()[205] == "10.0.23.101"
    ensures AllNodes()[221] == "10.1.10.1"
    ensures AllNodes()[237] == "10.0.23.11"
  {
    Prefixes();
    assert Decimal(3) == "3" && Decimal(1) == "1" && Decimal(19) == "19" && Decimal(41) == "41";
    assert Decimal(101) == "101" && Decimal(11) == "11";
  }

  lemma TakeOneMore(s: seq<string>, k: nat)
    requires k < |s|
    ensures s[..k + 1] == s[..k] + [s[k]]
  {
  }

  /** Unit `unit` of the `r`-th rack is `10.0.<rack>.<unit>`. */
  lemma KaizenNode(r: nat, unit: nat)
    requires r < |Racks| && 1 <= unit <= UnitsPerRack
    ensures UnitsPerRack * r + unit - 1 < 205
    ensures AllNodes()[UnitsPerRack * r + unit - 1] == "10.0." + Decimal(Racks[r]) + "." + Decimal(unit)
  {
    var k := UnitsPerRack * r + unit - 1;
    assert k / UnitsPerRack == r && k % UnitsPerRack == unit - 1;
    assert HostQuad(k) == Quad(10, 0, Racks[r], unit);
    DottedTenZero(Racks[r], unit);
  }

  lemma DottedTenZero(c: nat, d: nat)
    ensures Dotted(Quad(10, 0, c, d)) == "10.0." + Decimal(c) + "." + Decimal(d)
  {
    Prefixes();
  }

  /** The Kumo part of the list: the two comprehensions and the storage
      node. */
  lemma KumoNodes(kumoNodes: seq<string>)
    requires kumoNodes ==
             seq(16, i requires 0 <= i < 16 => "10.0.23." + Decimal(101 + i)) +
             seq(16, i requires 0 <= i < 16 => "10.1.10." + Decimal(1 + i)) +
             ["10.0.23.11"]
    ensures kumoNodes == AllNodes()[205..]
  {
    Prefixes();
    assert "10.0.23." + Decimal(11) == "10.0.23.11";
    forall k | 0 <= k < 33 ensures kumoNodes[k] == AllNodes()[205 + k] {
    }
  }

  /** `__main__`'s list building: the nested loops over racks and units, the
      two comprehensions, the appended storage node, and the concatenation. */
  method BuildHosts() returns (allNodes: seq<string>)
    ensures allNodes == AllNodes()
  {
    var kaizenNodes: seq<string> := [];
    for r := 0 to |Racks|
      invariant kaizenNodes == AllNodes()[..UnitsPerRack * r]
    {
      var rack := Racks[r];
      for unit := 1 to UnitsPerRack + 1
        invariant kaizenNodes == AllNodes()[..UnitsPerRack * r + unit - 1]
      {
        ghost var k := UnitsPerRack * r + unit - 1;
        KaizenNode(r, unit);
        kaizenNodes := kaizenNodes + ["10.0." + Decimal(rack) + "." + Decimal(unit)];
        TakeOneMore(AllNodes(), k);
      }
    }
    var kumoNodes := seq(16, i requires 0 <= i < 16 => "10.0.23." + Decimal(101 + i)) +
                     seq(16, i requires 0 <= i < 16 => "10.1.10." + Decimal(1 + i));
    kumoNodes := kumoNodes + ["10.0.23.11"];
    allNodes := kaizenNodes + kumoNodes;
    KumoNodes(kumoNodes);
    assert allNodes[..205] == AllNodes()[..205];
    assert allNodes[205..] == AllNodes()[205..];
  }
}
