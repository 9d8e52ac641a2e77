/** The vmap compilers: a vmap maps each virtual endpoint `(vswitch, vport)`
    to the physical endpoints `(switch, port)` that realise it.  From it come
    the ingress policy (admit packets arriving at a mapped physical inport),
    the egress policy (strip packets leaving by the physical outport of their
    virtual destination) and the seeding of a virtual topology. */
module VMapCompiler {
  import opened NetCore
  import opened Transcode

  datatype Endpoint = Endpoint(sw: Value, port: Value)

  /** One `(vsw, vp): switches` item of the vmap dictionary. */
  datatype Entry = Entry(virt: Endpoint, phys: seq<Endpoint>)

  /** The vmap, in the dictionary's iteration order. */
  type VMap = seq<Entry>

  /** No physical endpoint serves two entries. */
  predicate NonOverlapping(vmap: VMap) {
    forall i, j, e :: 0 <= i < |vmap| && 0 <= j < |vmap| && i != j && e in vmap[i].phys ==>
      e !in vmap[j].phys
  }

  /** The physical location of a packet: its `switch` and the top of
      `portField` (`inport` on arrival, `outport` on departure). */
  function Location(p: Packet, portField: Field): Option<Endpoint> {
    match Top(p, Switch)
    case None => None
    case Some(s) =>
      match Top(p, portField)
      case None => None
      case Some(pt) => Some(Endpoint(s, pt))
  }

  /** The virtual destination a lowered packet carries. */
  function VirtualDest(p: Packet): Option<Endpoint> {
    match Top(p, VSwitch)
    case None => None
    case Some(s) =>
      match Top(p, VOutport)
      case None => None
      case Some(pt) => Some(Endpoint(s, pt))
  }

  /** Some entry of the vmap lists `loc` among its physical endpoints. */
  predicate MappedAt(vmap: VMap, loc: Option<Endpoint>) {
    loc.Some? && exists i :: 0 <= i < |vmap| && loc.value in vmap[i].phys
  }

  /** `match(switch=sw, <portField>=p)` */
  function AtPort(e: Endpoint, portField: Field): Pred {
    Match2(Switch, e.sw, portField, e.port)
  }

  /** `union(match(switch=sw, <portField>=p) for (sw, p) in switches)` */
  function SwitchPred(phys: seq<Endpoint>, portField: Field): Pred {
    UnionOf(seq(|phys|, i requires 0 <= i < |phys| => AtPort(phys[i], portField)))
  }

  lemma SwitchPredHolds(phys: seq<Endpoint>, portField: Field, p: Packet)
    requires portField != Switch
    ensures Holds(SwitchPred(phys, portField), p) <==>
              Location(p, portField).Some? && Location(p, portField).value in phys
  {
    var cs := seq(|phys|, i requires 0 <= i < |phys| => AtPort(phys[i], portField));
    UnionOfHolds(cs, p);
    if Location(p, portField).Some? && Location(p, portField).value in phys {
      var i :| 0 <= i < |phys| && phys[i] == Location(p, portField).value;
      assert Holds(cs[i], p);
    }
  }

  // ---------------------------------------------------------------- ingress

  function IngressPreds(vmap: VMap): seq<Pred> {
    seq(|vmap|, i requires 0 <= i < |vmap| => SwitchPred(vmap[i].phys, Inport))
  }

  /** `push(vtag='ingress', vswitch=vsw, vinport=vp)` */
  function AdmitPolicy(v: Endpoint): Policy {
    Seq(PushField(VTag, INGRESS), Seq(PushField(VSwitch, v.sw), PushField(VInport, v.port)))
  }

  function Admit(p: Packet, v: Endpoint): Packet {
    Push(Push(Push(p, VTag, INGRESS), VSwitch, v.sw), VInport, v.port)
  }

  function Admitters(vmap: VMap): seq<Policy> {
    seq(|vmap|, i requires 0 <= i < |vmap| =>
      Restrict(SwitchPred(vmap[i].phys, Inport), AdmitPolicy(vmap[i].virt)))
  }

  /** `vmap_to_ingress_policy`: `non_ingress[passthrough] | parallel(...)`. */
  function IngressPolicy(vmap: VMap): Policy {
    Par(Restrict(Not(UnionOf(IngressPreds(vmap))), Passthrough), ParallelOf(Admitters(vmap)))
  }

  lemma EvalAdmit(env: Env, p: Packet, v: Endpoint)
    ensures Eval(env, AdmitPolicy(v), p) == {Admit(p, v)}
  {
    var p1 := Push(p, VTag, INGRESS);
    var p2 := Push(p1, VSwitch, v.sw);
    SeqSingleton(env, PushField(VSwitch, v.sw), PushField(VInport, v.port), p1, p2);
    SeqSingleton(env, PushField(VTag, INGRESS),
                 Seq(PushField(VSwitch, v.sw), PushField(VInport, v.port)), p, p1);
  }

  /** Admission pushes the three ingress fields on top and nothing else. */
  lemma AdmitStacks(p: Packet, v: Endpoint)
    ensures StackOf(Admit(p, v), VTag) == [INGRESS] + StackOf(p, VTag)
    ensures StackOf(Admit(p, v), VSwitch) == [v.sw] + StackOf(p, VSwitch)
    ensures StackOf(Admit(p, v), VInport) == [v.port] + StackOf(p, VInport)
    ensures forall f :: f != VTag && f != VSwitch && f != VInport ==>
              StackOf(Admit(p, v), f) == StackOf(p, f)
    ensures IngressTagged(Admit(p, v)) && Admit(p, v) != p
  {
    assert StackOf(Admit(p, v), VTag) == [INGRESS] + StackOf(p, VTag);
    assert |StackOf(Admit(p, v), VTag)| != |StackOf(p, VTag)|;
  }

  lemma IngressPredsHold(vmap: VMap, p: Packet)
    ensures Holds(UnionOf(IngressPreds(vmap)), p) <==> MappedAt(vmap, Location(p, Inport))
  {
    var cs := IngressPreds(vmap);
    UnionOfHolds(cs, p);
    forall i | 0 <= i < |vmap|
      ensures Holds(cs[i], p) <==> Location(p, Inport).Some? && Location(p, Inport).value in vmap[i].phys
    {
      SwitchPredHolds(vmap[i].phys, Inport, p);
    }
  }

  /** Every output of the ingress policy is either the packet itself, when
      no entry lists its `(switch, inport)`, or the packet admitted under
      the key of an entry that does. */
  lemma {:induction false} IngressSemantics(env: Env, vmap: VMap, p: Packet, q: Packet)
    ensures q in Eval(env, IngressPolicy(vmap), p) <==>
      || (!MappedAt(vmap, Location(p, Inport)) && q == p)
      || (exists i :: 0 <= i < |vmap| && Location(p, Inport).Some? &&
            Location(p, Inport).value in vmap[i].phys && q == Admit(p, vmap[i].virt))
  {
    var loc := Location(p, Inport);
    var ps := Admitters(vmap);
    IngressPredsHold(vmap, p);
    var pass := Restrict(Not(UnionOf(IngressPreds(vmap))), Passthrough);
    assert Eval(env, pass, p) == if MappedAt(vmap, loc) then {} else {p};
    assert Eval(env, IngressPolicy(vmap), p) == Eval(env, pass, p) + Eval(env, ParallelOf(ps), p);
    ParallelOfEval(env, ps, p, q);
    forall i | 0 <= i < |vmap|
      ensures q in Eval(env, ps[i], p) <==>
        loc.Some? && loc.value in vmap[i].phys && q == Admit(p, vmap[i].virt)
    {
      SwitchPredHolds(vmap[i].phys, Inport, p);
      EvalAdmit(env, p, vmap[i].virt);
    }
    if exists i :: 0 <= i < |ps| && q in Eval(env, ps[i], p) {
      var i :| 0 <= i < |ps| && q in Eval(env, ps[i], p);
      assert loc.Some? && loc.value in vmap[i].phys && q == Admit(p, vmap[i].virt);
    }
    if exists i :: 0 <= i < |vmap| && loc.Some? && loc.value in vmap[i].phys && q == Admit(p, vmap[i].virt) {
      var i :| 0 <= i < |vmap| && loc.Some? && loc.value in vmap[i].phys && q == Admit(p, vmap[i].virt);
      assert q in Eval(env, ps[i], p);
      assert q in Eval(env, ParallelOf(ps), p);
    }
  }

  /** A packet at no mapped physical inport passes through unchanged, and
      only once. */
  lemma IngressPassesUnmapped(env: Env, vmap: VMap, p: Packet)
    requires !MappedAt(vmap, Location(p, Inport))
    ensures Eval(env, IngressPolicy(vmap), p) == {p}
  {
    forall q ensures q in Eval(env, IngressPolicy(vmap), p) <==> q == p {
      IngressSemantics(env, vmap, p, q);
    }
  }

  /** A packet at a physical inport of exactly one entry comes out once,
      admitted under that entry's key; the unchanged copy is not emitted. */
  lemma IngressAdmitsMapped(env: Env, vmap: VMap, p: Packet, i: int)
    requires 0 <= i < |vmap|
    requires Location(p, Inport).Some? && Location(p, Inport).value in vmap[i].phys
    requires forall j :: 0 <= j < |vmap| && j != i ==> Location(p, Inport).value !in vmap[j].phys
    ensures Eval(env, IngressPolicy(vmap), p) == {Admit(p, vmap[i].virt)}
    ensures p !in Eval(env, IngressPolicy(vmap), p)
  {
    AdmitStacks(p, vmap[i].virt);
    forall q ensures q in Eval(env, IngressPolicy(vmap), p) <==> q == Admit(p, vmap[i].virt) {
      IngressSemantics(env, vmap, p, q);
    }
  }

  /** In a non-overlapping vmap, a packet at any mapped physical inport is
      admitted exactly once, under the key of the entry that lists it. */
  lemma IngressExclusive(env: Env, vmap: VMap, p: Packet, i: int)
    requires NonOverlapping(vmap)
    requires 0 <= i < |vmap|
    requires Location(p, Inport).Some? && Location(p, Inport).value in vmap[i].phys
    ensures Eval(env, IngressPolicy(vmap), p) == {Admit(p, vmap[i].virt)}
  {
    IngressAdmitsMapped(env, vmap, p, i);
  }

  // ----------------------------------------------------------------- egress

  function EgressMatches(vmap: VMap): seq<Pred> {
    seq(|vmap|, i requires 0 <= i < |vmap| => SwitchPred(vmap[i].phys, Outport))
  }

  /** `match(vswitch=vsw, voutport=vp) & switch_pred` */
  function ValidEgress(e: Entry): Pred {
    And(Match2(VSwitch, e.virt.sw, VOutport, e.virt.port), SwitchPred(e.phys, Outport))
  }

  function ValidEgressMatches(vmap: VMap): seq<Pred> {
    seq(|vmap|, i requires 0 <= i < |vmap| => ValidEgress(vmap[i]))
  }

  /** The egress policy `vmap_to_egress_policy` builds:
      `if_(union(matches_egress), union(valid_match_egress)[pop_vheaders], passthrough)`. */
  function EgressPolicyOf(vmap: VMap): Policy {
    If(UnionOf(EgressMatches(vmap)),
       Restrict(UnionOf(ValidEgressMatches(vmap)), StripPolicy()),
       Passthrough)
  }

  /** `vmap_to_egress_policy`: collects the two predicate lists entry by
      entry, then assembles the policy. */
  method EgressPolicy(vmap: VMap) returns (pol: Policy)
    ensures pol == EgressPolicyOf(vmap)
  {
    var matchesEgress: seq<Pred> := [];
    var validMatchEgress: seq<Pred> := [];
    var i := 0;
    while i < |vmap|
      invariant 0 <= i <= |vmap|
      invariant |matchesEgress| == i && |validMatchEgress| == i
      invariant forall k :: 0 <= k < i ==> matchesEgress[k] == SwitchPred(vmap[k].phys, Outport)
      invariant forall k :: 0 <= k < i ==> validMatchEgress[k] == ValidEgress(vmap[k])
    {
      var switchPred := SwitchPred(vmap[i].phys, Outport);
      matchesEgress := matchesEgress + [switchPred];
      validMatchEgress := validMatchEgress + [And(Match2(VSwitch, vmap[i].virt.sw, VOutport, vmap[i].virt.port), switchPred)];
      i := i + 1;
    }
    assert matchesEgress == EgressMatches(vmap);
    assert validMatchEgress == ValidEgressMatches(vmap);
    pol := If(UnionOf(matchesEgress), Restrict(UnionOf(validMatchEgress), StripPolicy()), Passthrough);
  }

  /** Some entry lists `loc` as a physical endpoint AND has the packet's
      virtual destination as key. */
  predicate ArrivedAt(vmap: VMap, p: Packet) {
    var loc := Location(p, Outport);
    loc.Some? && exists i :: 0 <= i < |vmap| && loc.value in vmap[i].phys && VirtualDest(p) == Some(vmap[i].virt)
  }

  lemma EgressPredsHold(vmap: VMap, p: Packet)
    ensures Holds(UnionOf(EgressMatches(vmap)), p) <==> MappedAt(vmap, Location(p, Outport))
    ensures Holds(UnionOf(ValidEgressMatches(vmap)), p) <==> ArrivedAt(vmap, p)
  {
    var ms, vs := EgressMatches(vmap), ValidEgressMatches(vmap);
    UnionOfHolds(ms, p);
    UnionOfHolds(vs, p);
    forall i | 0 <= i < |vmap|
      ensures Holds(ms[i], p) <==> Location(p, Outport).Some? && Location(p, Outport).value in vmap[i].phys
      ensures Holds(vs[i], p) <==> Location(p, Outport).Some? && Location(p, Outport).value in vmap[i].phys &&
                                   VirtualDest(p) == Some(vmap[i].virt)
    {
      SwitchPredHolds(vmap[i].phys, Outport, p);
      assert vs[i] == ValidEgress(vmap[i]);
      var e := vmap[i].virt;
      assert Holds(Match2(VSwitch, e.sw, VOutport, e.port), p) <==> VirtualDest(p) == Some(e);
    }
  }

  /** The egress policy, case by case: a packet at no mapped physical
      outport passes unchanged; at a mapped outport it is stripped when that
      outport belongs to its own virtual destination, and dropped
      otherwise. */
  lemma EgressSemantics(env: Env, vmap: VMap, p: Packet)
    ensures Eval(env, EgressPolicyOf(vmap), p) ==
      if !MappedAt(vmap, Location(p, Outport)) then {p}
      else if ArrivedAt(vmap, p) then {Strip(p)}
      else {}
  {
    EgressPredsHold(vmap, p);
    var strip := Restrict(UnionOf(ValidEgressMatches(vmap)), StripPolicy());
    if MappedAt(vmap, Location(p, Outport)) {
      assert Eval(env, EgressPolicyOf(vmap), p) == Eval(env, strip, p);
      if ArrivedAt(vmap, p) {
        EvalStrip(env, p);
      }
    }
  }

  /** A packet leaving by a physical outport of entry `i` whose virtual
      destination is `i`'s key loses its virtual headers, and only those. */
  lemma EgressStrips(env: Env, vmap: VMap, p: Packet, i: int)
    requires 0 <= i < |vmap|
    requires Location(p, Outport).Some? && Location(p, Outport).value in vmap[i].phys
    requires VirtualDest(p) == Some(vmap[i].virt)
    ensures Eval(env, EgressPolicyOf(vmap), p) == {Strip(p)}
    ensures forall f :: !IsVirtualField(f) ==> StackOf(Strip(p), f) == StackOf(p, f)
    ensures forall f :: IsVirtualField(f) ==> StackOf(Strip(p), f) == Tail(StackOf(p, f))
  {
    EgressSemantics(env, vmap, p);
    StripEffect(p);
  }

  /** A packet at a physical outport no entry lists passes unchanged. */
  lemma EgressPassesElsewhere(env: Env, vmap: VMap, p: Packet)
    requires !MappedAt(vmap, Location(p, Outport))
    ensures Eval(env, EgressPolicyOf(vmap), p) == {p}
  {
    EgressSemantics(env, vmap, p);
  }

  /** A packet at a mapped physical outport that belongs to no entry keyed
      by its virtual destination yields nothing. */
  lemma EgressDropsMisrouted(env: Env, vmap: VMap, p: Packet)
    requires MappedAt(vmap, Location(p, Outport))
    requires forall i :: 0 <= i < |vmap| && Location(p, Outport).value in vmap[i].phys ==>
               VirtualDest(p) != Some(vmap[i].virt)
    ensures Eval(env, EgressPolicyOf(vmap), p) == {}
  {
    EgressSemantics(env, vmap, p);
  }

  // --------------------------------------------------------------- topology

  datatype Port = Port(portNo: Value)

  type PortMap = map<Value, Port>

  /** The topology `add_nodes_from_vmap` extends: each switch with the port
      map held in its `ports` attribute. */
  class Topology {
    var node: map<Value, PortMap>

    constructor ()
      ensures node == map[]
    {
      node := map[];
    }

    /** `add_node(switch, ports=...)` */
    method AddNode(sw: Value, ports: PortMap)
      modifies this
      ensures node == old(node)[sw := ports]
    {
      node := node[sw := ports];
    }
  }

  function PortsOf(t: map<Value, PortMap>, sw: Value): PortMap {
    if sw in t then t[sw] else map[]
  }

  /** One key `(vsw, vp)` made port `vp` of switch `vsw`. */
  function SeedOne(t: map<Value, PortMap>, k: Endpoint): map<Value, PortMap> {
    t[k.sw := PortsOf(t, k.sw)[k.port := Port(k.port)]]
  }

  /** The topology after seeding the keys of `vmap` in order. */
  function SeedAll(t: map<Value, PortMap>, vmap: VMap): map<Value, PortMap>
    decreases |vmap|
  {
    if vmap == [] then t
    else SeedOne(SeedAll(t, vmap[..|vmap| - 1]), vmap[|vmap| - 1].virt)
  }

  /** `add_nodes_from_vmap`: every key `(vsw, vp)` of the vmap becomes port
      `vp` of switch `vsw`, extending the switch's ports when it exists and
      adding the switch otherwise. */
  method AddNodesFromVMap(vmap: VMap, vtopo: Topology)
    modifies vtopo
    ensures vtopo.node == SeedAll(old(vtopo.node), vmap)
  {
    var i := 0;
    while i < |vmap|
      invariant 0 <= i <= |vmap|
      invariant vtopo.node == SeedAll(old(vtopo.node), vmap[..i])
    {
      var k := vmap[i].virt;
      var port := Port(k.port);
      if k.sw in vtopo.node {
        vtopo.node := vtopo.node[k.sw := vtopo.node[k.sw][k.port := port]];
      } else {
        vtopo.AddNode(k.sw, map[k.port := port]);
      }
      assert vmap[..i + 1][..i] == vmap[..i];
      i := i + 1;
    }
    assert vmap[..|vmap|] == vmap;
  }

  predicate IsKey(vmap: VMap, e: Endpoint) {
    exists i :: 0 <= i < |vmap| && vmap[i].virt == e
  }

  predicate KeysSwitch(vmap: VMap, sw: Value) {
    exists i :: 0 <= i < |vmap| && vmap[i].virt.sw == sw
  }

  /** The seeded topology, switch by switch and port by port: a switch is
      present iff it was or some key names it; a port is present iff it was
      or it is a key; a key's port is `Port(vp)`, any other port is kept. */
  lemma {:induction false} SeededPort(t: map<Value, PortMap>, vmap: VMap, sw: Value, pt: Value)
    ensures sw in SeedAll(t, vmap) <==> sw in t || KeysSwitch(vmap, sw)
    ensures pt in PortsOf(SeedAll(t, vmap), sw) <==> IsKey(vmap, Endpoint(sw, pt)) || pt in PortsOf(t, sw)
    ensures pt in PortsOf(SeedAll(t, vmap), sw) ==>
      PortsOf(SeedAll(t, vmap), sw)[pt] ==
        if IsKey(vmap, Endpoint(sw, pt)) then Port(pt) else PortsOf(t, sw)[pt]
    decreases |vmap|
  {
    if vmap != [] {
      var init, k := vmap[..|vmap| - 1], vmap[|vmap| - 1].virt;
      SeededPort(t, init, sw, pt);
      var e := Endpoint(sw, pt);
      assert IsKey(vmap, e) <==> IsKey(init, e) || k == e by {
        if IsKey(init, e) {
          var i :| 0 <= i < |init| && init[i].virt == e;
          assert vmap[i].virt == e;
        }
        if IsKey(vmap, e) && k != e {
          var i :| 0 <= i < |vmap| && vmap[i].virt == e;
          assert init[i].virt == e;
        }
      }
      assert KeysSwitch(vmap, sw) <==> KeysSwitch(init, sw) || k.sw == sw by {
        if KeysSwitch(init, sw) {
          var i :| 0 <= i < |init| && init[i].virt.sw == sw;
          assert vmap[i].virt.sw == sw;
        }
        if KeysSwitch(vmap, sw) && k.sw != sw {
          var i :| 0 <= i < |vmap| && vmap[i].virt.sw == sw;
          assert init[i].virt.sw == sw;
        }
      }
    }
  }

  /** Seeding keys that are all present already changes nothing. */
  lemma {:induction false} SeedAbsorbs(t: map<Value, PortMap>, vmap: VMap)
    requires forall i :: 0 <= i < |vmap| ==>
      vmap[i].virt.sw in t && vmap[i].virt.port in t[vmap[i].virt.sw] &&
      t[vmap[i].virt.sw][vmap[i].virt.port] == Port(vmap[i].virt.port)
    ensures SeedAll(t, vmap) == t
    decreases |vmap|
  {
    if vmap != [] {
      var init, k := vmap[..|vmap| - 1], vmap[|vmap| - 1].virt;
      SeedAbsorbs(t, init);
      assert t[k.sw][k.port := Port(k.port)] == t[k.sw];
    }
  }

  /** Seeding twice with the same vmap changes nothing further. */
  lemma SeededIdempotent(t: map<Value, PortMap>, vmap: VMap)
    ensures SeedAll(SeedAll(t, vmap), vmap) == SeedAll(t, vmap)
  {
    var s := SeedAll(t, vmap);
    forall i | 0 <= i < |vmap|
      ensures vmap[i].virt.sw in s && vmap[i].virt.port in s[vmap[i].virt.sw] &&
              s[vmap[i].virt.sw][vmap[i].virt.port] == Port(vmap[i].virt.port)
    {
      var k := vmap[i].virt;
      SeededPort(t, vmap, k.sw, k.port);
      assert IsKey(vmap, k);
      assert KeysSwitch(vmap, k.sw);
    }
    SeedAbsorbs(s, vmap);
  }
}
