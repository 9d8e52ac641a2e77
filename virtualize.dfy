/** `virtualize_base` and its two factories: one virtual network layered on
    an underlying one.  A packet is handled in three states:
    - tagged 'ingress' by the ingress policy: lifted into the virtual
      namespace, run through the derived policy, lowered with the
      instance's own tag;
    - carrying the instance's own tag: routed on the fabric, then through
      egress;
    - anything else: handed to the underlying policy. */
module Virtualize {
  import opened NetCore
  import opened Transcode
  import opened VMapCompiler

  /** A network as the derived policies see it: its switches and their
      ports. */
  datatype Network = Network(topology: map<Value, PortMap>)

  /** A virtualization definition: the ingress, egress and fabric policies
      and the transformation from the underlying to the virtual network. */
  class VDef {
    const ingress: Policy
    const egress: Policy
    const fabric: Policy
    const transform: Network -> Network

    constructor (ingress: Policy, egress: Policy, fabric: Policy, transform: Network -> Network)
      ensures this.ingress == ingress && this.egress == egress && this.fabric == fabric
      ensures this.transform == transform
    {
      this.ingress := ingress;
      this.egress := egress;
      this.fabric := fabric;
      this.transform := transform;
    }
  }

  /** A policy object that is told which network it runs on. */
  class DerivedPolicy {
    const policy: Policy
    var network: Option<Network>

    constructor (policy: Policy)
      ensures this.policy == policy && network == None
    {
      this.policy := policy;
      network := None;
    }

    method SetNetwork(value: Option<Network>)
      modifies this
      ensures network == value
    {
      network := value;
    }
  }

  /** Replaces `id(self)`: hands out each tag at most once. */
  class TagAllocator {
    var next: int
    ghost var issued: set<int>

    ghost predicate Valid()
      reads this
    {
      forall t :: t in issued ==> t < next
    }

    constructor ()
      ensures Valid() && issued == {}
    {
      next := 0;
      issued := {};
    }

    method Fresh() returns (t: int)
      requires Valid()
      modifies this
      ensures Valid()
      ensures t !in old(issued) && issued == old(issued) + {t}
    {
      t := next;
      next := next + 1;
      issued := issued + {t};
    }
  }

  /** The branch taken for packets the ingress policy tagged 'ingress':
      lift, derived policy, lower with the instance's tag. */
  function IngressBranch(vpolicy: Policy, tag: int): Policy {
    Seq(Seq(LiftPolicy(), vpolicy), LowerPolicy(Int(tag)))
  }

  /** The branch taken after ingress: own-tagged packets go over the fabric
      and through egress, all others to the underlying policy. */
  function OwnBranch(upolicy: Policy, fabric: Policy, egress: Policy, tag: int): Policy {
    If(Test(VTag, Int(tag)), Seq(fabric, egress), upolicy)
  }

  /** The composed policy of a `virtualize_base` instance. */
  function VirtualizePolicy(upolicy: Policy, vpolicy: Policy, ingress: Policy,
                            fabric: Policy, egress: Policy, tag: int): Policy
  {
    Seq(Seq(ingress, If(Test(VTag, INGRESS), IngressBranch(vpolicy, tag), Passthrough)),
        OwnBranch(upolicy, fabric, egress, tag))
  }

  class Virtualization {
    const upolicy: Policy
    const vpolicy: DerivedPolicy
    const vdef: VDef
    const vtag: int
    const policy: Policy
    var network: Option<Network>
    var vnetwork: Option<Network>

    /** The instance's policy is the composed `virtualize_base` policy of
        its own fields. */
    predicate Valid() {
      policy == VirtualizePolicy(upolicy, vpolicy.policy, vdef.ingress,
                                 vdef.fabric, vdef.egress, vtag)
    }

    /** `virtualize_base(upolicy, vpolicy, vdef)` */
    constructor Base(upolicy: Policy, vpolicy: DerivedPolicy, vdef: VDef, alloc: TagAllocator)
      requires alloc.Valid()
      modifies alloc
      ensures alloc.Valid()
      ensures vtag !in old(alloc.issued) && alloc.issued == old(alloc.issued) + {vtag}
      ensures this.upolicy == upolicy && this.vpolicy == vpolicy && this.vdef == vdef
      ensures Valid()
      ensures network == None && vnetwork == None
    {
      var t := alloc.Fresh();
      this.upolicy := upolicy;
      this.vpolicy := vpolicy;
      this.vdef := vdef;
      vtag := t;
      policy := VirtualizePolicy(upolicy, vpolicy.policy, vdef.ingress,
                                 vdef.fabric, vdef.egress, t);
      network := None;
      vnetwork := None;
    }

    /** `virtualize_full(vpolicy, vdef)`: the underlying policy is
        `passthrough`. */
    constructor Full(vpolicy: DerivedPolicy, vdef: VDef, alloc: TagAllocator)
      requires alloc.Valid()
      modifies alloc
      ensures alloc.Valid()
      ensures vtag !in old(alloc.issued) && alloc.issued == old(alloc.issued) + {vtag}
      ensures upolicy == Passthrough && this.vpolicy == vpolicy && this.vdef == vdef
      ensures Valid()
      ensures network == None && vnetwork == None
    {
      var t := alloc.Fresh();
      upolicy := Passthrough;
      this.vpolicy := vpolicy;
      this.vdef := vdef;
      vtag := t;
      policy := VirtualizePolicy(Passthrough, vpolicy.policy, vdef.ingress,
                                 vdef.fabric, vdef.egress, t);
      network := None;
      vnetwork := None;
    }

    /** `virtualize_part(policy, vdef)`: the same policy is both the
        underlying and the derived one. */
    constructor Part(pol: DerivedPolicy, vdef: VDef, alloc: TagAllocator)
      requires alloc.Valid()
      modifies alloc
      ensures alloc.Valid()
      ensures vtag !in old(alloc.issued) && alloc.issued == old(alloc.issued) + {vtag}
      ensures upolicy == pol.policy && vpolicy == pol && this.vdef == vdef
      ensures Valid()
      ensures network == None && vnetwork == None
    {
      var t := alloc.Fresh();
      upolicy := pol.policy;
      vpolicy := pol;
      this.vdef := vdef;
      vtag := t;
      policy := VirtualizePolicy(pol.policy, pol.policy, vdef.ingress,
                                 vdef.fabric, vdef.egress, t);
      network := None;
      vnetwork := None;
    }

    /** `set_network`: the instance runs on `value`, its derived policy on
        the transformed network (none when `value` is none).  The field
        `vnetwork` is left as it was. */
    method SetNetwork(value: Option<Network>)
      modifies this, vpolicy
      ensures network == value
      ensures vpolicy.network == if value.Some? then Some(vdef.transform(value.value)) else None
      ensures vnetwork == old(vnetwork)
    {
      var vnet: Option<Network>;
      if value.Some? {
        vnet := Some(vdef.transform(value.value));
      } else {
        vnet := None;
      }
      network := value;
      vpolicy.SetNetwork(vnet);
    }
  }

  // ------------------------------------------------------- packet behaviour

  /** A packet the ingress policy leaves alone and that carries no 'ingress'
      tag skips the ingress branch. */
  lemma SkipsIngress(env: Env, upolicy: Policy, vpolicy: Policy, ingress: Policy,
                     fabric: Policy, egress: Policy, tag: int, p: Packet)
    requires Eval(env, ingress, p) == {p}
    requires Top(p, VTag) != Some(INGRESS)
    ensures Eval(env, VirtualizePolicy(upolicy, vpolicy, ingress, fabric, egress, tag), p) ==
            Eval(env, OwnBranch(upolicy, fabric, egress, tag), p)
  {
    var first := If(Test(VTag, INGRESS), IngressBranch(vpolicy, tag), Passthrough);
    SeqSingleton(env, ingress, first, p, p);
    assert Eval(env, first, p) == {p};
    SeqSingleton(env, Seq(ingress, first), OwnBranch(upolicy, fabric, egress, tag), p, p);
  }

  /** A packet with neither this instance's tag nor an 'ingress' tag, which
      the ingress policy leaves alone, gets exactly the underlying policy. */
  lemma ForeignGoesUnder(env: Env, upolicy: Policy, vpolicy: Policy, ingress: Policy,
                         fabric: Policy, egress: Policy, tag: int, p: Packet)
    requires Eval(env, ingress, p) == {p}
    requires Top(p, VTag) != Some(INGRESS) && Top(p, VTag) != Some(Int(tag))
    ensures Eval(env, VirtualizePolicy(upolicy, vpolicy, ingress, fabric, egress, tag), p) ==
            Eval(env, upolicy, p)
  {
    SkipsIngress(env, upolicy, vpolicy, ingress, fabric, egress, tag, p);
  }

  /** A packet carrying this instance's tag, which the ingress policy leaves
      alone, is routed on the fabric and then through egress. */
  lemma OwnTaggedInTransit(env: Env, upolicy: Policy, vpolicy: Policy, ingress: Policy,
                           fabric: Policy, egress: Policy, tag: int, p: Packet)
    requires Eval(env, ingress, p) == {p}
    requires Top(p, VTag) == Some(Int(tag))
    ensures Eval(env, VirtualizePolicy(upolicy, vpolicy, ingress, fabric, egress, tag), p) ==
            Then(env, Eval(env, fabric, p), egress)
  {
    SkipsIngress(env, upolicy, vpolicy, ingress, fabric, egress, tag, p);
  }

  /** The ingress branch taken on an ingress-tagged packet `a`: lift, then
      the derived policy, then lower. */
  lemma IngressBranchEval(env: Env, upolicy: Policy, vpolicy: Policy, ingress: Policy,
                          fabric: Policy, egress: Policy, tag: int, p: Packet, a: Packet)
    requires Eval(env, ingress, p) == {a}
    requires Top(a, VTag) == Some(INGRESS)
    ensures Eval(env, VirtualizePolicy(upolicy, vpolicy, ingress, fabric, egress, tag), p) ==
            Then(env, Then(env, Eval(env, vpolicy, Lift(a)), LowerPolicy(Int(tag))),
                 OwnBranch(upolicy, fabric, egress, tag))
  {
    var branch := IngressBranch(vpolicy, tag);
    var first := If(Test(VTag, INGRESS), branch, Passthrough);
    var own := OwnBranch(upolicy, fabric, egress, tag);
    SeqIfTaken(env, ingress, Test(VTag, INGRESS), branch, Passthrough, p, a);
    SeqSingleton(env, ingress, branch, p, a);
    BranchEval(env, vpolicy, tag, a);
    assert Eval(env, Seq(ingress, first), p) ==
           Then(env, Eval(env, vpolicy, Lift(a)), LowerPolicy(Int(tag)));
    assert Eval(env, VirtualizePolicy(upolicy, vpolicy, ingress, fabric, egress, tag), p) ==
           Then(env, Eval(env, Seq(ingress, first), p), own);
  }

  /** The ingress branch on `a`: the derived policy on `Lift(a)`, then
      lower. */
  lemma BranchEval(env: Env, vpolicy: Policy, tag: int, a: Packet)
    ensures Eval(env, IngressBranch(vpolicy, tag), a) ==
            Then(env, Eval(env, vpolicy, Lift(a)), LowerPolicy(Int(tag)))
  {
    EvalLift(env, a);
    SeqSeqSingleton(env, LiftPolicy(), vpolicy, LowerPolicy(Int(tag)), a, Lift(a));
  }

  /** A lowered packet carries this instance's tag, so it takes the fabric
      and egress branch. */
  lemma LoweredTakesFabric(env: Env, upolicy: Policy, fabric: Policy, egress: Policy,
                           tag: int, q: Packet)
    ensures Eval(env, Seq(LowerPolicy(Int(tag)), OwnBranch(upolicy, fabric, egress, tag)), q) ==
            Eval(env, Seq(LowerPolicy(Int(tag)), Seq(fabric, egress)), q)
  {
    EvalLower(env, q, Int(tag));
    LowerMarksOwned(q, Int(tag));
    SeqIfTaken(env, LowerPolicy(Int(tag)), Test(VTag, Int(tag)), Seq(fabric, egress), upolicy,
               q, Lower(q, Int(tag)));
  }

  /** A packet the ingress policy turns into exactly one ingress-tagged
      packet `a`: the derived policy runs on `Lift(a)`, and every packet it
      produces is lowered with this instance's tag and then routed on the
      fabric and through egress. */
  lemma AdmittedRunsDerived(env: Env, upolicy: Policy, vpolicy: Policy, ingress: Policy,
                            fabric: Policy, egress: Policy, tag: int, p: Packet, a: Packet)
    requires Eval(env, ingress, p) == {a}
    requires Top(a, VTag) == Some(INGRESS)
    ensures Eval(env, VirtualizePolicy(upolicy, vpolicy, ingress, fabric, egress, tag), p) ==
            Then(env, Eval(env, vpolicy, Lift(a)),
                 Seq(LowerPolicy(Int(tag)), Seq(fabric, egress)))
  {
    var own := OwnBranch(upolicy, fabric, egress, tag);
    var lower := LowerPolicy(Int(tag));
    var derived := Eval(env, vpolicy, Lift(a));
    IngressBranchEval(env, upolicy, vpolicy, ingress, fabric, egress, tag, p, a);
    ThenAssoc(env, derived, lower, own);
    forall q | q in derived
      ensures Eval(env, Seq(lower, own), q) == Eval(env, Seq(lower, Seq(fabric, egress)), q)
    {
      LoweredTakesFabric(env, upolicy, fabric, egress, tag, q);
    }
    ThenPointwise(env, derived, Seq(lower, own), Seq(lower, Seq(fabric, egress)));
  }

  /** With the vmap ingress policy: a packet carrying another instance's tag
      at a location no entry maps gets the underlying policy with its tag
      untouched. */
  lemma OtherInstanceGoesUnder(env: Env, vmap: VMap, upolicy: Policy, vpolicy: Policy,
                               fabric: Policy, egress: Policy, tag: int, other: int, p: Packet)
    requires !MappedAt(vmap, Location(p, Inport))
    requires Top(p, VTag) == Some(Int(other)) && other != tag
    ensures Eval(env, VirtualizePolicy(upolicy, vpolicy, IngressPolicy(vmap), fabric, egress, tag), p) ==
            Eval(env, upolicy, p)
  {
    IngressPassesUnmapped(env, vmap, p);
    ForeignGoesUnder(env, upolicy, vpolicy, IngressPolicy(vmap), fabric, egress, tag, p);
  }

  /** Under `virtualize_full` such a packet passes unchanged. */
  lemma FullPassesOtherInstance(env: Env, vmap: VMap, vpolicy: Policy,
                                fabric: Policy, egress: Policy, tag: int, other: int, p: Packet)
    requires !MappedAt(vmap, Location(p, Inport))
    requires Top(p, VTag) == Some(Int(other)) && other != tag
    ensures Eval(env, VirtualizePolicy(Passthrough, vpolicy, IngressPolicy(vmap), fabric, egress, tag), p) ==
            {p}
  {
    OtherInstanceGoesUnder(env, vmap, Passthrough, vpolicy, fabric, egress, tag, other, p);
  }

  /** A packet without virtual headers admitted at virtual endpoint `v` is
      seen by the derived policy at `v`: the physical switch and inport are
      shadowed by `v`'s, nothing else differs. */
  lemma LiftAdmit(p: Packet, v: Endpoint)
    requires Plain(p)
    ensures Lift(Admit(p, v)) == Push(Push(p, Switch, v.sw), Inport, v.port)
  {
    var a := Admit(p, v);
    var l1 := Pop(a, VTag);
    assert l1 == Push(Push(p, VSwitch, v.sw), VInport, v.port);
    assert Move(l1, Outport, VOutport) == l1;
    var l3 := Move(l1, Switch, VSwitch);
    assert l3 == Push(Push(p, Switch, v.sw), VInport, v.port);
  }

  /** With the vmap ingress policy: a packet without virtual headers at a
      physical endpoint of exactly one entry runs the derived policy at that
      entry's virtual endpoint, and its outputs are lowered with this
      instance's tag and sent over the fabric and through egress. */
  lemma MappedRunsDerived(env: Env, vmap: VMap, upolicy: Policy, vpolicy: Policy,
                          fabric: Policy, egress: Policy, tag: int, p: Packet, i: int)
    requires 0 <= i < |vmap|
    requires Plain(p)
    requires Location(p, Inport).Some? && Location(p, Inport).value in vmap[i].phys
    requires forall j :: 0 <= j < |vmap| && j != i ==> Location(p, Inport).value !in vmap[j].phys
    ensures Eval(env, VirtualizePolicy(upolicy, vpolicy, IngressPolicy(vmap), fabric, egress, tag), p) ==
            Then(env, Eval(env, vpolicy, Push(Push(p, Switch, vmap[i].virt.sw), Inport, vmap[i].virt.port)),
                 Seq(LowerPolicy(Int(tag)), Seq(fabric, egress)))
  {
    var a := Admit(p, vmap[i].virt);
    IngressAdmitsMapped(env, vmap, p, i);
    AdmitStacks(p, vmap[i].virt);
    AdmittedRunsDerived(env, upolicy, vpolicy, IngressPolicy(vmap), fabric, egress, tag, p, a);
    LiftAdmit(p, vmap[i].virt);
  }

  /** Two instances with distinct tags do not interfere: a packet carrying
      the other instance's tag, at a location this instance's vmap does not
      map, gets this instance's underlying policy; under `virtualize_full`
      it passes unchanged. */
  lemma InstancesIsolated(env: Env, vmap: VMap, x: Virtualization, y: Virtualization, p: Packet)
    requires x.Valid() && x.vdef.ingress == IngressPolicy(vmap)
    requires x.vtag != y.vtag
    requires !MappedAt(vmap, Location(p, Inport))
    requires Top(p, VTag) == Some(Int(y.vtag))
    ensures Eval(env, x.policy, p) == Eval(env, x.upolicy, p)
    ensures x.upolicy == Passthrough ==> Eval(env, x.policy, p) == {p}
  {
    OtherInstanceGoesUnder(env, vmap, x.upolicy, x.vpolicy.policy, x.vdef.fabric,
                           x.vdef.egress, x.vtag, y.vtag, p);
  }

  /** Two instances built from one allocator carry distinct tags, so each
      hands a packet carrying the other's tag, at a location its vmap does
      not map, to its own underlying policy. */
  method NewPair(u1: Policy, vp1: DerivedPolicy, vdef1: VDef,
                 u2: Policy, vp2: DerivedPolicy, vdef2: VDef,
                 alloc: TagAllocator, env: Env, vmap1: VMap, vmap2: VMap, p: Packet)
    returns (x: Virtualization, y: Virtualization)
    requires alloc.Valid()
    requires vdef1.ingress == IngressPolicy(vmap1) && vdef2.ingress == IngressPolicy(vmap2)
    modifies alloc
    ensures alloc.Valid() && x.Valid() && y.Valid()
    ensures x.upolicy == u1 && x.vpolicy == vp1 && x.vdef == vdef1
    ensures y.upolicy == u2 && y.vpolicy == vp2 && y.vdef == vdef2
    ensures x.vtag != y.vtag
    ensures !MappedAt(vmap1, Location(p, Inport)) && Top(p, VTag) == Some(Int(y.vtag)) ==>
              Eval(env, x.policy, p) == Eval(env, u1, p)
    ensures !MappedAt(vmap2, Location(p, Inport)) && Top(p, VTag) == Some(Int(x.vtag)) ==>
              Eval(env, y.policy, p) == Eval(env, u2, p)
  {
    x := new Virtualization.Base(u1, vp1, vdef1, alloc);
    y := new Virtualization.Base(u2, vp2, vdef2, alloc);
    assert x.vtag in alloc.issued;
    if !MappedAt(vmap1, Location(p, Inport)) && Top(p, VTag) == Some(Int(y.vtag)) {
      InstancesIsolated(env, vmap1, x, y, p);
    }
    if !MappedAt(vmap2, Location(p, Inport)) && Top(p, VTag) == Some(Int(x.vtag)) {
      InstancesIsolated(env, vmap2, y, x, p);
    }
  }
}
