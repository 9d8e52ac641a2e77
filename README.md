# Network virtualization in Frenetic, modelled in Dafny

A model of `frenetic/virt.py`, the virtualization layer of the Frenetic/pyretic
policy language. An operator writes a forwarding policy against a *virtual*
topology. A *vmap* maps each virtual endpoint `(vswitch, vport)` to the
physical `(switch, port)` pairs that realise it. A `virtualize_base`
instance compiles the derived (virtual) policy into a policy on the
physical network through a header-tagging protocol:

- the ingress policy stamps a packet arriving at a mapped physical inport
  with `vtag='ingress'`, `vswitch` and `vinport`;
- `lift_packet` brings the virtual identity into the `switch`/`inport`
  fields, the derived policy runs, and `lower_packet(tag)` parks its decision
  back in the virtual fields and marks the packet with the instance's tag;
- a packet carrying the instance's tag is routed on the fabric and then
  through the egress policy, which strips the virtual headers
  (`pop_vheaders`) when the packet reaches the physical outport of its
  virtual destination;
- every other packet gets the underlying policy.

The project has four modules:

- `NetCore` (`netcore.dfy`) is the policy algebra the file is written
  against. Its header comment states what it assumes:
  - each header field is a stack;
  - `>>` is the sequential flat-map, `|` and `parallel` are union, and
    `pred[pol]` is restriction;
  - `union` is disjunction, and `if_` is a conditional;
  - `push`, `pop` and `move` act on stack tops.

  Policies whose definitions are not part of the model are `Ext(id)`,
  interpreted by an environment.
- `Transcode` (`transcode.dfy`) holds `lift_packet`, `lower_packet` and
  `pop_vheaders`. Each is a policy term with a packet-level counterpart, and
  lemmas state what each does to every field.
- `VMapCompiler` (`vmap.dfy`) holds `vmap_to_ingress_policy`,
  `vmap_to_egress_policy` (a method with the source's append loop) and
  `add_nodes_from_vmap`. The last is a loop that updates a `Topology`
  object in place.
- `Virtualize` (`virtualize.dfy`) holds `virtualize_base`, `virtualize_full`
  and `virtualize_part` as constructors of a `Virtualization` class, the
  composed policy as a function, and `set_network` as a method. It also
  holds lemmas for the three packet states and for two instances with
  distinct tags.

Each header field is a stack of values, index 0 on top. A field is present
when its stack is non-empty. This is needed for the protocol to work at
all: `lower_packet` moves `switch` into `vswitch`, and the fabric and
egress policies that follow must still see the physical `switch`. Popping
or moving a field that is absent changes nothing.

Three behaviours of the code that a reader might not expect, and which the
model keeps as written:

- A packet at a mapped physical outport whose virtual destination is not
  that outport's entry is **dropped**. The egress policy guards the strip
  with `union(valid_match_egress)[pop_vheaders]`, and restriction yields
  nothing when the guard fails (frenetic/virt.py:64). It is not passed on,
  still tagged, to the next hop.
- `lift_packet` moves `voutport` onto `outport`
  (`move(outport="voutport", ...)`, frenetic/virt.py:89). It does not save
  the physical `outport` under `voutport`. As a result, a packet with an
  `outport` but no `voutport` does not make the `lift >> lower` round trip
  unchanged (`Transcode.LiftLowerOutport`).
- `set_network` builds the virtual network in a local variable, so the
  instance's `vnetwork` field keeps its initial `None`
  (frenetic/virt.py:137-141).

## Model

| member | source | states |
|---|---|---|
| NetCore.UnionOfHolds | frenetic/virt.py:51-53 | `union(preds)` holds for a packet iff some predicate of the list holds for it |
| NetCore.ParallelOfEval | frenetic/virt.py:54 | a packet is an output of `parallel(pols)` iff it is an output of some policy of the list |
| NetCore.ThenAssoc | frenetic/virt.py:111-131 | sequential composition is associative: feeding `a`'s outputs to `b` equals feeding the inputs to `a >> b` |
| Transcode.LiftPolicy | frenetic/virt.py:88-89 | renders `pop("vtag") >> move(outport="voutport", switch="vswitch", inport="vinport")` as a policy term; `EvalLift` gives its meaning |
| Transcode.Lift | frenetic/virt.py:88-89 | the same pipeline on one packet: pop `vtag`, then move `voutport`, `vswitch`, `vinport` onto `outport`, `switch`, `inport` |
| Transcode.LowerPolicy | frenetic/virt.py:75-77 | renders `push(vtag=T) >> move(voutport="outport", vswitch="switch", vinport="inport")` as a policy term; `EvalLower` gives its meaning |
| Transcode.Lower | frenetic/virt.py:75-77 | the same pipeline on one packet: push `vtag=T`, then move `outport`, `switch`, `inport` onto `voutport`, `vswitch`, `vinport` |
| Transcode.StripPolicy | frenetic/virt.py:98 | renders `pop("vswitch", "vinport", "voutport", "vtag")` as a policy term; `EvalStrip` gives its meaning |
| Transcode.Strip | frenetic/virt.py:98 | the same pops on one packet |
| Transcode.EvalLift | frenetic/virt.py:88-89 | the `lift_packet` pipeline has exactly one output, the packet-level `Lift` |
| Transcode.EvalLower | frenetic/virt.py:75-77 | the `lower_packet(tag)` pipeline has exactly one output, the packet-level `Lower` |
| Transcode.EvalStrip | frenetic/virt.py:98 | the `pop_vheaders` pipeline has exactly one output, the packet-level `Strip` |
| Transcode.LiftStacks | frenetic/virt.py:88-89 | lift drops the top `vtag`, moves the tops of `vswitch`/`vinport` (and `voutport` if set) onto `switch`/`inport`/`outport`, and leaves every other field unchanged |
| Transcode.LowerStacks | frenetic/virt.py:75-77 | lower pushes `tag` onto `vtag`, moves the tops of `outport`/`switch`/`inport` (when present) onto `voutport`/`vswitch`/`vinport`, and leaves every other field unchanged |
| Transcode.LiftExposesVirtual | frenetic/virt.py:88-89 | after lift, an ingress-tagged packet sits at its virtual switch and inport, with its physical switch and inport beneath them and its `ingress` tag gone |
| Transcode.LowerMarksOwned | frenetic/virt.py:75 | whatever the derived policy produced, the lowered packet carries `tag` on top of `vtag` |
| Transcode.EvalLiftLower | frenetic/virt.py:75-89 | the pipeline `lift_packet >> lower_packet(T)` has exactly one output, `Lower(Lift(p), T)`, so the round-trip lemmas below describe the pipeline |
| Transcode.LiftLowerRoundTrip | frenetic/virt.py:75-89 | `lift >> lower(T)` on an ingress-tagged packet replaces the top `vtag` 'ingress' by `T`, gives back the original `vswitch`, `vinport`, `switch` and `inport` stacks, and leaves every field outside the two namespaces unchanged |
| Transcode.LiftLowerOutport | frenetic/virt.py:75-89 | the `outport`/`voutport` pair survives the round trip when the packet has a `voutport` or no `outport`; otherwise the `outport` top is parked alone under `voutport` |
| Transcode.LiftLowerRetags | frenetic/virt.py:75-89 | in the first case, `lift >> lower(T)` is exactly "replace the top `vtag` by `T`" |
| Transcode.StripEffect | frenetic/virt.py:98 | strip pops exactly `vswitch`, `vinport`, `voutport` and `vtag` and leaves every other field unchanged |
| Transcode.StripPlain | frenetic/virt.py:98 | stripping a packet without virtual fields changes nothing |
| Transcode.StripIdempotent | frenetic/virt.py:98 | a packet holding at most one value in each virtual field becomes plain after one strip, so a second strip changes nothing |
| VMapCompiler.AdmitPolicy | frenetic/virt.py:54 | renders `push(vtag='ingress', vswitch=vsw, vinport=vp)` as a policy term; `EvalAdmit` gives its meaning |
| VMapCompiler.Admit | frenetic/virt.py:54 | the same pushes on one packet |
| VMapCompiler.IngressPolicy | frenetic/virt.py:50-55 | renders `non_ingress[passthrough] \| parallel(union(...)[push(...)] for ...)` with `non_ingress = ~union(union(...) for ...)`; `IngressSemantics` gives its meaning |
| VMapCompiler.EgressPolicyOf | frenetic/virt.py:64 | renders `if_(union(matches_egress), union(valid_match_egress)[pop_vheaders], passthrough)` over the lists built at lines 60-63; `EgressSemantics` gives its meaning |
| VMapCompiler.SwitchPredHolds | frenetic/virt.py:61 | `union(match(switch=sw, <port>=p) for (sw, p) in switches)` holds iff the packet's `(switch, port)` is one of `switches` |
| VMapCompiler.EvalAdmit | frenetic/virt.py:54 | `push(vtag='ingress', vswitch=vsw, vinport=vp)` has exactly one output, the admitted packet |
| VMapCompiler.AdmitStacks | frenetic/virt.py:54 | admission pushes `'ingress'`, `vsw` and `vp` onto `vtag`, `vswitch` and `vinport` and changes no other field; the admitted packet is ingress-tagged and differs from the original |
| VMapCompiler.IngressPredsHold | frenetic/virt.py:51-53 | the union of all entries' ingress predicates holds iff some entry lists the packet's `(switch, inport)` |
| VMapCompiler.IngressSemantics | frenetic/virt.py:50-55 | a packet is an output of the ingress policy iff either no entry maps its `(switch, inport)` and it is the packet itself, or some entry maps it and it is the packet admitted under that entry's key |
| VMapCompiler.IngressPassesUnmapped | frenetic/virt.py:51-54 | a packet at no mapped physical inport yields exactly one output, itself |
| VMapCompiler.IngressAdmitsMapped | frenetic/virt.py:51-54 | a packet at a physical inport of exactly one entry yields exactly one output, admitted under that entry's key; the unchanged packet is not emitted |
| VMapCompiler.IngressExclusive | frenetic/virt.py:51-54 | in a vmap where no physical endpoint serves two entries, a packet at any mapped inport is admitted exactly once, under its entry's key |
| VMapCompiler.EgressPolicy | frenetic/virt.py:57-64 | the loop that appends one location predicate and one `valid_match_egress` predicate per entry builds exactly `if_(union(matches_egress), union(valid_match_egress)[pop_vheaders], passthrough)` |
| VMapCompiler.EgressPredsHold | frenetic/virt.py:60-63 | `union(matches_egress)` holds iff some entry lists the packet's `(switch, outport)`; `union(valid_match_egress)` holds iff some such entry also has the packet's `(vswitch, voutport)` as key |
| VMapCompiler.EgressSemantics | frenetic/virt.py:64 | egress gives the packet itself at an unmapped outport, the stripped packet at a mapped outport of its virtual destination, and nothing at any other mapped outport |
| VMapCompiler.EgressStrips | frenetic/virt.py:60-64 | a packet at a physical outport of entry `v` whose `(vswitch, voutport)` is `v`'s key comes out once, with the four virtual fields popped and every other field unchanged |
| VMapCompiler.EgressPassesElsewhere | frenetic/virt.py:64 | a packet at a physical outport no entry lists passes unchanged |
| VMapCompiler.EgressDropsMisrouted | frenetic/virt.py:64 | a packet at a mapped outport whose virtual destination matches no entry listing that outport yields nothing |
| VMapCompiler.Topology.AddNode | frenetic/virt.py:48 | `add_node(switch, ports=...)` sets the switch's port map |
| VMapCompiler.AddNodesFromVMap | frenetic/virt.py:42-48 | the loop over the vmap leaves the topology equal to the original one with every key seeded in order (extending an existing switch's ports, or adding the switch) |
| VMapCompiler.SeedOne | frenetic/virt.py:44-48 | one loop iteration: `vtopo.node[switch]['ports'][port_no] = Port(port_no)`, or `add_node(switch, ports={port_no: port})` when the switch is absent |
| VMapCompiler.SeedAll | frenetic/virt.py:43-48 | the loop `for switch, port_no in vmap`: `SeedOne` for every key in iteration order |
| VMapCompiler.SeededPort | frenetic/virt.py:42-48 | after seeding, a switch is present iff it was or some key names it; a port is present iff it was or it is a key; a key's port is `Port(vp)`, and all other ports keep their values |
| VMapCompiler.SeedAbsorbs | frenetic/virt.py:43-48 | seeding keys that are already present as their own ports changes nothing |
| VMapCompiler.SeededIdempotent | frenetic/virt.py:42-48 | seeding a second time with the same vmap changes nothing further |
| Virtualize.DerivedPolicy.SetNetwork | frenetic/virt.py:141 | the derived policy is told the network it runs on |
| Virtualize.TagAllocator.Fresh | frenetic/virt.py:109 | each tag handed out was never handed out before |
| Virtualize.Virtualization.Base | frenetic/virt.py:105-131 | the instance stores its policies and definition, takes a tag never issued before, starts with no network, and its policy is the composed `virtualize_base` policy of those fields |
| Virtualize.Virtualization.Full | frenetic/virt.py:147-149 | as `Base`, with `passthrough` as underlying policy |
| Virtualize.Virtualization.Part | frenetic/virt.py:152-154 | as `Base`, with the same policy as underlying and derived policy |
| Virtualize.Virtualization.SetNetwork | frenetic/virt.py:135-141 | the instance's network becomes `value`; the derived policy's network becomes `network_transform(value)`, or none when `value` is none; `vnetwork` is unchanged |
| Virtualize.IngressBranch | frenetic/virt.py:117-122 | renders `lift_packet >> pol_print(vpolicy) >> lower_packet(vtag)` with the print stages as identities and `pol_print` applying `vpolicy` |
| Virtualize.OwnBranch | frenetic/virt.py:125-131 | renders `if_(match(vtag=self.vtag), fabric_policy >> egress_policy, upolicy)` |
| Virtualize.VirtualizePolicy | frenetic/virt.py:111-131 | renders the whole left-nested chain `ingress_policy >> if_(match(vtag='ingress'), <IngressBranch>, passthrough) >> <OwnBranch>` |
| Virtualize.SkipsIngress | frenetic/virt.py:111-131 | a packet the ingress policy leaves alone and that carries no 'ingress' tag skips the lift/derived/lower branch |
| Virtualize.ForeignGoesUnder | frenetic/virt.py:111-131 | such a packet with no own tag gets exactly the underlying policy |
| Virtualize.OwnTaggedInTransit | frenetic/virt.py:125-129 | such a packet carrying the instance's tag gets the fabric policy followed by the egress policy |
| Virtualize.BranchEval | frenetic/virt.py:117-121 | the ingress branch runs the derived policy on the lifted packet, then lowers each output |
| Virtualize.IngressBranchEval | frenetic/virt.py:111-123 | a packet admitted as `a` by the ingress policy gets the derived policy on `Lift(a)`, lowered, then the own-tag test |
| Virtualize.LoweredTakesFabric | frenetic/virt.py:121-128 | a lowered packet always takes the fabric-and-egress branch, never the underlying policy |
| Virtualize.AdmittedRunsDerived | frenetic/virt.py:111-131 | a packet admitted as `a` gets, for every output of the derived policy on `Lift(a)`: lower with the own tag, then fabric, then egress |
| Virtualize.LiftAdmit | frenetic/virt.py:88-89 | a packet without virtual headers, admitted at virtual endpoint `v` and lifted, is the packet with `v`'s switch and port pushed over its physical ones and nothing else changed |
| Virtualize.MappedRunsDerived | frenetic/virt.py:111-131 | with the vmap ingress policy, a plain packet at a physical inport of exactly one entry runs the derived policy at that entry's virtual endpoint, then lower, fabric and egress |
| Virtualize.OtherInstanceGoesUnder | frenetic/virt.py:111-131 | with the vmap ingress policy, a packet carrying another instance's tag at an unmapped inport gets exactly the underlying policy |
| Virtualize.FullPassesOtherInstance | frenetic/virt.py:147-149 | under `virtualize_full` such a packet passes unchanged, its tag untouched |
| Virtualize.InstancesIsolated | frenetic/virt.py:109-131 | for two instances with distinct tags, a packet tagged by one at an inport the other does not map gets the other's underlying policy (itself, unchanged, under `passthrough`) |
| Virtualize.NewPair | frenetic/virt.py:109-131 | two instances built from one allocator carry distinct tags, and each hands a packet bearing the other's tag, at a location its own vmap does not map, to its own underlying policy |

## Left out

- The `pkt_print` and `pol_print` debug stages and the `DEBUG` flag are identities and are omitted. `pol_print(self.vpolicy, ...)` is modelled as applying the derived policy (frenetic/virt.py:112-131).
- The `__repr__` methods produce text only.
- The `netcore` policy algebra, `network`, `generators` and `util` are not part of this model. `netcore.dfy` gives the primitives their assumed meaning.
- `Port` is not part of this model. It is a value holding its port number.
- `vdef.fabric_policy`, `vdef.ingress_policy`, `vdef.egress_policy` and the underlying and derived policies are abstract policy terms, interpreted by an environment. `vdef.network_transform` is an abstract function.
- `id(self)` is a memory address. It is replaced by a tag allocator that never hands out a tag twice, and tags are integers, so they never equal `'ingress'`.
- The propagation done by the superclass `set_network` is modelled as assigning the network field.
- A topology node's attributes other than `ports`, and its links, are not modelled.
- The vmap dictionary is a sequence of entries in iteration order. The model does not assume the keys are distinct.
- Concurrency and topology discovery do not occur in this file.
- The unused imports (`itertools`, `Counter`) are left out.
- Tags are distinct only among instances built from one `TagAllocator` (`Virtualize.NewPair`). The model assumes one allocator serves every instance in the process, as `id(self)` is unique among live objects.
