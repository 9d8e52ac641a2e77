/** The three header rewrites that move a packet between the physical
    namespace (`switch`, `inport`, `outport`) and the virtual namespace
    (`vswitch`, `vinport`, `voutport`, `vtag`): lift, lower and strip.
    Each is a fixed pipeline of pushes, pops and moves; each pipeline has a
    packet-level counterpart, and `EvalLift`, `EvalLower` and `EvalStrip`
    connect the two. */
module Transcode {
  import opened NetCore

  const INGRESS: Value := Str("ingress")

  /** `lift_packet`: pop `vtag`, then move `voutport`, `vswitch`, `vinport`
      onto `outport`, `switch`, `inport`. */
  function LiftPolicy(): Policy {
    Seq(PopField(VTag),
        Seq(MoveField(Outport, VOutport),
            Seq(MoveField(Switch, VSwitch), MoveField(Inport, VInport))))
  }

  /** `lower_packet(tag)`: push `vtag = tag`, then move `outport`, `switch`,
      `inport` back onto `voutport`, `vswitch`, `vinport`. */
  function LowerPolicy(tag: Value): Policy {
    Seq(PushField(VTag, tag),
        Seq(MoveField(VOutport, Outport),
            Seq(MoveField(VSwitch, Switch), MoveField(VInport, Inport))))
  }

  /** `pop_vheaders`: pop the four virtual fields. */
  function StripPolicy(): Policy {
    Seq(PopField(VSwitch), Seq(PopField(VInport), Seq(PopField(VOutport), PopField(VTag))))
  }

  function Lift(p: Packet): Packet {
    Move(Move(Move(Pop(p, VTag), Outport, VOutport), Switch, VSwitch), Inport, VInport)
  }

  function Lower(p: Packet, tag: Value): Packet {
    Move(Move(Move(Push(p, VTag, tag), VOutport, Outport), VSwitch, Switch), VInport, Inport)
  }

  function Strip(p: Packet): Packet {
    Pop(Pop(Pop(Pop(p, VSwitch), VInport), VOutport), VTag)
  }

  predicate IsVirtualField(f: Field) {
    f == VSwitch || f == VInport || f == VOutport || f == VTag
  }

  /** A packet carrying none of the virtual fields. */
  predicate Plain(p: Packet) {
    p.vswitch == [] && p.vinport == [] && p.voutport == [] && p.vtag == []
  }

  /** What ingress stamps on a packet: `vtag = 'ingress'`, `vswitch`,
      `vinport`. */
  predicate IngressTagged(p: Packet) {
    Top(p, VTag) == Some(INGRESS) && Top(p, VSwitch).Some? && Top(p, VInport).Some?
  }

  lemma EvalLift(env: Env, p: Packet)
    ensures Eval(env, LiftPolicy(), p) == {Lift(p)}
  {
    var p1 := Pop(p, VTag);
    var p2 := Move(p1, Outport, VOutport);
    var p3 := Move(p2, Switch, VSwitch);
    SeqSingleton(env, MoveField(Switch, VSwitch), MoveField(Inport, VInport), p2, p3);
    SeqSingleton(env, MoveField(Outport, VOutport),
                 Seq(MoveField(Switch, VSwitch), MoveField(Inport, VInport)), p1, p2);
    SeqSingleton(env, PopField(VTag), Seq(MoveField(Outport, VOutport),
                 Seq(MoveField(Switch, VSwitch), MoveField(Inport, VInport))), p, p1);
  }

  lemma EvalLower(env: Env, p: Packet, tag: Value)
    ensures Eval(env, LowerPolicy(tag), p) == {Lower(p, tag)}
  {
    var p1 := Push(p, VTag, tag);
    var p2 := Move(p1, VOutport, Outport);
    var p3 := Move(p2, VSwitch, Switch);
    SeqSingleton(env, MoveField(VSwitch, Switch), MoveField(VInport, Inport), p2, p3);
    SeqSingleton(env, MoveField(VOutport, Outport),
                 Seq(MoveField(VSwitch, Switch), MoveField(VInport, Inport)), p1, p2);
    SeqSingleton(env, PushField(VTag, tag), Seq(MoveField(VOutport, Outport),
                 Seq(MoveField(VSwitch, Switch), MoveField(VInport, Inport))), p, p1);
  }

  lemma EvalStrip(env: Env, p: Packet)
    ensures Eval(env, StripPolicy(), p) == {Strip(p)}
  {
    var p1 := Pop(p, VSwitch);
    var p2 := Pop(p1, VInport);
    var p3 := Pop(p2, VOutport);
    SeqSingleton(env, PopField(VOutport), PopField(VTag), p2, p3);
    SeqSingleton(env, PopField(VInport), Seq(PopField(VOutport), PopField(VTag)), p1, p2);
    SeqSingleton(env, PopField(VSwitch),
                 Seq(PopField(VInport), Seq(PopField(VOutport), PopField(VTag))), p, p1);
  }

  /** What lift does to each stack when `vswitch` and `vinport` are set:
      their tops move onto `switch` and `inport`, the top of `vtag` goes,
      and a `voutport` top, if any, moves onto `outport`. */
  lemma LiftStacks(p: Packet)
    requires Top(p, VSwitch).Some? && Top(p, VInport).Some?
    ensures var q := Lift(p);
      && StackOf(q, VTag) == Tail(StackOf(p, VTag))
      && StackOf(q, Switch) == [Top(p, VSwitch).value] + StackOf(p, Switch)
      && StackOf(q, VSwitch) == Tail(StackOf(p, VSwitch))
      && StackOf(q, Inport) == [Top(p, VInport).value] + StackOf(p, Inport)
      && StackOf(q, VInport) == Tail(StackOf(p, VInport))
      && (Top(p, VOutport).Some? ==>
            StackOf(q, Outport) == [Top(p, VOutport).value] + StackOf(p, Outport) &&
            StackOf(q, VOutport) == Tail(StackOf(p, VOutport)))
      && (Top(p, VOutport).None? ==>
            StackOf(q, Outport) == StackOf(p, Outport) && StackOf(q, VOutport) == StackOf(p, VOutport))
      && forall f :: !IsVirtualField(f) && f != Switch && f != Inport && f != Outport ==>
            StackOf(q, f) == StackOf(p, f)
  {
    var l1 := Pop(p, VTag);
    var l2 := Move(l1, Outport, VOutport);
    var l3 := Move(l2, Switch, VSwitch);
    assert Top(l2, VSwitch) == Top(p, VSwitch);
    assert Top(l3, VInport) == Top(p, VInport);
  }

  /** What lower does to each stack: `tag` goes on top of `vtag`, and the
      tops of `outport`, `switch`, `inport` (when present) move onto
      `voutport`, `vswitch`, `vinport`. */
  lemma LowerStacks(p: Packet, tag: Value)
    ensures var q := Lower(p, tag);
      && StackOf(q, VTag) == [tag] + StackOf(p, VTag)
      && (Top(p, Outport).Some? ==>
            StackOf(q, VOutport) == [Top(p, Outport).value] + StackOf(p, VOutport) &&
            StackOf(q, Outport) == Tail(StackOf(p, Outport)))
      && (Top(p, Outport).None? ==>
            StackOf(q, VOutport) == StackOf(p, VOutport) && StackOf(q, Outport) == StackOf(p, Outport))
      && (Top(p, Switch).Some? ==>
            StackOf(q, VSwitch) == [Top(p, Switch).value] + StackOf(p, VSwitch) &&
            StackOf(q, Switch) == Tail(StackOf(p, Switch)))
      && (Top(p, Switch).None? ==>
            StackOf(q, VSwitch) == StackOf(p, VSwitch) && StackOf(q, Switch) == StackOf(p, Switch))
      && (Top(p, Inport).Some? ==>
            StackOf(q, VInport) == [Top(p, Inport).value] + StackOf(p, VInport) &&
            StackOf(q, Inport) == Tail(StackOf(p, Inport)))
      && (Top(p, Inport).None? ==>
            StackOf(q, VInport) == StackOf(p, VInport) && StackOf(q, Inport) == StackOf(p, Inport))
      && forall f :: !IsVirtualField(f) && f != Switch && f != Inport && f != Outport ==>
            StackOf(q, f) == StackOf(p, f)
  {
    var d1 := Push(p, VTag, tag);
    var d2 := Move(d1, VOutport, Outport);
    var d3 := Move(d2, VSwitch, Switch);
    assert Top(d2, Switch) == Top(p, Switch);
    assert Top(d3, Inport) == Top(p, Inport);
  }

  /** After lift, an ingress-tagged packet appears to sit at its virtual
      switch and inport, with the physical ones kept beneath them. */
  lemma LiftExposesVirtual(p: Packet)
    requires IngressTagged(p)
    ensures Top(Lift(p), Switch) == Top(p, VSwitch) && Top(Lift(p), Inport) == Top(p, VInport)
    ensures Tail(StackOf(Lift(p), Switch)) == StackOf(p, Switch)
    ensures Tail(StackOf(Lift(p), Inport)) == StackOf(p, Inport)
    ensures StackOf(Lift(p), VTag) == Tail(StackOf(p, VTag))
  {
    LiftStacks(p);
  }

  /** Whatever the derived policy produced, lowering leaves `tag` on top of
      `vtag`. */
  lemma LowerMarksOwned(p: Packet, tag: Value)
    ensures Top(Lower(p, tag), VTag) == Some(tag)
  {
    LowerStacks(p, tag);
  }

  /** The pipeline `lift_packet >> lower_packet(tag)` has exactly one
      output, `Lower(Lift(p), tag)`; the lemmas below describe it. */
  lemma EvalLiftLower(env: Env, p: Packet, tag: Value)
    ensures Eval(env, Seq(LiftPolicy(), LowerPolicy(tag)), p) == {Lower(Lift(p), tag)}
  {
    EvalLift(env, p);
    EvalLower(env, Lift(p), tag);
    SeqSingleton(env, LiftPolicy(), LowerPolicy(tag), p, Lift(p));
  }

  /** `lift >> lower(tag)` on an ingress-tagged packet replaces the top of
      `vtag` ('ingress') by `tag`, and gives back the original `vswitch`,
      `vinport`, `switch` and `inport` stacks and every field outside the
      two namespaces. */
  lemma LiftLowerRoundTrip(p: Packet, tag: Value)
    requires IngressTagged(p)
    ensures StackOf(Lower(Lift(p), tag), VTag) == [tag] + Tail(StackOf(p, VTag))
    ensures StackOf(Lower(Lift(p), tag), VSwitch) == StackOf(p, VSwitch)
    ensures StackOf(Lower(Lift(p), tag), VInport) == StackOf(p, VInport)
    ensures StackOf(Lower(Lift(p), tag), Switch) == StackOf(p, Switch)
    ensures StackOf(Lower(Lift(p), tag), Inport) == StackOf(p, Inport)
    ensures forall f :: !IsVirtualField(f) && f != Switch && f != Inport && f != Outport ==>
              StackOf(Lower(Lift(p), tag), f) == StackOf(p, f)
  {
    var l := Lift(p);
    LiftStacks(p);
    assert Top(l, Switch) == Top(p, VSwitch) && Top(l, Inport) == Top(p, VInport);
    LowerStacks(l, tag);
  }

  /** The `outport`/`voutport` pair comes back through `lift >> lower(tag)`
      too, unless the packet had an `outport` but no `voutport`: then lower
      parks that `outport` under `voutport`. */
  lemma LiftLowerOutport(p: Packet, tag: Value)
    requires IngressTagged(p)
    ensures Top(p, VOutport).Some? || Top(p, Outport).None? ==>
              StackOf(Lower(Lift(p), tag), Outport) == StackOf(p, Outport) &&
              StackOf(Lower(Lift(p), tag), VOutport) == StackOf(p, VOutport)
    ensures Top(p, VOutport).None? && Top(p, Outport).Some? ==>
              StackOf(Lower(Lift(p), tag), VOutport) == [Top(p, Outport).value] &&
              StackOf(Lower(Lift(p), tag), Outport) == Tail(StackOf(p, Outport))
  {
    var l := Lift(p);
    LiftStacks(p);
    assert Top(p, VOutport).Some? ==> Top(l, Outport) == Top(p, VOutport);
    assert Top(p, VOutport).None? ==> Top(l, Outport) == Top(p, Outport);
    LowerStacks(l, tag);
  }

  /** `lift >> lower(tag)` is exactly "retag" on an ingress-tagged packet
      that has a `voutport` or no `outport`. */
  lemma LiftLowerRetags(p: Packet, tag: Value)
    requires IngressTagged(p)
    requires Top(p, VOutport).Some? || Top(p, Outport).None?
    ensures Lower(Lift(p), tag) == Push(Pop(p, VTag), VTag, tag)
  {
    LiftLowerRoundTrip(p, tag);
    LiftLowerOutport(p, tag);
    var q := Lower(Lift(p), tag);
    var r := Push(Pop(p, VTag), VTag, tag);
    forall f: Field | !f.Other? ensures StackOf(q, f) == StackOf(r, f) {
    }
    SameStacks(q, r);
  }

  /** Strip pops exactly the four virtual fields. */
  lemma StripEffect(p: Packet)
    ensures forall f :: IsVirtualField(f) ==> StackOf(Strip(p), f) == Tail(StackOf(p, f))
    ensures forall f :: !IsVirtualField(f) ==> StackOf(Strip(p), f) == StackOf(p, f)
  {
  }

  /** Stripping a plain packet changes nothing. */
  lemma StripPlain(p: Packet)
    requires Plain(p)
    ensures Strip(p) == p
  {
  }

  /** A packet whose virtual fields hold at most one value each is plain
      after stripping, so a second strip changes nothing. */
  lemma StripIdempotent(p: Packet)
    requires forall f :: IsVirtualField(f) ==> |StackOf(p, f)| <= 1
    ensures Plain(Strip(p)) && Strip(Strip(p)) == Strip(p)
  {
    StripEffect(p);
    assert StackOf(p, VSwitch) == p.vswitch && StackOf(p, VInport) == p.vinport;
    assert StackOf(p, VOutport) == p.voutport && StackOf(p, VTag) == p.vtag;
    StripPlain(Strip(p));
  }
}
