/** A minimal packet/policy algebra: the primitives the virtualization layer
    is written against.  The real algebra is not part of this model; what it
    assumes of it is stated here once.

    - A packet gives each header field a STACK of values (index 0 is the
      top).  A field is present exactly when its stack is non-empty.
    - `Test(f, v)` holds when the top of field `f` is `v`.
    - A policy maps a packet to a finite set of packets; `Seq` is the
      sequential flat-map, `Par` is set union, `Restrict(c, pol)` (written
      `c[pol]` in the source) yields nothing when `c` fails.
    - `PushField` pushes a value, `PopField` removes the top value (a no-op
      on an absent field), `MoveField(dst, src)` pops the top of `src` and
      pushes it on `dst` (a no-op when `src` is absent).
    - Policies whose definitions are not part of the model are `Ext(id)`,
      interpreted by an environment `env`. */
module NetCore {

  datatype Option<T> = None | Some(value: T)

  /** Header values: the source uses integers (switches, ports, tags) and the
      string 'ingress'. */
  datatype Value = Int(i: int) | Str(s: string)

  /** Header field names: the seven the virtualization layer uses, and any
      other. */
  datatype Field =
    | Switch | Inport | Outport | VSwitch | VInport | VOutport | VTag
    | Other(name: string)
  type Stack = seq<Value>

  /** A packet header: one stack per field the virtualization layer uses,
      and the stacks of all other fields by name. */
  datatype Packet = Packet(
    switch: Stack, inport: Stack, outport: Stack,
    vswitch: Stack, vinport: Stack, voutport: Stack, vtag: Stack,
    others: map<string, Stack>)

  function StackOf(p: Packet, f: Field): Stack {
    match f
    case Switch => p.switch
    case Inport => p.inport
    case Outport => p.outport
    case VSwitch => p.vswitch
    case VInport => p.vinport
    case VOutport => p.voutport
    case VTag => p.vtag
    case Other(n) => if n in p.others then p.others[n] else []
  }

  /** Replaces the stack of `f` (an emptied stack of another field leaves
      its name). */
  function WithStack(p: Packet, f: Field, s: Stack): Packet {
    match f
    case Switch => p.(switch := s)
    case Inport => p.(inport := s)
    case Outport => p.(outport := s)
    case VSwitch => p.(vswitch := s)
    case VInport => p.(vinport := s)
    case VOutport => p.(voutport := s)
    case VTag => p.(vtag := s)
    case Other(n) => p.(others := if s == [] then p.others - {n} else p.others[n := s])
  }

  function Top(p: Packet, f: Field): Option<Value> {
    var s := StackOf(p, f);
    if s == [] then None else Some(s[0])
  }

  function Tail(s: Stack): Stack {
    if s == [] then [] else s[1..]
  }

  function Push(p: Packet, f: Field, v: Value): Packet {
    WithStack(p, f, [v] + StackOf(p, f))
  }

  function Pop(p: Packet, f: Field): Packet {
    WithStack(p, f, Tail(StackOf(p, f)))
  }

  function Move(p: Packet, dst: Field, src: Field): Packet
    requires dst != src
  {
    match Top(p, src)
    case None => p
    case Some(v) => Push(Pop(p, src), dst, v)
  }

  /** Two packets that agree on the seven named fields and on the others
      map are equal. */
  lemma SameStacks(p: Packet, q: Packet)
    requires p.others == q.others
    requires forall f: Field :: !f.Other? ==> StackOf(p, f) == StackOf(q, f)
    ensures p == q
  {
    assert StackOf(p, Switch) == StackOf(q, Switch) && StackOf(p, Inport) == StackOf(q, Inport);
    assert StackOf(p, Outport) == StackOf(q, Outport) && StackOf(p, VSwitch) == StackOf(q, VSwitch);
    assert StackOf(p, VInport) == StackOf(q, VInport) && StackOf(p, VOutport) == StackOf(q, VOutport);
    assert StackOf(p, VTag) == StackOf(q, VTag);
  }

  datatype Pred =
    | Nothing
    | Test(field: Field, value: Value)
    | And(left: Pred, right: Pred)
    | Or(left: Pred, right: Pred)
    | Not(arg: Pred)

  predicate Holds(c: Pred, p: Packet) {
    match c
    case Nothing => false
    case Test(f, v) => Top(p, f) == Some(v)
    case And(a, b) => Holds(a, p) && Holds(b, p)
    case Or(a, b) => Holds(a, p) || Holds(b, p)
    case Not(a) => !Holds(a, p)
  }

  /** `match(f1=v1, f2=v2)`: both fields carry the given values on top. */
  function Match2(f1: Field, v1: Value, f2: Field, v2: Value): Pred {
    And(Test(f1, v1), Test(f2, v2))
  }

  /** `union(preds)`: the disjunction of a list of predicates. */
  function UnionOf(cs: seq<Pred>): Pred {
    if cs == [] then Nothing else Or(cs[0], UnionOf(cs[1..]))
  }

  lemma {:induction false} UnionOfHolds(cs: seq<Pred>, p: Packet)
    ensures Holds(UnionOf(cs), p) <==> exists i :: 0 <= i < |cs| && Holds(cs[i], p)
  {
    if cs != [] {
      UnionOfHolds(cs[1..], p);
      if Holds(UnionOf(cs[1..]), p) {
        var i :| 0 <= i < |cs[1..]| && Holds(cs[1..][i], p);
        assert Holds(cs[i + 1], p);
      }
      if exists i :: 0 <= i < |cs| && Holds(cs[i], p) {
        var i :| 0 <= i < |cs| && Holds(cs[i], p);
        if i > 0 {
          assert Holds(cs[1..][i - 1], p);
        }
      }
    }
  }

  datatype Policy =
    | Passthrough
    | Drop
    | PushField(pushed: Field, pushValue: Value)
    | PopField(popped: Field)
    | MoveField(dst: Field, src: Field)
    | Seq(first: Policy, second: Policy)
    | Par(left: Policy, right: Policy)
    | If(cond: Pred, yes: Policy, no: Policy)
    | Restrict(guard: Pred, body: Policy)
    | Ext(id: nat)

  /** Interpretation of the policies the model does not define. */
  type Env = (nat, Packet) -> set<Packet>

  /** `parallel(pols)`: the union of a list of policies. */
  function ParallelOf(ps: seq<Policy>): Policy {
    if ps == [] then Drop else Par(ps[0], ParallelOf(ps[1..]))
  }

  function Eval(env: Env, pol: Policy, p: Packet): set<Packet>
    decreases pol, 0
  {
    match pol
    case Passthrough => {p}
    case Drop => {}
    case PushField(f, v) => {Push(p, f, v)}
    case PopField(f) => {Pop(p, f)}
    case MoveField(dst, src) => if dst == src then {p} else {Move(p, dst, src)}
    case Seq(a, b) => Then(env, Eval(env, a, p), b)
    case Par(a, b) => Eval(env, a, p) + Eval(env, b, p)
    case If(c, a, b) => if Holds(c, p) then Eval(env, a, p) else Eval(env, b, p)
    case Restrict(c, a) => if Holds(c, p) then Eval(env, a, p) else {}
    case Ext(n) => env(n, p)
  }

  /** Feeds every packet of `s` to `pol` and collects all outputs. */
  function Then(env: Env, s: set<Packet>, pol: Policy): set<Packet>
    decreases pol, 1
  {
    set q, r | q in s && r in Eval(env, pol, q) :: r
  }

  lemma ThenSingleton(env: Env, q: Packet, pol: Policy)
    ensures Then(env, {q}, pol) == Eval(env, pol, q)
  {
    ThenSingletonSub(env, q, pol);
    ThenSingletonSup(env, q, pol);
    SubsetAntisym(Then(env, {q}, pol), Eval(env, pol, q));
  }

  lemma SubsetAntisym(a: set<Packet>, b: set<Packet>)
    requires a <= b && b <= a
    ensures a == b
  {
  }

  lemma ThenSingletonSub(env: Env, q: Packet, pol: Policy)
    ensures Then(env, {q}, pol) <= Eval(env, pol, q)
  {
    forall r | r in Then(env, {q}, pol) ensures r in Eval(env, pol, q) {
      var q', r' :| q' in {q} && r' in Eval(env, pol, q') && r == r';
    }
  }

  lemma ThenSingletonSup(env: Env, q: Packet, pol: Policy)
    ensures Eval(env, pol, q) <= Then(env, {q}, pol)
  {
    forall r | r in Eval(env, pol, q) ensures r in Then(env, {q}, pol) {
      assert q in {q};
    }
  }

  /** A stage with exactly one output feeds that output to the next stage. */
  lemma SeqSingleton(env: Env, a: Policy, b: Policy, p: Packet, q: Packet)
    requires Eval(env, a, p) == {q}
    ensures Eval(env, Seq(a, b), p) == Eval(env, b, q)
  {
    EvalSeq(env, a, b, p);
    ThenCongruent(env, Eval(env, a, p), {q}, b);
    ThenSingleton(env, q, b);
  }

  lemma EvalSeq(env: Env, a: Policy, b: Policy, q: Packet)
    ensures Eval(env, Seq(a, b), q) == Then(env, Eval(env, a, q), b)
  {
  }

  lemma ThenCongruent(env: Env, s: set<Packet>, t: set<Packet>, pol: Policy)
    requires s == t
    ensures Then(env, s, pol) == Then(env, t, pol)
  {
  }

  /** `(a >> b) >> c` where `a` has the single output `r`. */
  lemma SeqSeqSingleton(env: Env, a: Policy, b: Policy, c: Policy, q: Packet, r: Packet)
    requires Eval(env, a, q) == {r}
    ensures Eval(env, Seq(Seq(a, b), c), q) == Then(env, Eval(env, b, r), c)
  {
    SeqSingleton(env, a, b, q, r);
    EvalSeq(env, Seq(a, b), c, q);
    ThenCongruent(env, Eval(env, Seq(a, b), q), Eval(env, b, r), c);
  }

  /** A first stage with the single output `r` that satisfies `c` selects
      the `yes` branch of a following `if_`. */
  lemma SeqIfTaken(env: Env, a: Policy, c: Pred, yes: Policy, no: Policy, q: Packet, r: Packet)
    requires Eval(env, a, q) == {r}
    requires Holds(c, r)
    ensures Eval(env, Seq(a, If(c, yes, no)), q) == Eval(env, Seq(a, yes), q)
  {
    calc {
      Eval(env, Seq(a, If(c, yes, no)), q);
    == { SeqSingleton(env, a, If(c, yes, no), q, r); }
      Eval(env, If(c, yes, no), r);
    ==
      Eval(env, yes, r);
    == { SeqSingleton(env, a, yes, q, r); }
      Eval(env, Seq(a, yes), q);
    }
  }

  lemma ThenPointwise(env: Env, s: set<Packet>, a: Policy, b: Policy)
    requires forall q :: q in s ==> Eval(env, a, q) == Eval(env, b, q)
    ensures Then(env, s, a) == Then(env, s, b)
  {
  }

  lemma ThenAssoc(env: Env, s: set<Packet>, a: Policy, b: Policy)
    ensures Then(env, Then(env, s, a), b) == Then(env, s, Seq(a, b))
  {
    ThenAssocLeft(env, s, a, b);
    ThenAssocRight(env, s, a, b);
    SubsetAntisym(Then(env, Then(env, s, a), b), Then(env, s, Seq(a, b)));
  }

  lemma ThenAssocLeft(env: Env, s: set<Packet>, a: Policy, b: Policy)
    ensures Then(env, s, Seq(a, b)) <= Then(env, Then(env, s, a), b)
  {
    forall r | r in Then(env, s, Seq(a, b)) ensures r in Then(env, Then(env, s, a), b) {
      var q :| q in s && r in Eval(env, Seq(a, b), q);
      assert r in Then(env, Eval(env, a, q), b);
      var m :| m in Eval(env, a, q) && r in Eval(env, b, m);
      assert m in Then(env, s, a);
    }
  }

  lemma ThenAssocRight(env: Env, s: set<Packet>, a: Policy, b: Policy)
    ensures Then(env, Then(env, s, a), b) <= Then(env, s, Seq(a, b))
  {
    forall r | r in Then(env, Then(env, s, a), b) ensures r in Then(env, s, Seq(a, b)) {
      var m :| m in Then(env, s, a) && r in Eval(env, b, m);
      var q :| q in s && m in Eval(env, a, q);
      assert r in Eval(env, Seq(a, b), q);
    }
  }

  lemma {:induction false} ParallelOfEval(env: Env, ps: seq<Policy>, p: Packet, q: Packet)
    ensures q in Eval(env, ParallelOf(ps), p) <==> exists i :: 0 <= i < |ps| && q in Eval(env, ps[i], p)
  {
    if ps != [] {
      ParallelOfEval(env, ps[1..], p, q);
      if q in Eval(env, ParallelOf(ps[1..]), p) {
        var i :| 0 <= i < |ps[1..]| && q in Eval(env, ps[1..][i], p);
        assert q in Eval(env, ps[i + 1], p);
      }
      if exists i :: 0 <= i < |ps| && q in Eval(env, ps[i], p) {
        var i :| 0 <= i < |ps| && q in Eval(env, ps[i], p);
        if i > 0 {
          assert q in Eval(env, ps[1..][i - 1], p);
        }
      }
    }
  }
}
