// The nftables ruleset (internal/netfilter/netfilter.go): the chain generated
// from the options, evaluated rule by rule up to the first verdict, makes the
// intended decision about every packet.

module Classifier {
  import opened Families

  // ---- Addresses and networks ----

  // Most significant bit first: 32 bits, or 128.
  type Bits = seq<bool>

  // The address may have bits beyond the prefix.
  datatype Cidr = Cidr(addr: Bits, len: nat)

  function Width(f: Family): nat {
    if f == V4 then 32 else 128
  }

  predicate WellFormed(f: Family, cidrs: seq<Cidr>) {
    forall i :: 0 <= i < |cidrs| ==> |cidrs[i].addr| == Width(f) && cidrs[i].len <= Width(f)
  }

  predicate InNetwork(a: Bits, c: Cidr)
    requires c.len <= |c.addr| && c.len <= |a|
  {
    a[..c.len] == c.addr[..c.len]
  }

  // Some listed network contains a.
  predicate Bypassed(f: Family, a: Bits, cidrs: seq<Cidr>)
    requires |a| == Width(f) && WellFormed(f, cidrs)
  {
    exists i :: 0 <= i < |cidrs| && InNetwork(a, cidrs[i])
  }

  // ---- Packets and options ----

  datatype Transport = Tcp(dport: nat) | Udp(dport: nat) | Other

  datatype Packet = Packet(iif: string, fam: Family, daddr: Bits, l4: Transport)

  datatype Options = Options(
    listenPort: int, fwMark: int, lanIface: string,
    bypass: seq<Cidr>, bypass6: seq<Cidr>, enableIPv6: bool, blockQUIC: bool)

  predicate Proper(o: Options) {
    WellFormed(V4, o.bypass) && WellFormed(V6, o.bypass6)
  }

  // ---- The ruleset ----

  // An interval set's element, as numbers.
  datatype Interval = Interval(lo: nat, hi: nat)

  datatype Target = Loopback4 | Loopback6

  datatype Verdict = Accept | Return | Reject

  datatype Expr =
    | IifnameIsNot(name: string)
    | NfprotoIs(fam: Family)
    | L4IsTcp
    | L4IsNotTcp
    | UdpDport(dport: nat)
    | DaddrIn(fam: Family, setName: string)
    | Tproxy(fam: Family, to: Target, port: int)
    | SetMark(mark: int)
    | Terminate(verdict: Verdict)

  type Rule = seq<Expr>

  datatype Table = Table(sets: map<string, seq<Interval>>, prerouting: seq<Rule>)

  // The text between the braces, network by network.
  function Elements(cidrs: seq<Cidr>): seq<Interval>
    requires forall i :: 0 <= i < |cidrs| ==> cidrs[i].len <= |cidrs[i].addr|
  {
    if cidrs == [] then [] else [Covers(cidrs[0])] + Elements(cidrs[1..])
  }

  function Covers(c: Cidr): Interval
    requires c.len <= |c.addr|
  {
    var p := c.addr[..c.len];
    Interval(Value(Fill(p, |c.addr| - c.len, false)), Value(Fill(p, |c.addr| - c.len, true)))
  }

  function Fill(p: Bits, n: nat, bit: bool): Bits {
    if n == 0 then p else Fill(p, n - 1, bit) + [bit]
  }

  function Value(b: Bits): nat {
    if b == [] then 0 else 2 * Value(b[..|b| - 1]) + if b[|b| - 1] then 1 else 0
  }

  function LanRules(o: Options): seq<Rule> {
    if o.lanIface != "" then [[IifnameIsNot(o.lanIface), Terminate(Return)]] else []
  }

  function QuicRules(o: Options): seq<Rule> {
    if o.blockQUIC then
      [[NfprotoIs(V4), UdpDport(443), Terminate(Reject)],
       [NfprotoIs(V6), UdpDport(443), Terminate(Reject)]]
    else []
  }

  function Rules4(o: Options): seq<Rule> {
    [[L4IsNotTcp, Terminate(Return)],
     [DaddrIn(V4, "bypass4"), Terminate(Return)],
     [L4IsTcp, Tproxy(V4, Loopback4, o.listenPort), SetMark(o.fwMark), Terminate(Accept)]]
  }

  function Rules6(o: Options): seq<Rule> {
    if o.enableIPv6 then
      [[DaddrIn(V6, "bypass6"), Terminate(Return)],
       [L4IsTcp, Tproxy(V6, Loopback6, o.listenPort), SetMark(o.fwMark), Terminate(Accept)]]
    else []
  }

  function Sets(o: Options): map<string, seq<Interval>>
    requires Proper(o)
  {
    var four := map["bypass4" := Elements(o.bypass)];
    if o.enableIPv6 then four["bypass6" := Elements(o.bypass6)] else four
  }

  function Render(o: Options): Table
    requires Proper(o)
  {
    Table(Sets(o), LanRules(o) + (QuicRules(o) + (Rules4(o) + Rules6(o))))
  }

  // ---- Evaluation ----

  // What a packet carries away from the chain: at most one target and mark.
  datatype Fate = Fate(rejected: bool, target: set<(Target, int)>, mark: set<int>)

  const UNTOUCHED := Fate(false, {}, {})

  // The outcome of a rule: a verdict, or the next rule's turn with what was set so far.
  datatype Result = Stop(verdict: Verdict, f: Fate) | Continue(f: Fate)

  predicate InSet(v: nat, s: seq<Interval>) {
    exists i :: 0 <= i < |s| && s[i].lo <= v <= s[i].hi
  }

  predicate Matches(t: Table, e: Expr, p: Packet) {
    match e
    case IifnameIsNot(n) => p.iif != n
    case NfprotoIs(f) => p.fam == f
    case L4IsTcp => p.l4.Tcp?
    case L4IsNotTcp => !p.l4.Tcp?
    case UdpDport(n) => p.l4.Udp? && p.l4.dport == n
    case DaddrIn(f, s) => p.fam == f && s in t.sets && InSet(Value(p.daddr), t.sets[s])
    case Tproxy(f, _, _) => p.fam == f  // breaks on the other family
    case _ => true
  }

  function Effect(e: Expr, f: Fate): Fate {
    match e
    case Tproxy(_, to, port) => f.(target := {(to, port)})
    case SetMark(m) => f.(mark := {m})
    case _ => f
  }

  function EvalRule(t: Table, r: Rule, p: Packet, f: Fate): Result {
    if r == [] then Continue(f) else
    if !Matches(t, r[0], p) then Continue(f) else
    if r[0].Terminate? then Stop(r[0].verdict, f) else
    EvalRule(t, r[1..], p, Effect(r[0], f))
  }

  // The base chain's policy is accept, and return applies it.
  function EvalChain(t: Table, rules: seq<Rule>, p: Packet, f: Fate): Fate {
    if rules == [] then f else
    match EvalRule(t, rules[0], p, f)
    case Stop(v, g) => g.(rejected := v == Reject)
    case Continue(g) => EvalChain(t, rules[1..], p, g)
  }

  function Classify(o: Options, p: Packet): Fate
    requires Proper(o)
  {
    EvalChain(Render(o), Render(o).prerouting, p, UNTOUCHED)
  }

  // ---- The intended decision ----

  predicate Quic(p: Packet) {
    p.l4.Udp? && p.l4.dport == 443
  }

  function Diverted(o: Options, to: Target): Fate {
    Fate(false, {(to, o.listenPort)}, {o.fwMark})
  }

  function Intended(o: Options, p: Packet): Fate
    requires Proper(o) && |p.daddr| == Width(p.fam)
  {
    if o.lanIface != "" && p.iif != o.lanIface then UNTOUCHED
    else if o.blockQUIC && Quic(p) then UNTOUCHED.(rejected := true)
    else if !p.l4.Tcp? then UNTOUCHED
    else match p.fam
    case V4 => if Bypassed(V4, p.daddr, o.bypass) then UNTOUCHED else Diverted(o, Loopback4)
    case V6 => if !o.enableIPv6 || Bypassed(V6, p.daddr, o.bypass6) then UNTOUCHED else Diverted(o, Loopback6)
  }

  // ---- Interval sets ----

  lemma {:induction false} ValueInjective(a: Bits, b: Bits)
    requires |a| == |b|
    ensures Value(a) == Value(b) <==> a == b
  {
    if a != [] {
      var n := |a| - 1;
      ValueInjective(a[..n], b[..n]);
      assert a == a[..n] + [a[n]] && b == b[..n] + [b[n]];
    }
  }

  lemma {:induction false} Halve(v: int, lo: int, hi: int, x: int)
    requires 0 <= x <= 1
    ensures 2 * lo <= 2 * v + x <= 2 * hi + 1 <==> lo <= v <= hi
  {
  }

  predicate Between(a: Bits, p: Bits)
    requires |p| <= |a|
  {
    Value(Fill(p, |a| - |p|, false)) <= Value(a) <= Value(Fill(p, |a| - |p|, true))
  }

  // One more bit changes nothing.
  lemma {:induction false} OneMoreBit(b: Bits, x: bool, p: Bits)
    requires |p| <= |b|
    ensures Between(b + [x], p) <==> Between(b, p)
  {
    var n := |b| + 1 - |p|;
    assert (b + [x])[..|b|] == b;
    FillStep(p, n, false);
    FillStep(p, n, true);
    Halve(Value(b), Value(Fill(p, n - 1, false)), Value(Fill(p, n - 1, true)), if x then 1 else 0);
  }

  // The addresses whose numbers lie between a prefix filled with zeros and the
  // same prefix filled with ones are those that start with it.
  lemma {:induction false} PrefixIsInterval(a: Bits, p: Bits)
    requires |p| <= |a|
    ensures Between(a, p) <==> p <= a
    decreases |a|
  {
    if |a| == |p| {
      ValueInjective(a, p);
    } else {
      var b, x := a[..|a| - 1], a[|a| - 1];
      assert a == b + [x];
      PrefixIsInterval(b, p);
      OneMoreBit(b, x, p);
    }
  }

  lemma {:induction false} FillStep(p: Bits, n: nat, bit: bool)
    requires n > 0
    ensures Value(Fill(p, n, bit)) == 2 * Value(Fill(p, n - 1, bit)) + if bit then 1 else 0
  {
    var g := Fill(p, n - 1, bit);
    assert (g + [bit])[..|g|] == g;
  }

  lemma {:induction false} ElementsAt(cidrs: seq<Cidr>, i: nat)
    requires forall j :: 0 <= j < |cidrs| ==> cidrs[j].len <= |cidrs[j].addr|
    requires i < |cidrs|
    ensures |Elements(cidrs)| == |cidrs| && Elements(cidrs)[i] == Covers(cidrs[i])
  {
    if i > 0 {
      ElementsAt(cidrs[1..], i - 1);
    } else if |cidrs| > 1 {
      ElementsAt(cidrs[1..], 0);
    }
  }

  lemma {:induction false} CoversIsNetwork(a: Bits, c: Cidr)
    requires |a| == |c.addr| && c.len <= |a|
    ensures Covers(c).lo <= Value(a) <= Covers(c).hi <==> InNetwork(a, c)
  {
    var p := c.addr[..c.len];
    PrefixIsInterval(a, p);
    assert p <= a <==> a[..c.len] == p;
  }

  lemma {:induction false} ElementIsNetwork(f: Family, a: Bits, cidrs: seq<Cidr>, i: nat)
    requires |a| == Width(f) && WellFormed(f, cidrs) && i < |cidrs|
    ensures var s := Elements(cidrs);
      |s| == |cidrs| && (s[i].lo <= Value(a) <= s[i].hi <==> InNetwork(a, cidrs[i]))
  {
    ElementsAt(cidrs, i);
    CoversIsNetwork(a, cidrs[i]);
  }

  // Membership in a compiled set is a prefix match against a listed network.
  lemma {:induction false} SetIsNetworks(f: Family, a: Bits, cidrs: seq<Cidr>)
    requires |a| == Width(f) && WellFormed(f, cidrs)
    ensures InSet(Value(a), Elements(cidrs)) <==> Bypassed(f, a, cidrs)
  {
    var s := Elements(cidrs);
    if InSet(Value(a), s) {
      var i :| 0 <= i < |s| && s[i].lo <= Value(a) <= s[i].hi;
      ElementsLength(cidrs);
      ElementIsNetwork(f, a, cidrs, i);
    }
    if Bypassed(f, a, cidrs) {
      var i :| 0 <= i < |cidrs| && InNetwork(a, cidrs[i]);
      ElementIsNetwork(f, a, cidrs, i);
    }
  }

  lemma {:induction false} ElementsLength(cidrs: seq<Cidr>)
    requires forall j :: 0 <= j < |cidrs| ==> cidrs[j].len <= |cidrs[j].addr|
    ensures |Elements(cidrs)| == |cidrs|
  {
    if cidrs != [] { ElementsAt(cidrs, 0); }
  }

  // ---- The chain, part by part ----

  // A part whose rules all pass the packet on hands it to the rest.
  lemma {:induction false} OneRule(t: Table, r: Rule, rest: seq<Rule>, p: Packet, f: Fate)
    ensures EvalChain(t, [r] + rest, p, f) ==
      match EvalRule(t, r, p, f)
      case Stop(v, g) => g.(rejected := v == Reject)
      case Continue(g) => EvalChain(t, rest, p, g)
  {
    assert ([r] + rest)[1..] == rest;
  }

  // A match followed by a verdict.
  lemma {:induction false} Guarded(t: Table, m: Expr, v: Verdict, p: Packet, f: Fate)
    requires !m.Terminate? && !m.Tproxy? && !m.SetMark?
    ensures EvalRule(t, [m, Terminate(v)], p, f) == if Matches(t, m, p) then Stop(v, f) else Continue(f)
  {
    assert [m, Terminate(v)][1..] == [Terminate(v)];
  }

  lemma {:induction false} GuardedTwice(t: Table, m: Expr, n: Expr, v: Verdict, p: Packet, f: Fate)
    requires !m.Terminate? && !m.Tproxy? && !m.SetMark?
    requires !n.Terminate? && !n.Tproxy? && !n.SetMark?
    ensures EvalRule(t, [m, n, Terminate(v)], p, f)
         == if Matches(t, m, p) && Matches(t, n, p) then Stop(v, f) else Continue(f)
  {
    assert [m, n, Terminate(v)][1..] == [n, Terminate(v)];
    Guarded(t, n, v, p, f);
  }

  // The diverting rule leaves a packet of the other family as it was.
  lemma {:induction false} Divert(t: Table, fam: Family, to: Target, port: int, mark: int, p: Packet)
    ensures EvalRule(t, [L4IsTcp, Tproxy(fam, to, port), SetMark(mark), Terminate(Accept)], p, UNTOUCHED)
         == if p.l4.Tcp? && p.fam == fam then Stop(Accept, Fate(false, {(to, port)}, {mark})) else Continue(UNTOUCHED)
  {
    assert [L4IsTcp, Tproxy(fam, to, port), SetMark(mark), Terminate(Accept)]
        == [L4IsTcp] + ([Tproxy(fam, to, port)] + ([SetMark(mark)] + [Terminate(Accept)]));
    var f1 := UNTOUCHED.(target := {(to, port)});
    var f2 := f1.(mark := {mark});
    Next(t, L4IsTcp, [Tproxy(fam, to, port)] + ([SetMark(mark)] + [Terminate(Accept)]), p, UNTOUCHED);
    Next(t, Tproxy(fam, to, port), [SetMark(mark)] + [Terminate(Accept)], p, UNTOUCHED);
    Next(t, SetMark(mark), [Terminate(Accept)], p, f1);
    assert EvalRule(t, [Terminate(Accept)], p, f2) == Stop(Accept, f2);
  }

  lemma {:induction false} Next(t: Table, e: Expr, r: Rule, p: Packet, f: Fate)
    requires !e.Terminate?
    ensures EvalRule(t, [e] + r, p, f) == if Matches(t, e, p) then EvalRule(t, r, p, Effect(e, f)) else Continue(f)
  {
    assert ([e] + r)[1..] == r;
  }

  lemma {:induction false} LanPart(t: Table, o: Options, rest: seq<Rule>, p: Packet)
    ensures EvalChain(t, LanRules(o) + rest, p, UNTOUCHED)
         == if o.lanIface != "" && p.iif != o.lanIface then UNTOUCHED else EvalChain(t, rest, p, UNTOUCHED)
  {
    if o.lanIface != "" {
      var m := IifnameIsNot(o.lanIface);
      OneRule(t, [m, Terminate(Return)], rest, p, UNTOUCHED);
      Guarded(t, m, Return, p, UNTOUCHED);
    } else {
      assert LanRules(o) + rest == rest;
    }
  }

  lemma {:induction false} QuicPart(t: Table, o: Options, rest: seq<Rule>, p: Packet)
    ensures EvalChain(t, QuicRules(o) + rest, p, UNTOUCHED)
         == if o.blockQUIC && Quic(p) then UNTOUCHED.(rejected := true) else EvalChain(t, rest, p, UNTOUCHED)
  {
    if o.blockQUIC {
      var four := [NfprotoIs(V4), UdpDport(443), Terminate(Reject)];
      var six := [NfprotoIs(V6), UdpDport(443), Terminate(Reject)];
      assert QuicRules(o) + rest == [four] + ([six] + rest);
      OneRule(t, four, [six] + rest, p, UNTOUCHED);
      OneRule(t, six, rest, p, UNTOUCHED);
      GuardedTwice(t, NfprotoIs(V4), UdpDport(443), Reject, p, UNTOUCHED);
      GuardedTwice(t, NfprotoIs(V6), UdpDport(443), Reject, p, UNTOUCHED);
    } else {
      assert QuicRules(o) + rest == rest;
    }
  }

  lemma {:induction false} Part4(t: Table, o: Options, rest: seq<Rule>, p: Packet)
    requires Proper(o) && |p.daddr| == Width(p.fam)
    requires "bypass4" in t.sets && t.sets["bypass4"] == Elements(o.bypass)
    ensures EvalChain(t, Rules4(o) + rest, p, UNTOUCHED) ==
      if !p.l4.Tcp? then UNTOUCHED
      else if p.fam == V6 then EvalChain(t, rest, p, UNTOUCHED)
      else if Bypassed(V4, p.daddr, o.bypass) then UNTOUCHED else Diverted(o, Loopback4)
  {
    var a, b, c := Rules4(o)[0], Rules4(o)[1], Rules4(o)[2];
    assert Rules4(o) + rest == [a] + ([b] + ([c] + rest));
    OneRule(t, a, [b] + ([c] + rest), p, UNTOUCHED);
    OneRule(t, b, [c] + rest, p, UNTOUCHED);
    OneRule(t, c, rest, p, UNTOUCHED);
    Guarded(t, L4IsNotTcp, Return, p, UNTOUCHED);
    Guarded(t, DaddrIn(V4, "bypass4"), Return, p, UNTOUCHED);
    Divert(t, V4, Loopback4, o.listenPort, o.fwMark, p);
    if p.fam == V4 {
      SetIsNetworks(V4, p.daddr, o.bypass);
    }
  }

  lemma {:induction false} Part6(t: Table, o: Options, p: Packet)
    requires Proper(o) && |p.daddr| == Width(p.fam) && p.l4.Tcp? && p.fam == V6
    requires o.enableIPv6 ==> "bypass6" in t.sets && t.sets["bypass6"] == Elements(o.bypass6)
    ensures EvalChain(t, Rules6(o), p, UNTOUCHED) ==
      if !o.enableIPv6 || Bypassed(V6, p.daddr, o.bypass6) then UNTOUCHED else Diverted(o, Loopback6)
  {
    if o.enableIPv6 {
      var b, c := Rules6(o)[0], Rules6(o)[1];
      assert Rules6(o) == [b] + ([c] + []);
      OneRule(t, b, [c] + [], p, UNTOUCHED);
      OneRule(t, c, [], p, UNTOUCHED);
      Guarded(t, DaddrIn(V6, "bypass6"), Return, p, UNTOUCHED);
      Divert(t, V6, Loopback6, o.listenPort, o.fwMark, p);
      SetIsNetworks(V6, p.daddr, o.bypass6);
    }
  }

  // For all options and packets the generated chain makes the intended decision.
  lemma {:induction false} ChainMeansIntended(o: Options, p: Packet)
    requires Proper(o) && |p.daddr| == Width(p.fam)
    ensures Classify(o, p) == Intended(o, p)
  {
    var t := Render(o);
    LanPart(t, o, QuicRules(o) + (Rules4(o) + Rules6(o)), p);
    QuicPart(t, o, Rules4(o) + Rules6(o), p);
    Part4(t, o, Rules6(o), p);
    if p.l4.Tcp? && p.fam == V6 {
      Part6(t, o, p);
    }
  }
}
