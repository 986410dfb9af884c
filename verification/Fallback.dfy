/**
 The 24 hour fallback: concurrent ticks attest a derived outcome into three write-once agent slots and send
 resolveFallback. No two ticks ever send it for opposite outcomes.
 */
module Fallback {
  import opened Options

  datatype Slot = Slot(agent: nat, submitted: bool, outcome: nat)

  datatype Report = Report(agent: nat, outcome: Option<nat>)

  datatype Policy = Manual | Attest | Arbitrate

  datatype Verdict = AgentWins | Agree | MustArbitrate

  // ------------------------------------------------------------------ majority and votes

  function Count(outcomes: seq<nat>, o: nat): (n: nat)
    ensures n <= |outcomes|
  {
    if outcomes == [] then 0
    else Count(outcomes[..|outcomes| - 1], o) + if outcomes[|outcomes| - 1] == o then 1 else 0
  }

  function Majority(outcomes: seq<nat>): Option<nat> {
    if outcomes == [] then None
    else if Count(outcomes, 0) >= 2 then Some(0)
    else if Count(outcomes, 1) >= 2 then Some(1)
    else None
  }

  function Combine(agent: nat, yes: nat, no: nat): Verdict {
    var total := yes + no;
    if total == 0 then AgentWins
    else
      var vote := if yes >= no then 0 else 1;
      if vote == agent then Agree
      else
        var opposing := if agent == 0 then no else yes;
        if opposing * 3 >= total * 2 then MustArbitrate else AgentWins
  }

  /** The votes agree exactly when their side, a tie counting for outcome 0, is the agents'. */
  lemma AgreeIff(agent: nat, yes: nat, no: nat)
    requires agent <= 1
    ensures Combine(agent, yes, no) == Agree <==> yes + no > 0 && (agent == 0 <==> yes >= no)
  {
  }

  /** Arbitration is forced exactly by two thirds of the votes against the agents: the tie rule never matters to it. */
  lemma ArbitrateIff(agent: nat, yes: nat, no: nat)
    requires agent <= 1
    ensures Combine(agent, yes, no) == MustArbitrate <==>
      yes + no > 0 && (if agent == 0 then no else yes) * 3 >= (yes + no) * 2
  {
  }

  // ------------------------------------------------------------------ slots

  lemma GrewSelf(slots: seq<Slot>)
    ensures Grew(slots, slots)
  {
  }

  /** What write-once slots allow over time. */
  ghost predicate Grew(was: seq<Slot>, now: seq<Slot>) {
    && |now| == |was|
    && forall i :: 0 <= i < |was| ==> now[i].agent == was[i].agent && (was[i].submitted ==> now[i] == was[i])
  }

  function Submitted(slots: seq<Slot>): seq<nat> {
    if slots == [] then []
    else
      var last := slots[|slots| - 1];
      Submitted(slots[..|slots| - 1]) + if last.submitted then [last.outcome] else []
  }

  function Holding(slots: seq<Slot>, o: nat): nat {
    if slots == [] then 0
    else
      var last := slots[|slots| - 1];
      Holding(slots[..|slots| - 1], o) + if last.submitted && last.outcome == o then 1 else 0
  }

  lemma {:induction false} HoldingIsCount(slots: seq<Slot>, o: nat)
    ensures Count(Submitted(slots), o) == Holding(slots, o)
  {
    if slots != [] {
      var front, last := slots[..|slots| - 1], slots[|slots| - 1];
      HoldingIsCount(front, o);
      if last.submitted {
        assert Submitted(slots)[..|Submitted(slots)| - 1] == Submitted(front);
      } else {
        assert Submitted(slots) == Submitted(front);
      }
    }
  }

  lemma {:induction false} HoldingGrows(was: seq<Slot>, now: seq<Slot>, o: nat)
    requires Grew(was, now)
    ensures Holding(was, o) <= Holding(now, o)
  {
    if was != [] {
      HoldingGrows(was[..|was| - 1], now[..|now| - 1], o);
    }
  }

  lemma {:induction false} HoldingBound(slots: seq<Slot>)
    ensures Holding(slots, 0) + Holding(slots, 1) <= |slots|
  {
    if slots != [] {
      HoldingBound(slots[..|slots| - 1]);
    }
  }

  /** A resolveFallback sent for `outcome`, and the slots on chain then. */
  datatype Send = Send(outcome: nat, slots: seq<Slot>)

  ghost predicate Justified(send: Send, slots: seq<Slot>) {
    send.outcome <= 1 && Holding(send.slots, send.outcome) >= 2 && Grew(send.slots, slots)
  }

  /** Whenever they were sent, by whichever ticks, all sends are for one outcome. */
  lemma SendsAgree(slots: seq<Slot>, sends: seq<Send>, i: nat, k: nat)
    requires |slots| == 3 && i < |sends| && k < |sends| && forall s :: s in sends ==> Justified(s, slots)
    ensures sends[i].outcome == sends[k].outcome
  {
    var a, b := sends[i], sends[k];
    assert Justified(a, slots) && Justified(b, slots);
    HoldingGrows(a.slots, slots, a.outcome);
    HoldingGrows(b.slots, slots, b.outcome);
    HoldingBound(slots);
  }

  // ------------------------------------------------------------------ what the contract answers

  /** The preflight call of resolveFallback: it passes, or reverts with one of the contract's two reasons or another. */
  datatype Preflight = Passes | NoMajority | VotesOppose | OtherReason

  /** resolveFallback's checks, in the contract's order, on these slots and votes; the window has passed. */
  function ContractAnswer(slots: seq<Slot>, yes: nat, no: nat, resolved: bool): Preflight {
    var agents := Majority(Submitted(slots));
    if resolved then OtherReason
    else if agents == None then NoMajority
    else if Combine(agents.value, yes, no) == MustArbitrate then VotesOppose
    else Passes
  }

  /** Two slots on chain for an outcome: the contract sees that majority, and never answers that there is none. */
  lemma MajoritySeen(slots: seq<Slot>, yes: nat, no: nat, resolved: bool, o: nat)
    requires |slots| == 3 && o <= 1 && Holding(slots, o) >= 2
    ensures Majority(Submitted(slots)) == Some(o) && ContractAnswer(slots, yes, no, resolved) != NoMajority
    ensures ContractAnswer(slots, yes, no, resolved) == VotesOppose <==>
      !resolved && yes + no > 0 && (if o == 0 then no else yes) * 3 >= (yes + no) * 2
  {
    HoldingIsCount(slots, 0);
    HoldingIsCount(slots, 1);
    HoldingBound(slots);
    ArbitrateIff(o, yes, no);
  }

  // ------------------------------------------------------------------ arbitration against a majority

  /**
   An arbitration for `o` can still meet two slots, and a resolveFallback, for the other outcome if and only if fewer
   than two slots on chain hold `o`: all filled slots hold 0 or 1, and a filled one never changes.
   */
  lemma OpposableIff(slots: seq<Slot>, o: nat)
    requires |slots| == 3 && o <= 1 && forall i :: 0 <= i < 3 && slots[i].submitted ==> slots[i].outcome <= 1
    ensures (exists later :: Grew(slots, later) && Holding(later, 1 - o) >= 2) <==> Holding(slots, o) < 2
  {
    if Holding(slots, o) >= 2 {
      forall later | Grew(slots, later) ensures Holding(later, 1 - o) < 2 {
        HoldingGrows(slots, later, o);
        HoldingBound(later);
      }
    } else {
      var later := seq(3, i requires 0 <= i < 3 => FilledFor(slots[i], 1 - o));
      assert Grew(slots, later);
      HoldingThree(slots, o);
      HoldingThree(later, 1 - o);
    }
  }

  function FilledFor(slot: Slot, o: nat): Slot {
    if slot.submitted then slot else slot.(submitted := true, outcome := o)
  }

  lemma HoldingThree(slots: seq<Slot>, o: nat)
    requires |slots| == 3
    ensures Holding(slots, o) == Held(slots[0], o) + Held(slots[1], o) + Held(slots[2], o)
  {
    var two := slots[..2];
    assert two[..1][..0] == [] && two[..1] == slots[..1];
    assert Holding(two, o) == Holding(two[..1], o) + Held(two[1], o);
    assert Holding(slots[..1], o) == Holding(slots[..1][..0], o) + Held(slots[0], o);
  }

  function Held(slot: Slot, o: nat): nat {
    if slot.submitted && slot.outcome == o then 1 else 0
  }

  // ------------------------------------------------------------------ the oracle contract and its node

  datatype Sent = Mined | Duplicate | Deferred | Error

  /** What this process sent, and how it ended. */
  datatype Act =
    | Attested(slot: nat, outcome: nat, sent: Sent)
    | FallbackCall(outcome: nat, sent: Sent)
    | ArbitrateCall(outcome: nat, sent: Sent)

  class Oracle {
    var slots: seq<Slot>
    var resolved: bool
    var yes: nat
    var no: nat
    ghost var sends: seq<Send>
    /** The sends of this process alone. */
    ghost var acts: seq<Act>
    /** What this process was last told of the slots, and of the market being resolved. */
    ghost var shown: Option<seq<Slot>>
    ghost var told: Option<bool>

    ghost predicate Valid()
      reads this
    {
      |slots| == 3 && forall s :: s in sends ==> Justified(s, slots)
    }

    constructor (a: nat, b: nat, c: nat)
      ensures Valid() && slots == [Slot(a, false, 0), Slot(b, false, 0), Slot(c, false, 0)] && !resolved && sends == []
      ensures acts == [] && yes == 0 == no
    {
      slots, resolved, yes, no := [Slot(a, false, 0), Slot(b, false, 0), Slot(c, false, 0)], false, 0, 0;
      sends, acts, shown, told := [], [], None, None;
    }

    /** Other ticks and voters: slots are write-once, and every send follows the rule proved for `RunFallback`. */
    method Others()
      requires Valid()
      modifies this
      ensures Valid() && Grew(old(slots), slots) && (old(resolved) ==> resolved) && old(sends) <= sends
      ensures acts == old(acts)
    {
    }

    /** Read the slots; None when the call fails. */
    method ReadSlots() returns (read: Option<seq<Slot>>)
      requires Valid()
      modifies this
      ensures Valid() && Grew(old(slots), slots) && (old(resolved) ==> resolved) && old(sends) <= sends
      ensures acts == old(acts) && (read.Some? ==> read.value == slots) && shown == read
    {
      Others();
      read := Some(slots);
      shown := read;
    }

    method IsResolved() returns (r: Option<bool>)
      requires Valid()
      modifies this
      ensures Valid() && Grew(old(slots), slots) && (old(resolved) ==> resolved) && old(sends) <= sends
      ensures acts == old(acts) && (r == Some(true) ==> resolved) && told == r
    {
      Others();
      r := Some(resolved);
      told := r;
    }

    /** submitAttestation: a filled slot reverts "dup attestation". */
    method SubmitAttestation(i: nat, outcome: nat) returns (sent: Sent)
      requires Valid() && i < 3
      modifies this
      ensures Valid() && Grew(old(slots), slots) && (old(resolved) ==> resolved) && old(sends) <= sends
      ensures sent == Mined ==> slots[i].submitted && slots[i].outcome == outcome
      ensures old(slots)[i].submitted ==> sent == Duplicate
      ensures acts == old(acts) + [Attested(i, outcome, sent)]
    {
      Others();
      if slots[i].submitted {
        acts := acts + [Attested(i, outcome, Duplicate)];
        return Duplicate;
      }
      ghost var was := slots;
      slots := slots[i := slots[i].(submitted := true, outcome := outcome)];
      forall s | s in sends ensures Justified(s, slots) {
        assert Justified(s, was);
      }
      sent := Mined;
      acts := acts + [Attested(i, outcome, sent)];
    }

    /** The contract's own answer at some later moment, unless the node lags and gives another one. */
    method PreflightFallback(lag: Option<Preflight>) returns (answer: Preflight)
      requires Valid()
      modifies this
      ensures Valid() && Grew(old(slots), slots) && (old(resolved) ==> resolved) && old(sends) <= sends
      ensures answer == if lag.Some? then lag.value else ContractAnswer(slots, yes, no, resolved)
      ensures acts == old(acts)
    {
      Others();
      answer := if lag.Some? then lag.value else ContractAnswer(slots, yes, no, resolved);
    }

    /** Sending resolveFallback needs two slots on chain that already hold the outcome. */
    method ResolveFallback(outcome: nat) returns (sent: Sent)
      requires Valid() && outcome <= 1 && Holding(slots, outcome) >= 2
      modifies this
      ensures Valid() && Grew(old(slots), slots) && (old(resolved) ==> resolved) && old(sends) <= sends
      ensures (sent == Mined ==> resolved) && (old(resolved) ==> sent == Error)
      ensures exists s :: s in sends && s.outcome == outcome && Grew(old(slots), s.slots)
      ensures acts == old(acts) + [FallbackCall(outcome, sent)]
    {
      ghost var was := slots;
      Others();
      HoldingGrows(was, slots, outcome);
      ghost var send := Send(outcome, slots);
      sends := sends + [send];
      assert send in sends;
      sent := if resolved then Error else Mined;
      acts := acts + [FallbackCall(outcome, sent)];
      resolved := true;
    }

    /** resolveArbitrated, the operator's own call. */
    method ResolveArbitrated(outcome: nat) returns (sent: Sent)
      requires Valid()
      modifies this
      ensures Valid() && Grew(old(slots), slots) && (old(resolved) ==> resolved) && old(sends) <= sends
      ensures (sent == Mined ==> resolved) && (old(resolved) ==> sent == Error)
      ensures acts == old(acts) + [ArbitrateCall(outcome, sent)]
    {
      Others();
      sent := if resolved then Error else Mined;
      acts := acts + [ArbitrateCall(outcome, sent)];
      resolved := true;
    }
  }

  // ------------------------------------------------------------------ one tick

  datatype Reason =
    | ResearchMismatch | AlreadyResolved | NotRegistered | MajorityConflicts | NoAgentMajority | ArbitrationRequired
    | PreflightBlocked | FallbackResolved | Arbitrated

  /** What the tick returns, or the exception it raises with the attestations already sent. */
  datatype Result =
    | Answer(reason: Reason, submitted: bool, attested: seq<nat>, supporters: seq<nat>)
    | Raised(deferred: bool, attested: seq<nat>)

  /**
   The market as this tick read it, votes included, whether the caller lets it arbitrate, and what a lagging node
   answers to the preflight call; None when it answers from the chain as it is then.
   */
  datatype Market = Market(
    closeTime: nat, window: nat, now: nat, yes: nat, no: nat, allowArbitrate: bool, lag: Option<Preflight>)

  /** The window has passed and the market was ever registered. */
  predicate Due(m: Market) {
    m.closeTime > 0 && m.now >= m.closeTime + m.window
  }

  /** Why the tick does not send resolveFallback; None when it does. Without another reason it asks the contract. */
  function Blocker(backed: bool, derived: nat, m: Market, answer: Preflight): Option<Reason> {
    if !backed then Some(NoAgentMajority)
    else if Combine(derived, m.yes, m.no) == MustArbitrate then Some(ArbitrationRequired)
    else
      match answer
      case Passes => None
      case NoMajority => Some(NoAgentMajority)
      case VotesOppose => Some(ArbitrationRequired)
      case OtherReason => Some(PreflightBlocked)
  }

  /** What a tick may conclude from the attestations in, and from the preflight answer. */
  predicate Conclusion(
    reason: Reason, backed: bool, opposed: bool, derived: nat, m: Market, policy: Policy, answer: Preflight)
  {
    var blocker := Blocker(backed, derived, m, answer);
    if opposed then reason == MajorityConflicts
    else if blocker == None then reason == FallbackResolved || reason == AlreadyResolved
    else if m.allowArbitrate && policy == Arbitrate && blocker.value != PreflightBlocked
    then reason == Arbitrated || reason == AlreadyResolved
    else reason == blocker.value
  }

  /**
   Exactly when a tick may arbitrate: policy and caller allow it, no two slots oppose it, and there are no two slots for
   it, or two thirds of the votes oppose the agents, or the preflight call says one of these.
   */
  lemma ArbitratesIff(backed: bool, opposed: bool, derived: nat, m: Market, policy: Policy, answer: Preflight)
    requires derived <= 1
    ensures Conclusion(Arbitrated, backed, opposed, derived, m, policy, answer) <==>
      && m.allowArbitrate && policy == Arbitrate && !opposed
      && (!backed || answer == NoMajority || answer == VotesOppose
          || (m.yes + m.no > 0 && (if derived == 0 then m.no else m.yes) * 3 >= (m.yes + m.no) * 2))
  {
    ArbitrateIff(derived, m.yes, m.no);
  }

  /** The preflight answer this tick acted on: the lagging node's, or the contract's at some moment of the tick. */
  ghost predicate Heard(answer: Preflight, m: Market, was: seq<Slot>, now: seq<Slot>) {
    if m.lag.Some? then answer == m.lag.value
    else exists slots, yes, no, resolved ::
      Grew(was, slots) && Grew(slots, now) && answer == ContractAnswer(slots, yes, no, resolved)
  }

  /**
   With a node that does not lag, a tick that knows two slots on chain for the derived outcome never arbitrates for want
   of an agent majority: only votes of two thirds against the agents, read at the start or at the preflight call, make
   it.
   */
  lemma ArbitratesOnVotes(
    known: seq<Slot>, answer: Preflight, was: seq<Slot>, now: seq<Slot>, derived: nat, m: Market, policy: Policy)
    requires |was| == 3 && derived <= 1 && Knows(known, was) && Holding(known, derived) >= 2
    requires m.lag == None && Heard(answer, m, was, now)
    requires Conclusion(Arbitrated, true, false, derived, m, policy, answer)
    ensures answer == VotesOppose ||
      (m.yes + m.no > 0 && (if derived == 0 then m.no else m.yes) * 3 >= (m.yes + m.no) * 2)
  {
    ArbitratesIff(true, false, derived, m, policy, answer);
    var slots, yes, no, resolved :|
      Grew(was, slots) && Grew(slots, now) && answer == ContractAnswer(slots, yes, no, resolved);
    KnownHolding(known, was, derived);
    HoldingGrows(was, slots, derived);
    MajoritySeen(slots, yes, no, resolved, derived);
  }

  function Matching(reports: seq<Report>, derived: nat): seq<Report> {
    if reports == [] then []
    else
      var last := reports[|reports| - 1];
      Matching(reports[..|reports| - 1], derived) + if last.outcome == Some(derived) then [last] else []
  }

  lemma {:induction false} MatchingIff(reports: seq<Report>, derived: nat)
    ensures forall r :: r in Matching(reports, derived) <==> r in reports && r.outcome == Some(derived)
  {
    if reports != [] {
      MatchingIff(reports[..|reports| - 1], derived);
      assert reports == reports[..|reports| - 1] + [reports[|reports| - 1]];
    }
  }

  /** The agent's slot: its known address is one of the three. */
  function SlotOf(slots: seq<Slot>, addresses: map<nat, nat>, agent: nat): (i: Option<nat>)
    ensures i.Some? ==> i.value < |slots| && agent in addresses && slots[i.value].agent == addresses[agent]
  {
    if agent !in addresses || slots == [] then None
    else if slots[|slots| - 1].agent == addresses[agent] then Some(|slots| - 1)
    else SlotOf(slots[..|slots| - 1], addresses, agent)
  }

  lemma {:induction false} SlotStays(was: seq<Slot>, now: seq<Slot>, addresses: map<nat, nat>, agent: nat)
    requires Grew(was, now)
    ensures SlotOf(was, addresses, agent) == SlotOf(now, addresses, agent)
  {
    if was != [] {
      SlotStays(was[..|was| - 1], now[..|now| - 1], addresses, agent);
    }
  }

  /** The agent's slot on chain holds the outcome. */
  predicate Supports(slots: seq<Slot>, addresses: map<nat, nat>, agent: nat, derived: nat) {
    var i := SlotOf(slots, addresses, agent);
    i.Some? && slots[i.value].submitted && slots[i.value].outcome == derived
  }

  predicate Settled(slots: seq<Slot>, addresses: map<nat, nat>, agent: nat) {
    var i := SlotOf(slots, addresses, agent);
    i.Some? ==> slots[i.value].submitted
  }

  /** Agents of these reports whose slot holds the outcome, in report order. */
  function Supporting(reports: seq<Report>, slots: seq<Slot>, addresses: map<nat, nat>, derived: nat): seq<nat> {
    if reports == [] then []
    else
      var last := reports[|reports| - 1];
      Supporting(reports[..|reports| - 1], slots, addresses, derived) +
        if Supports(slots, addresses, last.agent, derived) then [last.agent] else []
  }

  ghost predicate AllSettled(reports: seq<Report>, slots: seq<Slot>, addresses: map<nat, nat>) {
    forall r :: r in reports ==> Settled(slots, addresses, r.agent)
  }

  /** Settled slots answer the same for good. */
  lemma {:induction false} SupportingStays(
    reports: seq<Report>, was: seq<Slot>, now: seq<Slot>, addresses: map<nat, nat>, derived: nat)
    requires Grew(was, now) && AllSettled(reports, was, addresses)
    ensures Supporting(reports, was, addresses, derived) == Supporting(reports, now, addresses, derived)
    ensures AllSettled(reports, now, addresses)
  {
    forall r | r in reports ensures Settled(now, addresses, r.agent) {
      assert Settled(was, addresses, r.agent);
      SlotStays(was, now, addresses, r.agent);
    }
    if reports != [] {
      var front, last := reports[..|reports| - 1], reports[|reports| - 1];
      assert forall r :: r in front ==> r in reports;
      SupportingStays(front, was, now, addresses, derived);
      assert last in reports && Settled(was, addresses, last.agent);
      SlotStays(was, now, addresses, last.agent);
    }
  }

  /** What this tick has seen of the slots: everything it knows is on chain. */
  ghost predicate Knows(local: seq<Slot>, chain: seq<Slot>) {
    |local| == |chain| && forall i :: 0 <= i < |local| ==>
      local[i].agent == chain[i].agent && (local[i].submitted ==> local[i] == chain[i])
  }

  lemma {:induction false} KnownHolding(local: seq<Slot>, chain: seq<Slot>, o: nat)
    requires Knows(local, chain)
    ensures Holding(local, o) <= Holding(chain, o)
  {
    if local != [] {
      KnownHolding(local[..|local| - 1], chain[..|chain| - 1], o);
    }
  }

  /** The conclusion drawn from known slots: all on chain, and every matching agent's among them. */
  ghost predicate Informed(known: seq<Slot>, chain: seq<Slot>, matching: seq<Report>, addresses: map<nat, nat>) {
    Knows(known, chain) && AllSettled(matching, known, addresses)
  }

  /**
   The tick concluded from slots it knew, all of them on chain by some moment `mid` and every matching agent's among
   them, and from the preflight answer it heard after that.
   */
  ghost predicate Concluded(
    reason: Reason, chain: seq<Slot>, matching: seq<Report>, addresses: map<nat, nat>, derived: nat, m: Market,
    policy: Policy)
    requires derived <= 1
  {
    exists known, mid, answer ::
      && Informed(known, mid, matching, addresses) && Grew(mid, chain) && Heard(answer, m, mid, chain)
      && Conclusion(reason, Holding(known, derived) >= 2, Holding(known, 1 - derived) >= 2, derived, m, policy, answer)
  }

  /** _raced_slot: the slot re-read after a duplicate, when it is now submitted. */
  method RacedSlot(oracle: Oracle, i: nat) returns (reread: Option<Slot>)
    requires oracle.Valid() && i < 3
    modifies oracle
    ensures oracle.Valid() && Grew(old(oracle.slots), oracle.slots) && (old(oracle.resolved) ==> oracle.resolved)
    ensures old(oracle.sends) <= oracle.sends
    ensures reread.Some? ==> reread.value.submitted && reread.value == oracle.slots[i]
    ensures reread == None ==> Unseen(oracle.shown, i)
    ensures oracle.acts == old(oracle.acts)
  {
    var read := oracle.ReadSlots();
    reread := if read.Some? && read.value[i].submitted then Some(read.value[i]) else None;
  }

  /** No read showed this slot filled. */
  predicate Unseen(shown: Option<seq<Slot>>, i: nat) {
    shown.Some? && i < |shown.value| ==> !shown.value[i].submitted
  }

  /** The tick raises over its last attestation: deferred, failed, or a duplicate of one that no read shows. */
  predicate Failed(acts: seq<Act>, shown: Option<seq<Slot>>, deferred: bool) {
    && acts != []
    && var last := acts[|acts| - 1];
    last.Attested? && last.sent != Mined && (deferred <==> last.sent == Deferred)
    && (last.sent == Duplicate ==> Unseen(shown, last.slot))
  }

  /** One attestation was sent: it was mined, or somebody else's was there first, or the tick raises over it. */
  predicate Attempt(
    was: seq<Act>, now: seq<Act>, i: nat, derived: nat, sent: bool, raised: Option<bool>, shown: Option<seq<Slot>>)
  {
    && |now| == |was| + 1 && now[..|was|] == was && now[|was|].Attested?
    && now[|was|] == Attested(i, derived, now[|was|].sent)
    && (sent <==> now[|was|].sent == Mined)
    && (raised == None ==> now[|was|].sent == Mined || now[|was|].sent == Duplicate)
    && (raised.Some? ==> Failed(now, shown, raised.value))
  }

  /** Only attestations of the derived outcome were added, as many of them mined as there are agents listed. */
  ghost predicate Attests(was: seq<Act>, now: seq<Act>, derived: nat, attested: seq<nat>) {
    && was <= now && (forall k :: |was| <= k < |now| ==> now[k].Attested? && now[k].outcome == derived)
    && |attested| == MinedIn(now[|was|..])
  }

  function MinedIn(acts: seq<Act>): nat {
    if acts == [] then 0 else MinedIn(acts[..|acts| - 1]) + if acts[|acts| - 1].sent == Mined then 1 else 0
  }

  lemma AttestsOn(first: seq<Act>, was: seq<Act>, now: seq<Act>, i: nat, derived: nat, sent: bool,
                  raised: Option<bool>, shown: Option<seq<Slot>>, attested: seq<nat>, agent: nat)
    requires Attests(first, was, derived, attested) && Attempt(was, now, i, derived, sent, raised, shown)
    ensures Attests(first, now, derived, if sent then attested + [agent] else attested)
  {
    var tail := now[|first|..];
    assert tail[..|tail| - 1] == was[|first|..];
    forall k | |first| <= k < |now| ensures now[k].Attested? && now[k].outcome == derived {
      if k < |was| { assert now[k] == now[..|was|][k]; }
    }
    assert first <= now by { assert now[..|was|][..|first|] == now[..|first|]; }
  }

  /** One matching report: its slot is submitted afterwards, by this tick or before it, or the tick raises. */
  method AttestOne(oracle: Oracle, i: nat, derived: nat, local: seq<Slot>)
    returns (known: seq<Slot>, sent: bool, raised: Option<bool>)
    requires oracle.Valid() && i < |local| && Knows(local, oracle.slots)
    modifies oracle
    ensures oracle.Valid() && Grew(old(oracle.slots), oracle.slots) && (old(oracle.resolved) ==> oracle.resolved)
    ensures old(oracle.sends) <= oracle.sends && Knows(known, oracle.slots) && Grew(local, known)
    ensures raised == None ==> known[i].submitted && (sent ==> !local[i].submitted && known[i].outcome == derived)
    ensures if local[i].submitted then oracle.acts == old(oracle.acts) && !sent && raised == None
            else Attempt(old(oracle.acts), oracle.acts, i, derived, sent, raised, oracle.shown)
  {
    known, sent, raised := local, false, None;
    if local[i].submitted {
      return;
    }
    var r := oracle.SubmitAttestation(i, derived);
    if r == Mined {
      known, sent := local[i := local[i].(submitted := true, outcome := derived)], true;
    } else if r == Duplicate {
      var reread := RacedSlot(oracle, i);
      if reread == None {
        raised := Some(false);
      } else {
        known := local[i := reread.value];
      }
    } else {
      raised := Some(r == Deferred);
    }
  }

  /** The same against the whole record of what was sent since `first`. */
  method AttestNext(
    oracle: Oracle, i: nat, derived: nat, local: seq<Slot>, agent: nat, ghost first: seq<Act>, attested: seq<nat>)
    returns (known: seq<Slot>, done: seq<nat>, raised: Option<bool>)
    requires oracle.Valid() && i < |local| && Knows(local, oracle.slots)
    requires Attests(first, oracle.acts, derived, attested)
    modifies oracle
    ensures oracle.Valid() && Grew(old(oracle.slots), oracle.slots) && (old(oracle.resolved) ==> oracle.resolved)
    ensures old(oracle.sends) <= oracle.sends && Knows(known, oracle.slots) && Grew(local, known)
    ensures raised == None ==> known[i].submitted && (done != attested ==> known[i].outcome == derived)
    ensures done == attested || done == attested + [agent]
    ensures raised.Some? ==> done == attested
    ensures Attests(first, oracle.acts, derived, done)
    ensures raised.Some? ==> |oracle.acts| > |first| && Failed(oracle.acts, oracle.shown, raised.value)
  {
    ghost var acts := oracle.acts;
    var sent;
    known, sent, raised := AttestOne(oracle, i, derived, local);
    done := if sent then attested + [agent] else attested;
    if !local[i].submitted {
      AttestsOn(first, acts, oracle.acts, i, derived, sent, raised, oracle.shown, attested, agent);
    }
  }

  /** The attestation loop: the supporters are exactly the matching agents whose slot on chain holds the outcome. */
  method AttestAll(oracle: Oracle, matching: seq<Report>, derived: nat, addresses: map<nat, nat>, local: seq<Slot>)
    returns (known: seq<Slot>, attested: seq<nat>, supporters: seq<nat>, raised: Option<bool>)
    requires oracle.Valid() && Knows(local, oracle.slots)
    modifies oracle
    ensures oracle.Valid() && Grew(old(oracle.slots), oracle.slots) && (old(oracle.resolved) ==> oracle.resolved)
    ensures old(oracle.sends) <= oracle.sends && Knows(known, oracle.slots)
    ensures forall a :: a in attested ==> a in supporters && exists r :: r in matching && r.agent == a
    ensures raised == None ==> AllSettled(matching, oracle.slots, addresses) && AllSettled(matching, known, addresses)
    ensures raised == None ==> supporters == Supporting(matching, oracle.slots, addresses, derived)
    ensures Attests(old(oracle.acts), oracle.acts, derived, attested)
    ensures raised.Some? ==>
      |oracle.acts| > |old(oracle.acts)| && Failed(oracle.acts, oracle.shown, raised.value)
  {
    known, attested, supporters, raised := local, [], [], None;
    for k := 0 to |matching|
      invariant oracle.Valid() && Grew(old(oracle.slots), oracle.slots) && (old(oracle.resolved) ==> oracle.resolved)
      invariant old(oracle.sends) <= oracle.sends && Knows(known, oracle.slots)
      invariant AllSettled(matching[..k], oracle.slots, addresses) && AllSettled(matching[..k], known, addresses)
      invariant supporters == Supporting(matching[..k], oracle.slots, addresses, derived)
      invariant Attests(old(oracle.acts), oracle.acts, derived, attested) && raised == None
      invariant forall a :: a in attested ==> a in supporters && exists r :: r in matching && r.agent == a
    {
      var agent := matching[k].agent;
      var slot := SlotOf(known, addresses, agent);
      assert matching[..k + 1] == matching[..k] + [matching[k]] && matching[..k + 1][..k] == matching[..k];
      ghost var was := oracle.slots;
      KnownSlot(known, oracle.slots, addresses, agent);
      if slot.Some? {
        var done;
        ghost var knew := known;
        known, done, raised := AttestNext(oracle, slot.value, derived, known, agent, old(oracle.acts), attested);
        if raised.Some? {
          return;
        }
        SupportingStays(matching[..k], was, oracle.slots, addresses, derived);
        SupportingStays(matching[..k], knew, known, addresses, derived);
        SlotStays(was, oracle.slots, addresses, agent);
        SlotStays(knew, known, addresses, agent);
        if known[slot.value].outcome == derived {
          supporters := supporters + [agent];
        }
        assert matching[k] in matching;
        attested := done;
      }
    }
    assert matching[..|matching|] == matching;
  }

  lemma {:induction false} KnownSlot(local: seq<Slot>, chain: seq<Slot>, addresses: map<nat, nat>, agent: nat)
    requires Knows(local, chain)
    ensures SlotOf(local, addresses, agent) == SlotOf(chain, addresses, agent)
  {
    if local != [] {
      KnownSlot(local[..|local| - 1], chain[..|chain| - 1], addresses, agent);
    }
  }

  /** One resolving call was sent, for the derived outcome. */
  ghost predicate Called(
    was: seq<Act>, now: seq<Act>, derived: nat, arbitrate: bool, done: bool, raised: Option<bool>, told: Option<bool>)
  {
    exists sent ::
      && now == was + [if arbitrate then ArbitrateCall(derived, sent) else FallbackCall(derived, sent)]
      && (done <==> sent == Mined) && (raised.Some? ==> sent != Mined && (raised.value <==> sent == Deferred))
      && (sent == Deferred ==> raised.Some?) && (raised == Some(false) ==> told != Some(true))
  }

  /** A resolving send: false when someone else resolved first. */
  method ResolveSend(oracle: Oracle, derived: nat, arbitrate: bool) returns (done: bool, raised: Option<bool>)
    requires oracle.Valid() && (!arbitrate ==> derived <= 1 && Holding(oracle.slots, derived) >= 2)
    modifies oracle
    ensures oracle.Valid() && Grew(old(oracle.slots), oracle.slots) && old(oracle.sends) <= oracle.sends
    ensures raised == None ==> oracle.resolved
    ensures !arbitrate ==> exists s :: s in oracle.sends && s.outcome == derived && Grew(old(oracle.slots), s.slots)
    ensures Called(old(oracle.acts), oracle.acts, derived, arbitrate, done, raised, oracle.told)
  {
    var sent;
    if arbitrate {
      sent := oracle.ResolveArbitrated(derived);
    } else {
      sent := oracle.ResolveFallback(derived);
    }
    done, raised := sent == Mined, None;
    if sent == Deferred {
      raised := Some(true);
    } else if sent != Mined {
      var raced := oracle.IsResolved();
      if raced != Some(true) {
        raised := Some(false);
      }
    }
  }

  lemma MajorityHolds(slots: seq<Slot>, o: nat)
    requires |slots| == 3 && o <= 1
    ensures var agents := Majority(Submitted(slots));
      && (agents == Some(o) <==> Holding(slots, o) >= 2) && (agents == Some(1 - o) <==> Holding(slots, 1 - o) >= 2)
      && (agents == None || agents == Some(o) || agents == Some(1 - o))
  {
    HoldingIsCount(slots, 0);
    HoldingIsCount(slots, 1);
    HoldingBound(slots);
  }

  /** Send the resolving transaction, and answer or raise. */
  method Conclude(oracle: Oracle, derived: nat, arbitrate: bool, attested: seq<nat>, supporters: seq<nat>)
    returns (result: Result)
    requires oracle.Valid() && (!arbitrate ==> derived <= 1 && Holding(oracle.slots, derived) >= 2)
    modifies oracle
    ensures oracle.Valid() && Grew(old(oracle.slots), oracle.slots) && old(oracle.sends) <= oracle.sends
    ensures result.attested == attested && (result.Answer? ==> result.supporters == supporters && oracle.resolved)
    ensures result.Answer? ==>
      result.reason ==
        if !result.submitted then AlreadyResolved else if arbitrate then Arbitrated else FallbackResolved
    ensures !arbitrate ==> exists s :: s in oracle.sends && s.outcome == derived && Grew(old(oracle.slots), s.slots)
    ensures Called(old(oracle.acts), oracle.acts, derived, arbitrate, result.Answer? && result.submitted,
                   if result.Raised? then Some(result.deferred) else None, oracle.told)
  {
    var done, raised := ResolveSend(oracle, derived, arbitrate);
    var reason := if !done then AlreadyResolved else if arbitrate then Arbitrated else FallbackResolved;
    result := if raised.Some? then Raised(raised.value, attested) else Answer(reason, done, attested, supporters);
  }

  /** Only a resolved, arbitrated or lost call is sent, one at most; and the tick only raises over such a call. */
  ghost predicate Decided(was: seq<Act>, now: seq<Act>, derived: nat, result: Result, told: Option<bool>) {
    if result.Answer? && result.reason !in {FallbackResolved, Arbitrated, AlreadyResolved}
    then now == was && !result.submitted
    else
      && |now| == |was| + 1 && now[..|was|] == was && !now[|was|].Attested? && now[|was|].outcome == derived
      && (result.Answer? ==> (result.submitted <==> now[|was|].sent == Mined))
      && (result.Answer? && result.reason == FallbackResolved ==> now[|was|].FallbackCall? && result.submitted)
      && (result.Answer? && result.reason == Arbitrated ==> now[|was|].ArbitrateCall? && result.submitted)
      && (result.Answer? && result.reason == AlreadyResolved ==> !result.submitted)
      && (result.Raised? ==> now[|was|].sent != Mined && (result.deferred <==> now[|was|].sent == Deferred))
      && (result.Raised? && !result.deferred ==> told != Some(true))
  }

  /** Once every attestation is in: resolve on a majority for the outcome, arbitrate where the policy allows it. */
  method Decide(
    oracle: Oracle, derived: nat, known: seq<Slot>, m: Market, policy: Policy, attested: seq<nat>,
    supporters: seq<nat>)
    returns (result: Result, ghost answer: Preflight)
    requires oracle.Valid() && Knows(known, oracle.slots) && derived <= 1
    modifies oracle
    ensures oracle.Valid() && Grew(old(oracle.slots), oracle.slots) && old(oracle.sends) <= oracle.sends
    ensures result.attested == attested && (result.Answer? ==> result.supporters == supporters)
    ensures result.Answer? ==> (result.submitted <==> result.reason == FallbackResolved || result.reason == Arbitrated)
    ensures result.Answer? && (result.submitted || result.reason == AlreadyResolved) ==> oracle.resolved
    ensures Heard(answer, m, old(oracle.slots), oracle.slots)
    ensures result.Answer? ==> Conclusion(
      result.reason, Holding(known, derived) >= 2, Holding(known, 1 - derived) >= 2, derived, m, policy, answer)
    ensures result.Answer? && result.reason == FallbackResolved ==>
      exists s :: s in oracle.sends && s.outcome == derived && Grew(old(oracle.slots), s.slots)
    ensures Decided(old(oracle.acts), oracle.acts, derived, result, oracle.told)
  {
    var agents := Majority(Submitted(known));
    MajorityHolds(known, derived);
    KnownHolding(known, oracle.slots, derived);
    ghost var was := oracle.slots;
    GrewSelf(was);
    answer := if m.lag.Some? then m.lag.value else ContractAnswer(was, oracle.yes, oracle.no, oracle.resolved);
    if agents.Some? && agents.value != derived {
      result := Answer(MajorityConflicts, false, attested, supporters);
      return;
    }
    var blocker;
    blocker, answer := FindBlocker(oracle, derived, agents, m);
    HoldingGrows(was, oracle.slots, derived);
    ghost var mid := oracle.slots;
    if blocker == None {
      result := Conclude(oracle, derived, false, attested, supporters);
    } else {
      result := Refer(oracle, derived, blocker.value, m, policy, attested, supporters);
    }
    HeardLater(answer, m, was, mid, oracle.slots);
  }

  lemma HeardLater(answer: Preflight, m: Market, was: seq<Slot>, mid: seq<Slot>, now: seq<Slot>)
    requires Heard(answer, m, was, mid) && Grew(mid, now)
    ensures Heard(answer, m, was, now)
  {
    if m.lag == None {
      var slots, yes, no, resolved :|
        Grew(was, slots) && Grew(slots, mid) && answer == ContractAnswer(slots, yes, no, resolved);
      assert Grew(slots, now);
    }
  }

  /** Why the agents' outcome is not sent: no majority, votes against it, or the contract's own answer. */
  method FindBlocker(oracle: Oracle, derived: nat, agents: Option<nat>, m: Market)
    returns (blocker: Option<Reason>, ghost answer: Preflight)
    requires oracle.Valid() && (agents.Some? ==> agents.value == derived)
    modifies oracle
    ensures oracle.Valid() && Grew(old(oracle.slots), oracle.slots) && old(oracle.sends) <= oracle.sends
    ensures oracle.acts == old(oracle.acts) && (old(oracle.resolved) ==> oracle.resolved)
    ensures Heard(answer, m, old(oracle.slots), oracle.slots)
    ensures blocker == Blocker(agents.Some?, derived, m, answer)
  {
    ghost var was := oracle.slots;
    GrewSelf(was);
    answer := if m.lag.Some? then m.lag.value else ContractAnswer(was, oracle.yes, oracle.no, oracle.resolved);
    if agents == None {
      return Some(NoAgentMajority), answer;
    }
    if Combine(agents.value, m.yes, m.no) == MustArbitrate {
      return Some(ArbitrationRequired), answer;
    }
    var heard := oracle.PreflightFallback(m.lag);
    answer := heard;
    GrewSelf(oracle.slots);
    blocker := match heard
      case Passes => None
      case NoMajority => Some(NoAgentMajority)
      case VotesOppose => Some(ArbitrationRequired)
      case OtherReason => Some(PreflightBlocked);
  }

  /** No resolution by the agents' slots: arbitrate where policy and caller allow it, else answer the blocker. */
  method Refer(
    oracle: Oracle, derived: nat, blocker: Reason, m: Market, policy: Policy, attested: seq<nat>,
    supporters: seq<nat>)
    returns (result: Result)
    requires oracle.Valid() && blocker in {NoAgentMajority, ArbitrationRequired, PreflightBlocked}
    modifies oracle
    ensures oracle.Valid() && Grew(old(oracle.slots), oracle.slots) && old(oracle.sends) <= oracle.sends
    ensures result.attested == attested && (result.Answer? ==> result.supporters == supporters)
    ensures if m.allowArbitrate && policy == Arbitrate && blocker != PreflightBlocked
            then result.Answer? ==>
              && oracle.resolved && result.reason == if result.submitted then Arbitrated else AlreadyResolved
            else result == Answer(blocker, false, attested, supporters) && oracle.slots == old(oracle.slots)
    ensures Decided(old(oracle.acts), oracle.acts, derived, result, oracle.told)
  {
    if m.allowArbitrate && policy == Arbitrate && (blocker == NoAgentMajority || blocker == ArbitrationRequired) {
      result := Conclude(oracle, derived, true, attested, supporters);
      return;
    }
    result := Answer(blocker, false, attested, supporters);
  }

  /**
   What a tick that may act sent: attestations of the derived outcome, those mined being the ones it reports; and then
   what `Decided` says, unless it raised over an attestation that failed.
   */
  ghost predicate Acted(
    was: seq<Act>, now: seq<Act>, derived: nat, result: Result, shown: Option<seq<Slot>>, told: Option<bool>)
  {
    exists mid: seq<Act> ::
      && Attests(was, mid, derived, result.attested)
      && (Decided(mid, now, derived, result, told)
          || (result.Raised? && now == mid && |mid| > |was| && Failed(mid, shown, result.deferred)))
  }

  /** Answers that report supporters read off the chain. */
  predicate Counted(result: Result)
    requires result.Answer?
  {
    result.submitted || result.reason == NoAgentMajority || result.reason == ArbitrationRequired
  }

  /**
   run_fallback, other ticks interleaving at every call. It keeps `Oracle.Valid`, so by `SendsAgree` no two ticks send
   resolveFallback for opposite outcomes, and it attests and reports only agents that matched the derived outcome.
   */
  method RunFallback(
    oracle: Oracle, derived: nat, reports: seq<Report>, addresses: map<nat, nat>, m: Market, policy: Policy)
    returns (result: Result)
    requires oracle.Valid() && derived <= 1
    modifies oracle
    ensures oracle.Valid() && Grew(old(oracle.slots), oracle.slots) && old(oracle.sends) <= oracle.sends
    ensures policy == Manual ==> result == Answer(ResearchMismatch, false, [], []) && oracle.slots == old(oracle.slots)
    ensures forall a :: a in result.attested ==> exists r :: r in reports && r.agent == a && r.outcome == Some(derived)
    ensures result.Answer? && (result.submitted || result.reason == AlreadyResolved) ==> oracle.resolved
    ensures result.Answer? && Counted(result) ==>
      result.supporters == Supporting(Matching(reports, derived), oracle.slots, addresses, derived)
    ensures result.Answer? && result.reason == FallbackResolved ==>
      exists s :: s in oracle.sends && s.outcome == derived && Grew(old(oracle.slots), s.slots)
    ensures result.Answer? && result.reason == Arbitrated ==> policy == Arbitrate && m.allowArbitrate
    ensures policy != Manual && !old(oracle.resolved) && !Due(m) ==>
      && result == Answer(if m.closeTime == 0 then NotRegistered else ResearchMismatch, false, [], [])
      && oracle.slots == old(oracle.slots)
    ensures policy != Manual && !old(oracle.resolved) && Due(m) && result.Answer? ==>
      if Holding(old(oracle.slots), 1 - derived) >= 2 then result == Answer(MajorityConflicts, false, [], [])
      else Concluded(result.reason, oracle.slots, Matching(reports, derived), addresses, derived, m, policy)
    ensures policy != Manual && old(oracle.resolved) ==> result == Answer(AlreadyResolved, false, [], [])
    ensures policy == Manual || old(oracle.resolved) || !Due(m) || Holding(old(oracle.slots), 1 - derived) >= 2 ==>
      oracle.acts == old(oracle.acts)
    ensures policy != Manual && !old(oracle.resolved) && Due(m) && Holding(old(oracle.slots), 1 - derived) < 2 ==>
      Acted(old(oracle.acts), oracle.acts, derived, result, oracle.shown, oracle.told)
  {
    if policy == Manual {
      return Answer(ResearchMismatch, false, [], []);
    }
    if oracle.resolved {
      return Answer(AlreadyResolved, false, [], []);
    }
    if m.closeTime == 0 {
      return Answer(NotRegistered, false, [], []);
    }
    if m.now < m.closeTime + m.window {
      return Answer(ResearchMismatch, false, [], []);
    }
    var local := oracle.slots;
    var prior := Majority(Submitted(local));
    MajorityHolds(local, derived);
    if prior.Some? && prior.value != derived {
      return Answer(MajorityConflicts, false, [], []);
    }
    var matching := Matching(reports, derived);
    var known, attested, supporters, raised := AttestAll(oracle, matching, derived, addresses, local);
    MatchingIff(reports, derived);
    ghost var mid := oracle.acts;
    if raised.Some? {
      result := Raised(raised.value, attested);
      assert Attests(old(oracle.acts), mid, derived, result.attested);
      return;
    }
    ghost var was := oracle.slots;
    ghost var answer;
    result, answer := Decide(oracle, derived, known, m, policy, attested, supporters);
    assert Informed(known, was, matching, addresses) && Heard(answer, m, was, oracle.slots);
    SupportingStays(matching, was, oracle.slots, addresses, derived);
    assert Attests(old(oracle.acts), mid, derived, result.attested);
    assert Decided(mid, oracle.acts, derived, result, oracle.told);
  }
}
