/** What stays bounded over a hostile relay: the log, and the slots of the two stores. */
module PairingHostileLimits {
  import opened PairingTypes
  import opened PairingDriver
  import opened PairingElsewhere
  import opened PairingHostile
  import opened PairingTermination

  /** The highest sequence number of a batch. */
  function HighestSeq(batch: seq<RelayMessage>): (last: nat)
    ensures forall m :: m in batch ==> m.seqno <= last
  {
    if batch == [] then 0
    else
      var rest := HighestSeq(batch[1..]);
      if batch[0].seqno > rest then batch[0].seqno else rest
  }

  function LastServed(step: Step): (last: nat)
    ensures ServedUpTo(step, last)
  {
    if step.PumpStep? then HighestSeq(step.batch) else 0
  }

  lemma {:induction false} HostileRunIsPaced(u: Setup, first: System, steps: seq<Step>, last: System)
    requires BothPaced(first) && HostileRun(u, first, steps, last)
    ensures BothPaced(last)
    decreases |steps|
  {
    if steps != [] {
      NextStaysPaced(u, first, steps[0], LastServed(steps[0]));
      HostileRunIsPaced(u, Next(u, first, steps[0]), steps[1..], last);
    }
  }

  /** A holder elsewhere leaves at most three messages in the log: the hello, its offer and its answer. */
  lemma ForeignHasThree(u: Setup, sys: System, id: ChannelId)
    requires Foreign(u, sys, id) && BothPaced(sys)
    ensures |sys.world.relay| <= 3
  {
    var relay := sys.world.relay;
    OwnSplits(relay);
    LastOwnIsApart(u, relay, Creator, id);
    LastOwnIsApart(u, relay, Joiner, id);
  }

  lemma LastOwnIsApart(u: Setup, relay: seq<RelayMessage>, role: Role, id: ChannelId)
    requires AllApart(u, relay, id) && Numbered(Own(relay, role))
    ensures |Own(relay, role)| <= (if role == Creator then 2 else 1)
  {
    var own := Own(relay, role);
    if own != [] {
      var p := own[|own| - 1];
      OwnIsPosted(relay, role, p);
      var m :| m in relay && m.from == role && m.payload == p;
      assert Apart(u, m, id);
    }
  }

  /** In every run over a hostile relay the log holds at most five messages. */
  lemma HostileFiveMessages(u: Setup, sys: System)
    requires HostileReachable(u, sys)
    ensures |sys.world.relay| <= 5
  {
    var first, steps :| StartState(u, first) && HostileRun(u, first, steps, sys);
    StartIsPaced(u, first);
    HostileRunIsPaced(u, first, steps, sys);
    HostileReachableOk(u, sys);
    if Honest(u, sys) {
      SystemHasFive(u, sys);
    } else {
      var id :| Foreign(u, sys, id);
      ForeignHasThree(u, sys, id);
    }
  }

  lemma {:induction false} HostileRunKeepsSlots(u: Setup, first: System, steps: seq<Step>, last: System)
    requires BothPaced(first) && SlotsOk(first) && HostileRun(u, first, steps, last) && SlotsWork(steps)
    ensures SlotsOk(last)
    decreases |steps|
  {
    if steps != [] {
      var served := LastServed(steps[0]);
      NextStaysPaced(u, first, steps[0], served);
      NextKeepsSlots(u, first, steps[0], served);
      HostileRunKeepsSlots(u, Next(u, first, steps[0]), steps[1..], last);
    }
  }

  /** With working storage a slot is full exactly while its session is active, also over a hostile relay. */
  lemma HostileSlotIffActive(u: Setup, first: System, steps: seq<Step>, last: System)
    requires StartState(u, first) && HostileRun(u, first, steps, last) && SlotsWork(steps)
    ensures SlotsOk(last)
  {
    StartIsPaced(u, first);
    HostileRunKeepsSlots(u, first, steps, last);
  }
}
