/** A holder can be done with a stranger and nothing put: a run that shows it. */
module PairingStranger {
  import opened Base
  import opened PairingTypes
  import opened PairingSpec
  import opened PairingDriver
  import opened PairingHistory
  import opened PairingCompletes
  import A = PairingAgreement
  import H = PairingHolder
  import Hostile = PairingHostile
  import Text

  /** The pairing that a stranger with the key `other` has with the holder. */
  function With(u: Setup, other: string): Setup {
    u.(joinerKey := other)
  }

  /** The stranger's `done`, with no `join` before it. */
  function EarlyDone(v: Setup): RelayMessage {
    RelayMessage(2, Joiner, Sealed(Cid(v), Joiner, 1, Json(DoneMsg(v))))
  }

  function StrangerStep(v: Setup, k: nat): Step {
    if k == 0 then PumpStep(Creator, [HelloRelay(v)], EVERY_CALL_WORKS)
    else if k == 1 then ConfirmStep(Creator, Text.Padded(Code(v), 2), EVERY_CALL_WORKS)
    else PumpStep(Creator, [EarlyDone(v)], EVERY_CALL_WORKS)
  }

  /** A holder that sent its offer takes `done` for the end, whether a `join` came or not. */
  lemma HolderTakesEarlyDone(v: Setup, grant: Grant, w: World, side: Side)
    requires H.HolderOk(v, w, side) && HolderIs(v, grant, side.session, Keyed, true, false, 1, 2)
    requires RelayHasRoom(v, grant) && v.holderNetwork != ""
    ensures var d := Pump(v.env, v.holderNetwork, v.device, side, w, [EarlyDone(v)], EVERY_CALL_WORKS);
      d.0.session.stage == Finished && d.1 == Note(w, Finishes(Creator))
  {
    RoomMeans(v, grant);
    HolderEnds(v, w, side, EarlyDone(v));
  }

  /** The holder after the first `k` steps of the stranger's run; the joiner is not there. */
  ghost predicate StrangerPhase(v: Setup, grant: Grant, sys: System, k: nat) {
    && WorldOk(v, sys.world) && H.HolderOk(v, sys.world, sys.holder) && sys.world.grant.None?
    && match k
       case 0 => HolderIs(v, grant, sys.holder.session, Open, false, false, 0, 0)
       case 1 => HolderIs(v, grant, sys.holder.session, Keyed, false, false, 1, 1)
       case _ => HolderIs(v, grant, sys.holder.session, Keyed, true, false, 1, 2)
  }

  lemma StartPhase(v: Setup, grant: Grant, first: System)
    requires StartState(v, first)
    ensures StrangerPhase(v, grant, first, 0)
  {
    A.InitialOk(v, first);
  }

  lemma HelloPhase(u: Setup, other: string, grant: Grant, sys: System)
    requires StrangerPhase(With(u, other), grant, sys, 0) && RelayHasRoom(With(u, other), grant)
    ensures StrangerPhase(With(u, other), grant, Next(u, sys, StrangerStep(With(u, other), 0)), 1)
  {
    var v := With(u, other);
    HolderHearsHello(v, grant, sys.world, sys.holder);
    H.HolderStep(v, sys.world, sys.holder, StrangerStep(v, 0));
  }

  lemma CodePhase(u: Setup, other: string, grant: Grant, sys: System)
    requires StrangerPhase(With(u, other), grant, sys, 1) && RelayHasRoom(With(u, other), grant) && u.master.Some?
    ensures StrangerPhase(With(u, other), grant, Next(u, sys, StrangerStep(With(u, other), 1)), 2)
  {
    var v := With(u, other);
    HolderTypesCode(v, grant, sys.world, sys.holder);
    H.HolderStep(v, sys.world, sys.holder, StrangerStep(v, 1));
  }

  lemma DonePhase(u: Setup, other: string, grant: Grant, sys: System)
    requires StrangerPhase(With(u, other), grant, sys, 2) && RelayHasRoom(With(u, other), grant) && u.holderNetwork != ""
    ensures var last := Next(u, sys, StrangerStep(With(u, other), 2));
      last.holder.session.stage == Finished && last.world == Note(sys.world, Finishes(Creator))
  {
    HolderTakesEarlyDone(With(u, other), grant, sys.world, sys.holder);
  }

  /** The relay may serve all that the stranger says. */
  lemma StrangerServed(u: Setup, other: string, sys: System, k: nat)
    requires other != u.joinerKey
    ensures Hostile.HostileEnabled(u, sys, StrangerStep(With(u, other), k))
  {
  }

  lemma StepFirst(u: Setup, sys: System, step: Step, steps: seq<Step>, last: System)
    requires Hostile.HostileEnabled(u, sys, step) && Hostile.HostileRun(u, Next(u, sys, step), steps, last)
    ensures Hostile.HostileRun(u, sys, [step] + steps, last)
  {
    assert ([step] + steps)[1..] == steps;
  }

  lemma NothingPut(v: Setup, w: World)
    requires WorldOk(v, w) && w.grant.None?
    ensures forall g :: Put(g) !in Note(w, Finishes(Creator)).history
  {
  }

  /**
   * Over a hostile relay the holder can be done with nothing put: its user types the code that a stranger has, and
   * the stranger sends `done` at once.
   */
  lemma DoneWithNothingPut(u: Setup, grant: Grant, first: System, other: string) returns (steps: seq<Step>, last: System)
    requires StartState(u, first) && other != u.joinerKey
    requires u.master.Some? && u.holderNetwork != "" && RelayHasRoom(With(u, other), grant)
    ensures Hostile.HostileRun(u, first, steps, last)
    ensures last.holder.session.stage == Finished && last.world.grant.None? && forall g :: Put(g) !in last.world.history
  {
    var v := With(u, other);
    var heard := Next(u, first, StrangerStep(v, 0));
    var typed := Next(u, heard, StrangerStep(v, 1));
    StartPhase(v, grant, first);
    HelloPhase(u, other, grant, first);
    CodePhase(u, other, grant, heard);
    DonePhase(u, other, grant, typed);
    NothingPut(v, typed.world);
    last := Next(u, typed, StrangerStep(v, 2));
    StrangerServed(u, other, first, 0);
    StrangerServed(u, other, heard, 1);
    StrangerServed(u, other, typed, 2);
    StepFirst(u, typed, StrangerStep(v, 2), [], last);
    StepFirst(u, heard, StrangerStep(v, 1), [StrangerStep(v, 2)] + [], last);
    steps := [StrangerStep(v, 0)] + ([StrangerStep(v, 1)] + ([StrangerStep(v, 2)] + []));
    StepFirst(u, first, StrangerStep(v, 0), [StrangerStep(v, 1)] + ([StrangerStep(v, 2)] + []), last);
  }
}
