/**
 How far requests and handoffs get while the authority moves: a request that is
 forwarded while handoffs go on, and a handoff whose acknowledgement was lost.
 */
module HandoffProgress {
  import opened Base
  import opened Handoff

  // ----- Records over a run -----

  /** A later record of a Controller: a larger epoch, or the same one of the same owner. */
  predicate Later(a: Authority, b: Authority) {
    a.epoch < b.epoch || (a.epoch == b.epoch && a.controllerId == b.controllerId)
  }

  lemma OwnersGrow(f: Fabric, step: Step)
    ensures f.owners <= Take(f, step).owners
  {
  }

  lemma StepLater(f: Fabric, step: Step, c: string)
    requires Sound(f) && Enabled(f, step) && |f.owners| < U64_MAX && c in f.records
    ensures c in Take(f, step).records && Later(f.records[c], Take(f, step).records[c])
  {
    hide NamedReached, EarlierReached, OffersRanked, AcknowledgedReached, HandlersHold, Take;
    StepKeeps(f, step);
    OwnersGrow(f, step);
    EpochsNeverDecrease(f, step, c);
    var f' := Take(f, step);
    FitsAt(f.owners, f.records, c);
    FitsAt(f'.owners, f'.records, c);
  }

  lemma {:induction false} RunLater(f: Fabric, steps: seq<Step>, c: string)
    requires Sound(f) && ValidRun(f, steps) && |f.owners| + |steps| <= U64_MAX && c in f.records
    ensures var g := Run(f, steps);
      && Sound(g) && f.owners <= g.owners && |g.owners| <= |f.owners| + |steps|
      && c in g.records && Later(f.records[c], g.records[c])
    decreases |steps|
  {
    hide Sound, Take, Enabled;
    if steps != [] {
      StepKeeps(f, steps[0]);
      OwnersGrow(f, steps[0]);
      StepLater(f, steps[0], c);
      RunLater(Take(f, steps[0]), steps[1..], c);
    }
  }

  // ----- Forwarding amid handoffs -----

  function StepsIn(legs: seq<seq<Step>>): nat {
    if legs == [] then 0 else |legs[0]| + StepsIn(legs[1..])
  }

  /** A request at `c` is forwarded once per leg; during a leg other steps happen. */
  ghost predicate Travels(f: Fabric, c: string, legs: seq<seq<Step>>)
    decreases |legs|
  {
    legs == [] ||
    (&& c in f.records && Answer(f, c).Forward? && ValidRun(f, legs[0])
     && Travels(Run(f, legs[0]), Answer(f, c).to, legs[1..]))
  }

  ghost function StateAfter(f: Fabric, legs: seq<seq<Step>>): Fabric
    decreases |legs|
  {
    if legs == [] then f else StateAfter(Run(f, legs[0]), legs[1..])
  }

  ghost function PlaceAfter(f: Fabric, c: string, legs: seq<seq<Step>>): string
    requires Travels(f, c, legs)
    decreases |legs|
  {
    if legs == [] then c else PlaceAfter(Run(f, legs[0]), Answer(f, c).to, legs[1..])
  }

  /** When a forwarded request arrives, the record there is of a larger epoch than the one
      it left, unless the request is served there. */
  lemma LegAdvances(f: Fabric, c: string, leg: seq<Step>)
    requires Sound(f) && c in f.records && Answer(f, c).Forward?
    requires ValidRun(f, leg) && |f.owners| + |leg| <= U64_MAX
    ensures var next := Answer(f, c).to;
      var g := Run(f, leg);
      && Sound(g) && |g.owners| <= |f.owners| + |leg| && f.records[c].epoch <= |f.owners| <= |g.owners|
      && next in g.records
      && (Answer(g, next) == Here || f.records[c].epoch < g.records[next].epoch)
  {
    hide Sound, Take, Enabled, Run, ValidRun, Route;
    ForwardingAdvances(f, c);
    RunLater(f, leg, Answer(f, c).to);
    ForwardingAdvances(f, Answer(f, c).to);
    ForwardingAdvances(Run(f, leg), Answer(f, c).to);
  }

  /** While handoffs go on, a request is forwarded at most once more than epochs have been
      given out, by the time it arrives, beyond the one it started from. It can only be
      kept travelling by new handoffs. */
  lemma {:induction false} TravelIsBounded(f: Fabric, c: string, legs: seq<seq<Step>>)
    requires Sound(f) && c in f.records && Travels(f, c, legs) && |f.owners| + StepsIn(legs) <= U64_MAX
    ensures var g := StateAfter(f, legs);
      && Sound(g) && PlaceAfter(f, c, legs) in g.records
      && |f.owners| <= |g.owners|
      && |legs| + f.records[c].epoch <= 1 + |g.owners|
    decreases |legs|
  {
    hide Sound, Run, ValidRun;
    EpochIsGiven(f, c);
    if legs != [] {
      LegAdvances(f, c, legs[0]);
      var next, g := Answer(f, c).to, Run(f, legs[0]);
      TravelIsBounded(g, next, legs[1..]);
      assert legs[1..] != [] ==> Answer(g, next) != Here;
    }
  }

  lemma EpochIsGiven(f: Fabric, c: string)
    requires Sound(f) && c in f.records
    ensures 1 <= f.records[c].epoch <= |f.owners|
  {
    hide NamedReached, EarlierReached, OffersRanked, AcknowledgedReached, HandlersHold;
    FitsAt(f.owners, f.records, c);
  }

  /** From the creation of the session on, whatever happened before and happens meanwhile. */
  lemma RoutingEndsAmidHandoffs(c0: string, before: seq<Step>, c: string, legs: seq<seq<Step>>)
    requires ValidRun(Created(c0), before) && c in Run(Created(c0), before).records
    requires Travels(Run(Created(c0), before), c, legs) && |before| + StepsIn(legs) < U64_MAX
    ensures var g := StateAfter(Run(Created(c0), before), legs);
      && PlaceAfter(Run(Created(c0), before), c, legs) in g.records
      && |legs| <= |g.owners|
  {
    hide Sound, Run, ValidRun, Travels, StateAfter, PlaceAfter;
    CreatedIsSound(c0);
    RunLater(Created(c0), before, c0);
    var f := Run(Created(c0), before);
    EpochIsGiven(f, c);
    TravelIsBounded(f, c, legs);
  }

  // ----- Completing a handoff -----

  /** A handoff starts exactly at a quiescent session whose record names this Controller
      and has no mark for another target. */
  lemma HandoffStartsIff(f: Fabric, c: string, target: string, quiescent: bool)
    requires c !in f.handlers
    ensures c in DoStart(f, c, target, quiescent).handlers <==>
      && quiescent && c in f.records && f.records[c].controllerId == c
      && (f.records[c].pending == None || f.records[c].pending == Some(target))
    ensures c !in DoStart(f, c, target, quiescent).handlers ==> DoStart(f, c, target, quiescent) == f
  {
  }

  /** From every sound state, the holder can hand the session to any other Controller with
      an open gate: it is offered, accepted and committed, the target holds it at the next
      epoch, and the old holder forwards there. */
  lemma HandoffCompletes(f: Fabric, c: string, target: string)
    requires Sound(f) && Holds(f, c) && target != c && |f.owners| < U64_MAX
    requires c !in f.handlers && target !in f.handlers
    ensures
      var offer := Authority(target, |f.owners| + 1, None);
      var steps := [StartHandoff(c, target, true), Deliver(offer), Commit(c)];
      var g := Run(f, steps);
      && ValidRun(f, steps)
      && Holds(g, target) && g.records[target].epoch == f.records[c].epoch + 1
      && Answer(g, c) == Forward(target) && g.handlers == f.handlers
  {
    hide NamedReached, EarlierReached, OffersRanked, AcknowledgedReached, HandlersHold;
    FitsAt(f.owners, f.records, c);
    if target in f.records {
      FitsAt(f.owners, f.records, target);
    }
    var offer := Authority(target, |f.owners| + 1, None);
    var steps := [StartHandoff(c, target, true), Deliver(offer), Commit(c)];
    var f1 := Take(f, steps[0]);
    assert f1.handlers == f.handlers[c := offer] && offer in f1.offers && f1.RecordOf(target) == f.RecordOf(target);
    var f2 := Take(f1, steps[1]);
    assert f2.records[target] == offer && offer in f2.acknowledged;
    var f3 := Take(f2, steps[2]);
    assert f3.handlers == f.handlers;
    RunThree(f, steps, f1, f2, f3);
  }

  lemma RunThree(f: Fabric, steps: seq<Step>, f1: Fabric, f2: Fabric, f3: Fabric)
    requires |steps| == 3
    requires Enabled(f, steps[0]) && f1 == Take(f, steps[0]) && Enabled(f1, steps[1]) && f2 == Take(f1, steps[1])
    requires Enabled(f2, steps[2]) && f3 == Take(f2, steps[2])
    ensures ValidRun(f, steps) && Run(f, steps) == f3
  {
    hide Take, Enabled;
    assert steps[2..][1..] == [] && steps[2..][0] == steps[2];
    assert ValidRun(f2, steps[2..]) && Run(f2, steps[2..]) == f3;
    assert steps[1..][1..] == steps[2..] && steps[1..][0] == steps[1];
    assert ValidRun(f1, steps[1..]) && Run(f1, steps[1..]) == f3;
  }

  // ----- Repeating a handoff -----

  /** `c` still names itself and has marked the session for `target`. */
  predicate Marked(f: Fabric, c: string, target: string) {
    c in f.records && f.records[c] == Authority(c, f.records[c].epoch, Some(target))
  }

  /** The target of an offer has gone past it, or has begun to hand the session on. */
  predicate HandedOn(records: Records, offer: Authority) {
    var t := offer.controllerId;
    t in records
    && (records[t].epoch > offer.epoch || (records[t].epoch == offer.epoch && records[t].pending.Some?))
  }

  /** A marked handoff that is offered again is accepted exactly when its target has not
      begun to hand the session on. */
  lemma RepeatAcceptedIffNotHandedOn(f: Fabric, c: string, target: string)
    requires Sound(f) && Marked(f, c, target) && |f.owners| <= U64_MAX
    ensures Accept(target, f.RecordOf(target), Offer(f.records[c], target)).Ok?
      <==> !HandedOn(f.records, Offer(f.records[c], target))
  {
    hide NamedReached, EarlierReached, OffersRanked, AcknowledgedReached, HandlersHold;
    FitsAt(f.owners, f.records, c);
    if target in f.records {
      FitsAt(f.owners, f.records, target);
    }
  }

  /** The handoff from `c` cannot be completed: its target has handed the session on, and
      no acceptance is on the way. */
  ghost predicate Barred(f: Fabric, c: string, target: string, epoch: nat) {
    && c in f.records && f.records[c].epoch >= epoch
    && (f.records[c].epoch == epoch ==>
          && f.records[c] == Authority(c, epoch, Some(target))
          && HandedOn(f.records, Authority(target, epoch + 1, None))
          && (c in f.handlers ==> Authority(target, epoch + 1, None) !in f.acknowledged))
  }

  /** A record passes its epoch or keeps its mark. */
  lemma MarkStays(f: Fabric, step: Step, c: string)
    requires Sound(f) && Enabled(f, step) && c in f.records && f.records[c].pending.Some? && f.records[c].controllerId == c
    ensures var g := Take(f, step);
      c in g.records && (g.records[c] == f.records[c] || g.records[c].epoch > f.records[c].epoch)
  {
    hide AllFit, NamedReached, EarlierReached, OffersRanked, AcknowledgedReached;
    if step.Commit? && step.c == c {
      assert Handles(f.offers, f.records, c, f.handlers[c]);
    }
  }

  lemma HandedOnStays(f: Fabric, step: Step, offer: Authority)
    requires 1 <= offer.epoch <= |f.owners| < U64_MAX && f.owners[offer.epoch - 1] == offer.controllerId
    requires Sound(f) && Enabled(f, step) && HandedOn(f.records, offer)
    ensures HandedOn(Take(f, step).records, offer)
  {
    hide NamedReached, EarlierReached, OffersRanked, AcknowledgedReached, HandlersHold, Take, Enabled;
    var t := offer.controllerId;
    FitsAt(f.owners, f.records, t);
    EpochsNeverDecrease(f, step, t);
    if f.records[t].epoch == offer.epoch {
      MarkStays(f, step, t);
    }
  }

  lemma BarredStep(f: Fabric, step: Step, c: string, target: string, epoch: nat)
    requires Sound(f) && Enabled(f, step) && |f.owners| < U64_MAX && Barred(f, c, target, epoch)
    ensures Barred(Take(f, step), c, target, epoch)
  {
    hide Sound, HandedOn;
    EpochsNeverDecrease(f, step, c);
    if f.records[c].epoch == epoch {
      var offer := Authority(target, epoch + 1, None);
      MarkIsGiven(f, c, target);
      HandedOnStays(f, step, offer);
      MarkStays(f, step, c);
      NotAcceptedAgain(f, step, c, target, epoch);
    }
  }

  lemma MarkIsGiven(f: Fabric, c: string, target: string)
    requires Sound(f) && Marked(f, c, target)
    ensures f.records[c].epoch < |f.owners| && f.owners[f.records[c].epoch] == target
    ensures c in f.handlers ==> f.handlers[c] == Authority(target, f.records[c].epoch + 1, None)
  {
    hide NamedReached, EarlierReached, AcknowledgedReached;
    FitsAt(f.owners, f.records, c);
    if c in f.handlers {
      HandlerAt(f, c);
    }
  }

  /** No call for this handoff is answered with an acceptance, nor committed. */
  lemma NotAcceptedAgain(f: Fabric, step: Step, c: string, target: string, epoch: nat)
    requires Sound(f) && Enabled(f, step) && |f.owners| < U64_MAX && Barred(f, c, target, epoch)
    requires f.records[c].epoch == epoch
    ensures var g := Take(f, step);
      && c in g.records
      && (g.records[c] == f.records[c] && c in g.handlers ==> Authority(target, epoch + 1, None) !in g.acknowledged)
  {
    hide NamedReached, EarlierReached, OffersRanked, AcknowledgedReached, HandlersHold;
    var offer := Authority(target, epoch + 1, None);
    MarkIsGiven(f, c, target);
    match step
    case StartHandoff(d, target', quiescent) =>
      if Mark(d, f.RecordOf(d), target', quiescent).Ok? && d == c {
        assert Offer(Mark(d, f.RecordOf(d), target', quiescent).value, target') == offer;
      }
    case Deliver(o) =>
      if o == offer {
        assert Accept(target, f.RecordOf(target), offer).Err?;
      }
    case Commit(_) =>
    case GiveUp(_) =>
    case Restart(_) =>
  }

  /** Once barred, over every run: as long as the record of `c` has not been replaced by a
      later handoff to it, `c` answers that a handoff is in progress, and the handoff is
      refused however often it is repeated. */
  lemma {:induction false} BarredUntilReturned(f: Fabric, steps: seq<Step>, c: string, target: string, epoch: nat)
    requires Sound(f) && ValidRun(f, steps) && |f.owners| + |steps| <= U64_MAX && Barred(f, c, target, epoch)
    ensures var g := Run(f, steps);
      && Barred(g, c, target, epoch)
      && (g.records[c].epoch == epoch ==>
            && Route(c, g.RecordOf(c), false) == HandoffInProgress(target)
            && Accept(target, g.RecordOf(target), Offer(g.records[c], target)).Err?)
    decreases |steps|
  {
    if steps == [] {
      hide Take, Enabled, Sound;
      if f.records[c].epoch == epoch {
        RepeatAcceptedIffNotHandedOn(f, c, target);
        MarkIsGiven(f, c, target);
      }
    } else {
      hide Sound, Take, Enabled, Barred;
      StepKeeps(f, steps[0]);
      BarredStep(f, steps[0], c, target, epoch);
      BarredUntilReturned(Take(f, steps[0]), steps[1..], c, target, epoch);
    }
  }

  /** One run that gets there: the acceptance is lost, and the target hands on. */
  function LostAcceptance(a: string, b: string, c: string): seq<Step> {
    [StartHandoff(a, b, true), Deliver(Authority(b, 2, None)), GiveUp(a), StartHandoff(b, c, true), GiveUp(b)]
  }

  lemma BarredIsReached(a: string, b: string, c: string)
    requires a != b
    ensures ValidRun(Created(a), LostAcceptance(a, b, c))
    ensures Barred(Run(Created(a), LostAcceptance(a, b, c)), a, b, 1)
    ensures Run(Created(a), LostAcceptance(a, b, c)).records[a] == Authority(a, 1, Some(b))
  {
    var steps := LostAcceptance(a, b, c);
    var f1 := Take(Created(a), steps[0]);
    assert f1.records == map[a := Authority(a, 1, Some(b))] && f1.handlers == map[a := Authority(b, 2, None)];
    var f2 := Take(f1, steps[1]);
    assert f2.records[b] == Authority(b, 2, None) && f2.records[a] == f1.records[a];
    var f3 := Take(f2, steps[2]);
    assert f3.handlers == map[];
    var f4 := Take(f3, steps[3]);
    assert f4.records[b] == Authority(b, 2, Some(c)) && f4.records[a] == f1.records[a];
    var f5 := Take(f4, steps[4]);
    assert f5.handlers == map[];
    RunFive(Created(a), steps, f1, f2, f3, f4, f5);
  }

  lemma RunFive(f: Fabric, steps: seq<Step>, f1: Fabric, f2: Fabric, f3: Fabric, f4: Fabric, f5: Fabric)
    requires |steps| == 5
    requires Enabled(f, steps[0]) && f1 == Take(f, steps[0]) && Enabled(f1, steps[1]) && f2 == Take(f1, steps[1])
    requires Enabled(f2, steps[2]) && f3 == Take(f2, steps[2]) && Enabled(f3, steps[3]) && f4 == Take(f3, steps[3])
    requires Enabled(f4, steps[4]) && f5 == Take(f4, steps[4])
    ensures ValidRun(f, steps) && Run(f, steps) == f5
  {
    hide Take, Enabled;
    var rest := steps[2..];
    RunThree(f2, rest, f3, f4, f5);
    assert steps[1..][1..] == rest && steps[1..][0] == steps[1];
    assert ValidRun(f1, steps[1..]) && Run(f1, steps[1..]) == f5;
  }
}
