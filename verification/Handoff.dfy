/**
 Authority over one workspace session, handed from Controller to Controller: a
 pending mark, an `accept-handoff` message carrying the next epoch, and a commit
 at the old authority under the session's gate. Messages may be lost, delayed and
 delivered any number of times, and Controllers may restart.
 */
module Handoff {
  import opened Base

  datatype Authority = Authority(controllerId: string, epoch: nat, pending: Option<string>)

  datatype HandoffError =
    | InvalidAuthority | StaleEpoch | NotQuiescent | SessionNotFound | NotAuthority | InProgress | Rejected

  // ----- What one Controller does -----

  /** The record after `session.accept-handoff`; an exact repeat is acknowledged. */
  function Accept(self: string, existing: Option<Authority>, offer: Authority): Result<Authority, HandoffError> {
    if offer.controllerId != self then Err(InvalidAuthority)
    else if existing == Some(offer) then Ok(offer)
    else if existing.Some? && existing.value.epoch >= offer.epoch then Err(StaleEpoch)
    else Ok(offer)
  }

  /** What `session.handoff` saves before it offers the session to `target`. */
  function Mark(self: string, existing: Option<Authority>, target: string, quiescent: bool): Result<Authority, HandoffError> {
    if !quiescent then Err(NotQuiescent)
    else if existing.None? then Err(SessionNotFound)
    else if existing.value.controllerId != self then Err(NotAuthority)
    else if existing.value.pending.Some? && existing.value.pending.value != target then Err(InProgress)
    else Ok(Authority(self, existing.value.epoch, Some(target)))
  }

  function Offer(marked: Authority, target: string): Authority {
    Authority(target, SaturatingAdd(marked.epoch, 1), None)
  }

  datatype RouteDecision = Here | Forward(to: string) | HandoffInProgress(to: string)

  /** Where a request about the session goes; two actions pass a pending mark. */
  function Route(self: string, existing: Option<Authority>, passesPending: bool): RouteDecision {
    if existing.None? then Here
    else if existing.value.pending.Some? && !passesPending then HandoffInProgress(existing.value.pending.value)
    else if existing.value.controllerId == self then Here
    else Forward(existing.value.controllerId)
  }

  // ----- All Controllers and the network -----

  /** Records by Controller, handoffs whose handler holds the session gate, offers
      ever sent, offers acknowledged since they were last sent, and who was given each
      epoch. A call is answered on its own connection, so sending an offer again drops
      what was answered before. */
  datatype Fabric = Fabric(
    records: map<string, Authority>, handlers: map<string, Authority>,
    offers: set<Authority>, acknowledged: set<Authority>, owners: seq<string>)
  {
    function RecordOf(c: string): Option<Authority> { if c in records then Some(records[c]) else None }
  }

  datatype Step =
    | StartHandoff(c: string, target: string, quiescent: bool)
    | Deliver(offer: Authority)
    | Commit(c: string)
    | GiveUp(c: string)
    | Restart(c: string)

  /** The session after its one `session.put` without an authority, at `c`. */
  function Created(c: string): Fabric {
    Fabric(map[c := Authority(c, 1, None)], map[], {}, {}, [c])
  }

  /** A handler waits for the gate of its session, and a reply answers its offer. */
  predicate Enabled(f: Fabric, step: Step) {
    match step
    case StartHandoff(c, _, _) => c !in f.handlers
    case Deliver(offer) => offer in f.offers && offer.controllerId !in f.handlers
    case Commit(c) => c in f.handlers && f.handlers[c] in f.acknowledged
    case GiveUp(c) => c in f.handlers
    case Restart(_) => true
  }

  function DoStart(f: Fabric, c: string, target: string, quiescent: bool): Fabric {
    var marked := Mark(c, f.RecordOf(c), target, quiescent);
    if marked.Err? then f
    else
      var offer := Offer(marked.value, target);
      f.(records := f.records[c := marked.value],
         handlers := f.handlers[c := offer],
         offers := f.offers + {offer},
         acknowledged := f.acknowledged - {offer},
         owners := if c in f.records && f.records[c].pending.None? then f.owners + [target] else f.owners)
  }

  function DoDeliver(f: Fabric, offer: Authority): Fabric {
    var t := offer.controllerId;
    var accepted := Accept(t, f.RecordOf(t), offer);
    if accepted.Err? then f
    else f.(records := f.records[t := accepted.value], acknowledged := f.acknowledged + {offer})
  }

  function Take(f: Fabric, step: Step): Fabric {
    match step
    case StartHandoff(c, target, quiescent) => DoStart(f, c, target, quiescent)
    case Deliver(offer) => DoDeliver(f, offer)
    case Commit(c) =>
      if c in f.handlers then f.(records := f.records[c := f.handlers[c]], handlers := f.handlers - {c}) else f
    case GiveUp(c) => f.(handlers := f.handlers - {c})
    case Restart(c) => f.(handlers := f.handlers - {c})
  }

  predicate ValidRun(f: Fabric, steps: seq<Step>)
    decreases |steps|
  {
    steps == [] || (Enabled(f, steps[0]) && ValidRun(Take(f, steps[0]), steps[1..]))
  }

  function Run(f: Fabric, steps: seq<Step>): Fabric
    decreases |steps|
  {
    if steps == [] then f else Run(Take(f, steps[0]), steps[1..])
  }

  // ----- The invariant -----

  /** The record or offer gives its epoch to the epoch's owner, and a pending mark
      names the next owner. */
  predicate Ranked(owners: seq<string>, a: Authority) {
    && 1 <= a.epoch <= |owners| && owners[a.epoch - 1] == a.controllerId
    && (a.pending.Some? ==> a.epoch < |owners| && owners[a.epoch] == a.pending.value)
  }

  /** What one record says, given who owns each epoch. */
  predicate Fits(owners: seq<string>, c: string, a: Authority) {
    && Ranked(owners, a)
    && (a.controllerId != c ==> a.pending.None? && a.epoch >= 2)
    && (a.controllerId == c && a.pending.None? ==> a.epoch == |owners|)
  }

  type Records = map<string, Authority>

  /** `c` has a record at `epoch` or later. */
  predicate Reached(records: Records, c: string, epoch: nat) {
    c in records && epoch <= records[c].epoch
  }

  ghost predicate AllFit(owners: seq<string>, records: Records) {
    forall c :: c in records ==> Fits(owners, c, records[c])
  }

  /** Whoever a record names has reached its epoch. */
  ghost predicate NamedReached(records: Records) {
    forall c :: c in records ==> Reached(records, records[c].controllerId, records[c].epoch)
  }

  /** Every epoch but the last was reached by its owner. */
  ghost predicate EarlierReached(owners: seq<string>, records: Records) {
    forall k :: 0 <= k < |owners| - 1 ==> Reached(records, owners[k], k + 1)
  }

  ghost predicate OffersRanked(owners: seq<string>, offers: set<Authority>) {
    forall o :: o in offers ==> Ranked(owners, o) && o.pending.None? && o.epoch >= 2
  }

  ghost predicate AcknowledgedReached(acknowledged: set<Authority>, records: Records) {
    forall o :: o in acknowledged ==> Reached(records, o.controllerId, o.epoch)
  }

  /** A handler that holds the gate at `c` offers what its record promises. */
  predicate Handles(offers: set<Authority>, records: Records, c: string, offer: Authority) {
    && offer in offers && offer.epoch >= 1
    && c in records && records[c] == Authority(c, offer.epoch - 1, Some(offer.controllerId))
  }

  ghost predicate HandlersHold(offers: set<Authority>, records: Records, handlers: map<string, Authority>) {
    forall c :: c in handlers ==> Handles(offers, records, c, handlers[c])
  }

  ghost predicate Sound(f: Fabric) {
    && f.owners != []
    && AllFit(f.owners, f.records)
    && NamedReached(f.records)
    && EarlierReached(f.owners, f.records)
    && OffersRanked(f.owners, f.offers)
    && AcknowledgedReached(f.acknowledged, f.records)
    && HandlersHold(f.offers, f.records, f.handlers)
  }

  lemma CreatedIsSound(c: string)
    ensures Sound(Created(c)) && Anchored(Created(c))
  {
  }

  // ----- Reading the invariant -----

  lemma FitsAt(owners: seq<string>, records: Records, c: string)
    requires AllFit(owners, records) && c in records
    ensures Fits(owners, c, records[c])
  {
  }

  lemma NamedAt(records: Records, c: string)
    requires NamedReached(records) && c in records
    ensures Reached(records, records[c].controllerId, records[c].epoch)
  {
    assert c in records;
  }

  lemma OfferAt(owners: seq<string>, offers: set<Authority>, o: Authority)
    requires OffersRanked(owners, offers) && o in offers
    ensures Ranked(owners, o) && o.pending.None? && o.epoch >= 2
  {
  }

  lemma HandlerAt(f: Fabric, c: string)
    requires Sound(f) && c in f.handlers
    ensures Handles(f.offers, f.records, c, f.handlers[c])
    ensures Ranked(f.owners, f.handlers[c]) && f.handlers[c].pending.None? && f.handlers[c].epoch >= 2
    ensures f.handlers[c] in f.acknowledged ==> Reached(f.records, f.handlers[c].controllerId, f.handlers[c].epoch)
  {
    hide AllFit, NamedReached, EarlierReached;
  }

  // ----- Replacing one record by a later one -----

  lemma NamedStays(records: Records, c: string, a: Authority)
    requires NamedReached(records) && (c in records ==> records[c].epoch <= a.epoch)
    requires Reached(records[c := a], a.controllerId, a.epoch)
    ensures NamedReached(records[c := a])
  {
  }

  lemma EarlierStays(owners: seq<string>, records: Records, c: string, a: Authority)
    requires EarlierReached(owners, records) && (c in records ==> records[c].epoch <= a.epoch)
    ensures EarlierReached(owners, records[c := a])
  {
  }

  lemma AcknowledgedStays(acknowledged: set<Authority>, records: Records, c: string, a: Authority)
    requires AcknowledgedReached(acknowledged, records) && (c in records ==> records[c].epoch <= a.epoch)
    ensures AcknowledgedReached(acknowledged, records[c := a])
  {
  }

  lemma AcknowledgedFewer(acknowledged: set<Authority>, records: Records, offer: Authority)
    requires AcknowledgedReached(acknowledged, records)
    ensures AcknowledgedReached(acknowledged - {offer}, records)
  {
  }

  lemma HandlersStay(offers: set<Authority>, records: Records, handlers: map<string, Authority>, c: string, a: Authority)
    requires HandlersHold(offers, records, handlers) && c !in handlers
    ensures HandlersHold(offers, records[c := a], handlers)
  {
  }

  // ----- Offering -----

  lemma PromisedFits(owners: seq<string>, records: Records, c: string, target: string)
    requires AllFit(owners, records) && c in records && records[c] == Authority(c, records[c].epoch, None)
    ensures AllFit(owners + [target], records[c := records[c].(pending := Some(target))])
  {
    assert Fits(owners, c, records[c]);
    forall d | d in records && d != c ensures Fits(owners + [target], d, records[d]) {
      assert Fits(owners, d, records[d]);
    }
  }

  lemma PromisedRanked(owners: seq<string>, offers: set<Authority>, target: string)
    requires owners != [] && OffersRanked(owners, offers)
    ensures OffersRanked(owners + [target], offers + {Authority(target, |owners| + 1, None)})
  {
  }

  lemma PromisedEarlier(owners: seq<string>, records: Records, c: string, target: string)
    requires owners != [] && EarlierReached(owners, records) && owners[|owners| - 1] == c && Reached(records, c, |owners|)
    ensures EarlierReached(owners + [target], records)
  {
  }

  lemma RankedAdded(owners: seq<string>, offers: set<Authority>, o: Authority)
    requires OffersRanked(owners, offers) && Ranked(owners, o) && o.pending.None? && o.epoch >= 2
    ensures OffersRanked(owners, offers + {o})
  {
  }

  lemma FitAdded(owners: seq<string>, records: Records, c: string, a: Authority)
    requires AllFit(owners, records) && Fits(owners, c, a)
    ensures AllFit(owners, records[c := a])
  {
  }

  lemma OfferAdded(offers: set<Authority>, records: Records, handlers: map<string, Authority>, c: string, offer: Authority)
    requires HandlersHold(offers, records, handlers) && Handles(offers + {offer}, records, c, offer)
    ensures HandlersHold(offers + {offer}, records, handlers[c := offer])
  {
  }

  /** The holder of the last epoch promises the next one to `target`. */
  lemma FirstMarkKeeps(f: Fabric, c: string, target: string)
    requires Sound(f) && c !in f.handlers && |f.owners| < U64_MAX
    requires c in f.records && f.records[c] == Authority(c, f.records[c].epoch, None)
    ensures Sound(DoStart(f, c, target, true))
  {
    hide AllFit, NamedReached, EarlierReached, OffersRanked, AcknowledgedReached, HandlersHold;
    var a := f.records[c].(pending := Some(target));
    var records := f.records[c := a];
    FitsAt(f.owners, f.records, c);
    PromisedFits(f.owners, f.records, c, target);
    NamedStays(f.records, c, a);
    EarlierStays(f.owners, f.records, c, a);
    PromisedEarlier(f.owners, records, c, target);
    PromisedRanked(f.owners, f.offers, target);
    AcknowledgedStays(f.acknowledged, f.records, c, a);
    AcknowledgedFewer(f.acknowledged, records, Authority(target, |f.owners| + 1, None));
    HandlersStay(f.offers, f.records, f.handlers, c, a);
    OfferAdded(f.offers, records, f.handlers, c, Authority(target, |f.owners| + 1, None));
  }

  /** An interrupted handoff is offered again, to the same target. */
  lemma RetryKeeps(f: Fabric, c: string, target: string)
    requires Sound(f) && c !in f.handlers && |f.owners| < U64_MAX
    requires c in f.records && f.records[c] == Authority(c, f.records[c].epoch, Some(target))
    ensures Sound(DoStart(f, c, target, true))
  {
    hide AllFit, NamedReached, EarlierReached, OffersRanked, AcknowledgedReached, HandlersHold;
    FitsAt(f.owners, f.records, c);
    assert f.records[c := f.records[c]] == f.records;
    var offer := Authority(target, f.records[c].epoch + 1, None);
    RankedAdded(f.owners, f.offers, offer);
    AcknowledgedFewer(f.acknowledged, f.records, offer);
    OfferAdded(f.offers, f.records, f.handlers, c, offer);
  }

  lemma StartKeeps(f: Fabric, c: string, target: string, quiescent: bool)
    requires Sound(f) && c !in f.handlers && |f.owners| < U64_MAX
    ensures Sound(DoStart(f, c, target, quiescent))
  {
    hide Sound;
    if Mark(c, f.RecordOf(c), target, quiescent).Ok? {
      if f.records[c].pending.None? {
        FirstMarkKeeps(f, c, target);
      } else {
        RetryKeeps(f, c, target);
      }
    }
  }

  // ----- Accepting -----

  /** An offer that is accepted for the first time carries the last epoch. */
  lemma AcceptedIsLast(f: Fabric, offer: Authority)
    requires Sound(f) && offer in f.offers
    requires offer.controllerId in f.records ==> f.records[offer.controllerId].epoch < offer.epoch
    ensures offer.epoch == |f.owners|
  {
    hide AllFit, NamedReached, AcknowledgedReached, HandlersHold;
    assert Ranked(f.owners, offer);
    assert !Reached(f.records, f.owners[offer.epoch - 1], offer.epoch);
  }

  lemma AcceptedKeeps(f: Fabric, offer: Authority)
    requires Sound(f) && offer in f.offers && offer.controllerId !in f.handlers
    requires offer.controllerId in f.records ==> f.records[offer.controllerId].epoch < offer.epoch
    ensures Sound(f.(records := f.records[offer.controllerId := offer], acknowledged := f.acknowledged + {offer}))
  {
    hide AllFit, NamedReached, EarlierReached, OffersRanked, AcknowledgedReached, HandlersHold;
    var t := offer.controllerId;
    var records := f.records[t := offer];
    AcceptedIsLast(f, offer);
    OfferAt(f.owners, f.offers, offer);
    FitAdded(f.owners, f.records, t, offer);
    NamedStays(f.records, t, offer);
    EarlierStays(f.owners, f.records, t, offer);
    AcknowledgedStays(f.acknowledged, f.records, t, offer);
    HandlersStay(f.offers, f.records, f.handlers, t, offer);
    AcknowledgeAdded(f.acknowledged, records, offer);
  }

  lemma AcknowledgeAdded(acknowledged: set<Authority>, records: Records, offer: Authority)
    requires AcknowledgedReached(acknowledged, records) && Reached(records, offer.controllerId, offer.epoch)
    ensures AcknowledgedReached(acknowledged + {offer}, records)
  {
  }

  lemma DeliverKeeps(f: Fabric, offer: Authority)
    requires Sound(f) && offer in f.offers && offer.controllerId !in f.handlers
    ensures Sound(DoDeliver(f, offer))
  {
    hide AllFit, NamedReached, EarlierReached, OffersRanked, AcknowledgedReached, HandlersHold;
    var t := offer.controllerId;
    if Accept(t, f.RecordOf(t), offer).Ok? {
      if f.RecordOf(t) == Some(offer) {
        assert f.records[t := offer] == f.records;
        AcknowledgeAdded(f.acknowledged, f.records, offer);
      } else {
        AcceptedKeeps(f, offer);
      }
    }
  }

  // ----- Committing and giving up -----

  lemma HandlerDropped(offers: set<Authority>, records: Records, handlers: map<string, Authority>, c: string)
    requires HandlersHold(offers, records, handlers)
    ensures HandlersHold(offers, records, handlers - {c})
  {
  }

  lemma CommitKeeps(f: Fabric, c: string)
    requires Sound(f) && c in f.handlers && f.handlers[c] in f.acknowledged
    ensures Sound(Take(f, Commit(c)))
  {
    hide AllFit, NamedReached, EarlierReached, OffersRanked, AcknowledgedReached, HandlersHold;
    var offer := f.handlers[c];
    HandlerAt(f, c);
    FitAdded(f.owners, f.records, c, offer);
    NamedStays(f.records, c, offer);
    EarlierStays(f.owners, f.records, c, offer);
    AcknowledgedStays(f.acknowledged, f.records, c, offer);
    HandlerDropped(f.offers, f.records, f.handlers, c);
    HandlersStay(f.offers, f.records, f.handlers - {c}, c, offer);
  }

  lemma DropKeeps(f: Fabric, c: string)
    requires Sound(f)
    ensures Sound(f.(handlers := f.handlers - {c}))
  {
    hide AllFit, NamedReached, EarlierReached, OffersRanked, AcknowledgedReached, HandlersHold;
    HandlerDropped(f.offers, f.records, f.handlers, c);
  }

  lemma StepKeeps(f: Fabric, step: Step)
    requires Sound(f) && Enabled(f, step) && |f.owners| < U64_MAX
    ensures Sound(Take(f, step)) && |Take(f, step).owners| <= |f.owners| + 1
  {
    hide Sound;
    match step
    case StartHandoff(c, target, quiescent) => StartKeeps(f, c, target, quiescent);
    case Deliver(offer) => DeliverKeeps(f, offer);
    case Commit(c) => CommitKeeps(f, c);
    case GiveUp(c) => DropKeeps(f, c);
    case Restart(c) => DropKeeps(f, c);
  }

  lemma {:induction false} RunKeeps(f: Fabric, steps: seq<Step>)
    requires Sound(f) && ValidRun(f, steps) && |f.owners| + |steps| <= U64_MAX
    ensures Sound(Run(f, steps))
    decreases |steps|
  {
    if steps != [] {
      StepKeeps(f, steps[0]);
      RunKeeps(Take(f, steps[0]), steps[1..]);
    }
  }

  // ----- Single authority -----

  /** `c` names itself and has not offered the session to anyone. */
  predicate Holds(f: Fabric, c: string) {
    c in f.records && f.records[c].controllerId == c && f.records[c].pending.None?
  }

  ghost predicate SingleAuthority(f: Fabric) {
    && (forall c, d :: Holds(f, c) && Holds(f, d) ==> c == d)
    && (forall c, d :: Holds(f, c) && d in f.records ==> f.records[d].epoch <= f.records[c].epoch)
    && (forall c, d :: c in f.records && d in f.records && f.records[c].epoch == f.records[d].epoch ==>
          f.records[c].controllerId == f.records[d].controllerId)
  }

  /** The latest owner has the session, or the one before it still holds the mark
      and can offer it again: the session is never orphaned. */
  ghost predicate NeverOrphaned(f: Fabric) {
    exists c :: c in f.records && f.records[c].controllerId == c &&
      (f.records[c].epoch == |f.owners| || (f.records[c].epoch + 1 == |f.owners| && f.records[c].pending.Some?))
  }

  /** The next-to-last owner moves past its mark only once the last has accepted. */
  ghost predicate Anchored(f: Fabric) {
    var last := |f.owners|;
    last >= 1 && (
      || Reached(f.records, f.owners[last - 1], last)
      || (last >= 2 && f.owners[last - 2] in f.records
          && f.records[f.owners[last - 2]] == Authority(f.owners[last - 2], last - 1, Some(f.owners[last - 1]))))
  }

  lemma StepAnchors(f: Fabric, step: Step)
    requires Sound(f) && Anchored(f) && Enabled(f, step) && |f.owners| < U64_MAX
    ensures Anchored(Take(f, step))
  {
    hide Sound;
    match step
    case StartHandoff(c, target, quiescent) => StartAnchors(f, c, target, quiescent);
    case Deliver(offer) => DeliverAnchors(f, offer);
    case Commit(c) => CommitAnchors(f, c);
    case GiveUp(_) =>
    case Restart(_) =>
  }

  lemma StartAnchors(f: Fabric, c: string, target: string, quiescent: bool)
    requires Sound(f) && Anchored(f) && |f.owners| < U64_MAX
    ensures Anchored(DoStart(f, c, target, quiescent))
  {
    hide NamedReached, EarlierReached, OffersRanked, AcknowledgedReached, HandlersHold;
    if Mark(c, f.RecordOf(c), target, quiescent).Ok? {
      assert Fits(f.owners, c, f.records[c]);
      assert f.records[c].pending.Some? ==> DoStart(f, c, target, quiescent).records == f.records;
    }
  }

  lemma DeliverAnchors(f: Fabric, offer: Authority)
    requires Sound(f) && Anchored(f) && offer in f.offers
    ensures Anchored(DoDeliver(f, offer))
  {
    hide NamedReached, EarlierReached, AcknowledgedReached, HandlersHold;
    assert Ranked(f.owners, offer);
  }

  lemma CommitAnchors(f: Fabric, c: string)
    requires Sound(f) && Anchored(f) && c in f.handlers && f.handlers[c] in f.acknowledged
    ensures Anchored(Take(f, Commit(c)))
  {
    hide NamedReached, EarlierReached;
    var offer := f.handlers[c];
    assert Handles(f.offers, f.records, c, offer) && Ranked(f.owners, offer);
    assert Reached(f.records, offer.controllerId, offer.epoch);
  }

  lemma {:induction false} RunAnchors(f: Fabric, steps: seq<Step>)
    requires Sound(f) && Anchored(f) && ValidRun(f, steps) && |f.owners| + |steps| <= U64_MAX
    ensures Sound(Run(f, steps)) && Anchored(Run(f, steps))
    decreases |steps|
  {
    if steps != [] {
      StepKeeps(f, steps[0]);
      StepAnchors(f, steps[0]);
      RunAnchors(Take(f, steps[0]), steps[1..]);
    }
  }

  /** Over every run of any number of Controllers there is at most one holder, it
      has the greatest epoch, every epoch has one owner, and the session is never lost. */
  lemma OneAuthority(c: string, steps: seq<Step>)
    requires ValidRun(Created(c), steps) && |steps| < U64_MAX
    ensures SingleAuthority(Run(Created(c), steps)) && NeverOrphaned(Run(Created(c), steps))
  {
    hide Sound, Anchored, SingleAuthority, NeverOrphaned;
    CreatedIsSound(c);
    RunAnchors(Created(c), steps);
    SoundIsSingle(Run(Created(c), steps));
    AnchoredIsHeld(Run(Created(c), steps));
  }

  lemma SoundIsSingle(f: Fabric)
    requires Sound(f)
    ensures SingleAuthority(f)
  {
    hide NamedReached, EarlierReached, OffersRanked, AcknowledgedReached, HandlersHold;
  }

  lemma AnchoredIsHeld(f: Fabric)
    requires Sound(f) && Anchored(f)
    ensures NeverOrphaned(f)
  {
    hide NamedReached, EarlierReached, OffersRanked, AcknowledgedReached, HandlersHold;
    var last := |f.owners|;
    var heir := if Reached(f.records, f.owners[last - 1], last) then f.owners[last - 1] else f.owners[last - 2];
    assert heir in f.records;
    assert Fits(f.owners, heir, f.records[heir]);
  }

  /** No Controller's recorded epoch ever goes back. */
  lemma EpochsNeverDecrease(f: Fabric, step: Step, c: string)
    requires Sound(f) && Enabled(f, step) && c in f.records
    ensures c in Take(f, step).records && f.records[c].epoch <= Take(f, step).records[c].epoch
  {
    hide AllFit, NamedReached, EarlierReached, OffersRanked, AcknowledgedReached;
  }

  // ----- Forwarding -----

  /** What Controller `c` answers to a request that passes pending marks. */
  function Answer(f: Fabric, c: string): RouteDecision { Route(c, f.RecordOf(c), true) }

  /** A Controller serves the request when its record names itself, and otherwise forwards
      it to the Controller its record names. That one has a record too, of at least the
      same epoch, and of a larger one unless it is the end of the chain. */
  lemma ForwardingAdvances(f: Fabric, c: string)
    requires Sound(f) && c in f.records
    ensures Answer(f, c) == Here <==> f.records[c].controllerId == c
    ensures Answer(f, c) != Here ==> Answer(f, c) == Forward(f.records[c].controllerId)
    ensures Answer(f, c) != Here ==>
      var next := Answer(f, c).to;
      && next != c && next in f.records && f.records[c].epoch <= f.records[next].epoch <= |f.owners|
      && (Answer(f, next) == Here || f.records[c].epoch < f.records[next].epoch)
  {
    hide AllFit, NamedReached, EarlierReached, OffersRanked, AcknowledgedReached, HandlersHold;
    NamedAt(f.records, c);
    FitsAt(f.owners, f.records, c);
    FitsAt(f.owners, f.records, f.records[c].controllerId);
  }

  /** A pending mark stops every other request, and changes nothing else. */
  lemma PendingStops(self: string, existing: Option<Authority>)
    ensures existing.Some? && existing.value.pending.Some? ==>
      Route(self, existing, false) == HandoffInProgress(existing.value.pending.value)
    ensures existing.None? || existing.value.pending.None? ==> Route(self, existing, false) == Route(self, existing, true)
    ensures !Route(self, existing, true).HandoffInProgress? && (existing.None? ==> Route(self, existing, true) == Here)
  {
  }

  /** Where a request that passes pending marks ends up: each Controller forwards it as
      it answers, until one serves it. */
  ghost function Destination(f: Fabric, c: string): (d: string)
    requires Sound(f) && c in f.records
    ensures d in f.records && f.records[d].controllerId == d
    ensures Answer(f, d) == Here
    ensures f.records[c].epoch <= f.records[d].epoch
    decreases if Answer(f, c).Here? then 0 else 1, |f.owners| - f.records[c].epoch
  {
    ForwardingAdvances(f, c);
    if Answer(f, c).Here? then c else Destination(f, Answer(f, c).to)
  }

  /** How often a request that starts at `c` is forwarded. */
  ghost function Hops(f: Fabric, c: string): nat
    requires Sound(f) && c in f.records
    ensures Hops(f, c) <= 1 + |f.owners| - f.records[c].epoch
    decreases if Answer(f, c).Here? then 0 else 1, |f.owners| - f.records[c].epoch
  {
    FitsAt(f.owners, f.records, c);
    ForwardingAdvances(f, c);
    if Answer(f, c).Here? then 0 else 1 + Hops(f, Answer(f, c).to)
  }

  /** Routing from any Controller that knows the session reaches one that names
      itself, in no more hops than handoffs have been made. */
  lemma RoutingTerminates(c0: string, steps: seq<Step>, c: string)
    requires ValidRun(Created(c0), steps) && |steps| < U64_MAX && c in Run(Created(c0), steps).records
    ensures
      var f := Run(Created(c0), steps);
      && Sound(f)
      && Answer(f, Destination(f, c)) == Here && f.records[Destination(f, c)].controllerId == Destination(f, c)
      && Hops(f, c) <= |f.owners|
  {
    CreatedIsSound(c0);
    RunKeeps(Created(c0), steps);
    var f := Run(Created(c0), steps);
    assert Fits(f.owners, c, f.records[c]);
  }

  /** Requests that do not pass pending marks are answered here only by a holder. */
  lemma ServedOnlyByHolder(f: Fabric, c: string)
    requires c in f.records
    ensures Route(c, f.RecordOf(c), false) == Here <==> Holds(f, c)
  {
  }

  /** The authority `session.put` saves: a new one when the caller names none, and
      otherwise only the one already recorded. */
  function Put(self: string, existing: Option<Authority>, given: Option<Authority>): Result<Authority, HandoffError> {
    if given.None? then Ok(Authority(self, 1, None))
    else if given.value.controllerId != self then Err(NotAuthority)
    else if existing != given then Err(InvalidAuthority)
    else Ok(given.value)
  }

  /** A `session.put` that names an authority succeeds exactly for the recorded one, held
      here, and then changes nothing. */
  lemma NamedPutChangesNothing(self: string, existing: Option<Authority>, given: Authority)
    ensures Put(self, existing, Some(given)).Ok? <==> existing == Some(given) && given.controllerId == self
    ensures Put(self, existing, Some(given)).Ok? ==> Some(Put(self, existing, Some(given)).value) == existing
  {
  }

  /** A `session.put` that names no authority keeps the authority single exactly
      when no other Controller knows the session. */
  lemma BarePutIsSafeIffUnknownElsewhere(f: Fabric, d: string)
    requires Sound(f)
    ensures var f' := f.(records := f.records[d := Put(d, f.RecordOf(d), None).value]);
            SingleAuthority(f') <==> f.records.Keys <= {d}
  {
    hide NamedReached, EarlierReached, OffersRanked, AcknowledgedReached, HandlersHold;
    var f' := f.(records := f.records[d := Authority(d, 1, None)]);
    assert Holds(f', d);
    if c :| c in f.records && c != d {
      FitsAt(f.owners, f.records, c);
      assert c in f'.records;
      assert !SingleAuthority(f');
    }
  }

  /** Epochs stop at the largest 64-bit number: a Controller that has recorded the
      current authority accepts the next handoff exactly while there is a next epoch. */
  lemma NextHandoffAcceptedIffNotSaturated(marked: Authority, target: string, existing: Authority)
    requires existing.epoch == marked.epoch <= U64_MAX && existing.controllerId == marked.controllerId != target
    ensures Accept(target, Some(existing), Offer(marked, target)).Ok? <==> marked.epoch < U64_MAX
  {
  }

  /** There the next handoff is refused, at this record for one. */
  lemma SaturatedHandoffIsRefused()
    ensures var current := Authority("a", U64_MAX, None);
            && Mark("a", Some(current), "b", true).Ok?
            && Accept("b", Some(current), Offer(Mark("a", Some(current), "b", true).value, "b")) == Err(StaleEpoch)
  {
  }

  /** A second Controller's put of a session just created splits the authority. */
  lemma SecondPutSplits(c: string, d: string)
    requires c != d
    ensures var f := Created(c);
            !SingleAuthority(f.(records := f.records[d := Put(d, f.RecordOf(d), None).value]))
  {
    hide Sound, SingleAuthority;
    CreatedIsSound(c);
    assert c in Created(c).records.Keys;
    BarePutIsSafeIffUnknownElsewhere(Created(c), d);
  }
}
