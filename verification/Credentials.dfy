/** The three credential slots: rotation by any number of callers, and enrolment with rollback. */
module Credentials {
  import opened Records

  datatype Reference = Default | Refresh | Metadata

  // ---- rotation

  /** A slot is empty, holds its part of one issued generation, or holds what a failed write left. */
  datatype Slot = Missing | Of(generation: nat) | Garbage(tag: nat)

  datatype Slots = Slots(access: Slot, refresh: Slot, metadata: Slot)
  {
    function Get(reference: Reference): Slot {
      match reference case Default => access case Refresh => refresh case Metadata => metadata
    }

    function Set(reference: Reference, slot: Slot): Slots {
      match reference
      case Default => this.(access := slot)
      case Refresh => this.(refresh := slot)
      case Metadata => this.(metadata := slot)
    }
  }

  datatype Stage =
    | ReadingToken | AwaitingResponse | WritingRefresh | WritingAccess | WritingMetadata
    | Cleaning(left: set<Reference>) | Finished

  datatype Response = RequestFails | NotOk | InvalidBody | Issued

  /** The generation the provider would issue to this rotation, and the slots it started from. */
  datatype Rotation = Rotation(stage: Stage, generation: nat, start: Slots)

  /** refreshing is the memoised promise; intact is false once a cleanup delete has failed. */
  datatype Resolver = Resolver(slots: Slots, rotations: seq<Rotation>, refreshing: Option<nat>, intact: bool)

  datatype Event =
    | CallerFindsStale
    | TokenRead(i: nat, ok: bool)
    | ProviderAnswers(i: nat, response: Response)
    | WriteEnds(i: nat, failure: Option<Slot>)
    | DeleteEnds(i: nat, reference: Reference, failure: Option<Slot>)
    | Finally(i: nat)

  const EVERY: set<Reference> := {Default, Refresh, Metadata}

  function At(r: Resolver, i: nat, stage: Stage): Resolver
    requires i < |r.rotations|
  {
    r.(rotations := r.rotations[i := r.rotations[i].(stage := stage)])
  }

  function Target(stage: Stage): Reference {
    match stage case WritingRefresh => Refresh case WritingAccess => Default case _ => Metadata
  }

  function FollowingStage(stage: Stage): Stage {
    match stage case WritingRefresh => WritingAccess case WritingAccess => WritingMetadata case _ => Finished
  }

  predicate Writing(stage: Stage) { stage.WritingRefresh? || stage.WritingAccess? || stage.WritingMetadata? }

  function Next(r: Resolver, e: Event): Resolver {
    match e
    case CallerFindsStale =>
      if r.refreshing.Some? then r
      else r.(rotations := r.rotations + [Rotation(ReadingToken, |r.rotations| + 1, r.slots)], refreshing := Some(|r.rotations|))
    case TokenRead(i, ok) =>
      if i < |r.rotations| && r.rotations[i].stage.ReadingToken?
      then At(r, i, if ok then AwaitingResponse else Finished) else r
    case ProviderAnswers(i, response) =>
      if i < |r.rotations| && r.rotations[i].stage.AwaitingResponse? then
        match response
        case RequestFails => At(r, i, Finished)
        case NotOk => At(r, i, Finished)
        case InvalidBody => At(r, i, Cleaning(EVERY))
        case Issued => At(r, i, WritingRefresh)
      else r
    case WriteEnds(i, failure) =>
      if i < |r.rotations| && Writing(r.rotations[i].stage) then
        var stage := r.rotations[i].stage;
        if failure.None?
        then At(r, i, FollowingStage(stage)).(slots := r.slots.Set(Target(stage), Of(r.rotations[i].generation)))
        else At(r, i, Cleaning(EVERY)).(slots := r.slots.Set(Target(stage), failure.value))
      else r
    case DeleteEnds(i, reference, failure) =>
      if i < |r.rotations| && r.rotations[i].stage.Cleaning? && reference in r.rotations[i].stage.left then
        var left := r.rotations[i].stage.left - {reference};
        At(r, i, if left == {} then Finished else Cleaning(left)).(
          slots := r.slots.Set(reference, if failure.None? then Missing else failure.value),
          intact := r.intact && failure.None?)
      else r
    case Finally(i) =>
      if i < |r.rotations| && r.rotations[i].stage.Finished? && r.refreshing == Some(i) then r.(refreshing := None) else r
  }

  /** Any contents, and no rotation yet. */
  function Fresh(slots: Slots): Resolver { Resolver(slots, [], None, true) }

  function Play(initial: Slots, events: seq<Event>): Resolver {
    if |events| == 0 then Fresh(initial) else Next(Play(initial, events[..|events| - 1]), events[|events| - 1])
  }

  // ---- one step, spelled out

  /** A caller that finds the token stale joins the rotation in flight, or starts the next one. */
  lemma CallerJudged(r: Resolver)
    ensures Next(r, CallerFindsStale) ==
              if r.refreshing != None then r
              else r.(rotations := r.rotations + [Rotation(ReadingToken, |r.rotations| + 1, r.slots)],
                      refreshing := Some(|r.rotations|))
  {
    assert r.refreshing != None <==> r.refreshing.Some?;
  }

  /** Only a readable token asks the provider, and only an issued, valid answer is written; no slot changes yet. */
  lemma AnswerJudged(r: Resolver, i: nat, ok: bool, response: Response)
    requires i < |r.rotations|
    ensures var read, answered, stage := Next(r, TokenRead(i, ok)), Next(r, ProviderAnswers(i, response)), r.rotations[i].stage;
            && read == r.(rotations := r.rotations[i := r.rotations[i].(stage :=
                 if stage != ReadingToken then stage else if ok then AwaitingResponse else Finished)])
            && answered == r.(rotations := r.rotations[i := r.rotations[i].(stage :=
                 if stage != AwaitingResponse then stage
                 else if response == Issued then WritingRefresh
                 else if response == InvalidBody then Cleaning({Default, Refresh, Metadata})
                 else Finished)])
  {
  }

  /** The refresh token is written first, then the access token, then the metadata; a failed write starts a cleanup. */
  lemma WriteJudged(r: Resolver, i: nat, failure: Option<Slot>)
    requires i < |r.rotations|
    ensures var after, stage, g := Next(r, WriteEnds(i, failure)), r.rotations[i].stage, r.rotations[i].generation;
            var writes := stage == WritingRefresh || stage == WritingAccess || stage == WritingMetadata;
            var written := if failure.Some? then failure.value else Of(g);
            && after == r.(
                 rotations := r.rotations[i := r.rotations[i].(stage :=
                   if !writes then stage
                   else if failure.Some? then Cleaning({Default, Refresh, Metadata})
                   else if stage == WritingRefresh then WritingAccess
                   else if stage == WritingAccess then WritingMetadata else Finished)],
                 slots := Slots(if stage == WritingAccess then written else r.slots.access,
                                if stage == WritingRefresh then written else r.slots.refresh,
                                if stage == WritingMetadata then written else r.slots.metadata))
  {
  }

  /** Each slot is deleted once; the cleanup is over when all three were tried, and any failure is remembered. */
  lemma DeleteJudged(r: Resolver, i: nat, reference: Reference, failure: Option<Slot>)
    requires i < |r.rotations|
    ensures var after, stage := Next(r, DeleteEnds(i, reference, failure)), r.rotations[i].stage;
            var deletes := stage.Cleaning? && reference in stage.left;
            var left := if failure.Some? then failure.value else Missing;
            if !deletes then after == r
            else
              && after == r.(
                   rotations := r.rotations[i := r.rotations[i].(stage :=
                     if stage.left == {reference} then Finished else Cleaning(stage.left - {reference}))],
                   slots := Slots(if reference == Default then left else r.slots.access,
                                  if reference == Refresh then left else r.slots.refresh,
                                  if reference == Metadata then left else r.slots.metadata),
                   intact := after.intact)
              && (after.intact <==> r.intact && failure == None)
  {
    var stage := r.rotations[i].stage;
    if stage.Cleaning? && reference in stage.left {
      assert stage.left - {reference} == {} <==> stage.left == {reference} by {
        if stage.left - {reference} == {} { assert stage.left == {reference}; }
      }
    }
  }

  /** The flight ends with its rotation, and then a next one can start. */
  lemma FlightEnds(r: Resolver, i: nat)
    ensures Next(r, Finally(i)) ==
              if i < |r.rotations| && r.rotations[i].stage == Finished && r.refreshing == Some(i)
              then r.(refreshing := None) else r
  {
  }

  /** A rotation that nothing disturbs stores all three parts of its generation, whatever was there before. */
  lemma GoodRotationStores(r: Resolver)
    requires r.refreshing.None?
    ensures var i := |r.rotations|;
            var asked := Next(Next(Next(r, CallerFindsStale), TokenRead(i, true)), ProviderAnswers(i, Issued));
            var written := Next(Next(Next(asked, WriteEnds(i, None)), WriteEnds(i, None)), WriteEnds(i, None));
            var after := Next(written, Finally(i));
            after.slots == AllOf(i + 1) && after.refreshing == None && (after.intact <==> r.intact)
  {
  }

  function AllOf(generation: nat): Slots { Slots(Of(generation), Of(generation), Of(generation)) }

  const NONE := Slots(Missing, Missing, Missing)

  /** Where a rotation may leave the slots: all new, all as it found them, or all missing. */
  predicate Ends(slots: Slots, rotation: Rotation) {
    slots == AllOf(rotation.generation) || slots == rotation.start || slots == NONE
  }

  /** What a rotation has done to the slots at each stage. */
  predicate Progress(slots: Slots, rotation: Rotation) {
    match rotation.stage
    case WritingAccess => slots.refresh == Of(rotation.generation)
    case WritingMetadata => slots.refresh == Of(rotation.generation) && slots.access == Of(rotation.generation)
    case Cleaning(left) =>
      && (Default in left || slots.access == Missing)
      && (Refresh in left || slots.refresh == Missing)
      && (Metadata in left || slots.metadata == Missing)
    case Finished => Ends(slots, rotation)
    case _ => slots == rotation.start
  }

  predicate OneFlight(r: Resolver) {
    && (r.refreshing.Some? ==> r.refreshing.value == |r.rotations| - 1)
    && (forall i :: 0 <= i < |r.rotations| && !r.rotations[i].stage.Finished? ==> r.refreshing == Some(i))
  }

  /** The slots are as the last rotation has left them so far. */
  predicate SlotsSound(r: Resolver)
    requires OneFlight(r)
  {
    |r.rotations| > 0 ==> Progress(r.slots, r.rotations[|r.rotations| - 1])
  }

  predicate Sound(r: Resolver) { OneFlight(r) && (r.intact ==> SlotsSound(r)) }

  lemma FlightStep(r: Resolver, e: Event)
    requires OneFlight(r)
    ensures OneFlight(Next(r, e))
  {
  }

  lemma WriteSound(r: Resolver, i: nat, failure: Option<Slot>)
    requires Sound(r)
    ensures Sound(Next(r, WriteEnds(i, failure)))
  {
    FlightStep(r, WriteEnds(i, failure));
  }

  lemma DeleteSound(r: Resolver, i: nat, reference: Reference, failure: Option<Slot>)
    requires Sound(r)
    ensures Sound(Next(r, DeleteEnds(i, reference, failure)))
  {
    FlightStep(r, DeleteEnds(i, reference, failure));
    if i < |r.rotations| && r.rotations[i].stage.Cleaning? {
      var left := r.rotations[i].stage.left;
      assert forall other :: other in left ==> other == reference || other in left - {reference};
    }
  }

  lemma SoundStep(r: Resolver, e: Event)
    requires Sound(r)
    ensures Sound(Next(r, e))
  {
    FlightStep(r, e);
    match e
    case WriteEnds(i, failure) => WriteSound(r, i, failure);
    case DeleteEnds(i, reference, failure) => DeleteSound(r, i, reference, failure);
    case _ =>
  }

  ghost predicate InFlight(r: Resolver, i: nat) { i < |r.rotations| && !r.rotations[i].stage.Finished? }

  /** No rotation is in flight. */
  ghost predicate Quiet(r: Resolver) { forall i :: !InFlight(r, i) }

  /**
   * Whatever the callers, the provider and the store do: at most one rotation is in flight, and while
   * cleanup deletes succeed a finished rotation has left the slots all new, all unchanged or all missing.
   */
  lemma {:induction false} RotationReachable(initial: Slots, events: seq<Event>)
    ensures var r := Play(initial, events);
            && Sound(r)
            && (forall i, j :: InFlight(r, i) && InFlight(r, j) ==> i == j)
            && (r.intact && Quiet(r) ==>
                  if r.rotations == [] then r.slots == initial else Ends(r.slots, r.rotations[|r.rotations| - 1]))
  {
    hide Next;
    if |events| > 0 {
      var before := Play(initial, events[..|events| - 1]);
      RotationReachable(initial, events[..|events| - 1]);
      SoundStep(before, events[|events| - 1]);
      OnlyRotationsWrite(before, events[|events| - 1]);
    }
    var r := Play(initial, events);
    if Quiet(r) && |r.rotations| > 0 { assert !InFlight(r, |r.rotations| - 1); }
  }

  lemma OnlyRotationsWrite(r: Resolver, e: Event)
    ensures |r.rotations| <= |Next(r, e).rotations|
    ensures Next(r, e).rotations == [] ==> Next(r, e).slots == r.slots
    ensures r.rotations == [] && Next(r, e).rotations == [] ==> Next(r, e) == r
  {
  }

  /** A rotation that has written nothing yet finds the slots as it found them first. */
  predicate StartsKept(r: Resolver) {
    forall i :: 0 <= i < |r.rotations| && NothingWritten(r.rotations[i].stage) ==> r.slots == r.rotations[i].start
  }

  predicate NothingWritten(stage: Stage) { stage.ReadingToken? || stage.AwaitingResponse? || stage.WritingRefresh? }

  lemma StartsKeptStep(r: Resolver, e: Event)
    requires OneFlight(r) && StartsKept(r)
    ensures StartsKept(Next(r, e))
  {
  }

  lemma {:induction false} StartsKeptReachable(initial: Slots, events: seq<Event>)
    ensures StartsKept(Play(initial, events))
  {
    hide Next;
    if |events| > 0 {
      RotationReachable(initial, events[..|events| - 1]);
      StartsKeptReachable(initial, events[..|events| - 1]);
      StartsKeptStep(Play(initial, events[..|events| - 1]), events[|events| - 1]);
    }
  }

  /**
   * Whatever happened before, failed cleanups included: a rotation ended by an unreadable token, a failed
   * request or a refusal leaves the slots as they were when it began.
   */
  lemma RefusalLeavesSlots(initial: Slots, events: seq<Event>, e: Event, i: nat)
    requires var r := Play(initial, events);
             && i < |r.rotations| && (r.rotations[i].stage.ReadingToken? || r.rotations[i].stage.AwaitingResponse?)
             && i < |Next(r, e).rotations| && Next(r, e).rotations[i].stage.Finished?
    ensures var r := Play(initial, events); Next(r, e).slots == r.slots == r.rotations[i].start
  {
    hide Play;
    StartsKeptReachable(initial, events);
  }

  /** One whole credential, or none. */
  ghost predicate Whole(slots: Slots) { slots == NONE || exists g :: slots == AllOf(g) }

  ghost predicate StartsWhole(r: Resolver) {
    forall i :: 0 <= i < |r.rotations| ==> Whole(r.rotations[i].start)
  }

  lemma StartsWholeStep(r: Resolver, e: Event)
    requires OneFlight(r) && (Next(r, e).intact ==> StartsWhole(r) && (r.refreshing.None? ==> Whole(r.slots)))
    ensures Next(r, e).intact ==> StartsWhole(Next(r, e))
  {
    hide Whole;
  }

  /** A store that holds one whole credential holds one, or nothing, whenever no rotation is running. */
  lemma {:induction false} WholeReachable(initial: Slots, events: seq<Event>)
    requires Whole(initial)
    ensures var r := Play(initial, events);
            r.intact ==> StartsWhole(r) && (r.refreshing.None? ==> Whole(r.slots))
  {
    hide Next, Whole;
    var r := Play(initial, events);
    if |events| > 0 {
      var before, e := Play(initial, events[..|events| - 1]), events[|events| - 1];
      WholeReachable(initial, events[..|events| - 1]);
      RotationReachable(initial, events[..|events| - 1]);
      IntactBefore(before, e);
      StartsWholeStep(before, e);
    }
    RotationReachable(initial, events);
    if r.intact && r.refreshing.None? {
      assert Quiet(r);
      if r.rotations != [] { EndsWhole(r.slots, r.rotations[|r.rotations| - 1]); }
    }
  }

  lemma IntactBefore(r: Resolver, e: Event)
    ensures Next(r, e).intact ==> r.intact
  {
  }

  lemma EndsWhole(slots: Slots, rotation: Rotation)
    requires Ends(slots, rotation) && Whole(rotation.start)
    ensures Whole(slots)
  {
  }

  // ---- enrolment

  type Secret = seq<nat>

  /** The store that enrolment writes: what each slot holds, if anything. */
  class CredentialStore {
    var slots: map<Reference, Secret>

    /** A write that fails may leave anything, or nothing. */
    method Write(reference: Reference, secret: Secret, fault: Option<Option<Secret>>) returns (ok: bool)
      modifies this
      ensures ok == fault.None?
      ensures slots == if ok then old(slots)[reference := secret]
                       else if fault.value.Some? then old(slots)[reference := fault.value.value] else old(slots) - {reference}
    {
      if fault.Some? {
        slots := if fault.value.Some? then slots[reference := fault.value.value] else slots - {reference};
        return false;
      }
      slots := slots[reference := secret];
      return true;
    }

    method Delete(reference: Reference, fault: Option<Option<Secret>>) returns (ok: bool)
      modifies this
      ensures ok == fault.None?
      ensures slots == if ok then old(slots) - {reference}
                       else if fault.value.Some? then old(slots)[reference := fault.value.value] else old(slots) - {reference}
    {
      if fault.Some? && fault.value.Some? {
        slots := slots[reference := fault.value.value];
        return false;
      }
      slots := slots - {reference};
      return fault.None?;
    }
  }

  datatype Snapshot = Snapshot(reference: Reference, previous: Option<Secret>)

  function Held(slots: map<Reference, Secret>, reference: Reference): Option<Secret> {
    if reference in slots then Some(slots[reference]) else None
  }

  /** The slots after every snapshot in the list has been put back. */
  function Restored(slots: map<Reference, Secret>, snapshots: seq<Snapshot>): map<Reference, Secret> {
    if |snapshots| == 0 then slots
    else
      var last := snapshots[|snapshots| - 1];
      var before := Restored(slots, snapshots[..|snapshots| - 1]);
      match last.previous case Some(secret) => before[last.reference := secret] case None => before - {last.reference}
  }

  predicate Apart(snapshots: seq<Snapshot>) {
    forall i, j :: 0 <= i < j < |snapshots| ==> snapshots[i].reference != snapshots[j].reference
  }

  lemma {:induction false} RestoredHolds(slots: map<Reference, Secret>, snapshots: seq<Snapshot>, reference: Reference)
    requires Apart(snapshots)
    ensures forall i :: 0 <= i < |snapshots| && snapshots[i].reference == reference ==>
              Held(Restored(slots, snapshots), reference) == snapshots[i].previous
    ensures (forall i :: 0 <= i < |snapshots| ==> snapshots[i].reference != reference) ==>
              Held(Restored(slots, snapshots), reference) == Held(slots, reference)
  {
    if |snapshots| > 0 { RestoredHolds(slots, snapshots[..|snapshots| - 1], reference); }
  }

  /** A snapshot of each reference, or none when a read fails. */
  method SnapshotCredentials(store: CredentialStore, references: seq<Reference>, unreadable: set<Reference>)
    returns (snapshots: Option<seq<Snapshot>>)
    ensures snapshots.None? <==> exists i :: 0 <= i < |references| && references[i] in unreadable
    ensures snapshots.Some? ==>
              |snapshots.value| == |references|
              && forall i :: 0 <= i < |references| ==>
                   snapshots.value[i] == Snapshot(references[i], Held(store.slots, references[i]))
  {
    var taken := [];
    for i := 0 to |references|
      invariant |taken| == i && forall j :: 0 <= j < i ==> references[j] !in unreadable
      invariant forall j :: 0 <= j < i ==> taken[j] == Snapshot(references[j], Held(store.slots, references[j]))
    {
      if references[i] in unreadable { return None; }
      taken := taken + [Snapshot(references[i], Held(store.slots, references[i]))];
    }
    return Some(taken);
  }

  predicate PutBack(slots: map<Reference, Secret>, snapshot: Snapshot) {
    Held(slots, snapshot.reference) == snapshot.previous
  }

  /** Put every snapshot back, trying each even when another fails. */
  method RestoreCredentialSnapshots(
    store: CredentialStore, snapshots: seq<Snapshot>, faults: map<Reference, Option<Secret>>) returns (ok: bool)
    modifies store
    ensures ok <==> forall i :: 0 <= i < |snapshots| ==> snapshots[i].reference !in faults
    ensures ok ==> store.slots == Restored(old(store.slots), snapshots)
    ensures Apart(snapshots) ==>
              forall i :: 0 <= i < |snapshots| && snapshots[i].reference !in faults ==> PutBack(store.slots, snapshots[i])
  {
    ok := true;
    for i := 0 to |snapshots|
      invariant ok <==> forall j :: 0 <= j < i ==> snapshots[j].reference !in faults
      invariant ok ==> store.slots == Restored(old(store.slots), snapshots[..i])
      invariant Apart(snapshots) ==>
                  forall j :: 0 <= j < i && snapshots[j].reference !in faults ==> PutBack(store.slots, snapshots[j])
    {
      var reference := snapshots[i].reference;
      var fault := if reference in faults then Some(faults[reference]) else None;
      var done: bool;
      if snapshots[i].previous.None? {
        done := store.Delete(reference, fault);
      } else {
        done := store.Write(reference, snapshots[i].previous.value, fault);
      }
      assert snapshots[..i + 1][..i] == snapshots[..i];
      ok := ok && done;
    }
    assert snapshots[..|snapshots|] == snapshots;
  }

  /** Putting back a snapshot of all three slots gives the slots back, whatever had been written. */
  lemma RestoredIsBefore(before: map<Reference, Secret>, partial: map<Reference, Secret>, snapshots: seq<Snapshot>)
    requires |snapshots| == |REFERENCES|
    requires forall i :: 0 <= i < |snapshots| ==> snapshots[i] == Snapshot(REFERENCES[i], Held(before, REFERENCES[i]))
    ensures Restored(partial, snapshots) == before
  {
    hide Restored;
    RestoredHolds(partial, snapshots, Default);
    RestoredHolds(partial, snapshots, Refresh);
    RestoredHolds(partial, snapshots, Metadata);
    var after := Restored(partial, snapshots);
    assert snapshots[0].reference == Default && snapshots[1].reference == Refresh && snapshots[2].reference == Metadata;
    forall reference ensures Held(after, reference) == Held(before, reference) {
      match reference
      case Default =>
      case Refresh =>
      case Metadata =>
    }
    forall reference ensures reference in after <==> reference in before {
      assert Held(after, reference) == Held(before, reference);
    }
    forall reference | reference in after ensures after[reference] == before[reference] {
      assert Held(after, reference) == Held(before, reference);
    }
  }

  datatype Credential = Credential(access: Secret, refresh: Secret, metadata: Secret)

  /** Which of the three writes fail, and what each leaves. */
  datatype WriteFaults = WriteFaults(
    refresh: Option<Option<Secret>>, access: Option<Option<Secret>>, metadata: Option<Option<Secret>>)

  /**
   * What goes wrong outside: the store or the user before anything is read, the verification, a snapshot, a
   * write, the metadata of the new credential, the announcement of success, or a restore.
   */
  datatype Faults = Faults(
    preflight: bool, authorization: bool, verification: bool, unreadable: set<Reference>, writes: WriteFaults,
    metadata: bool, announcement: bool, restore: map<Reference, Option<Secret>>)

  datatype Enrolment = Enrolled | EnrolmentFailed | RollbackFailed

  function Enrolling(slots: map<Reference, Secret>, credential: Credential): map<Reference, Secret> {
    slots[Refresh := credential.refresh][Default := credential.access][Metadata := credential.metadata]
  }

  /** Each slot gets its own part of the credential. */
  lemma EnrollingFills(slots: map<Reference, Secret>, credential: Credential)
    ensures var after := Enrolling(slots, credential);
            && Held(after, Refresh) == Some(credential.refresh) && Held(after, Default) == Some(credential.access)
            && Held(after, Metadata) == Some(credential.metadata)
  {
  }

  const REFERENCES: seq<Reference> := [Default, Refresh, Metadata]

  /** Nothing goes wrong up to and including the announcement. */
  predicate Undisturbed(faults: Faults) {
    && !faults.preflight && !faults.authorization && !faults.verification && !faults.metadata && !faults.announcement
    && faults.writes == WriteFaults(None, None, None)
    && forall i :: 0 <= i < |REFERENCES| ==> REFERENCES[i] !in faults.unreadable
  }

  /** The writes of an enrolment; the metadata is built before the last one, and success announced after it. */
  method StoreCredential(store: CredentialStore, credential: Credential, faults: Faults) returns (ok: bool)
    modifies store
    ensures ok <==> faults.writes == WriteFaults(None, None, None) && !faults.metadata && !faults.announcement
    ensures ok ==> store.slots == Enrolling(old(store.slots), credential)
  {
    ok := store.Write(Refresh, credential.refresh, faults.writes.refresh);
    if !ok { return; }
    ok := store.Write(Default, credential.access, faults.writes.access);
    if !ok { return; }
    if faults.metadata { return false; }
    ok := store.Write(Metadata, credential.metadata, faults.writes.metadata);
    if !ok { return; }
    return !faults.announcement;
  }

  /**
   * Enrolment leaves the three slots all new, or exactly as they were; only a restore that itself fails
   * leaves anything else, and then only in its own slot.
   */
  method RunGitHubDeviceSetup(store: CredentialStore, credential: Credential, faults: Faults) returns (result: Enrolment)
    modifies store
    ensures result == Enrolled <==> Undisturbed(faults)
    ensures result == Enrolled ==> store.slots == Enrolling(old(store.slots), credential)
    ensures result == EnrolmentFailed ==> store.slots == old(store.slots)
    ensures result == RollbackFailed <==>
              && !Undisturbed(faults) && !faults.preflight && !faults.authorization && !faults.verification
              && (forall i :: 0 <= i < |REFERENCES| ==> REFERENCES[i] !in faults.unreadable)
              && (exists i :: 0 <= i < |REFERENCES| && REFERENCES[i] in faults.restore)
    ensures result == RollbackFailed ==>
              forall i :: 0 <= i < |REFERENCES| && REFERENCES[i] !in faults.restore ==>
                Held(store.slots, REFERENCES[i]) == Held(old(store.slots), REFERENCES[i])
  {
    if faults.preflight || faults.authorization || faults.verification { return EnrolmentFailed; }
    var snapshots := SnapshotCredentials(store, REFERENCES, faults.unreadable);
    if snapshots.None? { return EnrolmentFailed; }
    var stored := StoreCredential(store, credential, faults);
    if stored { return Enrolled; }
    ghost var partial := store.slots;
    var restored := RestoreCredentialSnapshots(store, snapshots.value, faults.restore);
    if !restored {
      assert exists i :: 0 <= i < |REFERENCES| && snapshots.value[i].reference in faults.restore;
      assert Apart(snapshots.value);
      forall i | 0 <= i < |REFERENCES| && REFERENCES[i] !in faults.restore
        ensures Held(store.slots, REFERENCES[i]) == Held(old(store.slots), REFERENCES[i])
      {
        assert PutBack(store.slots, snapshots.value[i]);
      }
      return RollbackFailed;
    }
    RestoredIsBefore(old(store.slots), partial, snapshots.value);
    return EnrolmentFailed;
  }

  // ---- one rotation, statement by statement

  /** Delete all three slots, whether or not one of them fails. */
  method Cleanup(store: CredentialStore, faults: map<Reference, Option<Secret>>) returns (ok: bool)
    modifies store
    ensures ok <==> forall i :: 0 <= i < |REFERENCES| ==> REFERENCES[i] !in faults
    ensures ok ==> store.slots == map[]
    ensures forall i :: 0 <= i < |REFERENCES| && REFERENCES[i] !in faults ==> REFERENCES[i] !in store.slots
  {
    ok := true;
    for i := 0 to |REFERENCES|
      invariant ok <==> forall j :: 0 <= j < i ==> REFERENCES[j] !in faults
      invariant forall j :: 0 <= j < i && REFERENCES[j] !in faults ==> REFERENCES[j] !in store.slots
    {
      var reference := REFERENCES[i];
      var done := store.Delete(reference, if reference in faults then Some(faults[reference]) else None);
      ok := ok && done;
    }
    if ok {
      assert REFERENCES[0] !in store.slots && REFERENCES[1] !in store.slots && REFERENCES[2] !in store.slots;
      forall reference: Reference ensures reference !in store.slots { EveryReference(reference); }
    }
  }

  lemma EveryReference(reference: Reference)
    ensures reference in REFERENCES
  {
    match reference
    case Default => assert REFERENCES[0] == Default;
    case Refresh => assert REFERENCES[1] == Refresh;
    case Metadata => assert REFERENCES[2] == Metadata;
  }

  method WriteAll(store: CredentialStore, credential: Credential, writes: WriteFaults) returns (ok: bool)
    modifies store
    ensures ok <==> writes == WriteFaults(None, None, None)
    ensures ok ==> store.slots == Enrolling(old(store.slots), credential)
  {
    ok := store.Write(Refresh, credential.refresh, writes.refresh);
    if !ok { return; }
    ok := store.Write(Default, credential.access, writes.access);
    if !ok { return; }
    ok := store.Write(Metadata, credential.metadata, writes.metadata);
  }

  /**
   * A rotation succeeds with all three slots new; a refused or unanswered one leaves them alone; any other
   * failure leaves them all missing, if the cleanup deletes succeed.
   */
  method Rotate(
    store: CredentialStore, readable: bool, response: Response, credential: Credential, writes: WriteFaults,
    deletes: map<Reference, Option<Secret>>) returns (ok: bool)
    modifies store
    ensures ok <==> readable && response.Issued? && writes == WriteFaults(None, None, None)
    ensures ok ==> store.slots == Enrolling(old(store.slots), credential)
    ensures !readable || response.RequestFails? || response.NotOk? ==> store.slots == old(store.slots)
    ensures !ok && readable && (response.InvalidBody? || response.Issued?)
            && (forall i :: 0 <= i < |REFERENCES| ==> REFERENCES[i] !in deletes)
            ==> store.slots == map[]
    ensures !ok && readable && (response.InvalidBody? || response.Issued?) ==>
              forall i :: 0 <= i < |REFERENCES| && REFERENCES[i] !in deletes ==> REFERENCES[i] !in store.slots
  {
    if !readable || response.RequestFails? || response.NotOk? { return false; }
    if response.InvalidBody? {
      var _ := Cleanup(store, deletes);
      return false;
    }
    ok := WriteAll(store, credential, writes);
    if !ok { var _ := Cleanup(store, deletes); }
  }
}
