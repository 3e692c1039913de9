/**
 * The judge portal. Each stretch of code between two awaits is one step; timers, aborts and close() are
 * steps of the environment. Ghost records follow every prepared session to its end.
 */
module Portal {
  import opened Records

  const CAPACITY: nat := 16
  const LIFETIME: int := 30_000

  datatype Preview = Preview(id: Id, digest: Token, expiresAt: Time)

  datatype PendingEntry = PendingEntry(preview: Preview, source: Token, session: nat)

  datatype ActiveEntry = ActiveEntry(session: nat, aborted: bool)

  /** A draft waits for its scope and its prepared session, or for a rejected session to close. */
  datatype Draft = Awaiting(source: Token) | Closing(session: nat)

  datatype Confirmation = Confirmation(source: Token, digest: Token, at: Time)

  /** What has happened to a prepared session. */
  datatype Fate = Fate(source: Token, preview: Preview, offeredAt: Time, runs: seq<Confirmation>, closeCalled: bool)

  datatype State = State(
    pending: map<Id, PendingEntry>, active: map<Id, ActiveEntry>, preparing: int, closed: bool,
    drafts: map<nat, Draft>, fates: map<nat, Fate>, previews: set<Id>)

  const INITIAL := State(map[], map[], 0, false, map[], map[], {})

  datatype Event =
    | BeginDraft(draft: nat, source: Token)
    | DraftFails(draft: nat)
    | Prepared(draft: nat, session: nat, acceptable: bool, id: Id, digest: Token, now: Time)
    | DraftCloses(draft: nat)
    | TimerFires(id: Id)
    | Confirm(id: Id, source: Token, digest: Token, now: Time, aborted: bool)
    | Cancel(id: Id)
    | FinishRun(id: Id)
    | Close

  function CloseCalled(fates: map<nat, Fate>, session: nat): map<nat, Fate> {
    if session in fates then fates[session := fates[session].(closeCalled := true)] else fates
  }

  /** The discard step: forget a pending preview and call close on its session. */
  function Discard(s: State, id: Id): State {
    if id !in s.pending then s
    else s.(pending := s.pending - {id}, fates := CloseCalled(s.fates, s.pending[id].session))
  }

  predicate Unexpired(preview: Preview, now: Time) { preview.expiresAt - LIFETIME <= now < preview.expiresAt }

  predicate Confirmable(s: State, id: Id, source: Token, digest: Token) {
    !s.closed && id in s.pending && s.pending[id].source == source && s.pending[id].preview.digest == digest
  }

  /** Whether the session is still held by a preview or a run. */
  predicate Held(s: State, session: nat) {
    || (exists id :: id in s.pending && s.pending[id].session == session)
    || (exists id :: id in s.active && s.active[id].session == session)
  }

  function BeginDraft(s: State, draft: nat, source: Token): State {
    if s.closed || |s.pending| + |s.active| + s.preparing >= CAPACITY || draft in s.drafts then s
    else s.(preparing := s.preparing + 1, drafts := s.drafts[draft := Awaiting(source)])
  }

  /** The end of a draft: its slot is given back. */
  function EndDraft(s: State, draft: nat): State {
    s.(preparing := s.preparing - 1, drafts := s.drafts - {draft})
  }

  predicate Receivable(s: State, draft: nat, session: nat, id: Id) {
    draft in s.drafts && s.drafts[draft].Awaiting? && session !in s.fates && id !in s.previews
  }

  /** The backend has prepared a session: offer it as a pending preview, or close it. */
  function Receive(s: State, draft: nat, session: nat, acceptable: bool, id: Id, digest: Token, now: Time): State
    requires Receivable(s, draft, session, id)
  {
    var preview := Preview(id, digest, now + LIFETIME);
    var source := s.drafts[draft].source;
    if !acceptable || s.closed then
      s.(drafts := s.drafts[draft := Closing(session)], fates := s.fates[session := Fate(source, preview, now, [], true)])
    else
      EndDraft(s, draft).(
        pending := s.pending[id := PendingEntry(preview, source, session)],
        fates := s.fates[session := Fate(source, preview, now, [], false)], previews := s.previews + {id})
  }

  function Ran(fates: map<nat, Fate>, session: nat, run: Confirmation): map<nat, Fate> {
    if session in fates then fates[session := fates[session].(runs := fates[session].runs + [run])] else fates
  }

  /** A preview is consumed before anything is awaited, so it cannot launch twice. */
  function Launch(s: State, id: Id, source: Token, digest: Token, now: Time): State
    requires id in s.pending
  {
    s.(pending := s.pending - {id}, active := s.active[id := ActiveEntry(s.pending[id].session, false)],
       fates := Ran(s.fates, s.pending[id].session, Confirmation(source, digest, now)))
  }

  function Confirmed(s: State, id: Id, source: Token, digest: Token, now: Time, aborted: bool): State {
    if !Confirmable(s, id, source, digest) then s
    else if !Unexpired(s.pending[id].preview, now) || aborted then Discard(s, id)
    else Launch(s, id, source, digest, now)
  }

  /** An abort of the caller's signal, or the five-minute timeout. */
  function Cancelled(s: State, id: Id): State {
    if id !in s.active then s
    else s.(active := s.active[id := s.active[id].(aborted := true)], fates := CloseCalled(s.fates, s.active[id].session))
  }

  function Finished(s: State, id: Id): State {
    if id !in s.active then s
    else s.(active := s.active - {id}, fates := CloseCalled(s.fates, s.active[id].session))
  }

  function PendingSessions(pending: map<Id, PendingEntry>): set<nat> { set id | id in pending :: pending[id].session }

  function SessionsOf(active: map<Id, ActiveEntry>, ids: set<Id>): set<nat>
    requires ids <= active.Keys
  {
    set id | id in ids :: active[id].session
  }

  function ActiveSessions(active: map<Id, ActiveEntry>): set<nat> { SessionsOf(active, active.Keys) }

  function CloseMany(fates: map<nat, Fate>, sessions: set<nat>): map<nat, Fate> {
    map f | f in fates :: if f in sessions then fates[f].(closeCalled := true) else fates[f]
  }

  function Closed(s: State): State {
    s.(closed := true, pending := map[],
       active := map id | id in s.active :: s.active[id].(aborted := true),
       fates := CloseMany(s.fates, PendingSessions(s.pending) + ActiveSessions(s.active)))
  }

  function Next(s: State, e: Event): State {
    match e
    case BeginDraft(draft, source) => BeginDraft(s, draft, source)
    case DraftFails(draft) => if draft in s.drafts && s.drafts[draft].Awaiting? then EndDraft(s, draft) else s
    case Prepared(draft, session, acceptable, id, digest, now) =>
      if Receivable(s, draft, session, id) then Receive(s, draft, session, acceptable, id, digest, now) else s
    case DraftCloses(draft) => if draft in s.drafts && s.drafts[draft].Closing? then EndDraft(s, draft) else s
    case TimerFires(id) => Discard(s, id)
    case Confirm(id, source, digest, now, aborted) => Confirmed(s, id, source, digest, now, aborted)
    case Cancel(id) => Cancelled(s, id)
    case FinishRun(id) => Finished(s, id)
    case Close => Closed(s)
  }

  function RunFrom(s: State, events: seq<Event>): State {
    if |events| == 0 then s else Next(RunFrom(s, events[..|events| - 1]), events[|events| - 1])
  }

  function Run(events: seq<Event>): State { RunFrom(INITIAL, events) }

  // ---- sizes

  lemma RemoveShrinks<K, V>(m: map<K, V>, k: K)
    requires k in m
    ensures |m - {k}| == |m| - 1
  {
    assert (m - {k}).Keys == m.Keys - {k};
    assert |m.Keys| == |m| && |(m - {k}).Keys| == |m - {k}|;
  }

  lemma AddGrows<K, V>(m: map<K, V>, k: K, v: V)
    ensures |m[k := v]| == if k in m then |m| else |m| + 1
  {
    assert m[k := v].Keys == m.Keys + {k};
    assert |m.Keys| == |m| && |m[k := v].Keys| == |m[k := v]|;
    if k in m { assert m.Keys + {k} == m.Keys; }
  }

  lemma SameKeysSameSize<K, V, W>(m: map<K, V>, n: map<K, W>)
    requires m.Keys == n.Keys
    ensures |m| == |n|
  {
    assert |m.Keys| == |m| && |n.Keys| == |n|;
  }

  /** Previews being prepared, waiting and running never exceed the capacity, and none is in two places. */
  predicate Within(s: State) {
    && s.preparing == |s.drafts| && |s.pending| + |s.active| + s.preparing <= 16
    && s.pending.Keys !! s.active.Keys && s.pending.Keys <= s.previews && s.active.Keys <= s.previews
  }

  lemma EndDraftWithin(s: State, draft: nat)
    requires Within(s) && draft in s.drafts
    ensures Within(EndDraft(s, draft))
  {
    RemoveShrinks(s.drafts, draft);
  }

  lemma ReceiveWithin(s: State, draft: nat, session: nat, acceptable: bool, id: Id, digest: Token, now: Time)
    requires Within(s) && Receivable(s, draft, session, id)
    ensures Within(Receive(s, draft, session, acceptable, id, digest, now))
  {
    RemoveShrinks(s.drafts, draft);
    AddGrows(s.drafts, draft, Closing(session));
    AddGrows(s.pending, id, PendingEntry(Preview(id, digest, now + LIFETIME), s.drafts[draft].source, session));
  }

  lemma DiscardWithin(s: State, id: Id)
    requires Within(s)
    ensures Within(Discard(s, id))
  {
    if id in s.pending { RemoveShrinks(s.pending, id); }
  }

  lemma LaunchWithin(s: State, id: Id, source: Token, digest: Token, now: Time)
    requires Within(s) && id in s.pending
    ensures Within(Launch(s, id, source, digest, now))
  {
    RemoveShrinks(s.pending, id);
    AddGrows(s.active, id, ActiveEntry(s.pending[id].session, false));
  }

  lemma EndRunWithin(s: State, id: Id)
    requires Within(s)
    ensures Within(Cancelled(s, id)) && Within(Finished(s, id))
  {
    if id in s.active {
      RemoveShrinks(s.active, id);
      AddGrows(s.active, id, s.active[id].(aborted := true));
    }
  }

  lemma CloseWithin(s: State)
    requires Within(s)
    ensures Within(Closed(s))
  {
    SameKeysSameSize(s.active, Closed(s).active);
  }

  lemma WithinStep(s: State, e: Event)
    requires Within(s)
    ensures Within(Next(s, e))
  {
    hide Receive, EndDraft, Discard, Launch, Cancelled, Finished, Closed;
    match e
    case BeginDraft(draft, source) => AddGrows(s.drafts, draft, Awaiting(source));
    case DraftFails(draft) => if draft in s.drafts { EndDraftWithin(s, draft); }
    case Prepared(draft, session, acceptable, id, digest, now) =>
      if Receivable(s, draft, session, id) { ReceiveWithin(s, draft, session, acceptable, id, digest, now); }
    case DraftCloses(draft) => if draft in s.drafts { EndDraftWithin(s, draft); }
    case TimerFires(id) => DiscardWithin(s, id);
    case Confirm(id, source, digest, now, _) =>
      DiscardWithin(s, id);
      if id in s.pending { LaunchWithin(s, id, source, digest, now); }
    case Cancel(id) => EndRunWithin(s, id);
    case FinishRun(id) => EndRunWithin(s, id);
    case Close => CloseWithin(s);
  }

  // ---- the fate of a session

  /** The preview a session is offered under waits with the same source, and no run has been started. */
  ghost predicate Offered(s: State) {
    forall id :: id in s.pending ==>
      var entry := s.pending[id];
      && entry.session in s.fates && entry.preview == s.fates[entry.session].preview
      && entry.source == s.fates[entry.session].source && s.fates[entry.session].runs == []
  }

  /** No two previews, waiting or running, share a session. */
  ghost predicate Apart(s: State) {
    && (forall i, j :: i in s.pending && j in s.pending && i != j ==> s.pending[i].session != s.pending[j].session)
    && (forall i, j :: i in s.active && j in s.active && i != j ==> s.active[i].session != s.active[j].session)
    && (forall i, j :: i in s.pending && j in s.active ==> s.pending[i].session != s.active[j].session)
    && (forall i :: i in s.active ==> s.active[i].session in s.fates)
  }

  /** A session is run at most once, from its own source, for its own digest, within 30 seconds of its offer. */
  predicate RunOnce(fate: Fate) {
    && fate.preview.expiresAt == fate.offeredAt + 30_000
    && |fate.runs| <= 1
    && (|fate.runs| == 1 ==>
          fate.runs[0].source == fate.source && fate.runs[0].digest == fate.preview.digest
          && fate.offeredAt <= fate.runs[0].at && fate.runs[0].at < fate.offeredAt + 30_000)
  }

  /** Every prepared session is offered or running, or close has been called on it. */
  ghost predicate NoneLost(s: State) {
    forall f :: f in s.fates ==> RunOnce(s.fates[f]) && (s.fates[f].closeCalled || Held(s, f))
  }

  ghost predicate Tracked(s: State) { Offered(s) && Apart(s) && NoneLost(s) && (s.closed ==> s.pending == map[]) }

  lemma HeldWithout(s: State, id: Id, f: nat)
    requires id in s.pending && Held(s, f) && f != s.pending[id].session
    ensures Held(Discard(s, id), f)
  {
    if i :| i in s.pending && s.pending[i].session == f {
      assert i in Discard(s, id).pending;
    } else {
      var i :| i in s.active && s.active[i].session == f;
      assert i in Discard(s, id).active;
    }
  }

  lemma DiscardTracked(s: State, id: Id)
    requires Tracked(s)
    ensures Tracked(Discard(s, id))
  {
    if id in s.pending {
      forall f | f in s.fates ensures Discard(s, id).fates[f].closeCalled || Held(Discard(s, id), f) {
        if f != s.pending[id].session && Held(s, f) { HeldWithout(s, id, f); }
      }
    }
  }

  lemma LaunchApart(s: State, id: Id, source: Token, digest: Token, now: Time)
    requires Within(s) && Offered(s) && Apart(s) && id in s.pending
    ensures Apart(Launch(s, id, source, digest, now)) && Offered(Launch(s, id, source, digest, now))
  {
    hide Held;
  }

  lemma LaunchTracked(s: State, id: Id, source: Token, digest: Token, now: Time)
    requires Within(s) && Tracked(s) && Confirmable(s, id, source, digest) && Unexpired(s.pending[id].preview, now)
    ensures Tracked(Launch(s, id, source, digest, now))
  {
    hide Apart;
    LaunchApart(s, id, source, digest, now);
    var after := Launch(s, id, source, digest, now);
    forall f | f in s.fates ensures after.fates[f].closeCalled || Held(after, f) {
      if f == s.pending[id].session {
        assert after.active[id].session == f;
      } else if i :| i in s.pending && s.pending[i].session == f {
        assert i in after.pending && after.pending[i].session == f;
      } else if i :| i in s.active && s.active[i].session == f {
        assert i in after.active && after.active[i].session == f;
      }
    }
  }

  lemma CancelTracked(s: State, id: Id)
    requires Tracked(s)
    ensures Tracked(Cancelled(s, id))
  {
    if id in s.active {
      var after := Cancelled(s, id);
      forall f | f in s.fates ensures after.fates[f].closeCalled || Held(after, f) {
        if f != s.active[id].session {
          if i :| i in s.pending && s.pending[i].session == f {
            assert i in after.pending;
          } else if i :| i in s.active && s.active[i].session == f {
            assert i in after.active && after.active[i].session == f;
          }
        }
      }
    }
  }

  lemma FinishTracked(s: State, id: Id)
    requires Tracked(s)
    ensures Tracked(Finished(s, id))
  {
    if id in s.active {
      var after := Finished(s, id);
      forall f | f in s.fates ensures after.fates[f].closeCalled || Held(after, f) {
        if f != s.active[id].session {
          if i :| i in s.pending && s.pending[i].session == f {
            assert i in after.pending;
          } else if i :| i in s.active && s.active[i].session == f {
            assert i in after.active;
          }
        }
      }
    }
  }

  lemma RejectTracked(s: State, draft: nat, session: nat, fate: Fate)
    requires Tracked(s) && session !in s.fates && fate.closeCalled && fate.runs == [] && RunOnce(fate)
    ensures Tracked(s.(drafts := s.drafts[draft := Closing(session)], fates := s.fates[session := fate]))
  {
    var after := s.(drafts := s.drafts[draft := Closing(session)], fates := s.fates[session := fate]);
    forall f | f in after.fates ensures after.fates[f].closeCalled || Held(after, f) {
      assert Held(s, f) ==> Held(after, f);
    }
  }

  /** The tables after a fresh session is offered under a fresh preview. */
  function Offer(s: State, id: Id, entry: PendingEntry, fate: Fate): State {
    s.(pending := s.pending[id := entry], fates := s.fates[entry.session := fate], previews := s.previews + {id})
  }

  lemma OfferTracked(s: State, id: Id, entry: PendingEntry, fate: Fate)
    requires Within(s) && Tracked(s) && !s.closed && entry.session !in s.fates && id !in s.previews
    requires fate == Fate(entry.source, entry.preview, entry.preview.expiresAt - 30_000, [], false)
    ensures Tracked(Offer(s, id, entry, fate))
  {
    var after := Offer(s, id, entry, fate);
    assert Offered(after) && Apart(after);
    forall f | f in after.fates ensures after.fates[f].closeCalled || Held(after, f) {
      if f == entry.session {
        assert after.pending[id].session == f;
      } else if i :| i in s.pending && s.pending[i].session == f {
        assert i in after.pending && after.pending[i].session == f;
      } else {
        assert Held(s, f) ==> Held(after, f);
      }
    }
  }

  lemma ReceiveTracked(s: State, draft: nat, session: nat, acceptable: bool, id: Id, digest: Token, now: Time)
    requires Within(s) && Tracked(s) && Receivable(s, draft, session, id)
    ensures Tracked(Receive(s, draft, session, acceptable, id, digest, now))
  {
    hide Tracked, Within;
    var preview := Preview(id, digest, now + LIFETIME);
    var source := s.drafts[draft].source;
    if !acceptable || s.closed {
      RejectTracked(s, draft, session, Fate(source, preview, now, [], true));
    } else {
      var offered := Offer(s, id, PendingEntry(preview, source, session), Fate(source, preview, now, [], false));
      OfferTracked(s, id, PendingEntry(preview, source, session), Fate(source, preview, now, [], false));
      SameTracked(offered, Receive(s, draft, session, acceptable, id, digest, now));
    }
  }

  lemma CloseTracked(s: State)
    requires Tracked(s)
    ensures Tracked(Closed(s))
  {
  }

  lemma SameTracked(s: State, after: State)
    requires Tracked(s) && after == s.(preparing := after.preparing, drafts := after.drafts)
    ensures Tracked(after)
  {
    forall f | f in after.fates ensures after.fates[f].closeCalled || Held(after, f) {
      assert Held(s, f) ==> Held(after, f);
    }
  }

  lemma TrackedStep(s: State, e: Event)
    requires Within(s) && Tracked(s)
    ensures Tracked(Next(s, e))
  {
    hide Tracked, Receive, Discard, Launch, Cancelled, Finished, Closed;
    match e
    case BeginDraft(_, _) => SameTracked(s, Next(s, e));
    case DraftFails(_) => SameTracked(s, Next(s, e));
    case Prepared(draft, session, acceptable, id, digest, now) =>
      if Receivable(s, draft, session, id) { ReceiveTracked(s, draft, session, acceptable, id, digest, now); }
    case DraftCloses(_) => SameTracked(s, Next(s, e));
    case TimerFires(id) => DiscardTracked(s, id);
    case Confirm(id, source, digest, now, _) =>
      DiscardTracked(s, id);
      if Confirmable(s, id, source, digest) && Unexpired(s.pending[id].preview, now) {
        LaunchTracked(s, id, source, digest, now);
      }
    case Cancel(id) => CancelTracked(s, id);
    case FinishRun(id) => FinishTracked(s, id);
    case Close => CloseTracked(s);
  }

  /** At every step of every interleaving: within capacity, each session run at most once, none lost. */
  lemma {:induction false} PortalReachable(events: seq<Event>)
    ensures Within(Run(events)) && Tracked(Run(events))
  {
    hide Within, Tracked, Next;
    if |events| > 0 {
      PortalReachable(events[..|events| - 1]);
      WithinStep(Run(events[..|events| - 1]), events[|events| - 1]);
      TrackedStep(Run(events[..|events| - 1]), events[|events| - 1]);
    } else {
      assert Within(INITIAL) && Tracked(INITIAL) by { InitialTracked(); }
    }
  }

  lemma InitialTracked()
    ensures Within(INITIAL) && Tracked(INITIAL)
  {
  }

  /** A draft takes a slot exactly in an open portal with one of the sixteen free. */
  lemma DraftAdmitted(s: State, draft: nat, source: Token)
    requires draft !in s.drafts
    ensures var after := Next(s, Event.BeginDraft(draft, source));
            && (draft in after.drafts <==> !s.closed && |s.pending| + |s.active| + s.preparing < 16)
            && (draft in after.drafts ==>
                  after == s.(preparing := s.preparing + 1, drafts := s.drafts[draft := Awaiting(source)]))
            && (draft !in after.drafts ==> after == s)
  {
  }

  /** No session's record changes but this one's. */
  predicate OnlyOf(before: map<nat, Fate>, after: map<nat, Fate>, session: nat) {
    after.Keys == before.Keys && forall f :: f in before && f != session ==> after[f] == before[f]
  }

  /** A draft gives its slot back when its preparation fails, or when its rejected session has closed. */
  lemma DraftEnded(s: State, draft: nat)
    ensures var failed, closed := Next(s, DraftFails(draft)), Next(s, DraftCloses(draft));
            && (draft in s.drafts && s.drafts[draft].Awaiting? ==>
                  failed == s.(preparing := s.preparing - 1, drafts := s.drafts - {draft}) && closed == s)
            && (draft in s.drafts && s.drafts[draft].Closing? ==>
                  closed == s.(preparing := s.preparing - 1, drafts := s.drafts - {draft}) && failed == s)
            && (draft !in s.drafts ==> failed == closed == s)
  {
  }

  /** A prepared session is offered, for 30 seconds, exactly when it is acceptable and the portal is open. */
  lemma OfferMade(s: State, draft: nat, session: nat, acceptable: bool, id: Id, digest: Token, now: Time)
    requires draft in s.drafts && s.drafts[draft].Awaiting? && session !in s.fates && id !in s.previews && id !in s.pending
    ensures var after := Next(s, Prepared(draft, session, acceptable, id, digest, now));
            var preview, source, offered := Preview(id, digest, now + 30_000), s.drafts[draft].source, acceptable && !s.closed;
            && after.fates == s.fates[session := Fate(source, preview, now, [], !offered)]
            && after.active == s.active && (after.closed <==> s.closed)
            && (offered ==>
                  && after.pending == s.pending[id := PendingEntry(preview, source, session)]
                  && after.previews == s.previews + {id}
                  && after.preparing == s.preparing - 1 && after.drafts == s.drafts - {draft})
            && (!offered ==>
                  && after.pending == s.pending && after.preparing == s.preparing
                  && after.drafts == s.drafts[draft := Closing(session)])
  {
  }

  /**
   * A confirmation launches the run exactly for an open portal, a waiting preview, its own source and digest, a
   * moment inside the 30 seconds, and a caller that has not gone; one that comes too late, too early or gone
   * discards the preview and closes its session, and any other changes nothing.
   */
  lemma ConfirmationJudged(s: State, id: Id, source: Token, digest: Token, now: Time, aborted: bool)
    requires Within(s)
    ensures var after := Next(s, Event.Confirm(id, source, digest, now, aborted));
            var mine := !s.closed && id in s.pending && s.pending[id].source == source && s.pending[id].preview.digest == digest;
            var timely := mine && s.pending[id].preview.expiresAt - 30_000 <= now && now < s.pending[id].preview.expiresAt;
            && (!mine ==> after == s)
            && (mine ==>
                  var session := s.pending[id].session;
                  && after == s.(pending := s.pending - {id}, active := after.active, fates := after.fates)
                  && OnlyOf(s.fates, after.fates, session)
                  && after.active == (if timely && !aborted then s.active[id := ActiveEntry(session, false)] else s.active)
                  && (session in s.fates ==>
                        after.fates[session] ==
                          if timely && !aborted
                          then s.fates[session].(runs := s.fates[session].runs + [Confirmation(source, digest, now)])
                          else s.fates[session].(closeCalled := true)))
  {
  }

  /** A preview whose time is over, and a run that is cancelled or over, close their session and touch no other. */
  lemma EndsClosed(s: State, id: Id)
    ensures var timed := Next(s, TimerFires(id));
            if id !in s.pending then timed == s
            else
              && timed == s.(pending := s.pending - {id}, fates := timed.fates)
              && OnlyOf(s.fates, timed.fates, s.pending[id].session)
              && (s.pending[id].session in s.fates ==>
                    timed.fates[s.pending[id].session] == s.fates[s.pending[id].session].(closeCalled := true))
    ensures var cancelled, finished := Next(s, Event.Cancel(id)), Next(s, Event.FinishRun(id));
            if id !in s.active then cancelled == finished == s
            else
              var session := s.active[id].session;
              && cancelled == s.(active := s.active[id := ActiveEntry(session, true)], fates := cancelled.fates)
              && finished == s.(active := s.active - {id}, fates := cancelled.fates)
              && OnlyOf(s.fates, cancelled.fates, session)
              && (session in s.fates ==> cancelled.fates[session] == s.fates[session].(closeCalled := true))
  {
  }

  /** Closing aborts every run, forgets every preview, and closes exactly the sessions that were held. */
  lemma AllClosed(s: State)
    ensures var after := Next(s, Event.Close);
            && after == s.(closed := true, pending := map[], active := after.active, fates := after.fates)
            && after.active.Keys == s.active.Keys && after.fates.Keys == s.fates.Keys
            && (forall id :: id in s.active ==> after.active[id] == ActiveEntry(s.active[id].session, true))
            && (forall f :: f in s.fates ==>
                  after.fates[f] == s.fates[f].(closeCalled := s.fates[f].closeCalled || Held(s, f)))
  {
    var after := Next(s, Event.Close);
    forall f | f in s.fates ensures after.fates[f] == s.fates[f].(closeCalled := s.fates[f].closeCalled || Held(s, f)) {
      assert f in PendingSessions(s.pending) <==> exists id :: id in s.pending && s.pending[id].session == f;
      assert f in ActiveSessions(s.active) <==> exists id :: id in s.active && s.active[id].session == f;
    }
  }

  /** Nothing was offered or run between two states; what was prepared was closed at once. */
  ghost predicate Quiet(s: State, after: State) {
    && after.closed && after.pending == map[] && after.active.Keys <= s.active.Keys
    && (forall f :: f in s.fates ==> f in after.fates && after.fates[f].runs == s.fates[f].runs)
    && (forall f :: f in after.fates && f !in s.fates ==> after.fates[f].closeCalled && after.fates[f].runs == [])
    && (forall f :: f in s.fates && s.fates[f].closeCalled ==> after.fates[f].closeCalled)
  }

  /** Events that a closed portal with no previews ignores, or that only end what is there. */
  lemma QuietStep(s: State, e: Event)
    requires s.closed && s.pending == map[]
    ensures Quiet(s, Next(s, e))
  {
    hide Held, CloseMany, PendingSessions;
    match e
    case Close => QuietClose(s);
    case _ =>
  }

  lemma QuietClose(s: State)
    requires s.closed && s.pending == map[]
    ensures Quiet(s, Closed(s))
  {
  }

  lemma QuietTrans(s: State, middle: State, after: State)
    requires Quiet(s, middle) && Quiet(middle, after)
    ensures Quiet(s, after)
  {
    forall f | f in after.fates && f !in s.fates ensures after.fates[f].closeCalled && after.fates[f].runs == [] {
      if f in middle.fates { assert middle.fates[f].closeCalled; }
    }
  }

  /** After close() nothing becomes pending or active, and no session is run again, whatever happens next. */
  lemma {:induction false} NothingAfterClose(s: State, events: seq<Event>)
    requires s.closed && s.pending == map[]
    ensures Quiet(s, RunFrom(s, events))
  {
    hide Next;
    if |events| > 0 {
      NothingAfterClose(s, events[..|events| - 1]);
      QuietStep(RunFrom(s, events[..|events| - 1]), events[|events| - 1]);
      QuietTrans(s, RunFrom(s, events[..|events| - 1]), RunFrom(s, events));
    }
  }

  // ---- closing sessions one by one

  lemma CloseNone(fates: map<nat, Fate>)
    ensures CloseMany(fates, {}) == fates
  {
  }

  lemma CloseOneMore(fates: map<nat, Fate>, session: nat, rest: set<nat>)
    ensures CloseMany(CloseCalled(fates, session), rest) == CloseMany(fates, rest + {session})
  {
  }

  lemma PeelPending(fates: map<nat, Fate>, pending: map<Id, PendingEntry>, id: Id)
    requires id in pending
    ensures CloseMany(CloseCalled(fates, pending[id].session), PendingSessions(pending - {id}))
         == CloseMany(fates, PendingSessions(pending))
  {
    hide CloseMany;
    var rest := pending - {id};
    assert PendingSessions(pending) == PendingSessions(rest) + {pending[id].session} by {
      forall session | session in PendingSessions(pending) ensures session in PendingSessions(rest) + {pending[id].session} {
        var i :| i in pending && pending[i].session == session;
        assert i == id || (i in rest && rest[i].session == session);
      }
      forall session | session in PendingSessions(rest) ensures session in PendingSessions(pending) {
        var i :| i in rest && rest[i].session == session;
        assert i in pending && pending[i].session == session;
      }
    }
    CloseOneMore(fates, pending[id].session, PendingSessions(rest));
  }

  lemma PeelActive(fates: map<nat, Fate>, active: map<Id, ActiveEntry>, ids: set<Id>, id: Id)
    requires ids <= active.Keys && id in ids
    ensures CloseMany(CloseCalled(fates, active[id].session), SessionsOf(active, ids - {id}))
         == CloseMany(fates, SessionsOf(active, ids))
  {
    hide CloseMany;
    assert SessionsOf(active, ids) == SessionsOf(active, ids - {id}) + {active[id].session} by {
      assert ids == (ids - {id}) + {id};
    }
    CloseOneMore(fates, active[id].session, SessionsOf(active, ids - {id}));
  }

  lemma SameSessions(one: map<Id, ActiveEntry>, two: map<Id, ActiveEntry>)
    requires one.Keys == two.Keys && forall id :: id in one ==> one[id].session == two[id].session
    ensures ActiveSessions(one) == ActiveSessions(two)
  {
  }

  // ---- the object

  datatype Answer = Accepted | Unavailable | CapacityUnavailable | PreviewUnavailable

  /** The four fields the portal updates, and a ghost record of drafts, previews and prepared sessions. */
  class JudgePortal {
    var pending: map<Id, PendingEntry>
    var active: map<Id, ActiveEntry>
    var preparing: int
    var closed: bool
    ghost var drafts: map<nat, Draft>
    ghost var fates: map<nat, Fate>
    ghost var previews: set<Id>

    ghost function Now(): State
      reads this
    {
      State(pending, active, preparing, closed, drafts, fates, previews)
    }

    constructor ()
      ensures Now() == INITIAL
    {
      pending, active, preparing, closed := map[], map[], 0, false;
      drafts, fates, previews := map[], map[], {};
    }

    /** draft, up to its first await. */
    method BeginDraft(source: Token, ghost draft: nat) returns (answer: Answer)
      requires draft !in drafts
      modifies `preparing, `drafts
      ensures Now() == Next(old(Now()), Event.BeginDraft(draft, source))
      ensures answer == if closed then Unavailable
                        else if |pending| + |active| + old(preparing) >= CAPACITY then CapacityUnavailable else Accepted
    {
      if closed { return Unavailable; }
      if |pending| + |active| + preparing >= 16 { return CapacityUnavailable; }
      preparing := preparing + 1;
      drafts := drafts[draft := Awaiting(source)];
      return Accepted;
    }

    /** The finally block of a draft that has no session, or whose session has closed. */
    method EndDraft(ghost draft: nat)
      requires draft in drafts
      modifies `preparing, `drafts
      ensures Now() == Next(old(Now()), if old(drafts)[draft].Awaiting? then DraftFails(draft) else DraftCloses(draft))
    {
      preparing := preparing - 1;
      drafts := drafts - {draft};
    }

    /** draft, from the prepared session to its return or to the await of close(). */
    method FinishDraft(
      source: Token, session: nat, acceptable: bool, id: Id, digest: Token, now: Time, ghost draft: nat)
      returns (answer: Answer)
      requires draft in drafts && drafts[draft] == Awaiting(source) && session !in fates && id !in previews
      modifies this
      ensures Now() == Next(old(Now()), Prepared(draft, session, acceptable, id, digest, now))
      ensures answer == if acceptable && !old(closed) then Accepted else Unavailable
    {
      var preview := Preview(id, digest, now + 30_000);
      if !acceptable || closed {
        drafts := drafts[draft := Closing(session)];
        fates := fates[session := Fate(source, preview, now, [], true)];
        return Unavailable;
      }
      pending := pending[id := PendingEntry(preview, source, session)];
      fates := fates[session := Fate(source, preview, now, [], false)];
      previews := previews + {id};
      EndDraft(draft);
      return Accepted;
    }

    method Discard(id: Id)
      modifies `pending, `fates
      ensures Now() == Next(old(Now()), TimerFires(id))
    {
      if id !in pending { return; }
      var session := pending[id].session;
      pending := pending - {id};
      fates := CloseCalled(fates, session);
    }

    /** confirm, up to the race between the run and its cancellation. */
    method Confirm(id: Id, source: Token, digest: Token, now: Time, aborted: bool) returns (answer: Answer)
      modifies `pending, `active, `fates
      ensures Now() == Next(old(Now()), Event.Confirm(id, source, digest, now, aborted))
      ensures answer == Accepted <==> id in active && id in old(pending) && id !in pending
                                      && active[id] == ActiveEntry(old(pending)[id].session, false)
                                      && Confirmable(old(Now()), id, source, digest)
                                      && Unexpired(old(pending)[id].preview, now) && !aborted
    {
      if id !in pending || closed || pending[id].source != source || pending[id].preview.digest != digest {
        return PreviewUnavailable;
      }
      var entry := pending[id];
      if entry.preview.expiresAt <= now || now < entry.preview.expiresAt - 30_000 || aborted {
        Discard(id);
        return PreviewUnavailable;
      }
      pending := pending - {id};
      active := active[id := ActiveEntry(entry.session, false)];
      fates := Ran(fates, entry.session, Confirmation(source, digest, now));
      return Accepted;
    }

    /** The cancel closure of a running confirmation. */
    method Cancel(id: Id)
      requires id in active
      modifies `active, `fates
      ensures Now() == Next(old(Now()), Event.Cancel(id))
    {
      active := active[id := active[id].(aborted := true)];
      fates := CloseCalled(fates, active[id].session);
    }

    /** confirm, from the end of the race. */
    method FinishRun(id: Id)
      requires id in active
      modifies `active, `fates
      ensures Now() == Next(old(Now()), Event.FinishRun(id))
    {
      var session := active[id].session;
      active := active - {id};
      fates := CloseCalled(fates, session);
    }

    method AbortAll()
      modifies `active
      ensures active == map id | id in old(active) :: old(active)[id].(aborted := true)
    {
      var ids := active.Keys;
      while ids != {}
        invariant ids <= active.Keys && active.Keys == old(active).Keys
        invariant forall id :: id in active ==>
                    active[id] == if id in ids then old(active)[id] else old(active)[id].(aborted := true)
        decreases |ids|
      {
        var id :| id in ids;
        active := active[id := active[id].(aborted := true)];
        ids := ids - {id};
      }
    }

    method DiscardAll()
      modifies `pending, `fates
      ensures pending == map[] && fates == CloseMany(old(fates), PendingSessions(old(pending)))
    {
      while pending != map[]
        invariant CloseMany(fates, PendingSessions(pending)) == CloseMany(old(fates), PendingSessions(old(pending)))
        decreases |pending.Keys|
      {
        var id :| id in pending;
        PeelPending(fates, pending, id);
        Discard(id);
      }
      CloseNone(fates);
      assert PendingSessions(pending) == {};
    }

    method CloseActive()
      modifies `fates
      ensures fates == CloseMany(old(fates), ActiveSessions(active))
    {
      var ids := active.Keys;
      while ids != {}
        invariant ids <= active.Keys
        invariant CloseMany(fates, SessionsOf(active, ids)) == CloseMany(old(fates), SessionsOf(active, active.Keys))
        decreases |ids|
      {
        var id :| id in ids;
        PeelActive(fates, active, ids, id);
        fates := CloseCalled(fates, active[id].session);
        ids := ids - {id};
      }
      CloseNone(fates);
      assert SessionsOf(active, {}) == {};
    }

    method Close()
      modifies this
      ensures Now() == Next(old(Now()), Event.Close)
    {
      closed := true;
      AbortAll();
      DiscardAll();
      CloseActive();
      SameSessions(active, old(active));
    }
  }
}
