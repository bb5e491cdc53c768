/** The throttled progress listener (cache/progress.py). */
module Progress {

  const MAX_UPDATES := 20
  const UPDATE_INTERVAL := 3.0

  /**
   What the subscription yields: something that is not a message, a message that is no JSON, or progress. With
   progress come the clock reading taken for it and whether an edit would succeed.
   */
  datatype Event = Other | BadJson | Percent(percent: real, now: real, editable: bool) {
    predicate Final() { Percent? && percent >= 100.0 }
  }

  /** An attempt to edit the Telegram message, for the event of the given index. */
  datatype Attempt = Attempt(event: nat, now: real, final: bool, ok: bool)

  datatype Listener = Listener(last: real, updates: nat, attempts: seq<Attempt>, consumed: nat, stopped: bool)

  const START := Listener(0.0, 0, [], 0, false)

  predicate Due(l: Listener, e: Event)
    requires e.Percent?
  {
    (e.now - l.last >= UPDATE_INTERVAL && l.updates < MAX_UPDATES) || e.percent >= 100.0
  }

  function Hear(l: Listener, e: Event): Listener {
    var l := l.(consumed := l.consumed + 1);
    if !e.Percent? then l
    else
      var l := if !Due(l, e) then l
               else l.(attempts := l.attempts + [Attempt(l.consumed - 1, e.now, e.Final(), e.editable)],
                       last := if e.editable then e.now else l.last,
                       updates := if e.editable then l.updates + 1 else l.updates);
      l.(stopped := e.Final())
  }

  function Listen(events: seq<Event>): Listener {
    if events == [] then START
    else
      var l := Listen(events[..|events| - 1]);
      if l.stopped then l else Hear(l, events[|events| - 1])
  }

  method StartProgressListener(events: seq<Event>) returns (l: Listener)
    ensures l == Listen(events)
  {
    var last, updates, attempts: seq<Attempt> := 0.0, 0, [];
    var i := 0;
    while i < |events|
      invariant 0 <= i <= |events|
      invariant Listen(events[..i]) == Listener(last, updates, attempts, i, false)
      decreases |events| - i
    {
      var e := events[i];
      assert events[..i + 1][..i] == events[..i];
      i := i + 1;
      if !e.Percent? { continue; }
      if (e.now - last >= UPDATE_INTERVAL && updates < MAX_UPDATES) || e.percent >= 100.0 {
        attempts := attempts + [Attempt(i - 1, e.now, e.percent >= 100.0, e.editable)];
        if e.editable {
          last := e.now;
          updates := updates + 1;
        }
      }
      if e.percent >= 100.0 {
        NothingAfterStop(events, i);
        return Listener(last, updates, attempts, i, true);
      }
    }
    assert events[..|events|] == events;
    l := Listener(last, updates, attempts, i, false);
  }

  lemma {:induction false} NothingAfterStop(events: seq<Event>, i: nat)
    requires i <= |events| && Listen(events[..i]).stopped
    ensures Listen(events) == Listen(events[..i])
  {
    if i == |events| {
      assert events[..i] == events;
    } else {
      assert events[..|events| - 1][..i] == events[..i];
      NothingAfterStop(events[..|events| - 1], i);
    }
  }

  function Successes(attempts: seq<Attempt>): nat {
    if attempts == [] then 0
    else Successes(attempts[..|attempts| - 1]) + (if attempts[|attempts| - 1].ok then 1 else 0)
  }

  ghost predicate ClockOrdered(events: seq<Event>) {
    forall i, j :: 0 <= i < j < |events| && events[i].Percent? && events[j].Percent? ==> events[i].now <= events[j].now
  }

  /** The listener consumes exactly the events up to and including the first of 100 percent or more. */
  lemma {:induction false} ConsumesThroughFirstFinal(events: seq<Event>)
    ensures var l := Listen(events);
            && (if l.stopped then 0 < l.consumed <= |events| else l.consumed == |events|)
            && (l.stopped ==> events[l.consumed - 1].Percent? && events[l.consumed - 1].percent >= 100.0)
            && forall i :: 0 <= i < (if l.stopped then l.consumed - 1 else l.consumed) && events[i].Percent? ==>
                 events[i].percent < 100.0
  {
    if events != [] {
      var before := events[..|events| - 1];
      ConsumesThroughFirstFinal(before);
      assert forall i :: 0 <= i < |before| ==> events[i] == before[i];
    }
  }

  /** Hearing an event counts its edit, and only the final event may be edited once twenty edits are reached. */
  lemma HearCounts(l: Listener, e: Event)
    ensures Successes(Hear(l, e).attempts) + l.updates == Successes(l.attempts) + Hear(l, e).updates
    ensures l.updates <= 20 ==> Hear(l, e).updates <= 20 + (if e.Final() then 1 else 0)
    ensures Hear(l, e).stopped <==> e.Final() || (l.stopped && !e.Percent?)
  {
    var h := Hear(l, e);
    if h.attempts != l.attempts {
      assert h.attempts[..|h.attempts| - 1] == l.attempts;
    }
  }

  /** At most 21 edits succeed, and before the final event at most 20. */
  lemma {:induction false} AtMost21Edits(events: seq<Event>)
    ensures var l := Listen(events);
            Successes(l.attempts) == l.updates && l.updates <= if l.stopped then 21 else 20
  {
    if events != [] {
      AtMost21Edits(events[..|events| - 1]);
      HearCounts(Listen(events[..|events| - 1]), events[|events| - 1]);
      hide Hear, Successes;
    }
  }

  /** n progress messages, three seconds apart, that can all be shown. */
  function Ticks(n: nat): (events: seq<Event>)
    ensures |events| == n
  {
    if n == 0 then [] else Ticks(n - 1) + [Percent(0.0, UPDATE_INTERVAL * n as real, true)]
  }

  lemma {:induction false} TicksAllShown(n: nat)
    requires n <= MAX_UPDATES
    ensures var l := Listen(Ticks(n)); l.updates == n && !l.stopped && l.last == UPDATE_INTERVAL * n as real
  {
    if n > 0 {
      assert Ticks(n)[..n - 1] == Ticks(n - 1);
      TicksAllShown(n - 1);
    }
  }

  /** The bound of 21 is reached: twenty spaced edits and the final one. */
  lemma TwentyOneEditsReached()
    ensures Successes(Listen(Ticks(20) + [Percent(100.0, 60.0, true)]).attempts) == 21
  {
    var events := Ticks(20) + [Percent(100.0, 60.0, true)];
    assert events[..20] == Ticks(20);
    TicksAllShown(20);
    AtMost21Edits(events);
  }

  /** Attempts belong to distinct events, in order, and record their clock, finality and outcome. */
  ghost predicate Recorded(events: seq<Event>, l: Listener) {
    && l.consumed <= |events|
    && (forall a :: 0 <= a < |l.attempts| ==>
          var t := l.attempts[a];
          t.event < l.consumed && events[t.event].Percent? && events[t.event].now == t.now
          && events[t.event].editable == t.ok && t.final == events[t.event].Final())
    && (forall a, b :: 0 <= a < b < |l.attempts| ==> l.attempts[a].event < l.attempts[b].event)
  }

  lemma HearRecords(events: seq<Event>, l: Listener)
    requires events != [] && Recorded(events[..|events| - 1], l) && l.consumed == |events| - 1
    ensures Recorded(events, Hear(l, events[|events| - 1]))
  {
    var before, h := events[..|events| - 1], Hear(l, events[|events| - 1]);
    assert forall a :: 0 <= a < |l.attempts| ==> h.attempts[a] == l.attempts[a];
    assert forall a :: 0 <= a < |l.attempts| ==> events[l.attempts[a].event] == before[l.attempts[a].event];
  }

  lemma {:induction false} ListenRecords(events: seq<Event>)
    ensures Recorded(events, Listen(events))
  {
    if events != [] {
      var before := events[..|events| - 1];
      ListenRecords(before);
      ConsumesThroughFirstFinal(before);
      if Listen(before).stopped {
        assert forall i :: 0 <= i < |before| ==> events[i] == before[i];
      } else {
        HearRecords(events, Listen(before));
        hide Recorded, Hear;
      }
    }
  }

  /** `last` is the clock of a success, or still zero, and no success is later. */
  ghost predicate LastIsLatest(l: Listener) {
    && (forall a :: 0 <= a < |l.attempts| && l.attempts[a].ok ==> l.attempts[a].now <= l.last)
    && (l.last == 0.0 || exists a :: 0 <= a < |l.attempts| && l.attempts[a].ok && l.attempts[a].now == l.last)
  }

  ghost predicate NoneAfter(l: Listener, now: real) {
    forall a :: 0 <= a < |l.attempts| ==> l.attempts[a].now <= now
  }

  /** The clock is not behind any attempt. */
  lemma NotBehind(events: seq<Event>)
    requires events != [] && ClockOrdered(events) && events[|events| - 1].Percent?
    ensures NoneAfter(Listen(events[..|events| - 1]), events[|events| - 1].now)
  {
    var before := events[..|events| - 1];
    assert forall i :: 0 <= i < |before| ==> events[i] == before[i];
    ListenRecords(before);
    var l := Listen(before);
    forall a | 0 <= a < |l.attempts| ensures l.attempts[a].now <= events[|events| - 1].now {
      assert events[l.attempts[a].event].now <= events[|events| - 1].now;
    }
  }

  lemma HearKeepsLatest(l: Listener, e: Event)
    requires LastIsLatest(l)
    requires e.Percent? ==> NoneAfter(l, e.now)
    ensures LastIsLatest(Hear(l, e))
  {
    var h := Hear(l, e);
    assert forall a :: 0 <= a < |l.attempts| ==> h.attempts[a] == l.attempts[a];
    if h.attempts != l.attempts && e.editable {
      assert h.attempts[|l.attempts|].ok && h.attempts[|l.attempts|].now == h.last;
    } else if l.last != 0.0 {
      var a :| 0 <= a < |l.attempts| && l.attempts[a].ok && l.attempts[a].now == l.last;
      assert h.attempts[a].ok && h.attempts[a].now == h.last;
    }
  }

  lemma {:induction false} LatestKnown(events: seq<Event>)
    requires ClockOrdered(events)
    ensures LastIsLatest(Listen(events))
  {
    if events != [] {
      var before, e := events[..|events| - 1], events[|events| - 1];
      var l := Listen(before);
      assert forall i :: 0 <= i < |before| ==> events[i] == before[i];
      LatestKnown(before);
      if e.Percent? { NotBehind(events); }
      if !l.stopped { HearKeepsLatest(l, e); }
    }
  }

  ghost predicate Spaced(l: Listener) {
    forall a, b :: 0 <= a < b < |l.attempts| && l.attempts[a].ok && !l.attempts[b].final ==>
      l.attempts[b].now - l.attempts[a].now >= 3.0
  }

  lemma {:induction false} AttemptsAreSpaced(events: seq<Event>)
    requires ClockOrdered(events)
    ensures Spaced(Listen(events))
  {
    if events != [] {
      var before := events[..|events| - 1];
      AttemptsAreSpaced(before);
      LatestKnown(before);
    }
  }

  /**
   Attempts are made for progress events, in their order and once for each. One below 100 percent comes at least
   three seconds after every earlier success.
   */
  lemma EditsAreSpaced(events: seq<Event>)
    requires ClockOrdered(events)
    ensures var attempts := Listen(events).attempts;
            forall a, b :: 0 <= a < b < |attempts| ==>
              var first, second := attempts[a].event, attempts[b].event;
              && first < second < |events| && events[first].Percent? && events[second].Percent?
              && (events[first].editable && events[second].percent < 100.0 ==>
                    events[second].now - events[first].now >= 3.0)
  {
    AttemptsAreSpaced(events);
    ListenRecords(events);
    hide Listen;
  }

  ghost predicate AttemptedAt(l: Listener, event: nat) {
    exists a :: 0 <= a < |l.attempts| && l.attempts[a].event == event
  }

  /** Why a progress event can be passed over: enough edits, or too soon after a success (or after time zero). */
  ghost predicate PassedOverRightly(events: seq<Event>, l: Listener, i: nat)
    requires i < |events| && events[i].Percent?
  {
    && events[i].percent < 100.0
    && (l.updates >= 20
        || events[i].now < 3.0
        || exists a :: 0 <= a < |l.attempts| && l.attempts[a].ok && l.attempts[a].event < i
                        && events[i].now - l.attempts[a].now < 3.0)
  }

  /** Hearing one more event keeps attempts, and keeps reasons that were right. */
  lemma HearKeeps(events: seq<Event>, l: Listener, h: Listener, i: nat)
    requires i < |events| - 1 && events[i].Percent?
    requires l.attempts <= h.attempts && l.updates <= h.updates
    requires AttemptedAt(l, i) || PassedOverRightly(events[..|events| - 1], l, i)
    ensures AttemptedAt(h, i) || PassedOverRightly(events, h, i)
  {
    assert forall a :: 0 <= a < |l.attempts| ==> h.attempts[a] == l.attempts[a];
    if AttemptedAt(l, i) {
      var a :| 0 <= a < |l.attempts| && l.attempts[a].event == i;
      assert h.attempts[a].event == i;
    } else if l.updates < 20 && events[i].now >= 3.0 {
      var a :| 0 <= a < |l.attempts| && l.attempts[a].ok && l.attempts[a].event < i
               && events[i].now - l.attempts[a].now < 3.0;
      assert h.attempts[a].ok && h.attempts[a].event < i;
    }
  }

  /** An event just heard was attempted, or there was a reason. */
  lemma HeardRightly(events: seq<Event>, l: Listener)
    requires events != [] && events[|events| - 1].Percent? && l.consumed == |events| - 1
    requires LastIsLatest(l) && Recorded(events[..|events| - 1], l)
    ensures var h := Hear(l, events[|events| - 1]);
            AttemptedAt(h, |events| - 1) || PassedOverRightly(events, h, |events| - 1)
  {
    var e, i := events[|events| - 1], |events| - 1;
    var h := Hear(l, e);
    if Due(l, e) {
      assert h.attempts[|l.attempts|].event == i;
    } else if l.updates < 20 && e.now >= 3.0 {
      var a :| 0 <= a < |l.attempts| && l.attempts[a].ok && l.attempts[a].now == l.last;
      assert h.attempts[a].ok && h.attempts[a].event < i;
    }
  }

  /** No progress is passed over without such a reason. */
  lemma {:induction false} NothingPassedOver(events: seq<Event>, i: nat)
    requires ClockOrdered(events) && i < |events| && i < Listen(events).consumed && events[i].Percent?
    ensures AttemptedAt(Listen(events), i) || PassedOverRightly(events, Listen(events), i)
  {
    var before := events[..|events| - 1];
    var l := Listen(before);
    assert forall k :: 0 <= k < |before| ==> events[k] == before[k];
    ConsumesThroughFirstFinal(before);
    if i < l.consumed {
      NothingPassedOver(before, i);
      HearKeeps(events, l, Listen(events), i);
    } else {
      LatestKnown(before);
      ListenRecords(before);
      HeardRightly(events, l);
    }
    hide AttemptedAt, PassedOverRightly;
  }
}
