/**
 The concurrent-job counter of one user (utils/quota.py). INCR, the test, DECR, GET and SET are separate
 commands, and callers interleave between them.
 */
module Quota {
  import opened Wrappers
  import opened Sums

  type Caller = string

  /** Where a caller is: between commands it remembers what the last one returned. */
  datatype Phase =
    | Idle
    | Counted(current: int)  // after INCR, before the test
    | Rejected               // over the limit, before the reverting DECR
    | Holding
    | Read(value: int)       // releasing: after GET, before DECR or SET

  datatype State = State(counter: Option<int>, callers: map<Caller, Phase>) {
    function Value(): int { counter.GetOr(0) }
  }

  datatype Command = Incr | Admit | Refuse | Revert | Get | Decr | SetZero | StrayGet

  datatype Act = Act(caller: Caller, command: Command)

  ghost predicate Step(limit: nat, s: State, act: Act, s': State) {
    var c := act.caller;
    c in s.callers &&
    var p := s.callers[c];
    match act.command
    case Incr => p == Idle && s' == State(Some(s.Value() + 1), s.callers[c := Counted(s.Value() + 1)])
    case Admit => p.Counted? && p.current <= limit && s' == s.(callers := s.callers[c := Holding])
    case Refuse => p.Counted? && p.current > limit && s' == s.(callers := s.callers[c := Rejected])
    case Revert => p == Rejected && s' == State(Some(s.Value() - 1), s.callers[c := Idle])
    case Get => p == Holding && s' == s.(callers := s.callers[c := Read(s.Value())])
    case Decr => p.Read? && p.value > 0 && s' == State(Some(s.Value() - 1), s.callers[c := Idle])
    case SetZero => p.Read? && p.value <= 0 && s' == State(Some(0), s.callers[c := Idle])
    // a release by a caller that holds nothing
    case StrayGet => p == Idle && s' == s.(callers := s.callers[c := Read(s.Value())])
  }

  ghost predicate IsRun(limit: nat, states: seq<State>, acts: seq<Act>) {
    && GoesOn(limit, states, acts)
    && states[0].counter == None && (forall c :: c in states[0].callers ==> states[0].callers[c] == Idle)
  }

  /** A run from any state. */
  ghost predicate GoesOn(limit: nat, states: seq<State>, acts: seq<Act>) {
    |states| == |acts| + 1 && forall i :: 0 <= i < |acts| ==> Step(limit, states[i], acts[i], states[i + 1])
  }

  /** Callers release only what they hold. */
  ghost predicate Disciplined(acts: seq<Act>) {
    forall i :: 0 <= i < |acts| ==> acts[i].command != StrayGet
  }

  /** Callers that were let in, whether or not they have noticed yet, and have not released. */
  function Holds(limit: nat): Phase -> nat {
    (p: Phase) => if p == Holding || p.Read? || (p.Counted? && p.current <= limit) then 1 else 0
  }

  /** Callers turned away whose increment still stands. */
  function Reverting(limit: nat): Phase -> nat {
    (p: Phase) => if p == Rejected || (p.Counted? && p.current > limit) then 1 else 0
  }

  /** The weight of a caller's phase. */
  function At(callers: map<Caller, Phase>, f: Phase -> nat): Caller -> nat {
    (c: Caller) => if c in callers then f(callers[c]) else 0
  }

  ghost function Holders(limit: nat, s: State): nat { Sum(s.callers.Keys, At(s.callers, Holds(limit))) }
  ghost function Rejections(limit: nat, s: State): nat { Sum(s.callers.Keys, At(s.callers, Reverting(limit))) }

  ghost predicate Invariant(limit: nat, s: State) {
    && s.Value() == Holders(limit, s) + Rejections(limit, s)
    && Holders(limit, s) <= limit
    && forall c :: c in s.callers && s.callers[c].Read? ==> s.callers[c].value > 0
  }

  /** When one caller moves on, the sum moves by that caller's weight alone. */
  lemma MovesByOne(m: map<Caller, Phase>, c: Caller, p: Phase, f: Phase -> nat)
    requires c in m
    ensures Sum(m[c := p].Keys, At(m[c := p], f)) + f(m[c]) == Sum(m.Keys, At(m, f)) + f(p)
  {
    assert m[c := p].Keys == m.Keys;
    ChangeOne(m.Keys, At(m[c := p], f), At(m, f), c);
    ChangeOne(m.Keys, At(m, f), At(m[c := p], f), c);
  }

  lemma AllIdle(m: map<Caller, Phase>, f: Phase -> nat)
    requires f(Idle) == 0 && forall c :: c in m ==> m[c] == Idle
    ensures Sum(m.Keys, At(m, f)) == 0
  {
    AllZero(m.Keys, At(m, f));
  }

  lemma InvariantKept(limit: nat, s: State, act: Act, s': State)
    requires Step(limit, s, act, s') && act.command != StrayGet && Invariant(limit, s)
    ensures Invariant(limit, s')
  {
    OneMoves(limit, s, act, s');
    hide Holders, Rejections;
  }

  /**
   In every interleaving of disciplined callers: the counter is the holders plus the rejections not yet
   reverted, and there are never more holders than the limit.
   */
  lemma {:induction false} HoldersNeverExceedLimit(limit: nat, states: seq<State>, acts: seq<Act>, i: nat)
    requires IsRun(limit, states, acts) && Disciplined(acts) && i < |states|
    ensures states[i].Value() == Holders(limit, states[i]) + Rejections(limit, states[i])
    ensures Holders(limit, states[i]) <= limit
    ensures Invariant(limit, states[i])
  {
    if i == 0 {
      AllIdle(states[0].callers, Holds(limit));
      AllIdle(states[0].callers, Reverting(limit));
    } else {
      HoldersNeverExceedLimit(limit, states, acts, i - 1);
      assert Step(limit, states[i - 1], acts[i - 1], states[i]);
      InvariantKept(limit, states[i - 1], acts[i - 1], states[i]);
    }
  }

  /** The branch that sets the counter to zero is never taken. */
  lemma SetZeroNeverReached(limit: nat, states: seq<State>, acts: seq<Act>, i: nat)
    requires IsRun(limit, states, acts) && Disciplined(acts) && i < |acts|
    ensures acts[i].command != SetZero
  {
    HoldersNeverExceedLimit(limit, states, acts, i);
    assert Step(limit, states[i], acts[i], states[i + 1]);
  }

  /**
   Who is let in: exactly a caller whose INCR finds holders and unreverted rejections together below the
   limit. So rejections under way can turn away a caller although the limit is not reached.
   */
  lemma LetInExactly(limit: nat, states: seq<State>, acts: seq<Act>, i: nat)
    requires IsRun(limit, states, acts) && Disciplined(acts) && i < |acts| && acts[i].command == Incr
    ensures Holds(limit)(states[i + 1].callers[acts[i].caller]) == 1
       <==> Holders(limit, states[i]) + Rejections(limit, states[i]) < limit
  {
    HoldersNeverExceedLimit(limit, states, acts, i);
    assert Step(limit, states[i], acts[i], states[i + 1]);
  }

  const STRAY_ACTS := [Act("a", StrayGet), Act("b", Incr), Act("b", Admit), Act("a", SetZero), Act("c", Incr), Act("c", Admit)]

  function Three(a: Phase, b: Phase, c: Phase): map<Caller, Phase> { map["a" := a, "b" := b, "c" := c] }

  const STRAY_STATES := [
    State(None, Three(Idle, Idle, Idle)),
    State(None, Three(Read(0), Idle, Idle)),
    State(Some(1), Three(Read(0), Counted(1), Idle)),
    State(Some(1), Three(Read(0), Holding, Idle)),
    State(Some(0), Three(Idle, Holding, Idle)),
    State(Some(1), Three(Idle, Holding, Counted(1))),
    State(Some(1), Three(Idle, Holding, Holding))]

  lemma StrayStep(i: nat)
    requires i < 6
    ensures Step(1, STRAY_STATES[i], STRAY_ACTS[i], STRAY_STATES[i + 1])
  {
    var s, act := STRAY_STATES[i], STRAY_ACTS[i];
    assert act.caller in s.callers;
    assert STRAY_STATES[i + 1].callers == s.callers[act.caller := STRAY_STATES[i + 1].callers[act.caller]];
  }

  lemma ThreeChange(a: Phase, b: Phase, c: Phase, p: Phase)
    ensures Three(a, b, c)["b"] == b && Three(a, b, c)["c"] == c
    ensures Three(a, b, c)["b" := p] == Three(a, p, c) && Three(a, b, c)["c" := p] == Three(a, b, p)
  {
  }

  lemma TwoHold()
    ensures Holders(1, State(Some(1), Three(Idle, Holding, Holding))) == 2
  {
    AllIdle(Three(Idle, Idle, Idle), Holds(1));
    ThreeChange(Idle, Idle, Idle, Holding);
    ThreeChange(Idle, Holding, Idle, Holding);
    hide Three, Sum, At;
    MovesByOne(Three(Idle, Idle, Idle), "b", Holding, Holds(1));
    MovesByOne(Three(Idle, Holding, Idle), "c", Holding, Holds(1));
  }

  /**
   Without the discipline the limit does not hold: one caller releases what it does not hold, reads 0, and its
   SET wipes out the increment of a second caller that was let in meanwhile, so a third is let in as well.
   */
  lemma StrayReleaseBreaksLimit()
    ensures IsRun(1, STRAY_STATES, STRAY_ACTS) && Holders(1, STRAY_STATES[6]) == 2
    ensures STRAY_ACTS[0] == Act("a", StrayGet) && STRAY_ACTS[3] == Act("a", SetZero)
  {
    TwoHold();
    hide Step, Sum, Holds;
    forall i | 0 <= i < 6 ensures Step(1, STRAY_STATES[i], STRAY_ACTS[i], STRAY_STATES[i + 1]) { StrayStep(i); }
  }

  // ------------------------------------------------------------------ how far the limit can be exceeded

  /** What the counter has lost: by how much it is below the callers that it should count. */
  ghost function Lost(limit: nat, s: State): int { Holders(limit, s) + Rejections(limit, s) - s.Value() }

  /** No release is under way. */
  ghost predicate Quiet(s: State) { forall c :: c in s.callers ==> !s.callers[c].Read? }

  /** With disciplined callers alone, the limit can still be exceeded from here. */
  ghost predicate CanExceed(limit: nat, s: State) {
    exists states, acts :: Exceeds(limit, s, states, acts)
  }

  ghost predicate Exceeds(limit: nat, s: State, states: seq<State>, acts: seq<Act>) {
    GoesOn(limit, states, acts) && states[0] == s && Disciplined(acts) && Holders(limit, states[|acts|]) > limit
  }

  /** A command changes the sums by the weights of one caller, and nobody comes or goes. */
  lemma OneMoves(limit: nat, s: State, act: Act, s': State)
    requires Step(limit, s, act, s')
    ensures var p, p' := s.callers[act.caller], s'.callers[act.caller];
            && s'.callers.Keys == s.callers.Keys && s'.callers == s.callers[act.caller := p']
            && Holders(limit, s') + Holds(limit)(p) == Holders(limit, s) + Holds(limit)(p')
            && Rejections(limit, s') + Reverting(limit)(p) == Rejections(limit, s) + Reverting(limit)(p')
            && Holds(limit)(p) <= Holders(limit, s)
  {
    var c := act.caller;
    assert s'.callers == s.callers[c := s'.callers[c]];
    MovesByOne(s.callers, c, s'.callers[c], Holds(limit));
    MovesByOne(s.callers, c, s'.callers[c], Reverting(limit));
    AtLeastOne(s.callers.Keys, At(s.callers, Holds(limit)), c);
  }

  /** As long as nothing is lost: the limit holds, and releases under way will decrement. */
  ghost predicate Sound(limit: nat, s: State) {
    && Lost(limit, s) <= 0 && Holders(limit, s) <= limit
    && forall c :: c in s.callers && s.callers[c].Read? ==> s.callers[c].value > 0
  }

  lemma SoundKept(limit: nat, s: State, act: Act, s': State)
    requires Step(limit, s, act, s') && act.command != StrayGet && Sound(limit, s)
    ensures Sound(limit, s')
  {
    OneMoves(limit, s, act, s');
    hide Holders, Rejections;
  }

  lemma {:induction false} StaysSound(limit: nat, states: seq<State>, acts: seq<Act>, i: nat)
    requires GoesOn(limit, states, acts) && Disciplined(acts) && i < |states| && Sound(limit, states[0])
    ensures Sound(limit, states[i])
  {
    hide Sound, Step;
    if i > 0 {
      StaysSound(limit, states, acts, i - 1);
      SoundKept(limit, states[i - 1], acts[i - 1], states[i]);
    }
  }

  lemma {:induction false} SameCallers(limit: nat, states: seq<State>, acts: seq<Act>, i: nat)
    requires GoesOn(limit, states, acts) && i < |states|
    ensures states[i].callers.Keys == states[0].callers.Keys
  {
    hide Step;
    if i > 0 {
      SameCallers(limit, states, acts, i - 1);
      OneMoves(limit, states[i - 1], acts[i - 1], states[i]);
    }
  }

  /** What is still to be refused and reverted. */
  function Pending(limit: nat): Phase -> nat {
    (p: Phase) => if p == Rejected then 1 else if p.Counted? && p.current > limit then 2 else 0
  }

  ghost function Work(limit: nat, s: State): nat { Sum(s.callers.Keys, At(s.callers, Pending(limit))) }

  /** A move towards exceeding the limit: a rejection is taken back, or a caller is let in. */
  ghost predicate Helps(limit: nat, s: State, act: Act) {
    act.caller in s.callers &&
    match act.command
    case Refuse => true
    case Revert => true
    case Incr => s.Value() < limit
    case _ => false
  }

  lemma HelpBrings(limit: nat, s: State, act: Act, next: State)
    requires Step(limit, s, act, next) && Helps(limit, s, act) && Quiet(s)
    ensures Quiet(next) && Lost(limit, next) == Lost(limit, s) && |next.callers| == |s.callers|
    ensures Holders(limit, next) == Holders(limit, s) + 1
            || (Holders(limit, next) == Holders(limit, s) && Work(limit, next) < Work(limit, s))
  {
    OneMoves(limit, s, act, next);
    MovesByOne(s.callers, act.caller, next.callers[act.caller], Pending(limit));
    assert |next.callers.Keys| == |next.callers| && |s.callers.Keys| == |s.callers|;
    hide Holders, Rejections, Sum;
  }

  /** Somebody can always make such a move. */
  lemma NextToExceed(limit: nat, s: State) returns (act: Act, next: State)
    requires Quiet(s) && Lost(limit, s) > 0 && Holders(limit, s) <= limit < |s.callers|
    ensures Step(limit, s, act, next) && Helps(limit, s, act)
  {
    hide Holders;
    if c :| c in s.callers && s.callers[c] == Rejected {
      act, next := Act(c, Revert), State(Some(s.Value() - 1), s.callers[c := Idle]);
    } else if c :| c in s.callers && s.callers[c].Counted? && s.callers[c].current > limit {
      act, next := Act(c, Refuse), s.(callers := s.callers[c := Rejected]);
    } else {
      NoRejections(limit, s);
      var c := SomeoneIdle(limit, s);
      act, next := Act(c, Incr), State(Some(s.Value() + 1), s.callers[c := Counted(s.Value() + 1)]);
    }
  }

  lemma NoRejections(limit: nat, s: State)
    requires forall c :: c in s.callers ==> s.callers[c] != Rejected && !(s.callers[c].Counted? && s.callers[c].current > limit)
    ensures Rejections(limit, s) == 0
  {
    AllZero(s.callers.Keys, At(s.callers, Reverting(limit)));
  }

  lemma EveryoneHolds(limit: nat, s: State)
    requires Quiet(s) && forall c :: c in s.callers ==> s.callers[c] != Idle
    requires forall c :: c in s.callers ==> s.callers[c] != Rejected && !(s.callers[c].Counted? && s.callers[c].current > limit)
    ensures Holders(limit, s) == |s.callers|
  {
    AllOne(s.callers.Keys, At(s.callers, Holds(limit)));
    assert |s.callers.Keys| == |s.callers|;
  }

  /** If everybody held, there would be too many holders. */
  lemma SomeoneIdle(limit: nat, s: State) returns (c: Caller)
    requires Quiet(s) && Holders(limit, s) <= limit < |s.callers|
    requires forall c :: c in s.callers ==> s.callers[c] != Rejected && !(s.callers[c].Counted? && s.callers[c].current > limit)
    ensures c in s.callers && s.callers[c] == Idle
  {
    hide Holders;
    if forall k :: k in s.callers ==> s.callers[k] != Idle { EveryoneHolds(limit, s); }
    c :| c in s.callers && s.callers[c] == Idle;
  }

  lemma {:induction false} ReachExcess(limit: nat, states: seq<State>, acts: seq<Act>) returns (more: seq<State>, done: seq<Act>)
    requires GoesOn(limit, states, acts) && Disciplined(acts)
    requires var s := states[|acts|]; Quiet(s) && Lost(limit, s) > 0 && Holders(limit, s) <= limit < |s.callers|
    ensures Exceeds(limit, states[0], more, done)
    decreases limit - Holders(limit, states[|acts|]), Work(limit, states[|acts|])
  {
    var act, next := NextToExceed(limit, states[|acts|]);
    HelpBrings(limit, states[|acts|], act, next);
    hide Step, Holders, Lost, Work, Quiet;
    more, done := states + [next], acts + [act];
    assert forall i :: 0 <= i < |acts| ==> Step(limit, states[i], acts[i], states[i + 1]);
    assert GoesOn(limit, more, done);
    if Holders(limit, next) <= limit {
      more, done := ReachExcess(limit, more, done);
    }
  }

  /**
   How much discipline is enough. From any state in which the limit holds and no release is under way, whatever
   stray releases came before: callers that release only what they hold can still exceed the limit if and only
   if the counter has lost something and there are more callers than the limit.
   */
  lemma ExceedableExactly(limit: nat, s: State)
    requires Quiet(s) && Holders(limit, s) <= limit
    ensures CanExceed(limit, s) <==> Lost(limit, s) > 0 && |s.callers| > limit
  {
    if Lost(limit, s) > 0 && |s.callers| > limit {
      hide Holders, Lost, Quiet;
      var states, acts := ReachExcess(limit, [s], []);
    }
    if CanExceed(limit, s) {
      var states: seq<State>, acts: seq<Act> :| Exceeds(limit, s, states, acts);
      if Lost(limit, s) <= 0 { StaysSound(limit, states, acts, |acts|); }
      SameCallers(limit, states, acts, |acts|);
      var last := states[|acts|];
      AtMostOneEach(last.callers.Keys, At(last.callers, Holds(limit)));
      assert |last.callers.Keys| == |last.callers| && |s.callers.Keys| == |s.callers|;
    }
  }

  // ------------------------------------------------------------------ the counter, one caller at a time

  class Counters {
    var counters: map<string, int>
    const limit: nat

    constructor (limit: nat)
      ensures counters == map[] && this.limit == limit
    {
      this.limit := limit;
      counters := map[];
    }

    function Value(user: string): int
      reads this
    {
      if user in counters then counters[user] else 0
    }

    /** check_and_increment_concurrent: false stands for the QuotaError. */
    method CheckAndIncrement(user: string) returns (ok: bool)
      modifies this`counters
      ensures ok <==> (if user in old(counters) then old(counters)[user] else 0) < limit
      ensures var n := if user in old(counters) then old(counters)[user] else 0;
              counters == old(counters)[user := if ok then n + 1 else n]
    {
      counters := counters[user := Value(user) + 1];
      var current := counters[user];
      if current > limit {
        counters := counters[user := counters[user] - 1];
        return false;
      }
      ok := true;
    }

    /** decrement_concurrent. */
    method Decrement(user: string)
      modifies this`counters
      ensures var n := if user in old(counters) then old(counters)[user] else 0;
              counters == old(counters)[user := if n > 0 then n - 1 else 0]
    {
      if user in counters && counters[user] > 0 {
        counters := counters[user := counters[user] - 1];
      } else {
        counters := counters[user := 0];
      }
    }
  }
}
