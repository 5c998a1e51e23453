/**
 The batched request logger (src/logging/request-log.ts). Between two awaits the code runs
 undisturbed, so a run is a sequence of steps in any order: a request logs, the timer
 fires, the store finishes or refuses the write a flush is waiting for, the logger closes.
 */
module RequestLoggers {

  type Entry = string

  const BATCH := 100

  /** A flush at work: the entries it took off the queue, how many the store has, whether one was refused. */
  datatype Flight = Flight(entries: seq<Entry>, done: nat, failed: bool) {
    ghost predicate Valid() {
      done <= |entries| && (failed ==> done < |entries|)
    }

    predicate Waiting() {
      !failed && done < |entries|
    }

    function Remaining(): seq<Entry>
      requires done <= |entries|
    {
      if failed then [] else entries[done..]
    }

    function Lost(): seq<Entry>
      requires done <= |entries|
    {
      if failed then entries[done..] else []
    }
  }

  /** One entry in the store, and the flush that wrote it. */
  datatype Stored = Stored(flight: nat, entry: Entry)

  datatype State = State(queue: seq<Entry>, flights: seq<Flight>, store: seq<Stored>, closed: bool)

  /** `Failed` is the store refusing a write; the flush that was waiting gives up. */
  datatype Step = Log(entry: Entry) | Timer | Wrote(flight: nat) | Failed(flight: nat) | Close

  function TakeOff(s: State): State {
    if s.queue == [] then s else s.(queue := [], flights := s.flights + [Flight(s.queue, 0, false)])
  }

  predicate Enabled(s: State, step: Step) {
    match step
    case Timer => !s.closed
    case Wrote(k) => k < |s.flights| && s.flights[k].Waiting()
    case Failed(k) => k < |s.flights| && s.flights[k].Waiting()
    case _ => true
  }

  function Next(asyncWrite: bool, s: State, step: Step): State
    requires Enabled(s, step)
  {
    match step
    case Log(e) =>
      if asyncWrite then
        var pushed := s.(queue := s.queue + [e]);
        if |pushed.queue| >= BATCH then TakeOff(pushed) else pushed
      else s.(flights := s.flights + [Flight([e], 0, false)])
    case Timer => TakeOff(s)
    case Wrote(k) =>
      var f := s.flights[k];
      s.(flights := s.flights[k := f.(done := f.done + 1)], store := s.store + [Stored(k, f.entries[f.done])])
    case Failed(k) => s.(flights := s.flights[k := s.flights[k].(failed := true)])
    case Close => TakeOff(s.(closed := true))
  }

  const START := State([], [], [], false)

  class RequestLogger {
    const asyncWrite: bool
    var writeQueue: seq<Entry>
    var flights: seq<Flight>
    var store: seq<Stored>
    var closed: bool

    function Value(): State
      reads this
    {
      State(writeQueue, flights, store, closed)
    }

    constructor (asyncWrite: bool)
      ensures this.asyncWrite == asyncWrite && Value() == START
    {
      this.asyncWrite := asyncWrite;
      writeQueue, flights, store, closed := [], [], [], false;
    }

    /** `logRequest` up to its await. */
    method LogRequest(entry: Entry)
      modifies this
      ensures Value() == Next(asyncWrite, old(Value()), Log(entry))
    {
      if asyncWrite {
        writeQueue := writeQueue + [entry];
        if |writeQueue| >= BATCH {
          Flush();
        }
      } else {
        flights := flights + [Flight([entry], 0, false)];
      }
    }

    /** `flush` up to its await; the timer calls it too. */
    method Flush()
      modifies this
      ensures Value() == TakeOff(old(Value()))
    {
      if |writeQueue| == 0 {
        return;
      }
      var entries := writeQueue;
      writeQueue := [];
      flights := flights + [Flight(entries, 0, false)];
    }

    /** The store has written the entry flush `k` is waiting for. */
    method StoreWrote(k: nat)
      requires Enabled(Value(), Wrote(k))
      modifies this
      ensures Value() == Next(asyncWrite, old(Value()), Wrote(k))
    {
      var f := flights[k];
      store := store + [Stored(k, f.entries[f.done])];
      flights := flights[k := f.(done := f.done + 1)];
    }

    /** The store has refused it: the error is logged and the flush ends. */
    method StoreFailed(k: nat)
      requires Enabled(Value(), Failed(k))
      modifies this
      ensures Value() == Next(asyncWrite, old(Value()), Failed(k))
    {
      flights := flights[k := flights[k].(failed := true)];
    }

    method CloseLogger()
      modifies this
      ensures Value() == Next(asyncWrite, old(Value()), Close)
    {
      closed := true;
      Flush();
    }
  }

  // ---- Runs

  /** A run of steps in any order; a step that cannot happen changes nothing. */
  function Run(asyncWrite: bool, steps: seq<Step>): State {
    if steps == [] then START
    else
      var s := Run(asyncWrite, steps[..|steps| - 1]);
      if Enabled(s, steps[|steps| - 1]) then Next(asyncWrite, s, steps[|steps| - 1]) else s
  }

  /** The entries logged, in order of arrival. */
  function Logged(steps: seq<Step>): seq<Entry> {
    if steps == [] then []
    else
      var sooner := Logged(steps[..|steps| - 1]);
      match steps[|steps| - 1]
      case Log(e) => sooner + [e]
      case _ => sooner
  }

  function Batches(flights: seq<Flight>): seq<Entry> {
    if flights == [] then [] else Batches(flights[..|flights| - 1]) + flights[|flights| - 1].entries
  }

  ghost predicate AllValid(flights: seq<Flight>) {
    forall k :: 0 <= k < |flights| ==> flights[k].Valid()
  }

  function InFlight(flights: seq<Flight>): multiset<Entry>
    requires AllValid(flights)
  {
    if flights == [] then multiset{} else InFlight(flights[..|flights| - 1]) + multiset(flights[|flights| - 1].Remaining())
  }

  function LostOf(flights: seq<Flight>): multiset<Entry>
    requires AllValid(flights)
  {
    if flights == [] then multiset{} else LostOf(flights[..|flights| - 1]) + multiset(flights[|flights| - 1].Lost())
  }

  function Entries(store: seq<Stored>): seq<Entry> {
    if store == [] then [] else Entries(store[..|store| - 1]) + [store[|store| - 1].entry]
  }

  /** What flush `k` has written, in the order the store got it. */
  function WrittenBy(store: seq<Stored>, k: nat): seq<Entry> {
    if store == [] then []
    else
      var sooner := WrittenBy(store[..|store| - 1], k);
      if store[|store| - 1].flight == k then sooner + [store[|store| - 1].entry] else sooner
  }

  /** The batches are consecutive stretches of the arrivals, and what is left is the queue. */
  ghost predicate InOrder(s: State, logged: seq<Entry>) {
    && Batches(s.flights) + s.queue == logged
    && |s.queue| < BATCH
    && AllValid(s.flights)
    && (forall k: nat :: k < |s.flights| ==> WrittenBy(s.store, k) == s.flights[k].entries[..s.flights[k].done])
    && (forall k: nat :: k >= |s.flights| ==> WrittenBy(s.store, k) == [])
  }

  lemma BatchesGrow(flights: seq<Flight>, f: Flight)
    ensures Batches(flights + [f]) == Batches(flights) + f.entries
  {
    assert (flights + [f])[..|flights|] == flights;
  }

  lemma {:induction false} BatchesSame(a: seq<Flight>, b: seq<Flight>)
    requires |a| == |b| && forall k :: 0 <= k < |a| ==> a[k].entries == b[k].entries
    ensures Batches(a) == Batches(b)
  {
    if a != [] {
      BatchesSame(a[..|a| - 1], b[..|b| - 1]);
    }
  }

  lemma StoreGrows(store: seq<Stored>, w: Stored)
    ensures forall k :: WrittenBy(store + [w], k) == if w.flight == k then WrittenBy(store, k) + [w.entry] else WrittenBy(store, k)
    ensures Entries(store + [w]) == Entries(store) + [w.entry]
  {
    assert (store + [w])[..|store|] == store;
  }

  lemma FlightStarts(s: State, entries: seq<Entry>, logged: seq<Entry>)
    requires InOrder(s, logged) && s.queue == []
    ensures InOrder(s.(flights := s.flights + [Flight(entries, 0, false)]), logged + entries)
  {
    var f := Flight(entries, 0, false);
    var next := s.(flights := s.flights + [f]);
    BatchesGrow(s.flights, f);
    assert Batches(s.flights) + [] == logged;
    assert Batches(next.flights) + [] == logged + entries;
    forall k: nat | k < |next.flights|
      ensures WrittenBy(next.store, k) == next.flights[k].entries[..next.flights[k].done]
    {
      if k == |s.flights| {
        assert f.entries[..0] == [];
      } else {
        assert next.flights[k] == s.flights[k];
      }
    }
  }

  lemma TakeOffInOrder(s: State, logged: seq<Entry>)
    requires InOrder(s.(queue := []), Batches(s.flights)) && Batches(s.flights) + s.queue == logged
    ensures InOrder(TakeOff(s), logged)
  {
    if s.queue != [] {
      FlightStarts(s.(queue := []), s.queue, Batches(s.flights));
    }
  }

  lemma LogInOrder(asyncWrite: bool, s: State, e: Entry, logged: seq<Entry>)
    requires InOrder(s, logged) && (!asyncWrite ==> s.queue == [])
    ensures InOrder(Next(asyncWrite, s, Log(e)), logged + [e])
    ensures !asyncWrite ==> Next(asyncWrite, s, Log(e)).queue == []
  {
    if asyncWrite {
      var pushed := s.(queue := s.queue + [e]);
      assert Batches(s.flights) + [] == Batches(s.flights);
      assert Batches(pushed.flights) + pushed.queue == logged + [e];
      if |pushed.queue| >= BATCH {
        TakeOffInOrder(pushed, logged + [e]);
      }
    } else {
      FlightStarts(s, [e], logged);
    }
  }

  lemma WroteInOrder(asyncWrite: bool, s: State, k: nat, logged: seq<Entry>)
    requires InOrder(s, logged) && Enabled(s, Wrote(k))
    ensures InOrder(Next(asyncWrite, s, Wrote(k)), logged)
  {
    BatchesSame(s.flights, Next(asyncWrite, s, Wrote(k)).flights);
    var f := s.flights[k];
    StoreGrows(s.store, Stored(k, f.entries[f.done]));
    assert f.entries[..f.done] + [f.entries[f.done]] == f.entries[..f.done + 1];
  }

  lemma StepInOrder(asyncWrite: bool, s: State, step: Step, logged: seq<Entry>)
    requires InOrder(s, logged) && Enabled(s, step) && (!asyncWrite ==> s.queue == [])
    ensures InOrder(Next(asyncWrite, s, step), if step.Log? then logged + [step.entry] else logged)
    ensures !asyncWrite ==> Next(asyncWrite, s, step).queue == []
  {
    match step {
      case Log(e) => LogInOrder(asyncWrite, s, e, logged);
      case Wrote(k) => WroteInOrder(asyncWrite, s, k, logged);
      case Failed(k) => BatchesSame(s.flights, Next(asyncWrite, s, step).flights);
      case _ =>
        assert Batches(s.flights) + [] == Batches(s.flights);
        TakeOffInOrder(if step.Close? then s.(closed := true) else s, logged);
    }
  }

  /**
   In every run: arrivals are cut into batches in order, each batch is written in order from
   its first entry on, and fewer than a batch's worth wait in the queue.
   */
  lemma {:induction false} RunInOrder(asyncWrite: bool, steps: seq<Step>)
    ensures InOrder(Run(asyncWrite, steps), Logged(steps))
    ensures !asyncWrite ==> Run(asyncWrite, steps).queue == []
  {
    if steps != [] {
      var n := |steps| - 1;
      RunInOrder(asyncWrite, steps[..n]);
      if Enabled(Run(asyncWrite, steps[..n]), steps[n]) {
        StepInOrder(asyncWrite, Run(asyncWrite, steps[..n]), steps[n], Logged(steps[..n]));
      }
    }
  }

  // ---- Conservation

  lemma FlightSplit(f: Flight)
    requires f.Valid()
    ensures multiset(f.entries) == multiset(f.entries[..f.done]) + multiset(f.Remaining()) + multiset(f.Lost())
  {
    assert f.entries == f.entries[..f.done] + f.entries[f.done..];
  }

  lemma {:induction false} FlightsSplit(flights: seq<Flight>)
    requires AllValid(flights)
    ensures multiset(Batches(flights)) == DoneOf(flights) + InFlight(flights) + LostOf(flights)
  {
    if flights != [] {
      var n := |flights| - 1;
      var init, f := flights[..n], flights[n];
      FlightsSplit(init);
      FlightSplit(f);
      calc {
        multiset(Batches(flights));
        multiset(Batches(init)) + multiset(f.entries);
        (DoneOf(init) + multiset(f.entries[..f.done])) + (InFlight(init) + multiset(f.Remaining())) + (LostOf(init) + multiset(f.Lost()));
      }
    }
  }

  function DoneOf(flights: seq<Flight>): multiset<Entry>
    requires AllValid(flights)
  {
    if flights == [] then multiset{}
    else
      var f := flights[|flights| - 1];
      DoneOf(flights[..|flights| - 1]) + multiset(f.entries[..f.done])
  }

  /** The part of the store written by the first `n` flushes. */
  function WrittenBelow(store: seq<Stored>, n: nat): seq<Entry> {
    if store == [] then []
    else
      var sooner := WrittenBelow(store[..|store| - 1], n);
      if store[|store| - 1].flight < n then sooner + [store[|store| - 1].entry] else sooner
  }

  lemma {:induction false} WrittenSplit(store: seq<Stored>, n: nat)
    ensures multiset(WrittenBelow(store, n + 1)) == multiset(WrittenBelow(store, n)) + multiset(WrittenBy(store, n))
  {
    if store != [] {
      WrittenSplit(store[..|store| - 1], n);
    }
  }

  lemma {:induction false} WrittenIsDone(store: seq<Stored>, flights: seq<Flight>)
    requires AllValid(flights)
    requires forall k: nat :: k < |flights| ==> WrittenBy(store, k) == flights[k].entries[..flights[k].done]
    ensures multiset(WrittenBelow(store, |flights|)) == DoneOf(flights)
  {
    if flights == [] {
      NoneBelowZero(store);
    } else {
      var n := |flights| - 1;
      WrittenIsDone(store, flights[..n]);
      WrittenSplit(store, n);
    }
  }

  lemma {:induction false} NoneBelowZero(store: seq<Stored>)
    ensures WrittenBelow(store, 0) == []
  {
    if store != [] {
      NoneBelowZero(store[..|store| - 1]);
    }
  }

  lemma {:induction false} AllWrittenBelow(store: seq<Stored>, n: nat)
    requires forall k: nat :: k >= n ==> WrittenBy(store, k) == []
    ensures WrittenBelow(store, n) == Entries(store)
  {
    if store != [] {
      var last := store[|store| - 1];
      assert last.flight < n by {
        assert WrittenBy(store, last.flight) != [];
      }
      var sooner := store[..|store| - 1];
      forall k: nat | n <= k
        ensures WrittenBy(sooner, k) == []
      {
        assert WrittenBy(store, k) == [];
      }
      AllWrittenBelow(sooner, n);
    }
  }

  /** Every entry logged is queued, in flight, in the store or lost: none is duplicated and none vanishes. */
  lemma NothingVanishes(asyncWrite: bool, steps: seq<Step>)
    ensures AllValid(Run(asyncWrite, steps).flights)
    ensures var s := Run(asyncWrite, steps);
            multiset(Logged(steps)) == multiset(s.queue) + InFlight(s.flights) + multiset(Entries(s.store)) + LostOf(s.flights)
  {
    RunInOrder(asyncWrite, steps);
    var s := Run(asyncWrite, steps);
    FlightsSplit(s.flights);
    WrittenIsDone(s.store, s.flights);
    AllWrittenBelow(s.store, |s.flights|);
    assert multiset(Batches(s.flights) + s.queue) == multiset(Batches(s.flights)) + multiset(s.queue);
  }

  lemma {:induction false} NoneLost(flights: seq<Flight>)
    requires AllValid(flights) && forall k :: 0 <= k < |flights| ==> !flights[k].failed
    ensures LostOf(flights) == multiset{}
  {
    if flights != [] {
      NoneLost(flights[..|flights| - 1]);
    }
  }

  /** A flush that gave up has lost something. */
  lemma {:induction false} SomeLost(flights: seq<Flight>)
    requires AllValid(flights) && LostOf(flights) == multiset{}
    ensures forall k :: 0 <= k < |flights| ==> !flights[k].failed
  {
    if flights != [] {
      var n := |flights| - 1;
      assert LostOf(flights[..n]) + multiset(flights[n].Lost()) == multiset{};
      assert |LostOf(flights[..n])| + |flights[n].Lost()| == 0;
      SomeLost(flights[..n]);
      forall k | 0 <= k < |flights|
        ensures !flights[k].failed
      {
        if k < n {
          assert flights[..n][k] == flights[k];
        }
      }
    }
  }

  /** The store refused a write at step `i`. */
  ghost predicate RefusedAt(asyncWrite: bool, steps: seq<Step>, i: nat) {
    i < |steps| && steps[i].Failed? && Enabled(Run(asyncWrite, steps[..i]), steps[i])
  }

  ghost predicate SomeFailed(flights: seq<Flight>) {
    exists k :: 0 <= k < |flights| && flights[k].failed
  }

  lemma StepFailures(asyncWrite: bool, s: State, step: Step)
    requires Enabled(s, step)
    ensures SomeFailed(Next(asyncWrite, s, step).flights) <==> step.Failed? || SomeFailed(s.flights)
  {
    var next := Next(asyncWrite, s, step);
    if step.Failed? {
      assert next.flights[step.flight].failed;
    } else {
      assert |s.flights| <= |next.flights|;
      assert forall k :: 0 <= k < |s.flights| ==> next.flights[k].failed == s.flights[k].failed;
      assert forall k :: |s.flights| <= k < |next.flights| ==> !next.flights[k].failed;
    }
  }

  /** A flush has given up exactly if the store refused a write. */
  lemma {:induction false} FailedExactly(asyncWrite: bool, steps: seq<Step>)
    ensures (exists i: nat :: RefusedAt(asyncWrite, steps, i)) <==> SomeFailed(Run(asyncWrite, steps).flights)
  {
    if steps != [] {
      var n := |steps| - 1;
      var (init, step) := (steps[..n], steps[n]);
      FailedExactly(asyncWrite, init);
      forall i: nat | i < n
        ensures RefusedAt(asyncWrite, init, i) == RefusedAt(asyncWrite, steps, i)
      {
        assert init[..i] == steps[..i];
      }
      var s := Run(asyncWrite, init);
      if Enabled(s, step) {
        StepFailures(asyncWrite, s, step);
      }
      assert RefusedAt(asyncWrite, steps, n) <==> Enabled(s, step) && step.Failed?;
      if i: nat :| RefusedAt(asyncWrite, init, i) {
        assert RefusedAt(asyncWrite, steps, i);
      }
    }
  }

  /** Over every interleaving, entries are lost if and only if the store refused a write. */
  lemma LostOnlyByFailure(asyncWrite: bool, steps: seq<Step>)
    ensures AllValid(Run(asyncWrite, steps).flights)
    ensures LostOf(Run(asyncWrite, steps).flights) == multiset{} <==> forall i: nat :: !RefusedAt(asyncWrite, steps, i)
  {
    RunInOrder(asyncWrite, steps);
    FailedExactly(asyncWrite, steps);
    var flights := Run(asyncWrite, steps).flights;
    if LostOf(flights) == multiset{} {
      SomeLost(flights);
    }
    if forall i: nat :: !RefusedAt(asyncWrite, steps, i) {
      NoneLost(flights);
    }
  }

  /** An entry logged waits in the queue unless it is the hundredth, which takes the whole queue off as one batch. */
  lemma HundredthTakesOff(s: State, e: Entry)
    ensures var next := Next(true, s, Log(e));
            if |s.queue| < 99 then next == s.(queue := s.queue + [e])
            else next.queue == [] && next.flights == s.flights + [Flight(s.queue + [e], 0, false)] && next.store == s.store
    ensures Next(false, s, Log(e)) == s.(flights := s.flights + [Flight([e], 0, false)])
  {
  }

  // ---- Two things the logger does not do

  /** One refused write loses the rest of its batch as well, though the store was never asked for it. */
  lemma FailureLosesTheRest(asyncWrite: bool, s: State, k: nat)
    requires Enabled(s, Failed(k)) && s.flights[k].Valid()
    ensures var next := Next(asyncWrite, s, Failed(k));
            && next.flights[k].Lost() == s.flights[k].entries[s.flights[k].done..] != []
            && next.flights[k].Remaining() == [] && next.store == s.store
            && forall step :: Enabled(next, step) ==> Next(asyncWrite, next, step).flights[k] == next.flights[k]
  {
  }

  function LogAll(entries: seq<Entry>): seq<Step> {
    if entries == [] then [] else LogAll(entries[..|entries| - 1]) + [Log(entries[|entries| - 1])]
  }

  lemma {:induction false} QueueFills(entries: seq<Entry>)
    requires |entries| < BATCH
    ensures Run(true, LogAll(entries)) == START.(queue := entries)
  {
    if entries != [] {
      var n := |entries| - 1;
      QueueFills(entries[..n]);
      var steps := LogAll(entries);
      assert steps[..|steps| - 1] == LogAll(entries[..n]);
      assert entries[..n] + [entries[n]] == entries;
    }
  }

  /** No flush is waiting for the store. */
  ghost predicate NoneWaiting(flights: seq<Flight>) {
    forall k :: 0 <= k < |flights| ==> !flights[k].Waiting()
  }

  lemma BothEmpty(m: multiset<Entry>, s: seq<Entry>)
    ensures m + multiset(s) == multiset{} <==> m == multiset{} && s == []
  {
    assert |m + multiset(s)| == |m| + |s|;
  }

  /** Nothing is in flight exactly if no flush is waiting. */
  lemma {:induction false} NothingInFlight(flights: seq<Flight>)
    requires AllValid(flights)
    ensures InFlight(flights) == multiset{} <==> NoneWaiting(flights)
  {
    if flights != [] {
      var n := |flights| - 1;
      var (init, f) := (flights[..n], flights[n]);
      NothingInFlight(init);
      BothEmpty(InFlight(init), f.Remaining());
      assert NoneWaiting(flights) <==> NoneWaiting(init) && !f.Waiting() by {
        assert forall k :: 0 <= k < n ==> init[k] == flights[k];
      }
    }
  }

  /** More steps from a state, as in `Run`. */
  function After(asyncWrite: bool, s: State, steps: seq<Step>): State {
    if steps == [] then s
    else
      var sooner := After(asyncWrite, s, steps[..|steps| - 1]);
      if Enabled(sooner, steps[|steps| - 1]) then Next(asyncWrite, sooner, steps[|steps| - 1]) else sooner
  }

  /**
   `close`, called in state `s`, may have returned after the steps `later`: nobody logs any
   more, and the flush it started, if the queue held anything, is over.
   */
  ghost predicate CloseReturns(asyncWrite: bool, s: State, later: seq<Step>) {
    && (forall step :: step in later ==> !step.Log?)
    && var flights := After(asyncWrite, Next(asyncWrite, s, Close), later).flights;
       |flights| > |s.flights| ==> !flights[|s.flights|].Waiting()
  }

  /** Once closed and with nobody logging, no flush begins. */
  lemma {:induction false} NoFlushBegins(asyncWrite: bool, s: State, later: seq<Step>)
    requires s.closed && s.queue == [] && forall step :: step in later ==> !step.Log?
    ensures var t := After(asyncWrite, s, later);
            && t.closed && t.queue == [] && |t.flights| == |s.flights|
            && forall k :: 0 <= k < |s.flights| && !s.flights[k].Waiting() ==> !t.flights[k].Waiting()
  {
    if later != [] {
      assert later[|later| - 1] in later;
      NoFlushBegins(asyncWrite, s, later[..|later| - 1]);
    }
  }

  /** The store taking the next `n` entries of flush `k`. */
  function Writes(k: nat, n: nat): seq<Step> {
    if n == 0 then [] else Writes(k, n - 1) + [Wrote(k)]
  }

  lemma AfterOneMore(asyncWrite: bool, s: State, steps: seq<Step>, step: Step)
    ensures var sooner := After(asyncWrite, s, steps);
            After(asyncWrite, s, steps + [step]) == if Enabled(sooner, step) then Next(asyncWrite, sooner, step) else sooner
  {
    assert (steps + [step])[..|steps|] == steps;
  }

  /** Flush `k` of `t` has got `n` entries further than in `s`, and no other flush differs. */
  ghost predicate Further(s: State, t: State, k: nat, n: nat) {
    k < |s.flights| && t.flights == s.flights[k := s.flights[k].(done := s.flights[k].done + n)]
  }

  lemma OneFurther(asyncWrite: bool, s: State, t: State, k: nat, n: nat)
    requires Further(s, t, k, n) && !s.flights[k].failed && s.flights[k].done + n < |s.flights[k].entries|
    ensures Enabled(t, Wrote(k)) && Further(s, Next(asyncWrite, t, Wrote(k)), k, n + 1)
  {
  }

  lemma {:induction false} WritesFinish(asyncWrite: bool, s: State, k: nat, n: nat)
    requires k < |s.flights| && !s.flights[k].failed && s.flights[k].done + n <= |s.flights[k].entries|
    ensures Further(s, After(asyncWrite, s, Writes(k, n)), k, n)
    ensures forall step :: step in Writes(k, n) ==> step == Wrote(k)
  {
    if n > 0 {
      WritesFinish(asyncWrite, s, k, n - 1);
      OneFurther(asyncWrite, s, After(asyncWrite, s, Writes(k, n - 1)), k, n - 1);
      AfterOneMore(asyncWrite, s, Writes(k, n - 1), Wrote(k));
    }
  }

  /**
   `close` is sure to leave nothing in flight if and only if no flush was waiting for the
   store when it was called; otherwise the store may answer close's own flush first.
   */
  lemma CloseDrainsExactly(asyncWrite: bool, s: State)
    ensures (forall later :: CloseReturns(asyncWrite, s, later) ==>
               NoneWaiting(After(asyncWrite, Next(asyncWrite, s, Close), later).flights))
            <==> NoneWaiting(s.flights)
  {
    var closed := Next(asyncWrite, s, Close);
    if NoneWaiting(s.flights) {
      forall later | CloseReturns(asyncWrite, s, later)
        ensures NoneWaiting(After(asyncWrite, closed, later).flights)
      {
        NoFlushBegins(asyncWrite, closed, later);
        var flights := After(asyncWrite, closed, later).flights;
        forall k | 0 <= k < |flights|
          ensures !flights[k].Waiting()
        {
          if k < |s.flights| {
            assert closed.flights[k] == s.flights[k];
          }
        }
      }
    } else {
      var k :| 0 <= k < |s.flights| && s.flights[k].Waiting();
      var later := Writes(|s.flights|, |s.queue|);
      if s.queue != [] {
        WritesFinish(asyncWrite, closed, |s.flights|, |s.queue|);
      }
      assert CloseReturns(asyncWrite, s, later);
      assert After(asyncWrite, closed, later).flights[k] == s.flights[k];
    }
  }

  /** An example: after a full batch is logged, `close` is done while not one of the entries is in the store. */
  lemma CloseLeavesBatchInFlight(entries: seq<Entry>)
    requires |entries| == BATCH
    ensures var s := Run(true, LogAll(entries) + [Close]);
            s.closed && s.queue == [] && s.store == [] && s.flights == [Flight(entries, 0, false)]
  {
    var n := |entries| - 1;
    QueueFills(entries[..n]);
    var steps := LogAll(entries);
    assert steps[..|steps| - 1] == LogAll(entries[..n]);
    assert entries[..n] + [entries[n]] == entries;
    assert (steps + [Close])[..|steps|] == steps;
  }
}
