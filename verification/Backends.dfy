/** Fetching the events of unready Pods from concurrent goroutines under one mutex
    (internal/collect/service.go, backendSnapshots). */
module Backends {
  import opened Sequences
  import opened GroupBy
  import opened Model
  import opened Events
  import opened Collecting
  import opened Pods

  const MAX_BACKEND_EVENTS: nat := 8
  const EVENT_PURPOSE := "explaining why backend Pods are not ready"

  // ---- Which Pods are fetched ----

  function UnreadyAt(pods: seq<PodObject>): int -> bool {
    (i: int) => 0 <= i < |pods| && !PodReady(pods[i])
  }

  function Indices(n: nat): seq<int> {
    if n == 0 then [] else Indices(n - 1) + [n - 1]
  }

  function Unready(pods: seq<PodObject>): seq<int> {
    Filter(UnreadyAt(pods), Indices(|pods|))
  }

  function Capped(s: seq<int>): seq<int> {
    if |s| <= MAX_BACKEND_EVENTS then s else s[..MAX_BACKEND_EVENTS]
  }

  /** The first eight unready Pods, in list order. */
  function NeedEvents(pods: seq<PodObject>): seq<int> {
    Capped(Unready(pods))
  }

  lemma CappedStep(pods: seq<PodObject>, i: nat)
    requires i < |pods|
    ensures var before, after := Capped(Filter(UnreadyAt(pods), Indices(i))), Capped(Filter(UnreadyAt(pods), Indices(i + 1)));
            after == if !PodReady(pods[i]) && |before| < MAX_BACKEND_EVENTS then before + [i] else before
  {
    assert Front(Indices(i + 1)) == Indices(i) && Last(Indices(i + 1)) == i;
  }

  method ChooseBackends(pods: seq<PodObject>) returns (need: seq<int>)
    ensures need == NeedEvents(pods)
  {
    need := [];
    for i := 0 to |pods|
      invariant need == Capped(Filter(UnreadyAt(pods), Indices(i)))
    {
      CappedStep(pods, i);
      var ready := ScanReady(pods[i]);
      if !ready && |need| < MAX_BACKEND_EVENTS {
        need := need + [i];
      }
    }
  }

  /** Filtering the first numbers keeps them in order and loses none that satisfies the predicate. */
  lemma {:induction false} FilterRange(p: int -> bool, n: nat)
    ensures var u := Filter(p, Indices(n));
            && (forall a, b :: 0 <= a < b < |u| ==> u[a] < u[b])
            && (forall m :: m in u <==> 0 <= m < n && p(m))
  {
    if n > 0 {
      FilterRange(p, n - 1);
      assert Front(Indices(n)) == Indices(n - 1) && Last(Indices(n)) == n - 1;
      var u := Filter(p, Indices(n - 1));
      assert forall a :: 0 <= a < |u| ==> u[a] in u;
    }
  }

  /** Only unready Pods, at most eight of them, in order, and none is skipped for a later one. */
  lemma NeedEventsAreFirstUnready(pods: seq<PodObject>)
    ensures |NeedEvents(pods)| <= 8
    ensures forall a :: 0 <= a < |NeedEvents(pods)| ==> 0 <= NeedEvents(pods)[a] < |pods| && !PodReady(pods[NeedEvents(pods)[a]])
    ensures forall a, b :: 0 <= a < b < |NeedEvents(pods)| ==> NeedEvents(pods)[a] < NeedEvents(pods)[b]
    ensures forall i :: 0 <= i < |pods| && !PodReady(pods[i]) && i !in NeedEvents(pods) ==>
              |NeedEvents(pods)| == 8 && forall a :: 0 <= a < 8 ==> NeedEvents(pods)[a] < i
  {
    FilterRange(UnreadyAt(pods), |pods|);
    var u, need := Unready(pods), NeedEvents(pods);
    forall a | 0 <= a < |need| ensures 0 <= need[a] < |pods| && !PodReady(pods[need[a]]) {
      assert need[a] == u[a] && u[a] in u;
    }
    forall i | 0 <= i < |pods| && !PodReady(pods[i]) && i !in need
      ensures |need| == 8 && forall a :: 0 <= a < 8 ==> need[a] < i
    {
      assert i in u;
      var b :| 0 <= b < |u| && u[b] == i;
      assert b >= |need|;
    }
  }

  // ---- The goroutines ----

  /** One goroutine: fetch, take the lock, look at the log, write, release. */
  datatype Progress = Fetching | Answered | Locked | Looked(log: seq<Degradation>) | Stored | Finished

  datatype State = State(
    at: seq<Progress>, holder: Option<int>,
    events: seq<seq<Event>>, log: seq<Degradation>,
    order: seq<int>)

  type Answers = seq<Read<seq<Event>>>

  function EventComplaint<T>(r: Read<T>): seq<Degradation> {
    Complaint("events", EVENT_PURPOSE, r)
  }

  function ComplaintOf(answers: Answers): int -> seq<Degradation> {
    (i: int) => if 0 <= i < |answers| then EventComplaint(answers[i]) else []
  }

  function EventsFrom(r: Read<seq<Event>>): seq<Event> {
    if r.Got? then Deduped(r.value) else []
  }

  ghost predicate Init(answers: Answers, base: seq<Degradation>, s: State) {
    && |s.at| == |s.events| == |answers|
    && (forall i :: 0 <= i < |answers| ==> s.at[i] == Fetching && s.events[i] == [])
    && s.holder == None && s.log == base && s.order == []
  }

  /** Goroutine `i` takes one step. */
  ghost predicate Step(answers: Answers, i: int, s: State, t: State) {
    && |s.at| == |s.events| == |answers| && 0 <= i < |answers|
    && match s.at[i]
       case Fetching => t == s.(at := s.at[i := Answered])
       case Answered => s.holder == None && t == s.(at := s.at[i := Locked], holder := Some(i))
       case Locked => t == s.(at := s.at[i := Looked(s.log)])
       case Looked(log) => t == Store(answers, i, s, log)
       case Stored => t == s.(at := s.at[i := Finished], holder := None)
       case Finished => false
  }

  /** The write goroutine `i` makes, based on the log it looked at. */
  ghost function Store(answers: Answers, i: int, s: State, log: seq<Degradation>): State
    requires |s.at| == |s.events| == |answers| && 0 <= i < |answers|
  {
    s.(at := s.at[i := Stored], log := Recorded(log, EventComplaint(answers[i])),
       events := s.events[i := EventsFrom(answers[i])], order := s.order + [i])
  }

  /** A schedule: any goroutine may move at each step. */
  ghost predicate Run(answers: Answers, base: seq<Degradation>, run: seq<State>) {
    && run != [] && Init(answers, base, run[0])
    && forall n :: 0 < n < |run| ==> Moves(answers, run[n - 1], run[n])
  }

  ghost predicate Moves(answers: Answers, s: State, t: State) {
    exists i :: Step(answers, i, s, t)
  }

  ghost predicate Critical(p: Progress) {
    p.Locked? || p.Looked? || p.Stored?
  }

  ghost predicate Written(p: Progress) {
    p.Stored? || p.Finished?
  }

  /** Mutual exclusion: one goroutine at most is between lock and unlock, and what it looked at is
      still the log. */
  ghost predicate Excluded(answers: Answers, s: State) {
    && |s.at| == |s.events| == |answers|
    && (s.holder.Some? ==> 0 <= s.holder.value < |answers|)
    && (forall i :: 0 <= i < |answers| ==> (Critical(s.at[i]) <==> s.holder == Some(i)))
    && (forall i :: 0 <= i < |answers| && s.at[i].Looked? ==> s.at[i].log == s.log)
  }

  ghost predicate EventsWritten(answers: Answers, at: seq<Progress>, events: seq<seq<Event>>) {
    && |at| == |events| == |answers|
    && forall i :: 0 <= i < |answers| ==> events[i] == if Written(at[i]) then EventsFrom(answers[i]) else []
  }

  ghost predicate ListsWritten(at: seq<Progress>, order: seq<int>) {
    && Distinct(order) && (forall i :: i in order ==> 0 <= i < |at| && Written(at[i]))
    && forall i :: 0 <= i < |at| && Written(at[i]) ==> i in order
  }

  ghost predicate LogOf(answers: Answers, base: seq<Degradation>, order: seq<int>, log: seq<Degradation>) {
    log == Recorded(base, FlatMap(ComplaintOf(answers), order))
  }

  /** What has been written so far is one sequential pass over the goroutines of `order`. */
  ghost predicate Sequential(answers: Answers, base: seq<Degradation>, s: State) {
    EventsWritten(answers, s.at, s.events) && ListsWritten(s.at, s.order) && LogOf(answers, base, s.order, s.log)
  }

  ghost predicate Inv(answers: Answers, base: seq<Degradation>, s: State) {
    Excluded(answers, s) && Sequential(answers, base, s)
  }

  lemma InitInv(answers: Answers, base: seq<Degradation>, s: State)
    requires Init(answers, base, s) && DistinctKeys(DegKey, base)
    ensures Inv(answers, base, s)
  {
    RecordedNothing(base);
    assert FlatMap(ComplaintOf(answers), s.order) == [];
    assert forall i :: 0 <= i < |answers| ==> !Written(s.at[i]) && !Critical(s.at[i]);
  }

  lemma StoredLog(answers: Answers, base: seq<Degradation>, order: seq<int>, log: seq<Degradation>, i: int)
    requires 0 <= i < |answers| && LogOf(answers, base, order, log)
    ensures LogOf(answers, base, order + [i], Recorded(log, EventComplaint(answers[i])))
  {
    var f := ComplaintOf(answers);
    assert Front(order + [i]) == order;
    assert f(i) == EventComplaint(answers[i]);
    RecordedTwice(base, FlatMap(f, order), EventComplaint(answers[i]));
  }

  lemma StoredOrder(at: seq<Progress>, order: seq<int>, i: int)
    requires ListsWritten(at, order) && 0 <= i < |at| && !Written(at[i])
    ensures ListsWritten(at[i := Stored], order + [i])
  {
    assert i !in order;
    forall j | 0 <= j < |at| && Written(at[i := Stored][j]) ensures j in order + [i] {
      assert j == i || j in order;
    }
  }

  lemma StoredEvents(answers: Answers, at: seq<Progress>, events: seq<seq<Event>>, i: int)
    requires EventsWritten(answers, at, events) && 0 <= i < |at|
    ensures EventsWritten(answers, at[i := Stored], events[i := EventsFrom(answers[i])])
  {
  }

  lemma StoreSequential(answers: Answers, base: seq<Degradation>, i: int, s: State)
    requires Sequential(answers, base, s) && 0 <= i < |answers| && !Written(s.at[i])
    ensures Sequential(answers, base, Store(answers, i, s, s.log))
  {
    StoredLog(answers, base, s.order, s.log, i);
    StoredOrder(s.at, s.order, i);
    StoredEvents(answers, s.at, s.events, i);
  }

  lemma QuietSequential(answers: Answers, base: seq<Degradation>, i: int, s: State, t: State)
    requires Sequential(answers, base, s) && 0 <= i < |answers| && |t.at| == |s.at|
    requires t.at == s.at[i := t.at[i]] && (Written(t.at[i]) <==> Written(s.at[i]))
    requires t.events == s.events && t.log == s.log && t.order == s.order
    ensures Sequential(answers, base, t)
  {
  }

  lemma StepExcluded(answers: Answers, i: int, s: State, t: State)
    requires Excluded(answers, s) && Step(answers, i, s, t)
    ensures Excluded(answers, t)
  {
  }

  /** Every step of every goroutine keeps the invariant: the mutex makes look-then-write atomic. */
  lemma StepInv(answers: Answers, base: seq<Degradation>, i: int, s: State, t: State)
    requires Inv(answers, base, s) && Step(answers, i, s, t)
    ensures Inv(answers, base, t)
  {
    StepExcluded(answers, i, s, t);
    if s.at[i].Looked? {
      StoreSequential(answers, base, i, s);
    } else {
      QuietSequential(answers, base, i, s, t);
    }
  }

  lemma {:induction false} RunInv(answers: Answers, base: seq<Degradation>, run: seq<State>, n: nat)
    requires Run(answers, base, run) && DistinctKeys(DegKey, base) && n < |run|
    ensures Inv(answers, base, run[n])
  {
    if n == 0 {
      InitInv(answers, base, run[0]);
    } else {
      RunInv(answers, base, run, n - 1);
      assert Moves(answers, run[n - 1], run[n]);
      var i :| Step(answers, i, run[n - 1], run[n]);
      StepInv(answers, base, i, run[n - 1], run[n]);
    }
  }

  ghost predicate AllFinished(s: State) {
    forall i :: 0 <= i < |s.at| ==> s.at[i] == Finished
  }

  /** No reachable state is stuck: wg.Wait always returns. */
  lemma SomeoneCanMove(answers: Answers, s: State) returns (i: int, t: State)
    requires Excluded(answers, s) && !AllFinished(s)
    ensures Step(answers, i, s, t)
  {
    if s.holder.Some? {
      i := s.holder.value;
    } else {
      i :| 0 <= i < |s.at| && s.at[i] != Finished;
    }
    assert s.at[i] != Finished;
    match s.at[i] {
      case Fetching => t := s.(at := s.at[i := Answered]);
      case Answered => t := s.(at := s.at[i := Locked], holder := Some(i));
      case Locked => t := s.(at := s.at[i := Looked(s.log)]);
      case Looked(log) => t := Store(answers, i, s, log);
      case Stored => t := s.(at := s.at[i := Finished], holder := None);
    }
  }

  function Rank(p: Progress): int {
    match p
    case Fetching => 0
    case Answered => 1
    case Locked => 2
    case Looked(_) => 3
    case Stored => 4
    case Finished => 5
  }

  lemma SumUpdate(at: seq<Progress>, i: int, p: Progress)
    requires 0 <= i < |at|
    ensures Sum(Rank, at[i := p]) == Sum(Rank, at) - Rank(at[i]) + Rank(p)
  {
    assert at == at[..i] + [at[i]] + at[i + 1..];
    assert at[i := p] == at[..i] + [p] + at[i + 1..];
    SumConcat(Rank, at[..i] + [at[i]], at[i + 1..]);
    SumConcat(Rank, at[..i], [at[i]]);
    SumConcat(Rank, at[..i] + [p], at[i + 1..]);
    SumConcat(Rank, at[..i], [p]);
    assert Sum(Rank, [at[i]]) == Rank(at[i]) && Sum(Rank, [p]) == Rank(p);
  }

  /** Every step is progress, so no schedule takes more than five steps per goroutine. */
  lemma {:induction false} RunIsBounded(answers: Answers, base: seq<Degradation>, run: seq<State>, n: nat)
    requires Run(answers, base, run) && n < |run|
    ensures |run[n].at| == |answers| && Sum(Rank, run[n].at) == n && n <= 5 * |answers|
  {
    if n == 0 {
      RankBounds(run[0].at);
      AllFetching(run[0].at);
    } else {
      RunIsBounded(answers, base, run, n - 1);
      assert Moves(answers, run[n - 1], run[n]);
      var i :| Step(answers, i, run[n - 1], run[n]);
      StepRank(answers, i, run[n - 1], run[n]);
      RankBounds(run[n].at);
    }
  }

  lemma StepRank(answers: Answers, i: int, s: State, t: State)
    requires Step(answers, i, s, t)
    ensures |t.at| == |s.at| && Sum(Rank, t.at) == Sum(Rank, s.at) + 1
  {
    assert t.at == s.at[i := t.at[i]];
    SumUpdate(s.at, i, t.at[i]);
  }

  lemma {:induction false} RankBounds(at: seq<Progress>)
    ensures 0 <= Sum(Rank, at) <= 5 * |at|
  {
    if at != [] {
      RankBounds(Front(at));
    }
  }

  lemma {:induction false} AllFetching(at: seq<Progress>)
    requires forall i :: 0 <= i < |at| ==> at[i] == Fetching
    ensures Sum(Rank, at) == 0
  {
    if at != [] {
      assert forall i :: 0 <= i < |at| - 1 ==> Front(at)[i] == at[i];
      AllFetching(Front(at));
    }
  }

  /** `order` lists every goroutine once. */
  ghost predicate Covers(order: seq<int>, n: nat) {
    Distinct(order) && (forall i :: i in order ==> 0 <= i < n) && forall i :: 0 <= i < n ==> i in order
  }

  ghost predicate Complete(answers: Answers, base: seq<Degradation>, run: seq<State>) {
    DistinctKeys(DegKey, base) && Run(answers, base, run) && AllFinished(Final(run))
  }

  ghost function Final(run: seq<State>): State
    requires run != []
  {
    run[|run| - 1]
  }

  /** Every complete schedule is one sequential pass in lock order: each Pod ends with exactly its
      own events, and the log is what that pass would record. */
  lemma CompleteRun(answers: Answers, base: seq<Degradation>, run: seq<State>)
    requires Complete(answers, base, run)
    ensures var s := Final(run);
            && |s.events| == |answers|
            && (forall i :: 0 <= i < |answers| ==> s.events[i] == EventsFrom(answers[i]))
            && Covers(s.order, |answers|)
            && s.log == Recorded(base, FlatMap(ComplaintOf(answers), s.order))
  {
    RunInv(answers, base, run, |run| - 1);
  }

  ghost predicate SomeComplaint(answers: Answers, k: DegradationKey) {
    exists i :: 0 <= i < |answers| && HasKey(DegKey, k, EventComplaint(answers[i]))
  }

  lemma {:induction false} ComplaintKeys(answers: Answers, order: seq<int>, k: DegradationKey)
    ensures HasKey(DegKey, k, FlatMap(ComplaintOf(answers), order))
       <==> exists n :: 0 <= n < |order| && HasKey(DegKey, k, ComplaintOf(answers)(order[n]))
  {
    var f := ComplaintOf(answers);
    if order != [] {
      ComplaintKeys(answers, Front(order), k);
      HasKeyConcat(DegKey, k, FlatMap(f, Front(order)), f(Last(order)));
      if exists n :: 0 <= n < |Front(order)| && HasKey(DegKey, k, f(Front(order)[n])) {
        var n :| 0 <= n < |Front(order)| && HasKey(DegKey, k, f(Front(order)[n]));
        assert HasKey(DegKey, k, f(order[n]));
      }
      if exists n :: 0 <= n < |order| && HasKey(DegKey, k, f(order[n])) {
        var n :| 0 <= n < |order| && HasKey(DegKey, k, f(order[n]));
        assert n < |order| - 1 ==> HasKey(DegKey, k, f(Front(order)[n]));
      }
    }
  }

  /** Which (resource, reason) pairs end up recorded does not depend on the schedule. */
  lemma RecordedKeys(answers: Answers, base: seq<Degradation>, order: seq<int>, k: DegradationKey)
    requires Covers(order, |answers|)
    ensures HasKey(DegKey, k, Recorded(base, FlatMap(ComplaintOf(answers), order))) <==> HasKey(DegKey, k, base) || SomeComplaint(answers, k)
  {
    RecordedFacts(base, FlatMap(ComplaintOf(answers), order));
    ComplaintKeys(answers, order, k);
    if exists n :: 0 <= n < |order| && HasKey(DegKey, k, ComplaintOf(answers)(order[n])) {
      var n :| 0 <= n < |order| && HasKey(DegKey, k, ComplaintOf(answers)(order[n]));
      assert order[n] in order && HasKey(DegKey, k, EventComplaint(answers[order[n]]));
    }
    if SomeComplaint(answers, k) {
      var i :| 0 <= i < |answers| && HasKey(DegKey, k, EventComplaint(answers[i]));
      assert i in order;
      var n :| 0 <= n < |order| && order[n] == i;
      assert HasKey(DegKey, k, ComplaintOf(answers)(order[n]));
    }
  }

  /** A recorded entry is the one the log already had for its pair, or a complaint about events. */
  lemma RecordedEntry(answers: Answers, base: seq<Degradation>, order: seq<int>, d: Degradation)
    requires d in Recorded(base, FlatMap(ComplaintOf(answers), order))
    ensures HasKey(DegKey, DegKey(d), base) ==> d == base[FirstIndex(DegKey, DegKey(d), base)]
    ensures !HasKey(DegKey, DegKey(d), base) ==> d.requiredFor == EVENT_PURPOSE
  {
    var added := FlatMap(ComplaintOf(answers), order);
    var log := Recorded(base, added);
    var i :| 0 <= i < |log| && log[i] == d;
    FirstsOrigin(DegKey, base + added, i);
    if HasKey(DegKey, DegKey(d), base) {
      FirstIndexOfConcat(DegKey, DegKey(d), base, added);
    } else {
      FirstsSubset(DegKey, base + added, d);
      InFlatMap(ComplaintOf(answers), order, d);
    }
  }

  lemma EntriesAlike(answers: Answers, base: seq<Degradation>, order1: seq<int>, order2: seq<int>, d: Degradation, e: Degradation)
    requires d in Recorded(base, FlatMap(ComplaintOf(answers), order1)) && e in Recorded(base, FlatMap(ComplaintOf(answers), order2))
    requires DegKey(d) == DegKey(e)
    ensures d == e || (!HasKey(DegKey, DegKey(d), base) && d.(detail := e.detail) == e)
  {
    RecordedEntry(answers, base, order1, d);
    RecordedEntry(answers, base, order2, e);
  }

  /** Schedule independence. Two complete schedules leave the same events on every Pod and record
      the same pairs without duplicates. Two entries for one pair differ in their detail at most, and
      only when the pair was not on record before. */
  lemma ScheduleIndependence(answers: Answers, base: seq<Degradation>, run1: seq<State>, run2: seq<State>)
    requires Complete(answers, base, run1) && Complete(answers, base, run2)
    ensures Final(run1).events == Final(run2).events
    ensures forall k :: HasKey(DegKey, k, Final(run1).log) <==> HasKey(DegKey, k, Final(run2).log)
    ensures DistinctKeys(DegKey, Final(run1).log)
    ensures forall d, e :: d in Final(run1).log && e in Final(run2).log && DegKey(d) == DegKey(e) ==>
              d == e || (!HasKey(DegKey, DegKey(d), base) && d.(detail := e.detail) == e)
  {
    CompleteRun(answers, base, run1);
    CompleteRun(answers, base, run2);
    var s, t := Final(run1), Final(run2);
    forall k ensures HasKey(DegKey, k, s.log) <==> HasKey(DegKey, k, t.log) {
      RecordedKeys(answers, base, s.order, k);
      RecordedKeys(answers, base, t.order, k);
    }
    RecordedFacts(base, FlatMap(ComplaintOf(answers), s.order));
    forall d, e | d in s.log && e in t.log && DegKey(d) == DegKey(e)
      ensures d == e || (!HasKey(DegKey, DegKey(d), base) && d.(detail := e.detail) == e)
    {
      EntriesAlike(answers, base, s.order, t.order, d, e);
    }
  }

  lemma Extend(answers: Answers, base: seq<Degradation>, run: seq<State>, i: int, t: State)
    requires Run(answers, base, run) && Step(answers, i, Final(run), t)
    ensures Run(answers, base, run + [t]) && Final(run + [t]) == t
  {
    var next := run + [t];
    forall n | 0 < n < |next| ensures Moves(answers, next[n - 1], next[n]) {
      assert n < |run| ==> next[n - 1] == run[n - 1] && next[n] == run[n];
      assert n == |run| ==> next[n - 1] == Final(run);
    }
  }

  /** One goroutine from its answer to its end, undisturbed. */
  lemma Serve(answers: Answers, base: seq<Degradation>, run: seq<State>, i: int) returns (next: seq<State>)
    requires Run(answers, base, run) && Final(run).holder == None && |Final(run).at| == |Final(run).events| == |answers|
    requires 0 <= i < |answers| && Final(run).at[i] == Fetching
    ensures Run(answers, base, next) && Final(next).holder == None && Final(next).order == Final(run).order + [i]
    ensures |Final(next).events| == |answers| && Final(next).at == Final(run).at[i := Finished]
  {
    var s := Final(run);
    var t := s.(at := s.at[i := Answered]);
    Extend(answers, base, run, i, t);
    next := run + [t];
    t := t.(at := t.at[i := Locked], holder := Some(i));
    Extend(answers, base, next, i, t);
    next := next + [t];
    t := t.(at := t.at[i := Looked(t.log)]);
    Extend(answers, base, next, i, t);
    next := next + [t];
    t := Store(answers, i, t, t.log);
    Extend(answers, base, next, i, t);
    next := next + [t];
    t := t.(at := t.at[i := Finished], holder := None);
    Extend(answers, base, next, i, t);
    next := next + [t];
  }

  /** One goroutine after the other, in the given order. */
  lemma {:induction false} SerialRun(answers: Answers, base: seq<Degradation>, order: seq<int>) returns (run: seq<State>)
    requires Distinct(order) && forall i :: i in order ==> 0 <= i < |answers|
    ensures Run(answers, base, run) && Final(run).order == order && Final(run).holder == None
    ensures |Final(run).at| == |Final(run).events| == |answers|
    ensures forall i :: 0 <= i < |answers| ==> Final(run).at[i] == if i in order then Finished else Fetching
  {
    if order == [] {
      run := [State(seq(|answers|, _ => Fetching), None, seq(|answers|, _ => []), base, [])];
    } else {
      var i := Last(order);
      Snoc(order);
      assert i in order && i !in Front(order) && forall j :: j in Front(order) ==> j in order;
      run := SerialRun(answers, base, Front(order));
      run := Serve(answers, base, run, i);
    }
  }

  /** The converse of CompleteRun: every lock order is the lock order of some complete schedule, so
      quantifying over lock orders is quantifying over schedules. */
  lemma EveryLockOrderHappens(answers: Answers, base: seq<Degradation>, order: seq<int>) returns (run: seq<State>)
    requires DistinctKeys(DegKey, base) && Covers(order, |answers|)
    ensures Complete(answers, base, run) && Final(run).order == order
    ensures Final(run).log == Recorded(base, FlatMap(ComplaintOf(answers), order))
  {
    run := SerialRun(answers, base, order);
    CompleteRun(answers, base, run);
  }

  // ---- What a collector gets back ----

  type Fetch = int -> Read<seq<Event>>

  function AnswersTo(pods: seq<PodObject>, fetch: Fetch): Answers {
    Map(fetch, NeedEvents(pods))
  }

  /** The complaints of the goroutines, in the order they took the lock. */
  function BackendComplaints(pods: seq<PodObject>, fetch: Fetch, order: seq<int>): seq<Degradation> {
    FlatMap(ComplaintOf(AnswersTo(pods, fetch)), order)
  }

  /** Nothing is recorded exactly when the events of every chosen Pod could be read. */
  lemma SilentBackends(pods: seq<PodObject>, fetch: Fetch, order: seq<int>)
    requires Covers(order, |NeedEvents(pods)|)
    ensures BackendComplaints(pods, fetch, order) == [] <==> forall j :: j in NeedEvents(pods) ==> fetch(j).Got?
  {
    var need, answers := NeedEvents(pods), AnswersTo(pods, fetch);
    var f := ComplaintOf(answers);
    FlatMapEmpty(f, order);
    forall a | 0 <= a < |need| ensures f(a) == [] <==> fetch(need[a]).Got? {
      assert answers[a] == fetch(need[a]);
    }
    if forall x :: x in order ==> f(x) == [] {
      forall j | j in need ensures fetch(j).Got? {
        var a :| 0 <= a < |need| && need[a] == j;
        assert a in order;
      }
    }
    if forall j :: j in need ==> fetch(j).Got? {
      forall x | x in order ensures f(x) == [] {
        assert need[x] in need;
      }
    }
  }

  function BackendSnap(pod: PodObject, now: int, events: seq<Event>): PodSnap {
    PodSnap(pod, events, None, map[], map[], map[], [], now)
  }

  function BackendSnapAt(pods: seq<PodObject>, now: int, fetch: Fetch, i: int): PodSnap
    requires 0 <= i < |pods|
  {
    BackendSnap(pods[i], now, if i in NeedEvents(pods) then EventsFrom(fetch(i)) else [])
  }

  function BackendSnaps(pods: seq<PodObject>, now: int, fetch: Fetch): seq<PodSnap> {
    seq(|pods|, i requires 0 <= i < |pods| => BackendSnapAt(pods, now, fetch, i))
  }

  /** A backend's snapshot holds its Pod, nothing of what it references, and events only if it is one of
      the first eight unready Pods and they could be read. */
  lemma BackendSnapIs(pods: seq<PodObject>, now: int, fetch: Fetch, i: nat)
    requires i < |pods|
    ensures |BackendSnaps(pods, now, fetch)| == |pods|
    ensures var s := BackendSnaps(pods, now, fetch)[i];
            && s.pod == pods[i] && s.now == now && s.node == None && s.degradations == []
            && s.configMaps == map[] && s.secrets == map[] && s.claims == map[]
            && s.events == if (exists k :: 0 <= k < |NeedEvents(pods)| && NeedEvents(pods)[k] == i) && fetch(i).Got?
                           then Deduped(fetch(i).value) else []
  {
    assert BackendSnaps(pods, now, fetch)[i] == BackendSnapAt(pods, now, fetch, i);
    if i in NeedEvents(pods) {
      var k :| 0 <= k < |NeedEvents(pods)| && NeedEvents(pods)[k] == i;
    }
  }

  /** Some order of `n` goroutines: which one is up to the scheduler. */
  method AnyOrder(n: nat) returns (order: seq<int>)
    ensures Covers(order, n)
  {
    order := [];
    for i := 0 to n
      invariant Covers(order, i)
    {
      var k :| 0 <= k <= |order|;
      var next := order[..k] + [i] + order[k..];
      forall x ensures x in next <==> x in order || x == i {
        assert order == order[..k] + order[k..];
      }
      forall a, b | 0 <= a < b < |next| ensures next[a] != next[b] {
        assert next[a] == (if a < k then order[a] else if a == k then i else order[a - 1]);
        assert next[b] == (if b < k then order[b] else if b == k then i else order[b - 1]);
        assert a != k ==> next[a] in order;
        assert b != k ==> next[b] in order;
      }
      order := next;
    }
  }

  /** The goroutines in some lock order, which by CompleteRun is all any schedule can do. */
  method FetchEvents(coll: Collection, need: seq<int>, fetch: Fetch) returns (fetched: map<int, seq<Event>>, ghost order: seq<int>)
    requires coll.Valid()
    modifies coll`degradations
    ensures coll.Valid() && Covers(order, |need|)
    ensures coll.degradations == Recorded(old(coll.degradations), FlatMap(ComplaintOf(Map(fetch, need)), order))
    ensures forall j :: j in need ==> EventsFrom(fetch(j)) == if j in fetched then fetched[j] else []
  {
    var chosen := AnyOrder(|need|);
    order := chosen;
    forall n | 0 <= n < |chosen| ensures 0 <= chosen[n] < |need| {
      assert chosen[n] in chosen;
    }
    fetched := map[];
    ghost var f := ComplaintOf(Map(fetch, need));
    RecordedNothing(coll.degradations);
    for i := 0 to |chosen|
      invariant coll.Valid()
      invariant forall n :: 0 <= n < |chosen| ==> 0 <= chosen[n] < |need|
      invariant coll.degradations == Recorded(old(coll.degradations), FlatMap(f, chosen[..i]))
      invariant forall j :: j in fetched ==> fetch(j).Got? && fetched[j] == EventsFrom(fetch(j))
      invariant forall n :: 0 <= n < i && fetch(need[chosen[n]]).Got? ==> need[chosen[n]] in fetched
    {
      PrefixStep(chosen, i);
      var j := need[chosen[i]];
      var answer := fetch(j);
      RecordedTwice(old(coll.degradations), FlatMap(f, chosen[..i]), EventComplaint(answer));
      DegradeRead(coll, "events", EVENT_PURPOSE, answer);
      if answer.Got? {
        var events := Dedup(answer.value);
        fetched := fetched[j := events];
      }
    }
    assert chosen[..|chosen|] == chosen;
    AllFetched(need, chosen, fetch, fetched);
  }

  lemma AllFetched(need: seq<int>, order: seq<int>, fetch: Fetch, fetched: map<int, seq<Event>>)
    requires Covers(order, |need|) && forall n :: 0 <= n < |order| ==> 0 <= order[n] < |need|
    requires forall j :: j in fetched ==> fetch(j).Got? && fetched[j] == EventsFrom(fetch(j))
    requires forall n :: 0 <= n < |order| && fetch(need[order[n]]).Got? ==> need[order[n]] in fetched
    ensures forall j :: j in need ==> EventsFrom(fetch(j)) == if j in fetched then fetched[j] else []
  {
    forall j | j in need ensures EventsFrom(fetch(j)) == if j in fetched then fetched[j] else [] {
      var a :| 0 <= a < |need| && need[a] == j;
      assert a in order;
      var n :| 0 <= n < |order| && order[n] == a;
    }
  }

  method AttachEvents(pods: seq<PodObject>, now: int, need: seq<int>, fetched: map<int, seq<Event>>, ghost fetch: Fetch) returns (out: seq<PodSnap>)
    requires need == NeedEvents(pods)
    requires forall j :: j in need ==> EventsFrom(fetch(j)) == if j in fetched then fetched[j] else []
    ensures out == BackendSnaps(pods, now, fetch)
  {
    out := [];
    for j := 0 to |pods|
      invariant |out| == j && forall k :: 0 <= k < j ==> out[k] == BackendSnapAt(pods, now, fetch, k)
    {
      out := out + [BackendSnap(pods[j], now, if j in need && j in fetched then fetched[j] else [])];
    }
    assert out == BackendSnaps(pods, now, fetch);
  }

  method BackendSnapshots(coll: Collection, pods: seq<PodObject>, now: int, fetch: Fetch)
    returns (out: seq<PodSnap>, ghost order: seq<int>)
    requires coll.Valid()
    modifies coll`degradations
    ensures coll.Valid() && Covers(order, |NeedEvents(pods)|)
    ensures out == BackendSnaps(pods, now, fetch)
    ensures coll.degradations == Recorded(old(coll.degradations), BackendComplaints(pods, fetch, order))
  {
    var need := ChooseBackends(pods);
    var fetched;
    fetched, order := FetchEvents(coll, need, fetch);
    out := AttachEvents(pods, now, need, fetched, fetch);
  }
}
