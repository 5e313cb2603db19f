/** What a collector records about reads that failed (internal/collect/collect.go and the
    Collection of internal/snapshot/snapshot.go). */
module Collecting {
  import opened Sequences
  import opened GroupBy
  import opened Model

  datatype Existence = Unknown | Found | Missing

  /** The outcome of one API read. */
  datatype Read<+T> = Got(value: T) | NotFound(detail: string) | Forbidden(detail: string) | TimedOut(detail: string) | Errored(detail: string)

  datatype DegradationKey = DegradationKey(resource: string, reason: string)

  function DegKey(d: Degradation): DegradationKey {
    DegradationKey(d.resource, d.reason)
  }

  function Self(s: string): string {
    s
  }

  /** A log that keeps the first entry of every (resource, reason). */
  function Recorded(log: seq<Degradation>, attempts: seq<Degradation>): seq<Degradation> {
    Firsts(DegKey, log + attempts)
  }

  class Collection {
    var degradations: seq<Degradation>
    var inspected: seq<string>

    ghost predicate Valid()
      reads this
    {
      DistinctKeys(DegKey, degradations) && Distinct(inspected)
    }

    constructor ()
      ensures Valid() && degradations == [] && inspected == []
    {
      degradations, inspected := [], [];
    }

    method Degrade(d: Degradation)
      requires Valid()
      modifies this`degradations
      ensures Valid() && degradations == Recorded(old(degradations), [d])
    {
      FirstsOfDistinct(DegKey, degradations);
      assert Front(degradations + [d]) == degradations;
      for i := 0 to |degradations|
        invariant degradations == old(degradations)
        invariant forall j :: 0 <= j < i ==> DegKey(degradations[j]) != DegKey(d)
      {
        if degradations[i].resource == d.resource && degradations[i].reason == d.reason {
          assert DegKey(degradations[i]) == DegKey(d);
          return;
        }
      }
      degradations := degradations + [d];
    }

    method Inspect(what: string)
      requires Valid()
      modifies this`inspected
      ensures Valid() && inspected == Firsts(Self, old(inspected) + [what])
    {
      FirstsOfDistinct(Self, inspected);
      assert Front(inspected + [what]) == inspected;
      for i := 0 to |inspected|
        invariant inspected == old(inspected)
        invariant forall j :: 0 <= j < i ==> inspected[j] != what
      {
        if inspected[i] == what {
          assert Self(inspected[i]) == what;
          return;
        }
      }
      inspected := inspected + [what];
    }
  }

  function ReasonOf<T>(r: Read<T>): string {
    match r
    case Forbidden(_) => "Forbidden"
    case NotFound(_) => "NotFound"
    case TimedOut(_) => "Timeout"
    case _ => "Error"
  }

  /** What `degrade` records about a read: nothing when it succeeded. */
  function Complaint<T>(resource: string, requiredFor: string, r: Read<T>): seq<Degradation> {
    if r.Got? then [] else [Degradation(resource, ReasonOf(r), requiredFor, r.detail)]
  }

  method DegradeRead<T>(c: Collection, resource: string, requiredFor: string, r: Read<T>)
    requires c.Valid()
    modifies c`degradations
    ensures c.Valid() && c.degradations == Recorded(old(c.degradations), Complaint(resource, requiredFor, r))
  {
    if r.Got? {
      assert c.degradations + [] == c.degradations;
      FirstsOfDistinct(DegKey, c.degradations);
      return;
    }
    c.Degrade(Degradation(resource, ReasonOf(r), requiredFor, r.detail));
  }

  /** A denied read yields Unknown, never Missing. */
  function ExistenceIn<T>(r: Read<T>): (e: Existence)
    ensures e == Missing <==> r.NotFound?
    ensures e == Found <==> r.Got?
  {
    match r
    case Got(_) => Found
    case NotFound(_) => Missing
    case _ => Unknown
  }

  /** An existence check complains exactly when its answer is Unknown. */
  function Doubt<T>(resource: string, requiredFor: string, r: Read<T>): (ds: seq<Degradation>)
    ensures ds == [] <==> ExistenceIn(r) != Unknown
  {
    if r.NotFound? then [] else Complaint(resource, requiredFor, r)
  }

  method CheckExistence<T>(c: Collection, resource: string, requiredFor: string, r: Read<T>) returns (e: Existence)
    requires c.Valid()
    modifies c`degradations
    ensures c.Valid() && c.degradations == Recorded(old(c.degradations), Doubt(resource, requiredFor, r))
    ensures e == ExistenceIn(r)
  {
    if r.NotFound? {
      assert c.degradations + [] == c.degradations;
      FirstsOfDistinct(DegKey, c.degradations);
      return Missing;
    }
    DegradeRead(c, resource, requiredFor, r);
    e := if r.Got? then Found else Unknown;
  }

  /** The log can be extended attempt by attempt. */
  lemma RecordedTwice(log: seq<Degradation>, a: seq<Degradation>, b: seq<Degradation>)
    ensures Recorded(Recorded(log, a), b) == Recorded(log, a + b)
  {
    FirstsResume(DegKey, log + a, b);
    assert log + a + b == log + (a + b);
  }

  lemma RecordedNothing(log: seq<Degradation>)
    requires DistinctKeys(DegKey, log)
    ensures Recorded(log, []) == log
  {
    assert log + [] == log;
    FirstsOfDistinct(DegKey, log);
  }

  /** No duplicates, and the log is empty only if nothing ever failed. */
  lemma RecordedFacts(log: seq<Degradation>, attempts: seq<Degradation>)
    ensures DistinctKeys(DegKey, Recorded(log, attempts))
    ensures Recorded(log, attempts) == [] <==> log == [] && attempts == []
    ensures forall k :: HasKey(DegKey, k, Recorded(log, attempts)) <==> HasKey(DegKey, k, log) || HasKey(DegKey, k, attempts)
  {
    FirstsDistinct(DegKey, log + attempts);
    forall k ensures HasKey(DegKey, k, Recorded(log, attempts)) <==> HasKey(DegKey, k, log) || HasKey(DegKey, k, attempts) {
      FirstsCover(DegKey, k, log + attempts);
      HasKeyConcat(DegKey, k, log, attempts);
    }
    if log + attempts != [] {
      var d := (log + attempts)[0];
      assert HasKey(DegKey, DegKey(d), log + attempts);
      FirstsCover(DegKey, DegKey(d), log + attempts);
    }
  }

  // ---- Degradations in the words of the API ----

  /** The read failed, and this is the reason it is recorded with. */
  ghost predicate Fails<T>(r: Read<T>, reason: string) {
    || (r.Forbidden? && reason == "Forbidden") || (r.NotFound? && reason == "NotFound")
    || (r.TimedOut? && reason == "Timeout") || (r.Errored? && reason == "Error")
  }

  /** The read failed, other than by not finding the object. */
  ghost predicate Undecided<T>(r: Read<T>, reason: string) {
    Fails(r, reason) && !r.NotFound?
  }

  ghost predicate Notes(log: seq<Degradation>, resource: string, reason: string) {
    exists d :: d in log && d.resource == resource && d.reason == reason
  }

  lemma NotesConcat(a: seq<Degradation>, b: seq<Degradation>, resource: string, reason: string)
    ensures Notes(a + b, resource, reason) <==> Notes(a, resource, reason) || Notes(b, resource, reason)
  {
    assert forall d :: d in a + b <==> d in a || d in b;
  }

  lemma NotesFlatMap<T>(f: T -> seq<Degradation>, s: seq<T>, resource: string, reason: string)
    ensures Notes(FlatMap(f, s), resource, reason) <==> exists x :: x in s && Notes(f(x), resource, reason)
  {
    if Notes(FlatMap(f, s), resource, reason) {
      var d :| d in FlatMap(f, s) && d.resource == resource && d.reason == reason;
      InFlatMap(f, s, d);
      var i :| 0 <= i < |s| && d in f(s[i]);
      assert s[i] in s && Notes(f(s[i]), resource, reason);
    }
    forall x | x in s && Notes(f(x), resource, reason) ensures Notes(FlatMap(f, s), resource, reason) {
      var d :| d in f(x) && d.resource == resource && d.reason == reason;
      InFlatMap(f, s, d);
      var i :| 0 <= i < |s| && s[i] == x;
    }
  }

  lemma ComplaintNotes<T>(about: string, requiredFor: string, r: Read<T>, resource: string, reason: string)
    ensures Notes(Complaint(about, requiredFor, r), resource, reason) <==> resource == about && Fails(r, reason)
    ensures Notes(Doubt(about, requiredFor, r), resource, reason) <==> resource == about && Undecided(r, reason)
  {
    var c := Complaint(about, requiredFor, r);
    assert c != [] ==> c[0] in c;
  }

  /** The log of a whole collection: a pair is on record exactly when some attempt failed with it, and
      no pair is on record twice. */
  lemma RecordedNotes(attempts: seq<Degradation>, resource: string, reason: string)
    ensures Notes(Recorded([], attempts), resource, reason) <==> Notes(attempts, resource, reason)
    ensures var log := Recorded([], attempts);
            forall i, j :: 0 <= i < j < |log| ==> log[i].resource != log[j].resource || log[i].reason != log[j].reason
  {
    var log, k := Recorded([], attempts), DegradationKey(resource, reason);
    RecordedFacts([], attempts);
    assert HasKey(DegKey, k, log) <==> Notes(log, resource, reason) by {
      assert forall i :: 0 <= i < |log| ==> log[i] in log;
    }
    assert HasKey(DegKey, k, attempts) <==> Notes(attempts, resource, reason) by {
      assert forall i :: 0 <= i < |attempts| ==> attempts[i] in attempts;
    }
  }
}
