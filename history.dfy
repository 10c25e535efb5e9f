/**
 Sequences of add and remove events delivered to the observer, replayed through
 the pure handlers, and what any such sequence leaves behind: which request each
 tracker holds for an id, and that every tracker's size is the count last
 reported for its category.
 */
module History {
  import opened Requests
  import opened Trackers

  datatype Event = Added(req: Request) | Removed(req: Request)

  function Apply(s: Trackers, ev: Event): Outcome {
    match ev
    case Added(r) => Add(s, r)
    case Removed(r) => Remove(s, r)
  }

  /** Replays the events in order; the notifications of all of them, in the order sent. */
  function Run(s: Trackers, events: seq<Event>): Outcome
    decreases |events|
  {
    if events == [] then Outcome(s, [])
    else
      var before := Run(s, events[..|events| - 1]);
      var last := Apply(before.trackers, events[|events| - 1]);
      Outcome(last.trackers, before.emitted + last.emitted)
  }

  /**
   The request c's tracker should hold for id after these events, stated without
   the trackers: the first add of id matching c since the last remove of id.
   Later adds of the same id do not replace it; the predicate is tested only then.
   */
  function Admission(events: seq<Event>, c: Category, id: int): Option<Request>
    decreases |events|
  {
    if events == [] then None
    else
      var prior := Admission(events[..|events| - 1], c, id);
      match events[|events| - 1]
      case Removed(r) => if r.id == id then None else prior
      case Added(r) => if r.id == id && prior.None? && Matches(c, r) then Some(r) else prior
  }

  lemma AddLookup(s: Trackers, r: Request, c: Category, id: int)
    ensures Lookup(Add(s, r).trackers.Get(c), id) ==
            if id == r.id && r.id !in s.Get(c) && Matches(c, r) then Some(r) else Lookup(s.Get(c), id)
  {
    AddAdmits(s, r, c);
    var t, t' := s.Get(c), Add(s, r).trackers.Get(c);
    if id != r.id {
      assert id in t' <==> id in t' - {r.id};
      assert id in t <==> id in t - {r.id};
      if id in t {
        assert t'[id] == (t' - {r.id})[id];
      }
    }
  }

  lemma RemoveLookup(s: Trackers, r: Request, c: Category, id: int)
    ensures Lookup(Remove(s, r).trackers.Get(c), id) == if id == r.id then None else Lookup(s.Get(c), id)
  {
    RemoveDeletes(s, r, c);
  }

  /** After any events from empty trackers, c's tracker holds for id exactly the request Admission names. */
  lemma {:induction false} RunFollowsAdmission(events: seq<Event>, c: Category, id: int)
    ensures Lookup(Run(Empty(), events).trackers.Get(c), id) == Admission(events, c, id)
    decreases |events|
  {
    if events != [] {
      var prefix := events[..|events| - 1];
      RunFollowsAdmission(prefix, c, id);
      var before := Run(Empty(), prefix).trackers;
      match events[|events| - 1]
      case Added(r) => AddLookup(before, r, c, id);
      case Removed(r) => RemoveLookup(before, r, c, id);
    }
  }

  /** One event keeps every tracker's size equal to the count last reported for its category. */
  lemma ApplyKeepsReported(s: Trackers, ev: Event, log: seq<Notification>)
    requires Reported(s, log)
    ensures Reported(Apply(s, ev).trackers, log + Apply(s, ev).emitted)
  {
    match ev {
      case Added(r) => AddKeepsReported(s, r, log);
      case Removed(r) => RemoveKeepsReported(s, r, log);
    }
  }

  lemma AppendThree(a: seq<Notification>, b: seq<Notification>, c: seq<Notification>)
    ensures a + (b + c) == a + b + c
  {
  }

  /** Replaying events keeps every tracker's size equal to the count last reported for its category. */
  lemma {:induction false} RunKeepsReported(s: Trackers, log: seq<Notification>, events: seq<Event>)
    requires Reported(s, log)
    ensures Reported(Run(s, events).trackers, log + Run(s, events).emitted)
    decreases |events|
  {
    if events == [] {
      assert log + Run(s, events).emitted == log;
    } else {
      var prefix := events[..|events| - 1];
      RunKeepsReported(s, log, prefix);
      ApplyKeepsReported(Run(s, prefix).trackers, events[|events| - 1], log + Run(s, prefix).emitted);
      AppendThree(log, Run(s, prefix).emitted, Apply(Run(s, prefix).trackers, events[|events| - 1]).emitted);
    }
  }

  /** From empty trackers, after any events, each tracker's size is the count last reported for it, or 0. */
  lemma SizesAreLastReported(events: seq<Event>, c: Category)
    ensures |Run(Empty(), events).trackers.Get(c)| == LastReported(Run(Empty(), events).emitted, c)
  {
    RunKeepsReported(Empty(), [], events);
    assert [] + Run(Empty(), events).emitted == Run(Empty(), events).emitted;
  }

  /** Replaying events keeps every entry stored under its own id and satisfying its category. */
  lemma {:induction false} RunKeepsWellFormed(s: Trackers, events: seq<Event>)
    requires WellFormed(s)
    ensures WellFormed(Run(s, events).trackers)
    decreases |events|
  {
    if events != [] {
      var prefix := events[..|events| - 1];
      RunKeepsWellFormed(s, prefix);
      match events[|events| - 1]
      case Added(r) => AddKeepsWellFormed(Run(s, prefix).trackers, r);
      case Removed(r) => RemoveKeepsWellFormed(Run(s, prefix).trackers, r);
    }
  }

  /** Delivering the same add twice ends in the same trackers, with the same notifications, as delivering it once. */
  lemma DuplicateAddIsNoOp(s: Trackers, r: Request)
    ensures Run(s, [Added(r), Added(r)]) == Run(s, [Added(r)])
  {
    assert [Added(r), Added(r)][..1] == [Added(r)];
    assert [Added(r)][..0] == [];
    AddIsIdempotent(s, r);
  }

  /** An add of a request that is unmetered and wants wifi reports Unmetered, then Wifi, each with count 1. */
  lemma ScenarioUnmeteredWifi()
    ensures Add(Empty(), Request(1, true, true, false, 0)).emitted ==
            [Notification(Unmetered, 1), Notification(Wifi, 1)]
  {
    var r := Request(1, true, true, false, 0);
    assert |map[1 := r]| == 1;
  }

  /** 300 * 1024 kbps is high bandwidth; exactly 200 * 1024 kbps is not. */
  lemma ScenarioBandwidth()
    ensures Add(Empty(), Request(2, false, false, false, 300 * 1024)).emitted == [Notification(HighBandwidth, 1)]
    ensures Add(Empty(), Request(3, false, false, false, 200 * 1024)).emitted == []
  {
    var r := Request(2, false, false, false, 300 * 1024);
    assert |map[2 := r]| == 1;
  }

  /** Adding cellular request 5 twice notifies once, and the Cellular tracker holds one entry. */
  lemma ScenarioDuplicateCellular()
    ensures var o := Run(Empty(), [Added(Request(5, false, false, true, 0)), Added(Request(5, false, false, true, 0))]);
            o.emitted == [Notification(Cellular, 1)] && |o.trackers.cellular| == 1
  {
    var r := Request(5, false, false, true, 0);
    DuplicateAddIsNoOp(Empty(), r);
    assert [Added(r)][..0] == [];
    assert |map[5 := r]| == 1;
  }

  /** Adding request 7 (wifi and cellular) and removing it reports 1, 1, then 0, 0 and leaves every tracker empty. */
  lemma ScenarioAddThenRemove()
    ensures var o := Run(Empty(), [Added(Request(7, false, true, true, 0)), Removed(Request(7, false, true, true, 0))]);
            o.emitted == [Notification(Wifi, 1), Notification(Cellular, 1), Notification(Wifi, 0), Notification(Cellular, 0)]
            && o.trackers == Empty()
  {
    var r := Request(7, false, true, true, 0);
    var events := [Added(r), Removed(r)];
    assert events[..1] == [Added(r)];
    assert [Added(r)][..0] == [];
    var m := map[7 := r];
    assert |m| == 1;
    assert m - {7} == map[];
    RemoveUndoesAdd(Empty(), r, r);
  }
}
