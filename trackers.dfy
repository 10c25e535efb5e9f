/**
 The bookkeeping of the observer as pure functions: four trackers, one per
 category, each mapping a request id to the request stored when that id was
 admitted, and the listener notifications each add or remove produces.
 */
module Trackers {
  import opened Requests

  datatype Option<T> = None | Some(value: T)

  /** One listener callback: the category whose count changed and the new count. */
  datatype Notification = Notification(category: Category, count: nat)

  datatype Trackers = Trackers(
    unmetered: map<int, Request>,
    highBandwidth: map<int, Request>,
    wifi: map<int, Request>,
    cellular: map<int, Request>)
  {
    function Get(c: Category): map<int, Request> {
      match c
      case Unmetered => unmetered
      case HighBandwidth => highBandwidth
      case Wifi => wifi
      case Cellular => cellular
    }

    /** These trackers with c's tracker replaced by t and the other three kept. */
    function With(c: Category, t: map<int, Request>): (s: Trackers)
      ensures s.Get(c) == t
      ensures forall d :: d != c ==> s.Get(d) == Get(d)
    {
      match c
      case Unmetered => this.(unmetered := t)
      case HighBandwidth => this.(highBandwidth := t)
      case Wifi => this.(wifi := t)
      case Cellular => this.(cellular := t)
    }
  }

  /** The trackers after one event, and the notifications it sent, in order. */
  datatype Outcome = Outcome(trackers: Trackers, emitted: seq<Notification>)

  /** One tracker after one category's test, and what that test sent (nothing or one notification). */
  datatype Step = Step(tracker: map<int, Request>, emitted: seq<Notification>)

  function Empty(): (s: Trackers)
    ensures forall c :: s.Get(c) == map[]
  {
    Trackers(map[], map[], map[], map[])
  }

  function Lookup(t: map<int, Request>, id: int): Option<Request> {
    if id in t then Some(t[id]) else None
  }

  /** Every entry of the tracker is stored under its own id. */
  ghost predicate KeyedById(t: map<int, Request>) {
    forall k :: k in t ==> t[k].id == k
  }

  /** Every entry is stored under its own id and satisfies the predicate of its tracker. */
  ghost predicate WellFormed(s: Trackers) {
    forall c :: KeyedById(s.Get(c)) && forall k :: k in s.Get(c) ==> Matches(c, s.Get(c)[k])
  }

  /** Notifications never mention a category twice and come in the order Unmetered, HighBandwidth, Wifi, Cellular. */
  ghost predicate InCategoryOrder(e: seq<Notification>) {
    forall i, j :: 0 <= i < j < |e| ==> e[i].category.Rank() < e[j].category.Rank()
  }

  /** Every notification in e is about a category ranked in [lo, hi). */
  ghost predicate RanksWithin(e: seq<Notification>, lo: nat, hi: nat) {
    forall i :: 0 <= i < |e| ==> lo <= e[i].category.Rank() < hi
  }

  lemma OrderedAppend(a: seq<Notification>, b: seq<Notification>, lo: nat, mid: nat, hi: nat)
    requires lo <= mid <= hi
    requires InCategoryOrder(a) && RanksWithin(a, lo, mid)
    requires InCategoryOrder(b) && RanksWithin(b, mid, hi)
    ensures InCategoryOrder(a + b) && RanksWithin(a + b, lo, hi)
  {
    var e := a + b;
    forall i, j | 0 <= i < j < |e| ensures e[i].category.Rank() < e[j].category.Rank() {
      if j < |a| {
        assert e[i] == a[i] && e[j] == a[j];
      } else if i < |a| {
        assert e[i] == a[i] && e[j] == b[j - |a|];
      } else {
        assert e[i] == b[i - |a|] && e[j] == b[j - |a|];
      }
    }
    forall i | 0 <= i < |e| ensures lo <= e[i].category.Rank() < hi {
      if i < |a| { assert e[i] == a[i]; } else { assert e[i] == b[i - |a|]; }
    }
  }

  /** Four tests that each send at most one notification about their own category send them in category order. */
  lemma InOrderFour(u: seq<Notification>, h: seq<Notification>, w: seq<Notification>, l: seq<Notification>)
    requires |u| <= 1 && RanksWithin(u, 0, 1)
    requires |h| <= 1 && RanksWithin(h, 1, 2)
    requires |w| <= 1 && RanksWithin(w, 2, 3)
    requires |l| <= 1 && RanksWithin(l, 3, 4)
    ensures |u + h + w + l| <= 4 && InCategoryOrder(u + h + w + l)
  {
    OrderedAppend(u, h, 0, 1, 2);
    OrderedAppend(u + h, w, 0, 2, 3);
    OrderedAppend(u + h + w, l, 0, 3, 4);
  }

  /** The counts a log reported for category c, oldest first. */
  function Reports(log: seq<Notification>, c: Category): seq<nat> {
    if log == [] then []
    else
      var last := log[|log| - 1];
      Reports(log[..|log| - 1], c) + (if last.category == c then [last.count] else [])
  }

  /** The count a log reported last for category c, or 0 when it reported none. */
  function LastReported(log: seq<Notification>, c: Category): nat {
    var counts := Reports(log, c);
    if counts == [] then 0 else counts[|counts| - 1]
  }

  /** Each tracker's size is the count last reported for its category. */
  ghost predicate Reported(s: Trackers, log: seq<Notification>) {
    forall c :: |s.Get(c)| == LastReported(log, c)
  }

  lemma {:induction false} ReportsAppend(a: seq<Notification>, b: seq<Notification>, c: Category)
    ensures Reports(a + b, c) == Reports(a, c) + Reports(b, c)
    decreases |b|
  {
    if b == [] {
      assert a + b == a;
    } else {
      var b' := b[..|b| - 1];
      assert (a + b)[..|a + b| - 1] == a + b';
      ReportsAppend(a, b', c);
    }
  }

  /** Appending notifications changes the last reported count of c only if they mention c. */
  lemma LastReportedAppend(log: seq<Notification>, e: seq<Notification>, c: Category)
    ensures LastReported(log + e, c) ==
            if Reports(e, c) == [] then LastReported(log, c) else Reports(e, c)[|Reports(e, c)| - 1]
  {
    ReportsAppend(log, e, c);
  }

  /** What one category's test reports about category c: its one notification if it is about c. */
  lemma ReportsOfOne(n: Notification, c: Category)
    ensures Reports([n], c) == if n.category == c then [n.count] else []
  {
    assert [n][..0] == [];
  }

  lemma ReportsOfFour(u: seq<Notification>, h: seq<Notification>, w: seq<Notification>, l: seq<Notification>, c: Category)
    ensures Reports(u + h + w + l, c) == Reports(u, c) + Reports(h, c) + Reports(w, c) + Reports(l, c)
  {
    ReportsAppend(u + h + w, l, c);
    ReportsAppend(u + h, w, c);
    ReportsAppend(u, h, c);
  }

  /** The test of category c in the add handler: admit r unless its id is tracked or it does not match. */
  function Admit(t: map<int, Request>, c: Category, r: Request): Step {
    if r.id !in t && Matches(c, r) then
      var t' := t[r.id := r];
      Step(t', [Notification(c, |t'|)])
    else
      Step(t, [])
  }

  /** The add handler: the four admission tests in the fixed category order. */
  function Add(s: Trackers, r: Request): Outcome {
    var u := Admit(s.unmetered, Unmetered, r);
    var h := Admit(s.highBandwidth, HighBandwidth, r);
    var w := Admit(s.wifi, Wifi, r);
    var l := Admit(s.cellular, Cellular, r);
    Outcome(Trackers(u.tracker, h.tracker, w.tracker, l.tracker), u.emitted + h.emitted + w.emitted + l.emitted)
  }

  /** The test of category c in the remove handler: drop the id if the tracker holds it. */
  function Evict(t: map<int, Request>, c: Category, id: int): Step {
    if id in t then
      var t' := t - {id};
      Step(t', [Notification(c, |t'|)])
    else
      Step(t, [])
  }

  /** The remove handler: only the request's id is consulted, in the fixed category order. */
  function Remove(s: Trackers, r: Request): Outcome {
    var u := Evict(s.unmetered, Unmetered, r.id);
    var h := Evict(s.highBandwidth, HighBandwidth, r.id);
    var w := Evict(s.wifi, Wifi, r.id);
    var l := Evict(s.cellular, Cellular, r.id);
    Outcome(Trackers(u.tracker, h.tracker, w.tracker, l.tracker), u.emitted + h.emitted + w.emitted + l.emitted)
  }

  lemma AdmitSendsAtMostOne(t: map<int, Request>, c: Category, r: Request)
    ensures |Admit(t, c, r).emitted| <= 1 && RanksWithin(Admit(t, c, r).emitted, c.Rank(), c.Rank() + 1)
  {
  }

  /** What one add sends is what its four tests send, in the fixed category order. */
  lemma AddEmitted(s: Trackers, r: Request)
    ensures Add(s, r).emitted == Admit(s.unmetered, Unmetered, r).emitted + Admit(s.highBandwidth, HighBandwidth, r).emitted
                                 + Admit(s.wifi, Wifi, r).emitted + Admit(s.cellular, Cellular, r).emitted
  {
  }

  /** One add sends at most four notifications, at most one per category, in category order. */
  lemma AddInOrder(s: Trackers, r: Request)
    ensures |Add(s, r).emitted| <= 4 && InCategoryOrder(Add(s, r).emitted)
  {
    AddEmitted(s, r);
    AdmitSendsAtMostOne(s.unmetered, Unmetered, r);
    AdmitSendsAtMostOne(s.highBandwidth, HighBandwidth, r);
    AdmitSendsAtMostOne(s.wifi, Wifi, r);
    AdmitSendsAtMostOne(s.cellular, Cellular, r);
    InOrderFour(Admit(s.unmetered, Unmetered, r).emitted, Admit(s.highBandwidth, HighBandwidth, r).emitted,
                Admit(s.wifi, Wifi, r).emitted, Admit(s.cellular, Cellular, r).emitted);
  }

  /** Each tracker changes only through its own category's test. */
  lemma AddPerCategory(s: Trackers, r: Request, c: Category)
    ensures Add(s, r).trackers.Get(c) == Admit(s.Get(c), c, r).tracker
  {
  }

  /** After an add, r's id is in c's tracker iff it was there or r matches c; an entry already
      there keeps its stored request; every other id's entry is untouched. */
  lemma AddAdmits(s: Trackers, r: Request, c: Category)
    ensures r.id in Add(s, r).trackers.Get(c) <==> r.id in s.Get(c) || Matches(c, r)
    ensures r.id in s.Get(c) ==> Add(s, r).trackers.Get(c)[r.id] == s.Get(c)[r.id]
    ensures r.id !in s.Get(c) && Matches(c, r) ==> Add(s, r).trackers.Get(c)[r.id] == r
    ensures Add(s, r).trackers.Get(c) - {r.id} == s.Get(c) - {r.id}
    ensures |Add(s, r).trackers.Get(c)| == if r.id !in s.Get(c) && Matches(c, r) then |s.Get(c)| + 1 else |s.Get(c)|
  {
    AddPerCategory(s, r, c);
    AdmitAdmits(s.Get(c), c, r);
  }

  lemma AdmitAdmits(t: map<int, Request>, c: Category, r: Request)
    ensures r.id in Admit(t, c, r).tracker <==> r.id in t || Matches(c, r)
    ensures r.id in t ==> Admit(t, c, r).tracker[r.id] == t[r.id]
    ensures r.id !in t && Matches(c, r) ==> Admit(t, c, r).tracker[r.id] == r
    ensures Admit(t, c, r).tracker - {r.id} == t - {r.id}
    ensures |Admit(t, c, r).tracker| == if r.id !in t && Matches(c, r) then |t| + 1 else |t|
  {
  }

  lemma AddKeepsWellFormed(s: Trackers, r: Request)
    requires WellFormed(s)
    ensures WellFormed(Add(s, r).trackers)
  {
    forall c ensures KeyedById(Add(s, r).trackers.Get(c)) && forall k :: k in Add(s, r).trackers.Get(c) ==> Matches(c, Add(s, r).trackers.Get(c)[k]) {
      AddAdmits(s, r, c);
      forall k | k in Add(s, r).trackers.Get(c)
        ensures Add(s, r).trackers.Get(c)[k].id == k && Matches(c, Add(s, r).trackers.Get(c)[k])
      {
        if k != r.id {
          assert k in Add(s, r).trackers.Get(c) - {r.id};
        }
      }
    }
  }

  lemma RemoveKeepsWellFormed(s: Trackers, r: Request)
    requires WellFormed(s)
    ensures WellFormed(Remove(s, r).trackers)
  {
    forall c ensures Remove(s, r).trackers.Get(c) == s.Get(c) - {r.id} {
      RemoveDeletes(s, r, c);
    }
  }

  /** What add block d reports about c: nothing unless d is c, and then what c's own block reports. */
  lemma ReportsOfStepAt(s: Trackers, r: Request, d: Category, c: Category)
    ensures Reports(Admit(s.Get(d), d, r).emitted, c) ==
            if d == c then (if r.id !in s.Get(c) && Matches(c, r) then [|s.Get(c)| + 1] else []) else []
  {
    ReportsOfStep(s.Get(d), d, r, c);
  }

  /** Add notifies category c exactly once, with the tracker's new size, iff it admits r there. */
  lemma AddReports(s: Trackers, r: Request, c: Category)
    ensures Reports(Add(s, r).emitted, c) == if r.id !in s.Get(c) && Matches(c, r) then [|s.Get(c)| + 1] else []
  {
    ReportsOfStepAt(s, r, Unmetered, c);
    ReportsOfStepAt(s, r, HighBandwidth, c);
    ReportsOfStepAt(s, r, Wifi, c);
    ReportsOfStepAt(s, r, Cellular, c);
    CombineReports(Admit(s.unmetered, Unmetered, r).emitted, Admit(s.highBandwidth, HighBandwidth, r).emitted,
                   Admit(s.wifi, Wifi, r).emitted, Admit(s.cellular, Cellular, r).emitted,
                   c, if r.id !in s.Get(c) && Matches(c, r) then [|s.Get(c)| + 1] else []);
  }

  /** Four tests, one per category in the fixed order, of which only c's reports anything about c:
      the whole reports about c what c's test reports. */
  lemma CombineReports(u: seq<Notification>, h: seq<Notification>, w: seq<Notification>, l: seq<Notification>,
                       c: Category, x: seq<nat>)
    requires Reports(u, c) == if Unmetered == c then x else []
    requires Reports(h, c) == if HighBandwidth == c then x else []
    requires Reports(w, c) == if Wifi == c then x else []
    requires Reports(l, c) == if Cellular == c then x else []
    ensures Reports(u + h + w + l, c) == x
  {
    ReportsOfFour(u, h, w, l, c);
    PickPart(Reports(u, c), Reports(h, c), Reports(w, c), Reports(l, c), c, x);
  }

  /** Of four parts, one per category, only c's may be non-empty: the concatenation is c's part. */
  lemma PickPart(u: seq<nat>, h: seq<nat>, w: seq<nat>, l: seq<nat>, c: Category, x: seq<nat>)
    requires u == if c == Unmetered then x else []
    requires h == if c == HighBandwidth then x else []
    requires w == if c == Wifi then x else []
    requires l == if c == Cellular then x else []
    ensures u + h + w + l == x
  {
    match c {
      case Unmetered => assert u + h + w + l == x + [] + [] + [];
      case HighBandwidth => assert u + h + w + l == [] + x + [] + [];
      case Wifi => assert u + h + w + l == [] + [] + x + [];
      case Cellular => assert u + h + w + l == [] + [] + [] + x;
    }
  }

  lemma ReportsOfStep(t: map<int, Request>, d: Category, r: Request, c: Category)
    ensures Reports(Admit(t, d, r).emitted, c) ==
            if d == c && r.id !in t && Matches(d, r) then [|t| + 1] else []
  {
    if r.id !in t && Matches(d, r) {
      ReportsOfOne(Admit(t, d, r).emitted[0], c);
    }
  }

  lemma EvictSendsAtMostOne(t: map<int, Request>, c: Category, id: int)
    ensures |Evict(t, c, id).emitted| <= 1 && RanksWithin(Evict(t, c, id).emitted, c.Rank(), c.Rank() + 1)
  {
  }

  /** What one remove sends is what its four tests send, in the fixed category order. */
  lemma RemoveEmitted(s: Trackers, r: Request)
    ensures Remove(s, r).emitted == Evict(s.unmetered, Unmetered, r.id).emitted + Evict(s.highBandwidth, HighBandwidth, r.id).emitted
                                    + Evict(s.wifi, Wifi, r.id).emitted + Evict(s.cellular, Cellular, r.id).emitted
  {
  }

  /** One remove sends at most four notifications, at most one per category, in category order. */
  lemma RemoveInOrder(s: Trackers, r: Request)
    ensures |Remove(s, r).emitted| <= 4 && InCategoryOrder(Remove(s, r).emitted)
  {
    RemoveEmitted(s, r);
    EvictSendsAtMostOne(s.unmetered, Unmetered, r.id);
    EvictSendsAtMostOne(s.highBandwidth, HighBandwidth, r.id);
    EvictSendsAtMostOne(s.wifi, Wifi, r.id);
    EvictSendsAtMostOne(s.cellular, Cellular, r.id);
    InOrderFour(Evict(s.unmetered, Unmetered, r.id).emitted, Evict(s.highBandwidth, HighBandwidth, r.id).emitted,
                Evict(s.wifi, Wifi, r.id).emitted, Evict(s.cellular, Cellular, r.id).emitted);
  }

  /** Each tracker changes only through its own category's test. */
  lemma RemovePerCategory(s: Trackers, r: Request, c: Category)
    ensures Remove(s, r).trackers.Get(c) == Evict(s.Get(c), c, r.id).tracker
  {
  }

  lemma EvictDeletes(t: map<int, Request>, c: Category, id: int)
    ensures Evict(t, c, id).tracker == t - {id}
    ensures id in t ==> |t - {id}| == |t| - 1
  {
    assert (t - {id}).Keys == t.Keys - {id};
  }

  /** Remove deletes the id from exactly the trackers that hold it and leaves every other entry. */
  lemma RemoveDeletes(s: Trackers, r: Request, c: Category)
    ensures Remove(s, r).trackers.Get(c) == s.Get(c) - {r.id}
    ensures r.id !in Remove(s, r).trackers.Get(c)
    ensures r.id in s.Get(c) ==> |Remove(s, r).trackers.Get(c)| == |s.Get(c)| - 1
  {
    RemovePerCategory(s, r, c);
    EvictDeletes(s.Get(c), c, r.id);
  }

  lemma ReportsOfEvict(t: map<int, Request>, d: Category, id: int, c: Category)
    ensures Reports(Evict(t, d, id).emitted, c) == if d == c && id in t then [|t| - 1] else []
  {
    if id in t {
      EvictDeletes(t, d, id);
      ReportsOfOne(Evict(t, d, id).emitted[0], c);
    }
  }

  /** What remove block d reports about c: nothing unless d is c, and then what c's own block reports. */
  lemma ReportsOfEvictAt(s: Trackers, id: int, d: Category, c: Category)
    ensures Reports(Evict(s.Get(d), d, id).emitted, c) ==
            if d == c then (if id in s.Get(c) then [|s.Get(c)| - 1] else []) else []
  {
    ReportsOfEvict(s.Get(d), d, id, c);
  }

  /** Remove notifies category c exactly once, with the size decreased by one, iff c's tracker held the id. */
  lemma RemoveReports(s: Trackers, r: Request, c: Category)
    ensures Reports(Remove(s, r).emitted, c) ==
            if r.id in s.Get(c) then [|s.Get(c)| - 1] else []
  {
    ReportsOfEvictAt(s, r.id, Unmetered, c);
    ReportsOfEvictAt(s, r.id, HighBandwidth, c);
    ReportsOfEvictAt(s, r.id, Wifi, c);
    ReportsOfEvictAt(s, r.id, Cellular, c);
    CombineReports(Evict(s.unmetered, Unmetered, r.id).emitted, Evict(s.highBandwidth, HighBandwidth, r.id).emitted,
                   Evict(s.wifi, Wifi, r.id).emitted, Evict(s.cellular, Cellular, r.id).emitted,
                   c, if r.id in s.Get(c) then [|s.Get(c)| - 1] else []);
  }

  /** Removing an id that no tracker holds changes nothing and notifies nobody. */
  lemma RemoveUnknownIsNoOp(s: Trackers, r: Request)
    requires forall c :: r.id !in s.Get(c)
    ensures Remove(s, r) == Outcome(s, [])
  {
    assert r.id !in s.Get(Unmetered) && r.id !in s.Get(HighBandwidth);
    assert r.id !in s.Get(Wifi) && r.id !in s.Get(Cellular);
    assert s.unmetered - {r.id} == s.unmetered && s.highBandwidth - {r.id} == s.highBandwidth;
    assert s.wifi - {r.id} == s.wifi && s.cellular - {r.id} == s.cellular;
  }

  /** One category's add block keeps the trackers well formed and each size equal to the count last reported for it. */
  lemma AdmitKeepsValid(s: Trackers, c: Category, r: Request, log: seq<Notification>)
    requires WellFormed(s) && Reported(s, log)
    ensures WellFormed(s.With(c, Admit(s.Get(c), c, r).tracker))
    ensures Reported(s.With(c, Admit(s.Get(c), c, r).tracker), log + Admit(s.Get(c), c, r).emitted)
  {
    forall d ensures |s.With(c, Admit(s.Get(c), c, r).tracker).Get(d)| == LastReported(log + Admit(s.Get(c), c, r).emitted, d) {
      AdmitReportedAt(s, c, r, log, d);
    }
    AdmitAdmits(s.Get(c), c, r);
    forall k | k in Admit(s.Get(c), c, r).tracker
      ensures Admit(s.Get(c), c, r).tracker[k].id == k && Matches(c, Admit(s.Get(c), c, r).tracker[k])
    {
      if k != r.id {
        assert k in Admit(s.Get(c), c, r).tracker - {r.id};
      }
    }
  }

  lemma AdmitReportedAt(s: Trackers, c: Category, r: Request, log: seq<Notification>, d: Category)
    requires |s.Get(d)| == LastReported(log, d)
    ensures |s.With(c, Admit(s.Get(c), c, r).tracker).Get(d)| == LastReported(log + Admit(s.Get(c), c, r).emitted, d)
  {
    AdmitAdmits(s.Get(c), c, r);
    ReportsOfStep(s.Get(c), c, r, d);
    LastReportedAppend(log, Admit(s.Get(c), c, r).emitted, d);
  }

  /** One category's remove block keeps the trackers well formed and each size equal to the count last reported for it. */
  lemma EvictKeepsValid(s: Trackers, c: Category, id: int, log: seq<Notification>)
    requires WellFormed(s) && Reported(s, log)
    ensures WellFormed(s.With(c, Evict(s.Get(c), c, id).tracker))
    ensures Reported(s.With(c, Evict(s.Get(c), c, id).tracker), log + Evict(s.Get(c), c, id).emitted)
  {
    EvictDeletes(s.Get(c), c, id);
    forall d ensures |s.With(c, Evict(s.Get(c), c, id).tracker).Get(d)| == LastReported(log + Evict(s.Get(c), c, id).emitted, d) {
      ReportsOfEvict(s.Get(c), c, id, d);
      LastReportedAppend(log, Evict(s.Get(c), c, id).emitted, d);
    }
  }

  /** Adding keeps every tracker's size equal to the count last reported for it. */
  lemma AddKeepsReported(s: Trackers, r: Request, log: seq<Notification>)
    requires Reported(s, log)
    ensures Reported(Add(s, r).trackers, log + Add(s, r).emitted)
  {
    forall c ensures |Add(s, r).trackers.Get(c)| == LastReported(log + Add(s, r).emitted, c) {
      AddAdmits(s, r, c);
      AddReports(s, r, c);
      LastReportedAppend(log, Add(s, r).emitted, c);
    }
  }

  lemma RemoveKeepsReportedAt(s: Trackers, r: Request, log: seq<Notification>, c: Category)
    requires |s.Get(c)| == LastReported(log, c)
    ensures |Remove(s, r).trackers.Get(c)| == LastReported(log + Remove(s, r).emitted, c)
  {
    RemoveReports(s, r, c);
    RemoveDeletes(s, r, c);
    LastReportedAppend(log, Remove(s, r).emitted, c);
  }

  /** Removing keeps every tracker's size equal to the count last reported for it. */
  lemma RemoveKeepsReported(s: Trackers, r: Request, log: seq<Notification>)
    requires Reported(s, log)
    ensures Reported(Remove(s, r).trackers, log + Remove(s, r).emitted)
  {
    forall c ensures |Remove(s, r).trackers.Get(c)| == LastReported(log + Remove(s, r).emitted, c) {
      RemoveKeepsReportedAt(s, r, log, c);
    }
  }

  /** A second add of the same request changes nothing and notifies nobody. */
  lemma AddIsIdempotent(s: Trackers, r: Request)
    ensures Add(Add(s, r).trackers, r) == Outcome(Add(s, r).trackers, [])
  {
    var s' := Add(s, r).trackers;
    forall c ensures Admit(s'.Get(c), c, r) == Step(s'.Get(c), []) {
      AddAdmits(s, r, c);
    }
  }

  lemma RemoveUndoesAddAt(s: Trackers, r: Request, q: Request, c: Category)
    requires r.id !in s.Get(c) && q.id == r.id
    ensures Remove(Add(s, r).trackers, q).trackers.Get(c) == s.Get(c)
  {
    AddAdmits(s, r, c);
    RemoveDeletes(Add(s, r).trackers, q, c);
    assert s.Get(c) - {r.id} == s.Get(c);
  }

  /** Removing an id admitted by an add into trackers that did not hold it restores the trackers. */
  lemma RemoveUndoesAdd(s: Trackers, r: Request, q: Request)
    requires forall c :: r.id !in s.Get(c)
    requires q.id == r.id
    ensures Remove(Add(s, r).trackers, q).trackers == s
  {
    var s' := Remove(Add(s, r).trackers, q).trackers;
    RemoveUndoesAddAt(s, r, q, Unmetered);
    RemoveUndoesAddAt(s, r, q, HighBandwidth);
    RemoveUndoesAddAt(s, r, q, Wifi);
    RemoveUndoesAddAt(s, r, q, Cellular);
    assert s'.unmetered == s.unmetered && s'.highBandwidth == s.highBandwidth;
    assert s'.wifi == s.wifi && s'.cellular == s.cellular;
  }

  /** Removal reads only the id: requests with the same id remove the same entries and send the same notifications. */
  lemma RemoveIgnoresCapabilities(s: Trackers, r: Request, q: Request)
    requires r.id == q.id
    ensures Remove(s, r) == Remove(s, q)
  {
  }
}
