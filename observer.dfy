/**
 The observer object: four trackers updated in place by the add and remove
 handlers, the listener's callbacks recorded in the order they are made, and the
 read-only diagnostic dump.
 */
module Observer {
  import opened Requests
  import opened Trackers

  /** What the dump shows for one category: the outstanding count and the tracked requests. */
  datatype Section = Section(category: Category, outstanding: nat, listed: seq<Request>)

  /** The listing names every entry of the tracker, and nothing else, exactly once. */
  ghost predicate ListsExactly(listing: seq<Request>, t: map<int, Request>) {
    && |listing| == |t|
    && (forall i :: 0 <= i < |listing| ==> listing[i].id in t && t[listing[i].id] == listing[i])
    && (forall i, j :: 0 <= i < j < |listing| ==> listing[i].id != listing[j].id)
    && (forall k :: k in t ==> t[k] in listing)
  }

  lemma HasKey(keys: set<int>)
    requires keys != {}
    ensures exists k :: k in keys
  {
    if forall k :: k !in keys {
      assert false;
    }
  }

  /** The walk over one tracker in the dump: every stored request, once each, in no promised order. */
  method ListTracker(t: map<int, Request>) returns (listing: seq<Request>)
    requires KeyedById(t)
    ensures ListsExactly(listing, t)
  {
    listing := [];
    var pending := t.Keys;
    while pending != {}
      invariant pending <= t.Keys
      invariant |listing| + |pending| == |t|
      invariant forall i :: 0 <= i < |listing| ==>
        listing[i].id in t && listing[i].id !in pending && t[listing[i].id] == listing[i]
      invariant forall i, j :: 0 <= i < j < |listing| ==> listing[i].id != listing[j].id
      invariant forall k :: k in t && k !in pending ==> t[k] in listing
      decreases pending
    {
      HasKey(pending);
      var k :| k in pending;
      listing := listing + [t[k]];
      pending := pending - {k};
    }
  }

  lemma AppendFour(a: seq<Notification>, u: seq<Notification>, h: seq<Notification>, w: seq<Notification>, l: seq<Notification>)
    ensures a + u + h + w + l == a + (u + h + w + l)
  {
  }

  class WearNetworkObserver {
    var unmeteredRequests: map<int, Request>
    var highBandwidthRequests: map<int, Request>
    var wifiRequests: map<int, Request>
    var cellularRequests: map<int, Request>
    /** Every listener callback made so far, oldest first. */
    var notifications: seq<Notification>

    function Snapshot(): Trackers
      reads this
    {
      Trackers(unmeteredRequests, highBandwidthRequests, wifiRequests, cellularRequests)
    }

    /** Entries sit under their own id and match their category; each size is the count last reported. */
    ghost predicate Valid()
      reads this
    {
      WellFormed(Snapshot()) && Reported(Snapshot(), notifications)
    }

    constructor ()
      ensures Valid()
      ensures Snapshot() == Empty() && notifications == []
    {
      unmeteredRequests := map[];
      highBandwidthRequests := map[];
      wifiRequests := map[];
      cellularRequests := map[];
      notifications := [];
    }

    /** One category's block of the add handler: store the request if its id is new there and it
        matches, then report the tracker's size. */
    method AdmitTo(c: Category, req: Request)
      requires Valid()
      modifies this
      ensures Valid()
      ensures Snapshot() == old(Snapshot()).With(c, Admit(old(Snapshot().Get(c)), c, req).tracker)
      ensures notifications == old(notifications) + Admit(old(Snapshot().Get(c)), c, req).emitted
    {
      AdmitKeepsValid(Snapshot(), c, req, notifications);
      var t := Snapshot().Get(c);
      if req.id !in t && Matches(c, req) {
        t := t[req.id := req];
        match c {
          case Unmetered => unmeteredRequests := t;
          case HighBandwidth => highBandwidthRequests := t;
          case Wifi => wifiRequests := t;
          case Cellular => cellularRequests := t;
        }
        notifications := notifications + [Notification(c, |t|)];
      } else {
        assert Snapshot().With(c, t) == Snapshot();
      }
    }

    /** One category's block of the remove handler: if the tracker holds the id, drop it and report
        the tracker's size. */
    method EvictFrom(c: Category, id: int)
      requires Valid()
      modifies this
      ensures Valid()
      ensures Snapshot() == old(Snapshot()).With(c, Evict(old(Snapshot().Get(c)), c, id).tracker)
      ensures notifications == old(notifications) + Evict(old(Snapshot().Get(c)), c, id).emitted
    {
      EvictKeepsValid(Snapshot(), c, id, notifications);
      var t := Snapshot().Get(c);
      EvictDeletes(t, c, id);
      if id in t {
        t := t - {id};
        match c {
          case Unmetered => unmeteredRequests := t;
          case HighBandwidth => highBandwidthRequests := t;
          case Wifi => wifiRequests := t;
          case Cellular => cellularRequests := t;
        }
        notifications := notifications + [Notification(c, |t|)];
      } else {
        assert Snapshot().With(c, t) == Snapshot();
      }
    }

    /** A request entered the arbitration: admit it to every category it newly matches, in the fixed order. */
    method HandleAddRequest(req: Request)
      requires Valid()
      modifies this
      ensures Valid()
      ensures Snapshot() == Add(old(Snapshot()), req).trackers
      ensures notifications == old(notifications) + Add(old(Snapshot()), req).emitted
    {
      ghost var s0, log0 := Snapshot(), notifications;
      ghost var u, h, w, l := Admit(s0.unmetered, Unmetered, req), Admit(s0.highBandwidth, HighBandwidth, req),
                              Admit(s0.wifi, Wifi, req), Admit(s0.cellular, Cellular, req);
      AdmitTo(Unmetered, req);
      AdmitTo(HighBandwidth, req);
      AdmitTo(Wifi, req);
      AdmitTo(Cellular, req);
      AppendFour(log0, u.emitted, h.emitted, w.emitted, l.emitted);
    }

    /** A request left the arbitration: drop its id from every tracker that holds it, in the fixed order. */
    method HandleRemoveRequest(req: Request)
      requires Valid()
      modifies this
      ensures Valid()
      ensures Snapshot() == Remove(old(Snapshot()), req).trackers
      ensures notifications == old(notifications) + Remove(old(Snapshot()), req).emitted
    {
      ghost var s0, log0 := Snapshot(), notifications;
      ghost var u, h, w, l := Evict(s0.unmetered, Unmetered, req.id), Evict(s0.highBandwidth, HighBandwidth, req.id),
                              Evict(s0.wifi, Wifi, req.id), Evict(s0.cellular, Cellular, req.id);
      EvictFrom(Unmetered, req.id);
      EvictFrom(HighBandwidth, req.id);
      EvictFrom(Wifi, req.id);
      EvictFrom(Cellular, req.id);
      AppendFour(log0, u.emitted, h.emitted, w.emitted, l.emitted);
    }

    /** One category's block of the dump: the tracker's size, which is the count last reported for it,
        and every request it holds. */
    method DumpSection(c: Category) returns (section: Section)
      requires Valid()
      ensures section.category == c
      ensures section.outstanding == |Snapshot().Get(c)| == LastReported(notifications, c)
      ensures ListsExactly(section.listed, Snapshot().Get(c))
    {
      var t := Snapshot().Get(c);
      var listed := ListTracker(t);
      section := Section(c, |t|, listed);
    }

    /** The diagnostic report: for each category, in the fixed order, its size and its tracked requests. */
    method Dump() returns (report: seq<Section>)
      requires Valid()
      ensures |report| == 4
      ensures forall i :: 0 <= i < 4 ==> report[i].category == CategoryOrder[i]
      ensures forall i :: 0 <= i < 4 ==>
        && report[i].outstanding == |Snapshot().Get(report[i].category)|
        && report[i].outstanding == LastReported(notifications, report[i].category)
        && ListsExactly(report[i].listed, Snapshot().Get(report[i].category))
    {
      var unmetered := DumpSection(Unmetered);
      var highBandwidth := DumpSection(HighBandwidth);
      var wifi := DumpSection(Wifi);
      var cellular := DumpSection(Cellular);
      report := [unmetered, highBandwidth, wifi, cellular];
    }
  }
}
