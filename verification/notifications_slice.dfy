/** The notifications slice: the list of notifications on screen. */
module NotificationsSlice {
  import opened Js
  import opened Seqs
  import opened Notify

  /** A stored notification. `id` is `Date.now() + Math.random()`, a
      millisecond count plus a fraction in [0, 1). */
  datatype Notification = Notification(id: real, payload: Payload, timestamp: int)

  /** `addNotification`: appends the payload stamped with a generated id and
      the current time. An `id` the payload carries itself overrides the
      generated one (it is spread after it); the timestamp is always the
      reducer's own. The clock and the random source are parameters. */
  function AddNotification(s: seq<Notification>, p: Payload, payloadId: Option<real>, now: int, random: real): (r: seq<Notification>)
    requires 0.0 <= random < 1.0
    ensures |r| == |s| + 1 && r[..|s|] == s
    ensures r[|s|].payload == p && r[|s|].timestamp == now
    ensures r[|s|].id == if payloadId.Some? then payloadId.value else now as real + random
  {
    s + [Notification(payloadId.GetOr(now as real + random), p, now)]
  }

  function HasOtherId(id: real): Notification -> bool { (n: Notification) => n.id != id }

  /** `removeNotification`: drops every notification with that id. */
  function RemoveNotification(s: seq<Notification>, id: real): (r: seq<Notification>)
    ensures IsSubseq(r, s)
    ensures forall n :: n in r <==> n in s && n.id != id
    ensures forall n :: multiset(r)[n] == if n.id != id then multiset(s)[n] else 0
  {
    KeepIsSubseq(s, HasOtherId(id));
    KeepCount(s, HasOtherId(id));
    Keep(s, HasOtherId(id))
  }

  /** `clearAllNotifications`. */
  function ClearAll(s: seq<Notification>): (r: seq<Notification>)
    ensures |r| == 0
  {
    []
  }

  /** Every id was issued strictly before the millisecond `now`. */
  predicate IssuedBefore(s: seq<Notification>, now: int) {
    forall i :: 0 <= i < |s| ==> s[i].id < now as real
  }

  /** While the clock moves on between additions, ids stay unique: the new
      id differs from all earlier ones, and the list is again issued before
      any later millisecond. */
  lemma AddedIdFresh(s: seq<Notification>, p: Payload, now: int, later: int, random: real)
    requires 0.0 <= random < 1.0 && IssuedBefore(s, now) && later > now
    ensures forall i :: 0 <= i < |s| ==> s[i].id != now as real + random
    ensures IssuedBefore(AddNotification(s, p, None, now, random), later)
  {
  }

  /** Removing an id nobody carries changes nothing; removing twice is
      removing once. */
  lemma {:induction false} RemoveAbsentId(s: seq<Notification>, id: real)
    ensures (forall i :: 0 <= i < |s| ==> s[i].id != id) ==> RemoveNotification(s, id) == s
    ensures RemoveNotification(RemoveNotification(s, id), id) == RemoveNotification(s, id)
  {
    if forall i :: 0 <= i < |s| ==> s[i].id != id {
      KeepAll(s, HasOtherId(id));
    }
    var r := RemoveNotification(s, id);
    assert forall i :: 0 <= i < |r| ==> r[i] in r;
    KeepAll(r, HasOtherId(id));
  }

  /** Dismissing a notification just added restores the list, provided ids
      were issued in earlier milliseconds. */
  lemma {:induction false} RemoveUndoesAdd(s: seq<Notification>, p: Payload, now: int, random: real)
    requires 0.0 <= random < 1.0 && IssuedBefore(s, now)
    ensures RemoveNotification(AddNotification(s, p, None, now, random), now as real + random) == s
  {
    var id := now as real + random;
    KeepConcat(s, [Notification(id, p, now)], HasOtherId(id));
    KeepAll(s, HasOtherId(id));
    assert Keep([Notification(id, p, now)], HasOtherId(id)) == [];
    assert s + [] == s;
  }
}
