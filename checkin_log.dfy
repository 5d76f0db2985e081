/**
 * The check-in event log as the check-in endpoints read and write it.
 *
 * Two collaborators of the endpoints are not part of this model and are given
 * here by the effect the endpoints rely on, which is an assumption of the model:
 *  - `get_unexpired_checkins(tournament, key)` yields the tournament's events
 *    whose time is at or after `now` minus the window preference `key`, read
 *    in hours;
 *  - `CheckInEventConsumer.receive_json(message)` records one new event, stamped
 *    `now`, per barcode of a message whose status is true, and deletes the
 *    unexpired events of the message's barcodes when the status is false.
 */
module CheckinLog {
  import opened Outcomes
  import opened Seqs

  type Barcode = string

  const SecondsPerHour: int := 3600

  /** One recorded check-in of the identifier with this barcode, at `time` (in seconds). */
  datatype Event = Event(barcode: Barcode, time: int)

  /** The two identifier models, named by their `instance_attr`. */
  datatype IdentifierKind = PersonIdentifier | VenueIdentifier

  /** The dictionary `broadcast_checkin` hands to the consumer. */
  datatype CheckinMessage = CheckinMessage(barcodes: seq<Barcode>, status: bool, kind: IdentifierKind, componentId: Option<string>)

  /** The earliest event time that is still unexpired at `now` under a window of `windowHours`. */
  function Cutoff(now: int, windowHours: nat): (c: int)
    ensures c <= now
    ensures windowHours > 0 ==> c < now
  {
    now - windowHours * SecondsPerHour
  }

  /** `Event.time >= cutoff`, the `time__gte` condition of the unexpired-events query. */
  predicate Unexpired(e: Event, cutoff: int) {
    e.time >= cutoff
  }

  /** Whether some unexpired event of the identifier with barcode `b` is in the log. */
  function CheckedIn(events: seq<Event>, b: Barcode, cutoff: int): (r: bool)
    ensures r <==> exists e :: e in events && e.barcode == b && Unexpired(e, cutoff)
  {
    if events == [] then false
    else (events[0].barcode == b && Unexpired(events[0], cutoff)) || CheckedIn(events[1..], b, cutoff)
  }

  /** One new event per barcode, all stamped `now`. */
  function Stamped(barcodes: seq<Barcode>, now: int): (r: seq<Event>)
    ensures |r| == |barcodes|
    ensures forall e :: e in r <==> e.barcode in barcodes && e.time == now
  {
    if barcodes == [] then [] else [Event(barcodes[0], now)] + Stamped(barcodes[1..], now)
  }

  /** Keeps the events that a check-out of `barcodes` leaves in place. */
  function Surviving(barcodes: seq<Barcode>, cutoff: int): Event -> bool {
    (e: Event) => !(e.barcode in barcodes && Unexpired(e, cutoff))
  }

  /**
   * The assumed effect of the consumer on the log. Afterwards every barcode of
   * the message has exactly the message's status and every other barcode keeps
   * the status it had. Every event it adds belongs to a barcode of the message.
   */
  function Consume(events: seq<Event>, message: CheckinMessage, now: int, windowHours: nat): (r: seq<Event>)
    ensures forall b :: CheckedIn(r, b, Cutoff(now, windowHours)) <==>
      if b in message.barcodes then message.status else CheckedIn(events, b, Cutoff(now, windowHours))
    ensures forall e :: e in r ==> e in events || e.barcode in message.barcodes
  {
    if message.status then
      var stamped := Stamped(message.barcodes, now);
      assert forall b :: CheckedIn(events + stamped, b, Cutoff(now, windowHours)) <==>
        CheckedIn(events, b, Cutoff(now, windowHours)) || CheckedIn(stamped, b, Cutoff(now, windowHours)) by {
        forall b { CheckedInAppend(events, stamped, b, Cutoff(now, windowHours)); }
      }
      assert forall b :: b in message.barcodes ==> Event(b, now) in stamped;
      events + stamped
    else Filter(Surviving(message.barcodes, Cutoff(now, windowHours)), events)
  }

  /** A barcode is checked in on a joined log when it is on one of the parts. */
  lemma CheckedInAppend(s: seq<Event>, t: seq<Event>, b: Barcode, cutoff: int)
    ensures CheckedIn(s + t, b, cutoff) <==> CheckedIn(s, b, cutoff) || CheckedIn(t, b, cutoff)
  {
    if CheckedIn(s + t, b, cutoff) {
      var e :| e in s + t && e.barcode == b && Unexpired(e, cutoff);
      assert e in s || e in t;
    }
  }

  /** An unexpired event stays unexpired against any earlier cutoff. */
  lemma {:induction false} CheckedInAntitone(events: seq<Event>, b: Barcode, early: int, late: int)
    requires early <= late
    ensures CheckedIn(events, b, late) ==> CheckedIn(events, b, early)
  {
    if events != [] {
      CheckedInAntitone(events[1..], b, early, late);
    }
  }

  /**
   * A check-in recorded at `t`, for an identifier with no later events, is seen
   * up to and including `t` plus the window, and is expired one second after.
   */
  lemma CheckinExpires(events: seq<Event>, message: CheckinMessage, t: int, windowHours: nat)
    requires message.status && |message.barcodes| == 1
    requires forall e :: e in events && e.barcode == message.barcodes[0] ==> e.time <= t
    ensures CheckedIn(Consume(events, message, t, windowHours), message.barcodes[0],
      Cutoff(t + windowHours * SecondsPerHour, windowHours))
    ensures !CheckedIn(Consume(events, message, t, windowHours), message.barcodes[0],
      Cutoff(t + windowHours * SecondsPerHour + 1, windowHours))
  {
    var b := message.barcodes[0];
    var after := Consume(events, message, t, windowHours);
    assert Event(b, t) in after;
    forall e | e in after && e.barcode == b
      ensures e.time <= t
    {
      if e !in events {
        assert e in Stamped(message.barcodes, t);
      }
    }
  }

  /**
   * Two toggles of one barcode, the second no later than one window after the
   * first: the second answers the status the first read, and leaves it in place.
   */
  lemma ToggleTwiceRestores(events: seq<Event>, b: Barcode, kind: IdentifierKind, now: int, later: int, windowHours: nat)
    requires now <= later <= now + windowHours * SecondsPerHour
    ensures
      var original := CheckedIn(events, b, Cutoff(now, windowHours));
      var first := Consume(events, CheckinMessage([b], !original, kind, None), now, windowHours);
      var second := !CheckedIn(first, b, Cutoff(later, windowHours));
      var last := Consume(first, CheckinMessage([b], second, kind, None), later, windowHours);
      second == original && CheckedIn(last, b, Cutoff(later, windowHours)) == original
  {
    var original := CheckedIn(events, b, Cutoff(now, windowHours));
    var first := Consume(events, CheckinMessage([b], !original, kind, None), now, windowHours);
    if original {
      assert !CheckedIn(first, b, Cutoff(now, windowHours));
      CheckedInAntitone(first, b, Cutoff(now, windowHours), Cutoff(later, windowHours));
    } else {
      assert first == events + Stamped([b], now);
      assert Event(b, now) in first;
    }
  }
}
