/**
 * The administrator check-in endpoints (`BaseCheckinsView` and its adjudicator,
 * speaker and venue subclasses): look an object up by primary key, then read,
 * set, clear or toggle whether its identifier is checked in, or create its
 * identifier. Every answer has the three fields `object`, `barcode`, `checked`.
 */
module CheckinViews {
  import opened Outcomes
  import opened CheckinLog
  import opened Maps

  /** The three subclasses; each fixes a model, a detail view and a window preference. */
  datatype Kind = AdjudicatorCheckins | SpeakerCheckins | VenueCheckins

  /** The two tournament preferences that give a check-in window, in hours. */
  datatype WindowKey = CheckinWindowPeople | CheckinWindowVenues

  /** The part of a tournament the check-in endpoints read. */
  datatype Tournament = Tournament(slug: string, checkinWindowPeople: nat, checkinWindowVenues: nat)

  /** `window_preference_pref` of each subclass: people share one window, venues have their own. */
  function WindowPreference(kind: Kind): (key: WindowKey)
    ensures key == CheckinWindowVenues <==> kind == VenueCheckins
  {
    match kind
    case AdjudicatorCheckins => CheckinWindowPeople
    case SpeakerCheckins => CheckinWindowPeople
    case VenueCheckins => CheckinWindowVenues
  }

  /** `tournament.pref(key)`. */
  function Pref(tournament: Tournament, key: WindowKey): nat {
    match key
    case CheckinWindowPeople => tournament.checkinWindowPeople
    case CheckinWindowVenues => tournament.checkinWindowVenues
  }

  /** `object_api_view` of each subclass. */
  function ObjectApiView(kind: Kind): string {
    match kind
    case AdjudicatorCheckins => "api-adjudicator-detail"
    case SpeakerCheckins => "api-speaker-detail"
    case VenueCheckins => "api-venue-detail"
  }

  /** The identifier model of each subclass's objects. */
  function IdentifierKindOf(kind: Kind): IdentifierKind {
    if kind == VenueCheckins then VenueIdentifier else PersonIdentifier
  }

  /** The `object` field: the URL `reverse` builds, kept as the parts it is built from. */
  datatype ObjectRef = ObjectRef(view: string, tournamentSlug: string, pk: Pk)

  /** `get_response_dict`: exactly the keys `object` (here `objectRef`), `barcode` and `checked`. */
  datatype Response = Response(objectRef: ObjectRef, barcode: Barcode, checked: bool)

  datatype NotFoundReason = NoMatch | NoIdentifier

  /** `Http404` becomes a 404 answer; any other exception is a server error. */
  datatype Failure = NotFound(reason: NotFoundReason) | ServerError(cause: Raised)

  /** What `broadcast_checkin` is handed: a checkable object, or (as `patch` does) its identifier. */
  datatype BroadcastTarget = CheckableTarget(pk: Pk) | IdentifierTarget(barcode: Barcode)

  /** No two objects share a barcode (barcodes are unique in the identifier table). */
  ghost predicate BarcodesUnique(identifiers: map<Pk, Barcode>) {
    forall p, q :: p in identifiers && q in identifiers && p != q ==> identifiers[p] != identifiers[q]
  }

  /** Every identifier has a non-empty barcode. */
  ghost predicate BarcodesNonEmpty(identifiers: map<Pk, Barcode>) {
    forall p :: p in identifiers ==> identifiers[p] != ""
  }

  /**
   * One check-in endpoint of one tournament. `objects` is its queryset (the
   * kind's objects in the tournament); `identifiers` maps an object to the
   * barcode of its identifier, if it has one; `events` is the check-in log.
   */
  class CheckinsView {
    const kind: Kind
    const tournament: Tournament
    const objects: set<Pk>
    var identifiers: map<Pk, Barcode>
    var events: seq<Event>

    /** Barcodes are unique and non-empty, and every logged event belongs to an existing identifier. */
    ghost predicate Valid()
      reads this
    {
      && BarcodesUnique(identifiers)
      && BarcodesNonEmpty(identifiers)
      && forall e :: e in events ==> e.barcode in identifiers.Values
    }

    constructor (kind: Kind, tournament: Tournament, objects: set<Pk>, identifiers: map<Pk, Barcode>, events: seq<Event>)
      requires BarcodesUnique(identifiers)
      requires BarcodesNonEmpty(identifiers)
      requires forall e :: e in events ==> e.barcode in identifiers.Values
      ensures Valid()
      ensures this.kind == kind && this.tournament == tournament && this.objects == objects
      ensures this.identifiers == identifiers && this.events == events
    {
      this.kind := kind;
      this.tournament := tournament;
      this.objects := objects;
      this.identifiers := identifiers;
      this.events := events;
    }

    /** The window, in hours, that this kind's check-ins stay unexpired. */
    function WindowHours(): nat {
      Pref(tournament, WindowPreference(kind))
    }

    function ObjectFor(pk: Pk): ObjectRef {
      ObjectRef(ObjectApiView(kind), tournament.slug, pk)
    }

    /** Whether the object's identifier has an unexpired check-in at `now`. */
    function Status(pk: Pk, now: int): bool
      reads this
      requires pk in identifiers
    {
      CheckedIn(events, identifiers[pk], Cutoff(now, WindowHours()))
    }

    /**
     * `get_object`: a 404 when no object of the queryset has this key, and a
     * 404 when the object has no identifier; otherwise its barcode.
     */
    function GetObject(pk: Pk): (r: Result<Barcode, Failure>)
      reads this
      ensures r.Success? <==> pk in objects && pk in identifiers
      ensures r.Success? ==> r.value == identifiers[pk]
      ensures pk !in objects ==> r == Failure(NotFound(NoMatch))
      ensures pk in objects && pk !in identifiers ==> r == Failure(NotFound(NoIdentifier))
    {
      if pk !in objects then Failure(NotFound(NoMatch))
      else if pk !in identifiers then Failure(NotFound(NoIdentifier))
      else Success(identifiers[pk])
    }

    /**
     * `get_barcodes`: the barcode of the target's `checkin_identifier`. An
     * identifier has no `checkin_identifier` of its own, so handing one in
     * raises.
     */
    function GetBarcodes(target: BroadcastTarget): (r: Result<seq<Barcode>, Failure>)
      reads this
      ensures r.Success? <==> target.CheckableTarget? && target.pk in identifiers
      ensures r.Success? ==> r.value == [identifiers[target.pk]]
    {
      match target
      case CheckableTarget(pk) =>
        if pk in identifiers then Success([identifiers[pk]]) else Failure(ServerError(AttributeError))
      case IdentifierTarget(_) => Failure(ServerError(AttributeError))
    }

    /** The message `broadcast_checkin` sends for a list of barcodes. */
    function Message(barcodes: seq<Barcode>, status: bool): CheckinMessage {
      CheckinMessage(barcodes, status, IdentifierKindOf(kind), None)
    }

    /**
     * `broadcast_checkin`: builds the message for the target and hands it to
     * the consumer, whose effect on the log is `Consume`. If the barcodes
     * cannot be read, the exception leaves the log as it was.
     */
    method BroadcastCheckin(target: BroadcastTarget, status: bool, now: int) returns (r: Result<seq<Barcode>, Failure>)
      modifies this`events
      ensures r == GetBarcodes(target)
      ensures r.Failure? ==> events == old(events)
      ensures r.Success? ==> events == Consume(old(events), Message(r.value, status), now, WindowHours())
    {
      r := GetBarcodes(target);
      if r.Success? {
        events := Consume(events, Message(r.value, status), now, WindowHours());
      }
    }

    /** `get`: whether an unexpired check-in exists for the object's identifier. */
    method Get(pk: Pk, now: int) returns (r: Result<Response, Failure>)
      ensures r.Success? <==> pk in objects && pk in identifiers
      ensures r.Failure? ==> r.error == GetObject(pk).error
      ensures r.Success? ==> r.value.objectRef == ObjectFor(pk) && r.value.barcode == identifiers[pk]
      ensures r.Success? ==> (r.value.checked <==>
        exists e :: e in events && e.barcode == identifiers[pk] && e.time >= Cutoff(now, WindowHours()))
    {
      var found := GetObject(pk);
      if found.Failure? {
        return Failure(found.error);
      }
      var checked := CheckedIn(events, found.value, Cutoff(now, WindowHours()));
      r := Success(Response(ObjectFor(pk), found.value, checked));
    }

    /** `put`: checks the object in, whatever its status was, and answers `checked` true. */
    method Put(pk: Pk, now: int) returns (r: Result<Response, Failure>)
      requires Valid()
      modifies this`events
      ensures Valid()
      ensures r.Success? <==> pk in objects && pk in identifiers
      ensures r.Failure? ==> r.error == GetObject(pk).error && events == old(events)
      ensures r.Success? ==> r.value == Response(ObjectFor(pk), identifiers[pk], true)
      ensures r.Success? ==> events == Consume(old(events), Message([identifiers[pk]], true), now, WindowHours())
      ensures r.Success? ==> Status(pk, now)
      ensures forall q :: q in identifiers && q != pk ==> Status(q, now) == old(Status(q, now))
    {
      var found := GetObject(pk);
      if found.Failure? {
        return Failure(found.error);
      }
      var sent := BroadcastCheckin(CheckableTarget(pk), true, now);
      r := Success(Response(ObjectFor(pk), found.value, true));
    }

    /** `delete`: checks the object out, whatever its status was, and answers `checked` false. */
    method Delete(pk: Pk, now: int) returns (r: Result<Response, Failure>)
      requires Valid()
      modifies this`events
      ensures Valid()
      ensures r.Success? <==> pk in objects && pk in identifiers
      ensures r.Failure? ==> r.error == GetObject(pk).error && events == old(events)
      ensures r.Success? ==> r.value == Response(ObjectFor(pk), identifiers[pk], false)
      ensures r.Success? ==> events == Consume(old(events), Message([identifiers[pk]], false), now, WindowHours())
      ensures r.Success? ==> !Status(pk, now)
      ensures forall q :: q in identifiers && q != pk ==> Status(q, now) == old(Status(q, now))
    {
      var found := GetObject(pk);
      if found.Failure? {
        return Failure(found.error);
      }
      var sent := BroadcastCheckin(CheckableTarget(pk), false, now);
      r := Success(Response(ObjectFor(pk), found.value, false));
    }

    /**
     * `patch`: reads the status as `get` does, records its negation and answers
     * with it. The object is handed to the broadcast here, as `put` and `delete`
     * do; `PatchAsWritten` models the source line, which hands in the identifier.
     */
    method Patch(pk: Pk, now: int) returns (r: Result<Response, Failure>)
      requires Valid()
      modifies this`events
      ensures Valid()
      ensures r.Success? <==> pk in objects && pk in identifiers
      ensures r.Failure? ==> r.error == GetObject(pk).error && events == old(events)
      ensures r.Success? ==> r.value == Response(ObjectFor(pk), identifiers[pk], !old(Status(pk, now)))
      ensures r.Success? ==> events == Consume(old(events), Message([identifiers[pk]], r.value.checked), now, WindowHours())
      ensures r.Success? ==> Status(pk, now) == r.value.checked
      ensures forall q :: q in identifiers && q != pk ==> Status(q, now) == old(Status(q, now))
    {
      var found := GetObject(pk);
      if found.Failure? {
        return Failure(found.error);
      }
      var check := CheckedIn(events, found.value, Cutoff(now, WindowHours()));
      var sent := BroadcastCheckin(CheckableTarget(pk), !check, now);
      r := Success(Response(ObjectFor(pk), found.value, !check));
    }

    /**
     * `patch` as the source has it: `broadcast_checkin(obj.checkin_identifier, ...)`.
     * Reading the barcodes of an identifier raises, so every found object ends
     * in a server error and the log is left unchanged.
     */
    method PatchAsWritten(pk: Pk, now: int) returns (r: Result<Response, Failure>)
      modifies this`events
      ensures r.Failure?
      ensures r.error == if pk in objects && pk in identifiers then ServerError(AttributeError) else GetObject(pk).error
      ensures events == old(events)
    {
      var found := GetObject(pk);
      if found.Failure? {
        return Failure(found.error);
      }
      var check := CheckedIn(events, found.value, Cutoff(now, WindowHours()));
      var sent := BroadcastCheckin(IdentifierTarget(found.value), !check, now);
      // The exception leaves before the response is built.
      r := Failure(sent.error);
    }

    /**
     * `post`: gives the object an identifier if it has none, drawing the new
     * barcode `newBarcode` (the generator's output: non-empty and unused by any
     * identifier), and answers `checked` false. A new identifier has no events,
     * so it is not checked in at any time. It does not go through `get_object`: a missing
     * object is not a 404 but the `DoesNotExist` raised by `.get()`.
     */
    method Post(pk: Pk, newBarcode: Barcode) returns (r: Result<Response, Failure>)
      requires Valid()
      requires pk in objects && pk !in identifiers ==> newBarcode != "" && newBarcode !in identifiers.Values
      modifies this`identifiers
      ensures Valid()
      ensures identifiers ==
        if pk in objects && pk !in old(identifiers) then old(identifiers)[pk := newBarcode] else old(identifiers)
      ensures r.Success? <==> pk in objects
      ensures r.Failure? ==> r.error == ServerError(DoesNotExist)
      ensures r.Success? ==> r.value == Response(ObjectFor(pk), identifiers[pk], false)
      ensures pk in old(identifiers) ==> identifiers[pk] == old(identifiers)[pk]
      ensures pk in objects && pk !in old(identifiers) ==> identifiers[pk] != "" && forall now :: !Status(pk, now)
    {
      if pk in objects && pk !in identifiers {
        ghost var before := identifiers;
        identifiers := identifiers[pk := newBarcode];
        ValuesGrowByNewKey(before, pk, newBarcode);
      }
      if pk !in objects {
        return Failure(ServerError(DoesNotExist));
      }
      r := Success(Response(ObjectFor(pk), identifiers[pk], false));
    }
  }

  /**
   * A venue that has no identifier yet, with requests sent at one instant and
   * the corrected `patch`: `post` draws the barcode "B1" and answers false,
   * then `get` answers false, `put` true, `patch` false and `delete` false
   * (already checked out).
   */
  method VenueCheckinSequence(tournament: Tournament, pk: Pk, now: int) returns (answers: seq<Result<Response, Failure>>)
    ensures |answers| == 5
    ensures forall i :: 0 <= i < 5 ==>
      && answers[i].Success?
      && answers[i].value.objectRef == ObjectRef("api-venue-detail", tournament.slug, pk)
      && answers[i].value.barcode == "B1"
    ensures !answers[0].value.checked && !answers[1].value.checked && answers[2].value.checked
    ensures !answers[3].value.checked && !answers[4].value.checked
  {
    var view := new CheckinsView(VenueCheckins, tournament, {pk}, map[], []);
    var created := view.Post(pk, "B1");
    var read := view.Get(pk, now);
    var checkedIn := view.Put(pk, now);
    var toggled := view.Patch(pk, now);
    var checkedOut := view.Delete(pk, now);
    answers := [created, read, checkedIn, toggled, checkedOut];
  }
}
