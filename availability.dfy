/** The availability screen of one space (`/availability/:spaceId`): for a
    chosen day it lists the bookings of that space that have not ended yet,
    with placeholder labels where the backend left a nested object out. */
module Availability {
  import opened Common

  const PickDateMessage := "Primero selecciona una fecha"
  const EmptyDayMessage := "No hay reservas para esta fecha."
  const FetchErrorMessage := "Error al obtener disponibilidad"
  const DeletedSpaceLabel := "Espacio eliminado"
  const NoLocationLabel := "Sin ubicación"
  const UnknownUserLabel := "Desconocido"

  datatype SpaceInfo = SpaceInfo(name: Option<string>, location: Option<string>)
  datatype UserInfo = UserInfo(name: Option<string>)

  /** One entry of `GET /spaces/:id/availability/:date`. */
  datatype BookingRecord = BookingRecord(
    space: Option<SpaceInfo>,
    user: Option<UserInfo>,
    startTime: Stamp,
    endTime: Stamp,
    status: string)

  /** A listed booking. */
  datatype Entry = Entry(
    spaceName: string,
    location: string,
    startTime: Stamp,
    endTime: Stamp,
    status: string,
    userName: string)

  /** `obj.space?.name`, `obj.space?.location`, `obj.user?.name`. */
  function SpaceName(o: BookingRecord): Option<string> { if o.space.Some? then o.space.value.name else None }
  function SpaceLocation(o: BookingRecord): Option<string> { if o.space.Some? then o.space.value.location else None }
  function UserName(o: BookingRecord): Option<string> { if o.user.Some? then o.user.value.name else None }

  /** `isUpcoming`: the end parses and is strictly after `now`. The page
      parses with `parseISO` and the reservations list with `new Date`; both
      become a `Stamp`, so this is the same test as
      `MyReservations.IsUpcoming`, applied to an `Entry`. */
  predicate IsUpcoming(e: Entry, now: int)
    ensures e.endTime.Unparsable? ==> !IsUpcoming(e, now)
    ensures e.endTime.At? ==> (IsUpcoming(e, now) <==> now < e.endTime.ms)
  {
    IsAfter(e.endTime, now)
  }

  /** `entry` is what the mapping makes of `o`: each label taken from the
      backend when present and non-empty, else its placeholder. */
  predicate MappedFrom(entry: Entry, o: BookingRecord)
  {
    && entry.spaceName == (if Truthy(SpaceName(o)) then SpaceName(o).value else DeletedSpaceLabel)
    && entry.location == (if Truthy(SpaceLocation(o)) then SpaceLocation(o).value else NoLocationLabel)
    && entry.userName == (if Truthy(UserName(o)) then UserName(o).value else UnknownUserLabel)
    && entry.startTime == o.startTime
    && entry.endTime == o.endTime
    && entry.status == o.status
  }

  function ToEntry(o: BookingRecord): Entry
  {
    Entry(OrElse(SpaceName(o), DeletedSpaceLabel), OrElse(SpaceLocation(o), NoLocationLabel),
          o.startTime, o.endTime, o.status, OrElse(UserName(o), UnknownUserLabel))
  }

  /** `.map(obj => …)`: one entry per record, in order. */
  function ToEntries(data: seq<BookingRecord>): (r: seq<Entry>)
    ensures |r| == |data|
    ensures forall i :: 0 <= i < |data| ==> MappedFrom(r[i], data[i])
  {
    seq(|data|, i requires 0 <= i < |data| => ToEntry(data[i]))
  }

  /** `.filter(isUpcoming)`. */
  function KeepUpcoming(entries: seq<Entry>, now: int): (r: seq<Entry>)
    ensures forall e :: e in r ==> IsUpcoming(e, now) && e in entries
  {
    if entries == [] then []
    else
      assert entries == [entries[0]] + entries[1..];
      (if IsUpcoming(entries[0], now) then [entries[0]] else []) + KeepUpcoming(entries[1..], now)
  }

  /** The filter keeps every upcoming entry, as often as it occurs, and no other. */
  lemma {:induction false} KeepUpcomingCounts(entries: seq<Entry>, now: int)
    ensures forall e :: multiset(KeepUpcoming(entries, now))[e] ==
                        if IsUpcoming(e, now) then multiset(entries)[e] else 0
  {
    if entries != [] {
      assert entries == [entries[0]] + entries[1..];
      KeepUpcomingCounts(entries[1..], now);
    }
  }

  /** The filter keeps the backend's order: it works piece by piece … */
  lemma {:induction false} KeepUpcomingConcat(a: seq<Entry>, b: seq<Entry>, now: int)
    ensures KeepUpcoming(a + b, now) == KeepUpcoming(a, now) + KeepUpcoming(b, now)
  {
    if a == [] {
      assert a + b == b;
    } else {
      var head := if IsUpcoming(a[0], now) then [a[0]] else [];
      assert (a + b)[0] == a[0] && (a + b)[1..] == a[1..] + b;
      assert KeepUpcoming(a + b, now) == head + KeepUpcoming(a[1..] + b, now);
      KeepUpcomingConcat(a[1..], b, now);
      assert KeepUpcoming(a, now) == head + KeepUpcoming(a[1..], now);
    }
  }

  /** … and leaves a list of upcoming entries exactly as it is. */
  lemma {:induction false} KeepUpcomingUnchanged(entries: seq<Entry>, now: int)
    requires forall e :: e in entries ==> IsUpcoming(e, now)
    ensures KeepUpcoming(entries, now) == entries
  {
    if entries != [] {
      assert entries[0] in entries;
      assert forall e :: e in entries[1..] ==> e in entries;
      KeepUpcomingUnchanged(entries[1..], now);
    }
  }

  /** A `null` body is read as an empty list. */
  function Entries(body: Option<seq<BookingRecord>>, now: int): (r: seq<Entry>)
    ensures body.None? ==> r == []
    ensures forall e :: e in r ==> IsUpcoming(e, now)
    ensures body.Some? ==> forall e :: multiset(r)[e] ==
                                       if IsUpcoming(e, now) then multiset(ToEntries(body.value))[e] else 0
  {
    KeepUpcomingCounts(ToEntries(if body.Some? then body.value else []), now);
    KeepUpcoming(ToEntries(if body.Some? then body.value else []), now)
  }

  /** The screen's state. */
  class AvailabilityPage {
    const spaceId: string
    var selectedDate: Option<int>
    var bookings: seq<Entry>
    var loading: bool
    var alert: Alert
    var hasSearched: bool

    constructor (id: string)
      ensures spaceId == id && selectedDate == None && bookings == []
      ensures !loading && alert == NoAlert && !hasSearched
      ensures !ShowsNothingToShow()
    {
      spaceId := id;
      selectedDate := None;
      bookings := [];
      loading := false;
      alert := NoAlert;
      hasSearched := false;
    }

    method SelectDate(d: Option<int>)
      modifies this
      ensures selectedDate == d
      ensures bookings == old(bookings) && loading == old(loading)
      ensures alert == old(alert) && hasSearched == old(hasSearched)
      ensures ShowsNothingToShow() == old(ShowsNothingToShow())
    {
      selectedDate := d;
    }

    /** "No hay reservas para mostrar." is shown. */
    predicate ShowsNothingToShow()
      reads this
      ensures ShowsNothingToShow() ==> hasSearched && bookings == []
    {
      hasSearched && |bookings| == 0 && !loading
    }

    /** `handleCheckAvailability` up to its GET. Returns whether the request
        goes out; when it does, the alert is cleared and `loading` and
        `hasSearched` are set while it is awaited. */
    method BeginCheck() returns (requested: bool)
      modifies this
      ensures requested == old(selectedDate).Some?
      ensures selectedDate == old(selectedDate) && bookings == old(bookings)
      ensures !requested ==> alert == Alert(PickDateMessage, Warning)
                             && hasSearched == old(hasSearched) && loading == old(loading)
      ensures requested ==> alert == NoAlert && hasSearched && loading
      ensures !requested ==> ShowsNothingToShow() == old(ShowsNothingToShow())
      ensures requested ==> !ShowsNothingToShow()
    {
      if selectedDate.None? {
        alert := Alert(PickDateMessage, Warning);
        return false;
      }
      loading := true;
      alert := NoAlert;
      hasSearched := true;
      requested := true;
    }

    /** The rest of `handleCheckAvailability`, resumed with the GET's outcome
        at time `now`. */
    method CompleteCheck(response: Response<Option<seq<BookingRecord>>>, now: int)
      modifies this
      ensures !loading
      ensures selectedDate == old(selectedDate) && hasSearched == old(hasSearched)
      ensures response.Ok? ==> bookings == Entries(response.data, now)
      ensures response.Ok? && bookings == [] ==> alert == Alert(EmptyDayMessage, Info)
      ensures response.Ok? && bookings != [] ==> alert == old(alert)
      ensures response.Failed? ==> bookings == old(bookings) && alert == Alert(FetchErrorMessage, Error)
      ensures ShowsNothingToShow() <==> hasSearched && bookings == []
      ensures response.Ok? && Entries(response.data, now) == [] && old(hasSearched) ==> ShowsNothingToShow()
    {
      if response.Ok? {
        var data := if response.data.Some? then response.data.value else [];
        var list := KeepUpcoming(ToEntries(data), now);
        bookings := list;
        if |list| == 0 {
          alert := Alert(EmptyDayMessage, Info);
        }
      } else {
        alert := Alert(FetchErrorMessage, Error);
      }
      loading := false;
    }
  }

  /** The empty-list text over one visit: absent on arrival, still absent
      after "Consultar" without a date, shown once a dated search comes back
      empty. */
  method EmptySearchShowsText(spaceId: string, date: int, now: int)
    returns (onArrival: bool, afterUndated: bool, afterEmptySearch: bool)
    ensures !onArrival && !afterUndated && afterEmptySearch
  {
    var page := new AvailabilityPage(spaceId);
    onArrival := page.ShowsNothingToShow();
    var first := page.BeginCheck();
    afterUndated := page.ShowsNothingToShow();
    page.SelectDate(Some(date));
    var second := page.BeginCheck();
    assert |ToEntries([])| == 0;
    page.CompleteCheck(Ok(Some([])), now);
    afterEmptySearch := page.ShowsNothingToShow();
  }
}
