/** The "Mis Reservas" screen: the current user's bookings, fetched once when
    the screen mounts (mapped, kept only if still upcoming, sorted by start)
    and refetched after a cancellation (mapped and sorted, not filtered). */
module MyReservations {
  import opened Common

  const LoadErrorMessage := "Error al cargar reservas"
  const CancelledMessage := "Reserva cancelada correctamente"
  const CancelErrorMessage := "Error al cancelar la reserva"
  const CancelledStatus := "cancelled"

  /** The nested `space` object of a booking, as the backend returns it. */
  datatype SpaceInfo = SpaceInfo(name: Option<string>, location: Option<string>)

  /** One entry of `GET /bookings?userId=…`. */
  datatype BookingRecord = BookingRecord(
    id: string,
    space: Option<SpaceInfo>,
    startTime: int,
    endTime: Stamp,
    status: string)

  /** The view row the screen renders. */
  datatype Row = Row(
    bookingId: string,
    spaceName: Option<string>,
    location: string,
    startTime: int,
    endTime: Stamp,
    status: string)

  /** The body of `PUT /bookings/status`. */
  datatype StatusUpdate = StatusUpdate(bookingId: string, status: string)

  /** `isUpcoming`: the end instant is strictly after `now`. The source's
      `new Date` and the availability page's `parseISO` both become a
      `Stamp`, so `Availability.IsUpcoming` is this test applied to an
      `Entry`. */
  predicate IsUpcoming(r: Row, now: int)
    ensures r.endTime.Unparsable? ==> !IsUpcoming(r, now)
    ensures r.endTime.At? ==> (IsUpcoming(r, now) <==> now < r.endTime.ms)
  {
    IsAfter(r.endTime, now)
  }

  /** The row offers the "Cancelar" button. */
  predicate OffersCancel(r: Row)
    ensures OffersCancel(r) <==> r.status != "cancelled"
  {
    r.status != CancelledStatus
  }

  /** `row` is what the mapping makes of backend entry `o`: identifier, name,
      instants and status copied, a missing or empty location shown as `''`. */
  predicate CopiedFrom(row: Row, o: BookingRecord)
  {
    && o.space.Some?
    && row.bookingId == o.id
    && row.spaceName == o.space.value.name
    && row.location == (if Truthy(o.space.value.location) then o.space.value.location.value else "")
    && row.startTime == o.startTime
    && row.endTime == o.endTime
    && row.status == o.status
  }

  function ToRow(o: BookingRecord): Row
    requires o.space.Some?
  {
    Row(o.id, o.space.value.name, OrElse(o.space.value.location, ""), o.startTime, o.endTime, o.status)
  }

  /** `data.map(o => …)`: reading `o.space.name` throws when an entry has no
      `space`, so the whole mapping fails (`None`) in that case. */
  function ToRows(data: seq<BookingRecord>): (r: Option<seq<Row>>)
    ensures r.Some? <==> forall i :: 0 <= i < |data| ==> data[i].space.Some?
    ensures r.Some? ==> |r.value| == |data|
    ensures r.Some? ==> forall i :: 0 <= i < |data| ==> CopiedFrom(r.value[i], data[i])
  {
    if data == [] then Some([])
    else if data[0].space.None? then None
    else
      match ToRows(data[1..])
      case None => None
      case Some(rest) => Some([ToRow(data[0])] + rest)
  }

  /** `.filter(r => isUpcoming(r.endTimeRaw))`. */
  function Upcoming(rows: seq<Row>, now: int): (r: seq<Row>)
    ensures forall x :: x in r ==> IsUpcoming(x, now)
    ensures forall x :: multiset(r)[x] == if IsUpcoming(x, now) then multiset(rows)[x] else 0
  {
    if rows == [] then []
    else
      assert rows == [rows[0]] + rows[1..];
      (if IsUpcoming(rows[0], now) then [rows[0]] else []) + Upcoming(rows[1..], now)
  }

  predicate SortedByStart(s: seq<Row>)
  {
    forall i, j :: 0 <= i < j < |s| ==> s[i].startTime <= s[j].startTime
  }

  /** A row that starts no later than every row of a sorted list can lead it. */
  lemma PrependSorted(x: Row, s: seq<Row>)
    requires SortedByStart(s)
    requires forall y :: y in s ==> x.startTime <= y.startTime
    ensures SortedByStart([x] + s)
  {
    forall i, j | 0 <= i < j < |[x] + s|
      ensures ([x] + s)[i].startTime <= ([x] + s)[j].startTime
    {
      if i > 0 {
        assert ([x] + s)[i] == s[i - 1] && ([x] + s)[j] == s[j - 1];
      } else {
        assert ([x] + s)[j] == s[j - 1];
      }
    }
  }

  /** Every row of a sorted list starts no earlier than its first row. */
  lemma HeadStartsFirst(s: seq<Row>)
    requires SortedByStart(s) && s != []
    ensures forall y :: y in s ==> s[0].startTime <= y.startTime
  {
    forall y | y in s ensures s[0].startTime <= y.startTime {
      var k :| 0 <= k < |s| && s[k] == y;
    }
  }

  /** Places `x` before the first row that does not start earlier. */
  function Insert(x: Row, s: seq<Row>): (r: seq<Row>)
    requires SortedByStart(s)
    ensures SortedByStart(r)
    ensures multiset(r) == multiset(s) + multiset{x}
    decreases |s|, 1
  {
    if s == [] then [x]
    else if x.startTime <= s[0].startTime then
      HeadStartsFirst(s);
      PrependSorted(x, s);
      [x] + s
    else
      InsertAfterHead(x, s);
      [s[0]] + Insert(x, s[1..])
  }

  /** The recursive case of `Insert`: the head stays in front. */
  lemma InsertAfterHead(x: Row, s: seq<Row>)
    requires SortedByStart(s) && s != [] && s[0].startTime < x.startTime
    ensures SortedByStart([s[0]] + Insert(x, s[1..]))
    ensures multiset([s[0]] + Insert(x, s[1..])) == multiset(s) + multiset{x}
    decreases |s|, 0
  {
    var tail := s[1..];
    assert s == [s[0]] + tail;
    var rest := Insert(x, tail);
    HeadStartsFirst(s);
    assert multiset(rest) == multiset(tail) + multiset{x};
    forall y | y in rest ensures s[0].startTime <= y.startTime {
      assert y in multiset(rest);
      if y != x {
        assert y in multiset(tail);
        assert y in s;
      }
    }
    PrependSorted(s[0], rest);
    assert multiset([s[0]] + rest) == multiset{s[0]} + multiset(rest);
    assert multiset(s) == multiset{s[0]} + multiset(tail);
  }

  /** `.sort((a, b) => parseDate(a.startTimeRaw) - parseDate(b.startTimeRaw))`,
      a stable sort by start instant. */
  function SortByStart(s: seq<Row>): (r: seq<Row>)
    ensures SortedByStart(r)
    ensures multiset(r) == multiset(s)
  {
    if s == [] then []
    else
      assert s == [s[0]] + s[1..];
      Insert(s[0], SortByStart(s[1..]))
  }

  /** The rows that start at instant `t`, in their order. */
  function WithStart(s: seq<Row>, t: int): seq<Row>
  {
    if s == [] then [] else (if s[0].startTime == t then [s[0]] else []) + WithStart(s[1..], t)
  }

  /** Unfolds `WithStart` on a list given as its head and tail. */
  lemma WithStartCons(y: Row, rest: seq<Row>, t: int)
    ensures WithStart([y] + rest, t) == (if y.startTime == t then [y] else []) + WithStart(rest, t)
  {
    assert ([y] + rest)[1..] == rest;
  }

  /** The tail of a sorted list is sorted. */
  lemma SortedTail(s: seq<Row>)
    requires SortedByStart(s) && s != []
    ensures SortedByStart(s[1..])
  {
    forall i, j | 0 <= i < j < |s[1..]| ensures s[1..][i].startTime <= s[1..][j].startTime {
      assert s[1..][i] == s[i + 1] && s[1..][j] == s[j + 1];
    }
  }

  lemma {:induction false} InsertWithStart(x: Row, s: seq<Row>, t: int)
    requires SortedByStart(s)
    ensures WithStart(Insert(x, s), t) == (if x.startTime == t then [x] else []) + WithStart(s, t)
  {
    if s == [] {
      assert Insert(x, s) == [x] + s;
      WithStartCons(x, s, t);
    } else if x.startTime <= s[0].startTime {
      assert Insert(x, s) == [x] + s;
      WithStartCons(x, s, t);
    } else {
      SortedTail(s);
      var rest := Insert(x, s[1..]);
      assert Insert(x, s) == [s[0]] + rest;
      InsertWithStart(x, s[1..], t);
      WithStartCons(s[0], rest, t);
      assert WithStart(s, t) == (if s[0].startTime == t then [s[0]] else []) + WithStart(s[1..], t);
    }
  }

  /** The sort is stable: rows with the same start keep their relative order. */
  lemma {:induction false} SortIsStable(s: seq<Row>, t: int)
    ensures WithStart(SortByStart(s), t) == WithStart(s, t)
  {
    if s != [] {
      SortIsStable(s[1..], t);
      InsertWithStart(s[0], SortByStart(s[1..]), t);
    }
  }

  /** A list already in start order is left as it is. */
  lemma {:induction false} SortKeepsSorted(s: seq<Row>)
    requires SortedByStart(s)
    ensures SortByStart(s) == s
  {
    if s != [] {
      SortKeepsSorted(s[1..]);
    }
  }

  /** The pipeline of the first load: map, keep upcoming rows, sort by start. */
  function InitialList(body: Option<seq<BookingRecord>>, now: int): (r: Option<seq<Row>>)
    ensures r.Some? <==> body.Some? && ToRows(body.value).Some?
    ensures r.Some? ==> SortedByStart(r.value)
    ensures r.Some? ==> forall x :: x in r.value ==> IsUpcoming(x, now)
    ensures r.Some? ==> forall x :: multiset(r.value)[x] ==
                                   if IsUpcoming(x, now) then multiset(ToRows(body.value).value)[x] else 0
  {
    if body.None? then None
    else
      match ToRows(body.value)
      case None => None
      case Some(rows) => Some(SortByStart(Upcoming(rows, now)))
  }

  /** The pipeline after a cancellation: map and sort, with no upcoming filter. */
  function RefetchedList(body: Option<seq<BookingRecord>>): (r: Option<seq<Row>>)
    ensures r.Some? <==> body.Some? && ToRows(body.value).Some?
    ensures r.Some? ==> SortedByStart(r.value)
    ensures r.Some? ==> multiset(r.value) == multiset(ToRows(body.value).value)
  {
    if body.None? then None
    else
      match ToRows(body.value)
      case None => None
      case Some(rows) => Some(SortByStart(rows))
  }

  /** A booking that has already ended is dropped by the first load but kept
      by the refetch that follows a cancellation. */
  lemma EndedBookingOnlyAfterRefetch(data: seq<BookingRecord>, now: int, i: int)
    requires forall k :: 0 <= k < |data| ==> data[k].space.Some?
    requires 0 <= i < |data| && !IsAfter(data[i].endTime, now)
    ensures ToRow(data[i]) !in InitialList(Some(data), now).value
    ensures ToRow(data[i]) in RefetchedList(Some(data)).value
  {
    var rows := ToRows(data).value;
    assert rows[i] == ToRow(data[i]);
    assert ToRow(data[i]) in multiset(rows);
  }

  /** When the backend reports booking `id` as cancelled, the refetched list
      holds that booking and no longer offers to cancel it. */
  lemma CancelledBookingShownWithoutButton(data: seq<BookingRecord>, i: int)
    requires forall k :: 0 <= k < |data| ==> data[k].space.Some?
    requires 0 <= i < |data| && data[i].status == CancelledStatus
    ensures exists r :: r in RefetchedList(Some(data)).value && r.bookingId == data[i].id && !OffersCancel(r)
  {
    var rows := ToRows(data).value;
    assert rows[i] in multiset(rows);
    assert rows[i] in RefetchedList(Some(data)).value;
  }

  /** The screen's state: `reservations`, `loading`, `error`, `alert`. */
  class MyReservationsPage {
    var reservations: seq<Row>
    var loading: bool
    var error: string
    var alert: Alert

    /** Mounting: an empty list and the spinner until the first load settles. */
    constructor ()
      ensures reservations == [] && loading && error == "" && alert == NoAlert
    {
      reservations := [];
      loading := true;
      error := "";
      alert := NoAlert;
    }

    /** `fetchReservations`, resumed with the outcome of its GET at time `now`. */
    method CompleteFetch(response: Response<Option<seq<BookingRecord>>>, now: int)
      modifies this
      ensures !loading && alert == old(alert)
      ensures response.Ok? && InitialList(response.data, now).Some? ==>
        reservations == InitialList(response.data, now).value && error == old(error)
      ensures !(response.Ok? && InitialList(response.data, now).Some?) ==>
        reservations == old(reservations) && error == LoadErrorMessage
    {
      if response.Ok? && response.data.Some? {
        var rows := ToRows(response.data.value);
        if rows.Some? {
          reservations := SortByStart(Upcoming(rows.value, now));
        } else {
          error := LoadErrorMessage;
        }
      } else {
        error := LoadErrorMessage;
      }
      loading := false;
    }

    /** `cancelReservation` up to the refetch: the status update is sent and
        the method returns at the point where the GET is awaited (`loading`)
        or, when the update failed, with the error alert. */
    method Cancel(reservationId: string, put: Response<()>) returns (sent: StatusUpdate)
      modifies this
      ensures sent == StatusUpdate(reservationId, CancelledStatus)
      ensures reservations == old(reservations)
      ensures put.Ok? ==> alert == Alert(CancelledMessage, Success) && loading && error == ""
      ensures put.Failed? ==> alert == Alert(CancelErrorMessage, Error) && !loading && error == old(error)
    {
      sent := StatusUpdate(reservationId, CancelledStatus);
      if put.Ok? {
        alert := Alert(CancelledMessage, Success);
        loading := true;
        error := "";
      } else {
        alert := Alert(CancelErrorMessage, Error);
        loading := false;
      }
    }

    /** The rest of `cancelReservation`, resumed with the refetch's outcome;
        a failed or malformed refetch overwrites the success alert. */
    method CompleteRefetch(response: Response<Option<seq<BookingRecord>>>)
      modifies this
      ensures !loading && error == old(error)
      ensures response.Ok? && RefetchedList(response.data).Some? ==>
        reservations == RefetchedList(response.data).value && alert == old(alert)
      ensures !(response.Ok? && RefetchedList(response.data).Some?) ==>
        reservations == old(reservations) && alert == Alert(CancelErrorMessage, Error)
    {
      if response.Ok? && response.data.Some? {
        var rows := ToRows(response.data.value);
        if rows.Some? {
          reservations := SortByStart(rows.value);
        } else {
          alert := Alert(CancelErrorMessage, Error);
        }
      } else {
        alert := Alert(CancelErrorMessage, Error);
      }
      loading := false;
    }
  }
}
