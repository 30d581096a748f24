/** The booking screen for one space (`/reserve/:id/:name`): the user picks a
    date and a time; confirming checks both are chosen and that a session
    exists, builds a one-hour slot starting at that date and time, and posts
    it. Instants are milliseconds of local time. */
module ReservationWindow {
  import opened Common
  import Session

  const SecondMs := 1000
  const MinuteMs := 60 * SecondMs
  const HourMs := 60 * MinuteMs
  const DayMs := 24 * HourMs

  /** Length of every booking the client creates (`addMinutes(start, 60)`). */
  const SlotMinutes := 60

  const PickBothMessage := "Por favor selecciona fecha y hora"
  const NotAuthenticatedMessage := "No autenticado"
  const ConfirmedMessage := "Reserva confirmada 😃"
  const UnavailableMessage := "Es posible que el espacio no esté disponible, prueba con otro horario"
  const AfterBookingPath := "/dashboard"

  /** The calendar fields of an instant, as `getDate`, `getHours`,
      `getMinutes`, `getSeconds` and `getMilliseconds` see them. */
  function DayOf(t: int): int { t / DayMs }
  function HourOf(t: int): int { (t % DayMs) / HourMs }
  function MinuteOf(t: int): int { (t % HourMs) / MinuteMs }
  function SecondOf(t: int): int { (t % MinuteMs) / SecondMs }
  function MillisecondOf(t: int): int { t % SecondMs }

  lemma MulSign(n: int, d: int)
    requires n > 0
    ensures d >= 1 ==> n * d >= n
    ensures d <= -1 ==> n * d <= -n
  {
    if d >= 1 {
      assert n * d == n + n * (d - 1);
    } else if d <= -1 {
      assert n * d == -n + n * (d + 1);
    }
  }

  /** Quotient and remainder are the only ones of their kind. */
  lemma DivModUnique(x: int, n: int, q: int, m: int)
    requires n > 0 && x == n * q + m && 0 <= m < n
    ensures x / n == q && x % n == m
  {
    var d := q - x / n;
    assert n * d == x % n - m;
    MulSign(n, d);
  }

  /** Reducing modulo a multiple of `n` keeps the remainder modulo `n`. */
  lemma ModOfMultiple(t: int, n: int, k: int)
    requires n > 0 && k > 0
    ensures (t % (k * n)) % n == t % n
    ensures 0 <= (t % (k * n)) / n < k
  {
    MulSign(n, k);
    var big := k * n;
    var r := t % big;
    var q := t / big;
    assert t == big * q + r;
    var rq := r / n;
    var rm := r % n;
    assert r == n * rq + rm;
    assert t == n * (k * q + rq) + rm by {
      assert big * q == n * (k * q);
    }
    DivModUnique(t, n, k * q + rq, rm);
    MulSign(n, rq - k + 1);
    assert n * (rq - k + 1) == n * rq - big + n;
    MulSign(n, rq);
  }

  /** An instant is the sum of its fields, each within its range. */
  lemma FieldsCompose(t: int)
    ensures t == DayOf(t) * DayMs + HourOf(t) * HourMs + MinuteOf(t) * MinuteMs
                 + SecondOf(t) * SecondMs + MillisecondOf(t)
    ensures 0 <= HourOf(t) < 24 && 0 <= MinuteOf(t) < 60
    ensures 0 <= SecondOf(t) < 60 && 0 <= MillisecondOf(t) < 1000
  {
    ModOfMultiple(t, HourMs, 24);
    ModOfMultiple(t, MinuteMs, 60);
    ModOfMultiple(t, SecondMs, 60);
    var r := t % DayMs;
    assert t == DayMs * (t / DayMs) + r;
    assert r == HourMs * (r / HourMs) + t % HourMs;
    var q := t % HourMs;
    assert q == MinuteMs * (q / MinuteMs) + t % MinuteMs;
    var p := t % MinuteMs;
    assert p == SecondMs * (p / SecondMs) + t % SecondMs;
  }

  /** The instant of day `d`, hour `h`, minute `m`, and zero seconds. */
  lemma ComposeFields(d: int, h: int, m: int)
    requires 0 <= h < 24 && 0 <= m < 60
    ensures var t := DayMs * d + HourMs * h + MinuteMs * m;
      DayOf(t) == d && HourOf(t) == h && MinuteOf(t) == m && SecondOf(t) == 0 && MillisecondOf(t) == 0
  {
    var t := DayMs * d + HourMs * h + MinuteMs * m;
    var inDay := HourMs * h + MinuteMs * m;
    DivModUnique(t, DayMs, d, inDay);
    DivModUnique(inDay, HourMs, h, MinuteMs * m);
    ModOfMultiple(t, HourMs, 24);
    DivModUnique(MinuteMs * m, MinuteMs, m, 0);
    ModOfMultiple(t, MinuteMs, 60);
    ModOfMultiple(t, SecondMs, 60);
    DivModUnique(0, SecondMs, 0, 0);
  }

  /** The start instant: the calendar day of `date` with the hour and minute
      of `time`, seconds and milliseconds zero. */
  function SlotStart(date: int, time: int): (start: int)
    ensures DayOf(start) == DayOf(date)
    ensures HourOf(start) == HourOf(time) && MinuteOf(start) == MinuteOf(time)
    ensures SecondOf(start) == 0 && MillisecondOf(start) == 0
  {
    FieldsCompose(time);
    ComposeFields(DayOf(date), HourOf(time), MinuteOf(time));
    DayMs * DayOf(date) + HourMs * HourOf(time) + MinuteMs * MinuteOf(time)
  }

  /** Those fields determine the start: no other instant has them. */
  lemma SlotStartUnique(date: int, time: int, s: int)
    requires DayOf(s) == DayOf(date)
    requires HourOf(s) == HourOf(time) && MinuteOf(s) == MinuteOf(time)
    requires SecondOf(s) == 0 && MillisecondOf(s) == 0
    ensures s == SlotStart(date, time)
  {
    FieldsCompose(s);
  }

  /** The body of `POST /bookings`. */
  datatype BookingRequest = BookingRequest(spaceId: string, userId: string, startTime: int, endTime: int)

  /** The request for a slot chosen at `date` and `time`. */
  function SlotRequest(spaceId: string, userId: string, date: int, time: int): (req: BookingRequest)
    ensures req.spaceId == spaceId && req.userId == userId
    ensures req.startTime == SlotStart(date, time)
    ensures req.endTime - req.startTime == SlotMinutes * MinuteMs
    ensures req.startTime < req.endTime
    ensures DayOf(req.endTime) == DayOf(req.startTime) || HourOf(req.startTime) == 23
  {
    var start := SlotStart(date, time);
    FieldsCompose(start);
    BookingRequest(spaceId, userId, start, start + SlotMinutes * MinuteMs)
  }

  /** `ReservePage`: route parameters, the two pickers and the alert. */
  class ReservePage {
    const spaceId: string
    const spaceName: string
    var selectedDate: Option<int>
    var selectedTime: Option<int>
    var alert: Alert

    constructor (id: string, name: string)
      ensures spaceId == id && spaceName == name
      ensures selectedDate == None && selectedTime == None && alert == NoAlert
    {
      spaceId, spaceName := id, name;
      selectedDate, selectedTime := None, None;
      alert := NoAlert;
    }

    method SelectDate(d: Option<int>)
      modifies this
      ensures selectedDate == d && selectedTime == old(selectedTime) && alert == old(alert)
    {
      selectedDate := d;
    }

    method SelectTime(t: Option<int>)
      modifies this
      ensures selectedTime == t && selectedDate == old(selectedDate) && alert == old(alert)
    {
      selectedTime := t;
    }

    /** `handleConfirm`, with the outcome of its POST. `sent` is the request
        posted, if any; `nav` is the navigation that follows. */
    method Confirm(store: Session.LocalStorage, post: Response<()>) returns (sent: Option<BookingRequest>, nav: Navigation)
      modifies this
      ensures selectedDate == old(selectedDate) && selectedTime == old(selectedTime)
      ensures selectedDate.None? || selectedTime.None? ==>
        sent == None && nav == Stay && alert == Alert(PickBothMessage, Warning)
      ensures selectedDate.Some? && selectedTime.Some?
              && !(Truthy(store.GetItem(Session.AuthToken)) && Truthy(store.GetItem(Session.UserId))) ==>
        sent == None && nav == Stay && alert == Alert(NotAuthenticatedMessage, Error)
      ensures selectedDate.Some? && selectedTime.Some?
              && Truthy(store.GetItem(Session.AuthToken)) && Truthy(store.GetItem(Session.UserId)) ==>
        && sent == Some(SlotRequest(spaceId, store.items[Session.UserId], selectedDate.value, selectedTime.value))
        && (post.Ok? ==> alert == Alert(ConfirmedMessage, Success) && nav == NavigateTo(AfterBookingPath))
        && (post.Failed? ==> alert == Alert(UnavailableMessage, Error) && nav == Stay)
    {
      if selectedDate.None? || selectedTime.None? {
        alert := Alert(PickBothMessage, Warning);
        return None, Stay;
      }
      var token := store.GetItem(Session.AuthToken);
      var userId := store.GetItem(Session.UserId);
      if !Truthy(token) || !Truthy(userId) {
        alert := Alert(NotAuthenticatedMessage, Error);
        return None, Stay;
      }
      var start := SlotStart(selectedDate.value, selectedTime.value);
      var end := start + SlotMinutes * MinuteMs;
      sent := Some(BookingRequest(spaceId, userId.value, start, end));
      if post.Ok? {
        alert := Alert(ConfirmedMessage, Success);
        nav := NavigateTo(AfterBookingPath);
      } else {
        alert := Alert(UnavailableMessage, Error);
        nav := Stay;
      }
    }
  }
}
