// The shared vocabulary: statuses, reminder kinds and the clock unit.
module Models {

  datatype Option<+T> = None | Some(value: T)

  // What a call that may raise gives back.
  datatype Result<+T, +E> = Ok(value: T) | Err(error: E)

  // All instants are integers on one UTC clock, in microseconds, the resolution of the program's datetimes.
  const SECOND: int := 1_000_000
  const MINUTE: int := 60_000_000
  const HOUR: int := 3_600_000_000
  const DAY: int := 86_400_000_000

  datatype MessageStatus = Pending | Sending | Sent | Delivered | Failed | UnknownDelivery | Suppressed

  datatype InvoiceStatus = Unpaid | Partial | Paid | Overdue | Cancelled

  datatype ReminderType = Due14 | Due3 | DueToday | LateNotice | PaymentConfirmed | CallbackAck | HardshipAck

  function Min(a: int, b: int): (m: int)
    ensures m <= a && m <= b && (m == a || m == b)
  {
    if a < b then a else b
  }

  function Positive(n: int): nat {
    if n > 0 then n else 0
  }

  ghost predicate Distinct<T>(s: seq<T>) {
    forall i, j :: 0 <= i < j < |s| ==> s[i] != s[j]
  }

  ghost predicate Injective<K(!new), V>(m: map<K, V>) {
    forall a, b :: a in m && b in m && a != b ==> m[a] != m[b]
  }
}
