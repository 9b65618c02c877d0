/** struct timeval and the arithmetic adns does on it (adns-1.0/src/tvarith.h). */
module Timeval {

  datatype Timeval = Timeval(sec: int, usec: int)

  const ZERO := Timeval(0, 0)

  /** The instant a timeval denotes, in microseconds. */
  function Micros(t: Timeval): int { t.sec * 1000000 + t.usec }

  predicate Normal(t: Timeval) { 0 <= t.usec < 1000000 }

  /** timercmp(a,b,>) */
  predicate Later(a: Timeval, b: Timeval) {
    if a.sec == b.sec then a.usec > b.usec else a.sec > b.sec
  }

  /** timevaladd: moves a normal timeval on by ms milliseconds and keeps it normal. */
  function TimevalAdd(t: Timeval, ms: nat): (r: Timeval)
    requires Normal(t)
    ensures Normal(r) && Micros(r) == Micros(t) + 1000 * ms
  {
    var usec := t.usec + (ms % 1000) * 1000;
    var sec := t.sec + ms / 1000;
    if usec >= 1000000 then Timeval(sec + 1, usec - 1000000) else Timeval(sec, usec)
  }

  /** On normal timevals the field-wise comparison is the comparison of instants. */
  lemma LaterIsMicros(a: Timeval, b: Timeval)
    requires Normal(a) && Normal(b)
    ensures Later(a, b) <==> Micros(a) > Micros(b)
  {
    if a.sec < b.sec { assert a.sec * 1000000 + 1000000 <= b.sec * 1000000; }
    if a.sec > b.sec { assert b.sec * 1000000 + 1000000 <= a.sec * 1000000; }
  }
}
