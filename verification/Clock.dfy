/** The common time base.

An instant is a whole number of seconds since Monday 2024-01-01 00:00 UTC, the
reference Monday of the weekly projection; a duration is a number of seconds.
Timestamps the controller persists are RFC 3339 section 5.6 date-times without a
fraction, so a second is the granularity every durable decision is taken at. */
module Clock {
  type Time = int

  const MINUTE: int := 60
  const HOUR: int := 3600
  const DAY: int := 86_400
  const WEEK: int := 604_800
}

/** The optional value used throughout. */
module Options {
  datatype Option<+T> = None | Some(value: T)
}

/** Byte order on names: the order Go's `<` gives two strings. */
module Names {
  predicate Less(a: string, b: string) {
    b != [] && (a == [] || a[0] < b[0] || (a[0] == b[0] && Less(a[1..], b[1..])))
  }

  lemma {:induction false} LessIrreflexive(a: string)
    ensures !Less(a, a)
  {
    if a != [] { LessIrreflexive(a[1..]); }
  }

  lemma {:induction false} LessTransitive(a: string, b: string, c: string)
    requires Less(a, b) && Less(b, c)
    ensures Less(a, c)
  {
    if a != [] && a[0] == b[0] == c[0] { LessTransitive(a[1..], b[1..], c[1..]); }
  }

  lemma {:induction false} LessTotal(a: string, b: string)
    ensures a == b || Less(a, b) || Less(b, a)
  {
    if a != [] && b != [] && a[0] == b[0] {
      LessTotal(a[1..], b[1..]);
      assert a == [a[0]] + a[1..] && b == [b[0]] + b[1..];
    }
  }
}
