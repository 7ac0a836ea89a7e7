/** An abstract point in time. Go's `time.Time` is replaced by its calendar-date text (as SQLite's
    DATE() renders it, "YYYY-MM-DD") and a position within that day; time zones and the actual
    RFC 3339 grammar are not modelled. Dates compare as text, as SQLite compares TEXT values. */
module Times {

  datatype Time = Time(date: string, clock: nat)

  /** Lexicographic order on strings by code point (SQLite's BINARY collation on UTF-8 text). */
  predicate StrLe(a: string, b: string)
    decreases |a|
  {
    if a == [] then true
    else if b == [] then false
    else if a[0] != b[0] then a[0] < b[0]
    else StrLe(a[1..], b[1..])
  }

  lemma {:induction false} StrLeReflexive(a: string)
    ensures StrLe(a, a)
    decreases |a|
  {
    if a != [] { StrLeReflexive(a[1..]); }
  }

  lemma {:induction false} StrLeTotal(a: string, b: string)
    ensures StrLe(a, b) || StrLe(b, a)
    decreases |a|
  {
    if a != [] && b != [] && a[0] == b[0] { StrLeTotal(a[1..], b[1..]); }
  }

  lemma {:induction false} StrLeAntisymmetric(a: string, b: string)
    requires StrLe(a, b) && StrLe(b, a)
    ensures a == b
    decreases |a|
  {
    if a != [] && b != [] {
      StrLeAntisymmetric(a[1..], b[1..]);
      assert a == [a[0]] + a[1..] && b == [b[0]] + b[1..];
    }
  }

  lemma {:induction false} StrLeTransitive(a: string, b: string, c: string)
    requires StrLe(a, b) && StrLe(b, c)
    ensures StrLe(a, c)
    decreases |a|
  {
    if a != [] && b != [] && c != [] && a[0] == b[0] && b[0] == c[0] {
      StrLeTransitive(a[1..], b[1..], c[1..]);
    }
  }

  /** Strings that agree before position `k` and differ there are ordered by that character. */
  lemma {:induction false} StrLtAt(a: string, b: string, k: nat)
    requires k < |a| && k < |b| && a[..k] == b[..k] && a[k] < b[k]
    ensures StrLe(a, b) && !StrLe(b, a)
  {
    if k > 0 {
      assert a[0] == a[..k][0] && b[0] == b[..k][0];
      assert a[1..][..k - 1] == a[..k][1..] && b[1..][..k - 1] == b[..k][1..];
      StrLtAt(a[1..], b[1..], k - 1);
    }
  }

  /** `a` is no later than `b`: earlier date, or the same date and no later in the day. */
  predicate TimeLe(a: Time, b: Time) {
    if a.date == b.date then a.clock <= b.clock else StrLe(a.date, b.date)
  }

  lemma TimeLeTotal(a: Time, b: Time)
    ensures TimeLe(a, b) || TimeLe(b, a)
  {
    StrLeTotal(a.date, b.date);
  }

  lemma TimeLeTransitive(a: Time, b: Time, c: Time)
    requires TimeLe(a, b) && TimeLe(b, c)
    ensures TimeLe(a, c)
  {
    if a.date != b.date && b.date != c.date {
      StrLeTransitive(a.date, b.date, c.date);
      if a.date == c.date { StrLeAntisymmetric(a.date, b.date); }
    }
  }

  lemma TimeLeAntisymmetric(a: Time, b: Time)
    requires TimeLe(a, b) && TimeLe(b, a)
    ensures a == b
  {
    if a.date != b.date { StrLeAntisymmetric(a.date, b.date); }
  }
}
