/**
 * config.py: the DATABASE_URL scheme rewrite done once at import time, and the timezone helpers
 * to_ist / format_ist_datetime.  The environment read and the clock are inputs of the model.
 */
module Config {
  import opened Wrappers
  import opened Calendar

  const PostgresScheme := "postgres://"
  const PostgresqlScheme := "postgresql://"

  /** True when pattern occurs in s at index k. */
  predicate OccursAt(s: string, pattern: string, k: int) {
    0 <= k && k + |pattern| <= |s| && s[k..k + |pattern|] == pattern
  }

  /** Python's s.replace(pattern, replacement, 1): the first occurrence of pattern is replaced. */
  function ReplaceFirst(s: string, pattern: string, replacement: string): (r: string)
    requires pattern != []
    ensures pattern <= s ==> r == replacement + s[|pattern|..]
    ensures (forall k :: 0 <= k <= |s| ==> !OccursAt(s, pattern, k)) ==> r == s
  {
    if pattern <= s then
      assert OccursAt(s, pattern, 0) by { assert s[0..|pattern|] == s[..|pattern|]; }
      replacement + s[|pattern|..]
    else if s == [] then []
    else
      var r := [s[0]] + ReplaceFirst(s[1..], pattern, replacement);
      assert forall k :: 0 <= k <= |s| - 1 && OccursAt(s[1..], pattern, k) ==> OccursAt(s, pattern, k + 1) by {
        forall k | 0 <= k <= |s| - 1 && OccursAt(s[1..], pattern, k) ensures OccursAt(s, pattern, k + 1) {
          assert s[1..][k..k + |pattern|] == s[k + 1..k + 1 + |pattern|];
        }
      }
      r
  }

  /**
   * config.py lines 15-17: a DATABASE_URL that is set, non-empty and starts with postgres:// has
   * that first occurrence replaced by postgresql://; any other value is kept as it is.
   */
  function NormalizeDatabaseUrl(url: Option<string>): (r: Option<string>)
    ensures url.Some? && PostgresScheme <= url.value ==> r == Some(PostgresqlScheme + url.value[|PostgresScheme|..])
    ensures !(url.Some? && PostgresScheme <= url.value) ==> r == url
  {
    if url.Some? && url.value != "" && PostgresScheme <= url.value then
      Some(ReplaceFirst(url.value, PostgresScheme, PostgresqlScheme))
    else
      url
  }

  /** A URL already in the postgresql:// form is never rewritten, so the rewrite is idempotent. */
  lemma NormalizeIdempotent(url: Option<string>)
    ensures NormalizeDatabaseUrl(NormalizeDatabaseUrl(url)) == NormalizeDatabaseUrl(url)
  {
    if url.Some? && PostgresScheme <= url.value {
      var r := NormalizeDatabaseUrl(url);
      assert r.value[8] == 'q' != PostgresScheme[8];
    }
  }

  /** The administrator's username and password. */
  datatype Credentials = Credentials(username: string, password: string)

  /**
   * config.py lines 26-27: ADMIN_USERNAME and ADMIN_PASSWORD from the environment, 'admin' and
   * 'admin123' when a variable is unset.
   */
  function AdminCredentials(usernameVariable: Option<string>, passwordVariable: Option<string>): (r: Credentials)
    ensures usernameVariable.None? ==> r.username == "admin"
    ensures passwordVariable.None? ==> r.password == "admin123"
    ensures usernameVariable.Some? ==> r.username == usernameVariable.value
    ensures passwordVariable.Some? ==> r.password == passwordVariable.value
  {
    Credentials(usernameVariable.GetOr("admin"), passwordVariable.GetOr("admin123"))
  }

  /** The offset of Asia/Kolkata from UTC, in minutes (+05:30). */
  const IstOffsetMinutes := 330

  /**
   * A Python datetime: its wall-clock fields and, when it is timezone-aware, its UTC offset in
   * minutes (None for a naive datetime).
   */
  datatype Stamp = Stamp(wall: DateTime, offset: Option<int>) {
    predicate Valid() {
      wall.Valid() && (offset.Some? ==> -24 * 60 < offset.value < 24 * 60)
    }
  }

  /** The UTC instant an aware datetime denotes. */
  function UtcInstant(s: Stamp): int
    requires s.Valid() && s.offset.Some?
  {
    Instant(s.wall) - s.offset.value * MinuteMicros
  }

  /** The reading of a datetime that to_ist converts: a naive one is taken as UTC. */
  function AsAware(s: Stamp): (r: Stamp)
    requires s.Valid()
    ensures r.Valid() && r.offset.Some? && r.wall == s.wall
    ensures s.offset.Some? ==> r == s
  {
    if s.offset.Some? then s else Stamp(s.wall, Some(0))
  }

  /**
   * config.py lines 38-51, to_ist: None stays None; an aware datetime is converted to IST; a naive
   * one is first taken as UTC.  astimezone first subtracts the argument's own offset, which gives
   * the UTC wall clock, and then adds +05:30.  When either step leaves Python's datetime range it
   * raises, and the except branch returns the argument unchanged.
   */
  function ToIst(dt: Option<Stamp>): (r: Option<Stamp>)
    requires dt.Some? ==> dt.value.Valid()
    ensures dt.None? <==> r.None?
    ensures dt.Some? ==> r.value.Valid()
    ensures dt.Some? && Converts(dt.value) ==>
              r.value.offset == Some(IstOffsetMinutes) && UtcInstant(r.value) == UtcInstant(AsAware(dt.value))
    ensures dt.Some? && !Converts(dt.value) ==> r == dt
  {
    match dt
    case None => None
    case Some(s) =>
      var aware := AsAware(s);
      match ShiftMicros(aware.wall, -aware.offset.value * MinuteMicros)
      case None => dt
      case Some(utc) =>
        match ShiftMicros(utc, IstOffsetMinutes * MinuteMicros)
        case Some(w) => Some(Stamp(w, Some(IstOffsetMinutes)))
        case None => dt
  }

  /** Both steps of the conversion stay within Python's datetime range. */
  predicate Converts(s: Stamp)
    requires s.Valid()
  {
    Representable(UtcInstant(AsAware(s))) && Representable(UtcInstant(AsAware(s)) + IstOffsetMinutes * MinuteMicros)
  }

  /**
   * An aware datetime on 0001-01-01 whose offset ahead of UTC exceeds its time of day has no UTC
   * wall clock, so to_ist returns it unchanged, even where its IST wall clock would exist (as for
   * 02:00+05:00, whose IST wall clock would be 02:30).
   */
  lemma EarlyAwareStaysPut(s: Stamp)
    requires s.Valid() && s.wall.date == MinDate && s.offset.Some? && s.offset.value * MinuteMicros > s.wall.micro
    ensures ToIst(Some(s)) == Some(s)
    ensures s.offset.value < IstOffsetMinutes ==> Representable(UtcInstant(s) + IstOffsetMinutes * MinuteMicros)
  {
    var m := s.wall.micro;
    assert s.wall == DateTime(MinDate, m);
    InstantOnFirstDay(m);
    assert UtcInstant(s) == DayMicros + m - s.offset.value * MinuteMicros;
    assert !Converts(s);
  }

  /** A naive datetime and the same wall clock marked as UTC convert to the same IST datetime. */
  lemma NaiveIsUtc(w: DateTime)
    requires w.Valid()
    ensures Representable(Instant(w) + IstOffsetMinutes * MinuteMicros) ==>
              ToIst(Some(Stamp(w, None))) == ToIst(Some(Stamp(w, Some(0))))
    ensures !Representable(Instant(w) + IstOffsetMinutes * MinuteMicros) ==>
              ToIst(Some(Stamp(w, None))) == Some(Stamp(w, None))
  {
  }

  /**
   * config.py lines 53-61, format_ist_datetime: the argument goes through to_ist and is rendered
   * with the format string; None renders as the empty string.  strftime is the parameter render.
   */
  function FormatIstDatetime(dt: Option<Stamp>, render: Stamp -> string): (r: string)
    requires dt.Some? ==> dt.value.Valid()
    ensures dt.None? ==> r == ""
    ensures dt.Some? ==> r == render(ToIst(dt).value)
  {
    match ToIst(dt)
    case None => ""
    case Some(t) => render(t)
  }
}
