/**
 Setting the time-of-day clock and its alarm (src/c64/CIA/tod.cpp): which time the bytes written mean, and when
 the alarm goes off.
 */
module TodAlarm {
  import opened Arith
  import opened TodCounters
  import opened TimeOfDay

  // ----- What a write stores -----

  /** A register keeps the bits it has and reads the others as 0. */
  lemma StoredBits(reg: Register, data: u8, alarm: bool)
    ensures var s := Stored(reg, data, alarm);
            && (reg == TENTHS ==> s < 16 && s % 16 == data % 16)
            && (reg == SECONDS || reg == MINUTES ==> s < 128 && s % 128 == data % 128)
            && (reg == HOURS ==> s % 128 < 32 && s % 32 == data % 32)
  {
    if reg == HOURS {
      HourBits(data, alarm);
      hide Stored;
    }
  }

  lemma HourBits(data: u8, alarm: bool)
    ensures var s := Stored(HOURS, data, alarm); s % 128 < 32 && s % 32 == data % 32
  {
    var hours := data / 128 * 128 + data % 32;
    assert hours % 32 == data % 32 && hours % 128 == data % 32;
    assert (hours + 0x80) % 0x100 == if hours < 0x80 then hours + 0x80 else hours - 0x80;
  }

  /** The AM/PM flag is stored as written, except that it is inverted when the clock is set to hour 12. */
  lemma StoredFlag(data: u8, alarm: bool)
    ensures Stored(HOURS, data, alarm) >= 0x80 <==> (data >= 0x80) != (data % 32 == 0x12 && !alarm)
  {
  }

  function Bcd(x: nat): u8
    requires x < 80
  {
    x / 10 * 16 + x % 10
  }

  /** The bytes of a time on the twelve-hour clock. */
  function TimeBytes(hour: nat, pm: bool, minute: nat, second: nat, tenth: nat): Registers
    requires 1 <= hour <= 12 && minute < 60 && second < 60 && tenth < 10
  {
    [tenth, Bcd(second), Bcd(minute), Bcd(hour) + if pm then 0x80 else 0]
  }

  /** All four registers written. */
  function AllStored(r: Registers, alarm: bool): Registers {
    [Stored(TENTHS, r[0], alarm), Stored(SECONDS, r[1], alarm), Stored(MINUTES, r[2], alarm), Stored(HOURS, r[3], alarm)]
  }

  /** Tenths of a second since midnight. */
  function Moment(hour: nat, pm: bool, minute: nat, second: nat, tenth: nat): nat {
    36000 * (hour % 12 + if pm then 12 else 0) + 600 * minute + 10 * second + tenth
  }

  lemma BcdDigits(x: nat)
    requires x < 80
    ensures Bcd(x) % 16 == x % 10 && Bcd(x) / 16 == x / 10 && Bcd(x) < 128
  {
    DivModUnique(Bcd(x), 16, x / 10, x % 10);
  }

  lemma MinuteBytes(x: nat, alarm: bool)
    requires x < 60
    ensures Stored(SECONDS, Bcd(x), alarm) == Stored(MINUTES, Bcd(x), alarm) == Bcd(x)
    ensures Bcd(x) % 16 == x % 10 && Bcd(x) / 16 % 8 == x / 10 && Bcd(x) < 128
  {
    BcdDigits(x);
  }

  lemma HourByte(hour: nat, pm: bool, alarm: bool)
    requires 1 <= hour <= 12
    ensures Bcd(hour) < 32
    ensures var data := Bcd(hour) + if pm then 0x80 else 0;
            var s := Stored(HOURS, data, alarm);
            var flag := if !alarm && hour == 12 then !pm else pm;
            s % 16 == hour % 10 && s / 16 % 2 == hour / 10 && (s >= 0x80 <==> flag) && s % 128 < 32
  {
    hide Stored, Bcd;
    BcdDigits(hour);
    BcdHours(hour);
    HourStored(Bcd(hour), pm, alarm);
    HourParts(Bcd(hour), if !alarm && hour == 12 then !pm else pm);
  }

  lemma BcdHours(hour: nat)
    requires 1 <= hour <= 12
    ensures Bcd(hour) < 32 && Bcd(hour) / 16 % 2 == hour / 10 && (Bcd(hour) == 0x12 <==> hour == 12)
  {
  }

  lemma HourStored(b: u8, pm: bool, alarm: bool)
    requires b < 32
    ensures Stored(HOURS, b + if pm then 0x80 else 0, alarm) == b + if (if !alarm && b == 0x12 then !pm else pm) then 0x80 else 0
  {
    var data := b + if pm then 0x80 else 0;
    assert data % 32 == b && data / 128 == if pm then 1 else 0;
  }

  lemma HourParts(b: u8, flag: bool)
    requires b < 32
    ensures var s := b + if flag then 0x80 else 0;
            s % 16 == b % 16 && s / 16 % 2 == b / 16 % 2 && (s >= 0x80 <==> flag) && s % 128 == b
  {
  }

  lemma TimeOfCounters(ts: nat, s: nat, m: nat, hour: nat, flag: bool)
    requires 1 <= hour <= 12 && m < 60 && s < 60 && ts < 10
    ensures var c := Chain(ts, s % 10, s / 10, m % 10, m / 10, hour % 10, hour / 10, flag);
            IsTime(c) && Value(c) == Moment(hour, flag, m, s, ts)
  {
    var minutes := Digit(m % 10, 10, 16, Digit(m / 10, 6, 8, Hours(hour % 10, hour / 10, flag)));
    var seconds := Digit(s % 10, 10, 16, Digit(s / 10, 6, 8, minutes));
    var h := hour % 12 + if flag then 12 else 0;
    assert Value(minutes.above.above) == h && IsTime(minutes.above.above);
    assert Value(minutes.above) == m / 10 + 6 * h && IsTime(minutes.above);
    assert Value(minutes) == m + 60 * h && IsTime(minutes);
    assert Value(seconds.above) == s / 10 + 6 * (m + 60 * h) && IsTime(seconds.above);
    assert Value(seconds) == s + 60 * (m + 60 * h) && IsTime(seconds);
  }

  /** The clock shows the time written, but at hour 12 with the other half of the day; the alarm means the time written. */
  lemma SetTime(hour: nat, pm: bool, minute: nat, second: nat, tenth: nat, alarm: bool)
    requires 1 <= hour <= 12 && minute < 60 && second < 60 && tenth < 10
    ensures var r := AllStored(TimeBytes(hour, pm, minute, second, tenth), alarm);
            && Canonical(r) && IsTime(Unpack(r))
            && Time(r) == Moment(hour, if hour == 12 && !alarm then !pm else pm, minute, second, tenth)
  {
    hide Bcd, Stored, Chain, Moment, IsTime, Value;
    MinuteBytes(minute, alarm);
    MinuteBytes(second, alarm);
    HourByte(hour, pm, alarm);
    StoredBits(TENTHS, tenth, alarm);
    TimeOfCounters(tenth, second, minute, hour, if hour == 12 && !alarm then !pm else pm);
  }

  // ----- The alarm -----

  /** The same digits, whatever they hold. */
  predicate SameShape(c: Counters, d: Counters) {
    match c
    case Hours(_, _, _) => d.Hours?
    case Digit(_, b, w, up) => d.Digit? && d.base == b && d.width == w && SameShape(up, d.above)
  }

  /** Different times have different values. */
  lemma {:induction false} TimesDiffer(c: Counters, d: Counters)
    requires SameShape(c, d) && IsTime(c) && IsTime(d) && Value(c) == Value(d)
    ensures c == d
  {
    hide Scale;
    match c
    case Hours(_, _, _) =>
    case Digit(v, b, _, up) =>
      var x, y := Value(up), Value(d.above);
      if x < y {
        ScaleGrows(b, x, y);
        assert false;
      }
      if y < x {
        ScaleGrows(b, y, x);
        assert false;
      }
      TimesDiffer(up, d.above);
  }

  lemma {:induction false} TickKeepsShape(c: Counters, d: Counters)
    requires SameShape(c, d)
    ensures SameShape(Tick(c), d)
  {
    if c.Digit? {
      TickKeepsShape(c.above, d.above);
    }
  }

  lemma {:induction false} TicksKeepShape(c: Counters, d: Counters, n: nat)
    requires SameShape(c, d)
    ensures SameShape(Ticks(c, n), d)
    decreases n
  {
    if n > 0 {
      TickKeepsShape(c, d);
      TicksKeepShape(Tick(c), d, n - 1);
    }
  }

  lemma UnpackedShape(a: Registers, b: Registers)
    ensures SameShape(Unpack(a), Unpack(b))
  {
    var x, y := Unpack(a).above.above, Unpack(b).above.above;
    assert SameShape(x.above.above.above, y.above.above.above);
    assert SameShape(x.above, y.above) && SameShape(x, y);
  }

  /** Registers without stray bits that hold the same counters are the same bytes. */
  lemma UnpackIsExact(a: Registers, b: Registers)
    requires Canonical(a) && Canonical(b) && Unpack(a) == Unpack(b)
    ensures a == b
  {
    SameByte(a[1], b[1]);
    SameByte(a[2], b[2]);
    SameHour(a[3], b[3]);
    assert a == [a[0], a[1], a[2], a[3]] && b == [b[0], b[1], b[2], b[3]];
  }

  lemma SameByte(x: u8, y: u8)
    requires x < 128 && y < 128 && x % 16 == y % 16 && x / 16 % 8 == y / 16 % 8
    ensures x == y
  {
  }

  lemma SameHour(x: u8, y: u8)
    requires x % 128 < 32 && y % 128 < 32 && x % 16 == y % 16 && x / 16 % 2 == y / 16 % 2 && (x >= 0x80 <==> y >= 0x80)
    ensures x == y
  {
  }

  /** The alarm goes off exactly when the clock shows its time: of all ticks of a running clock, in those that complete
      that many tenths of a second, once a day. */
  lemma AlarmOnceADay(clock: Registers, alarm: Registers, now: Registers, n: nat)
    requires IsTime(Unpack(clock)) && IsTime(Unpack(alarm)) && Canonical(alarm)
    requires Canonical(now) && Unpack(now) == Ticks(Unpack(clock), n)
    ensures now == alarm <==> (Time(clock) + n) % TENTHS_IN_A_DAY == Time(alarm)
  {
    hide IsTime, Value, Unpack, Ticks, Canonical, Day;
    TicksAdvance(Unpack(clock), n);
    DayOfTenths(clock);
    UnpackedShape(clock, alarm);
    TicksKeepShape(Unpack(clock), Unpack(alarm), n);
    if Time(now) == Time(alarm) {
      TimesDiffer(Unpack(now), Unpack(alarm));
      UnpackIsExact(now, alarm);
    }
  }
}
