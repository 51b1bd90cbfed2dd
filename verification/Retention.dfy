// Which log files cleanup removes (internal/logger/logger.go).

module Retention {
  import opened Optional
  import opened Dates

  // Nanoseconds, the resolution of the clock.
  const HOUR: int := 3_600_000_000_000
  const DAY: int := 24 * HOUR

  // A reading of the local clock: the date, the time within it, and the zone's
  // offset from UTC.
  datatype Clock = Clock(today: Date, since: int, offset: int)

  predicate IsClock(c: Clock) {
    IsDate(c.today) && 0 <= c.since < DAY && -12 * HOUR <= c.offset <= 14 * HOUR
  }

  // The instant, counted from 0000-01-01 00:00 UTC.
  function Instant(c: Clock): int {
    DayNumber(c.today) * DAY + c.since - c.offset
  }

  // ---- Names ----

  // What the configured path's last element is split into.
  datatype Names = Names(base: string, ext: string)

  function Prefix(n: Names): string {
    n.base + "-"
  }

  // fileNameFor, within the log directory.
  function FileName(n: Names, d: Date): string {
    Prefix(n) + Format(d) + n.ext
  }

  // The symbolic link to the current file.
  function LinkName(n: Names): string {
    n.base + n.ext
  }

  predicate HasPrefix(s: string, p: string) {
    p <= s
  }

  predicate HasSuffix(s: string, p: string) {
    |p| <= |s| && s[|s| - |p|..] == p
  }

  function TrimPrefix(s: string, p: string): string {
    if HasPrefix(s, p) then s[|p|..] else s
  }

  function TrimSuffix(s: string, p: string): string {
    if HasSuffix(s, p) then s[..|s| - |p|] else s
  }

  // The date cleanup reads from a name, if it takes the name for a log file's.
  function DateIn(n: Names, name: string): Option<Date> {
    if !HasPrefix(name, Prefix(n)) || !HasSuffix(name, n.ext) then None else
    Parse(TrimSuffix(TrimPrefix(name, Prefix(n)), n.ext))
  }

  // cleanup's whole test of a name.
  predicate Expired(n: Names, name: string, maxAgeDays: int, now: Clock) {
    DateIn(n, name).Some? && DayNumber(DateIn(n, name).value) * DAY < Instant(now) - maxAgeDays * DAY
  }

  // ---- The bound ----

  function DaysBehind(d: Date, now: Clock): int {
    DayNumber(now.today) - DayNumber(d)
  }

  lemma {:induction false} ReadsOwnName(n: Names, d: Date)
    requires IsDate(d)
    ensures DateIn(n, FileName(n, d)) == Some(d)
  {
    ParseFormat(d);
    var name := FileName(n, d);
    assert name == Prefix(n) + (Format(d) + n.ext);
    assert name[|Prefix(n)|..] == Format(d) + n.ext;
    assert name[|name| - |n.ext|..] == n.ext;
    var rest := TrimPrefix(name, Prefix(n));
    assert rest[|rest| - |n.ext|..] == n.ext;
    assert rest[..|rest| - |n.ext|] == Format(d);
  }

  lemma {:induction false} Shift(x: int, y: int, s: int, o: int, n: int)
    requires 0 <= s < DAY && -12 * HOUR <= o <= 14 * HOUR
    ensures y * DAY < x * DAY + s - o - n * DAY <==> (x - y) * DAY + s - o > n * DAY
    ensures x - y >= n + 1 ==> (x - y) * DAY + s - o > n * DAY
    ensures x - y <= n - 2 ==> (x - y) * DAY + s - o <= n * DAY
  {
  }

  // A file a days behind the local date is selected exactly past this bound, so
  // always from n + 1 days on and never up to n - 2.
  lemma {:induction false} RetentionBound(n: Names, d: Date, maxAgeDays: int, now: Clock)
    requires IsDate(d) && IsClock(now)
    ensures var a := DayNumber(now.today) - DayNumber(d); var selected := Expired(n, FileName(n, d), maxAgeDays, now);
      && (selected <==> (a - maxAgeDays) * 86_400_000_000_000 + now.since - now.offset > 0)
      && (a >= maxAgeDays + 1 ==> selected)
      && (a <= maxAgeDays - 2 ==> !selected)
  {
    ReadsOwnName(n, d);
    Shift(DayNumber(now.today), DayNumber(d), now.since, now.offset, maxAgeDays);
  }

  // The file of the current date is selected exactly when the limit is one day
  // and the local time is further into the day than DAY + offset.
  lemma {:induction false} TodaySelected(n: Names, maxAgeDays: int, now: Clock)
    requires IsClock(now) && maxAgeDays >= 1
    ensures Expired(n, FileName(n, now.today), maxAgeDays, now)
       <==> maxAgeDays == 1 && now.since > DAY + now.offset
    ensures maxAgeDays >= 2 || now.offset >= 0 ==> !Expired(n, FileName(n, now.today), maxAgeDays, now)
  {
    RetentionBound(n, now.today, maxAgeDays, now);
  }

  // ---- Foreign names ----

  // The extension ends in a date, and what precedes that date ends the prefix.
  predicate Overlaps(n: Names) {
    var k := |n.ext| - 10;
    k > 0 && HasSuffix(Prefix(n), n.ext[..k]) && Parse(n.ext[k..]).Some?
  }

  ghost predicate Own(n: Names, name: string) {
    exists d :: IsDate(d) && name == FileName(n, d)
  }

  // Between prefix and extension there is exactly the date.
  lemma {:induction false} ApartIsOwn(n: Names, rest: string)
    requires HasSuffix(rest, n.ext) && Parse(TrimSuffix(rest, n.ext)).Some?
    ensures Own(n, Prefix(n) + rest)
  {
    var date := TrimSuffix(rest, n.ext);
    FormatParse(date);
    assert rest == date + n.ext;
    assert Prefix(n) + rest == FileName(n, Parse(date).value);
  }

  // A date shorter than the extension that ends a name of this form.
  lemma {:induction false} WithinOverlaps(n: Names, rest: string)
    requires HasSuffix(Prefix(n) + rest, n.ext) && |rest| < |n.ext| && Parse(rest).Some?
    ensures Overlaps(n)
  {
    var p, x := Prefix(n), n.ext;
    var k := |x| - 10;
    TenCharacters(rest);
    SuffixSplits(p, rest, x);
    assert x[k..] == rest && x[..k] == p[|p| - k..];
  }

  lemma {:induction false} TenCharacters(s: string)
    requires Parse(s).Some?
    ensures |s| == 10
  {
  }

  // A suffix longer than the second part is the end of the first, then the second.
  lemma {:induction false} SuffixSplits(p: string, rest: string, x: string)
    requires HasSuffix(p + rest, x) && |rest| <= |x|
    ensures var k := |x| - |rest|; k <= |p| && x[..k] == p[|p| - k..] && x[k..] == rest
  {
    var k := |x| - |rest|;
    var name := p + rest;
    assert x == name[|p| - k..];
    assert x[k..] == name[|p|..];
    assert x[..k] == name[|p| - k..|p|];
  }

  lemma {:induction false} OwnOrOverlapping(n: Names, name: string)
    requires DateIn(n, name).Some?
    ensures Own(n, name) || Overlaps(n)
  {
    var p, x := Prefix(n), n.ext;
    var rest := name[|p|..];
    assert name == p + rest;
    if |x| <= |rest| {
      SuffixOfRest(p, rest, x);
      ApartIsOwn(n, rest);
    } else {
      WithinOverlaps(n, rest);
    }
  }

  lemma {:induction false} SuffixOfRest(p: string, rest: string, x: string)
    requires HasSuffix(p + rest, x) && |x| <= |rest|
    ensures HasSuffix(rest, x)
  {
    assert (p + rest)[|p| + |rest| - |x|..] == rest[|rest| - |x|..];
  }

  // The names that carry the date d: the file's own, and one in which the
  // extension overlaps the prefix around the date.
  predicate Carries(n: Names, name: string, d: Date) {
    || name == n.base + "-" + Format(d) + n.ext
    || (name == n.base + "-" + Format(d) && HasSuffix(name, n.ext) && |n.ext| > 10)
  }

  lemma {:induction false} CarriedDate(n: Names, name: string, d: Date)
    requires IsDate(d) && Carries(n, name, d)
    ensures DateIn(n, name) == Some(d)
  {
    if name == n.base + "-" + Format(d) + n.ext {
      assert name == FileName(n, d);
      ReadsOwnName(n, d);
    } else {
      ParseFormat(d);
      assert name[|Prefix(n)|..] == Format(d);
    }
  }

  lemma {:induction false} ApartCarries(n: Names, rest: string)
    requires HasSuffix(rest, n.ext) && Parse(TrimSuffix(rest, n.ext)).Some?
    ensures var d := Parse(TrimSuffix(rest, n.ext)).value; IsDate(d) && Carries(n, Prefix(n) + rest, d)
  {
    var date := TrimSuffix(rest, n.ext);
    FormatParse(date);
    assert rest == date + n.ext;
    assert Prefix(n) + (date + n.ext) == Prefix(n) + date + n.ext;
  }

  lemma {:induction false} WithinCarries(n: Names, rest: string)
    requires HasSuffix(Prefix(n) + rest, n.ext) && |rest| < |n.ext| && Parse(rest).Some?
    ensures IsDate(Parse(rest).value) && Carries(n, Prefix(n) + rest, Parse(rest).value)
  {
    FormatParse(rest);
    TenCharacters(rest);
  }

  lemma {:induction false} DateCarried(n: Names, name: string)
    requires DateIn(n, name).Some?
    ensures IsDate(DateIn(n, name).value) && Carries(n, name, DateIn(n, name).value)
  {
    var p, x := Prefix(n), n.ext;
    var rest := name[|p|..];
    assert name == p + rest && TrimPrefix(name, p) == rest;
    if |x| <= |rest| {
      SuffixOfRest(p, rest, x);
      ApartCarries(n, rest);
    } else {
      WithinCarries(n, rest);
    }
  }

  // In nanoseconds, with a day of 24 hours.
  predicate Outdated(d: Date, maxAgeDays: int, now: Clock) {
    (DayNumber(now.today) - DayNumber(d) - maxAgeDays) * 86_400_000_000_000 + now.since - now.offset > 0
  }

  lemma {:induction false} OutdatedInstant(d: Date, maxAgeDays: int, now: Clock)
    requires IsClock(now)
    ensures Outdated(d, maxAgeDays, now) <==> DayNumber(d) * DAY < Instant(now) - maxAgeDays * DAY
  {
    Shift(DayNumber(now.today), DayNumber(d), now.since, now.offset, maxAgeDays);
  }

  // The whole test, by the name and the clock alone.
  lemma {:induction false} ExpiredExactly(n: Names, name: string, maxAgeDays: int, now: Clock)
    requires IsClock(now)
    ensures Expired(n, name, maxAgeDays, now) <==>
      exists d :: IsDate(d) && Carries(n, name, d) && Outdated(d, maxAgeDays, now)
  {
    if Expired(n, name, maxAgeDays, now) {
      DateCarried(n, name);
      OutdatedInstant(DateIn(n, name).value, maxAgeDays, now);
    }
    if d :| IsDate(d) && Carries(n, name, d) && Outdated(d, maxAgeDays, now) {
      CarriedDate(n, name, d);
      OutdatedInstant(d, maxAgeDays, now);
    }
  }

  lemma {:induction false} OverlappingName(n: Names)
    requires Overlaps(n)
    ensures var name := Prefix(n) + n.ext[|n.ext| - 10..]; DateIn(n, name).Some? && !Own(n, name)
  {
    var p, x := Prefix(n), n.ext;
    var k := |x| - 10;
    var name := p + x[k..];
    assert name[|name| - |x|..] == p[|p| - k..] + x[k..];
    assert x == x[..k] + x[k..];
    assert name[|p|..] == x[k..];
    forall d | IsDate(d) ensures name != FileName(n, d) {
      ParseFormat(d);
    }
  }

  // Cleanup only ever takes names fileNameFor can produce, exactly when the
  // prefix and the extension cannot overlap around a date.
  lemma {:induction false} OnlyOwnNames(n: Names)
    ensures (forall name :: DateIn(n, name).Some? ==> Own(n, name)) <==> !Overlaps(n)
  {
    forall name | DateIn(n, name).Some? && !Own(n, name) ensures Overlaps(n) {
      OwnOrOverlapping(n, name);
    }
    if Overlaps(n) {
      OverlappingName(n);
    }
  }

  // An extension as filepath.Ext gives it: one dot, at its start. The link is
  // then never taken for a log file.
  lemma {:induction false} LinkIsSpared(n: Names)
    requires n.ext != "" && n.ext[0] == '.'
    ensures DateIn(n, LinkName(n)).None?
  {
    assert LinkName(n)[|n.base|] == '.' && Prefix(n)[|n.base|] == '-';
  }

  lemma {:induction false} DigitsHaveNoDot(n: nat, width: nat)
    ensures '.' !in Digits(n, width)
  {
    if width > 0 { DigitsHaveNoDot(n / 10, width - 1); }
  }

  lemma {:induction false} DateHasNoDot(d: Date)
    ensures '.' !in Format(d)
  {
    DigitsHaveNoDot(d.year, 4);
    DigitsHaveNoDot(d.month, 2);
    DigitsHaveNoDot(d.day, 2);
  }

  // ---- The configured path ----

  predicate HasDot(s: string) {
    '.' in s
  }

  // What New makes of the last element of the path: the extension starts at the
  // last dot, and is .log if there is none.
  function Split(last: string): Names {
    if last == "" then Names("", ".log") else
    var n := |last| - 1;
    if last[n] == '.' then Names(last[..n], last[n..]) else
    if HasDot(last[..n]) then Names(Split(last[..n]).base, Split(last[..n]).ext + [last[n]]) else Names(last, ".log")
  }

  // With a dot the two parts are the path's again, cut at its last dot; without
  // one .log is added. Either way the extension is one dot, then none.
  lemma {:induction false} SplitsAtLastDot(last: string)
    ensures var n := Split(last);
      && n.base + n.ext == (if HasDot(last) then last else last + ".log")
      && n.ext != "" && n.ext[0] == '.' && '.' !in n.ext[1..]
  {
    if last != "" {
      var k := |last| - 1;
      var c := last[k];
      SplitsAtLastDot(last[..k]);
      assert last == last[..k] + [c];
      var m := Split(last[..k]);
      if c != '.' && HasDot(last[..k]) {
        Joined(m.base, m.ext, c);
        assert (m.ext + [c])[1..] == m.ext[1..] + [c];
      }
    }
  }

  lemma {:induction false} Joined(a: string, b: string, c: char)
    ensures a + (b + [c]) == a + b + [c]
  {
  }

  // What a path like gateway.log stands for: gateway-2026-09-02.log and the link
  // gateway.log.
  lemma {:induction false} NamesOfPath(base: string, ext: string, d: Date)
    requires ext != "" && ext[0] == '.' && '.' !in ext[1..]
    ensures FileName(Split(base + ext), d) == base + "-" + Format(d) + ext
    ensures LinkName(Split(base + ext)) == base + ext
  {
    SplitIs(base, ext);
  }

  lemma {:induction false} SplitIs(base: string, ext: string)
    requires ext != "" && ext[0] == '.' && '.' !in ext[1..]
    ensures Split(base + ext) == Names(base, ext)
    decreases |ext|
  {
    var last := base + ext;
    var k := |last| - 1;
    assert last[k] == ext[|ext| - 1];
    if |ext| == 1 {
      assert last[..k] == base && last[k..] == ext;
    } else {
      var shorter := ext[..|ext| - 1];
      assert last[..k] == base + shorter && last[..k][|base|] == '.';
      assert ext[1..] == shorter[1..] + [last[k]];
      SplitIs(base, shorter);
      assert ext == shorter + [last[k]];
      assert last[k] in ext[1..];
    }
  }

  // The names split from a file called x..-2020-01-01 do overlap.
  lemma {:induction false} OverlapExists(d: Date)
    requires IsDate(d)
    ensures Overlaps(Split("x..-" + Format(d)))
  {
    var n := Names("x.", ".-" + Format(d));
    ParseFormat(d);
    DateHasNoDot(d);
    SplitIs(n.base, n.ext);
    assert "x..-" + Format(d) == n.base + n.ext;
    assert n.ext[2..] == Format(d) && n.ext[..2] == ".-";
    assert Prefix(n) == "x.-" && Prefix(n)[1..] == ".-";
  }
}
