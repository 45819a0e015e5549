/**
 * Statistics of the live connection, how they are shown, and the connection
 * state the home screen observes.
 */
module ConnectionStatsModel {
  import opened Wrappers
  import opened KotlinLong
  import opened DnsServers
  import DnsTestResults

  /** Times are milliseconds since the epoch, `dataUsed` is bytes, `connectionDuration` milliseconds. */
  datatype ConnectionStats = ConnectionStats(
    connectedDns: Option<DnsServer>,
    connectionStartTime: int,
    currentPing: int,
    dataUsed: int,
    isConnected: bool,
    connectionDuration: int)

  /** `ConnectionStats()` with every parameter left at its default. */
  const DefaultStats: ConnectionStats := ConnectionStats(None, 0, 0, 0, false, 0)

  /** `NotConnected` is the source's `DISCONNECTED`, renamed apart from the state `Disconnected`. */
  datatype ConnectionQuality = Excellent | Good | Fair | Poor | VeryPoor | NotConnected

  /** The four states of the connection as the user interface sees it. */
  datatype ConnectionState =
    | Disconnected
    | Connecting
    | Connected(stats: ConnectionStats)
    | Error(message: string)

  /** What the duration text shows: hours and minutes, minutes and seconds, or seconds alone. */
  datatype ShownDuration =
    | HoursMinutes(hours: int, minutes: int)
    | MinutesSeconds(minutes: int, seconds: int)
    | SecondsOnly(seconds: int)

  /** The parts of a duration the text shows, computed with Kotlin's truncating `/` and `%`. */
  function ShowDuration(durationMs: int): ShownDuration {
    var seconds := Quot(durationMs, 1000);
    var minutes := Quot(seconds, 60);
    var hours := Quot(minutes, 60);
    if hours > 0 then HoursMinutes(hours, Rem(minutes, 60))
    else if minutes > 0 then MinutesSeconds(minutes, Rem(seconds, 60))
    else SecondsOnly(seconds)
  }

  function RenderDuration(d: ShownDuration): string {
    match d
    case HoursMinutes(h, m) => IntToString(h) + "h " + IntToString(m) + "m"
    case MinutesSeconds(m, s) => IntToString(m) + "m " + IntToString(s) + "s"
    case SecondsOnly(s) => IntToString(s) + "s"
  }

  /** `"<h>h <m>m"`, `"<m>m <s>s"` or `"<s>s"`. */
  function FormattedDuration(stats: ConnectionStats): string {
    RenderDuration(ShowDuration(stats.connectionDuration))
  }

  /** Two numbers rendered around a separator and before an end marker read back from their places. */
  lemma PairReadsBack(x: int, sep: string, y: int, end: string)
    ensures var t, k := IntToString(x) + sep + IntToString(y) + end, |IntToString(x)|;
      && k + |sep| <= |t| - |end| && t[k..k + |sep|] == sep && t[|t| - |end|..] == end
      && ParseInt(t[..k]) == x && ParseInt(t[k + |sep|..|t| - |end|]) == y
  {
    var a, b := IntToString(x), IntToString(y);
    var front := a + sep;
    var body := front + b;
    var t := body + end;
    assert t[..|body|] == body && t[|body|..] == end;
    assert body[..|front|] == front && body[|front|..] == b;
    assert front[..|a|] == a && front[|a|..] == sep;
    assert t[..|a|] == front[..|a|];
    assert t[|a|..|front|] == front[|a|..];
    assert t[|front|..|body|] == body[|front|..];
    IntToStringRoundTrip(x);
    IntToStringRoundTrip(y);
  }

  /** One number rendered before an end marker reads back. */
  lemma NumberReadsBack(x: int, end: string)
    ensures var t := IntToString(x) + end;
      |end| <= |t| && t[|t| - |end|..] == end && ParseInt(t[..|t| - |end|]) == x
  {
    var t := IntToString(x) + end;
    assert t[..|t| - |end|] == IntToString(x);
    IntToStringRoundTrip(x);
  }

  /**
   * The duration text reads back: the number before "h " and the one before
   * the final "m" are the hours and minutes shown, and likewise for minutes
   * and seconds, or for the seconds alone before the final "s".
   */
  lemma DurationTextReadsBack(stats: ConnectionStats)
    ensures var t := FormattedDuration(stats);
      match ShowDuration(stats.connectionDuration)
      case HoursMinutes(h, m) =>
        var k := |IntToString(h)|;
        k + 2 <= |t| - 1 && t[k..k + 2] == "h " && t[|t| - 1..] == "m"
        && ParseInt(t[..k]) == h && ParseInt(t[k + 2..|t| - 1]) == m
      case MinutesSeconds(m, sec) =>
        var k := |IntToString(m)|;
        k + 2 <= |t| - 1 && t[k..k + 2] == "m " && t[|t| - 1..] == "s"
        && ParseInt(t[..k]) == m && ParseInt(t[k + 2..|t| - 1]) == sec
      case SecondsOnly(sec) =>
        1 <= |t| && t[|t| - 1..] == "s" && ParseInt(t[..|t| - 1]) == sec
  {
    match ShowDuration(stats.connectionDuration)
    case HoursMinutes(h, m) => PairReadsBack(h, "h ", m, "m");
    case MinutesSeconds(m, sec) => PairReadsBack(m, "m ", sec, "s");
    case SecondsOnly(sec) => NumberReadsBack(sec, "s");
  }

  /**
   * For a non-negative duration the text shows its two leading units, rounded
   * down: whole hours and the minutes past them from one hour on, whole
   * minutes and the seconds past them from one minute on, else whole seconds;
   * the trailing unit is always below 60.
   */
  lemma DurationShowsLeadingUnits(durationMs: int)
    requires durationMs >= 0
    ensures ShowDuration(durationMs).HoursMinutes? <==> durationMs >= 3600000
    ensures ShowDuration(durationMs).MinutesSeconds? <==> 60000 <= durationMs < 3600000
    ensures match ShowDuration(durationMs)
      case HoursMinutes(h, m) => 0 <= m < 60 && h * 60 + m == durationMs / 60000
      case MinutesSeconds(m, s) => 1 <= m < 60 && 0 <= s < 60 && m * 60 + s == durationMs / 1000
      case SecondsOnly(s) => 0 <= s < 60 && s == durationMs / 1000
  {
    var seconds := durationMs / 1000;
    var minutes := seconds / 60;
    assert minutes == durationMs / 60000;
    assert minutes / 60 == durationMs / 3600000;
    QuotRemNonNegative(durationMs, 1000);
    QuotRemNonNegative(seconds, 60);
    QuotRemNonNegative(minutes, 60);
  }

  /** A negative duration (a clock set back) shows as seconds, truncated toward zero. */
  lemma NegativeDurationShowsSeconds(durationMs: int)
    requires durationMs < 0
    ensures ShowDuration(durationMs).SecondsOnly?
    ensures var s := ShowDuration(durationMs).seconds; s <= 0 && -1000 < durationMs - s * 1000 <= 0
  {
  }

  datatype DataUnit = Bytes | Kilobytes | Megabytes | Gigabytes

  function UnitSize(u: DataUnit): nat {
    match u
    case Bytes => 1
    case Kilobytes => 1024
    case Megabytes => 1024 * 1024
    case Gigabytes => 1024 * 1024 * 1024
  }

  function UnitSuffix(u: DataUnit): string {
    match u
    case Bytes => "B"
    case Kilobytes => "KB"
    case Megabytes => "MB"
    case Gigabytes => "GB"
  }

  /** The number and unit the data-usage text shows. */
  function ShowDataUsage(dataUsed: int): (int, DataUnit) {
    if dataUsed < 1024 then (dataUsed, Bytes)
    else if dataUsed < 1024 * 1024 then (dataUsed / 1024, Kilobytes)
    else if dataUsed < 1024 * 1024 * 1024 then (dataUsed / (1024 * 1024), Megabytes)
    else (dataUsed / (1024 * 1024 * 1024), Gigabytes)
  }

  /** `"<n>B"`, `"<n>KB"`, `"<n>MB"` or `"<n>GB"`. */
  function FormattedDataUsage(stats: ConnectionStats): string {
    var (amount, unit) := ShowDataUsage(stats.dataUsed);
    IntToString(amount) + UnitSuffix(unit)
  }

  /**
   * The largest unit that fits is chosen: in the KB and MB bands the number is
   * between 1 and 1023, and for a non-negative count the number is the count
   * in that unit rounded down.
   */
  lemma DataUsageBands(dataUsed: int)
    ensures var (amount, unit) := ShowDataUsage(dataUsed);
      && (unit == Bytes <==> dataUsed < 1024)
      && (unit == Kilobytes || unit == Megabytes ==> 1 <= amount <= 1023)
      && (unit == Gigabytes ==> amount >= 1)
      && (dataUsed >= 0 ==> amount * UnitSize(unit) <= dataUsed < (amount + 1) * UnitSize(unit))
  {
  }

  /** The data-usage text ends in the chosen unit's suffix, and the number before it reads back. */
  lemma DataUsageTextReadsBack(stats: ConnectionStats)
    ensures var t, shown := FormattedDataUsage(stats), ShowDataUsage(stats.dataUsed);
      var suffix := UnitSuffix(shown.1);
      |suffix| <= |t| && t[|t| - |suffix|..] == suffix && ParseInt(t[..|t| - |suffix|]) == shown.0
  {
    var shown := ShowDataUsage(stats.dataUsed);
    NumberReadsBack(shown.0, UnitSuffix(shown.1));
  }

  /** Position of a quality, from the best (0) to not connected (5). */
  function ConnectionRank(q: ConnectionQuality): nat {
    match q
    case Excellent => 0
    case Good => 1
    case Fair => 2
    case Poor => 3
    case VeryPoor => 4
    case NotConnected => 5
  }

  /** Quality of the live connection, banded by current ping. */
  function ConnectionQualityOf(stats: ConnectionStats): (q: ConnectionQuality)
    ensures q == NotConnected <==> !stats.isConnected
    ensures q == Excellent <==> stats.isConnected && stats.currentPing < 20
    ensures q == Good <==> stats.isConnected && 20 <= stats.currentPing < 50
    ensures q == Fair <==> stats.isConnected && 50 <= stats.currentPing < 100
    ensures q == Poor <==> stats.isConnected && 100 <= stats.currentPing < 200
    ensures q == VeryPoor <==> stats.isConnected && 200 <= stats.currentPing
  {
    if !stats.isConnected then NotConnected
    else if stats.currentPing < 20 then Excellent
    else if stats.currentPing < 50 then Good
    else if stats.currentPing < 100 then Fair
    else if stats.currentPing < 200 then Poor
    else VeryPoor
  }

  /**
   * The connection quality uses the same bands as a test result's rating: a
   * connection with ping p is rated like a successful test averaging p, and
   * being disconnected ranks like a failed test.
   */
  lemma QualityScalesAgree(stats: ConnectionStats, r: DnsTestResults.DnsTestResult)
    requires stats.isConnected == r.isSuccess
    requires stats.isConnected ==> stats.currentPing == r.avgPing
    ensures ConnectionRank(ConnectionQualityOf(stats)) == DnsTestResults.QualityRank(DnsTestResults.QualityRating(r))
  {
  }
}
