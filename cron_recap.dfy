/**
 * The scheduled recap job: for every user's settings document it decides
 * whether to write today, to which address, with which subject and which
 * roast, and it reports the addresses the mail service accepted.  The
 * mail's HTML body, the database queries and the mail client are outside
 * the model: the documents are inputs and the outcome of each send is an
 * oracle.
 */
module CronRecap {
  import opened Wrappers
  import opened JsText
  import DateUtils

  // ---------------------------------------------------------------------------
  // Documents
  // ---------------------------------------------------------------------------

  /**
   * A settings document as the job reads it; each field may be absent.
   * `toxicLevel` is kept as the stored text, since only `=== 'brutal'` is asked of it.
   */
  datatype UserSettings = UserSettings(
    docId: string,
    userId: Option<string>,
    dailyRecapEnabled: Option<bool>,
    toxicLevel: Option<string>)

  /** A stats document; the job reads `executionScore` and `executionTier`, which may be absent. */
  datatype StatDoc = StatDoc(
    date: string,
    totalTasks: int,
    completedTasks: int,
    executionScore: Option<int>,
    executionTier: Option<string>)

  /** The day's figures the mail reports. */
  datatype TodayStat = TodayStat(totalTasks: int, completedTasks: int, executionScore: Option<int>, executionTier: Option<string>)

  /** The stand-in when no stats document has today's key. */
  const DefaultTodayStat := TodayStat(0, 0, Some(0), Some("Slacking"))

  /** `allStats.find(s => s.date === todayKey) || { ...defaults }`. */
  function FindTodayStat(stats: seq<StatDoc>, todayKey: string): (r: TodayStat)
    ensures (forall i :: 0 <= i < |stats| ==> stats[i].date != todayKey) ==> r == DefaultTodayStat
    ensures forall i :: FirstWithKey(stats, todayKey, i) ==> r == FiguresOf(stats[i])
  {
    if stats == [] then DefaultTodayStat
    else if stats[0].date == todayKey then FiguresOf(stats[0])
    else
      var r := FindTodayStat(stats[1..], todayKey);
      FirstWithKeyTail(stats, todayKey);
      r
  }

  /** The figures a stats document reports. */
  function FiguresOf(s: StatDoc): TodayStat {
    TodayStat(s.totalTasks, s.completedTasks, s.executionScore, s.executionTier)
  }

  /** `stats[i]` is the first document with that key. */
  predicate FirstWithKey(stats: seq<StatDoc>, key: string, i: int) {
    0 <= i < |stats| && stats[i].date == key && forall j :: 0 <= j < i ==> stats[j].date != key
  }

  /** Past a first document with another key, the search goes on in the rest. */
  lemma FirstWithKeyTail(stats: seq<StatDoc>, key: string)
    requires stats != [] && stats[0].date != key
    ensures forall i :: FirstWithKey(stats, key, i) ==> FirstWithKey(stats[1..], key, i - 1)
    ensures (forall i :: 0 <= i < |stats| ==> stats[i].date != key) <==>
            (forall i :: 0 <= i < |stats| - 1 ==> stats[1..][i].date != key)
  {
    forall i | FirstWithKey(stats, key, i) ensures FirstWithKey(stats[1..], key, i - 1) {
      assert forall j :: 0 <= j < i - 1 ==> stats[1..][j] == stats[j + 1];
    }
    if forall i :: 0 <= i < |stats| - 1 ==> stats[1..][i].date != key {
      forall i | 0 <= i < |stats| ensures stats[i].date != key {
        if i > 0 {
          assert stats[i] == stats[1..][i - 1];
        }
      }
    }
  }

  // ---------------------------------------------------------------------------
  // The calendar day
  // ---------------------------------------------------------------------------

  predicate IsLeapYear(year: int) {
    year % 4 == 0 && (year % 100 != 0 || year % 400 == 0)
  }

  /** The number of days of a month (1 to 12) in the Gregorian calendar `Date` follows. */
  function DaysInMonth(year: int, month: int): (n: int)
    requires 1 <= month <= 12
    ensures 28 <= n <= 31
  {
    if month == 2 then (if IsLeapYear(year) then 29 else 28)
    else if month == 4 || month == 6 || month == 9 || month == 11 then 30
    else 31
  }

  /** A date the clock can show. */
  predicate ValidDate(year: int, month: int, day: int) {
    1 <= month <= 12 && 1 <= day <= DaysInMonth(year, month)
  }

  /** `tomorrow.getDate()` after `setDate(getDate() + 1)`: the next day of the month, rolling over to 1. */
  function TomorrowDay(year: int, month: int, day: int): (d: int)
    requires ValidDate(year, month, day)
    ensures 1 <= d <= 31
  {
    if day == DaysInMonth(year, month) then 1 else day + 1
  }

  /** `isLastDayOfMonth`: tomorrow is the first of a month. */
  predicate IsLastDayOfMonth(year: int, month: int, day: int)
    requires ValidDate(year, month, day)
  {
    TomorrowDay(year, month, day) == 1
  }

  /** Tomorrow is the first exactly on the month's last day; so February 29 is the last day in a leap year only. */
  lemma LastDayIffMonthEnd(year: int, month: int, day: int)
    requires ValidDate(year, month, day)
    ensures IsLastDayOfMonth(year, month, day) <==> day == DaysInMonth(year, month)
    ensures month == 2 && day == 28 ==> (IsLastDayOfMonth(year, month, day) <==> !IsLeapYear(year))
  {
  }

  // ---------------------------------------------------------------------------
  // Averages
  // ---------------------------------------------------------------------------

  /** `b.executionScore || 0`. */
  function ScoreOrZero(s: StatDoc): int {
    match s.executionScore
    case Some(v) => v
    case None => 0
  }

  function ScoreSum(stats: seq<StatDoc>): int {
    if stats == [] then 0 else ScoreOrZero(stats[0]) + ScoreSum(stats[1..])
  }

  /**
   * `n ? Math.round(sum / n) : 0`: `Math.round` rounds halves up, so this is
   * the integer nearest the mean, the greater one on a tie.
   */
  function RoundedAverage(stats: seq<StatDoc>): (avg: int)
    ensures stats == [] ==> avg == 0
    ensures stats != [] ==> 2 * |stats| * avg <= 2 * ScoreSum(stats) + |stats| < 2 * |stats| * avg + 2 * |stats|
  {
    if stats == [] then 0
    else
      var n, s := |stats|, ScoreSum(stats);
      var q := (2 * s + n) / (2 * n);
      assert 2 * n * q <= 2 * s + n < 2 * n * q + 2 * n by {
        assert 2 * s + n == (2 * n) * q + (2 * s + n) % (2 * n);
      }
      q
  }

  /** Scores between 0 and 100. */
  predicate ScoresInRange(stats: seq<StatDoc>) {
    forall i :: 0 <= i < |stats| ==> 0 <= ScoreOrZero(stats[i]) <= 100
  }

  lemma {:induction false} ScoreSumBounds(stats: seq<StatDoc>)
    requires ScoresInRange(stats)
    ensures 0 <= ScoreSum(stats) <= 100 * |stats|
    decreases |stats|
  {
    if stats != [] {
      assert ScoresInRange(stats[1..]) by {
        forall i | 0 <= i < |stats| - 1 ensures 0 <= ScoreOrZero(stats[1..][i]) <= 100 {
          assert stats[1..][i] == stats[i + 1];
        }
      }
      ScoreSumBounds(stats[1..]);
    }
  }

  /** An average of percentages is a percentage. */
  lemma AverageInRange(stats: seq<StatDoc>)
    requires ScoresInRange(stats)
    ensures 0 <= RoundedAverage(stats) <= 100
  {
    if stats != [] {
      ScoreSumBounds(stats);
      var n, a := |stats|, RoundedAverage(stats);
      if a > 100 {
        assert 2 * n * a >= 2 * n * 101 by {
          MulMonotone(2 * n, 101, a);
        }
      }
    }
  }

  lemma MulMonotone(k: int, x: int, y: int)
    requires k > 0 && x <= y
    ensures k * x <= k * y
  {
    assert k * y - k * x == k * (y - x);
  }

  function Min(a: int, b: int): int {
    if a < b then a else b
  }

  /** `allStats.slice(0, 7)`: the seven newest stats, as the query orders them. */
  function WeekStats(stats: seq<StatDoc>): (w: seq<StatDoc>)
    ensures |w| == Min(7, |stats|) && w == stats[..|w|]
  {
    stats[..Min(7, |stats|)]
  }

  /** `allStats.slice(0, Math.min(31, allStats.length))`. */
  function MonthStats(stats: seq<StatDoc>): (m: seq<StatDoc>)
    ensures |m| == Min(31, |stats|) && m == stats[..|m|]
  {
    stats[..Min(31, |stats|)]
  }

  /** With a week of stats or less both windows are the whole list, so the two averages agree. */
  lemma ShortHistoryAveragesAgree(stats: seq<StatDoc>)
    requires |stats| <= 7
    ensures RoundedAverage(WeekStats(stats)) == RoundedAverage(MonthStats(stats))
  {
    assert WeekStats(stats) == stats == MonthStats(stats);
  }

  // ---------------------------------------------------------------------------
  // Subject and roast
  // ---------------------------------------------------------------------------

  /** A template literal prints an absent field as `undefined`. */
  function TemplateText(x: Option<string>): string {
    match x
    case Some(s) => s
    case None => "undefined"
  }

  function DailySubject(today: TodayStat): string {
    "Execution Report [DAILY] - " + TemplateText(today.executionTier)
  }

  function WeeklySubject(avg: int): string {
    "Execution Report [WEEKLY] - Avg Score: " + IntToString(avg) + "%"
  }

  /** Written without the space before the bracket and with a trailing space, as the source has it. */
  function MonthlySubject(avg: int): string {
    "Execution Report[MONTHLY] - Avg Score: " + IntToString(avg) + "% "
  }

  const DailyTag := "Execution Report [D"
  const WeeklyTag := "Execution Report [W"
  const MonthlyTag := "Execution Report[M"

  /** Each kind of subject starts with its own tag. */
  lemma SubjectTags(today: TodayStat, avg: int)
    ensures DailySubject(today)[..|DailyTag|] == DailyTag
    ensures WeeklySubject(avg)[..|WeeklyTag|] == WeeklyTag
    ensures MonthlySubject(avg)[..|MonthlyTag|] == MonthlyTag
  {
    HeadOfJoin("Execution Report [DAILY] - ", TemplateText(today.executionTier), |DailyTag|);
    HeadOfJoin("Execution Report [WEEKLY] - Avg Score: ", IntToString(avg) + "%", |WeeklyTag|);
    HeadOfJoin("Execution Report[MONTHLY] - Avg Score: ", IntToString(avg) + "% ", |MonthlyTag|);
    assert "Execution Report [WEEKLY] - Avg Score: " + IntToString(avg) + "%"
        == "Execution Report [WEEKLY] - Avg Score: " + (IntToString(avg) + "%");
    assert "Execution Report[MONTHLY] - Avg Score: " + IntToString(avg) + "% "
        == "Execution Report[MONTHLY] - Avg Score: " + (IntToString(avg) + "% ");
  }

  lemma HeadOfJoin(a: string, b: string, n: nat)
    requires n <= |a|
    ensures (a + b)[..n] == a[..n]
  {
  }

  /**
   * The subject the loop ends with after its reassignments: the monthly one
   * on the last day of a month, else the weekly one on a Sunday, else the
   * daily one.
   */
  function SubjectFor(today: TodayStat, stats: seq<StatDoc>, isSunday: bool, isLastDay: bool): (s: string)
    ensures |s| >= |DailyTag| && |s| >= |WeeklyTag| && |s| >= |MonthlyTag|
    ensures s[..|MonthlyTag|] == MonthlyTag <==> isLastDay
    ensures s[..|WeeklyTag|] == WeeklyTag <==> !isLastDay && isSunday
    ensures s[..|DailyTag|] == DailyTag <==> !isLastDay && !isSunday
  {
    var week, month := RoundedAverage(WeekStats(stats)), RoundedAverage(MonthStats(stats));
    SubjectTags(today, week);
    SubjectTags(today, month);
    assert DailyTag[16] == ' ' && DailyTag[18] == 'D' && WeeklyTag[16] == ' ' && WeeklyTag[18] == 'W' && MonthlyTag[16] == '[';
    if isLastDay then MonthlySubject(month)
    else if isSunday then WeeklySubject(week)
    else DailySubject(today)
  }

  const RoastAcceptable := "<p style=\"font-size: 16px; font-weight: bold; color: #10B981;\">Acceptable. Do it again tomorrow.</p>"
  const RoastMediocre := "<p style=\"font-size: 16px; font-weight: bold; color: #F59E0B;\">Mediocre. You left potential on the table because you are undisciplined.</p>"
  const RoastSurvived := "<p style=\"font-size: 16px; font-weight: bold; color: #F59E0B;\">You survived the day, but you didn't conquer it.</p>"
  const RoastPathetic := "<p style=\"font-size: 16px; font-weight: bold; color: #EF4444;\">Absolutely pathetic. You lied to yourself today. If you keep this up, you will fail.</p>"
  const RoastUnacceptable := "<p style=\"font-size: 16px; font-weight: bold; color: #EF4444;\">Unacceptable performance. You need to focus.</p>"

  /** `score >= 90` and `score >= 60` for a score that may be absent: an absent one meets neither. */
  predicate AtLeast(score: Option<int>, bound: int) {
    score.Some? && score.value >= bound
  }

  /**
   * `getToxicRoast(score, level)`: 90 and above gets the same line at every
   * level; 60 to 89 and below 60 each have a brutal line and one line for
   * every other level.
   */
  function ToxicRoast(score: Option<int>, level: Option<string>): (r: string)
    ensures AtLeast(score, 90) ==> r == RoastAcceptable
    ensures !AtLeast(score, 90) && AtLeast(score, 60) ==> r == (if level == Some("brutal") then RoastMediocre else RoastSurvived)
    ensures !AtLeast(score, 60) ==> r == (if level == Some("brutal") then RoastPathetic else RoastUnacceptable)
  {
    if AtLeast(score, 90) then RoastAcceptable
    else if AtLeast(score, 60) then
      if level == Some("brutal") then RoastMediocre else RoastSurvived
    else if level == Some("brutal") then RoastPathetic
    else RoastUnacceptable
  }

  /** The five lines differ, so the roast tells the score band and, below 90, whether the level is brutal. */
  lemma RoastTellsBand(s1: Option<int>, l1: Option<string>, s2: Option<int>, l2: Option<string>)
    requires ToxicRoast(s1, l1) == ToxicRoast(s2, l2)
    ensures AtLeast(s1, 90) <==> AtLeast(s2, 90)
    ensures AtLeast(s1, 60) <==> AtLeast(s2, 60)
    ensures !AtLeast(s1, 90) ==> (l1 == Some("brutal") <==> l2 == Some("brutal"))
  {
    assert |RoastAcceptable| == 100 && |RoastMediocre| == 139 && |RoastSurvived| == 115;
    assert |RoastPathetic| == 151 && |RoastUnacceptable| == 111;
  }

  // ---------------------------------------------------------------------------
  // One user
  // ---------------------------------------------------------------------------

  const FallbackAddress := "user@example.com"

  /** `userSettings.userId || 'user@example.com'`. */
  function AddressOf(u: UserSettings): string {
    OrString(u.userId, FallbackAddress)
  }

  /** `userEmail.includes('@')`. */
  predicate HasAt(address: string) {
    exists i :: 0 <= i < |address| && address[i] == '@'
  }

  /** Users without a stored id are written to the fallback address, which is accepted. */
  lemma FallbackIsAccepted(u: UserSettings)
    requires u.userId.None? || u.userId == Some("")
    ensures AddressOf(u) == FallbackAddress && HasAt(AddressOf(u))
  {
    assert FallbackAddress[4] == '@';
  }

  /** The skip rule: recaps switched off (absent counts as off), and neither a Sunday nor a month's last day. */
  predicate Skips(u: UserSettings, isSunday: bool, isLastDay: bool) {
    u.dailyRecapEnabled != Some(true) && !isSunday && !isLastDay
  }

  /** What is sent to a user: the address, the subject and the roast. */
  datatype Mail = Mail(to: string, subject: string, roast: string)

  /** The job's view of today: the key, whether it is a Sunday, whether it ends the month, and the stats. */
  datatype RunDay = RunDay(todayKey: string, isSunday: bool, isLastDay: bool, stats: seq<StatDoc>)

  /** The mail the loop body attempts for one user, or nothing when it `continue`s. */
  function MailFor(u: UserSettings, day: RunDay): (m: Option<Mail>)
    ensures m.None? <==> Skips(u, day.isSunday, day.isLastDay) || !HasAt(AddressOf(u))
    ensures m.Some? ==> m.value.to == AddressOf(u) && HasAt(m.value.to)
  {
    if Skips(u, day.isSunday, day.isLastDay) then None
    else
      var address := AddressOf(u);
      if !HasAt(address) then None
      else
        var today := FindTodayStat(day.stats, day.todayKey);
        Some(Mail(address, SubjectFor(today, day.stats, day.isSunday, day.isLastDay), ToxicRoast(today.executionScore, u.toxicLevel)))
  }

  /**
   * Stats written by the app carry `completionRate` and no execution fields:
   * their day is reported with the tier `undefined` and the lowest roast.
   */
  lemma AppStatsReadAsUndefined(u: UserSettings, day: RunDay, i: nat)
    requires i < |day.stats| && day.stats[i].date == day.todayKey
    requires forall j :: 0 <= j < i ==> day.stats[j].date != day.todayKey
    requires day.stats[i].executionScore.None? && day.stats[i].executionTier.None?
    requires !day.isSunday && !day.isLastDay && MailFor(u, day).Some?
    ensures MailFor(u, day).value.subject == "Execution Report [DAILY] - undefined"
    ensures MailFor(u, day).value.roast in {RoastPathetic, RoastUnacceptable}
  {
  }

  // ---------------------------------------------------------------------------
  // The loop over users
  // ---------------------------------------------------------------------------

  /** The mails attempted for the users in order. */
  function Attempts(users: seq<UserSettings>, day: RunDay): (ms: seq<Mail>)
    ensures |ms| <= |users|
    ensures forall k :: 0 <= k < |ms| ==> HasAt(ms[k].to)
  {
    if users == [] then []
    else
      var init := Attempts(users[..|users| - 1], day);
      match MailFor(users[|users| - 1], day)
      case Some(m) => init + [m]
      case None => init
  }

  /** The addresses of the attempts the mail service accepted; `delivered(k)` is the outcome of the k-th send. */
  function Accepted(mails: seq<Mail>, delivered: nat -> bool): (sent: seq<string>)
    ensures |sent| <= |mails|
    ensures forall a :: a in sent ==> exists m :: m in mails && m.to == a
  {
    if mails == [] then []
    else
      var init := Accepted(mails[..|mails| - 1], delivered);
      if delivered(|mails| - 1) then init + [mails[|mails| - 1].to] else init
  }

  /** Every address reported as sent contains an `@`. */
  lemma SentAddressesValid(users: seq<UserSettings>, day: RunDay, delivered: nat -> bool)
    ensures forall a :: a in Accepted(Attempts(users, day), delivered) ==> HasAt(a)
  {
    var mails := Attempts(users, day);
    forall a | a in Accepted(mails, delivered) ensures HasAt(a) {
      var m :| m in mails && m.to == a;
      var j :| 0 <= j < |mails| && mails[j] == m;
    }
  }

  /** On a Sunday or on a month's last day nobody is skipped: every user with a usable address gets a mail. */
  lemma {:induction false} ReportDaysReachEveryone(users: seq<UserSettings>, day: RunDay)
    requires day.isSunday || day.isLastDay
    requires forall i :: 0 <= i < |users| ==> HasAt(AddressOf(users[i]))
    ensures |Attempts(users, day)| == |users|
    decreases |users|
  {
    if users != [] {
      ReportDaysReachEveryone(users[..|users| - 1], day);
    }
  }

  /** On an ordinary day, users who switched recaps off get nothing. */
  lemma {:induction false} OrdinaryDayRespectsOptOut(users: seq<UserSettings>, day: RunDay)
    requires !day.isSunday && !day.isLastDay
    requires forall i :: 0 <= i < |users| ==> users[i].dailyRecapEnabled != Some(true)
    ensures Attempts(users, day) == []
    decreases |users|
  {
    if users != [] {
      OrdinaryDayRespectsOptOut(users[..|users| - 1], day);
    }
  }

  /** A user the loop `continue`s past adds no attempt. */
  lemma SkipStep(users: seq<UserSettings>, i: nat, day: RunDay)
    requires i < |users| && MailFor(users[i], day).None?
    ensures Attempts(users[..i + 1], day) == Attempts(users[..i], day)
  {
    assert users[..i + 1][..i] == users[..i];
  }

  /** A user who is written to adds their mail at the end. */
  lemma SendStep(users: seq<UserSettings>, i: nat, day: RunDay, mail: Mail)
    requires i < |users| && MailFor(users[i], day) == Some(mail)
    ensures Attempts(users[..i + 1], day) == Attempts(users[..i], day) + [mail]
  {
    assert users[..i + 1][..i] == users[..i];
  }

  lemma AcceptedStep(mails: seq<Mail>, m: Mail, delivered: nat -> bool)
    ensures Accepted(mails + [m], delivered) ==
      if delivered(|mails|) then Accepted(mails, delivered) + [m.to] else Accepted(mails, delivered)
  {
    assert (mails + [m])[..|mails|] == mails;
  }

  /** The mail of a user who is written to, with the subject spelled out as the loop builds it. */
  lemma MailForSent(u: UserSettings, day: RunDay)
    requires !Skips(u, day.isSunday, day.isLastDay) && HasAt(AddressOf(u))
    ensures var today := FindTodayStat(day.stats, day.todayKey);
      var subject := if day.isLastDay then MonthlySubject(RoundedAverage(MonthStats(day.stats)))
                     else if day.isSunday then WeeklySubject(RoundedAverage(WeekStats(day.stats)))
                     else DailySubject(today);
      MailFor(u, day) == Some(Mail(AddressOf(u), subject, ToxicRoast(today.executionScore, u.toxicLevel)))
  {
  }

  /**
   * The body of the loop for a user who is written to: today's stats, the
   * subject built by reassignment (daily, then weekly on a Sunday, then
   * monthly on a month's last day), and the roast.
   */
  method ComposeMail(u: UserSettings, day: RunDay, address: string) returns (mail: Mail)
    requires !Skips(u, day.isSunday, day.isLastDay) && address == AddressOf(u) && HasAt(address)
    ensures MailFor(u, day) == Some(mail)
  {
    var today := FindTodayStat(day.stats, day.todayKey);
    var subject := DailySubject(today);
    if day.isSunday {
      subject := WeeklySubject(RoundedAverage(WeekStats(day.stats)));
    }
    if day.isLastDay {
      subject := MonthlySubject(RoundedAverage(MonthStats(day.stats)));
    }
    mail := Mail(address, subject, ToxicRoast(today.executionScore, u.toxicLevel));
    MailForSent(u, day);
  }

  /**
   * The `for` loop: skip, check the address, build the subject by
   * reassignment, attempt the send, and record the address when the send
   * reports no error.
   */
  method SendRecaps(users: seq<UserSettings>, day: RunDay, delivered: nat -> bool) returns (attempted: seq<Mail>, sentTo: seq<string>)
    ensures attempted == Attempts(users, day)
    ensures sentTo == Accepted(attempted, delivered)
  {
    attempted := [];
    sentTo := [];
    var i := 0;
    while i < |users|
      invariant 0 <= i <= |users|
      invariant attempted == Attempts(users[..i], day)
      invariant sentTo == Accepted(attempted, delivered)
    {
      attempted, sentTo := VisitUser(users, i, day, delivered, attempted, sentTo);
      i := i + 1;
    }
    assert users[..i] == users;
  }

  /**
   * One pass of the loop body for `users[i]`: `continue` for a skipped user
   * or an address without `@`; otherwise attempt the mail and record the
   * address when the send reports no error.
   */
  method VisitUser(users: seq<UserSettings>, i: nat, day: RunDay, delivered: nat -> bool,
                   attempted: seq<Mail>, sentTo: seq<string>) returns (attempted': seq<Mail>, sentTo': seq<string>)
    requires i < |users| && attempted == Attempts(users[..i], day) && sentTo == Accepted(attempted, delivered)
    ensures attempted' == Attempts(users[..i + 1], day)
    ensures sentTo' == Accepted(attempted', delivered)
  {
    var u := users[i];
    if u.dailyRecapEnabled != Some(true) && !day.isSunday && !day.isLastDay {
      SkipStep(users, i, day);
      return attempted, sentTo;
    }
    var address := OrString(u.userId, FallbackAddress);
    if !HasAt(address) {
      SkipStep(users, i, day);
      return attempted, sentTo;
    }
    var mail := ComposeMail(u, day, address);
    SendStep(users, i, day, mail);
    AcceptedStep(attempted, mail, delivered);
    var k := |attempted|;
    attempted' := attempted + [mail];
    sentTo' := sentTo;
    if delivered(k) {
      sentTo' := sentTo + [address];
    }
  }

  // ---------------------------------------------------------------------------
  // The whole run
  // ---------------------------------------------------------------------------

  /** The JSON the job answers with. */
  datatype Response =
    | MissingEnvironment
    | NoUsers
    | ListingFailed
    | Report(sentCount: nat, sentTo: seq<string>, isWeekly: bool, isMonthly: bool)

  /**
   * One run on the local date `year-month-day`, `weekday` 0 being Sunday.
   * `settings` and `stats` are the listings, absent when the database call
   * throws; the settings listing is read before the stats listing.
   */
  method Run(envOk: bool, settings: Option<seq<UserSettings>>, stats: Option<seq<StatDoc>>,
             year: int, month: int, day: int, weekday: int, delivered: nat -> bool) returns (resp: Response)
    requires ValidDate(year, month, day)
    ensures !envOk ==> resp == MissingEnvironment
    ensures envOk && settings.None? ==> resp == ListingFailed
    ensures envOk && settings == Some([]) ==> resp == NoUsers
    ensures envOk && settings.Some? && settings.value != [] && stats.None? ==> resp == ListingFailed
    ensures envOk && settings.Some? && settings.value != [] && stats.Some? ==>
      var runDay := RunDay(DateUtils.DateKey(year, month - 1, day), weekday == 0, IsLastDayOfMonth(year, month, day), stats.value);
      var sent := Accepted(Attempts(settings.value, runDay), delivered);
      resp == Report(|sent|, sent, weekday == 0, IsLastDayOfMonth(year, month, day))
  {
    if !envOk {
      return MissingEnvironment;
    }
    if settings.None? {
      return ListingFailed;
    }
    if settings.value == [] {
      return NoUsers;
    }
    if stats.None? {
      return ListingFailed;
    }
    var runDay := RunDay(DateUtils.DateKey(year, month - 1, day), weekday == 0, IsLastDayOfMonth(year, month, day), stats.value);
    var attempted, sentTo := SendRecaps(settings.value, runDay, delivered);
    resp := Report(|sentTo|, sentTo, runDay.isSunday, runDay.isLastDay);
  }
}
