/** The activity summary of an observation and the check a reported observation must pass.
    Times are microseconds, dates are day numbers in UTC. */
module Activity {
  import opened Options

  type Id = nat
  type Time = int

  const SECOND: int := 1_000_000
  const DAY: int := 86_400 * SECOND

  datatype Message = Message(guild: Id, channel: Id, id: Id, author: Id, bot: bool, operator: bool, created: Time,
                             reply: bool)

  datatype ObserveInput = ObserveInput(guild: Id, channels: seq<Id>, before: Time, perChannel: nat)

  datatype ChannelCount = ChannelCount(channel: Id, messages: nat, authors: nat)

  datatype DayCount = DayCount(day: int, messages: nat)

  datatype Summary = Summary(
    days: nat, messages: nat, authors: nat, human: nat, bot: nat, operator: nat, other: nat, replies: nat,
    operatorReplies: nat, otherReplies: nat, operatorStarts: nat, otherStarts: nat,
    channels: seq<ChannelCount>, daily: seq<DayCount>)

  datatype CoverageStatus = Complete | Partial | Unavailable

  datatype ChannelCoverage = ChannelCoverage(channel: Id, status: CoverageStatus, messages: nat)

  datatype Coverage = Coverage(guild: Id, channels: seq<Id>, start: Time, end: Time, observedAt: Time,
                               status: CoverageStatus, each: seq<ChannelCoverage>)

  datatype Report = Report(snapshotGuild: Option<Id>, snapshotChannelGuilds: seq<Id>, activity: seq<Summary>,
                           messages: seq<Message>, coverage: Coverage, failures: nat)

  // ---- the summary -----------------------------------------------------------------------------

  /** What a message can be counted as. */
  datatype Kind =
    | Any | Human | Bot | Operator | Other | Reply | OperatorReply | OtherReply | OperatorStart | OtherStart
    | In(channel: Id) | On(date: int)

  predicate Is(m: Message, k: Kind) {
    match k
    case Any => true
    case Human => !m.bot
    case Bot => m.bot
    case Operator => !m.bot && m.operator
    case Other => !m.bot && !m.operator
    case Reply => m.reply
    case OperatorReply => !m.bot && m.operator && m.reply
    case OtherReply => !m.bot && !m.operator && m.reply
    case OperatorStart => !m.bot && m.operator && !m.reply
    case OtherStart => !m.bot && !m.operator && !m.reply
    case In(c) => m.channel == c
    case On(d) => Date(m.created) == d
  }

  function Count(ms: seq<Message>, k: Kind): nat {
    if ms == [] then 0 else (if Is(ms[0], k) then 1 else 0) + Count(ms[1..], k)
  }

  function Authors(ms: seq<Message>, k: Kind): set<Id> {
    set m | m in ms && Is(m, k) :: m.author
  }

  function Since(ms: seq<Message>, t: Time): seq<Message> {
    if ms == [] then [] else (if ms[0].created >= t then [ms[0]] else []) + Since(ms[1..], t)
  }

  function Date(t: Time): int { t / DAY }

  /** One more message on `day`, in a list kept in ascending order. */
  function Bump(day: int, days: seq<DayCount>): seq<DayCount> {
    if days == [] || day < days[0].day then [DayCount(day, 1)] + days
    else if day == days[0].day then [DayCount(day, days[0].messages + 1)] + days[1..]
    else [days[0]] + Bump(day, days[1..])
  }

  function Daily(ms: seq<Message>): seq<DayCount> {
    if ms == [] then [] else Bump(Date(ms[0].created), Daily(ms[1..]))
  }

  function PerChannel(cs: seq<Id>, ms: seq<Message>): (r: seq<ChannelCount>)
    ensures |r| == |cs|
    ensures forall i | 0 <= i < |cs| ::
              r[i] == ChannelCount(cs[i], Count(ms, In(cs[i])), |Authors(ms, In(cs[i]))|)
  {
    if cs == [] then []
    else [ChannelCount(cs[0], Count(ms, In(cs[0])), |Authors(ms, In(cs[0]))|)] + PerChannel(cs[1..], ms)
  }

  function Summarize(ms: seq<Message>, input: ObserveInput, days: nat): Summary {
    var chosen := Since(ms, input.before - days * DAY);
    Summary(days, |chosen|, |Authors(chosen, Any)|,
            Count(chosen, Human), Count(chosen, Bot), Count(chosen, Operator), Count(chosen, Other),
            Count(chosen, Reply), Count(chosen, OperatorReply), Count(chosen, OtherReply),
            Count(chosen, OperatorStart), Count(chosen, OtherStart),
            PerChannel(input.channels, chosen), Daily(chosen))
  }

  // ---- the check a reported observation must pass ----------------------------------------------

  datatype Refusal =
    | ScopeMismatch | TimeInvalid | StatusOrUsageMismatch | BudgetExceeded | CoverageMismatch | ActivityMismatch

  function CoveredChannels(each: seq<ChannelCoverage>): (r: seq<Id>)
    ensures |r| == |each| && forall i | 0 <= i < |r| :: r[i] == each[i].channel
  {
    if each == [] then [] else [each[0].channel] + CoveredChannels(each[1..])
  }

  function Elements<T>(s: seq<T>): set<T> { set x | x in s }

  /** Sorting both sides on a key that is unique on one of them compares them as multisets. */
  predicate SameSummary(a: Summary, b: Summary) {
    && a.(channels := [], daily := []) == b.(channels := [], daily := [])
    && multiset(a.channels) == multiset(b.channels)
    && multiset(a.daily) == multiset(b.daily)
  }

  /** What parsing a payload already guarantees. */
  predicate WellFormed(r: Report) {
    && |r.activity| == 2 && r.activity[0].days + r.activity[1].days == 37
    && (r.activity[0].days == 7 || r.activity[0].days == 30)
    && |r.messages| <= 2000
    && (forall i, j | 0 <= i < j < |r.messages| ::
          (r.messages[i].channel, r.messages[i].id) != (r.messages[j].channel, r.messages[j].id))
    && forall m | m in r.messages ::
         && m.guild == r.coverage.guild && m.channel in r.coverage.channels
         && r.coverage.start <= m.created < r.coverage.end
  }

  /** The reported summary of a period. */
  function Reported(r: Report, days: nat): Summary
    requires WellFormed(r)
  {
    if r.activity[0].days == days then r.activity[0] else r.activity[1]
  }

  /** `created` and `now` are the job's creation and the present; `succeeded` is the result's status, `fetches`
      the reported usage and `otherUsage` whether searches or model requests were reported. */
  function Check(r: Report, input: ObserveInput, created: Time, now: Time, succeeded: bool, fetches: nat,
                 otherUsage: bool, documentBytes: nat, fetchLimit: int): Option<Refusal>
    requires WellFormed(r)
  {
    var c := r.coverage;
    if || c.guild != input.guild || c.channels != input.channels || c.end != input.before
       || c.end - c.start != 30 * DAY
       || Elements(CoveredChannels(c.each)) != Elements(input.channels)
       || |c.each| != |input.channels| then Some(ScopeMismatch)
    else if !(created - SECOND <= c.observedAt <= now + 60 * SECOND) then Some(TimeInvalid)
    else if (succeeded && (c.status != Complete || r.failures != 0)) || otherUsage then Some(StatusOrUsageMismatch)
    else if r.snapshotGuild.Some? && r.snapshotGuild.value != input.guild then Some(ScopeMismatch)
    else if exists g | g in r.snapshotChannelGuilds :: g != input.guild then Some(ScopeMismatch)
    else if || (exists m | m in r.messages :: Count(r.messages, In(m.channel)) > input.perChannel)
            || (exists e: ChannelCoverage | e in c.each :: e.messages > input.perChannel) then Some(BudgetExceeded)
    else if exists e: ChannelCoverage | e in c.each :: e.messages != Count(r.messages, In(e.channel))
    then Some(CoverageMismatch)
    else if || !SameSummary(Reported(r, 7), Summarize(r.messages, input, 7))
            || !SameSummary(Reported(r, 30), Summarize(r.messages, input, 30)) then Some(ActivityMismatch)
    else if fetches > fetchLimit || documentBytes > 8 * 1024 * 1024 then Some(BudgetExceeded)
    else None
  }

  // ---- counting --------------------------------------------------------------------------------

  predicate Ascending(days: seq<DayCount>) {
    forall i, j | 0 <= i < j < |days| :: days[i].day < days[j].day
  }

  predicate Unique<T(==)>(s: seq<T>) {
    forall i, j | 0 <= i < j < |s| :: s[i] != s[j]
  }

  function Total<T>(s: seq<T>, f: T -> nat): nat {
    if s == [] then 0 else f(s[0]) + Total(s[1..], f)
  }

  function OfDay(x: DayCount): nat { x.messages }

  function OfChannel(x: ChannelCount): nat { x.messages }

  function OfCoverage(x: ChannelCoverage): nat { x.messages }

  /** The messages of each listed channel, added up. */
  function CountAll(cs: seq<Id>, ms: seq<Message>): nat {
    if cs == [] then 0 else Count(ms, In(cs[0])) + CountAll(cs[1..], ms)
  }

  // ---- the daily list ----------------------------------------------------------------------------

  /** How many messages a list of days puts on one day, read off its entry. */
  predicate Tells(days: seq<DayCount>, d: int, n: nat) {
    if n == 0 then forall x: DayCount | x in days :: x.day != d else DayCount(d, n) in days
  }

  lemma {:induction false} BumpAscends(d: int, days: seq<DayCount>)
    requires Ascending(days)
    ensures Ascending(Bump(d, days))
    ensures Bump(d, days) != []
    ensures Bump(d, days)[0].day == if days == [] || d <= days[0].day then d else days[0].day
  {
    if days != [] && days[0].day < d {
      BumpAscends(d, days[1..]);
    }
  }

  lemma {:induction false} BumpTells(d: int, days: seq<DayCount>, e: int, n: nat)
    requires Ascending(days) && Tells(days, e, n)
    ensures Tells(Bump(d, days), e, if e == d then n + 1 else n)
  {
    if days != [] {
      assert days == [days[0]] + days[1..];
      if days[0].day < d {
        if n > 0 && e == days[0].day {
          assert days[0] == DayCount(e, n);
        } else {
          BumpTells(d, days[1..], e, n);
        }
      }
    }
  }

  lemma {:induction false} DailyTells(ms: seq<Message>, d: int)
    ensures Ascending(Daily(ms))
    ensures Tells(Daily(ms), d, Count(ms, On(d)))
  {
    if ms != [] {
      DailyTells(ms[1..], d);
      BumpAscends(Date(ms[0].created), Daily(ms[1..]));
      BumpTells(Date(ms[0].created), Daily(ms[1..]), d, Count(ms[1..], On(d)));
    }
  }

  lemma {:induction false} DailyPositive(ms: seq<Message>)
    ensures forall x: DayCount | x in Daily(ms) :: x.messages > 0
  {
    if ms != [] {
      DailyPositive(ms[1..]);
      BumpPositive(Date(ms[0].created), Daily(ms[1..]));
    }
  }

  lemma {:induction false} BumpPositive(d: int, days: seq<DayCount>)
    requires forall x: DayCount | x in days :: x.messages > 0
    ensures forall x: DayCount | x in Bump(d, days) :: x.messages > 0
  {
    if days != [] && days[0].day < d { BumpPositive(d, days[1..]); }
  }

  /** The daily list is ascending and holds exactly the dates that have messages, with their numbers. */
  lemma DailyExact(ms: seq<Message>)
    ensures Ascending(Daily(ms))
    ensures forall x: DayCount :: x in Daily(ms) <==> x.messages > 0 && x.messages == Count(ms, On(x.day))
  {
    hide Daily, Count;
    DailyTells(ms, 0);
    DailyPositive(ms);
    forall x: DayCount ensures x in Daily(ms) <==> x.messages > 0 && x.messages == Count(ms, On(x.day)) {
      DailyTells(ms, x.day);
    }
  }

  lemma {:induction false} BumpTotal(d: int, days: seq<DayCount>)
    ensures Total(Bump(d, days), OfDay) == Total(days, OfDay) + 1
  {
    if days != [] && days[0].day < d { BumpTotal(d, days[1..]); }
  }

  lemma {:induction false} DailyTotal(ms: seq<Message>)
    ensures Total(Daily(ms), OfDay) == |ms|
  {
    if ms != [] {
      DailyTotal(ms[1..]);
      BumpTotal(Date(ms[0].created), Daily(ms[1..]));
    }
  }

  lemma {:induction false} AscendingFits(days: seq<DayCount>, lo: int, hi: int)
    requires Ascending(days) && forall x: DayCount | x in days :: lo <= x.day <= hi
    requires lo <= hi + 1
    ensures |days| <= hi - lo + 1
  {
    if days != [] {
      assert days[0] in days;
      AscendingFits(days[1..], days[0].day + 1, hi);
    }
  }

  /** A window of thirty days spans at most 31 dates, and only 30 when it ends at midnight. */
  lemma WindowDates(ms: seq<Message>, end: Time)
    requires forall m | m in ms :: end - 30 * DAY <= m.created < end
    ensures |Daily(ms)| <= if end % DAY == 0 then 30 else 31
  {
    DailyExact(ms);
    var hi := if end % DAY == 0 then Date(end) - 1 else Date(end);
    forall x: DayCount | x in Daily(ms) ensures Date(end) - 30 <= x.day <= hi {
      PositiveHasOne(ms, On(x.day));
      var m :| m in ms && Is(m, On(x.day));
      DateBounds(m.created, end);
    }
    AscendingFits(Daily(ms), Date(end) - 30, hi);
  }

  lemma DateBounds(t: Time, end: Time)
    requires end - 30 * DAY <= t < end
    ensures Date(end) - 30 <= Date(t) <= if end % DAY == 0 then Date(end) - 1 else Date(end)
  {}

  lemma {:induction false} PositiveHasOne(ms: seq<Message>, k: Kind)
    requires Count(ms, k) > 0
    ensures exists m :: m in ms && Is(m, k)
  {
    if Is(ms[0], k) { assert ms[0] in ms; } else { PositiveHasOne(ms[1..], k); }
  }

  // ---- counting by channel -----------------------------------------------------------------------

  lemma {:induction false} CountAllStep(cs: seq<Id>, ms: seq<Message>)
    requires ms != []
    ensures CountAll(cs, ms) == CountAll(cs, ms[1..]) + multiset(cs)[ms[0].channel]
  {
    if cs != [] {
      CountAllStep(cs[1..], ms);
      assert cs == [cs[0]] + cs[1..];
    }
  }

  lemma {:induction false} UniqueOnce<T>(cs: seq<T>, c: T)
    requires Unique(cs) && c in cs
    ensures multiset(cs)[c] == 1
  {
    assert cs == [cs[0]] + cs[1..];
    if c == cs[0] {
      assert c !in cs[1..];
    } else {
      UniqueOnce(cs[1..], c);
    }
  }

  lemma {:induction false} CountAllCovers(cs: seq<Id>, ms: seq<Message>)
    requires Unique(cs) && forall m | m in ms :: m.channel in cs
    ensures CountAll(cs, ms) == |ms|
  {
    if ms == [] {
      NothingToCount(cs);
    } else {
      CountAllCovers(cs, ms[1..]);
      CountAllStep(cs, ms);
      assert ms[0] in ms;
      UniqueOnce(cs, ms[0].channel);
    }
  }

  lemma {:induction false} NothingToCount(cs: seq<Id>)
    ensures CountAll(cs, []) == 0
  {
    if cs != [] { NothingToCount(cs[1..]); }
  }

  lemma {:induction false} PerChannelTotal(cs: seq<Id>, ms: seq<Message>)
    ensures Total(PerChannel(cs, ms), OfChannel) == CountAll(cs, ms)
  {
    if cs != [] { PerChannelTotal(cs[1..], ms); }
  }

  lemma {:induction false} CoverageTotals(es: seq<ChannelCoverage>, ms: seq<Message>)
    requires forall e: ChannelCoverage | e in es :: e.messages == Count(ms, In(e.channel))
    ensures Total(es, OfCoverage) == CountAll(CoveredChannels(es), ms)
  {
    if es != [] {
      assert es[0] in es;
      CoverageTotals(es[1..], ms);
    }
  }

  lemma {:induction false} ElementsCount<T>(s: seq<T>)
    ensures |Elements(s)| <= |s|
    ensures |Elements(s)| == |s| <==> Unique(s)
  {
    if s != [] {
      ElementsCount(s[1..]);
      assert s == [s[0]] + s[1..];
      assert Elements(s) == {s[0]} + Elements(s[1..]);
      if s[0] !in s[1..] {
        assert Unique(s) <==> Unique(s[1..]);
      }
    }
  }

  lemma {:induction false} TotalPermuted<T>(a: seq<T>, b: seq<T>, f: T -> nat)
    requires multiset(a) == multiset(b)
    ensures Total(a, f) == Total(b, f)
  {
    if a == [] {
      assert |multiset(b)| == 0;
    } else {
      assert a[0] in multiset(b);
      var i :| 0 <= i < |b| && b[i] == a[0];
      var x, y := a[..0] + a[1..], b[..i] + b[i + 1..];
      Without(a, 0, f);
      Without(b, i, f);
      hide Total;
      assert |x| < |a| && multiset(x) == multiset(y);
      TotalPermuted(x, y, f);
    }
  }

  /** One element's share, and what is left without it. */
  lemma {:induction false} Without<T>(b: seq<T>, i: nat, f: T -> nat)
    requires i < |b|
    ensures Total(b, f) == f(b[i]) + Total(b[..i] + b[i + 1..], f)
    ensures multiset(b[..i] + b[i + 1..]) == multiset(b) - multiset{b[i]}
  {
    LessOne(b, i);
    TotalStep(b, f);
    if i == 0 {
      assert b[..0] + b[1..] == b[1..];
    } else {
      Without(b[1..], i - 1, f);
      var rest := b[1..][..i - 1] + b[1..][i..];
      Shifted(b, i);
      TotalStep([b[0]] + rest, f);
      hide Total;
      assert ([b[0]] + rest)[1..] == rest;
    }
  }

  lemma TotalStep<T>(s: seq<T>, f: T -> nat)
    requires s != []
    ensures Total(s, f) == f(s[0]) + Total(s[1..], f)
  {}

  lemma Shifted<T>(b: seq<T>, i: nat)
    requires 0 < i < |b|
    ensures b[..i] + b[i + 1..] == [b[0]] + (b[1..][..i - 1] + b[1..][i..])
  {}

  lemma LessOne<T>(b: seq<T>, i: nat)
    requires i < |b|
    ensures multiset(b[..i] + b[i + 1..]) == multiset(b) - multiset{b[i]}
  {
    assert b == b[..i] + ([b[i]] + b[i + 1..]);
  }

  // ---- the shorter period ------------------------------------------------------------------------

  lemma {:induction false} SinceAll(ms: seq<Message>, t: Time)
    requires forall m | m in ms :: m.created >= t
    ensures Since(ms, t) == ms
  {
    if ms != [] {
      assert ms[0] in ms;
      SinceAll(ms[1..], t);
    }
  }

  lemma {:induction false} SinceGrows(ms: seq<Message>, late: Time, early: Time, k: Kind)
    requires early <= late
    ensures Count(Since(ms, late), k) <= Count(Since(ms, early), k)
    ensures forall m | m in Since(ms, late) :: m in Since(ms, early)
    ensures Authors(Since(ms, late), k) <= Authors(Since(ms, early), k)
  {
    if ms != [] {
      SinceGrows(ms[1..], late, early, k);
      ConsCount(ms[0], Since(ms[1..], late), k);
      ConsCount(ms[0], Since(ms[1..], early), k);
    }
  }

  lemma ConsCount(m: Message, ms: seq<Message>, k: Kind)
    ensures Count([m] + ms, k) == (if Is(m, k) then 1 else 0) + Count(ms, k)
    ensures Count([] + ms, k) == Count(ms, k)
  {
    assert ([m] + ms)[1..] == ms;
    assert [] + ms == ms;
  }

  lemma {:induction false} CountAny(ms: seq<Message>)
    ensures Count(ms, Any) == |ms|
  {
    if ms != [] { CountAny(ms[1..]); }
  }

  lemma {:induction false} SetGrows(a: set<Id>, b: set<Id>)
    requires a <= b
    ensures |a| <= |b|
  {
    if a != {} {
      var x :| x in a;
      SetGrows(a - {x}, b - {x});
    }
  }

  /** Each figure of `a` is at most its counterpart in `b`, which lists every channel and date of `a`. */
  predicate Within(a: Summary, b: Summary) {
    && a.messages <= b.messages && a.authors <= b.authors && a.human <= b.human && a.bot <= b.bot
    && a.operator <= b.operator && a.other <= b.other && a.replies <= b.replies
    && a.operatorReplies <= b.operatorReplies && a.otherReplies <= b.otherReplies
    && a.operatorStarts <= b.operatorStarts && a.otherStarts <= b.otherStarts
    && (forall x: ChannelCount | x in a.channels ::
          exists y: ChannelCount :: y in b.channels && ChannelWithin(x, y))
    && forall x: DayCount | x in a.daily :: exists y: DayCount :: y in b.daily && DayWithin(x, y)
  }

  predicate ChannelWithin(x: ChannelCount, y: ChannelCount) {
    x.channel == y.channel && x.messages <= y.messages && x.authors <= y.authors
  }

  predicate DayWithin(x: DayCount, y: DayCount) { x.day == y.day && x.messages <= y.messages }

  lemma ShorterCounts(ms: seq<Message>, late: Time, early: Time, k: Kind)
    requires early <= late
    ensures Count(Since(ms, late), k) <= Count(Since(ms, early), k)
    ensures |Authors(Since(ms, late), k)| <= |Authors(Since(ms, early), k)|
  {
    SinceGrows(ms, late, early, k);
    SetGrows(Authors(Since(ms, late), k), Authors(Since(ms, early), k));
  }

  lemma ShorterChannels(ms: seq<Message>, late: Time, early: Time, cs: seq<Id>, x: ChannelCount)
    requires early <= late && x in PerChannel(cs, Since(ms, late))
    ensures exists y: ChannelCount :: y in PerChannel(cs, Since(ms, early)) && ChannelWithin(x, y)
  {
    hide Since, Count, Authors;
    var i :| 0 <= i < |cs| && PerChannel(cs, Since(ms, late))[i] == x;
    ShorterCounts(ms, late, early, In(cs[i]));
    assert ChannelWithin(x, PerChannel(cs, Since(ms, early))[i]);
  }

  lemma ShorterDays(ms: seq<Message>, late: Time, early: Time, x: DayCount)
    requires early <= late && x in Daily(Since(ms, late))
    ensures exists y: DayCount :: y in Daily(Since(ms, early)) && DayWithin(x, y)
  {
    hide Since, Count, Daily;
    DailyExact(Since(ms, late));
    DailyExact(Since(ms, early));
    ShorterCounts(ms, late, early, On(x.day));
    assert DayWithin(x, DayCount(x.day, Count(Since(ms, early), On(x.day))));
  }

  lemma ShorterWithin(ms: seq<Message>, input: ObserveInput)
    ensures Within(Summarize(ms, input, 7), Summarize(ms, input, 30))
  {
    hide Since, Count, Daily, Authors, PerChannel;
    var late, early := input.before - 7 * DAY, input.before - 30 * DAY;
    var a, b := Since(ms, late), Since(ms, early);
    CountAny(a);
    CountAny(b);
    forall k: Kind ensures Count(a, k) <= Count(b, k) && |Authors(a, k)| <= |Authors(b, k)| {
      ShorterCounts(ms, late, early, k);
    }
    assert Count(a, Any) <= Count(b, Any);
    forall x: ChannelCount | x in PerChannel(input.channels, a)
      ensures exists y: ChannelCount :: y in PerChannel(input.channels, b) && ChannelWithin(x, y)
    {
      ShorterChannels(ms, late, early, input.channels, x);
    }
    forall x: DayCount | x in Daily(a) ensures exists y: DayCount :: y in Daily(b) && DayWithin(x, y) {
      ShorterDays(ms, late, early, x);
    }
  }

  lemma {:induction false} KindsAddUp(ms: seq<Message>)
    ensures Count(ms, Human) + Count(ms, Bot) == |ms|
    ensures Count(ms, Operator) + Count(ms, Other) == Count(ms, Human)
    ensures Count(ms, OperatorReply) + Count(ms, OperatorStart) == Count(ms, Operator)
    ensures Count(ms, OtherReply) + Count(ms, OtherStart) == Count(ms, Other)
    ensures Count(ms, OperatorReply) + Count(ms, OtherReply) <= Count(ms, Reply)
  {
    if ms != [] { KindsAddUp(ms[1..]); }
  }

  // ---- what acceptance gives ---------------------------------------------------------------------

  /** The figures of one period account for each other. */
  predicate Balanced(a: Summary) {
    && a.human + a.bot == a.messages
    && a.operator + a.other == a.human
    && a.operatorReplies + a.operatorStarts == a.operator
    && a.otherReplies + a.otherStarts == a.other
    && a.operatorReplies + a.otherReplies <= a.replies
    && Total(a.channels, OfChannel) == a.messages
    && Total(a.daily, OfDay) == a.messages
  }

  lemma SummaryBalanced(ms: seq<Message>, input: ObserveInput, days: nat)
    requires Unique(input.channels) && forall m | m in ms :: m.channel in input.channels
    ensures Balanced(Summarize(ms, input, days))
  {
    hide Since, Count, Daily, Authors, PerChannel, Total, CountAll;
    var chosen := Since(ms, input.before - days * DAY);
    SinceMembers(ms, input.before - days * DAY);
    KindsAddUp(chosen);
    PerChannelTotal(input.channels, chosen);
    CountAllCovers(input.channels, chosen);
    DailyTotal(chosen);
  }

  lemma {:induction false} SinceMembers(ms: seq<Message>, t: Time)
    ensures forall m | m in Since(ms, t) :: m in ms
  {
    if ms != [] { SinceMembers(ms[1..], t); }
  }

  lemma SameBalanced(a: Summary, b: Summary)
    requires SameSummary(a, b)
    ensures Balanced(a) <==> Balanced(b)
    ensures a.messages == b.messages && |a.daily| == |b.daily|
  {
    TotalPermuted(a.channels, b.channels, OfChannel);
    TotalPermuted(a.daily, b.daily, OfDay);
    assert |multiset(a.daily)| == |a.daily| && |multiset(b.daily)| == |b.daily|;
    assert a.messages == a.(channels := [], daily := []).messages == b.messages;
  }

  lemma SameWithin(a: Summary, b: Summary, c: Summary, d: Summary)
    requires SameSummary(a, b) && SameSummary(c, d) && Within(b, d)
    ensures Within(a, c)
  {
    var x, y := a.(channels := [], daily := []), c.(channels := [], daily := []);
    assert x == b.(channels := [], daily := []) && y == d.(channels := [], daily := []);
    forall x: ChannelCount | x in a.channels
      ensures exists y: ChannelCount :: y in c.channels && ChannelWithin(x, y)
    {
      assert x in multiset(a.channels);
      assert x in b.channels;
      var y: ChannelCount :| y in d.channels && ChannelWithin(x, y);
      assert y in multiset(d.channels);
    }
    forall x: DayCount | x in a.daily ensures exists y: DayCount :: y in c.daily && DayWithin(x, y) {
      assert x in multiset(a.daily);
      assert x in b.daily;
      var y: DayCount :| y in d.daily && DayWithin(x, y);
      assert y in multiset(d.daily);
    }
  }

  /** An observation that is accepted accounts for every message once in each of its breakdowns. */
  lemma AcceptedConserves(r: Report, input: ObserveInput, created: Time, now: Time, succeeded: bool, fetches: nat,
                          otherUsage: bool, documentBytes: nat, fetchLimit: int)
    requires WellFormed(r) && Unique(input.channels)
    requires Check(r, input, created, now, succeeded, fetches, otherUsage, documentBytes, fetchLimit) == None
    ensures Reported(r, 30).messages == |r.messages| == Total(r.coverage.each, OfCoverage)
    ensures Balanced(Reported(r, 7)) && Balanced(Reported(r, 30))
    ensures Within(Reported(r, 7), Reported(r, 30))
    ensures |Reported(r, 30).daily| <= if input.before % DAY == 0 then 30 else 31
  {
    hide Since, Count, Daily, Authors, PerChannel, Total, CountAll, SameSummary, Within, Balanced;
    var long, short := Summarize(r.messages, input, 30), Summarize(r.messages, input, 7);
    SinceAll(r.messages, input.before - 30 * DAY);
    assert long.messages == |r.messages|;
    SummaryBalanced(r.messages, input, 30);
    SummaryBalanced(r.messages, input, 7);
    SameBalanced(Reported(r, 30), long);
    SameBalanced(Reported(r, 7), short);
    ShorterWithin(r.messages, input);
    SameWithin(Reported(r, 7), short, Reported(r, 30), long);
    WindowDates(r.messages, input.before);
    var es := r.coverage.each;
    CoverageTotals(es, r.messages);
    ElementsCount(CoveredChannels(es));
    ElementsCount(input.channels);
    CoveredEverywhere(CoveredChannels(es), input.channels, r.messages);
    CountAllCovers(CoveredChannels(es), r.messages);
  }

  lemma CoveredEverywhere(a: seq<Id>, b: seq<Id>, ms: seq<Message>)
    requires Elements(a) == Elements(b) && forall m | m in ms :: m.channel in b
    ensures forall m | m in ms :: m.channel in a
  {
    forall m | m in ms ensures m.channel in a {
      assert m.channel in Elements(b);
    }
  }
}
