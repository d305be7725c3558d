/** What an activity summary counts, and when a reported observation is accepted, told message by message. */
module Figures {
  import opened Options
  import opened Activity
  import Seqs

  // ---- counting --------------------------------------------------------------------------------------

  /** The places of the messages of a period that have some property. */
  ghost function Those(ms: seq<Message>, since: Time, p: Message -> bool): set<nat> {
    set i | 0 <= i < |ms| && ms[i].created >= since && p(ms[i])
  }

  lemma ThoseFirst(ms: seq<Message>, since: Time, p: Message -> bool)
    requires ms != []
    ensures |Those(ms, since, p)|
            == |Those(ms[1..], since, p)| + (if ms[0].created >= since && p(ms[0]) then 1 else 0)
  {
    assert forall i | 0 <= i < |ms[1..]| :: ms[1..][i] == ms[i + 1];
    Seqs.FirstPlace(Those(ms, since, p), Those(ms[1..], since, p), ms[0].created >= since && p(ms[0]));
  }

  lemma {:induction false} CountExactly(ms: seq<Message>, since: Time, k: Kind, p: Message -> bool)
    requires forall m :: Is(m, k) <==> p(m)
    ensures Count(Since(ms, since), k) == |Those(ms, since, p)|
  {
    if ms != [] {
      CountExactly(ms[1..], since, k, p);
      ThoseFirst(ms, since, p);
      ConsCount(ms[0], Since(ms[1..], since), k);
    }
  }

  lemma {:induction false} SinceExactly(ms: seq<Message>, since: Time)
    ensures |Since(ms, since)| == |Those(ms, since, m => true)|
    ensures forall m :: m in Since(ms, since) <==> m in ms && m.created >= since
  {
    if ms != [] {
      SinceExactly(ms[1..], since);
      ThoseFirst(ms, since, m => true);
      assert ms == [ms[0]] + ms[1..];
    }
  }

  /** Who wrote the messages of a period that have some property. */
  ghost function Writers(ms: seq<Message>, since: Time, p: Message -> bool): set<Id> {
    set m | m in ms && m.created >= since && p(m) :: m.author
  }

  lemma WritersExactly(ms: seq<Message>, since: Time, k: Kind, p: Message -> bool)
    requires forall m :: Is(m, k) <==> p(m)
    ensures Authors(Since(ms, since), k) == Writers(ms, since, p)
  {
    SinceExactly(ms, since);
  }

  ghost function Number(ms: seq<Message>, since: Time, p: Message -> bool): nat { |Those(ms, since, p)| }

  lemma KindNumber(ms: seq<Message>, since: Time, k: Kind, p: Message -> bool)
    requires forall m :: Is(m, k) <==> p(m)
    ensures Count(Since(ms, since), k) == Number(ms, since, p)
  {
    CountExactly(ms, since, k, p);
  }

  /** How many messages of the last days before the end were written, by how many, and by whom. */
  lemma WrittenExactly(ms: seq<Message>, input: ObserveInput, days: nat)
    ensures var s, t := Summarize(ms, input, days), input.before - days * 86_400 * SECOND;
            && s.days == days && s.messages == Number(ms, t, m => true) && s.authors == |Writers(ms, t, m => true)|
            && s.human == Number(ms, t, (m: Message) => !m.bot) && s.bot == Number(ms, t, (m: Message) => m.bot)
            && s.operator == Number(ms, t, (m: Message) => !m.bot && m.operator)
            && s.other == Number(ms, t, (m: Message) => !m.bot && !m.operator)
  {
    hide *;
    var t := input.before - days * 86_400 * SECOND;
    FieldsOf(ms, input, days);
    SinceExactly(ms, t);
    AllNumber(ms, t);
    WritersExactly(ms, t, Any, m => true) by { AnyIs(); }
    KindNumber(ms, t, Human, (m: Message) => !m.bot) by { KindsAre(); }
    KindNumber(ms, t, Bot, (m: Message) => m.bot) by { KindsAre(); }
    KindNumber(ms, t, Operator, (m: Message) => !m.bot && m.operator) by { KindsAre(); }
    KindNumber(ms, t, Other, (m: Message) => !m.bot && !m.operator) by { KindsAre(); }
  }

  lemma AllNumber(ms: seq<Message>, t: Time)
    ensures Number(ms, t, m => true) == |Those(ms, t, m => true)|
  {}

  lemma AnyIs()
    ensures forall m :: Is(m, Any)
  {}

  lemma KindsAre()
    ensures forall m :: Is(m, Human) <==> !m.bot
    ensures forall m :: Is(m, Bot) <==> m.bot
    ensures forall m :: Is(m, Operator) <==> !m.bot && m.operator
    ensures forall m :: Is(m, Other) <==> !m.bot && !m.operator
  {}

  lemma FieldsOf(ms: seq<Message>, input: ObserveInput, days: nat)
    ensures var s, chosen := Summarize(ms, input, days), Since(ms, input.before - days * 86_400 * SECOND);
            && s.days == days && s.messages == |chosen| && s.authors == |Authors(chosen, Any)|
            && s.human == Count(chosen, Human) && s.bot == Count(chosen, Bot)
            && s.operator == Count(chosen, Operator) && s.other == Count(chosen, Other)
  {
    hide Since, Authors, Count, Daily, PerChannel;
  }

  /** How many of them were replies, and how many began something, by operators and by others. */
  lemma RepliesExactly(ms: seq<Message>, input: ObserveInput, days: nat)
    ensures var s, t := Summarize(ms, input, days), input.before - days * 86_400 * SECOND;
            && s.replies == Number(ms, t, (m: Message) => m.reply)
            && s.operatorReplies == Number(ms, t, (m: Message) => !m.bot && m.operator && m.reply)
            && s.otherReplies == Number(ms, t, (m: Message) => !m.bot && !m.operator && m.reply)
            && s.operatorStarts == Number(ms, t, (m: Message) => !m.bot && m.operator && !m.reply)
            && s.otherStarts == Number(ms, t, (m: Message) => !m.bot && !m.operator && !m.reply)
  {
    var t := input.before - days * DAY;
    KindNumber(ms, t, Reply, (m: Message) => m.reply);
    KindNumber(ms, t, OperatorReply, (m: Message) => !m.bot && m.operator && m.reply);
    KindNumber(ms, t, OtherReply, (m: Message) => !m.bot && !m.operator && m.reply);
    KindNumber(ms, t, OperatorStart, (m: Message) => !m.bot && m.operator && !m.reply);
    KindNumber(ms, t, OtherStart, (m: Message) => !m.bot && !m.operator && !m.reply);
    hide Those, Writers, Count, Since, Authors, Daily, PerChannel, Number, Is;
  }

  ghost function InChannel(ms: seq<Message>, since: Time, c: Id): ChannelCount {
    ChannelCount(c, |Those(ms, since, (m: Message) => m.channel == c)|,
                 |Writers(ms, since, (m: Message) => m.channel == c)|)
  }

  ghost function OnDate(ms: seq<Message>, since: Time, d: int): nat {
    |Those(ms, since, (m: Message) => m.created / (86_400 * SECOND) == d)|
  }

  /** The channels of a summary: each in the order asked for, with its messages and their authors. */
  lemma ChannelsExactly(ms: seq<Message>, input: ObserveInput, days: nat)
    ensures var s, t := Summarize(ms, input, days), input.before - days * 86_400 * SECOND;
            |s.channels| == |input.channels|
            && forall i | 0 <= i < |s.channels| :: s.channels[i] == InChannel(ms, t, input.channels[i])
  {
    var t := input.before - days * DAY;
    forall c: Id
      ensures ChannelCount(c, Count(Since(ms, t), In(c)), |Authors(Since(ms, t), In(c))|) == InChannel(ms, t, c)
    {
      CountExactly(ms, t, In(c), (m: Message) => m.channel == c);
      WritersExactly(ms, t, In(c), (m: Message) => m.channel == c);
    }
    hide Those, Writers, Count, Since, Authors, Daily, InChannel;
  }

  /** The days of a summary: each date that has messages, ascending. */
  lemma DaysExactly(ms: seq<Message>, input: ObserveInput, days: nat)
    ensures var s, t := Summarize(ms, input, days), input.before - days * 86_400 * SECOND;
            && (forall i, j | 0 <= i < j < |s.daily| :: s.daily[i].day < s.daily[j].day)
            && (forall x: DayCount :: x in s.daily <==> x.messages > 0 && x.messages == OnDate(ms, t, x.day))
  {
    hide *;
    var since := Since(ms, input.before - days * 86_400 * SECOND);
    DailyOf(ms, input, days);
    DailyExact(since);
    DailyAscends(since);
    forall d: int ensures Count(since, On(d)) == OnDate(ms, input.before - days * 86_400 * SECOND, d) {
      DateCount(ms, input.before - days * 86_400 * SECOND, d);
    }
  }

  lemma DateCount(ms: seq<Message>, t: Time, d: int)
    ensures Count(Since(ms, t), On(d)) == OnDate(ms, t, d)
  {
    CountExactly(ms, t, On(d), (m: Message) => m.created / (86_400 * SECOND) == d);
    hide Those, Count, Since;
  }

  lemma DailyAscends(ms: seq<Message>)
    ensures forall i, j | 0 <= i < j < |Daily(ms)| :: Daily(ms)[i].day < Daily(ms)[j].day
  {
    DailyExact(ms);
    hide Daily;
  }

  lemma DailyOf(ms: seq<Message>, input: ObserveInput, days: nat)
    ensures Summarize(ms, input, days).daily == Daily(Since(ms, input.before - days * 86_400 * SECOND))
  {
    hide Since, Daily, Count, Authors, PerChannel;
  }

  // ---- acceptance ------------------------------------------------------------------------------------

  /** The same figures, the channels and days in any order. */
  predicate SameFigures(a: Summary, b: Summary) {
    && a.days == b.days && a.messages == b.messages && a.authors == b.authors && a.human == b.human && a.bot == b.bot
    && a.operator == b.operator && a.other == b.other && a.replies == b.replies
    && a.operatorReplies == b.operatorReplies && a.otherReplies == b.otherReplies
    && a.operatorStarts == b.operatorStarts && a.otherStarts == b.otherStarts
    && multiset(a.channels) == multiset(b.channels) && multiset(a.daily) == multiset(b.daily)
  }

  /** The messages of a channel. */
  ghost function Held(ms: seq<Message>, c: Id): nat { |set i | 0 <= i < |ms| && ms[i].channel == c| }

  lemma {:induction false} HeldExactly(ms: seq<Message>, c: Id)
    ensures Count(ms, In(c)) == Held(ms, c)
  {
    if ms != [] {
      HeldExactly(ms[1..], c);
      var a, rest := set i | 0 <= i < |ms| && ms[i].channel == c, set i | 0 <= i < |ms[1..]| && ms[1..][i].channel == c;
      assert forall i | 0 <= i < |ms[1..]| :: ms[1..][i] == ms[i + 1];
      Seqs.FirstPlace(a, rest, ms[0].channel == c);
    }
  }

  /** The coverage is that of the job: guild, channels, thirty days up to the end asked for, each channel once. */
  ghost predicate Scoped(r: Report, input: ObserveInput) {
    && r.coverage.guild == input.guild && r.coverage.channels == input.channels && r.coverage.end == input.before
    && r.coverage.start == input.before - 30 * 86_400 * SECOND
    && (forall e | e in r.coverage.each :: e.channel in input.channels)
    && (forall c | c in input.channels :: exists e :: e in r.coverage.each && e.channel == c)
    && |r.coverage.each| == |input.channels|
  }

  /** Everything the snapshot names is of the job's guild. */
  predicate Homely(r: Report, input: ObserveInput) {
    && (r.snapshotGuild.Some? ==> r.snapshotGuild.value == input.guild)
    && forall i | 0 <= i < |r.snapshotChannelGuilds| :: r.snapshotChannelGuilds[i] == input.guild
  }

  /** No channel has more messages than asked for, as they are and as they are reported. */
  ghost predicate Moderate(r: Report, input: ObserveInput) {
    && (forall m | m in r.messages :: Held(r.messages, m.channel) <= input.perChannel)
    && (forall e | e in r.coverage.each :: e.messages <= input.perChannel)
  }

  /** A reported observation is accepted exactly if its scope is the job's, it was made in the job's time, a success
      is a complete one, nothing but fetches was used, and all figures are those of the messages that are there. */
  lemma AcceptedExactly(r: Report, input: ObserveInput, created: Time, now: Time, succeeded: bool, fetches: nat,
                        otherUsage: bool, documentBytes: nat, fetchLimit: int)
    requires WellFormed(r)
    ensures var why := Check(r, input, created, now, succeeded, fetches, otherUsage, documentBytes, fetchLimit);
            var timely := created - SECOND <= r.coverage.observedAt <= now + 60 * SECOND;
            var proper := (succeeded ==> r.coverage.status == Complete && r.failures == 0) && !otherUsage;
            var counted := forall e | e in r.coverage.each :: e.messages == Held(r.messages, e.channel);
            var summed := && SameFigures(Activity.Reported(r, 7), Summarize(r.messages, input, 7))
                          && SameFigures(Activity.Reported(r, 30), Summarize(r.messages, input, 30));
            var thrifty := fetches <= fetchLimit && documentBytes <= 8 * 1024 * 1024;
            && (why == None <==>
                  && Scoped(r, input) && timely && proper && Homely(r, input) && Moderate(r, input) && counted && summed
                  && thrifty)
            && (why == Some(ScopeMismatch) <==>
                  !Scoped(r, input) || (Scoped(r, input) && timely && proper && !Homely(r, input)))
            && (why == Some(TimeInvalid) <==> Scoped(r, input) && !timely)
            && (why == Some(StatusOrUsageMismatch) <==> Scoped(r, input) && timely && !proper)
            && (why == Some(CoverageMismatch) <==>
                  Scoped(r, input) && timely && proper && Homely(r, input) && Moderate(r, input) && !counted)
            && (why == Some(ActivityMismatch) <==>
                  Scoped(r, input) && timely && proper && Homely(r, input) && Moderate(r, input) && counted && !summed)
  {
    ScopedExactly(r, input);
    ModerateExactly(r, input);
    SameExactly(Activity.Reported(r, 7), Summarize(r.messages, input, 7));
    SameExactly(Activity.Reported(r, 30), Summarize(r.messages, input, 30));
    HomelyExactly(r, input);
    var timely := created - SECOND <= r.coverage.observedAt <= now + 60 * SECOND;
    var proper := (succeeded ==> r.coverage.status == Complete && r.failures == 0) && !otherUsage;
    var counted := forall e | e in r.coverage.each :: e.messages == Held(r.messages, e.channel);
    var summed := && SameFigures(Activity.Reported(r, 7), Summarize(r.messages, input, 7))
                  && SameFigures(Activity.Reported(r, 30), Summarize(r.messages, input, 30));
    var thrifty := fetches <= fetchLimit && documentBytes <= 8 * 1024 * 1024;
    ByFlags(r, input, created, now, succeeded, fetches, otherUsage, documentBytes, fetchLimit, Scoped(r, input), timely,
            proper, Homely(r, input), Moderate(r, input), counted, summed, thrifty);
    hide *;
  }

  lemma ByFlags(r: Report, input: ObserveInput, created: Time, now: Time, succeeded: bool, fetches: nat,
                otherUsage: bool, documentBytes: nat, fetchLimit: int, scoped: bool, timely: bool, proper: bool,
                homely: bool, moderate: bool, counted: bool, summed: bool, thrifty: bool)
    requires WellFormed(r)
    requires scoped <==> !(var c := r.coverage;
                           || c.guild != input.guild || c.channels != input.channels || c.end != input.before
                           || c.end - c.start != 30 * DAY
                           || Elements(CoveredChannels(c.each)) != Elements(input.channels)
                           || |c.each| != |input.channels|)
    requires timely <==> created - SECOND <= r.coverage.observedAt <= now + 60 * SECOND
    requires proper <==> (succeeded ==> r.coverage.status == Complete && r.failures == 0) && !otherUsage
    requires homely <==> (r.snapshotGuild.Some? ==> r.snapshotGuild.value == input.guild)
                         && !exists g | g in r.snapshotChannelGuilds :: g != input.guild
    requires moderate <==> !(exists m | m in r.messages :: Count(r.messages, In(m.channel)) > input.perChannel)
                           && !exists e: ChannelCoverage | e in r.coverage.each :: e.messages > input.perChannel
    requires counted <==>
               !exists e: ChannelCoverage | e in r.coverage.each :: e.messages != Count(r.messages, In(e.channel))
    requires summed <==> SameSummary(Activity.Reported(r, 7), Summarize(r.messages, input, 7))
                         && SameSummary(Activity.Reported(r, 30), Summarize(r.messages, input, 30))
    requires thrifty <==> fetches <= fetchLimit && documentBytes <= 8 * 1024 * 1024
    ensures var why := Check(r, input, created, now, succeeded, fetches, otherUsage, documentBytes, fetchLimit);
            && (why == None <==> scoped && timely && proper && homely && moderate && counted && summed && thrifty)
            && (why == Some(ScopeMismatch) <==> !scoped || (timely && proper && !homely))
            && (why == Some(TimeInvalid) <==> scoped && !timely)
            && (why == Some(StatusOrUsageMismatch) <==> scoped && timely && !proper)
            && (why == Some(CoverageMismatch) <==> scoped && timely && proper && homely && moderate && !counted)
            && (why == Some(ActivityMismatch) <==>
                  scoped && timely && proper && homely && moderate && counted && !summed)
  {
    hide Count, Summarize, SameSummary, WellFormed, Activity.Reported, Elements, CoveredChannels;
  }

  lemma ModerateExactly(r: Report, input: ObserveInput)
    ensures Moderate(r, input) <==>
              !(exists m | m in r.messages :: Count(r.messages, In(m.channel)) > input.perChannel)
              && !exists e: ChannelCoverage | e in r.coverage.each :: e.messages > input.perChannel
    ensures (forall e | e in r.coverage.each :: e.messages == Held(r.messages, e.channel)) <==>
              !exists e: ChannelCoverage | e in r.coverage.each :: e.messages != Count(r.messages, In(e.channel))
  {
    forall c ensures Count(r.messages, In(c)) == Held(r.messages, c) { HeldExactly(r.messages, c); }
    hide Count, Held;
  }

  lemma SameExactly(a: Summary, b: Summary)
    ensures SameSummary(a, b) <==> SameFigures(a, b)
  {
    var x, y := a.(channels := [], daily := []), b.(channels := [], daily := []);
    if SameSummary(a, b) { assert x == y && x.days == a.days && y.days == b.days; }
  }

  lemma HomelyExactly(r: Report, input: ObserveInput)
    ensures Homely(r, input) <==>
              (r.snapshotGuild.Some? ==> r.snapshotGuild.value == input.guild)
              && !exists g | g in r.snapshotChannelGuilds :: g != input.guild
  {
    var gs := r.snapshotChannelGuilds;
    assert forall i | 0 <= i < |gs| :: gs[i] in gs;
  }

  lemma ScopedExactly(r: Report, input: ObserveInput)
    ensures Scoped(r, input) <==>
              !(var c := r.coverage;
                || c.guild != input.guild || c.channels != input.channels || c.end != input.before
                || c.end - c.start != 30 * DAY
                || Elements(CoveredChannels(c.each)) != Elements(input.channels)
                || |c.each| != |input.channels|)
  {
    var es := r.coverage.each;
    SameChannels(es, input.channels);
    hide Elements, CoveredChannels;
    assert r.coverage.end - r.coverage.start == 30 * DAY
           <==> r.coverage.start == r.coverage.end - 30 * 86_400 * SECOND;
  }

  lemma SameChannels(es: seq<ChannelCoverage>, ids: seq<Id>)
    ensures Elements(CoveredChannels(es)) == Elements(ids) <==>
              && (forall e | e in es :: e.channel in ids)
              && forall c | c in ids :: exists e :: e in es && e.channel == c
  {
    var cs := CoveredChannels(es);
    assert forall i | 0 <= i < |es| :: es[i] in es && cs[i] in cs && cs[i] == es[i].channel;
    forall c ensures c in Elements(cs) <==> exists e :: e in es && e.channel == c {
      if c in cs {
        var i :| 0 <= i < |cs| && cs[i] == c;
        assert es[i] in es;
      }
      if e :| e in es && e.channel == c {
        var i :| 0 <= i < |es| && es[i] == e;
        assert cs[i] == c;
      }
    }
    hide CoveredChannels;
    if Elements(cs) == Elements(ids) {
      forall e | e in es ensures e.channel in ids { assert e.channel in Elements(cs); }
      forall c | c in ids ensures exists e :: e in es && e.channel == c { assert c in Elements(ids); }
    }
    if (forall e | e in es :: e.channel in ids) && forall c | c in ids :: exists e :: e in es && e.channel == c {
      forall c ensures c in Elements(cs) <==> c in Elements(ids) {}
    }
  }
}
