/** `parseResponse`: the nested query result flattened into four view models
    (profile, skills, XP events, audit record). Missing fields take defaults
    with JavaScript's falsy `||`, and the XP events are sorted by time. */
module Parser {
  import opened Wrappers
  import opened Js

  // ---------------------------------------------------------------------
  // The query result as it arrives. A field that is absent or null is None.
  // A nested optional chain such as `xp?.aggregate?.sum?.amount` is one
  // Option holding the value the whole chain evaluates to.
  // ---------------------------------------------------------------------

  datatype RawLevel = RawLevel(amount: Option<real>)

  datatype RawUser = RawUser(
    login: Option<string>,
    firstName: Option<string>,
    lastName: Option<string>,
    email: Option<string>,
    xpSum: Option<real>,              // xp.aggregate.sum.amount
    level: Option<seq<RawLevel>>)

  datatype RawSkill = RawSkill(
    skillType: Option<string>,
    maxAmount: Option<real>)          // transaction_type...aggregate.max.amount

  /** One XP transaction; `createdAt` is the instant its date string denotes. */
  datatype RawXp = RawXp(amount: Option<real>, createdAt: Option<int>)

  datatype RawAudit = RawAudit(auditRatio: real, totalUp: real, totalUpBonus: real, totalDown: real)

  datatype RawData = RawData(
    user: Option<seq<RawUser>>,
    skills: Option<seq<RawSkill>>,
    xps: Option<seq<RawXp>>,
    audits: Option<seq<RawAudit>>)

  /** The JSON body: `data`, and the `errors` list the server may add. */
  datatype RawResponse = RawResponse(data: Option<RawData>, errors: Option<seq<string>>)

  // ---------------------------------------------------------------------
  // View models
  // ---------------------------------------------------------------------

  /** The level is a number, or the text "N/A" when it is falsy. */
  datatype Level = LevelAmount(amount: real) | LevelNA

  datatype Profile = Profile(
    email: string,
    lastName: string,
    firstName: string,
    userName: string,
    totalXP: int,
    level: Level)

  datatype Skill = Skill(skillType: string, maxAmount: real)

  datatype XpEvent = XpEvent(amount: real, time: int)

  /** `data.audits[0] || {}`: the first audit row, or the empty object. */
  datatype Audits = NoAudits | Audits(auditRatio: real, totalUp: real, totalDown: real, totalUpBonus: real)

  datatype Parsed = Parsed(user: Profile, skills: seq<Skill>, xps: seq<XpEvent>, audits: Audits)

  /** The property access that throws a TypeError, in evaluation order. */
  datatype ParseError = MissingData | MissingUserList | NoUser | MissingSkills | MissingXps | MissingAudits

  const NotAvailable: string := "N/A"
  const UnknownSkill: string := "Unknown"

  // ---------------------------------------------------------------------
  // Profile
  // ---------------------------------------------------------------------

  /** `xp?.aggregate?.sum?.amount ? Math.round(...) : 0`. */
  function TotalXP(sum: Option<real>): (r: int)
    ensures !TruthyNumber(sum) ==> r == 0
    ensures TruthyNumber(sum) ==> r as real - 0.5 <= sum.value < r as real + 0.5
  {
    if TruthyNumber(sum) then MathRound(sum.value) else 0
  }

  /** `level?.[0]?.amount || "N/A"`. */
  function ParseLevel(level: Option<seq<RawLevel>>): (r: Level)
    ensures r.LevelNA? <==>
      (level.None? || |level.value| == 0 || !TruthyNumber(level.value[0].amount))
    ensures r.LevelAmount? ==> r.amount == level.value[0].amount.value && r.amount != 0.0
  {
    if level.Some? && |level.value| > 0 && TruthyNumber(level.value[0].amount)
    then LevelAmount(level.value[0].amount.value)
    else LevelNA
  }

  function ParseProfile(u: RawUser): (p: Profile)
    ensures p.email != "" && p.lastName != "" && p.firstName != "" && p.userName != ""
    ensures TruthyString(u.email) ==> p.email == u.email.value
    ensures TruthyString(u.lastName) ==> p.lastName == u.lastName.value
    ensures TruthyString(u.firstName) ==> p.firstName == u.firstName.value
    ensures TruthyString(u.login) ==> p.userName == u.login.value
    ensures !TruthyString(u.email) ==> p.email == NotAvailable
    ensures !TruthyString(u.lastName) ==> p.lastName == NotAvailable
    ensures !TruthyString(u.firstName) ==> p.firstName == NotAvailable
    ensures !TruthyString(u.login) ==> p.userName == NotAvailable
    ensures p.totalXP == TotalXP(u.xpSum)
    ensures p.level == ParseLevel(u.level)
  {
    Profile(
      StringOr(u.email, NotAvailable),
      StringOr(u.lastName, NotAvailable),
      StringOr(u.firstName, NotAvailable),
      StringOr(u.login, NotAvailable),
      TotalXP(u.xpSum),
      ParseLevel(u.level))
  }

  /** An integral aggregate sum is shown exactly; rounding only touches
      fractional sums. */
  lemma TotalXPOfIntegralSum(n: int)
    requires n != 0
    ensures TotalXP(Some(n as real)) == n
  {
    MathRoundUnique(n as real, n);
  }

  // ---------------------------------------------------------------------
  // Skills
  // ---------------------------------------------------------------------

  function ParseSkill(s: RawSkill): (k: Skill)
    ensures k.skillType != ""
    ensures TruthyString(s.skillType) ==> k.skillType == s.skillType.value
    ensures !TruthyString(s.skillType) ==> k.skillType == UnknownSkill
    ensures k.maxAmount == s.maxAmount.GetOr(0.0)
  {
    Skill(StringOr(s.skillType, UnknownSkill), NumberOrZero(s.maxAmount))
  }

  function ParseSkills(raw: seq<RawSkill>): (r: seq<Skill>)
    ensures |r| == |raw|
    ensures forall i :: 0 <= i < |raw| ==> r[i] == ParseSkill(raw[i])
  {
    seq(|raw|, i requires 0 <= i < |raw| => ParseSkill(raw[i]))
  }

  // ---------------------------------------------------------------------
  // XP events
  // ---------------------------------------------------------------------

  /** `{ amount: xp.amount || 0, time: createdAt ? new Date(createdAt) : new Date() }`,
      with the current instant passed in as `now`. */
  function ParseXp(x: RawXp, now: int): (e: XpEvent)
    ensures e.amount == x.amount.GetOr(0.0)
    ensures e.time == x.createdAt.GetOr(now)
  {
    XpEvent(NumberOrZero(x.amount), if x.createdAt.Some? then x.createdAt.value else now)
  }

  function ParseXps(raw: seq<RawXp>, now: int): (r: seq<XpEvent>)
    ensures |r| == |raw|
    ensures forall i :: 0 <= i < |raw| ==> r[i] == ParseXp(raw[i], now)
  {
    seq(|raw|, i requires 0 <= i < |raw| => ParseXp(raw[i], now))
  }

  predicate SortedByTime(s: seq<XpEvent>) {
    forall i, j :: 0 <= i < j < |s| ==> s[i].time <= s[j].time
  }

  /** Puts `e` in front of the first element that is not earlier than it, so
      that `e` stays ahead of every element with the same time. */
  function InsertByTime(e: XpEvent, s: seq<XpEvent>): (r: seq<XpEvent>)
    ensures multiset(r) == multiset(s) + multiset{e}
    ensures |r| == |s| + 1
    ensures r[0] == e || (s != [] && r[0] == s[0])
  {
    if s == [] || e.time <= s[0].time then [e] + s
    else
      assert s == [s[0]] + s[1..];
      [s[0]] + InsertByTime(e, s[1..])
  }

  lemma {:induction false} InsertByTimeSorted(e: XpEvent, s: seq<XpEvent>)
    requires SortedByTime(s)
    ensures SortedByTime(InsertByTime(e, s))
  {
    if s == [] || e.time <= s[0].time {
    } else {
      var rest := InsertByTime(e, s[1..]);
      InsertByTimeSorted(e, s[1..]);
      assert rest[0].time >= s[0].time;
      var r := [s[0]] + rest;
      forall i, j | 0 <= i < j < |r|
        ensures r[i].time <= r[j].time
      {
        if i > 0 {
          assert r[i] == rest[i - 1] && r[j] == rest[j - 1];
        } else {
          assert r[j] == rest[j - 1];
          assert rest[0].time <= rest[j - 1].time;
        }
      }
    }
  }

  /** `Array.prototype.sort` with comparator `a.time - b.time`, which is
      stable. */
  function SortByTime(s: seq<XpEvent>): (r: seq<XpEvent>)
    ensures multiset(r) == multiset(s)
    ensures |r| == |s|
    ensures SortedByTime(r)
  {
    if s == [] then []
    else
      assert s == [s[0]] + s[1..];
      InsertByTimeSorted(s[0], SortByTime(s[1..]));
      InsertByTime(s[0], SortByTime(s[1..]))
  }

  /** The events at time `t`, in order. */
  function AtTime(s: seq<XpEvent>, t: int): seq<XpEvent> {
    if s == [] then []
    else (if s[0].time == t then [s[0]] else []) + AtTime(s[1..], t)
  }

  lemma AtTimeCons(x: XpEvent, s: seq<XpEvent>, t: int)
    ensures AtTime([x] + s, t) == (if x.time == t then [x] else []) + AtTime(s, t)
  {
    assert ([x] + s)[1..] == s;
  }

  /** Insertion only passes over strictly earlier events, so `e` lands ahead
      of every event with its time. */
  lemma {:induction false} AtTimeInsert(e: XpEvent, s: seq<XpEvent>, t: int)
    ensures AtTime(InsertByTime(e, s), t) == (if e.time == t then [e] else []) + AtTime(s, t)
  {
    if s == [] || e.time <= s[0].time {
      AtTimeCons(e, s, t);
    } else {
      var r := InsertByTime(e, s[1..]);
      assert InsertByTime(e, s) == [s[0]] + r;
      AtTimeInsert(e, s[1..], t);
      AtTimeCons(s[0], r, t);
      AtTimeCons(s[0], s[1..], t);
      assert [s[0]] + s[1..] == s;
      if e.time == t {
        assert s[0].time != t;
      }
    }
  }

  /** Sorting is stable: events with equal times keep their input order. */
  lemma {:induction false} SortByTimeStable(s: seq<XpEvent>, t: int)
    ensures AtTime(SortByTime(s), t) == AtTime(s, t)
  {
    if s != [] {
      SortByTimeStable(s[1..], t);
      AtTimeInsert(s[0], SortByTime(s[1..]), t);
    }
  }

  // ---------------------------------------------------------------------
  // The whole response
  // ---------------------------------------------------------------------

  function ParseAudits(audits: seq<RawAudit>): (a: Audits)
    ensures a.NoAudits? <==> |audits| == 0
    ensures a.Audits? ==> a == Audits(audits[0].auditRatio, audits[0].totalUp, audits[0].totalDown, audits[0].totalUpBonus)
  {
    if |audits| == 0 then NoAudits
    else Audits(audits[0].auditRatio, audits[0].totalUp, audits[0].totalDown, audits[0].totalUpBonus)
  }

  /** Succeeds exactly when every list is present and there is a first user. */
  predicate WellFormed(resp: RawResponse) {
    && resp.data.Some?
    && resp.data.value.user.Some?
    && |resp.data.value.user.value| > 0
    && resp.data.value.skills.Some?
    && resp.data.value.xps.Some?
    && resp.data.value.audits.Some?
  }

  function ParseResponse(resp: RawResponse, now: int): (r: Result<Parsed, ParseError>)
    ensures r.Success? <==> WellFormed(resp)
    ensures r.Success? ==> r.value.user == ParseProfile(resp.data.value.user.value[0])
    ensures r.Success? ==> r.value.skills == ParseSkills(resp.data.value.skills.value)
    ensures r.Success? ==> r.value.audits == ParseAudits(resp.data.value.audits.value)
    ensures r.Success? ==>
      && |r.value.xps| == |resp.data.value.xps.value|
      && multiset(r.value.xps) == multiset(ParseXps(resp.data.value.xps.value, now))
      && SortedByTime(r.value.xps)
  {
    if resp.data.None? then Failure(MissingData)
    else
      var data := resp.data.value;
      if data.user.None? then Failure(MissingUserList)
      else if |data.user.value| == 0 then Failure(NoUser)
      else if data.skills.None? then Failure(MissingSkills)
      else if data.xps.None? then Failure(MissingXps)
      else if data.audits.None? then Failure(MissingAudits)
      else
        Success(Parsed(
          ParseProfile(data.user.value[0]),
          ParseSkills(data.skills.value),
          SortByTime(ParseXps(data.xps.value, now)),
          ParseAudits(data.audits.value)))
  }
}
