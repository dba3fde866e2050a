/** The deterministic study plan: the scheduling loops, a closed form of the plan they build, and the
    checker of its hard constraints. A date is its ordinal, 1 for 0001-01-01. */
module KhotaScheduler {
  import opened Basics
  import opened Modular

  datatype Priority = High | Medium
  datatype Kind = Read | Review

  datatype Request = Request(
    sourceIds: seq<string>, subjectIds: seq<string>, startDate: int, endDate: int, dailyMinutes: int,
    examDates: map<string, int>, weakTopics: seq<string>, excludedDates: seq<int>, sessionMinutes: int)

  datatype Task = Task(
    subject: string, topic: string, kind: Kind, minutes: int, priority: Priority, reason: string, sourceIds: seq<string>)
  datatype Day = Day(date: int, totalMinutes: int, tasks: seq<Task>)

  /** A plan, the validation error the first malformed task or day raises, or the overflow of the cursor
      past the last date there is. */
  datatype Built = Days(days: seq<Day>) | Invalid | Overflowed

  /** The ordinal of 9999-12-31. */
  const MAX_DATE := 3652059

  /** What the request schema admits. */
  predicate IsRequest(r: Request) {
    && |r.sourceIds| <= 10 && 1 <= |r.subjectIds| <= 20 && 20 <= r.dailyMinutes <= 720 && 15 <= r.sessionMinutes <= 180
    && |r.weakTopics| <= 50 && |r.excludedDates| <= 60 && 1 <= r.startDate <= r.endDate <= r.startDate + 180
    && r.endDate <= MAX_DATE
  }

  // ------------------------------------------------------------------ the task and day schemas

  /** Unicode white space, which the schemas trim from every text. */
  predicate IsWhite(c: char) {
    var n := c as int;
    || 0x09 <= n <= 0x0d || n == 0x20 || n == 0x85 || n == 0xa0 || n == 0x1680 || 0x2000 <= n <= 0x200a
    || n == 0x2028 || n == 0x2029 || n == 0x202f || n == 0x205f || n == 0x3000
  }

  function Trim(s: string): string {
    if s != "" && IsWhite(s[0]) then Trim(s[1..])
    else if s != "" && IsWhite(s[|s| - 1]) then Trim(s[..|s| - 1])
    else s
  }

  predicate TaskFits(t: Task) {
    1 <= |t.subject| <= 200 && 1 <= |t.topic| <= 300 && 10 <= t.minutes <= 240
    && 10 <= |t.reason| <= 800 && |t.sourceIds| <= 10
  }

  function SumMinutes(tasks: seq<Task>): int {
    if tasks == [] then 0 else SumMinutes(tasks[..|tasks| - 1]) + tasks[|tasks| - 1].minutes
  }

  predicate DayFits(d: Day) { 0 <= d.totalMinutes <= 720 && |d.tasks| <= 20 && d.totalMinutes == SumMinutes(d.tasks) }

  ghost predicate TasksFit(d: Day) { forall s :: 0 <= s < |d.tasks| ==> TaskFits(d.tasks[s]) }

  ghost predicate AllFit(days: seq<Day>) {
    forall i :: 0 <= i < |days| ==> DayFits(days[i]) && TasksFit(days[i])
  }

  // ------------------------------------------------------------------ the closed form

  function OfSubjects(subjects: seq<string>): (r: seq<string>)
    ensures |r| == |subjects|
  {
    if subjects == [] then [] else ["المادة " + subjects[0]] + OfSubjects(subjects[1..])
  }

  function Topics(r: Request, topics: seq<string>): (res: seq<string>)
    ensures IsRequest(r) ==> res != []
  {
    if topics != [] then topics else if r.weakTopics != [] then r.weakTopics else OfSubjects(r.subjectIds)
  }

  const REASON := "توزيع حتمي يراعي الوقت المتاح وقرب الاختبار والموضوعات الضعيفة."

  /** Where a plan's texts come from: its topics, how the schemas trim a text, and the reason given. */
  datatype Wording = Wording(topics: seq<string>, trim: string -> string, reason: string)

  predicate Suit(c: Wording) { c.topics != [] && 10 <= |c.reason| <= 800 }

  function WordingFor(r: Request, topics: seq<string>): (c: Wording)
    ensures IsRequest(r) ==> Suit(c)
  {
    Wording(Topics(r, topics), Trim, REASON)
  }

  /** Full sessions fill the day; what is left makes one more if it is at least ten minutes. */
  function Sessions(r: Request): (n: nat)
    requires IsRequest(r)
    ensures n >= 1
  {
    Div(r.dailyMinutes, r.sessionMinutes) + if Mod(r.dailyMinutes, r.sessionMinutes) >= 10 then 1 else 0
  }

  function Minutes(r: Request, s: nat): int
    requires IsRequest(r)
  {
    if s < Div(r.dailyMinutes, r.sessionMinutes) then r.sessionMinutes else Mod(r.dailyMinutes, r.sessionMinutes)
  }

  function DayMinutes(r: Request): int
    requires IsRequest(r)
  {
    r.dailyMinutes - if Mod(r.dailyMinutes, r.sessionMinutes) < 10 then Mod(r.dailyMinutes, r.sessionMinutes) else 0
  }

  function PriorityOf(r: Request, subject: string, date: int): Priority {
    if subject in r.examDates && r.examDates[subject] - date <= 14 then High else Medium
  }

  /** Session s of the plan's day number d. */
  function TaskAt(r: Request, c: Wording, date: int, d: nat, s: nat): Task
    requires IsRequest(r) && Suit(c)
  {
    var k := Mod(d + s, |r.subjectIds|);
    var topic := c.topics[Mod(Times(d, Sessions(r)) + s, |c.topics|)];
    Task(c.trim(r.subjectIds[k]), c.trim(topic), if s % 3 == 2 then Review else Read, Minutes(r, s),
         PriorityOf(r, r.subjectIds[k], date), c.reason, r.sourceIds)
  }

  function TasksAt(r: Request, c: Wording, date: int, d: nat, n: nat): (tasks: seq<Task>)
    requires IsRequest(r) && Suit(c)
    ensures |tasks| == n
  {
    if n == 0 then [] else TasksAt(r, c, date, d, n - 1) + [TaskAt(r, c, date, d, n - 1)]
  }

  function DayAt(r: Request, c: Wording, date: int, d: nat): Day
    requires IsRequest(r) && Suit(c)
  {
    Day(date, DayMinutes(r), TasksAt(r, c, date, d, Sessions(r)))
  }

  /** The dates before the limit that are not excluded, in order. */
  function DatesBefore(r: Request, limit: int): seq<int>
    decreases limit - r.startDate
  {
    if limit <= r.startDate then []
    else DatesBefore(r, limit - 1) + if limit - 1 in r.excludedDates then [] else [limit - 1]
  }

  function Dates(r: Request): seq<int> { DatesBefore(r, r.endDate + 1) }

  function PlanOn(r: Request, c: Wording, dates: seq<int>): (days: seq<Day>)
    requires IsRequest(r) && Suit(c)
    ensures |days| == |dates|
  {
    if dates == [] then []
    else PlanOn(r, c, dates[..|dates| - 1]) + [DayAt(r, c, dates[|dates| - 1], |dates| - 1)]
  }

  function Plan(r: Request, c: Wording): seq<Day>
    requires IsRequest(r) && Suit(c)
  {
    PlanOn(r, c, Dates(r))
  }

  lemma {:induction false} TasksAtIs(r: Request, c: Wording, date: int, d: nat, n: nat, s: nat)
    requires IsRequest(r) && Suit(c) && s < n
    ensures TasksAt(r, c, date, d, n)[s] == TaskAt(r, c, date, d, s)
  {
    if s < n - 1 { TasksAtIs(r, c, date, d, n - 1, s); }
  }

  lemma {:induction false} PlanOnIs(r: Request, c: Wording, dates: seq<int>, d: nat)
    requires IsRequest(r) && Suit(c) && d < |dates|
    ensures PlanOn(r, c, dates)[d] == DayAt(r, c, dates[d], d)
    decreases |dates|
  {
    if d < |dates| - 1 { PlanOnIs(r, c, dates[..|dates| - 1], d); }
  }

  // ------------------------------------------------------------------ the arithmetic of a day

  /** Minutes left after s sessions. */
  function Left(r: Request, s: nat): int
    requires IsRequest(r)
  {
    if s <= Div(r.dailyMinutes, r.sessionMinutes) then r.dailyMinutes - Times(s, r.sessionMinutes) else 0
  }

  /** One turn of the inner loop: it runs exactly while sessions remain, and takes min(session, left). */
  lemma SessionStep(r: Request, s: nat)
    requires IsRequest(r) && s <= Sessions(r)
    ensures 0 <= Left(r, s) && (Left(r, s) >= 10 <==> s < Sessions(r))
    ensures s < Sessions(r) ==>
              && Minutes(r, s) == (if r.sessionMinutes <= Left(r, s) then r.sessionMinutes else Left(r, s))
              && Left(r, s + 1) == Left(r, s) - Minutes(r, s)
  {
    var p := r.sessionMinutes;
    var k := Div(r.dailyMinutes, p);
    DivMod(r.dailyMinutes, p);
    if s < k { TimesMonotone(s, k, p); }
  }

  lemma SumAppend(tasks: seq<Task>, t: Task)
    ensures SumMinutes(tasks + [t]) == SumMinutes(tasks) + t.minutes
  {
    assert (tasks + [t])[..|tasks|] == tasks;
  }

  lemma {:induction false} SumOfTasks(r: Request, c: Wording, date: int, d: nat, n: nat)
    requires IsRequest(r) && Suit(c) && n <= Sessions(r)
    ensures SumMinutes(TasksAt(r, c, date, d, n)) == r.dailyMinutes - Left(r, n)
  {
    if n > 0 {
      SumOfTasks(r, c, date, d, n - 1);
      SessionStep(r, n - 1);
      SumAppend(TasksAt(r, c, date, d, n - 1), TaskAt(r, c, date, d, n - 1));
    }
  }

  lemma LeftAtEnd(r: Request)
    requires IsRequest(r)
    ensures Left(r, Sessions(r)) == r.dailyMinutes - DayMinutes(r) && r.dailyMinutes - 10 < DayMinutes(r) <= r.dailyMinutes
  {
    DivMod(r.dailyMinutes, r.sessionMinutes);
  }

  /** The tasks of a scheduled day total the daily minutes, less an unusable remainder under ten. */
  lemma DayTotal(r: Request, c: Wording, date: int, d: nat)
    requires IsRequest(r) && Suit(c)
    ensures SumMinutes(DayAt(r, c, date, d).tasks) == DayMinutes(r)
    ensures r.dailyMinutes - 10 < DayMinutes(r) <= r.dailyMinutes
  {
    LeftAtEnd(r);
    SumOfTasks(r, c, date, d, Sessions(r));
  }

  /** The same numbers by division: how many sessions a day has and how many minutes it totals. */
  lemma SessionsByDivision(r: Request)
    requires IsRequest(r)
    ensures var p, rest := r.sessionMinutes, r.dailyMinutes % r.sessionMinutes;
      && Sessions(r) == r.dailyMinutes / p + (if rest >= 10 then 1 else 0)
      && DayMinutes(r) == r.dailyMinutes - (if rest < 10 then rest else 0)
  {
    DivModAreOperators(r.dailyMinutes, r.sessionMinutes);
  }

  // ------------------------------------------------------------------ the dates of the plan

  ghost predicate Increasing(dates: seq<int>) { forall i, j :: 0 <= i < j < |dates| ==> dates[i] < dates[j] }

  ghost predicate IsDate(r: Request, limit: int, x: int) { r.startDate <= x < limit && x !in r.excludedDates }

  /** The plan's dates are exactly the dates of the period that are not excluded, each once, in order. */
  lemma {:induction false} DatesAreExact(r: Request, limit: int)
    ensures forall x :: x in DatesBefore(r, limit) <==> IsDate(r, limit, x)
    ensures Increasing(DatesBefore(r, limit))
    decreases limit - r.startDate
  {
    if limit > r.startDate {
      DatesAreExact(r, limit - 1);
      var before := DatesBefore(r, limit - 1);
      forall i | 0 <= i < |before| ensures before[i] < limit - 1 { assert before[i] in before; }
    }
  }

  lemma PlanOnOneMore(r: Request, c: Wording, dates: seq<int>, date: int)
    requires IsRequest(r) && Suit(c)
    ensures PlanOn(r, c, dates + [date]) == PlanOn(r, c, dates) + [DayAt(r, c, date, |dates|)]
  {
    assert (dates + [date])[..|dates|] == dates;
  }

  /** The first n tasks of the day meet their schema. */
  ghost predicate FitsBefore(r: Request, c: Wording, date: int, d: nat, n: nat)
    requires IsRequest(r) && Suit(c)
  {
    forall s :: 0 <= s < n ==> TaskFits(TaskAt(r, c, date, d, s))
  }

  lemma TasksFitWhenAllDo(r: Request, c: Wording, date: int, d: nat)
    requires IsRequest(r) && Suit(c)
    ensures TasksFit(DayAt(r, c, date, d)) <==> FitsBefore(r, c, date, d, Sessions(r))
  {
    var tasks := TasksAt(r, c, date, d, Sessions(r));
    forall s | 0 <= s < Sessions(r) ensures TaskFits(tasks[s]) <==> TaskFits(TaskAt(r, c, date, d, s)) {
      TasksAtIs(r, c, date, d, Sessions(r), s);
    }
  }

  ghost predicate DayMeetsSchema(d: Day) { DayFits(d) && TasksFit(d) }

  /** Planned day number d on a date, unless a schema refuses it. */
  ghost function DayOrNone(r: Request, c: Wording, date: int, d: nat): Option<Day>
    requires IsRequest(r) && Suit(c)
  {
    var day := DayAt(r, c, date, d);
    if DayMeetsSchema(day) then Some(day) else None
  }

  /** The outer loop sees a day only through the function that makes it. */
  type DayMaker = (int, nat) -> Option<Day>

  ghost predicate Makes(r: Request, c: Wording, make: DayMaker)
    requires IsRequest(r) && Suit(c)
  {
    forall date: int, d: nat {:trigger DayOrNone(r, c, date, d)} :: make(date, d) == DayOrNone(r, c, date, d)
  }

  /** What the outer loop has built when it stands at a date, unless a day was refused. */
  ghost function SoFar(make: DayMaker, r: Request, cursor: int): Option<seq<Day>>
    decreases cursor - r.startDate
  {
    if cursor <= r.startDate then Some([])
    else
      match SoFar(make, r, cursor - 1)
      case None => None
      case Some(days) => if cursor - 1 in r.excludedDates then Some(days) else WithDay(days, make(cursor - 1, |days|))
  }

  function WithDay(days: seq<Day>, day: Option<Day>): Option<seq<Day>> {
    match day
    case None => None
    case Some(d) => Some(days + [d])
  }

  lemma {:induction false} RefusalStays(make: DayMaker, r: Request, cursor: int, later: int)
    requires r.startDate <= cursor <= later && SoFar(make, r, cursor).None?
    ensures SoFar(make, r, later).None?
    decreases later - cursor
  {
    if cursor < later { RefusalStays(make, r, cursor, later - 1); }
  }

  /** The days made on some dates, unless one of them was refused. */
  ghost function Made(make: DayMaker, dates: seq<int>): Option<seq<Day>> {
    if dates == [] then Some([])
    else
      match Made(make, dates[..|dates| - 1])
      case None => None
      case Some(days) => WithDay(days, make(dates[|dates| - 1], |days|))
  }

  /** The loop makes the days of exactly the planned dates. */
  lemma {:induction false} SoFarIsMade(make: DayMaker, r: Request, cursor: int)
    ensures SoFar(make, r, cursor) == Made(make, DatesBefore(r, cursor))
    decreases cursor - r.startDate
  {
    if cursor > r.startDate {
      SoFarIsMade(make, r, cursor - 1);
      var before := DatesBefore(r, cursor - 1);
      if cursor - 1 in r.excludedDates {
        assert DatesBefore(r, cursor) == before;
      } else {
        assert DatesBefore(r, cursor)[..|before|] == before;
      }
    }
  }

  lemma AllFitAppend(days: seq<Day>, day: Day)
    ensures AllFit(days + [day]) <==> AllFit(days) && DayMeetsSchema(day)
  {
    if AllFit(days + [day]) {
      forall i | 0 <= i < |days| ensures DayFits(days[i]) && TasksFit(days[i]) { assert (days + [day])[i] == days[i]; }
      assert (days + [day])[|days|] == day;
    }
  }

  /** The plan on some dates, unless a schema refuses one of its days. */
  ghost function FittingPlan(r: Request, c: Wording, dates: seq<int>): Option<seq<Day>>
    requires IsRequest(r) && Suit(c)
  {
    if AllFit(PlanOn(r, c, dates)) then Some(PlanOn(r, c, dates)) else None
  }

  lemma FittingOneMore(r: Request, c: Wording, dates: seq<int>, date: int)
    requires IsRequest(r) && Suit(c)
    ensures FittingPlan(r, c, dates + [date])
            == match FittingPlan(r, c, dates)
               case None => None
               case Some(days) => WithDay(days, DayOrNone(r, c, date, |dates|))
  {
    PlanOnOneMore(r, c, dates, date);
    AllFitAppend(PlanOn(r, c, dates), DayAt(r, c, date, |dates|));
  }

  lemma {:induction false} MadeIsPlan(r: Request, c: Wording, make: DayMaker, dates: seq<int>)
    requires IsRequest(r) && Suit(c) && Makes(r, c, make)
    ensures Made(make, dates) == FittingPlan(r, c, dates)
    ensures Made(make, dates).Some? ==> |Made(make, dates).value| == |dates|
  {
    if dates != [] {
      var init, last := dates[..|dates| - 1], dates[|dates| - 1];
      MadeIsPlan(r, c, make, init);
      FittingOneMore(r, c, init, last);
      assert dates == init + [last];
      assert make(last, |init|) == DayOrNone(r, c, last, |init|);
    }
  }

  /** A whole plan still overflows if the cursor cannot move behind its last date. */
  function Finish(r: Request, plan: Option<seq<Day>>): Built {
    match plan
    case None => Invalid
    case Some(days) => if r.endDate == MAX_DATE then Overflowed else Days(days)
  }

  /** The closed form of the whole call: the plan, the validation error if some task or day breaks its schema,
      or the overflow. */
  ghost function PlanResult(r: Request, c: Wording): Built
    requires IsRequest(r) && Suit(c)
  {
    Finish(r, FittingPlan(r, c, Dates(r)))
  }

  lemma LoopResultIs(r: Request, c: Wording, make: DayMaker)
    requires IsRequest(r) && Suit(c) && Makes(r, c, make)
    ensures Finish(r, SoFar(make, r, r.endDate + 1)) == PlanResult(r, c)
  {
    SoFarIsMade(make, r, r.endDate + 1);
    MadeIsPlan(r, c, make, Dates(r));
  }

  // ------------------------------------------------------------------ the scheduling loops

  /** One task: the subject rotates with day and session, the topic with the running index. */
  method MakeTask(r: Request, c: Wording, date: int, d: nat, sessionNo: nat, topicIndex: nat, minutes: nat)
    returns (task: Task)
    requires IsRequest(r) && Suit(c) && topicIndex == Times(d, Sessions(r)) + sessionNo
    requires minutes == Minutes(r, sessionNo)
    ensures task == TaskAt(r, c, date, d, sessionNo)
  {
    DivModAreOperators(d + sessionNo, |r.subjectIds|);
    DivModAreOperators(topicIndex, |c.topics|);
    var subject := r.subjectIds[(d + sessionNo) % |r.subjectIds|];
    var topic := c.topics[topicIndex % |c.topics|];
    var priority := if subject in r.examDates && r.examDates[subject] - date <= 14 then High else Medium;
    var kind := if sessionNo % 3 == 2 then Review else Read;
    task := Task(c.trim(subject), c.trim(topic), kind, minutes, priority, c.reason, r.sourceIds);
  }

  /** The sessions of one day. It stops at the first task its schema refuses. */
  method BuildTasks(r: Request, c: Wording, date: int, d: nat, first: nat)
    returns (ok: bool, tasks: seq<Task>, topicIndex: nat)
    requires IsRequest(r) && Suit(c) && first == Times(d, Sessions(r))
    ensures ok <==> FitsBefore(r, c, date, d, Sessions(r))
    ensures ok ==> tasks == TasksAt(r, c, date, d, Sessions(r)) && topicIndex == first + Sessions(r)
  {
    tasks, topicIndex := [], first;
    var remaining := r.dailyMinutes;
    var sessionNo := 0;
    while remaining >= 10
      invariant sessionNo <= Sessions(r) && remaining == Left(r, sessionNo) && topicIndex == first + sessionNo
      invariant tasks == TasksAt(r, c, date, d, sessionNo) && FitsBefore(r, c, date, d, sessionNo)
      decreases remaining
    {
      SessionStep(r, sessionNo);
      var minutes := if r.sessionMinutes <= remaining then r.sessionMinutes else remaining;
      var task := MakeTask(r, c, date, d, sessionNo, topicIndex, minutes);
      if !TaskFits(task) { return false, tasks, topicIndex; }
      tasks := tasks + [task];
      remaining := remaining - minutes;
      sessionNo := sessionNo + 1;
      topicIndex := topicIndex + 1;
    }
    SessionStep(r, sessionNo);
    return true, tasks, topicIndex;
  }

  /** Day number d of the plan, unless its schema or that of one of its tasks refuses. */
  method BuildDay(r: Request, c: Wording, date: int, d: nat, first: nat)
    returns (ok: bool, day: Day, next: nat)
    requires IsRequest(r) && Suit(c) && first == Times(d, Sessions(r))
    ensures DayOrNone(r, c, date, d) == if ok then Some(day) else None
    ensures ok ==> next == Times(d + 1, Sessions(r))
  {
    var tasks;
    ok, tasks, next := BuildTasks(r, c, date, d, first);
    TasksFitWhenAllDo(r, c, date, d);
    DayTotal(r, c, date, d);
    day := Day(date, SumMinutes(tasks), tasks);
    ok := ok && DayFits(day);
  }

  /** One turn of the outer loop. */
  method VisitDate(r: Request, c: Wording, ghost make: DayMaker, cursor: int, days: seq<Day>, topicIndex: nat)
    returns (ok: bool, days': seq<Day>, topicIndex': nat)
    requires IsRequest(r) && Suit(c) && Makes(r, c, make) && r.startDate <= cursor
    requires SoFar(make, r, cursor) == Some(days) && topicIndex == Times(|days|, Sessions(r))
    ensures SoFar(make, r, cursor + 1) == if ok then Some(days') else None
    ensures ok ==> topicIndex' == Times(|days'|, Sessions(r))
  {
    ok, days', topicIndex' := true, days, topicIndex;
    if cursor !in r.excludedDates {
      var day;
      ok, day, topicIndex' := BuildDay(r, c, cursor, |days|, topicIndex);
      days' := days + [day];
    }
  }

  /** Builds the plan, or stops with the validation error of the first task or day its schema refuses, or
      overflows behind the last date there is. */
  method BuildDays(r: Request, c: Wording, ghost make: DayMaker) returns (built: Built)
    requires IsRequest(r) && Suit(c) && Makes(r, c, make)
    ensures built == Finish(r, SoFar(make, r, r.endDate + 1))
  {
    var days: seq<Day> := [];
    var cursor, topicIndex := r.startDate, 0;
    while cursor <= r.endDate
      invariant r.startDate <= cursor <= r.endDate + 1 && cursor <= MAX_DATE
      invariant SoFar(make, r, cursor) == Some(days) && topicIndex == Times(|days|, Sessions(r))
      decreases r.endDate - cursor
    {
      var ok;
      ok, days, topicIndex := VisitDate(r, c, make, cursor, days, topicIndex);
      if !ok {
        RefusalStays(make, r, cursor + 1, r.endDate + 1);
        return Invalid;
      }
      if cursor == MAX_DATE { return Overflowed; }
      cursor := cursor + 1;
    }
    return Days(days);
  }

  /** The plan for a request, its weak topics or its subjects standing in for missing topics. */
  method BuildPlanDays(r: Request, topics: seq<string>) returns (built: Built)
    requires IsRequest(r)
    ensures built == PlanResult(r, WordingFor(r, topics))
  {
    built := BuildPlan(r, WordingFor(r, topics));
  }

  method BuildPlan(r: Request, c: Wording) returns (built: Built)
    requires IsRequest(r) && Suit(c)
    ensures built == PlanResult(r, c)
  {
    ghost var make: DayMaker := (date: int, d: nat) => DayOrNone(r, c, date, d);
    LoopResultIs(r, c, make);
    built := BuildDays(r, c, make);
  }

  /** Whether the texts of session s of plan day d have an admitted length once trimmed. */
  predicate TextsFit(r: Request, c: Wording, d: nat, s: nat)
    requires IsRequest(r) && Suit(c)
  {
    && 1 <= |c.trim(r.subjectIds[Mod(d + s, |r.subjectIds|)])| <= 200
    && 1 <= |c.trim(c.topics[Mod(Times(d, Sessions(r)) + s, |c.topics|)])| <= 300
  }

  ghost predicate AllTextsFit(r: Request, c: Wording, d: nat)
    requires IsRequest(r) && Suit(c)
  {
    forall s :: 0 <= s < Sessions(r) ==> TextsFit(r, c, d, s)
  }

  lemma TaskFitsIff(r: Request, c: Wording, date: int, d: nat, s: nat)
    requires IsRequest(r) && Suit(c) && s < Sessions(r)
    ensures TaskFits(TaskAt(r, c, date, d, s)) <==> TextsFit(r, c, d, s)
  {
    SessionStep(r, s);
  }

  lemma TasksFitIff(r: Request, c: Wording, date: int, d: nat)
    requires IsRequest(r) && Suit(c)
    ensures TasksFit(DayAt(r, c, date, d)) <==> AllTextsFit(r, c, d)
  {
    TasksFitWhenAllDo(r, c, date, d);
    forall s | 0 <= s < Sessions(r) ensures TaskFits(TaskAt(r, c, date, d, s)) <==> TextsFit(r, c, d, s) {
      TaskFitsIff(r, c, date, d, s);
    }
  }

  lemma DayFitsIff(r: Request, c: Wording, date: int, d: nat)
    requires IsRequest(r) && Suit(c)
    ensures DayFits(DayAt(r, c, date, d)) <==> Sessions(r) <= 20
  {
    DayTotal(r, c, date, d);
  }

  /** A valid request is refused exactly when a planned day has more than twenty sessions or a subject or
      topic that is used is blank or too long; the numbers never fail otherwise. */
  lemma BuildsIff(r: Request, c: Wording)
    requires IsRequest(r) && Suit(c)
    ensures AllFit(Plan(r, c)) <==>
            (Dates(r) == [] || Sessions(r) <= 20) && forall d :: 0 <= d < |Dates(r)| ==> AllTextsFit(r, c, d)
    ensures PlanResult(r, c) == if !AllFit(Plan(r, c)) then Invalid
                                else if r.endDate == MAX_DATE then Overflowed else Days(Plan(r, c))
  {
    var dates, days := Dates(r), Plan(r, c);
    forall d | 0 <= d < |dates|
      ensures (DayFits(days[d]) <==> Sessions(r) <= 20) && (TasksFit(days[d]) <==> AllTextsFit(r, c, d))
    {
      PlanOnIs(r, c, dates, d);
      DayFitsIff(r, c, dates[d], d);
      TasksFitIff(r, c, dates[d], d);
    }
    assert dates != [] ==> (DayFits(days[0]) <==> Sessions(r) <= 20);
  }

  // ------------------------------------------------------------------ the checker

  datatype Verdict = Accepted | OutsideRange | ExcludedDate | OverDailyLimit | DuplicateDay

  ghost predicate MeetsLimits(r: Request, day: Day) {
    r.startDate <= day.date <= r.endDate && day.date !in r.excludedDates && day.totalMinutes <= r.dailyMinutes
  }

  ghost predicate HardConstraints(r: Request, days: seq<Day>) {
    && (forall i :: 0 <= i < |days| ==> MeetsLimits(r, days[i]))
    && (forall i, j :: 0 <= i < j < |days| ==> days[i].date != days[j].date)
  }

  /** The first rule that day i breaks, in the order in which they are looked at. */
  ghost function FaultOf(r: Request, days: seq<Day>, i: nat): Verdict
    requires i < |days|
  {
    var day := days[i];
    if day.date < r.startDate || day.date > r.endDate then OutsideRange
    else if day.date in r.excludedDates then ExcludedDate
    else if day.totalMinutes > r.dailyMinutes then OverDailyLimit
    else if exists j :: 0 <= j < i && days[j].date == day.date then DuplicateDay
    else Accepted
  }

  /** Accepts exactly the plans that meet the hard constraints, whoever made them; otherwise it names
      what is wrong with the first day that breaks one. */
  method ValidateHardConstraints(r: Request, days: seq<Day>) returns (v: Verdict)
    ensures v == Accepted <==> HardConstraints(r, days)
    ensures v != Accepted ==> exists i :: 0 <= i < |days| && HardConstraints(r, days[..i]) && FaultOf(r, days, i) == v
  {
    var seenDates: set<int> := {};
    var i := 0;
    while i < |days|
      invariant 0 <= i <= |days| && HardConstraints(r, days[..i])
      invariant forall x :: x in seenDates <==> exists j :: 0 <= j < i && days[j].date == x
    {
      var day := days[i];
      if day.date < r.startDate || day.date > r.endDate {
        assert FaultOf(r, days, i) == OutsideRange;
        return OutsideRange;
      }
      if day.date in r.excludedDates {
        assert FaultOf(r, days, i) == ExcludedDate;
        return ExcludedDate;
      }
      if day.totalMinutes > r.dailyMinutes {
        assert FaultOf(r, days, i) == OverDailyLimit;
        return OverDailyLimit;
      }
      if day.date in seenDates {
        assert FaultOf(r, days, i) == DuplicateDay;
        return DuplicateDay;
      }
      seenDates := seenDates + {day.date};
      assert days[..i + 1] == days[..i] + [day];
      i := i + 1;
    }
    assert days[..i] == days;
    return Accepted;
  }

  lemma PlannedDayMeetsLimits(r: Request, c: Wording, d: nat)
    requires IsRequest(r) && Suit(c) && d < |Dates(r)|
    ensures MeetsLimits(r, Plan(r, c)[d]) && Plan(r, c)[d].date == Dates(r)[d]
  {
    DatesAreExact(r, r.endDate + 1);
    assert Dates(r)[d] in Dates(r);
    PlanOnIs(r, c, Dates(r), d);
    LeftAtEnd(r);
  }

  /** Every plan the closed form describes, so every plan that is built, passes the checker. */
  lemma PlansPass(r: Request, c: Wording)
    requires IsRequest(r) && Suit(c)
    ensures HardConstraints(r, Plan(r, c))
  {
    var dates, days := Dates(r), Plan(r, c);
    forall d | 0 <= d < |days| ensures MeetsLimits(r, days[d]) && days[d].date == dates[d] {
      PlannedDayMeetsLimits(r, c, d);
    }
    DatesAreExact(r, r.endDate + 1);
    forall i, j | 0 <= i < j < |days| ensures days[i].date != days[j].date {
      assert dates[i] < dates[j];
    }
  }

  // ------------------------------------------------------------------ balance

  /** The topics of a list of tasks, and of a whole plan, in order. */
  function TopicsOf(tasks: seq<Task>): (r: seq<string>)
    ensures |r| == |tasks|
  {
    if tasks == [] then [] else TopicsOf(tasks[..|tasks| - 1]) + [tasks[|tasks| - 1].topic]
  }

  function TopicsIn(days: seq<Day>): seq<string> {
    if days == [] then [] else TopicsIn(days[..|days| - 1]) + TopicsOf(days[|days| - 1].tasks)
  }

  function SubjectsOf(tasks: seq<Task>): (r: seq<string>)
    ensures |r| == |tasks|
  {
    if tasks == [] then [] else SubjectsOf(tasks[..|tasks| - 1]) + [tasks[|tasks| - 1].subject]
  }

  function Trimmed(trim: string -> string, texts: seq<string>): (r: seq<string>)
    ensures |r| == |texts|
  {
    if texts == [] then [] else [trim(texts[0])] + Trimmed(trim, texts[1..])
  }

  lemma {:induction false} TrimmedAt(trim: string -> string, texts: seq<string>, i: nat)
    requires i < |texts|
    ensures Trimmed(trim, texts)[i] == trim(texts[i])
  {
    if i > 0 { TrimmedAt(trim, texts[1..], i - 1); }
  }

  lemma {:induction false} TextsOfAt(tasks: seq<Task>, s: nat)
    requires s < |tasks|
    ensures TopicsOf(tasks)[s] == tasks[s].topic && SubjectsOf(tasks)[s] == tasks[s].subject
    decreases |tasks|
  {
    if s < |tasks| - 1 { TextsOfAt(tasks[..|tasks| - 1], s); }
  }

  /** Collecting texts and trimming them are pointwise. */
  lemma CollectedAt(tasks: seq<Task>, s: nat, trim: string -> string, texts: seq<string>, k: nat)
    requires s < |tasks| && k < |texts|
    ensures tasks[s].topic == trim(texts[k]) ==> TopicsOf(tasks)[s] == Trimmed(trim, texts)[k]
    ensures tasks[s].subject == trim(texts[k]) ==> SubjectsOf(tasks)[s] == Trimmed(trim, texts)[k]
  {
    TextsOfAt(tasks, s);
    TrimmedAt(trim, texts, k);
  }

  lemma TopicAt(r: Request, c: Wording, date: int, d: nat, s: nat)
    requires IsRequest(r) && Suit(c) && s < Sessions(r)
    ensures TopicsOf(TasksAt(r, c, date, d, Sessions(r)))[s] == Trimmed(c.trim, c.topics)[Mod(Times(d, Sessions(r)) + s, |c.topics|)]
  {
    TasksAtIs(r, c, date, d, Sessions(r), s);
    CollectedAt(TasksAt(r, c, date, d, Sessions(r)), s, c.trim, c.topics, Mod(Times(d, Sessions(r)) + s, |c.topics|));
  }

  lemma DayTopics(r: Request, c: Wording, date: int, d: nat)
    requires IsRequest(r) && Suit(c)
    ensures Cycles(Trimmed(c.trim, c.topics), Times(d, Sessions(r)), TopicsOf(TasksAt(r, c, date, d, Sessions(r))))
  {
    var all, from, out := Trimmed(c.trim, c.topics), Times(d, Sessions(r)), TopicsOf(TasksAt(r, c, date, d, Sessions(r)));
    assert Cycles(all, from, out) by {
      forall s | 0 <= s < |out| ensures out[s] == all[Mod(from + s, |all|)] { TopicAt(r, c, date, d, s); }
    }
  }

  lemma SubjectAt(r: Request, c: Wording, date: int, d: nat, s: nat)
    requires IsRequest(r) && Suit(c) && s < Sessions(r)
    ensures SubjectsOf(DayAt(r, c, date, d).tasks)[s] == Trimmed(c.trim, r.subjectIds)[Mod(d + s, |r.subjectIds|)]
  {
    TasksAtIs(r, c, date, d, Sessions(r), s);
    CollectedAt(TasksAt(r, c, date, d, Sessions(r)), s, c.trim, r.subjectIds, Mod(d + s, |r.subjectIds|));
  }

  /** Within a day the subjects cycle, starting at the number of the day. */
  lemma SubjectsCycle(r: Request, c: Wording, date: int, d: nat)
    requires IsRequest(r) && Suit(c)
    ensures Cycles(Trimmed(c.trim, r.subjectIds), d, SubjectsOf(DayAt(r, c, date, d).tasks))
  {
    var all, out := Trimmed(c.trim, r.subjectIds), SubjectsOf(DayAt(r, c, date, d).tasks);
    forall s | 0 <= s < |out| ensures out[s] == all[Mod(d + s, |all|)] { SubjectAt(r, c, date, d, s); }
  }

  /** Through a whole plan the topics cycle, across sessions and days. */
  lemma {:induction false} TopicsCycle(r: Request, c: Wording, dates: seq<int>)
    requires IsRequest(r) && Suit(c)
    ensures |TopicsIn(PlanOn(r, c, dates))| == Times(|dates|, Sessions(r))
    ensures Cycles(Trimmed(c.trim, c.topics), 0, TopicsIn(PlanOn(r, c, dates)))
  {
    if dates != [] {
      var d, init := |dates| - 1, dates[..|dates| - 1];
      TopicsCycle(r, c, init);
      DayTopics(r, c, dates[d], d);
      var days := PlanOn(r, c, dates);
      assert days[..d] == PlanOn(r, c, init);
      CyclesAppend(Trimmed(c.trim, c.topics), TopicsIn(PlanOn(r, c, init)), TopicsOf(days[d].tasks));
    }
  }

  /** The i-th planned task takes the topic at position i mod T of the topic list; over the plan these
      positions are used equally often, give or take one, whatever topics repeat. */
  lemma TopicsAreBalanced(r: Request, c: Wording)
    requires IsRequest(r) && Suit(c)
    ensures var out := TopicsIn(Plan(r, c));
      var positions := Positions(0, |out|, |c.topics|);
      && (forall i :: 0 <= i < |out| ==> positions[i] < |c.topics| && out[i] == c.trim(c.topics[positions[i]]))
      && Balanced(UpTo(|c.topics|), positions)
  {
    TopicsCycle(r, c, Dates(r));
    var all, out := Trimmed(c.trim, c.topics), TopicsIn(Plan(r, c));
    PositionsAreBalanced(all, 0, out);
    forall i | 0 <= i < |out| ensures out[i] == c.trim(c.topics[Positions(0, |out|, |all|)[i]]) {
      TrimmedAt(c.trim, c.topics, Positions(0, |out|, |all|)[i]);
    }
  }

  /** Task s of planned day d takes the subject at position (d + s) mod S; within the day these positions are
      used equally often, give or take one, whatever subjects repeat. */
  lemma SubjectsAreBalanced(r: Request, c: Wording, d: nat)
    requires IsRequest(r) && Suit(c) && d < |Plan(r, c)|
    ensures var out := SubjectsOf(Plan(r, c)[d].tasks);
      var positions := Positions(d, |out|, |r.subjectIds|);
      && (forall i :: 0 <= i < |out| ==> positions[i] < |r.subjectIds| && out[i] == c.trim(r.subjectIds[positions[i]]))
      && Balanced(UpTo(|r.subjectIds|), positions)
  {
    PlanOnIs(r, c, Dates(r), d);
    SubjectsCycle(r, c, Dates(r)[d], d);
    var all, out := Trimmed(c.trim, r.subjectIds), SubjectsOf(Plan(r, c)[d].tasks);
    PositionsAreBalanced(all, d, out);
    forall i | 0 <= i < |out| ensures out[i] == c.trim(r.subjectIds[Positions(d, |out|, |all|)[i]]) {
      TrimmedAt(c.trim, r.subjectIds, Positions(d, |out|, |all|)[i]);
    }
  }

  /** So topics that are distinct once trimmed are used equally often, give or take one. */
  lemma DistinctTopicsAreBalanced(r: Request, c: Wording)
    requires IsRequest(r) && Suit(c) && Distinct(Trimmed(c.trim, c.topics))
    ensures Balanced(Trimmed(c.trim, c.topics), TopicsIn(Plan(r, c)))
  {
    TopicsCycle(r, c, Dates(r));
    CyclesAreBalanced(Trimmed(c.trim, c.topics), 0, TopicsIn(Plan(r, c)));
  }

  /** And so are distinct subjects within a day. */
  lemma DistinctSubjectsAreBalanced(r: Request, c: Wording, d: nat)
    requires IsRequest(r) && Suit(c) && d < |Plan(r, c)| && Distinct(Trimmed(c.trim, r.subjectIds))
    ensures Balanced(Trimmed(c.trim, r.subjectIds), SubjectsOf(Plan(r, c)[d].tasks))
  {
    var subjects, out := Trimmed(c.trim, r.subjectIds), SubjectsOf(Plan(r, c)[d].tasks);
    PlanOnIs(r, c, Dates(r), d);
    SubjectsCycle(r, c, Dates(r)[d], d);
    CyclesFromAnywhere(subjects, d, out);
    CyclesAreBalanced(subjects, Mod(d, |subjects|), out);
  }

  // ------------------------------------------------------------------ what a planned task is

  /** The topics given, otherwise the weak ones, otherwise one for each subject. */
  lemma WordingIs(r: Request, topics: seq<string>)
    ensures var c := WordingFor(r, topics);
      && (topics != [] ==> c.topics == topics)
      && (topics == [] && r.weakTopics != [] ==> c.topics == r.weakTopics)
      && (topics == [] && r.weakTopics == [] ==>
            |c.topics| == |r.subjectIds| && forall i :: 0 <= i < |c.topics| ==> c.topics[i] == "المادة " + r.subjectIds[i])
      && c.trim == Trim && c.reason == REASON
  {
    if topics == [] && r.weakTopics == [] {
      forall i | 0 <= i < |r.subjectIds| ensures OfSubjects(r.subjectIds)[i] == "المادة " + r.subjectIds[i] { OfSubjectsAt(r.subjectIds, i); }
    }
  }

  lemma {:induction false} OfSubjectsAt(subjects: seq<string>, i: nat)
    requires i < |subjects|
    ensures OfSubjects(subjects)[i] == "المادة " + subjects[i]
  {
    if i > 0 { OfSubjectsAt(subjects[1..], i - 1); }
  }

  ghost predicate AllWhite(s: string) { forall i :: 0 <= i < |s| ==> IsWhite(s[i]) }

  ghost predicate Surrounded(s: string, left: string, core: string, right: string) {
    s == left + core + right && AllWhite(left) && AllWhite(right)
  }

  /** s is core with white space around it. */
  ghost predicate Wraps(s: string, core: string) { exists left, right :: Surrounded(s, left, core, right) }

  lemma WrapsMore(c: char, s: string, core: string)
    requires IsWhite(c) && Wraps(s, core)
    ensures Wraps([c] + s, core) && Wraps(s + [c], core)
  {
    var left, right :| Surrounded(s, left, core, right);
    assert [c] + (left + core + right) == [c] + left + core + right;
    assert Surrounded([c] + s, [c] + left, core, right);
    assert (left + core + right) + [c] == left + core + (right + [c]);
    assert Surrounded(s + [c], left, core, right + [c]);
  }

  lemma WrapsItself(s: string)
    ensures Wraps(s, s)
  {
    assert Surrounded(s, "", s, "");
  }

  lemma WrapsFromInside(s: string, core: string)
    requires s != ""
    ensures IsWhite(s[0]) && Wraps(s[1..], core) ==> Wraps(s, core)
    ensures IsWhite(s[|s| - 1]) && Wraps(s[..|s| - 1], core) ==> Wraps(s, core)
  {
    assert s == [s[0]] + s[1..] && s == s[..|s| - 1] + [s[|s| - 1]];
    if IsWhite(s[0]) && Wraps(s[1..], core) { WrapsMore(s[0], s[1..], core); }
    if IsWhite(s[|s| - 1]) && Wraps(s[..|s| - 1], core) { WrapsMore(s[|s| - 1], s[..|s| - 1], core); }
  }

  /** Trimming takes white space from both ends, */
  lemma {:induction false} TrimTakesWhite(s: string)
    ensures Wraps(s, Trim(s))
    decreases |s|
  {
    if s != "" && IsWhite(s[0]) {
      TrimTakesWhite(s[1..]);
      WrapsFromInside(s, Trim(s[1..]));
    } else if s != "" && IsWhite(s[|s| - 1]) {
      TrimTakesWhite(s[..|s| - 1]);
      WrapsFromInside(s, Trim(s[..|s| - 1]));
    } else {
      WrapsItself(s);
    }
  }

  /** and all of it. */
  lemma {:induction false} TrimLeavesNone(s: string)
    ensures Trim(s) != "" ==> !IsWhite(Trim(s)[0]) && !IsWhite(Trim(s)[|Trim(s)| - 1])
    decreases |s|
  {
    if s != "" && IsWhite(s[0]) { TrimLeavesNone(s[1..]); }
    else if s != "" && IsWhite(s[|s| - 1]) { TrimLeavesNone(s[..|s| - 1]); }
  }

  /** Session s of planned day d: the subject and topic it takes, a review exactly every third time, HIGH exactly
      within fourteen days of the subject's exam, whole sessions before the rest. */
  ghost predicate IsPlannedTask(r: Request, c: Wording, date: int, d: nat, s: nat, t: Task)
    requires r.subjectIds != [] && c.topics != [] && r.sessionMinutes > 0
  {
    var m := r.dailyMinutes / r.sessionMinutes + if r.dailyMinutes % r.sessionMinutes >= 10 then 1 else 0;
    var subject := r.subjectIds[(d + s) % |r.subjectIds|];
    && t.subject == c.trim(subject)
    && (d * m + s >= 0 && t.topic == c.trim(c.topics[(d * m + s) % |c.topics|]))
    && (t.kind == Review <==> s % 3 == 2)
    && (t.priority == High <==> subject in r.examDates && r.examDates[subject] <= date + 14)
    && t.minutes == (if s < r.dailyMinutes / r.sessionMinutes then r.sessionMinutes else r.dailyMinutes % r.sessionMinutes)
    && t.reason == c.reason && t.sourceIds == r.sourceIds
  }

  lemma TaskAtIsPlanned(r: Request, c: Wording, date: int, d: nat, s: nat)
    requires IsRequest(r) && Suit(c)
    ensures IsPlannedTask(r, c, date, d, s, TaskAt(r, c, date, d, s))
  {
    SessionsByDivision(r);
    DivModAreOperators(r.dailyMinutes, r.sessionMinutes);
    DivModAreOperators(d + s, |r.subjectIds|);
    TimesIsProduct(d, Sessions(r));
    DivModAreOperators(Times(d, Sessions(r)) + s, |c.topics|);
  }

  /** Every task of every planned day is the one of its day and session. */
  lemma PlannedTasksAre(r: Request, c: Wording, d: nat, s: nat)
    requires IsRequest(r) && Suit(c) && d < |Plan(r, c)| && s < |Plan(r, c)[d].tasks|
    ensures Plan(r, c)[d].date == Dates(r)[d] && IsPlannedTask(r, c, Dates(r)[d], d, s, Plan(r, c)[d].tasks[s])
  {
    PlanOnIs(r, c, Dates(r), d);
    TasksAtIs(r, c, Dates(r)[d], d, Sessions(r), s);
    TaskAtIsPlanned(r, c, Dates(r)[d], d, s);
  }

  // ------------------------------------------------------------------ a valid request that is refused

  /** A student with twelve hours a day in sessions of a quarter of an hour. */
  const LONG_DAYS := Request([], ["s"], 1, 1, 720, map[], [], [], 15)

  /** Its request is valid, but its one day has 48 sessions, more than a planned day may hold. */
  lemma LongDaysAreRefused(c: Wording)
    requires Suit(c)
    ensures IsRequest(LONG_DAYS) && Sessions(LONG_DAYS) == 48 && !AllFit(Plan(LONG_DAYS, c))
  {
    SessionsByDivision(LONG_DAYS);
    BuildsIff(LONG_DAYS, c);
    DatesAreExact(LONG_DAYS, 2);
    assert IsDate(LONG_DAYS, 2, 1);
    assert 1 in Dates(LONG_DAYS);
  }
}
