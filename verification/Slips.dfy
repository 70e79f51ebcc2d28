/** Printing by rule: which jobs the rules of a task call for, and the record of
    sent ones that holds repeats back. */
module Slips {
  import opened Options
  import opened Ids
  import opened Offsets

  type Uid = nat

  datatype Moment = OnCreate | OnStart | BeforeDue(lead: Offset)

  datatype Paper = TaskSlip | ReminderSlip | Sheet

  datatype Recipients = Assignees | Creator | Users(uids: seq<Uid>)

  datatype Rule = Rule(when: Moment, slip: Paper, to: Recipients)

  datatype Task = Task(
    id: TaskId, createdAt: Time, createdBy: Uid, assignees: seq<Uid>, rules: seq<Rule>,
    startAt: Option<Time>, dueAt: Option<Time>, done: bool)

  /** The earliest moment a date can hold. */
  const MIN_TIME: Time := -8_334_601_228_800

  // What a slip is remembered under.

  function MomentName(m: Moment): string {
    match m
    case OnCreate => "rule_create"
    case OnStart => "rule_start"
    case BeforeDue(_) => "rule_due"
  }

  function PaperName(p: Paper): string {
    match p
    case TaskSlip => "task"
    case ReminderSlip => "reminder"
    case Sheet => "sheet"
  }

  function SentKind(m: Moment, p: Paper): string {
    MomentName(m) + "_" + PaperName(p)
  }

  /** The same kind of moment, whatever the lead time. */
  predicate SameMoment(a: Moment, b: Moment) {
    a.OnCreate? == b.OnCreate? && a.OnStart? == b.OnStart?
  }

  lemma NamesTell(m: Moment, p: Paper)
    ensures var k := SentKind(m, p);
            |k| > 5
            && k[5] == (match m case OnCreate => 'c' case OnStart => 's' case BeforeDue(_) => 'd')
            && k[|k| - 1] == (match p case TaskSlip => 'k' case ReminderSlip => 'r' case Sheet => 't')
  {
    assert MomentName(m)[5] == (match m case OnCreate => 'c' case OnStart => 's' case BeforeDue(_) => 'd');
  }

  /** Rules share a name exactly when they agree on the moment and the paper,
      and none has the name of a reminder. */
  lemma SentKindTells(m: Moment, p: Paper, m': Moment, p': Paper)
    ensures SentKind(m, p) == SentKind(m', p') <==> SameMoment(m, m') && p == p'
    ensures SentKind(m, p) != "start" && SentKind(m, p) != "due"
  {
    NamesTell(m, p);
    NamesTell(m', p');
  }

  datatype Key = Key(task: TaskId, uid: Uid, kind: string, anchor: Time)

  /** One slip for one person. */
  datatype Job = Job(task: TaskId, uid: Uid, when: Moment, slip: Paper, anchor: Time)

  function KeyOf(j: Job): Key {
    Key(j.task, j.uid, SentKind(j.when, j.slip), j.anchor)
  }

  // Who gets one.

  predicate Rising(uids: seq<Uid>) {
    forall i, j :: 0 <= i < j < |uids| ==> uids[i] < uids[j]
  }

  function Insert(uids: seq<Uid>, u: Uid): seq<Uid> {
    if uids == [] then [u]
    else if u < uids[0] then [u] + uids
    else if u == uids[0] then uids
    else [uids[0]] + Insert(uids[1..], u)
  }

  /** In order, each once. */
  function Sorted(uids: seq<Uid>): seq<Uid> {
    if uids == [] then [] else Insert(Sorted(uids[1..]), uids[0])
  }

  function Named(rule: Rule, task: Task): seq<Uid> {
    match rule.to
    case Assignees => if task.assignees == [] then [task.createdBy] else task.assignees
    case Creator => [task.createdBy]
    case Users(uids) => uids
  }

  function Members(uids: seq<Uid>, members: set<Uid>): seq<Uid> {
    if uids == [] then []
    else Members(uids[..|uids| - 1], members) + if uids[|uids| - 1] in members then [uids[|uids| - 1]] else []
  }

  /** The members a rule names, in ascending order without repeats. A rule for
      the assignees of a task that has none names its creator. */
  function RecipientsOf(rule: Rule, task: Task, members: set<Uid>): seq<Uid> {
    Sorted(Members(Named(rule, task), members))
  }

  lemma {:induction false} InsertKeepsOrder(uids: seq<Uid>, u: Uid)
    requires Rising(uids)
    ensures Rising(Insert(uids, u)) && forall x :: x in Insert(uids, u) <==> x in uids || x == u
  {
    if uids != [] {
      assert uids == [uids[0]] + uids[1..];
      InsertKeepsOrder(uids[1..], u);
      if uids[0] < u {
        var rest := Insert(uids[1..], u);
        forall j | 0 <= j < |rest| ensures uids[0] < rest[j] {
          assert rest[j] in rest;
        }
      }
    }
  }

  lemma {:induction false} SortedIsSorted(uids: seq<Uid>)
    ensures Rising(Sorted(uids)) && forall x :: x in Sorted(uids) <==> x in uids
  {
    if uids != [] {
      assert uids == [uids[0]] + uids[1..];
      SortedIsSorted(uids[1..]);
      InsertKeepsOrder(Sorted(uids[1..]), uids[0]);
    }
  }

  lemma {:induction false} MembersAre(uids: seq<Uid>, members: set<Uid>)
    ensures forall x :: x in Members(uids, members) <==> x in uids && x in members
  {
    if uids != [] {
      assert uids == uids[..|uids| - 1] + [uids[|uids| - 1]];
      MembersAre(uids[..|uids| - 1], members);
    }
  }

  /** A rule's slip goes to each member it names, once, in the order of ids. */
  lemma RecipientsAre(rule: Rule, task: Task, members: set<Uid>)
    ensures Rising(RecipientsOf(rule, task, members))
    ensures forall x :: x in RecipientsOf(rule, task, members) <==> x in Named(rule, task) && x in members
  {
    MembersAre(Named(rule, task), members);
    SortedIsSorted(Members(Named(rule, task), members));
  }

  // What is owed, in the order it is asked for.

  function JobsFor(rule: Rule, task: TaskId, uids: seq<Uid>, anchor: Time): (r: seq<Job>)
    ensures |r| == |uids| && forall i :: 0 <= i < |r| ==> r[i] == Job(task, uids[i], rule.when, rule.slip, anchor)
  {
    seq(|uids|, i requires 0 <= i < |uids| => Job(task, uids[i], rule.when, rule.slip, anchor))
  }

  /** What an event owes by one rule: the moment must be it, and group sheets
      are left out. */
  function FireJob(rule: Rule, task: Task, members: set<Uid>, when: Moment): seq<Job> {
    if rule.when == when && rule.slip != Sheet
    then JobsFor(rule, task.id, RecipientsOf(rule, task, members), task.createdAt) else []
  }

  function FireJobs(rules: seq<Rule>, task: Task, members: set<Uid>, when: Moment): seq<Job> {
    if rules == [] then []
    else
      var k := |rules| - 1;
      FireJobs(rules[..k], task, members, when) + FireJob(rules[k], task, members, when)
  }

  lemma OneMoreFires(rules: seq<Rule>, i: nat, task: Task, members: set<Uid>, when: Moment)
    requires i < |rules|
    ensures FireJobs(rules[..i + 1], task, members, when)
         == FireJobs(rules[..i], task, members, when) + FireJob(rules[i], task, members, when)
  {
    assert rules[..i + 1][..i] == rules[..i];
  }

  datatype Planned = Planned(index: nat, at: Time, anchor: Option<Time>, sentAnchor: Time)

  /** When a rule is due by date, if it is one that counts from a date there is. */
  function PlanOf(rule: Rule, index: nat, task: Task): Option<Planned> {
    match rule.when
    case OnCreate => None
    case OnStart =>
      (match task.startAt case None => None case Some(start) => Some(Planned(index, start, None, task.createdAt)))
    case BeforeDue(lead) =>
      match task.dueAt
      case None => None
      case Some(due) =>
        if due - Seconds(lead) < MIN_TIME then None else Some(Planned(index, due - Seconds(lead), Some(due), due))
  }

  /** The plans of those among the first `n` rules that go by a date. */
  function PlanRulePrints(task: Task, n: nat): (r: seq<Planned>)
    requires n <= |task.rules|
    ensures forall p :: p in r ==> p.index < n && PlanOf(task.rules[p.index], p.index, task) == Some(p)
  {
    if n == 0 then []
    else
      PlanRulePrints(task, n - 1)
      + (match PlanOf(task.rules[n - 1], n - 1, task) case None => [] case Some(p) => [p])
  }

  predicate Due(p: Planned, now: Time, grace: Time) {
    p.at <= now && (p.anchor.Some? ==> now <= p.anchor.value + grace)
  }

  function PlannedJob(p: Planned, task: Task, members: set<Uid>, now: Time, grace: Time): seq<Job>
    requires p.index < |task.rules|
  {
    var rule := task.rules[p.index];
    if Due(p, now, grace) then JobsFor(rule, task.id, RecipientsOf(rule, task, members), p.sentAnchor) else []
  }

  function PlannedJobs(plan: seq<Planned>, task: Task, members: set<Uid>, now: Time, grace: Time): seq<Job>
    requires forall p :: p in plan ==> p.index < |task.rules|
  {
    if plan == [] then []
    else
      var k := |plan| - 1;
      PlannedJobs(plan[..k], task, members, now, grace) + PlannedJob(plan[k], task, members, now, grace)
  }

  /** Whether the scheduler looks at a task at all. */
  predicate Dated(task: Task) {
    !task.done && task.rules != [] && (task.startAt.Some? || task.dueAt.Some?)
  }

  lemma OneMorePlanned(plan: seq<Planned>, i: nat, task: Task, members: set<Uid>, now: Time, grace: Time)
    requires i < |plan| && forall p :: p in plan ==> p.index < |task.rules|
    ensures PlannedJobs(plan[..i + 1], task, members, now, grace)
         == PlannedJobs(plan[..i], task, members, now, grace) + PlannedJob(plan[i], task, members, now, grace)
  {
    assert plan[..i + 1][..i] == plan[..i];
  }

  function TickJob(task: Task, members: set<Uid>, now: Time, grace: Time): seq<Job> {
    if Dated(task) then PlannedJobs(PlanRulePrints(task, |task.rules|), task, members, now, grace) else []
  }

  function TickJobs(tasks: seq<Task>, members: set<Uid>, now: Time, grace: Time): seq<Job> {
    if tasks == [] then []
    else
      var k := |tasks| - 1;
      TickJobs(tasks[..k], members, now, grace) + TickJob(tasks[k], members, now, grace)
  }

  /** A group of tasks a run has made at once: the rules of its step, and its
      first task. */
  datatype Group = Group(rules: seq<Rule>, first: Task)

  function SheetJob(rule: Rule, root: TaskId, first: Task, members: set<Uid>): seq<Job> {
    if rule.slip == Sheet && rule.when == OnCreate
    then JobsFor(rule, root, RecipientsOf(rule, first, members), first.createdAt) else []
  }

  function SheetJobs(rules: seq<Rule>, root: TaskId, first: Task, members: set<Uid>): seq<Job> {
    if rules == [] then []
    else
      var k := |rules| - 1;
      SheetJobs(rules[..k], root, first, members) + SheetJob(rules[k], root, first, members)
  }

  function GroupJobs(groups: seq<Group>, root: TaskId, members: set<Uid>): seq<Job> {
    if groups == [] then []
    else
      var g := groups[|groups| - 1];
      GroupJobs(groups[..|groups| - 1], root, members) + SheetJobs(g.rules, root, g.first, members)
  }

  // What is printed of it.

  /** The table of what was sent, and everything printed. */
  datatype Desk = Desk(sent: set<Key>, printed: seq<Job>)

  /** One slip asked for: printed unless it was sent, or the person is no user. */
  function Offer(d: Desk, users: set<Uid>, j: Job): Desk {
    if KeyOf(j) in d.sent || j.uid !in users then d
    else Desk(d.sent + {KeyOf(j)}, d.printed + [j])
  }

  function OfferAll(d: Desk, users: set<Uid>, jobs: seq<Job>): Desk {
    if jobs == [] then d else Offer(OfferAll(d, users, jobs[..|jobs| - 1]), users, jobs[|jobs| - 1])
  }

  lemma {:induction false} OfferInTurn(d: Desk, users: set<Uid>, a: seq<Job>, b: seq<Job>)
    ensures OfferAll(d, users, a + b) == OfferAll(OfferAll(d, users, a), users, b)
  {
    if b == [] {
      assert a + b == a;
    } else {
      var k := |b| - 1;
      OfferInTurn(d, users, a, b[..k]);
      assert (a + b)[..|a + b| - 1] == a + b[..k];
    }
  }

  /** The daemon's end of it: the table, changed row by row. */
  class Printer {
    const users: set<Uid>
    var sent: set<Key>
    var printed: seq<Job>

    function Snapshot(): Desk
      reads this
    {
      Desk(sent, printed)
    }

    constructor (users: set<Uid>)
      ensures Snapshot() == Desk({}, []) && this.users == users
    {
      this.users := users;
      sent, printed := {}, [];
    }

    /** One rule's jobs, one for each recipient whose key is not on record. */
    method QueueRule(rule: Rule, task: TaskId, uids: seq<Uid>, anchor: Time)
      modifies this
      ensures Snapshot() == OfferAll(old(Snapshot()), users, JobsFor(rule, task, uids, anchor))
    {
      ghost var jobs := JobsFor(rule, task, uids, anchor);
      for i := 0 to |uids|
        invariant Snapshot() == OfferAll(old(Snapshot()), users, jobs[..i])
      {
        assert jobs[..i + 1][..i] == jobs[..i];
        var key := Key(task, uids[i], SentKind(rule.when, rule.slip), anchor);
        if key in sent || uids[i] !in users {
          continue;
        }
        sent := sent + {key};
        printed := printed + [Job(task, uids[i], rule.when, rule.slip, anchor)];
      }
      assert jobs[..|uids|] == jobs;
    }

    /** All rules of a task for one moment, sheets left out. */
    method Fire(task: Task, members: set<Uid>, when: Moment)
      modifies this
      ensures Snapshot() == OfferAll(old(Snapshot()), users, FireJobs(task.rules, task, members, when))
    {
      ghost var was := Snapshot();
      var rules := task.rules;
      for i := 0 to |rules|
        invariant Snapshot() == OfferAll(was, users, FireJobs(rules[..i], task, members, when))
      {
        var rule := rules[i];
        OneMoreFires(rules, i, task, members, when);
        OfferInTurn(was, users, FireJobs(rules[..i], task, members, when), FireJob(rule, task, members, when));
        if rule.when == when && rule.slip != Sheet {
          var uids := RecipientsOf(rule, task, members);
          QueueRule(rule, task.id, uids, task.createdAt);
        }
      }
      assert rules[..|rules|] == rules;
    }

    /** One tick of the clock over all tasks that have dates. */
    method PrintDated(tasks: seq<Task>, members: set<Uid>, now: Time, grace: Time)
      modifies this
      ensures Snapshot() == OfferAll(old(Snapshot()), users, TickJobs(tasks, members, now, grace))
    {
      ghost var was := Snapshot();
      for i := 0 to |tasks|
        invariant Snapshot() == OfferAll(was, users, TickJobs(tasks[..i], members, now, grace))
      {
        assert tasks[..i + 1][..i] == tasks[..i];
        OfferInTurn(was, users, TickJobs(tasks[..i], members, now, grace), TickJob(tasks[i], members, now, grace));
        if Dated(tasks[i]) {
          PrintPlanned(tasks[i], members, now, grace);
        }
      }
      assert tasks[..|tasks|] == tasks;
    }

    method PrintPlanned(task: Task, members: set<Uid>, now: Time, grace: Time)
      modifies this
      ensures Snapshot() == OfferAll(
        old(Snapshot()), users, PlannedJobs(PlanRulePrints(task, |task.rules|), task, members, now, grace))
    {
      ghost var was := Snapshot();
      var plan := PlanRulePrints(task, |task.rules|);
      for i := 0 to |plan|
        invariant Snapshot() == OfferAll(was, users, PlannedJobs(plan[..i], task, members, now, grace))
      {
        var planned := plan[i];
        OneMorePlanned(plan, i, task, members, now, grace);
        OfferInTurn(
          was, users, PlannedJobs(plan[..i], task, members, now, grace),
          PlannedJob(planned, task, members, now, grace));
        if planned.at > now || (planned.anchor.Some? && now > planned.anchor.value + grace) {
          continue;
        }
        var rule := task.rules[planned.index];
        var uids := RecipientsOf(rule, task, members);
        QueueRule(rule, task.id, uids, planned.sentAnchor);
      }
      assert plan[..|plan|] == plan;
    }

    /** One sheet for each group a run has made, remembered under the root. */
    method PrintSheets(groups: seq<Group>, root: TaskId, members: set<Uid>)
      modifies this
      ensures Snapshot() == OfferAll(old(Snapshot()), users, GroupJobs(groups, root, members))
    {
      ghost var was := Snapshot();
      for i := 0 to |groups|
        invariant Snapshot() == OfferAll(was, users, GroupJobs(groups[..i], root, members))
      {
        assert groups[..i + 1][..i] == groups[..i];
        OfferInTurn(
          was, users, GroupJobs(groups[..i], root, members), SheetJobs(groups[i].rules, root, groups[i].first, members));
        PrintGroup(groups[i], root, members);
      }
      assert groups[..|groups|] == groups;
    }

    method PrintGroup(group: Group, root: TaskId, members: set<Uid>)
      modifies this
      ensures Snapshot() == OfferAll(old(Snapshot()), users, SheetJobs(group.rules, root, group.first, members))
    {
      ghost var was := Snapshot();
      var rules, first := group.rules, group.first;
      for i := 0 to |rules|
        invariant Snapshot() == OfferAll(was, users, SheetJobs(rules[..i], root, first, members))
      {
        var rule := rules[i];
        assert rules[..i + 1][..i] == rules[..i];
        OfferInTurn(was, users, SheetJobs(rules[..i], root, first, members), SheetJob(rule, root, first, members));
        if rule.slip == Sheet && rule.when == OnCreate {
          var uids := RecipientsOf(rule, first, members);
          QueueRule(rule, root, uids, first.createdAt);
        }
      }
      assert rules[..|rules|] == rules;
    }
  }

  // At most once.

  /** What the table remembers is what was printed, and no key was printed
      under twice. */
  predicate DeskOk(d: Desk) {
    && (forall j :: j in d.printed ==> KeyOf(j) in d.sent)
    && (forall i, k :: 0 <= i < k < |d.printed| ==> KeyOf(d.printed[i]) != KeyOf(d.printed[k]))
    && (forall key :: key in d.sent ==> exists j :: j in d.printed && KeyOf(j) == key)
  }

  lemma OfferKeepsOk(d: Desk, users: set<Uid>, j: Job)
    requires DeskOk(d)
    ensures DeskOk(Offer(d, users, j))
  {
    var d' := Offer(d, users, j);
    if d' != d {
      forall key | key in d'.sent ensures exists x :: x in d'.printed && KeyOf(x) == key {
        if key == KeyOf(j) {
          assert j in d'.printed;
        } else {
          var x :| x in d.printed && KeyOf(x) == key;
          assert x in d'.printed;
        }
      }
    }
  }

  lemma {:induction false} OffersKeepOk(d: Desk, users: set<Uid>, jobs: seq<Job>)
    requires DeskOk(d)
    ensures DeskOk(OfferAll(d, users, jobs))
  {
    if jobs != [] {
      var k := |jobs| - 1;
      OffersKeepOk(d, users, jobs[..k]);
      OfferKeepsOk(OfferAll(d, users, jobs[..k]), users, jobs[k]);
    }
  }

  /** Everything that was offered to a user is on the table afterwards, and
      what was on it stays. */
  lemma {:induction false} OfferedIsSent(d: Desk, users: set<Uid>, jobs: seq<Job>)
    ensures d.sent <= OfferAll(d, users, jobs).sent
    ensures forall j :: j in jobs && j.uid in users ==> KeyOf(j) in OfferAll(d, users, jobs).sent
    ensures forall key :: key in OfferAll(d, users, jobs).sent ==>
              key in d.sent || exists j :: j in jobs && KeyOf(j) == key
  {
    if jobs != [] {
      var k := |jobs| - 1;
      OfferedIsSent(d, users, jobs[..k]);
      assert jobs == jobs[..k] + [jobs[k]];
      forall key | key in OfferAll(d, users, jobs).sent && key !in d.sent
        ensures exists j :: j in jobs && KeyOf(j) == key
      {
        if key != KeyOf(jobs[k]) {
          var j :| j in jobs[..k] && KeyOf(j) == key;
          assert j in jobs;
        } else {
          assert jobs[k] in jobs;
        }
      }
    }
  }

  // What is asked for.

  /** Whether a rule is meant for a person: an assignee, the creator when there is
      none, the creator, or one it names; and a member of the board. */
  predicate IsFor(rule: Rule, task: Task, members: set<Uid>, uid: Uid) {
    && uid in members
    && match rule.to
       case Assignees => uid in task.assignees || (task.assignees == [] && uid == task.createdBy)
       case Creator => uid == task.createdBy
       case Users(uids) => uid in uids
  }

  /** Whether a task has a rule that asks for this slip, whenever that is. */
  predicate HasRule(rules: seq<Rule>, task: Task, members: set<Uid>, j: Job) {
    exists rule :: rule in rules && rule.when == j.when && rule.slip == j.slip && IsFor(rule, task, members, j.uid)
  }

  lemma HasOneMoreRule(rules: seq<Rule>, rule: Rule, task: Task, members: set<Uid>, j: Job)
    ensures HasRule(rules + [rule], task, members, j) <==>
              HasRule(rules, task, members, j)
              || (rule.when == j.when && rule.slip == j.slip && IsFor(rule, task, members, j.uid))
  {
    assert rule in rules + [rule];
    assert forall r :: r in rules ==> r in rules + [rule];
  }

  lemma OneRuleAsks(rule: Rule, id: TaskId, task: Task, members: set<Uid>, anchor: Time, j: Job)
    ensures j in JobsFor(rule, id, RecipientsOf(rule, task, members), anchor)
       <==> j == Job(id, j.uid, rule.when, rule.slip, anchor) && IsFor(rule, task, members, j.uid)
  {
    var uids := RecipientsOf(rule, task, members);
    RecipientsAre(rule, task, members);
    if j.uid in uids {
      var i :| 0 <= i < |uids| && uids[i] == j.uid;
      assert JobsFor(rule, id, uids, anchor)[i] == Job(id, j.uid, rule.when, rule.slip, anchor);
    }
  }

  /** As a task is made, or started, exactly the slips its rules for that moment
      have for members are asked for, group sheets apart. */
  lemma {:induction false} FireAsks(rules: seq<Rule>, task: Task, members: set<Uid>, when: Moment, j: Job)
    ensures j in FireJobs(rules, task, members, when) <==>
              j.task == task.id && j.when == when && j.slip != Sheet && j.anchor == task.createdAt
              && HasRule(rules, task, members, j)
  {
    if rules != [] {
      var k := |rules| - 1;
      FireAsks(rules[..k], task, members, when, j);
      OneRuleAsks(rules[k], task.id, task, members, task.createdAt, j);
      HasOneMoreRule(rules[..k], rules[k], task, members, j);
      assert rules == rules[..k] + [rules[k]];
    }
  }

  /** Whether this is the time for a slip that goes by a date: from the start date
      on, or from the lead before the due date until one tick past it. */
  predicate TimeFor(task: Task, j: Job, now: Time, grace: Time) {
    match j.when
    case OnCreate => false
    case OnStart => task.startAt.Some? && task.startAt.value <= now && j.anchor == task.createdAt
    case BeforeDue(lead) =>
      task.dueAt == Some(j.anchor) && MIN_TIME <= j.anchor - Seconds(lead) <= now <= j.anchor + grace
  }

  /** Whether a tick asks for a slip of a task: it is not done, has a rule for it,
      and it is the time. */
  predicate TickOwes(task: Task, members: set<Uid>, now: Time, grace: Time, j: Job) {
    j.task == task.id && !task.done && HasRule(task.rules, task, members, j) && TimeFor(task, j, now, grace)
  }

  predicate SomeOwes(tasks: seq<Task>, members: set<Uid>, now: Time, grace: Time, j: Job) {
    exists task :: task in tasks && TickOwes(task, members, now, grace, j)
  }

  lemma OnePlannedAsks(task: Task, i: nat, members: set<Uid>, now: Time, grace: Time, j: Job)
    requires i < |task.rules|
    ensures var rule, plan := task.rules[i], PlanOf(task.rules[i], i, task);
            (plan.Some? && j in PlannedJob(plan.value, task, members, now, grace)) <==>
              j.task == task.id && rule.when == j.when && rule.slip == j.slip && IsFor(rule, task, members, j.uid)
              && TimeFor(task, j, now, grace)
  {
    var rule, plan := task.rules[i], PlanOf(task.rules[i], i, task);
    if plan.Some? {
      OneRuleAsks(rule, task.id, task, members, plan.value.sentAnchor, j);
    }
  }

  lemma {:induction false} PlannedAsk(task: Task, n: nat, members: set<Uid>, now: Time, grace: Time, j: Job)
    requires n <= |task.rules|
    ensures j in PlannedJobs(PlanRulePrints(task, n), task, members, now, grace) <==>
              j.task == task.id && HasRule(task.rules[..n], task, members, j) && TimeFor(task, j, now, grace)
  {
    if n > 0 {
      var before, all := PlanRulePrints(task, n - 1), PlanRulePrints(task, n);
      PlannedAsk(task, n - 1, members, now, grace, j);
      OnePlannedAsks(task, n - 1, members, now, grace, j);
      HasOneMoreRule(task.rules[..n - 1], task.rules[n - 1], task, members, j);
      assert task.rules[..n] == task.rules[..n - 1] + [task.rules[n - 1]];
      if PlanOf(task.rules[n - 1], n - 1, task).Some? {
        assert all[..|all| - 1] == before;
      } else {
        assert all == before;
      }
    }
  }

  /** What a tick of the clock asks for, all told. */
  lemma {:induction false} TickAsks(tasks: seq<Task>, members: set<Uid>, now: Time, grace: Time, j: Job)
    ensures j in TickJobs(tasks, members, now, grace)
       <==> SomeOwes(tasks, members, now, grace, j)
  {
    if tasks != [] {
      var k := |tasks| - 1;
      TickAsks(tasks[..k], members, now, grace, j);
      OneTickAsks(tasks[k], members, now, grace, j);
      OneMoreOwes(tasks[..k], tasks[k], members, now, grace, j);
      assert tasks == tasks[..k] + [tasks[k]];
    }
  }

  lemma OneTickAsks(task: Task, members: set<Uid>, now: Time, grace: Time, j: Job)
    ensures j in TickJob(task, members, now, grace) <==> TickOwes(task, members, now, grace, j)
  {
    PlannedAsk(task, |task.rules|, members, now, grace, j);
    assert task.rules[..|task.rules|] == task.rules;
  }

  lemma OneMoreOwes(tasks: seq<Task>, last: Task, members: set<Uid>, now: Time, grace: Time, j: Job)
    ensures SomeOwes(tasks + [last], members, now, grace, j)
       <==> SomeOwes(tasks, members, now, grace, j) || TickOwes(last, members, now, grace, j)
  {
    assert last in tasks + [last];
    assert forall task :: task in tasks ==> task in tasks + [last];
  }

  /** Whether a group's sheet is asked for, under the root. */
  predicate GroupOwes(g: Group, root: TaskId, members: set<Uid>, j: Job) {
    && j == Job(root, j.uid, OnCreate, Sheet, g.first.createdAt)
    && HasRule(g.rules, g.first, members, j)
  }

  lemma {:induction false} SheetsAsk(rules: seq<Rule>, root: TaskId, first: Task, members: set<Uid>, j: Job)
    ensures j in SheetJobs(rules, root, first, members) <==> GroupOwes(Group(rules, first), root, members, j)
  {
    if rules != [] {
      var k := |rules| - 1;
      SheetsAsk(rules[..k], root, first, members, j);
      OneRuleAsks(rules[k], root, first, members, first.createdAt, j);
      HasOneMoreRule(rules[..k], rules[k], first, members, j);
      assert rules == rules[..k] + [rules[k]];
    }
  }

  lemma {:induction false} GroupsAsk(groups: seq<Group>, root: TaskId, members: set<Uid>, j: Job)
    ensures j in GroupJobs(groups, root, members) <==> exists g :: g in groups && GroupOwes(g, root, members, j)
  {
    if groups != [] {
      var k := |groups| - 1;
      var g := groups[k];
      GroupsAsk(groups[..k], root, members, j);
      SheetsAsk(g.rules, root, g.first, members, j);
      assert g == Group(g.rules, g.first);
      assert groups == groups[..k] + [g];
      assert g in groups;
    }
  }

  // What anchors a slip.

  /** Everything that happens to tasks as far as their slips go. Between two of
      these a task's dates, rules and people may change in any way; when it was
      created may not. */
  datatype Happening =
    | Made(task: Task, members: set<Uid>)
    | Started(task: Task, members: set<Uid>)
    | Tick(tasks: seq<Task>, members: set<Uid>, now: Time, grace: Time)
    | GroupsMade(groups: seq<Group>, root: TaskId, members: set<Uid>)

  function JobsOf(h: Happening): seq<Job> {
    match h
    case Made(task, members) => FireJobs(task.rules, task, members, OnCreate)
    case Started(task, members) => FireJobs(task.rules, task, members, OnStart)
    case Tick(tasks, members, now, grace) => TickJobs(tasks, members, now, grace)
    case GroupsMade(groups, root, members) => GroupJobs(groups, root, members)
  }

  function After(users: set<Uid>, hs: seq<Happening>): Desk {
    if hs == [] then Desk({}, [])
    else OfferAll(After(users, hs[..|hs| - 1]), users, JobsOf(hs[|hs| - 1]))
  }

  /** Every task in it was created when it was created. */
  predicate BornRight(born: TaskId -> Time, h: Happening) {
    match h
    case Made(task, _) => task.createdAt == born(task.id)
    case Started(task, _) => task.createdAt == born(task.id)
    case Tick(tasks, _, _, _) => forall i :: 0 <= i < |tasks| ==> tasks[i].createdAt == born(tasks[i].id)
    case GroupsMade(_, _, _) => true
  }

  /** What a job comes of, and its anchor. A slip on creation is asked for as its
      task is made; one on the start as its task is started, or at a tick at or
      past its start date; both are anchored on the creation of the task. A slip
      before the due date is asked for at a tick inside the rule's window, and
      anchored on the due date its task had then. Only a group's sheet is anchored
      on another task. */
  predicate AnchoredRight(born: TaskId -> Time, h: Happening, j: Job) {
    match j.when
    case OnCreate => if j.slip == Sheet then h.GroupsMade? else h.Made? && h.task.id == j.task && j.anchor == born(j.task)
    case OnStart =>
      && j.anchor == born(j.task)
      && ((h.Started? && h.task.id == j.task) || (h.Tick? && exists task :: task in h.tasks && WasToStart(task, j, h.now)))
    case BeforeDue(lead) => h.Tick? && exists task :: task in h.tasks && WasDue(task, j, lead, h.now, h.grace)
  }

  predicate WasToStart(task: Task, j: Job, now: Time) {
    task.id == j.task && !task.done && task.startAt.Some? && task.startAt.value <= now
  }

  predicate WasDue(task: Task, j: Job, lead: Offset, now: Time, grace: Time) {
    && task.id == j.task && !task.done && task.dueAt == Some(j.anchor)
    && j.anchor - Seconds(lead) <= now <= j.anchor + grace
  }

  predicate AllAnchored(born: TaskId -> Time, h: Happening, jobs: seq<Job>) {
    forall j :: j in jobs ==> AnchoredRight(born, h, j)
  }

  lemma JobsAreAnchored(born: TaskId -> Time, h: Happening)
    requires BornRight(born, h)
    ensures AllAnchored(born, h, JobsOf(h))
  {
    forall j | j in JobsOf(h) ensures AnchoredRight(born, h, j) {
      match h {
        case Made(task, members) => FireAsks(task.rules, task, members, OnCreate, j);
        case Started(task, members) => FireAsks(task.rules, task, members, OnStart, j);
        case Tick(tasks, members, now, grace) =>
          TickAsks(tasks, members, now, grace, j);
          var task :| task in tasks && TickOwes(task, members, now, grace, j);
        case GroupsMade(groups, root, members) => GroupsAsk(groups, root, members, j);
      }
    }
  }

  predicate AnchoredAt(born: TaskId -> Time, hs: seq<Happening>, j: Job, x: int) {
    0 <= x < |hs| && AnchoredRight(born, hs[x], j)
  }

  /** Something that happened accounts for the job's anchor. */
  ghost predicate AnchoredIn(born: TaskId -> Time, hs: seq<Happening>, j: Job) {
    exists x :: AnchoredAt(born, hs, j, x)
  }

  lemma {:induction false} HistoryIsOk(born: TaskId -> Time, users: set<Uid>, hs: seq<Happening>)
    requires forall i :: 0 <= i < |hs| ==> BornRight(born, hs[i])
    ensures DeskOk(After(users, hs)) && forall j :: j in After(users, hs).printed ==> AnchoredIn(born, hs, j)
  {
    if hs != [] {
      var k := |hs| - 1;
      HistoryIsOk(born, users, hs[..k]);
      JobsAreAnchored(born, hs[k]);
      OffersKeepOk(After(users, hs[..k]), users, JobsOf(hs[k]));
      forall j | j in After(users, hs).printed ensures AnchoredIn(born, hs, j) {
        OfferedBefore(After(users, hs[..k]), users, JobsOf(hs[k]), j);
        if j in After(users, hs[..k]).printed {
          var x :| AnchoredAt(born, hs[..k], j, x);
          assert AnchoredAt(born, hs, j, x);
        } else {
          assert AnchoredAt(born, hs, j, k);
        }
      }
    }
  }

  predicate DueAt(h: Happening, task: TaskId, due: Time) {
    h.Tick? && exists t :: t in h.tasks && t.id == task && t.dueAt == Some(due)
  }

  /** The task had this due date at some tick of the clock. */
  predicate HadDue(hs: seq<Happening>, task: TaskId, due: Time) {
    exists h :: h in hs && DueAt(h, task, due)
  }

  /** No person gets a second slip of one task, one paper and one moment: not on
      its creation, not on its start, by whatever path it comes. There are two
      cases that may repeat: a slip before the due date, for another due date
      the task has had; and a group's sheet, for a group made at another time. */
  lemma AtMostOnce(born: TaskId -> Time, users: set<Uid>, hs: seq<Happening>, i: nat, k: nat)
    requires forall x :: 0 <= x < |hs| ==> BornRight(born, hs[x])
    requires i < k < |After(users, hs).printed|
    ensures var a, b := After(users, hs).printed[i], After(users, hs).printed[k];
            a.task == b.task && a.uid == b.uid && a.slip == b.slip && SameMoment(a.when, b.when) ==>
            && a.anchor != b.anchor
            && (a.when.BeforeDue? || (a.when.OnCreate? && a.slip == Sheet))
            && (a.when.BeforeDue? ==> HadDue(hs, a.task, a.anchor) && HadDue(hs, a.task, b.anchor))
  {
    HistoryIsOk(born, users, hs);
    var printed := After(users, hs).printed;
    var a, b := printed[i], printed[k];
    SentKindTells(a.when, a.slip, b.when, b.slip);
    assert KeyOf(a) != KeyOf(b);
    assert AnchoredIn(born, hs, a) && AnchoredIn(born, hs, b);
    BeforeDueHadDue(born, hs, a);
    BeforeDueHadDue(born, hs, b);
  }

  lemma BeforeDueHadDue(born: TaskId -> Time, hs: seq<Happening>, j: Job)
    requires AnchoredIn(born, hs, j)
    ensures j.when.BeforeDue? ==> HadDue(hs, j.task, j.anchor)
    ensures j.when.OnStart? || (j.when.OnCreate? && j.slip != Sheet) ==> j.anchor == born(j.task)
  {
    var x :| AnchoredAt(born, hs, j, x);
    if j.when.BeforeDue? {
      var task :| task in hs[x].tasks && WasDue(task, j, j.when.lead, hs[x].now, hs[x].grace);
      assert hs[x] in hs && DueAt(hs[x], j.task, j.anchor);
    }
  }

  /** And everybody is handed it once: after it was asked for, a slip for a
      user has been printed. */
  lemma AtLeastOnce(born: TaskId -> Time, users: set<Uid>, hs: seq<Happening>, j: Job)
    requires hs != [] && forall x :: 0 <= x < |hs| ==> BornRight(born, hs[x])
    requires j in JobsOf(hs[|hs| - 1]) && j.uid in users
    ensures exists x :: x in After(users, hs).printed && KeyOf(x) == KeyOf(j)
  {
    HistoryIsOk(born, users, hs);
    OfferedIsSent(After(users, hs[..|hs| - 1]), users, JobsOf(hs[|hs| - 1]));
  }

  /** So a slip for the start is in print once its task was started, or a tick has
      come at or past its start date while it was not done; and none is in print
      before one of the two. */
  lemma StartSlipsComeInTime(born: TaskId -> Time, users: set<Uid>, hs: seq<Happening>, j: Job)
    requires forall x :: 0 <= x < |hs| ==> BornRight(born, hs[x])
    requires j.when.OnStart? && j.slip != Sheet && j.uid in users
    ensures (exists x :: 0 <= x < |hs| && AsksToStart(hs[x], j)) <==> j in After(users, hs).printed
  {
    if x :| 0 <= x < |hs| && AsksToStart(hs[x], j) {
      AskedIsPrinted(born, users, hs, j, x);
    }
    if j in After(users, hs).printed {
      PrintedWasAsked(users, hs, j);
      var x :| 0 <= x < |hs| && j in JobsOf(hs[x]);
      AsksToStartIs(hs[x], j);
    }
  }

  /** Whether this is what a slip for the start waits for. */
  predicate AsksToStart(h: Happening, j: Job) {
    match h
    case Started(task, members) =>
      task.id == j.task && task.createdAt == j.anchor && HasRule(task.rules, task, members, j)
    case Tick(tasks, members, now, _) =>
      exists task :: task in tasks && task.id == j.task && task.createdAt == j.anchor && !task.done
                     && task.startAt.Some? && task.startAt.value <= now && HasRule(task.rules, task, members, j)
    case _ => false
  }

  lemma AsksToStartIs(h: Happening, j: Job)
    requires j.when.OnStart? && j.slip != Sheet
    ensures AsksToStart(h, j) <==> j in JobsOf(h)
  {
    match h {
      case Made(task, members) => FireAsks(task.rules, task, members, OnCreate, j);
      case Started(task, members) => FireAsks(task.rules, task, members, OnStart, j);
      case Tick(tasks, members, now, grace) =>
        TickAsks(tasks, members, now, grace, j);
        assert forall task :: TickOwes(task, members, now, grace, j) <==>
                 task.id == j.task && task.createdAt == j.anchor && !task.done
                 && task.startAt.Some? && task.startAt.value <= now && HasRule(task.rules, task, members, j);
      case GroupsMade(groups, root, members) => GroupsAsk(groups, root, members, j);
    }
  }

  lemma {:induction false} PrintedWasAsked(users: set<Uid>, hs: seq<Happening>, j: Job)
    requires j in After(users, hs).printed
    ensures exists x :: 0 <= x < |hs| && j in JobsOf(hs[x])
  {
    var k := |hs| - 1;
    OfferedBefore(After(users, hs[..k]), users, JobsOf(hs[k]), j);
    if j !in JobsOf(hs[k]) {
      PrintedWasAsked(users, hs[..k], j);
      var x :| 0 <= x < k && j in JobsOf(hs[..k][x]);
      assert j in JobsOf(hs[x]);
    }
  }

  lemma {:induction false} AskedIsPrinted(born: TaskId -> Time, users: set<Uid>, hs: seq<Happening>, j: Job, x: nat)
    requires forall i :: 0 <= i < |hs| ==> BornRight(born, hs[i])
    requires j.when.OnStart? && j.slip != Sheet && j.uid in users
    requires x < |hs| && AsksToStart(hs[x], j)
    ensures j in After(users, hs).printed
  {
    var k := |hs| - 1;
    if x < k {
      AskedIsPrinted(born, users, hs[..k], j, x);
      StaysPrinted(After(users, hs[..k]), users, JobsOf(hs[k]), j);
    } else {
      AsksToStartIs(hs[k], j);
      AtLeastOnce(born, users, hs, j);
      var y :| y in After(users, hs).printed && KeyOf(y) == KeyOf(j);
      SentKindTells(y.when, y.slip, j.when, j.slip);
      assert y == j;
    }
  }

  lemma {:induction false} StaysPrinted(d: Desk, users: set<Uid>, jobs: seq<Job>, j: Job)
    requires j in d.printed
    ensures j in OfferAll(d, users, jobs).printed
  {
    if jobs != [] {
      StaysPrinted(d, users, jobs[..|jobs| - 1], j);
    }
  }

  // Two groups of one event.

  /** Who the sheet rules of a group name. */
  predicate GetsSheet(g: Group, members: set<Uid>, uid: Uid) {
    exists r :: r in g.rules && r.slip == Sheet && r.when == OnCreate && IsFor(r, g.first, members, uid)
  }

  function Sheets(printed: seq<Job>, root: TaskId, uid: Uid, at: Time): nat {
    if printed == [] then 0
    else
      var k := |printed| - 1;
      Sheets(printed[..k], root, uid, at)
      + if printed[k] == Job(root, uid, OnCreate, Sheet, at) then 1 else 0
  }

  /** The groups one event makes share their sheets' key: a person several of
      them name gets one sheet, not one for each. */
  lemma OneSheetForAllGroups(d: Desk, users: set<Uid>, groups: seq<Group>, root: TaskId, members: set<Uid>, uid: Uid, at: Time)
    requires DeskOk(d) && uid in users && Key(root, uid, SentKind(OnCreate, Sheet), at) !in d.sent
    requires forall i :: 0 <= i < |groups| ==> groups[i].first.createdAt == at
    ensures Sheets(OfferAll(d, users, GroupJobs(groups, root, members)).printed, root, uid, at)
         == if SomeGets(groups, members, uid) then 1 else 0
  {
    var jobs := GroupJobs(groups, root, members);
    var job := Job(root, uid, OnCreate, Sheet, at);
    GroupJobsAre(groups, root, members, at, job);
    OffersKeepOk(d, users, jobs);
    OfferedIsSent(d, users, jobs);
    var after := OfferAll(d, users, jobs);
    CountIsOne(after, root, uid, at);
    if SomeGets(groups, members, uid) {
      var x :| x in after.printed && KeyOf(x) == KeyOf(job);
      SentKindTells(x.when, x.slip, OnCreate, Sheet);
      assert x == job;
    }
    if job in after.printed {
      OfferedBefore(d, users, jobs, job);
    }
  }

  predicate SomeGets(groups: seq<Group>, members: set<Uid>, uid: Uid) {
    exists g :: g in groups && GetsSheet(g, members, uid)
  }

  lemma SomeGetsGrows(groups: seq<Group>, g: Group, members: set<Uid>, uid: Uid)
    ensures SomeGets(groups + [g], members, uid) <==> SomeGets(groups, members, uid) || GetsSheet(g, members, uid)
  {
    assert g in groups + [g];
  }

  lemma GroupJobsAre(groups: seq<Group>, root: TaskId, members: set<Uid>, at: Time, job: Job)
    requires forall i :: 0 <= i < |groups| ==> groups[i].first.createdAt == at
    requires job == Job(root, job.uid, OnCreate, Sheet, at)
    ensures job in GroupJobs(groups, root, members) <==> SomeGets(groups, members, job.uid)
  {
    GroupsAsk(groups, root, members, job);
    forall g | g in groups ensures GroupOwes(g, root, members, job) <==> GetsSheet(g, members, job.uid) {
    }
  }

  lemma {:induction false} OfferedBefore(d: Desk, users: set<Uid>, jobs: seq<Job>, j: Job)
    ensures j in OfferAll(d, users, jobs).printed ==> j in d.printed || j in jobs
  {
    if jobs != [] {
      var k := |jobs| - 1;
      OfferedBefore(d, users, jobs[..k], j);
      assert jobs == jobs[..k] + [jobs[k]];
    }
  }

  lemma {:induction false} CountIsOne(d: Desk, root: TaskId, uid: Uid, at: Time)
    requires forall i, k :: 0 <= i < k < |d.printed| ==> KeyOf(d.printed[i]) != KeyOf(d.printed[k])
    ensures Sheets(d.printed, root, uid, at) == if Job(root, uid, OnCreate, Sheet, at) in d.printed then 1 else 0
    decreases |d.printed|
  {
    if d.printed != [] {
      var k := |d.printed| - 1;
      CountIsOne(d.(printed := d.printed[..k]), root, uid, at);
      assert d.printed == d.printed[..k] + [d.printed[k]];
    }
  }

  /** How many of the groups of an event name a person. */
  function NamingGroups(groups: seq<Group>, members: set<Uid>, uid: Uid): nat {
    if groups == [] then 0
    else
      var k := |groups| - 1;
      NamingGroups(groups[..k], members, uid) + if GetsSheet(groups[k], members, uid) then 1 else 0
  }

  lemma {:induction false} NamingIsSome(groups: seq<Group>, members: set<Uid>, uid: Uid)
    ensures NamingGroups(groups, members, uid) > 0 <==> SomeGets(groups, members, uid)
  {
    if groups != [] {
      var k := |groups| - 1;
      NamingIsSome(groups[..k], members, uid);
      SomeGetsGrows(groups[..k], groups[k], members, uid);
      assert groups == groups[..k] + [groups[k]];
    }
  }

  /** A person gets a sheet for each of the groups that name them exactly when
      at most one does. */
  lemma SheetForEachGroup(d: Desk, users: set<Uid>, groups: seq<Group>, root: TaskId, members: set<Uid>, uid: Uid, at: Time)
    requires DeskOk(d) && uid in users && Key(root, uid, SentKind(OnCreate, Sheet), at) !in d.sent
    requires forall i :: 0 <= i < |groups| ==> groups[i].first.createdAt == at
    ensures Sheets(OfferAll(d, users, GroupJobs(groups, root, members)).printed, root, uid, at)
            == NamingGroups(groups, members, uid)
       <==> NamingGroups(groups, members, uid) <= 1
  {
    OneSheetForAllGroups(d, users, groups, root, members, uid, at);
    NamingIsSome(groups, members, uid);
  }
}
