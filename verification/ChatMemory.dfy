/**
 The trimmed message log of a session, and the department stickiness recovered from a window over it.
 */
module ChatMemory {
  import opened Wrappers
  import opened Departments

  const HISTORY_LIMIT := 200
  const STICKY_WINDOW := 10

  datatype Role = User | Agent | System | Supervisor | Tool

  datatype Message = Message(role: Role, department: Option<Department>, content: string)

  // ----- Redis lists

  /** The elements from `start` to `stop` inclusive; negative positions count from the end. */
  function Range<T>(xs: seq<T>, start: int, stop: int): seq<T> {
    var n := |xs|;
    var lo := if start >= 0 then start else if n + start >= 0 then n + start else 0;
    var hi := if stop < 0 then n + stop else if stop < n then stop else n - 1;
    if lo > hi then [] else xs[lo..hi + 1]
  }

  function Trimmed<T>(xs: seq<T>): seq<T> {
    Range(xs, -HISTORY_LIMIT, -1)
  }

  /** `lrange(key, -limit, -1)`; note that a limit of zero reads everything. */
  function History<T>(xs: seq<T>, limit: nat): seq<T> {
    Range(xs, 0 - limit, -1)
  }

  lemma HistoryMeaning<T>(xs: seq<T>, limit: nat)
    ensures History(xs, limit) == if limit == 0 || |xs| <= limit then xs else xs[|xs| - limit..]
  {
  }

  // ----- pushes and trims in any order

  datatype Op<T> = Push(x: T) | Trim

  function Apply<T>(xs: seq<T>, op: Op<T>): seq<T> {
    match op
    case Push(x) => xs + [x]
    case Trim => Trimmed(xs)
  }

  function ApplyAll<T>(xs: seq<T>, ops: seq<Op<T>>): seq<T> {
    if ops == [] then xs else Apply(ApplyAll(xs, ops[..|ops| - 1]), ops[|ops| - 1])
  }

  /** The log that is never trimmed. */
  function Ideal<T>(xs: seq<T>, ops: seq<Op<T>>): seq<T> {
    if ops == [] then xs
    else
      Ideal(xs, ops[..|ops| - 1]) + match ops[|ops| - 1] case Push(x) => [x] case Trim => []
  }

  ghost predicate SuffixOf<T>(a: seq<T>, b: seq<T>) {
    |a| <= |b| && a == b[|b| - |a|..]
  }

  lemma TrimIsSuffix<T>(a: seq<T>, b: seq<T>)
    requires SuffixOf(a, b)
    ensures SuffixOf(Trimmed(a), b)
    ensures |Trimmed(a)| == if |a| <= HISTORY_LIMIT then |a| else HISTORY_LIMIT
    ensures |a| <= HISTORY_LIMIT ==> Trimmed(a) == a
  {
    HistoryMeaning(a, HISTORY_LIMIT);
    if |a| > HISTORY_LIMIT {
      assert Trimmed(a) == b[|b| - HISTORY_LIMIT..];
    }
  }

  /** However pushes and trims interleave, the log is the end of the ideal one, at least 200 of it. */
  lemma {:induction false} LogIsSuffix<T>(xs: seq<T>, ops: seq<Op<T>>)
    ensures SuffixOf(ApplyAll(xs, ops), Ideal(xs, ops))
    ensures |ApplyAll(xs, ops)| < HISTORY_LIMIT ==> ApplyAll(xs, ops) == Ideal(xs, ops)
  {
    if ops != [] {
      var front := ops[..|ops| - 1];
      var a, b := ApplyAll(xs, front), Ideal(xs, front);
      LogIsSuffix(xs, front);
      match ops[|ops| - 1]
      case Push(x) =>
        assert (b + [x])[|b| - |a|..] == b[|b| - |a|..] + [x];
      case Trim =>
        TrimIsSuffix(a, b);
    }
  }

  /** So every window of up to 200 messages reads as if nothing had ever been trimmed. */
  lemma WindowRefinesIdeal<T>(xs: seq<T>, ops: seq<Op<T>>, limit: nat)
    requires 1 <= limit <= HISTORY_LIMIT
    ensures History(ApplyAll(xs, ops), limit) == History(Ideal(xs, ops), limit)
  {
    LogIsSuffix(xs, ops);
    HistoryMeaning(ApplyAll(xs, ops), limit);
    HistoryMeaning(Ideal(xs, ops), limit);
  }

  /** Just after a trim the log holds at most 200 messages. */
  lemma TrimBounds<T>(xs: seq<T>, ops: seq<Op<T>>)
    requires ops != [] && ops[|ops| - 1] == Trim
    ensures |ApplyAll(xs, ops)| <= HISTORY_LIMIT
  {
    HistoryMeaning(ApplyAll(xs, ops[..|ops| - 1]), HISTORY_LIMIT);
  }

  // ----- one turn

  /** The department of the last agent message that names one. */
  function Sticky(history: seq<Message>): Option<Department> {
    if history == [] then None
    else
      var m := history[|history| - 1];
      if m.role == Agent && m.department.Some? then m.department else Sticky(history[..|history| - 1])
  }

  /** Message i is an agent message that names a department. */
  predicate Names(history: seq<Message>, i: nat) {
    i < |history| && history[i].role == Agent && history[i].department.Some?
  }

  /** The scan finds the last such message, if there is one. */
  lemma {:induction false} StickyMeaning(history: seq<Message>)
    ensures Sticky(history) == None <==> forall i: nat :: !Names(history, i)
    ensures forall i: nat :: LastNaming(history, i) ==> Sticky(history) == history[i].department
  {
    if history != [] {
      var front, last := history[..|history| - 1], |history| - 1;
      StickyMeaning(front);
      assert forall i: nat :: i < last ==> (Names(front, i) <==> Names(history, i));
      if !Names(history, last) {
        forall i: nat | LastNaming(history, i)
          ensures Sticky(history) == history[i].department
        {
          assert LastNaming(front, i);
        }
      }
    }
  }

  ghost predicate LastNaming(history: seq<Message>, i: nat) {
    Names(history, i) && forall j: nat :: i < j ==> !Names(history, j)
  }

  function OrElse(a: Option<Department>, b: Department): Department {
    if a.Some? then a.value else b
  }

  /** Pinned by the request, else sticky, else routed on the message text. */
  function Resolve(pinned: Option<Department>, log: seq<Message>, routed: Department): Department {
    OrElse(pinned, OrElse(Sticky(History(log, STICKY_WINDOW)), routed))
  }

  /** What the control signal, the explicit intent and the topic detector say about a transfer. */
  datatype Signals = Signals(signal: Option<Department>, intent: Option<Department>, topic: Option<Department>)

  /** A transfer to oneself is none; otherwise the first detector that speaks decides. */
  function Transferred(s: Signals, current: Department): Option<Department> {
    if s.signal.Some? && s.signal.value != current then s.signal
    else if s.intent.Some? && s.intent.value != current then s.intent
    else s.topic
  }

  function FinalDepartment(s: Signals, current: Department): Department {
    OrElse(Transferred(s, current), current)
  }

  const ALL_STEPS := 3

  type FailingStep = steps: nat | steps < ALL_STEPS

  /**
   How a turn goes. Appending a message is a push, a trim and an expiry; `steps` says how many of
   the three succeed before one raises.
   */
  datatype Outcome =
    | Answers(signals: Signals, reply: string)
    | FailsRecording(steps: FailingStep)
    | FailsRunning
    | FailsReplying(signals: Signals, reply: string, steps: FailingStep)

  datatype Turn = Turn(pinned: Option<Department>, routed: Department, text: string, outcome: Outcome)

  function UserMessage(t: Turn, d: Department): Message {
    Message(User, Some(d), t.text)
  }

  function AgentMessage(d: Department, reply: string): Message {
    Message(Agent, Some(d), reply)
  }

  /** The list operations of the first `steps` steps of an append. */
  function AppendOps<T>(x: T, steps: nat): seq<Op<T>> {
    if steps == 0 then [] else if steps == 1 then [Push(x)] else [Push(x), Trim]
  }

  /** The list operations of a turn that runs in department d. */
  function TurnOps(t: Turn, d: Department): seq<Op<Message>> {
    match t.outcome
    case Answers(signals, reply) => ReplyOps(t, d, signals, reply, ALL_STEPS)
    case FailsRecording(steps) => AppendOps(UserMessage(t, d), steps)
    case FailsRunning => AppendOps(UserMessage(t, d), ALL_STEPS)
    case FailsReplying(signals, reply, steps) => ReplyOps(t, d, signals, reply, steps)
  }

  function ReplyOps(t: Turn, d: Department, signals: Signals, reply: string, steps: nat): seq<Op<Message>> {
    AppendOps(UserMessage(t, d), ALL_STEPS) + AppendOps(AgentMessage(FinalDepartment(signals, d), reply), steps)
  }

  function RunsIn(log: seq<Message>, t: Turn): Department {
    Resolve(t.pinned, log, t.routed)
  }

  function AfterTurn(log: seq<Message>, t: Turn): seq<Message> {
    ApplyAll(log, TurnOps(t, RunsIn(log, t)))
  }

  function AfterTurns(log: seq<Message>, ts: seq<Turn>): seq<Message> {
    if ts == [] then log else AfterTurn(AfterTurns(log, ts[..|ts| - 1]), ts[|ts| - 1])
  }

  /** An agent message of the turn has reached the log, whether or not the turn then raised. */
  predicate Replied(t: Turn) {
    t.outcome.Answers? || (t.outcome.FailsReplying? && t.outcome.steps > 0)
  }

  /** The department of that agent message. */
  function RepliedBy(log: seq<Message>, t: Turn): Department
    requires Replied(t)
  {
    FinalDepartment(t.outcome.signals, RunsIn(log, t))
  }

  /**
   What an answered turn in department `current` ends in: a signal for another department wins; else
   an intent for another one; else the topic, if there is one; else it stays.
   */
  predicate TransferredTo(s: Signals, current: Department, d: Department) {
    var signalled := s.signal.Some? && s.signal.value != current;
    var intended := s.intent.Some? && s.intent.value != current;
    && (signalled ==> d == s.signal.value)
    && (!signalled && intended ==> d == s.intent.value)
    && (!signalled && !intended && s.topic.Some? ==> d == s.topic.value)
    && (!signalled && !intended && s.topic == None ==> d == current)
  }

  predicate EndsWith(log: seq<Message>, m: Message, n: Message) {
    |log| >= 2 && log[|log| - 2] == m && log[|log| - 1] == n
  }

  lemma AppendEnds(log: seq<Message>, m: Message, steps: nat)
    requires steps > 0
    ensures var after := ApplyAll(log, AppendOps(m, steps));
            && after != [] && after[|after| - 1] == m
            && (log != [] ==> |after| >= 2 && after[|after| - 2] == log[|log| - 1])
  {
    ApplyAppend(log, m, steps);
    HistoryMeaning(log + [m], HISTORY_LIMIT);
  }

  /** The department of the reply, and the two messages that the turn leaves at the end of the log. */
  lemma AnswerMeaning(log: seq<Message>, t: Turn)
    requires Replied(t)
    ensures TransferredTo(t.outcome.signals, RunsIn(log, t), RepliedBy(log, t))
    ensures EndsWith(AfterTurn(log, t), Message(User, Some(RunsIn(log, t)), t.text),
                     Message(Agent, Some(RepliedBy(log, t)), t.outcome.reply))
  {
    var steps := if t.outcome.Answers? then ALL_STEPS else t.outcome.steps;
    TwoAppendsEnd(log, UserMessage(t, RunsIn(log, t)), AgentMessage(RepliedBy(log, t), t.outcome.reply), steps);
  }

  lemma TwoAppendsEnd(log: seq<Message>, m: Message, n: Message, steps: nat)
    requires steps > 0
    ensures EndsWith(ApplyAll(log, AppendOps(m, ALL_STEPS) + AppendOps(n, steps)), m, n)
  {
    ApplyAllConcat(log, AppendOps(m, ALL_STEPS), AppendOps(n, steps));
    AppendEnds(log, m, ALL_STEPS);
    AppendEnds(ApplyAll(log, AppendOps(m, ALL_STEPS)), n, steps);
  }

  /**
   Where a turn runs: in the department the request pins; else in that of the last agent message
   with one among the last ten messages; else where the text is routed.
   */
  lemma RunsInMeaning(log: seq<Message>, t: Turn)
    ensures var recent := if |log| <= 10 then log else log[|log| - 10..];
            && (t.pinned.Some? ==> RunsIn(log, t) == t.pinned.value)
            && (t.pinned == None && (forall i: nat :: !Names(recent, i)) ==> RunsIn(log, t) == t.routed)
            && (forall i: nat :: t.pinned == None && LastNaming(recent, i) ==>
                  Some(RunsIn(log, t)) == recent[i].department)
  {
    HistoryMeaning(log, STICKY_WINDOW);
    StickyMeaning(History(log, STICKY_WINDOW));
  }

  // ----- stickiness

  lemma {:induction false} ApplyAllConcat<T>(xs: seq<T>, a: seq<Op<T>>, b: seq<Op<T>>)
    ensures ApplyAll(xs, a + b) == ApplyAll(ApplyAll(xs, a), b)
  {
    if b == [] {
      assert a + b == a;
    } else {
      assert (a + b)[..|a + b| - 1] == a + b[..|b| - 1];
      ApplyAllConcat(xs, a, b[..|b| - 1]);
    }
  }

  lemma {:induction false} IdealConcat<T>(xs: seq<T>, a: seq<Op<T>>, b: seq<Op<T>>)
    ensures Ideal(xs, a + b) == Ideal(Ideal(xs, a), b)
  {
    if b == [] {
      assert a + b == a;
    } else {
      assert (a + b)[..|a + b| - 1] == a + b[..|b| - 1];
      IdealConcat(xs, a, b[..|b| - 1]);
    }
  }

  predicate RecordsUser(t: Turn) {
    t.outcome.FailsRecording? ==> t.outcome.steps > 0
  }

  /** The turns among ts that got as far as recording the user's message. */
  function Recorded(ts: seq<Turn>): nat {
    if ts == [] then 0
    else Recorded(ts[..|ts| - 1]) + if RecordsUser(ts[|ts| - 1]) then 1 else 0
  }

  /** The operations of a whole series of turns. */
  function AllOps(log: seq<Message>, ts: seq<Turn>): seq<Op<Message>> {
    if ts == [] then []
    else
      var front, t := ts[..|ts| - 1], ts[|ts| - 1];
      AllOps(log, front) + TurnOps(t, RunsIn(AfterTurns(log, front), t))
  }

  lemma {:induction false} AllOpsMeaning(log: seq<Message>, ts: seq<Turn>)
    ensures AfterTurns(log, ts) == ApplyAll(log, AllOps(log, ts))
  {
    if ts != [] {
      var front, t := ts[..|ts| - 1], ts[|ts| - 1];
      AllOpsMeaning(log, front);
      ApplyAllConcat(log, AllOps(log, front), TurnOps(t, RunsIn(AfterTurns(log, front), t)));
    }
  }

  ghost predicate OnlyUsers(ms: seq<Message>) {
    forall i :: 0 <= i < |ms| ==> ms[i].role == User
  }

  /** Turns without a reply add one user message each, if that, and nothing else. */
  lemma {:induction false} UnansweredAddUsers(log: seq<Message>, base: seq<Message>, ts: seq<Turn>)
    returns (users: seq<Message>)
    requires forall i :: 0 <= i < |ts| ==> !Replied(ts[i])
    ensures Ideal(base, AllOps(log, ts)) == base + users
    ensures OnlyUsers(users) && |users| == Recorded(ts)
  {
    if ts == [] {
      users := [];
    } else {
      var front, t := ts[..|ts| - 1], ts[|ts| - 1];
      users := UnansweredAddUsers(log, base, front);
      var d := RunsIn(AfterTurns(log, front), t);
      IdealConcat(base, AllOps(log, front), TurnOps(t, d));
      IdealUnanswered(base + users, t, d);
      if RecordsUser(t) {
        users := users + [UserMessage(t, d)];
      }
    }
  }

  lemma IdealUnanswered(xs: seq<Message>, t: Turn, d: Department)
    requires !Replied(t)
    ensures Ideal(xs, TurnOps(t, d)) == if RecordsUser(t) then xs + [UserMessage(t, d)] else xs
  {
    IdealAppend(xs, UserMessage(t, d), if t.outcome.FailsRecording? then t.outcome.steps else ALL_STEPS);
    if t.outcome.FailsReplying? {
      assert TurnOps(t, d) == AppendOps(UserMessage(t, d), ALL_STEPS);
    }
  }

  lemma IdealAppend<T>(xs: seq<T>, x: T, steps: nat)
    ensures Ideal(xs, AppendOps(x, steps)) == if steps == 0 then xs else xs + [x]
  {
    assert AppendOps(x, 1)[..0] == [];
    assert AppendOps(x, 2)[..1] == AppendOps(x, 1);
    assert Ideal(xs, AppendOps(x, 1)) == xs + [x];
  }

  /** An agent message stays visible behind up to nine user messages, and no further. */
  lemma {:induction false} StickyBehindUsers(base: seq<Message>, agent: Message, users: seq<Message>)
    requires agent.role == Agent && agent.department.Some? && OnlyUsers(users)
    ensures Sticky(History(base + [agent] + users, STICKY_WINDOW)) ==
            if |users| < STICKY_WINDOW then agent.department else None
  {
    var log := base + [agent] + users;
    HistoryMeaning(log, STICKY_WINDOW);
    if |users| < STICKY_WINDOW {
      var kept := if |log| <= STICKY_WINDOW then |base| else STICKY_WINDOW - 1 - |users|;
      assert History(log, STICKY_WINDOW) == base[|base| - kept..] + [agent] + users;
      StickySkipsUsers(base[|base| - kept..] + [agent], users);
      assert (base[|base| - kept..] + [agent])[kept] == agent;
    } else {
      var tail := users[|users| - STICKY_WINDOW..];
      assert History(log, STICKY_WINDOW) == [] + tail;
      StickySkipsUsers([], tail);
    }
  }

  lemma {:induction false} StickySkipsUsers(ms: seq<Message>, users: seq<Message>)
    requires OnlyUsers(users)
    ensures Sticky(ms + users) == Sticky(ms)
  {
    if users == [] {
      assert ms + users == ms;
    } else {
      assert (ms + users)[..|ms + users| - 1] == ms + users[..|users| - 1];
      StickySkipsUsers(ms, users[..|users| - 1]);
    }
  }

  lemma IdealReplied(xs: seq<Message>, t: Turn, d: Department)
    requires Replied(t)
    ensures Ideal(xs, TurnOps(t, d)) ==
            xs + [UserMessage(t, d)] + [AgentMessage(FinalDepartment(t.outcome.signals, d), t.outcome.reply)]
  {
    var u, a := UserMessage(t, d), AgentMessage(FinalDepartment(t.outcome.signals, d), t.outcome.reply);
    var steps := if t.outcome.Answers? then ALL_STEPS else t.outcome.steps;
    IdealConcat(xs, AppendOps(u, ALL_STEPS), AppendOps(a, steps));
    IdealAppend(xs, u, ALL_STEPS);
    IdealAppend(xs + [u], a, steps);
  }

  /**
   After a turn whose reply by D was recorded and any series of turns without a reply, the next
   unpinned turn runs in D exactly as long as fewer than ten of those turns recorded a message; from
   ten on it is routed afresh. This holds from any log, over the trimmed list.
   */
  lemma {:induction false} DepartmentSticks(log: seq<Message>, replied: Turn, failing: seq<Turn>, next: Turn)
    requires Replied(replied) && next.pinned == None
    requires forall i :: 0 <= i < |failing| ==> !Replied(failing[i])
    ensures RunsIn(AfterTurns(AfterTurn(log, replied), failing), next) ==
            if Recorded(failing) < STICKY_WINDOW then RepliedBy(log, replied) else next.routed
  {
    var d := RunsIn(log, replied);
    var first := TurnOps(replied, d);
    var mid := AfterTurn(log, replied);
    AllOpsMeaning(mid, failing);
    ApplyAllConcat(log, first, AllOps(mid, failing));
    WindowRefinesIdeal(log, first + AllOps(mid, failing), STICKY_WINDOW);
    var u, a := UserMessage(replied, d), AgentMessage(RepliedBy(log, replied), replied.outcome.reply);
    IdealReplied(log, replied, d);
    IdealConcat(log, first, AllOps(mid, failing));
    var users := UnansweredAddUsers(mid, log + [u] + [a], failing);
    StickyBehindUsers(log + [u], a, users);
  }

  /** In particular, up to nine turns that fail, whatever they record, do not lose the department. */
  lemma {:induction false} NineFailuresKeepDepartment(log: seq<Message>, replied: Turn, failing: seq<Turn>, next: Turn)
    requires Replied(replied) && next.pinned == None
    requires |failing| <= 9 && forall i :: 0 <= i < |failing| ==> !Replied(failing[i])
    ensures RunsIn(AfterTurns(AfterTurn(log, replied), failing), next) == RepliedBy(log, replied)
  {
    RecordedBound(failing);
    DepartmentSticks(log, replied, failing, next);
  }

  lemma {:induction false} RecordedBound(ts: seq<Turn>)
    ensures Recorded(ts) <= |ts|
  {
    if ts != [] {
      RecordedBound(ts[..|ts| - 1]);
    }
  }

  // ----- the store and the service

  class ShortTermMemory {
    var lists: map<string, seq<Message>>

    function Log(session: string): seq<Message>
      reads this
    {
      if session in lists then lists[session] else []
    }

    constructor ()
      ensures lists == map[]
    {
      lists := map[];
    }

    method Rpush(session: string, m: Message)
      modifies this
      ensures lists == old(lists)[session := Apply(old(Log(session)), Push(m))]
    {
      lists := lists[session := Log(session) + [m]];
    }

    method Ltrim(session: string)
      modifies this
      ensures lists == old(lists)[session := Apply(old(Log(session)), Trim)]
    {
      lists := lists[session := Range(Log(session), -HISTORY_LIMIT, -1)];
    }

    /** Push, trim and expiry, of which the first `steps` succeed. */
    method AppendMessage(session: string, m: Message, steps: nat) returns (ok: bool)
      modifies this
      ensures ok <==> steps >= ALL_STEPS
      ensures Log(session) == ApplyAll(old(Log(session)), AppendOps(m, steps))
      ensures var pushed := old(Log(session)) + [m];
              Log(session) ==
              if steps == 0 then old(Log(session))
              else if steps == 1 || |pushed| <= 200 then pushed else pushed[|pushed| - 200..]
      ensures lists - {session} == old(lists) - {session}
      ensures steps >= 2 ==> |Log(session)| <= HISTORY_LIMIT
    {
      ApplyAppend(Log(session), m, steps);
      HistoryMeaning(Log(session) + [m], HISTORY_LIMIT);
      if steps >= 1 {
        Rpush(session, m);
      }
      if steps >= 2 {
        Ltrim(session);
      }
      ok := steps >= ALL_STEPS;
    }

    method GetHistory(session: string, limit: nat) returns (r: seq<Message>)
      ensures r == History(Log(session), limit)
      ensures 0 < limit ==> |r| <= limit
    {
      HistoryMeaning(Log(session), limit);
      r := Range(Log(session), 0 - limit, -1);
    }

    method ClearSession(session: string)
      modifies this
      ensures lists == old(lists) - {session}
    {
      lists := lists - {session};
    }
  }

  datatype HandleError = NotRecorded

  class ChatService {
    const memory: ShortTermMemory

    constructor (memory: ShortTermMemory)
      ensures this.memory == memory
    {
      this.memory := memory;
    }

    /** The backwards scan over the recent history. */
    method StickyDepartment(history: seq<Message>) returns (r: Option<Department>)
      ensures r == Sticky(history)
    {
      var n := |history|;
      assert history[..n] == history;
      while n > 0
        invariant 0 <= n <= |history|
        invariant Sticky(history) == Sticky(history[..n])
      {
        assert history[..n][..n - 1] == history[..n - 1];
        var m := history[n - 1];
        if m.role == Agent && m.department.Some? {
          return m.department;
        }
        n := n - 1;
      }
      r := None;
    }

    /** One turn: the department of the response, unless recording the user's message raises. */
    method Handle(session: string, t: Turn) returns (r: Result<Department, HandleError>)
      modifies memory
      ensures memory.Log(session) == AfterTurn(old(memory.Log(session)), t)
      ensures memory.lists - {session} == old(memory.lists) - {session}
      ensures r == match t.outcome
                   case Answers(_, _) => Ok(RepliedBy(old(memory.Log(session)), t))
                   case FailsRecording(_) => Err(NotRecorded)
                   case _ => Ok(RunsIn(old(memory.Log(session)), t))
      ensures t.outcome.Answers? ==>
                && r.Ok?
                && TransferredTo(t.outcome.signals, RunsIn(old(memory.Log(session)), t), r.value)
                && EndsWith(memory.Log(session), Message(User, Some(RunsIn(old(memory.Log(session)), t)), t.text),
                            Message(Agent, Some(r.value), t.outcome.reply))
    {
      ghost var log := memory.Log(session);
      if t.outcome.Answers? {
        AnswerMeaning(log, t);
      }
      var history := memory.GetHistory(session, STICKY_WINDOW);
      var sticky := StickyDepartment(history);
      var d := OrElse(t.pinned, OrElse(sticky, t.routed));
      var done := if t.outcome.FailsRecording? then t.outcome.steps else ALL_STEPS;
      var recorded := memory.AppendMessage(session, UserMessage(t, d), done);
      if !recorded {
        return Err(NotRecorded);
      }
      if t.outcome.FailsRunning? {
        return Ok(d);
      }
      var final := FinalDepartment(t.outcome.signals, d);
      var agent := AgentMessage(final, t.outcome.reply);
      var steps := if t.outcome.Answers? then ALL_STEPS else t.outcome.steps;
      ApplyAllConcat(log, AppendOps(UserMessage(t, d), ALL_STEPS), AppendOps(agent, steps));
      var replied := memory.AppendMessage(session, agent, steps);
      r := Ok(if replied then final else d);
    }
  }

  lemma ApplyAppend(log: seq<Message>, m: Message, steps: nat)
    ensures ApplyAll(log, AppendOps(m, steps)) ==
            if steps == 0 then log else if steps == 1 then log + [m] else Trimmed(log + [m])
  {
    assert AppendOps(m, 1)[..0] == [];
    assert AppendOps(m, 2)[..1] == AppendOps(m, 1);
    assert ApplyAll(log, AppendOps(m, 1)) == log + [m];
  }
}
