/**
 Session revocation by token version.

 Every request that reads a user and later mints tokens or commits a new version is two events,
 with anything in between. `bumps` is the log of committed version bumps (change-password and
 logout-all); `seen` and `minted` say how long that log was when a token's version was read and
 when the token was signed.
 */
module TokenSessions {
  import opened Wrappers

  const ACCESS_SECS := 3600.0
  const REFRESH_SECS := 604800.0

  datatype User = User(version: int, active: bool)

  datatype Token = Token(sub: string, version: int, expires: real, parent: Option<nat>, seen: nat, minted: nat)

  datatype Request =
    | Mint(sub: string, version: int, parent: Option<nat>, seen: nat)
    | Bump(sub: string, read: int)
    | Closed

  datatype Sys =
    Sys(users: map<string, User>, tokens: seq<Token>, requests: seq<Request>, bumps: seq<string>, now: real)

  const EMPTY := Sys(map[], [], [], [], 0.0)

  datatype Event =
    | Register(sub: string)
    | SetActive(sub: string, active: bool)
    | BeginLogin(sub: string, verified: bool)
    | BeginRefresh(token: nat)
    | FinishMint(request: nat)
    | BeginBump(token: nat)
    | FinishBump(request: nat)
    | Drop(request: nat)
    | Advance(dt: real)

  predicate Unexpired(s: Sys, t: Token) {
    s.now <= t.expires
  }

  /** `get_principal` and `_validate_session_version` accept token i. */
  predicate Accepts(s: Sys, i: nat) {
    && i < |s.tokens|
    && Unexpired(s, s.tokens[i])
    && s.tokens[i].sub in s.users
    && s.users[s.tokens[i].sub].version == s.tokens[i].version
    && s.users[s.tokens[i].sub].active
  }

  function Close(s: Sys, r: nat): Sys
    requires r < |s.requests|
  {
    s.(requests := s.requests[r := Closed])
  }

  function Signed(s: Sys, m: Request, life: real): Token
    requires m.Mint?
  {
    Token(m.sub, m.version, s.now + life, m.parent, m.seen, |s.bumps|)
  }

  function Step(s: Sys, e: Event): Sys {
    match e
    case Register(sub) =>
      if sub in s.users then s else s.(users := s.users[sub := User(1, true)])
    case SetActive(sub, active) =>
      if sub in s.users then s.(users := s.users[sub := s.users[sub].(active := active)]) else s
    case BeginLogin(sub, verified) =>
      if verified && sub in s.users && s.users[sub].active
      then s.(requests := s.requests + [Mint(sub, s.users[sub].version, None, |s.bumps|)]) else s
    case BeginRefresh(i) =>
      if Accepts(s, i)
      then s.(requests := s.requests + [Mint(s.tokens[i].sub, s.users[s.tokens[i].sub].version, Some(i), |s.bumps|)])
      else s
    case FinishMint(r) =>
      if r < |s.requests| && s.requests[r].Mint? then
        var m := s.requests[r];
        Close(s, r).(tokens := s.tokens + [Signed(s, m, ACCESS_SECS), Signed(s, m, REFRESH_SECS)])
      else s
    case BeginBump(i) =>
      if Accepts(s, i)
      then s.(requests := s.requests + [Bump(s.tokens[i].sub, s.users[s.tokens[i].sub].version)]) else s
    case FinishBump(r) =>
      if r < |s.requests| && s.requests[r].Bump? && s.requests[r].sub in s.users then
        var sub := s.requests[r].sub;
        Close(s, r).(
          users := s.users[sub := s.users[sub].(version := s.requests[r].read + 1)],
          bumps := s.bumps + [sub])
      else s
    case Drop(r) => if r < |s.requests| then Close(s, r) else s
    case Advance(dt) => if dt >= 0.0 then s.(now := s.now + dt) else s
  }

  function RunFrom(s: Sys, es: seq<Event>): Sys {
    if es == [] then s else Step(RunFrom(s, es[..|es| - 1]), es[|es| - 1])
  }

  /** No other bump of the user committed between the read and the commit of this one. */
  predicate Serial(s: Sys, e: Event) {
    e.FinishBump? && e.request < |s.requests| && s.requests[e.request].Bump? && s.requests[e.request].sub in s.users ==>
      s.users[s.requests[e.request].sub].version == s.requests[e.request].read
  }

  predicate SerialRun(s: Sys, es: seq<Event>) {
    es == [] || (SerialRun(s, es[..|es| - 1]) && Serial(RunFrom(s, es[..|es| - 1]), es[|es| - 1]))
  }

  /** A new account starts at version 1, active; a known name is left alone. */
  lemma RegisterMeaning(s: Sys, sub: string)
    ensures Step(s, Register(sub)).users == if sub in s.users then s.users else s.users[sub := User(1, true)]
  {
  }

  /** No token of a disabled account is accepted, and enabling it again changes nothing else. */
  lemma DisabledNeverAccepted(s: Sys, sub: string, i: nat)
    requires i < |s.tokens| && s.tokens[i].sub == sub
    ensures !Accepts(Step(s, SetActive(sub, false)), i)
    ensures Accepts(s, i) ==> Accepts(Step(Step(s, SetActive(sub, false)), SetActive(sub, true)), i)
  {
  }

  /** Once its time is over a token is never accepted. */
  lemma {:induction false} ExpiredNeverAccepted(s: Sys, es: seq<Event>, i: nat)
    requires i < |s.tokens| && s.tokens[i].expires < s.now
    ensures i < |RunFrom(s, es).tokens| && RunFrom(s, es).tokens[i] == s.tokens[i]
    ensures s.now <= RunFrom(s, es).now && !Accepts(RunFrom(s, es), i)
  {
    if es != [] {
      ExpiredNeverAccepted(s, es[..|es| - 1], i);
      TimeStep(RunFrom(s, es[..|es| - 1]), es[|es| - 1]);
    }
  }

  lemma TimeStep(s: Sys, e: Event)
    ensures Step(s, e).now == if e.Advance? && e.dt >= 0.0 then s.now + e.dt else s.now
    ensures s.tokens <= Step(s, e).tokens
  {
  }

  /** A request that is dropped neither signs nor commits, then or later. */
  lemma {:induction false} DroppedIsOver(s: Sys, r: nat, es: seq<Event>)
    requires r < |s.requests|
    ensures var t := RunFrom(Step(s, Drop(r)), es);
            r < |t.requests| && t.requests[r] == Closed
  {
    if es != [] {
      DroppedIsOver(s, r, es[..|es| - 1]);
    }
  }

  // ----- properties of every run, overlapping bumps included

  ghost predicate ParentOk(s: Sys, sub: string, version: int, parent: Option<nat>) {
    parent.Some? ==>
      && parent.value < |s.tokens|
      && s.tokens[parent.value].sub == sub
      && s.tokens[parent.value].version == version
  }

  ghost predicate ChainsOk(s: Sys) {
    && (forall i :: 0 <= i < |s.tokens| ==>
          ParentOk(s, s.tokens[i].sub, s.tokens[i].version, s.tokens[i].parent)
          && (s.tokens[i].parent.Some? ==> s.tokens[i].parent.value < i))
    && (forall r :: 0 <= r < |s.requests| && s.requests[r].Mint? ==>
          ParentOk(s, s.requests[r].sub, s.requests[r].version, s.requests[r].parent))
  }

  lemma {:induction false} ChainsKept(es: seq<Event>)
    ensures ChainsOk(RunFrom(EMPTY, es))
  {
    if es != [] {
      ChainsKept(es[..|es| - 1]);
      ChainsStep(RunFrom(EMPTY, es[..|es| - 1]), es[|es| - 1]);
    }
  }

  lemma ChainsStep(s: Sys, e: Event)
    requires ChainsOk(s)
    ensures ChainsOk(Step(s, e))
  {
    if e.FinishMint? {
      ChainsMint(s, e.request);
    }
  }

  lemma ChainsMint(s: Sys, r: nat)
    requires ChainsOk(s)
    ensures ChainsOk(Step(s, FinishMint(r)))
  {
  }

  /** The login token at the start of a refresh chain. */
  function Root(s: Sys, i: nat): nat
    requires i < |s.tokens|
    decreases i
  {
    if s.tokens[i].parent.Some? && s.tokens[i].parent.value < i then Root(s, s.tokens[i].parent.value) else i
  }

  lemma {:induction false} RootMeaning(s: Sys, i: nat)
    requires ChainsOk(s) && i < |s.tokens|
    ensures Root(s, i) <= i && s.tokens[Root(s, i)].parent == None
    ensures s.tokens[Root(s, i)].sub == s.tokens[i].sub && s.tokens[Root(s, i)].version == s.tokens[i].version
    decreases i
  {
    if s.tokens[i].parent.Some? {
      RootMeaning(s, s.tokens[i].parent.value);
    }
  }

  /** A refresh chain of any length carries the version of the login it began with. */
  lemma RefreshNeverRevives(es: seq<Event>, i: nat)
    requires i < |RunFrom(EMPTY, es).tokens|
    ensures var s := RunFrom(EMPTY, es);
            && Root(s, i) <= i && s.tokens[Root(s, i)].parent == None
            && s.tokens[Root(s, i)].sub == s.tokens[i].sub
            && s.tokens[Root(s, i)].version == s.tokens[i].version
            && (Accepts(s, i) && Unexpired(s, s.tokens[Root(s, i)]) ==> Accepts(s, Root(s, i)))
  {
    ChainsKept(es);
    RootMeaning(RunFrom(EMPTY, es), i);
  }

  // ----- runs whose bumps do not overlap

  function Count(bumps: seq<string>, sub: string): nat {
    if bumps == [] then 0
    else Count(bumps[..|bumps| - 1], sub) + if bumps[|bumps| - 1] == sub then 1 else 0
  }

  lemma CountSnoc(bumps: seq<string>, x: string, sub: string)
    ensures Count(bumps + [x], sub) == Count(bumps, sub) + if x == sub then 1 else 0
  {
    assert (bumps + [x])[..|bumps|] == bumps;
  }

  lemma {:induction false} CountUnchanged(bumps: seq<string>, n: nat, sub: string)
    requires n <= |bumps|
    ensures Count(bumps[..n], sub) <= Count(bumps, sub)
    ensures Count(bumps[..n], sub) == Count(bumps, sub) <==> sub !in bumps[n..]
    decreases |bumps|
  {
    if n < |bumps| {
      var front := bumps[..|bumps| - 1];
      CountUnchanged(front, n, sub);
      assert front[..n] == bumps[..n];
      assert bumps[n..] == front[n..] + [bumps[|bumps| - 1]];
    } else {
      assert bumps[..n] == bumps;
    }
  }

  /** The version is one more than the number of bumps that had happened when it was read. */
  ghost predicate VersionSeen(s: Sys, sub: string, version: int, seen: nat) {
    && sub in s.users
    && seen <= |s.bumps|
    && version == 1 + Count(s.bumps[..seen], sub)
  }

  ghost predicate UsersOk(s: Sys) {
    && (forall u :: u in s.users ==> s.users[u].version == 1 + Count(s.bumps, u))
    && (forall b :: b in s.bumps ==> b in s.users)
  }

  ghost predicate TokensOk(s: Sys) {
    forall i :: 0 <= i < |s.tokens| ==>
      && VersionSeen(s, s.tokens[i].sub, s.tokens[i].version, s.tokens[i].seen)
      && s.tokens[i].seen <= s.tokens[i].minted <= |s.bumps|
  }

  ghost predicate RequestsOk(s: Sys) {
    forall r :: 0 <= r < |s.requests| ==>
      match s.requests[r]
      case Mint(sub, version, _, seen) => VersionSeen(s, sub, version, seen)
      case Bump(sub, read) => sub in s.users && 1 <= read <= s.users[sub].version
      case Closed => true
  }

  ghost predicate Inv(s: Sys) {
    UsersOk(s) && TokensOk(s) && RequestsOk(s)
  }

  lemma {:induction false} CountAbsent(bumps: seq<string>, sub: string)
    requires sub !in bumps
    ensures Count(bumps, sub) == 0
  {
    if bumps != [] {
      assert forall b :: b in bumps[..|bumps| - 1] ==> b in bumps;
      CountAbsent(bumps[..|bumps| - 1], sub);
    }
  }

  lemma BumpKeeps(s: Sys, r: nat)
    requires Inv(s) && Serial(s, FinishBump(r))
    ensures Inv(Step(s, FinishBump(r)))
  {
    if r < |s.requests| && s.requests[r].Bump? && s.requests[r].sub in s.users {
      var s', sub := Step(s, FinishBump(r)), s.requests[r].sub;
      forall u | u in s'.users
        ensures s'.users[u].version == 1 + Count(s'.bumps, u)
      {
        CountSnoc(s.bumps, sub, u);
      }
      assert forall n :: 0 <= n <= |s.bumps| ==> s'.bumps[..n] == s.bumps[..n];
    }
  }

  lemma RegisterKeeps(s: Sys, sub: string)
    requires Inv(s) && sub !in s.users
    ensures Inv(Step(s, Register(sub)))
  {
    CountAbsent(s.bumps, sub);
  }

  /** A request that reads the user now sees the version of now. */
  lemma ReadKeeps(s: Sys, m: Request)
    requires Inv(s)
    requires m.Mint? ==> m.sub in s.users && m.version == s.users[m.sub].version && m.seen == |s.bumps|
    requires m.Bump? ==> m.sub in s.users && m.read == s.users[m.sub].version
    ensures Inv(s.(requests := s.requests + [m]))
  {
    assert s.bumps[..|s.bumps|] == s.bumps;
  }

  lemma MintKeeps(s: Sys, r: nat)
    requires Inv(s)
    ensures Inv(Step(s, FinishMint(r)))
  {
  }

  lemma StepKeeps(s: Sys, e: Event)
    requires Inv(s) && Serial(s, e)
    ensures Inv(Step(s, e))
  {
    match e
    case FinishBump(r) => BumpKeeps(s, r);
    case Register(sub) =>
      if sub !in s.users {
        RegisterKeeps(s, sub);
      }
    case SetActive(_, _) =>
    case BeginLogin(sub, verified) =>
      if verified && sub in s.users && s.users[sub].active {
        ReadKeeps(s, Mint(sub, s.users[sub].version, None, |s.bumps|));
      }
    case BeginRefresh(i) =>
      if Accepts(s, i) {
        ReadKeeps(s, Mint(s.tokens[i].sub, s.users[s.tokens[i].sub].version, Some(i), |s.bumps|));
      }
    case FinishMint(r) => MintKeeps(s, r);
    case BeginBump(i) =>
      if Accepts(s, i) {
        ReadKeeps(s, Bump(s.tokens[i].sub, s.users[s.tokens[i].sub].version));
      }
    case Drop(_) =>
    case Advance(_) =>
  }

  lemma {:induction false} RunKeeps(es: seq<Event>)
    requires SerialRun(EMPTY, es)
    ensures Inv(RunFrom(EMPTY, es))
  {
    if es != [] {
      RunKeeps(es[..|es| - 1]);
      StepKeeps(RunFrom(EMPTY, es[..|es| - 1]), es[|es| - 1]);
    }
  }

  /**
   Every token carries at most its user's current version, and it is accepted exactly if it has not
   expired, the account is active, and no bump was committed since its version was read; in
   particular none since it was minted.
   */
  lemma AcceptedIffNotRevoked(es: seq<Event>, i: nat)
    requires SerialRun(EMPTY, es) && i < |RunFrom(EMPTY, es).tokens|
    ensures var s := RunFrom(EMPTY, es);
            var t := s.tokens[i];
            && t.sub in s.users && t.version <= s.users[t.sub].version
            && t.seen <= t.minted <= |s.bumps|
            && (Accepts(s, i) <==> Unexpired(s, t) && s.users[t.sub].active && t.sub !in s.bumps[t.seen..])
            && (Accepts(s, i) ==> t.sub !in s.bumps[t.minted..])
  {
    RunKeeps(es);
    var s := RunFrom(EMPTY, es);
    var t := s.tokens[i];
    CountUnchanged(s.bumps, t.seen, t.sub);
    assert s.bumps[t.seen..] == s.bumps[t.seen..t.minted] + s.bumps[t.minted..];
  }

  // ----- overlapping bumps

  /** Some token is accepted although a bump of its user was committed after it was minted. */
  ghost predicate StaleAccept(s: Sys) {
    exists i :: 0 <= i < |s.tokens| && Accepts(s, i)
      && s.tokens[i].minted <= |s.bumps| && s.tokens[i].sub in s.bumps[s.tokens[i].minted..]
  }

  /** A token of this user is. */
  ghost predicate StaleOf(s: Sys, sub: string) {
    exists i :: 0 <= i < |s.tokens| && Accepts(s, i) && s.tokens[i].sub == sub
      && s.tokens[i].minted <= |s.bumps| && sub in s.bumps[s.tokens[i].minted..]
  }

  lemma {:induction false} RunFromConcat(s: Sys, a: seq<Event>, b: seq<Event>)
    ensures RunFrom(s, a + b) == RunFrom(RunFrom(s, a), b)
    ensures SerialRun(s, a + b) <==> SerialRun(s, a) && SerialRun(RunFrom(s, a), b)
  {
    if b == [] {
      assert a + b == a;
    } else {
      var front := b[..|b| - 1];
      RunFromConcat(s, a, front);
      assert (a + b)[..|a + b| - 1] == a + front;
    }
  }

  lemma RunFromOne(s: Sys, e: Event)
    ensures RunFrom(s, [e]) == Step(s, e) && (SerialRun(s, [e]) <==> Serial(s, e))
  {
    assert [e][..0] == [];
  }

  /** Log in and sign out everywhere once: the version rises by one and old tokens are kept. */
  lemma RaiseVersion(s: Sys, sub: string) returns (es: seq<Event>)
    requires sub in s.users && s.users[sub].active
    ensures SerialRun(s, es)
    ensures var t := RunFrom(s, es);
            && t.users == s.users[sub := s.users[sub].(version := s.users[sub].version + 1)]
            && s.tokens <= t.tokens && t.now == s.now && t.bumps == s.bumps + [sub]
            && s.requests <= t.requests
  {
    var r, i := |s.requests|, |s.tokens|;
    var a, b, c, d := BeginLogin(sub, true), FinishMint(r), BeginBump(i), FinishBump(r + 1);
    var s1 := Step(s, a);
    var s2 := Step(s1, b);
    assert Accepts(s2, i);
    var s3 := Step(s2, c);
    assert s3.requests[r + 1] == Bump(sub, s.users[sub].version);
    es := [a] + [b] + [c] + [d];
    RunFromOne(s, a);
    RunFromOne(s1, b);
    RunFromConcat(s, [a], [b]);
    RunFromOne(s2, c);
    RunFromConcat(s, [a] + [b], [c]);
    RunFromOne(s3, d);
    RunFromConcat(s, [a] + [b] + [c], [d]);
  }

  /** Raising a version to that of a token makes the token valid again, if its account is active. */
  lemma {:induction false} ClimbBack(s: Sys, i: nat) returns (es: seq<Event>)
    requires i < |s.tokens| && Unexpired(s, s.tokens[i])
    requires s.tokens[i].sub in s.users && s.users[s.tokens[i].sub].active
    requires s.users[s.tokens[i].sub].version <= s.tokens[i].version
    requires s.tokens[i].minted <= |s.bumps|
    requires s.users[s.tokens[i].sub].version < s.tokens[i].version || s.tokens[i].sub in s.bumps[s.tokens[i].minted..]
    ensures SerialRun(s, es) && StaleAccept(RunFrom(s, es)) && StaleOf(RunFrom(s, es), s.tokens[i].sub)
    decreases s.tokens[i].version - s.users[s.tokens[i].sub].version
  {
    var sub := s.tokens[i].sub;
    if s.users[sub].version == s.tokens[i].version {
      es := [];
      assert Accepts(s, i);
    } else {
      var first := RaiseVersion(s, sub);
      var t := RunFrom(s, first);
      assert t.bumps[s.tokens[i].minted..] == s.bumps[s.tokens[i].minted..] + [sub];
      var rest := ClimbBack(t, i);
      es := first + rest;
      RunFromConcat(s, first, rest);
    }
  }

  /** While bumps do not overlap from here on, those in flight included, no revoked token is accepted. */
  ghost predicate NeverStale(s: Sys) {
    forall later :: SerialRun(s, later) ==> !StaleAccept(RunFrom(s, later))
  }

  // ----- exactly when no revoked token can come back

  ghost predicate TokenKnown(s: Sys, t: Token) {
    t.sub in s.users && t.minted <= |s.bumps|
  }

  ghost predicate RequestKnown(s: Sys, m: Request) {
    match m
    case Mint(sub, _, _, _) => sub in s.users
    case Bump(sub, _) => sub in s.users
    case Closed => true
  }

  ghost predicate Known(s: Sys) {
    && (forall i :: 0 <= i < |s.tokens| ==> TokenKnown(s, s.tokens[i]))
    && (forall r :: 0 <= r < |s.requests| ==> RequestKnown(s, s.requests[r]))
  }

  lemma KnownStep(s: Sys, e: Event)
    requires Known(s)
    ensures Known(Step(s, e))
  {
  }

  lemma {:induction false} KnownRun(s: Sys, es: seq<Event>)
    requires Known(s)
    ensures Known(RunFrom(s, es))
  {
    if es != [] {
      KnownRun(s, es[..|es| - 1]);
      KnownStep(RunFrom(s, es[..|es| - 1]), es[|es| - 1]);
    }
  }

  /** The token has expired, or its version is at most the user's, and less once it is revoked. */
  ghost predicate TokenSafe(s: Sys, t: Token) {
    TokenKnown(s, t) && Unexpired(s, t) ==>
      && t.version <= s.users[t.sub].version
      && (t.sub in s.bumps[t.minted..] ==> t.version < s.users[t.sub].version)
  }

  /** Tokens about to be signed will carry at most the user's version. */
  ghost predicate MintSafe(s: Sys, m: Request) {
    m.Mint? && m.sub in s.users ==> m.version <= s.users[m.sub].version
  }

  ghost predicate Safe(s: Sys) {
    && (forall i :: 0 <= i < |s.tokens| ==> TokenSafe(s, s.tokens[i]))
    && (forall r :: 0 <= r < |s.requests| ==> MintSafe(s, s.requests[r]))
  }

  lemma SafeFinishBump(s: Sys, r: nat)
    requires Known(s) && Safe(s) && Serial(s, FinishBump(r))
    ensures Safe(Step(s, FinishBump(r)))
  {
    var u := Step(s, FinishBump(r));
    forall i | 0 <= i < |u.tokens|
      ensures TokenSafe(u, u.tokens[i])
    {
      assert TokenSafe(s, s.tokens[i]) && TokenKnown(s, s.tokens[i]);
    }
    forall k | 0 <= k < |u.requests|
      ensures MintSafe(u, u.requests[k])
    {
      assert MintSafe(s, s.requests[k]);
    }
  }

  lemma SafeStep(s: Sys, e: Event)
    requires Known(s) && Safe(s) && Serial(s, e)
    ensures Safe(Step(s, e))
  {
    if e.FinishBump? {
      SafeFinishBump(s, e.request);
    }
  }

  lemma {:induction false} SafeRun(s: Sys, es: seq<Event>)
    requires Known(s) && Safe(s) && SerialRun(s, es)
    ensures Known(RunFrom(s, es)) && Safe(RunFrom(s, es))
  {
    KnownRun(s, es);
    if es != [] {
      KnownRun(s, es[..|es| - 1]);
      SafeRun(s, es[..|es| - 1]);
      SafeStep(RunFrom(s, es[..|es| - 1]), es[|es| - 1]);
    }
  }

  lemma SafeNotStale(s: Sys)
    requires Known(s) && Safe(s)
    ensures !StaleAccept(s)
  {
    forall i | 0 <= i < |s.tokens| && Accepts(s, i)
      ensures s.tokens[i].sub !in s.bumps[s.tokens[i].minted..]
    {
      assert TokenSafe(s, s.tokens[i]);
    }
  }

  /** An unsafe token is accepted again after a run of ordinary requests. */
  lemma TokenRevives(s: Sys, i: nat) returns (es: seq<Event>)
    requires Known(s) && i < |s.tokens| && !TokenSafe(s, s.tokens[i])
    ensures SerialRun(s, es) && StaleAccept(RunFrom(s, es)) && StaleOf(RunFrom(s, es), s.tokens[i].sub)
  {
    var on := SetActive(s.tokens[i].sub, true);
    RunFromOne(s, on);
    var rest := ClimbBack(Step(s, on), i);
    RunFromConcat(s, [on], rest);
    es := [on] + rest;
  }

  lemma MintRevives(s: Sys, r: nat) returns (es: seq<Event>)
    requires Known(s) && r < |s.requests| && !MintSafe(s, s.requests[r])
    ensures SerialRun(s, es) && StaleAccept(RunFrom(s, es)) && StaleOf(RunFrom(s, es), s.requests[r].sub)
  {
    var sign := FinishMint(r);
    RunFromOne(s, sign);
    KnownStep(s, sign);
    var rest := TokenRevives(Step(s, sign), |s.tokens|);
    RunFromConcat(s, [sign], rest);
    es := [sign] + rest;
  }

  lemma NeverStaleIffSafe(s: Sys)
    requires Known(s)
    ensures NeverStale(s) <==> Safe(s)
  {
    if Safe(s) {
      forall later | SerialRun(s, later)
        ensures !StaleAccept(RunFrom(s, later))
      {
        SafeRun(s, later);
        SafeNotStale(RunFrom(s, later));
      }
    } else if i :| 0 <= i < |s.tokens| && !TokenSafe(s, s.tokens[i]) {
      var es := TokenRevives(s, i);
    } else {
      var r :| 0 <= r < |s.requests| && !MintSafe(s, s.requests[r]);
      var es := MintRevives(s, r);
    }
  }

  /**
   After any run, overlapping bumps included, and while bumps do not overlap from then on: no revoked
   token is accepted again exactly if every unexpired token has at most its user's version, and less
   if it is revoked, and no pending request is about to sign more than that version.
   */
  lemma {:induction false} RevokedForeverIffSafe(es: seq<Event>)
    ensures NeverStale(RunFrom(EMPTY, es)) <==> Safe(RunFrom(EMPTY, es))
  {
    KnownRun(EMPTY, es);
    NeverStaleIffSafe(RunFrom(EMPTY, es));
  }

  /** A bump of sub that read version `read` leaves nothing of sub that could come back. */
  ghost predicate RevokesAll(s: Sys, sub: string, read: int) {
    && (forall i :: 0 <= i < |s.tokens| && s.tokens[i].sub == sub && Unexpired(s, s.tokens[i]) ==>
          s.tokens[i].version <= read)
    && (forall r :: 0 <= r < |s.requests| && s.requests[r].Mint? && s.requests[r].sub == sub ==>
          s.requests[r].version <= read + 1)
  }

  /** Nothing of the other users can come back. */
  ghost predicate OthersSafe(s: Sys, sub: string) {
    && (forall i :: 0 <= i < |s.tokens| && s.tokens[i].sub != sub ==> TokenSafe(s, s.tokens[i]))
    && (forall r :: 0 <= r < |s.requests| && s.requests[r].Mint? && s.requests[r].sub != sub ==>
          MintSafe(s, s.requests[r]))
  }

  lemma TokenAfterBump(s: Sys, r: nat, t: Token)
    requires Known(s) && r < |s.requests| && s.requests[r].Bump? && TokenKnown(s, t)
    ensures var Bump(sub, read) := s.requests[r];
            TokenSafe(Step(s, FinishBump(r)), t) <==>
            if t.sub == sub then Unexpired(s, t) ==> t.version <= read else TokenSafe(s, t)
  {
    assert RequestKnown(s, s.requests[r]);
    assert Step(s, FinishBump(r)).bumps[t.minted..] == s.bumps[t.minted..] + [s.requests[r].sub];
  }

  lemma SafeAfterBump(s: Sys, r: nat)
    requires Known(s) && r < |s.requests| && s.requests[r].Bump?
    ensures var Bump(sub, read) := s.requests[r];
            Safe(Step(s, FinishBump(r))) <==> OthersSafe(s, sub) && RevokesAll(s, sub, read)
  {
    var u := Step(s, FinishBump(r));
    assert RequestKnown(s, s.requests[r]);
    forall i | 0 <= i < |s.tokens|
      ensures TokenSafe(u, u.tokens[i]) <==>
              if s.tokens[i].sub == s.requests[r].sub
              then Unexpired(s, s.tokens[i]) ==> s.tokens[i].version <= s.requests[r].read
              else TokenSafe(s, s.tokens[i])
    {
      TokenAfterBump(s, r, s.tokens[i]);
    }
    forall k | 0 <= k < |s.requests|
      ensures MintSafe(u, u.requests[k]) <==>
              if s.requests[k].Mint? && s.requests[k].sub == s.requests[r].sub
              then s.requests[k].version <= s.requests[r].read + 1
              else MintSafe(s, s.requests[k])
    {
      assert k != r ==> u.requests[k] == s.requests[k];
    }
  }

  /**
   The commit of bump r, after any run: while bumps do not overlap from then on, no revoked token is
   accepted exactly if every unexpired token of the user has at most the version that was read, and
   every pending signature at most the one after it. (Other users must be safe already; their tokens
   are not affected.)
   */
  lemma {:induction false} BumpRevokesIff(es: seq<Event>, r: nat)
    requires r < |RunFrom(EMPTY, es).requests| && RunFrom(EMPTY, es).requests[r].Bump?
    ensures var s := RunFrom(EMPTY, es);
            var Bump(sub, read) := s.requests[r];
            NeverStale(Step(s, FinishBump(r))) <==> OthersSafe(s, sub) && RevokesAll(s, sub, read)
  {
    KnownRun(EMPTY, es);
    KnownStep(RunFrom(EMPTY, es), FinishBump(r));
    NeverStaleIffSafe(Step(RunFrom(EMPTY, es), FinishBump(r)));
    SafeAfterBump(RunFrom(EMPTY, es), r);
  }

  /**
   If bumps have not overlapped before either, the other users are safe, and the condition holds when
   no other bump of the user was committed since this one read the version.
   */
  lemma {:induction false} FirstOverlapRevokesIff(es: seq<Event>, r: nat)
    requires SerialRun(EMPTY, es)
    requires r < |RunFrom(EMPTY, es).requests| && RunFrom(EMPTY, es).requests[r].Bump?
    ensures var s := RunFrom(EMPTY, es);
            var Bump(sub, read) := s.requests[r];
            && (NeverStale(Step(s, FinishBump(r))) <==> RevokesAll(s, sub, read))
            && (Serial(s, FinishBump(r)) ==> RevokesAll(s, sub, read))
  {
    BumpRevokesIff(es, r);
    SafeRun(EMPTY, es);
    var s := RunFrom(EMPTY, es);
    assert RequestKnown(s, s.requests[r]);
    forall i | 0 <= i < |s.tokens| && s.tokens[i].sub == s.requests[r].sub
      ensures Unexpired(s, s.tokens[i]) ==> s.tokens[i].version <= s.users[s.requests[r].sub].version
    {
      assert TokenSafe(s, s.tokens[i]) && TokenKnown(s, s.tokens[i]);
    }
    forall k | 0 <= k < |s.requests| && s.requests[k].Mint? && s.requests[k].sub == s.requests[r].sub
      ensures s.requests[k].version <= s.users[s.requests[r].sub].version
    {
      assert MintSafe(s, s.requests[k]);
    }
  }

  /** For a user with a live session it holds only then. */
  lemma {:induction false} BumpRevokesIffSerial(es: seq<Event>, r: nat, i: nat)
    requires SerialRun(EMPTY, es)
    requires var s := RunFrom(EMPTY, es);
             && r < |s.requests| && s.requests[r].Bump?
             && i < |s.tokens| && s.tokens[i].sub == s.requests[r].sub && Accepts(s, i)
    ensures NeverStale(Step(RunFrom(EMPTY, es), FinishBump(r))) <==> Serial(RunFrom(EMPTY, es), FinishBump(r))
  {
    FirstOverlapRevokesIff(es, r);
    RunKeeps(es);
  }

  lemma {:induction false} OverlapGoesStale(s: Sys, r: nat, i: nat) returns (later: seq<Event>)
    requires Inv(s) && r < |s.requests| && s.requests[r].Bump?
    requires i < |s.tokens| && s.tokens[i].sub == s.requests[r].sub && Accepts(s, i)
    requires !Serial(s, FinishBump(r))
    ensures SerialRun(Step(s, FinishBump(r)), later)
    ensures StaleAccept(RunFrom(Step(s, FinishBump(r)), later))
    ensures !NeverStale(Step(s, FinishBump(r)))
  {
    var committed := Step(s, FinishBump(r));
    assert committed.bumps[s.tokens[i].minted..] == s.bumps[s.tokens[i].minted..] + [s.tokens[i].sub];
    later := ClimbBack(committed, i);
  }

  // ----- for good: whatever is in flight may commit late

  /** Event e commits a bump of this user. */
  predicate CommitsBump(s: Sys, e: Event, sub: string) {
    && e.FinishBump? && e.request < |s.requests|
    && s.requests[e.request].Bump? && s.requests[e.request].sub == sub
  }

  /**
   Bumps of this user that are begun from request n on do not overlap with others of the user. The
   earlier ones may commit at any time, and nothing is said of other users.
   */
  predicate FreshRun(sub: string, n: nat, s: Sys, es: seq<Event>) {
    es == [] ||
    var front, e := es[..|es| - 1], es[|es| - 1];
    && FreshRun(sub, n, s, front)
    && (CommitsBump(RunFrom(s, front), e, sub) && n <= e.request ==> Serial(RunFrom(s, front), e))
  }

  /** If bumps begun from now on do not overlap, no revoked token of the user is ever accepted. */
  ghost predicate ForGood(s: Sys, sub: string) {
    forall later :: FreshRun(sub, |s.requests|, s, later) ==> !StaleOf(RunFrom(s, later), sub)
  }

  ghost predicate UserSafe(s: Sys, sub: string) {
    && (forall i :: 0 <= i < |s.tokens| && s.tokens[i].sub == sub ==> TokenSafe(s, s.tokens[i]))
    && (forall r :: 0 <= r < |s.requests| && s.requests[r].Mint? && s.requests[r].sub == sub ==>
          MintSafe(s, s.requests[r]))
  }

  ghost predicate NoBumpBefore(s: Sys, sub: string, n: nat) {
    forall r :: 0 <= r < n && r < |s.requests| && s.requests[r].Bump? ==> s.requests[r].sub != sub
  }

  lemma UserSafeBump(s: Sys, r: nat, sub: string)
    requires Known(s) && UserSafe(s, sub) && (CommitsBump(s, FinishBump(r), sub) ==> Serial(s, FinishBump(r)))
    ensures UserSafe(Step(s, FinishBump(r)), sub)
  {
    var u := Step(s, FinishBump(r));
    forall i | 0 <= i < |u.tokens| && u.tokens[i].sub == sub
      ensures TokenSafe(u, u.tokens[i])
    {
      assert TokenSafe(s, s.tokens[i]) && TokenKnown(s, s.tokens[i]);
    }
    forall k | 0 <= k < |u.requests| && u.requests[k].Mint? && u.requests[k].sub == sub
      ensures MintSafe(u, u.requests[k])
    {
      assert MintSafe(s, s.requests[k]);
    }
  }

  lemma UserSafeStep(s: Sys, e: Event, sub: string)
    requires Known(s) && UserSafe(s, sub) && (CommitsBump(s, e, sub) ==> Serial(s, e))
    ensures UserSafe(Step(s, e), sub)
  {
    if e.FinishBump? {
      UserSafeBump(s, e.request, sub);
    }
  }

  lemma NoBumpStep(s: Sys, e: Event, sub: string, n: nat)
    requires NoBumpBefore(s, sub, n) && n <= |s.requests|
    ensures NoBumpBefore(Step(s, e), sub, n) && n <= |Step(s, e).requests|
  {
  }

  lemma {:induction false} UserSafeRun(s: Sys, es: seq<Event>, sub: string, n: nat)
    requires Known(s) && UserSafe(s, sub) && NoBumpBefore(s, sub, n) && n <= |s.requests|
    requires FreshRun(sub, n, s, es)
    ensures var t := RunFrom(s, es);
            Known(t) && UserSafe(t, sub) && NoBumpBefore(t, sub, n) && n <= |t.requests|
  {
    if es != [] {
      var front, e := es[..|es| - 1], es[|es| - 1];
      UserSafeRun(s, front, sub, n);
      KnownStep(RunFrom(s, front), e);
      UserSafeStep(RunFrom(s, front), e, sub);
      NoBumpStep(RunFrom(s, front), e, sub, n);
    }
  }

  lemma UserSafeNotStale(s: Sys, sub: string)
    requires Known(s) && UserSafe(s, sub)
    ensures !StaleOf(s, sub)
  {
    forall i | 0 <= i < |s.tokens| && Accepts(s, i) && s.tokens[i].sub == sub
      ensures sub !in s.bumps[s.tokens[i].minted..]
    {
      assert TokenSafe(s, s.tokens[i]);
    }
  }

  lemma {:induction false} SerialIsFresh(s: Sys, es: seq<Event>, sub: string, n: nat)
    requires SerialRun(s, es)
    ensures FreshRun(sub, n, s, es)
  {
    if es != [] {
      SerialIsFresh(s, es[..|es| - 1], sub, n);
    }
  }

  lemma {:induction false} FreshConcat(s: Sys, a: seq<Event>, b: seq<Event>, sub: string, n: nat)
    requires FreshRun(sub, n, s, a) && FreshRun(sub, n, RunFrom(s, a), b)
    ensures FreshRun(sub, n, s, a + b) && RunFrom(s, a + b) == RunFrom(RunFrom(s, a), b)
  {
    RunFromConcat(s, a, b);
    if b == [] {
      assert a + b == a;
    } else {
      var front := b[..|b| - 1];
      FreshConcat(s, a, front, sub, n);
      assert (a + b)[..|a + b| - 1] == a + front;
    }
  }

  /** Sign-outs that do not overlap take the version to v at least, and leave what is in flight alone. */
  lemma {:induction false} RaiseTo(s: Sys, sub: string, v: int) returns (es: seq<Event>)
    requires sub in s.users && s.users[sub].active
    ensures SerialRun(s, es)
    ensures var t := RunFrom(s, es);
            && sub in t.users && t.users[sub].active && t.users[sub].version >= v && s.requests <= t.requests
    decreases v - s.users[sub].version
  {
    if s.users[sub].version >= v {
      es := [];
    } else {
      var first := RaiseVersion(s, sub);
      var rest := RaiseTo(RunFrom(s, first), sub, v);
      RunFromConcat(s, first, rest);
      es := first + rest;
    }
  }

  /** Log in and sign out everywhere: the session's tokens are revoked, one version below the user's. */
  lemma LoginAndRevoke(s: Sys, sub: string) returns (es: seq<Event>, i: nat)
    requires sub in s.users && s.users[sub].active
    ensures SerialRun(s, es)
    ensures var t := RunFrom(s, es);
            && s.requests <= t.requests && sub in t.users && t.users[sub].active
            && i < |t.tokens| && t.tokens[i].sub == sub && Unexpired(t, t.tokens[i])
            && t.tokens[i].version == s.users[sub].version && t.tokens[i].minted <= |t.bumps|
  {
    var r := |s.requests|;
    i := |s.tokens|;
    var s1 := Step(s, BeginLogin(sub, true));
    var s2 := Step(s1, FinishMint(r));
    RunFromOne(s, BeginLogin(sub, true));
    RunFromOne(s1, FinishMint(r));
    RunFromConcat(s, [BeginLogin(sub, true)], [FinishMint(r)]);
    var rest := RaiseVersion(s2, sub);
    RunFromConcat(s, [BeginLogin(sub, true)] + [FinishMint(r)], rest);
    assert s.requests <= s2.requests;
    es := [BeginLogin(sub, true)] + [FinishMint(r)] + rest;
  }

  /** Committing a bump that read less than the version of a token revives the token. */
  lemma LateCommitRevives(s: Sys, r: nat, i: nat) returns (es: seq<Event>)
    requires r < |s.requests| && s.requests[r].Bump? && s.requests[r].sub in s.users
    requires s.users[s.requests[r].sub].active
    requires i < |s.tokens| && s.tokens[i].sub == s.requests[r].sub && Unexpired(s, s.tokens[i])
    requires s.requests[r].read < s.tokens[i].version && s.tokens[i].minted <= |s.bumps|
    ensures FreshRun(s.requests[r].sub, r + 1, s, es) && StaleOf(RunFrom(s, es), s.requests[r].sub)
  {
    var sub := s.requests[r].sub;
    var late := FinishBump(r);
    var t := Step(s, late);
    assert t.bumps[s.tokens[i].minted..] == s.bumps[s.tokens[i].minted..] + [sub];
    var rest := ClimbBack(t, i);
    RunFromOne(s, late);
    assert [late][..0] == [];
    assert FreshRun(sub, r + 1, s, [late]);
    SerialIsFresh(t, rest, sub, r + 1);
    FreshConcat(s, [late], rest, sub, r + 1);
    es := [late] + rest;
  }

  lemma {:induction false} FreshFewer(s: Sys, es: seq<Event>, sub: string, m: nat, n: nat)
    requires FreshRun(sub, m, s, es) && m <= n
    ensures FreshRun(sub, n, s, es)
  {
    if es != [] {
      FreshFewer(s, es[..|es| - 1], sub, m, n);
    }
  }

  /** A bump in flight can always revive a session that is opened and signed out before it commits. */
  lemma InFlightRevives(s: Sys, r: nat) returns (es: seq<Event>)
    requires Known(s) && r < |s.requests| && s.requests[r].Bump?
    ensures FreshRun(s.requests[r].sub, |s.requests|, s, es) && StaleOf(RunFrom(s, es), s.requests[r].sub)
  {
    var sub, n := s.requests[r].sub, |s.requests|;
    assert RequestKnown(s, s.requests[r]);
    var on := SetActive(sub, true);
    RunFromOne(s, on);
    var first := RaiseTo(Step(s, on), sub, s.requests[r].read + 1);
    var s1 := RunFrom(Step(s, on), first);
    var second, i := LoginAndRevoke(s1, sub);
    var s2 := RunFrom(s1, second);
    var third := LateCommitRevives(s2, r, i);
    RunFromConcat(s, [on], first);
    RunFromConcat(s, [on] + first, second);
    es := [on] + first + second;
    SerialIsFresh(s, es, sub, n);
    FreshFewer(s2, third, sub, r + 1, n);
    FreshConcat(s, es, third, sub, n);
    es := es + third;
  }

  lemma ForGoodIffSafe(s: Sys, sub: string)
    requires Known(s)
    ensures ForGood(s, sub) <==> UserSafe(s, sub) && NoBumpBefore(s, sub, |s.requests|)
  {
    var n := |s.requests|;
    if !NoBumpBefore(s, sub, n) {
      var r :| 0 <= r < n && s.requests[r].Bump? && s.requests[r].sub == sub;
      var es := InFlightRevives(s, r);
    } else if UserSafe(s, sub) {
      forall later | FreshRun(sub, n, s, later)
        ensures !StaleOf(RunFrom(s, later), sub)
      {
        UserSafeRun(s, later, sub, n);
        UserSafeNotStale(RunFrom(s, later), sub);
      }
    } else if i :| 0 <= i < |s.tokens| && s.tokens[i].sub == sub && !TokenSafe(s, s.tokens[i]) {
      var es := TokenRevives(s, i);
      SerialIsFresh(s, es, sub, n);
    } else {
      var r :| 0 <= r < n && s.requests[r].Mint? && s.requests[r].sub == sub && !MintSafe(s, s.requests[r]);
      var es := MintRevives(s, r);
      SerialIsFresh(s, es, sub, n);
    }
  }

  /**
   After any run, and whatever other users do: if bumps of the user begun from now on do not overlap,
   none of the user's revoked tokens is ever accepted, exactly if the user's tokens and pending
   signatures are safe and no bump of the user is in flight.
   */
  lemma {:induction false} RevokedForGoodIff(es: seq<Event>, sub: string)
    ensures var s := RunFrom(EMPTY, es);
            ForGood(s, sub) <==> UserSafe(s, sub) && NoBumpBefore(s, sub, |s.requests|)
  {
    KnownRun(EMPTY, es);
    ForGoodIffSafe(RunFrom(EMPTY, es), sub);
  }

  /** No bump of the user but r is in flight. */
  ghost predicate OnlyBump(s: Sys, sub: string, r: nat) {
    forall k :: 0 <= k < |s.requests| && k != r && s.requests[k].Bump? ==> s.requests[k].sub != sub
  }

  /**
   The commit of bump r, after any run, revokes the user's sessions for good exactly if every
   unexpired token of the user has at most the version that was read, every pending signature at most
   the one after it, and no other bump of the user is in flight.
   */
  lemma {:induction false} BumpRevokesForGoodIff(es: seq<Event>, r: nat)
    requires r < |RunFrom(EMPTY, es).requests| && RunFrom(EMPTY, es).requests[r].Bump?
    ensures var s := RunFrom(EMPTY, es);
            var Bump(sub, read) := s.requests[r];
            ForGood(Step(s, FinishBump(r)), sub) <==> RevokesAll(s, sub, read) && OnlyBump(s, sub, r)
  {
    var s := RunFrom(EMPTY, es);
    var u := Step(s, FinishBump(r));
    var Bump(sub, read) := s.requests[r];
    KnownRun(EMPTY, es);
    KnownStep(s, FinishBump(r));
    ForGoodIffSafe(u, sub);
    UserSafeAfterBump(s, r);
    assert RequestKnown(s, s.requests[r]);
    assert forall k :: 0 <= k < |s.requests| && k != r ==> u.requests[k] == s.requests[k];
  }

  lemma UserSafeAfterBump(s: Sys, r: nat)
    requires Known(s) && r < |s.requests| && s.requests[r].Bump?
    ensures var Bump(sub, read) := s.requests[r];
            UserSafe(Step(s, FinishBump(r)), sub) <==> RevokesAll(s, sub, read)
  {
    var u := Step(s, FinishBump(r));
    var Bump(sub, read) := s.requests[r];
    assert RequestKnown(s, s.requests[r]);
    forall i | 0 <= i < |s.tokens| && s.tokens[i].sub == sub
      ensures TokenSafe(u, u.tokens[i]) <==> (Unexpired(s, s.tokens[i]) ==> s.tokens[i].version <= read)
    {
      TokenAfterBump(s, r, s.tokens[i]);
    }
    forall k | 0 <= k < |s.requests| && s.requests[k].Mint? && s.requests[k].sub == sub
      ensures u.requests[k] == s.requests[k]
      ensures MintSafe(u, u.requests[k]) <==> s.requests[k].version <= read + 1
    {
    }
    if UserSafe(u, sub) {
      assert forall k :: 0 <= k < |s.requests| && s.requests[k].Mint? && s.requests[k].sub == sub ==>
          MintSafe(u, u.requests[k]);
    }
  }

  /**
   The proviso cannot be dropped: from any state, for any account, there is a run of overlapping
   sign-outs that ends with a revoked token accepted.
   */
  lemma OverlapAlwaysRevives(s: Sys, sub: string) returns (es: seq<Event>)
    requires Known(s) && sub in s.users
    ensures StaleOf(RunFrom(s, es), sub)
  {
    var on := SetActive(sub, true);
    RunFromOne(s, on);
    KnownRun(s, [on]);
    var first := BeginSignOut(RunFrom(s, [on]), sub);
    var t := RunFrom(RunFrom(s, [on]), first);
    KnownRun(RunFrom(s, [on]), first);
    var rest := InFlightRevives(t, |t.requests| - 1);
    RunFromConcat(s, [on], first);
    RunFromConcat(s, [on] + first, rest);
    es := [on] + first + rest;
  }

  lemma BeginSignOut(s: Sys, sub: string) returns (es: seq<Event>)
    requires sub in s.users && s.users[sub].active
    ensures var t := RunFrom(s, es);
            |t.requests| > 0 && t.requests[|t.requests| - 1] == Bump(sub, s.users[sub].version)
  {
    var r, i := |s.requests|, |s.tokens|;
    var a, b, c := BeginLogin(sub, true), FinishMint(r), BeginBump(i);
    var s1 := Step(s, a);
    var s2 := Step(s1, b);
    assert Accepts(s2, i);
    RunFromOne(s, a);
    RunFromOne(s1, b);
    RunFromConcat(s, [a], [b]);
    RunFromOne(s2, c);
    RunFromConcat(s, [a] + [b], [c]);
    es := [a] + [b] + [c];
  }

  // ----- the endpoints, each run without interruption

  datatype AuthError = InvalidToken | NoAccount | SessionRevoked | AccountDisabled | BadCredentials

  /** An access token for an hour and a refresh token for seven days, of the same user and version. */
  function Pair(sub: string, version: int, now: real, parent: Option<nat>, bumps: nat): (r: seq<Token>)
    ensures |r| == 2 && r[0].expires == now + 3600.0 && r[1].expires == now + 7.0 * 24.0 * 3600.0
    ensures forall t :: t in r ==> t.sub == sub && t.version == version && t.parent == parent
    ensures forall t :: t in r ==> t.seen == bumps && t.minted == bumps
  {
    [Token(sub, version, now + ACCESS_SECS, parent, bumps, bumps),
     Token(sub, version, now + REFRESH_SECS, parent, bumps, bumps)]
  }

  class SessionService {
    var users: map<string, User>
    var tokens: seq<Token>
    var requests: seq<Request>
    var bumps: seq<string>
    var now: real

    function State(): Sys
      reads this
    {
      Sys(users, tokens, requests, bumps, now)
    }

    constructor ()
      ensures State() == EMPTY
    {
      users, tokens, requests, bumps, now := map[], [], [], [], 0.0;
    }

    /** `get_principal` with a signed token: the subject, or the reason for the 401. */
    method GetPrincipal(i: nat) returns (r: Result<string, AuthError>)
      requires i < |tokens|
      ensures r.Ok? <==> Accepts(State(), i)
      ensures r.Ok? ==> r.value == tokens[i].sub
      ensures r == Err(InvalidToken) <==> tokens[i].expires < now
      ensures r == Err(NoAccount) <==> now <= tokens[i].expires && tokens[i].sub !in users
      ensures r == Err(SessionRevoked) <==>
              && now <= tokens[i].expires && tokens[i].sub in users
              && users[tokens[i].sub].version != tokens[i].version
      ensures r == Err(AccountDisabled) <==>
              && now <= tokens[i].expires && tokens[i].sub in users
              && users[tokens[i].sub].version == tokens[i].version && !users[tokens[i].sub].active
    {
      var t := tokens[i];
      if t.expires < now {
        return Err(InvalidToken);
      }
      if t.sub !in users {
        return Err(NoAccount);
      }
      if users[t.sub].version != t.version {
        return Err(SessionRevoked);
      }
      if !users[t.sub].active {
        return Err(AccountDisabled);
      }
      r := Ok(t.sub);
    }

    method SignPair(sub: string, version: int, parent: Option<nat>)
      modifies this
      ensures State() == Step(old(State()).(requests := old(requests) + [Mint(sub, version, parent, |old(bumps)|)]),
                              FinishMint(|old(requests)|))
      ensures tokens == old(tokens) + Pair(sub, version, now, parent, |bumps|)
      ensures users == old(users) && bumps == old(bumps) && now == old(now)
    {
      tokens := tokens + [Token(sub, version, now + ACCESS_SECS, parent, |bumps|, |bumps|),
                          Token(sub, version, now + REFRESH_SECS, parent, |bumps|, |bumps|)];
      requests := requests + [Closed];
      assert requests == (old(requests) + [Mint(sub, version, parent, |bumps|)])[|old(requests)| := Closed];
    }

    method Login(sub: string, verified: bool) returns (r: Result<(nat, nat), AuthError>)
      modifies this
      ensures r.Ok? <==> verified && sub in old(users) && old(users)[sub].active
      ensures r.Ok? ==> State() == Step(Step(old(State()), BeginLogin(sub, verified)), FinishMint(|old(requests)|))
      ensures r.Ok? ==> tokens == old(tokens) + Pair(sub, old(users)[sub].version, now, None, |bumps|)
      ensures users == old(users) && bumps == old(bumps) && now == old(now)
      ensures r.Err? ==> State() == old(State())
      ensures r.Ok? ==> r.value == (|old(tokens)|, |old(tokens)| + 1) && |tokens| == |old(tokens)| + 2
    {
      if !verified || sub !in users || !users[sub].active {
        return Err(BadCredentials);
      }
      SignPair(sub, users[sub].version, None);
      r := Ok((|tokens| - 2, |tokens| - 1));
    }

    method Refresh(i: nat) returns (r: Result<(nat, nat), AuthError>)
      requires i < |tokens|
      modifies this
      ensures r.Ok? <==> Accepts(old(State()), i)
      ensures r.Ok? ==> State() == Step(Step(old(State()), BeginRefresh(i)), FinishMint(|old(requests)|))
      ensures r.Ok? ==>
                var sub := old(tokens)[i].sub;
                sub in old(users) && tokens == old(tokens) + Pair(sub, old(users)[sub].version, now, Some(i), |bumps|)
      ensures users == old(users) && bumps == old(bumps) && now == old(now)
      ensures r.Err? ==> State() == old(State())
      ensures r.Ok? ==> r.value == (|old(tokens)|, |old(tokens)| + 1) && |tokens| == |old(tokens)| + 2
    {
      var t := tokens[i];
      if t.expires < now {
        return Err(InvalidToken);
      }
      if t.sub !in users || !users[t.sub].active {
        return Err(NoAccount);
      }
      if t.version != users[t.sub].version {
        return Err(SessionRevoked);
      }
      SignPair(t.sub, users[t.sub].version, Some(i));
      r := Ok((|tokens| - 2, |tokens| - 1));
    }

    /** The common effect of change-password, once the password is right, and logout-all. */
    method BumpVersion(i: nat) returns (r: Result<(), AuthError>)
      requires i < |tokens|
      modifies this
      ensures r.Ok? <==> Accepts(old(State()), i)
      ensures r.Ok? ==> State() == Step(Step(old(State()), BeginBump(i)), FinishBump(|old(requests)|))
      ensures r.Ok? ==>
                var sub := tokens[i].sub;
                && sub in old(users) && bumps == old(bumps) + [sub]
                && users == old(users)[sub := old(users)[sub].(version := old(users)[sub].version + 1)]
      ensures r.Err? ==> State() == old(State())
      ensures r.Ok? ==> !Accepts(State(), i)
    {
      var principal := GetPrincipal(i);
      if principal.Err? {
        return Err(principal.error);
      }
      var sub := principal.value;
      ghost var begun := requests + [Bump(sub, users[sub].version)];
      users := users[sub := users[sub].(version := users[sub].version + 1)];
      bumps := bumps + [sub];
      requests := requests + [Closed];
      assert requests == begun[|old(requests)| := Closed];
      r := Ok(());
    }
  }
}
