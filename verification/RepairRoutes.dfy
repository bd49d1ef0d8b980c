/** The repair-route protocol: a findings route is claimed, then consumed in the
    transaction that inserts the implementation attempt, or released. Tables are
    maps and every transaction is one step; any number of processes interleave
    and may stop between steps. */
module RepairRoutes {
  import opened Prelude

  type RouteId = nat
  type AttemptId = nat
  type Token = nat
  type ProcId = nat

  /** The findings route a repair names as its parent. */
  datatype Parent = Parent(route: RouteId, sha: nat, findings: seq<nat>)

  /** One call of `begin_implementation`, and the attempt row it inserts. */
  datatype Request = Request(attempt: AttemptId, task: nat, worker: nat, provider: nat, turn: nat, plan: nat,
      parent: Option<Parent>)

  datatype Claim = Claim(attempt: AttemptId, provider: nat, turn: nat, token: Token)

  /** `order` ranks routes by creation time and row number of their review. */
  datatype Route = Route(task: nat, sha: nat, worker: nat, findings: seq<nat>, order: nat,
      consumedBy: Option<AttemptId>, claim: Option<Claim>)

  /** `issued` holds every claim token drawn so far; a new one is always fresh. */
  datatype Tables = Tables(routes: map<RouteId, Route>, attempts: map<AttemptId, Request>, issued: set<Token>)

  // --------------------------------------------------------------- transactions

  predicate Outstanding(t: Tables, task: nat, r: RouteId) {
    r in t.routes && t.routes[r].task == task && t.routes[r].consumedBy.None?
  }

  ghost predicate NoneOutstanding(t: Tables, task: nat) {
    forall r :: !Outstanding(t, task, r)
  }

  /** The newest route of the task that no attempt has consumed. */
  ghost predicate IsLatest(t: Tables, task: nat, r: RouteId) {
    Outstanding(t, task, r) && forall q :: Outstanding(t, task, q) && q != r ==> t.routes[q].order < t.routes[r].order
  }

  /** The latest outstanding route is the parent that the request names. */
  ghost predicate Matches(t: Tables, req: Request) {
    && req.parent.Some? && IsLatest(t, req.task, req.parent.value.route)
    && var route := t.routes[req.parent.value.route];
    route.sha == req.parent.value.sha && route.worker == req.worker && route.findings == req.parent.value.findings
  }

  ghost predicate Admissible(t: Tables, req: Request) {
    if req.parent.None? then NoneOutstanding(t, req.task) else Matches(t, req)
  }

  function ClaimOf(req: Request, token: Token): Claim {
    Claim(req.attempt, req.provider, req.turn, token)
  }

  /** `_claim_repair_parent`; `None` is a rolled-back transaction. */
  ghost function Claimed(t: Tables, req: Request, token: Token): Option<Tables> {
    if !Admissible(t, req) then None
    else if req.parent.None? then Some(t)
    else
      var r := req.parent.value.route;
      if t.routes[r].claim.Some? then None
      else Some(t.(routes := t.routes[r := t.routes[r].(claim := Some(ClaimOf(req, token)))],
          issued := t.issued + {token}))
  }

  /** The dispatch transaction: insert the attempt and consume its parent. */
  ghost function Dispatched(t: Tables, req: Request, token: Option<Token>): Option<Tables> {
    if req.attempt in t.attempts then if t.attempts[req.attempt] == req then Some(t) else None
    else if exists a :: a in t.attempts && t.attempts[a].provider == req.provider then None
    else if !Admissible(t, req) then None
    else if req.parent.None? then Some(t.(attempts := t.attempts[req.attempt := req]))
    else
      var r := req.parent.value.route;
      if token.None? || t.routes[r].claim != Some(ClaimOf(req, token.value)) then None
      else Some(t.(routes := t.routes[r := t.routes[r].(consumedBy := Some(req.attempt), claim := None)],
                   attempts := t.attempts[req.attempt := req]))
  }

  /** `_release_repair_claim`. */
  function Released(t: Tables, req: Request, token: Token): Tables
    requires req.parent.Some?
  {
    var r := req.parent.value.route;
    if Outstanding(t, req.task, r) && t.routes[r].claim.Some? && t.routes[r].claim.value.token == token
    then t.(routes := t.routes[r := t.routes[r].(claim := None)]) else t
  }

  // ------------------------------------------------------------------ processes

  /** Where one call of `begin_implementation` stands. */
  datatype Proc =
    | Ready(req: Request)
    | Holding(req: Request, token: Option<Token>)
    | Prepared(req: Request, token: Option<Token>)
    | Releasing(req: Request, token: Option<Token>)
    | Ended

  datatype System = System(tables: Tables, procs: map<ProcId, Proc>)

  /** `ok` tells whether the lease, task-state and provider checks of the step pass. */
  datatype Event =
    | Begins(p: ProcId, req: Request)
    | Claims(p: ProcId, token: Token, ok: bool)
    | Prepares(p: ProcId, ok: bool)
    | Dispatches(p: ProcId, ok: bool)
    | Releases(p: ProcId, ok: bool)
    | Crashes(p: ProcId)
    | RouteArrives(id: RouteId, route: Route)

  /** A failed step releases the claim if there is one. */
  function Fail(req: Request, token: Option<Token>): Proc {
    if token.Some? then Releasing(req, token) else Ended
  }

  ghost function Next(s: System, e: Event): System {
    match e
    case Begins(p, req) =>
      if p in s.procs then s
      else s.(procs := s.procs[p := if req.attempt !in s.tables.attempts
          && Admissible(s.tables, req) then Ready(req) else Ended])
    case Claims(p, token, ok) =>
      if p !in s.procs || !s.procs[p].Ready? || token in s.tables.issued then s
      else
        var req := s.procs[p].req;
        var t := Claimed(s.tables, req, token);
        if !ok || t.None? then s.(procs := s.procs[p := Ended])
        else System(t.value, s.procs[p := Holding(req, if req.parent.Some? then Some(token) else None)])
    case Prepares(p, ok) =>
      if p !in s.procs || !s.procs[p].Holding? then s
      else s.(procs := s.procs[p := if ok then Prepared(s.procs[p].req, s.procs[p].token)
          else Fail(s.procs[p].req, s.procs[p].token)])
    case Dispatches(p, ok) =>
      if p !in s.procs || !s.procs[p].Prepared? then s
      else
        var t := Dispatched(s.tables, s.procs[p].req, s.procs[p].token);
        if !ok || t.None? then s.(procs := s.procs[p := Fail(s.procs[p].req, s.procs[p].token)])
        else System(t.value, s.procs[p := Ended])
    case Releases(p, ok) =>
      if p !in s.procs || !s.procs[p].Releasing? || s.procs[p].token.None? || s.procs[p].req.parent.None? then s
      else System(if ok then Released(s.tables, s.procs[p].req, s.procs[p].token.value) else s.tables,
          s.procs[p := Ended])
    case Crashes(p) => if p !in s.procs then s else s.(procs := s.procs[p := Ended])
    case RouteArrives(id, route) =>
      if id in s.tables.routes || route.consumedBy.Some? || route.claim.Some? then s
      else s.(tables := s.tables.(routes := s.tables.routes[id := route]))
  }

  const Start := System(Tables(map[], map[], {}), map[])

  ghost function Run(s: System, events: seq<Event>): System {
    if events == [] then s else Next(Run(s, events[..|events| - 1]), events[|events| - 1])
  }

  // ------------------------------------------------------------------ invariant

  /** An attempt row names a route exactly when the route records that attempt. */
  ghost predicate Linked(t: Tables) {
    && (forall a :: a in t.attempts ==> t.attempts[a].attempt == a)
    && (forall a :: a in t.attempts && t.attempts[a].parent.Some? ==>
          t.attempts[a].parent.value.route in t.routes
              && t.routes[t.attempts[a].parent.value.route].consumedBy == Some(a))
    && (forall r :: r in t.routes && t.routes[r].consumedBy.Some? ==>
          t.routes[r].consumedBy.value in t.attempts && t.attempts[t.routes[r].consumedBy.value].parent.Some?
          && t.attempts[t.routes[r].consumedBy.value].parent.value.route == r)
  }

  /** A claim stands on an unconsumed route, with a token of its own. */
  ghost predicate ClaimsSound(t: Tables) {
    && (forall r :: r in t.routes && t.routes[r].claim.Some? ==>
        t.routes[r].consumedBy.None? && t.routes[r].claim.value.token in t.issued)
    && (forall r, q ::
        r in t.routes && q in t.routes && r != q && t.routes[r].claim.Some? && t.routes[q].claim.Some? ==>
          t.routes[r].claim.value.token != t.routes[q].claim.value.token)
  }

  ghost function Held(pr: Proc): Option<Token> {
    if pr.Holding? || pr.Prepared? || pr.Releasing? then pr.token else None
  }

  /** While a process holds a token, its claim stands on the route it named. */
  ghost predicate Owns(t: Tables, pr: Proc) {
    Held(pr).Some? ==>
      && pr.req.parent.Some? && Outstanding(t, pr.req.task, pr.req.parent.value.route)
      && t.routes[pr.req.parent.value.route].claim == Some(ClaimOf(pr.req, Held(pr).value))
  }

  ghost predicate Apart(a: Proc, b: Proc) {
    Held(a).Some? && Held(b).Some? ==> Held(a) != Held(b)
  }

  ghost predicate Inv(s: System) {
    && Linked(s.tables) && ClaimsSound(s.tables)
    && (forall p :: p in s.procs ==> Owns(s.tables, s.procs[p]))
    && (forall p, q :: p in s.procs && q in s.procs && p != q ==> Apart(s.procs[p], s.procs[q]))
  }

  /** Only route `r` may differ. */
  ghost predicate OnlyRoute(t: Tables, t': Tables, r: RouteId) {
    forall q :: q in t.routes && q != r ==> q in t'.routes && t'.routes[q] == t.routes[q]
  }

  /** Changing the route that one process owns leaves every other process what it owns. */
  lemma OthersStillOwn(t: Tables, t': Tables, mine: Proc, other: Proc)
    requires Owns(t, mine) && Held(mine).Some? && Owns(t, other) && Apart(mine, other)
    requires OnlyRoute(t, t', mine.req.parent.value.route)
    ensures Owns(t', other)
  {
  }

  lemma ClaimedTables(t: Tables, req: Request, token: Token, t': Tables)
    requires Linked(t) && ClaimsSound(t) && token !in t.issued && Claimed(t, req, token) == Some(t')
    ensures Linked(t') && ClaimsSound(t')
    ensures req.parent.Some? ==> Owns(t', Holding(req, Some(token)))
    ensures req.parent.None? ==> t' == t
  {
  }

  /** A new claim goes to a route that nobody owns. */
  lemma ClaimLeavesOthers(t: Tables, req: Request, token: Token, t': Tables, other: Proc)
    requires token !in t.issued && Claimed(t, req, token) == Some(t')
    requires ClaimsSound(t) && Owns(t, other)
    ensures Owns(t', other) && Apart(Holding(req, Some(token)), other)
  {
    if Held(other).Some? {
      assert t.routes[other.req.parent.value.route].claim.value.token in t.issued;
    }
  }

  lemma DispatchedLinked(t: Tables, req: Request, token: Option<Token>, t': Tables)
    requires Linked(t) && Dispatched(t, req, token) == Some(t')
    ensures Linked(t')
  {
  }

  lemma DispatchedClaims(t: Tables, req: Request, token: Option<Token>, t': Tables)
    requires ClaimsSound(t) && Dispatched(t, req, token) == Some(t')
    ensures ClaimsSound(t')
    ensures if token.Some? && req.parent.Some? then OnlyRoute(t, t', req.parent.value.route) else t'.routes == t.routes
  {
  }

  lemma ReleasedTables(t: Tables, req: Request, token: Token)
    requires Linked(t) && ClaimsSound(t) && req.parent.Some?
    ensures Linked(Released(t, req, token)) && ClaimsSound(Released(t, req, token))
    ensures OnlyRoute(t, Released(t, req, token), req.parent.value.route)
  {
  }

  /** Replacing one process keeps the invariant when the tables and the others fit. */
  lemma Assembled(s: System, t': Tables, p: ProcId, pr: Proc)
    requires Inv(s) && Linked(t') && ClaimsSound(t') && Owns(t', pr)
    requires forall q :: q in s.procs && q != p ==> Owns(t', s.procs[q]) && Apart(pr, s.procs[q])
    ensures Inv(System(t', s.procs[p := pr]))
  {
    var s' := System(t', s.procs[p := pr]);
    forall q | q in s'.procs ensures Owns(t', s'.procs[q]) {
      if q != p {
        assert q in s.procs;
      }
    }
    forall q, r | q in s'.procs && r in s'.procs && q != r ensures Apart(s'.procs[q], s'.procs[r]) {
      if q == p {
        assert Apart(pr, s.procs[r]);
      } else if r == p {
        assert Apart(pr, s.procs[q]);
      } else {
        assert Apart(s.procs[q], s.procs[r]);
      }
    }
  }

  /** Every step of every process, in any interleaving, keeps the invariant. */
  lemma NextKeeps(s: System, e: Event)
    requires Inv(s)
    ensures Inv(Next(s, e))
  {
    match e
    case Begins(p, req) =>
      if p !in s.procs {
        Assembled(s, s.tables, p, Next(s, e).procs[p]);
      }
    case Claims(p, token, ok) => ClaimKeeps(s, p, token, ok);
    case Prepares(p, ok) => SameHolderKeeps(s, e, p);
    case Dispatches(p, ok) => DispatchKeeps(s, p, ok);
    case Releases(p, ok) => ReleaseKeeps(s, p, ok);
    case Crashes(p) => SameHolderKeeps(s, e, p);
    case RouteArrives(id, route) => ArrivalKeeps(s, id, route);
  }

  lemma SameHolderKeeps(s: System, e: Event, p: ProcId)
    requires Inv(s) && (e == Crashes(p) || (e.Prepares? && e.p == p))
    ensures Inv(Next(s, e))
  {
    if p in s.procs && (e.Crashes? || s.procs[p].Holding?) {
      var pr := Next(s, e).procs[p];
      forall q | q in s.procs && q != p ensures Apart(pr, s.procs[q]) {
        assert Apart(s.procs[p], s.procs[q]);
      }
      Assembled(s, s.tables, p, pr);
    }
  }

  lemma ArrivalKeeps(s: System, id: RouteId, route: Route)
    requires Inv(s)
    ensures Inv(Next(s, RouteArrives(id, route)))
  {
    var s' := Next(s, RouteArrives(id, route));
    forall p | p in s'.procs ensures Owns(s'.tables, s'.procs[p]) {
      assert Owns(s.tables, s.procs[p]);
    }
  }

  lemma ClaimKeeps(s: System, p: ProcId, token: Token, ok: bool)
    requires Inv(s)
    ensures Inv(Next(s, Claims(p, token, ok)))
  {
    var s' := Next(s, Claims(p, token, ok));
    if p in s.procs && s.procs[p].Ready? && token !in s.tables.issued {
      var req := s.procs[p].req;
      if ok && Claimed(s.tables, req, token).Some? {
        var t := Claimed(s.tables, req, token).value;
        ClaimedTables(s.tables, req, token, t);
        forall q | q in s.procs && q != p ensures Owns(t, s.procs[q]) && Apart(s'.procs[p], s.procs[q]) {
          ClaimLeavesOthers(s.tables, req, token, t, s.procs[q]);
        }
        Assembled(s, t, p, s'.procs[p]);
      } else {
        Assembled(s, s.tables, p, Ended);
      }
    }
  }

  lemma DispatchKeeps(s: System, p: ProcId, ok: bool)
    requires Inv(s)
    ensures Inv(Next(s, Dispatches(p, ok)))
  {
    if p in s.procs && s.procs[p].Prepared? {
      var mine := s.procs[p];
      var t := Dispatched(s.tables, mine.req, mine.token);
      if ok && t.Some? {
        DispatchedLinked(s.tables, mine.req, mine.token, t.value);
        DispatchedClaims(s.tables, mine.req, mine.token, t.value);
        forall q | q in s.procs && q != p ensures Owns(t.value, s.procs[q]) && Apart(Ended, s.procs[q]) {
          assert Apart(mine, s.procs[q]);
          if mine.token.Some? {
            OthersStillOwn(s.tables, t.value, mine, s.procs[q]);
          }
        }
        Assembled(s, t.value, p, Ended);
      } else {
        var pr := Fail(mine.req, mine.token);
        forall q | q in s.procs && q != p ensures Apart(pr, s.procs[q]) {
          assert Apart(mine, s.procs[q]);
        }
        Assembled(s, s.tables, p, pr);
      }
    }
  }

  lemma ReleaseKeeps(s: System, p: ProcId, ok: bool)
    requires Inv(s)
    ensures Inv(Next(s, Releases(p, ok)))
  {
    if p in s.procs && s.procs[p].Releasing? && s.procs[p].token.Some? && s.procs[p].req.parent.Some? {
      var mine := s.procs[p];
      var t := if ok then Released(s.tables, mine.req, mine.token.value) else s.tables;
      ReleasedTables(s.tables, mine.req, mine.token.value);
      forall q | q in s.procs && q != p ensures Owns(t, s.procs[q]) && Apart(Ended, s.procs[q]) {
        assert Apart(mine, s.procs[q]);
        OthersStillOwn(s.tables, t, mine, s.procs[q]);
      }
      Assembled(s, t, p, Ended);
    }
  }

  // ------------------------------------------------------------- over every run

  lemma {:induction false} RunKeeps(s: System, events: seq<Event>)
    requires Inv(s)
    ensures Inv(Run(s, events))
  {
    if events != [] {
      RunKeeps(s, events[..|events| - 1]);
      NextKeeps(Run(s, events[..|events| - 1]), events[|events| - 1]);
    }
  }

  /** In every state of every run: an attempt names a route exactly when the
      route records it as its consumer, so no route is consumed by two attempts. */
  lemma RoutesAndAttemptsAgree(events: seq<Event>)
    ensures var t := Run(Start, events).tables;
      && (forall r, a :: (a in t.attempts && t.attempts[a].parent.Some? && t.attempts[a].parent.value.route == r)
                         <==> (r in t.routes && t.routes[r].consumedBy == Some(a)))
      && (forall a, b :: (a in t.attempts && b in t.attempts && t.attempts[a].parent.Some? && t.attempts[b].parent.Some?
                          && t.attempts[a].parent.value.route == t.attempts[b].parent.value.route) ==> a == b)
  {
    RunKeeps(Start, events);
  }

  /** What is committed stays: attempt rows and consumption are never undone. */
  ghost predicate Preserves(t: Tables, t': Tables) {
    && (forall a :: a in t.attempts ==> a in t'.attempts && t'.attempts[a] == t.attempts[a])
    && (forall r :: r in t.routes ==> r in t'.routes && (t.routes[r].consumedBy.Some? ==> t'.routes[r] == t.routes[r]))
  }

  lemma DispatchPreserves(t: Tables, req: Request, token: Option<Token>, t': Tables)
    requires ClaimsSound(t) && Dispatched(t, req, token) == Some(t')
    ensures Preserves(t, t')
  {
  }

  lemma ClaimPreserves(t: Tables, req: Request, token: Token, t': Tables)
    requires Claimed(t, req, token) == Some(t')
    ensures Preserves(t, t')
  {
  }

  lemma NextPreserves(s: System, e: Event)
    requires Inv(s)
    ensures Preserves(s.tables, Next(s, e).tables)
  {
    match e
    case Claims(p, token, ok) =>
      if p in s.procs && s.procs[p].Ready? && Claimed(s.tables, s.procs[p].req, token).Some? {
        ClaimPreserves(s.tables, s.procs[p].req, token, Claimed(s.tables, s.procs[p].req, token).value);
      }
    case Dispatches(p, ok) =>
      if p in s.procs && s.procs[p].Prepared? {
        var t := Dispatched(s.tables, s.procs[p].req, s.procs[p].token);
        if t.Some? {
          DispatchPreserves(s.tables, s.procs[p].req, s.procs[p].token, t.value);
        }
      }
    case _ =>
  }

  lemma {:induction false} RunPreserves(s: System, events: seq<Event>)
    requires Inv(s)
    ensures Preserves(s.tables, Run(s, events).tables)
  {
    if events != [] {
      var before := Run(s, events[..|events| - 1]);
      RunKeeps(s, events[..|events| - 1]);
      RunPreserves(s, events[..|events| - 1]);
      NextPreserves(before, events[|events| - 1]);
    }
  }

  /** A route consumed at any point of any run keeps that one consumer for good. */
  lemma ConsumedOnceForAll(before: seq<Event>, after: seq<Event>, r: RouteId)
    requires var t := Run(Start, before).tables; r in t.routes && t.routes[r].consumedBy.Some?
    ensures var t, t' := Run(Start, before).tables, Run(Run(Start, before), after).tables;
      r in t'.routes && t'.routes[r].consumedBy == t.routes[r].consumedBy
  {
    RunKeeps(Start, before);
    RunPreserves(Run(Start, before), after);
  }

  predicate ActsAs(e: Event, q: ProcId) {
    !e.RouteArrives? && e.p == q
  }

  /** Whatever any other process does next, releasing included, a process that
      holds a claim keeps it. */
  lemma ClaimsOfOthersStay(s: System, e: Event, q: ProcId)
    requires Inv(s) && q in s.procs && Held(s.procs[q]).Some? && !ActsAs(e, q)
    ensures var s' := Next(s, e);
      && q in s'.procs && s'.procs[q] == s.procs[q]
      && var r := s.procs[q].req.parent.value.route;
      r in s'.tables.routes && s'.tables.routes[r].claim == Some(ClaimOf(s.procs[q].req, Held(s.procs[q]).value))
  {
    NextKeeps(s, e);
    assert Owns(Next(s, e).tables, s.procs[q]);
  }

  /** A claim whose process has ended without releasing it. */
  ghost predicate Abandoned(s: System, r: RouteId) {
    && r in s.tables.routes && s.tables.routes[r].claim.Some?
    && forall p :: p in s.procs ==> Held(s.procs[p]) != Some(s.tables.routes[r].claim.value.token)
  }

  /** A process that stops while it holds a claim abandons it. */
  lemma CrashAbandons(s: System, p: ProcId)
    requires Inv(s) && p in s.procs && Held(s.procs[p]).Some?
    ensures Abandoned(Next(s, Crashes(p)), s.procs[p].req.parent.value.route)
  {
    var s' := Next(s, Crashes(p));
    assert Owns(s.tables, s.procs[p]);
    forall q | q in s'.procs ensures Held(s'.procs[q]) != Held(s.procs[p]) {
      if q != p {
        assert Apart(s.procs[q], s.procs[p]);
      }
    }
  }

  lemma AbandonedRoute(s: System, e: Event, r: RouteId)
    requires Inv(s) && Abandoned(s, r)
    ensures r in Next(s, e).tables.routes && Next(s, e).tables.routes[r] == s.tables.routes[r]
  {
    if !e.RouteArrives? && e.p in s.procs {
      assert Held(s.procs[e.p]) != Some(s.tables.routes[r].claim.value.token);
      assert Owns(s.tables, s.procs[e.p]);
    }
  }

  lemma NobodyGains(s: System, e: Event, token: Token)
    requires token in s.tables.issued && forall p :: p in s.procs ==> Held(s.procs[p]) != Some(token)
    ensures forall p :: p in Next(s, e).procs ==> Held(Next(s, e).procs[p]) != Some(token)
  {
  }

  lemma AbandonedNext(s: System, e: Event, r: RouteId)
    requires Inv(s) && Abandoned(s, r)
    ensures Abandoned(Next(s, e), r) && Next(s, e).tables.routes[r] == s.tables.routes[r]
  {
    AbandonedRoute(s, e, r);
    NobodyGains(s, e, s.tables.routes[r].claim.value.token);
  }

  /** Nothing frees a claim that a stopped process left behind: the route stays
      claimed and unconsumed in every continuation. */
  lemma {:induction false} AbandonedClaimStays(s: System, events: seq<Event>, r: RouteId)
    requires Inv(s) && Abandoned(s, r)
    ensures Abandoned(Run(s, events), r) && Run(s, events).tables.routes[r] == s.tables.routes[r]
  {
    if events != [] {
      RunKeeps(s, events[..|events| - 1]);
      AbandonedClaimStays(s, events[..|events| - 1], r);
      AbandonedNext(Run(s, events[..|events| - 1]), events[|events| - 1], r);
    }
  }

  /** The claim on the route is gone after these events. */
  ghost predicate FreedAfter(s: System, events: seq<Event>, r: RouteId) {
    r in Run(s, events).tables.routes && Run(s, events).tables.routes[r].claim.None?
  }

  ghost predicate CanBeFreed(s: System, r: RouteId) {
    exists events :: FreedAfter(s, events, r)
  }

  /** A standing claim is abandoned, or one process holds exactly it. */
  lemma HolderOf(s: System, r: RouteId) returns (p: ProcId)
    requires Inv(s) && r in s.tables.routes && s.tables.routes[r].claim.Some? && !Abandoned(s, r)
    ensures p in s.procs && Held(s.procs[p]).Some? && s.procs[p].req.parent.Some?
    ensures s.procs[p].req.parent.value.route == r
  {
    p :| p in s.procs && Held(s.procs[p]) == Some(s.tables.routes[r].claim.value.token);
    assert Owns(s.tables, s.procs[p]);
  }

  /** The step that makes a holder give up. */
  function GivesUp(p: ProcId, pr: Proc): Event {
    if pr.Holding? then Prepares(p, false) else Dispatches(p, false)
  }

  lemma GivingUpReleases(s: System, p: ProcId)
    requires p in s.procs && Held(s.procs[p]).Some? && !s.procs[p].Releasing?
    ensures Next(s, GivesUp(p, s.procs[p])) == s.(procs := s.procs[p := Releasing(s.procs[p].req, s.procs[p].token)])
  {
  }

  lemma ReleaseFrees(s: System, p: ProcId)
    requires Inv(s) && p in s.procs && s.procs[p].Releasing? && s.procs[p].token.Some?
    ensures s.procs[p].req.parent.Some? && FreedAfter(s, [Releases(p, true)], s.procs[p].req.parent.value.route)
  {
    assert Owns(s.tables, s.procs[p]);
    var e := Releases(p, true);
    assert [e][..0] == [] && Run(s, []) == s;
    assert Run(s, [e]) == Next(s, e);
  }

  lemma RunOfTwo(s: System, e: Event, f: Event)
    ensures Run(s, [e, f]) == Run(Next(s, e), [f])
  {
    assert [e, f][..1] == [e] && [e][..0] == [] && [f][..0] == [];
    assert Run(s, []) == s && Run(s, [e]) == Next(s, e) && Run(Next(s, e), []) == Next(s, e);
  }

  lemma HolderCanFree(s: System, p: ProcId)
    requires Inv(s) && p in s.procs && Held(s.procs[p]).Some? && s.procs[p].req.parent.Some?
    ensures CanBeFreed(s, s.procs[p].req.parent.value.route)
  {
    var r := s.procs[p].req.parent.value.route;
    if s.procs[p].Releasing? {
      ReleaseFrees(s, p);
    } else {
      var e := GivesUp(p, s.procs[p]);
      GivingUpReleases(s, p);
      NextKeeps(s, e);
      ReleaseFrees(Next(s, e), p);
      RunOfTwo(s, e, Releases(p, true));
      assert FreedAfter(s, [e, Releases(p, true)], r);
    }
  }

  /** A claim can be freed, in some continuation, exactly when it is not abandoned:
      only the process that made it can release or consume it. */
  lemma FreeableExactly(s: System, r: RouteId)
    requires Inv(s) && r in s.tables.routes && s.tables.routes[r].claim.Some?
    ensures CanBeFreed(s, r) <==> !Abandoned(s, r)
  {
    if Abandoned(s, r) {
      forall events ensures !FreedAfter(s, events, r) {
        AbandonedClaimStays(s, events, r);
      }
    } else {
      var p := HolderOf(s, r);
      HolderCanFree(s, p);
    }
  }

  // ---------------------------------------------------------------- the tables

  class RepairStore {
    var routes: map<RouteId, Route>
    var attempts: map<AttemptId, Request>
    ghost var issued: set<Token>

    ghost function View(): Tables
      reads this
    {
      Tables(routes, attempts, issued)
    }

    /** Row numbers break every tie of creation time. */
    ghost predicate Ordered()
      reads this
    {
      forall r, q :: r in routes && q in routes && r != q ==> routes[r].order != routes[q].order
    }

    constructor ()
      ensures View() == Start.tables && Ordered()
    {
      routes, attempts, issued := map[], map[], {};
    }

    /** `ORDER BY created_at DESC, rowid DESC LIMIT 1` over the outstanding routes. */
    method FindLatest(task: nat) returns (latest: Option<RouteId>)
      requires Ordered()
      ensures latest.None? <==> NoneOutstanding(View(), task)
      ensures latest.Some? ==> IsLatest(View(), task, latest.value)
    {
      latest := None;
      var remaining := routes.Keys;
      while remaining != {}
        invariant remaining <= routes.Keys
        invariant latest.Some? ==> Outstanding(View(), task, latest.value) && latest.value !in remaining
        invariant forall r :: r in routes.Keys - remaining && Outstanding(View(), task, r) ==>
          latest.Some? && (r == latest.value || routes[r].order < routes[latest.value].order)
        decreases remaining
      {
        var r :| r in remaining;
        remaining := remaining - {r};
        if routes[r].task == task && routes[r].consumedBy.None?
            && (latest.None? || routes[latest.value].order < routes[r].order)
        {
          latest := Some(r);
        }
      }
    }

    /** Whether the latest outstanding route is what the request expects. */
    method Current(req: Request) returns (ok: bool)
      requires Ordered()
      ensures ok <==> Admissible(View(), req)
    {
      var latest := FindLatest(req.task);
      if req.parent.None? || latest.None? {
        return req.parent.None? && latest.None?;
      }
      var parent, route := req.parent.value, routes[latest.value];
      ok := latest.value == parent.route && route.sha == parent.sha && route.worker == req.worker
          && route.findings == parent.findings;
    }

    /** `standing`: the lease is held and the task is in its state. */
    method ClaimParent(req: Request, token: Token, standing: bool) returns (ok: bool)
      requires Ordered() && token !in issued
      modifies this
      ensures Ordered()
      ensures var t := Claimed(old(View()), req, token);
        ok == (standing && t.Some?) && View() == if ok then t.value else old(View())
    {
      if !standing {
        return false;
      }
      ok := Current(req);
      if ok && req.parent.Some? {
        var r := req.parent.value.route;
        if routes[r].claim.Some? {
          return false;
        }
        routes := routes[r := routes[r].(claim := Some(ClaimOf(req, token)))];
        issued := issued + {token};
      }
    }

    method Dispatch(req: Request, token: Option<Token>, standing: bool) returns (ok: bool)
      requires Ordered()
      modifies this
      ensures Ordered()
      ensures var t := Dispatched(old(View()), req, token);
        ok == (standing && t.Some?) && View() == if ok then t.value else old(View())
    {
      if !standing {
        return false;
      }
      if req.attempt in attempts {
        return attempts[req.attempt] == req;
      }
      if exists a :: a in attempts && attempts[a].provider == req.provider {
        return false;
      }
      ok := Current(req);
      if ok && req.parent.Some? {
        var r := req.parent.value.route;
        if token.None? || routes[r].claim != Some(ClaimOf(req, token.value)) {
          return false;
        }
        routes := routes[r := routes[r].(consumedBy := Some(req.attempt), claim := None)];
      }
      if ok {
        attempts := attempts[req.attempt := req];
      }
    }

    method Release(req: Request, token: Token, standing: bool)
      requires Ordered() && req.parent.Some?
      modifies this
      ensures Ordered() && View() == if standing then Released(old(View()), req, token) else old(View())
    {
      var r := req.parent.value.route;
      if standing && r in routes && routes[r].task == req.task && routes[r].consumedBy.None? && routes[r].claim.Some?
          && routes[r].claim.value.token == token
      {
        routes := routes[r := routes[r].(claim := None)];
      }
    }
  }
}
