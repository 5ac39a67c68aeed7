/** Connection budgets of the database roles: the policy, the guarded change of the limits,
    and the clients that come and go under them. */
module Budget {
  import opened Base

  datatype Policy = Policy(roles: map<string, int>, maxConnections: int, superuserReserved: int, margin: int,
                           workers: int, poolSize: int, maxOverflow: int, slots: int, admins: set<string>)

  /** A login role of the server; the limit -1 means no limit. */
  datatype Role = Role(limit: int, superuser: bool, clients: nat)

  datatype Server = Server(maxConnections: int, superuserReserved: int, reserved: int, roles: map<string, Role>)

  predicate IsName(s: string)
  {
    s != "" && 'a' <= s[0] <= 'z' && forall i :: 0 <= i < |s| ==> 'a' <= s[i] <= 'z' || '0' <= s[i] <= '9' || s[i] == '_'
  }

  // ----- the policy -----

  ghost predicate ValidPolicy(p: Policy)
  {
    && p.roles != map[] && (forall r :: r in p.roles ==> IsName(r) && p.roles[r] >= 1)
    && p.maxConnections >= 0 && p.superuserReserved >= 0 && p.margin >= 0
    && p.workers >= 0 && p.poolSize >= 0 && p.maxOverflow >= 0 && p.slots >= 0
    && "erp" in p.roles && p.roles["erp"] == p.slots * p.workers * (p.poolSize + p.maxOverflow)
    && Total(p.roles) + p.margin + p.superuserReserved <= p.maxConnections
    && (forall a :: a in p.admins ==> a !in p.roles && IsName(a)) && p.admins != {}
  }

  /** Every role has a name and a positive limit, administrators are others; the ERP role may
      open what the workers of all slots can, and all limits together leave margin and reserve. */
  lemma {:induction false} PolicyIs(p: Policy)
    ensures ValidPolicy(p) <==>
      && p.roles.Keys != {} && "erp" in p.roles && p.admins != {} && p.roles.Keys !! p.admins
      && (forall r :: r in p.roles.Keys + p.admins ==> IsName(r)) && (forall r :: r in p.roles ==> p.roles[r] > 0)
      && p.workers >= 0 && p.poolSize >= 0 && p.maxOverflow >= 0 && p.slots >= 0
      && p.roles["erp"] == p.slots * p.workers * (p.poolSize + p.maxOverflow)
      && p.superuserReserved >= 0 && p.margin >= 0 && Total(p.roles) + p.margin + p.superuserReserved <= p.maxConnections && p.maxConnections >= 0
  {
    if ValidPolicy(p) { assert "erp" in p.roles.Keys; }
    hide Total, IsName;
  }

  /** The sum of the limits, role by role. */
  method SumLimits(limits: map<string, int>) returns (sum: int)
    ensures sum == Total(limits)
  {
    var rest := limits;
    sum := 0;
    while rest != map[]
      invariant sum + Total(rest) == Total(limits)
      decreases |rest|
    {
      var r := PickOne(rest.Keys);
      TotalRemove(rest, r);
      assert (rest - {r}).Keys == rest.Keys - {r};
      sum, rest := sum + rest[r], rest - {r};
    }
  }

  /** `validate_policy` */
  method ValidatePolicy(p: Policy) returns (ok: bool)
    ensures ok <==> ValidPolicy(p)
  {
    if p.roles == map[] || exists r :: r in p.roles && (!IsName(r) || p.roles[r] < 1) { return false; }
    if p.maxConnections < 0 || p.superuserReserved < 0 || p.margin < 0 || p.workers < 0 || p.poolSize < 0 || p.maxOverflow < 0 || p.slots < 0 {
      return false;
    }
    if "erp" !in p.roles || p.roles["erp"] != p.slots * p.workers * (p.poolSize + p.maxOverflow) { return false; }
    var sum := SumLimits(p.roles);
    if sum + p.margin + p.superuserReserved > p.maxConnections { return false; }
    ok := p.admins != {} && forall a :: a in p.admins ==> a !in p.roles && IsName(a);
  }

  // ----- the plan -----

  ghost predicate Plannable(p: Policy, s: Server)
  {
    && ValidPolicy(p)
    && s.maxConnections == p.maxConnections && s.superuserReserved == p.superuserReserved && s.reserved == 0
    && s.roles.Keys == p.roles.Keys + p.admins
    && (forall r :: r in s.roles ==> (s.roles[r].superuser <==> r in p.admins))
    && (forall r :: r in p.roles && r in s.roles ==> s.roles[r].clients <= p.roles[r])
    && Total(ClientsOf(s, p.admins)) <= p.margin + p.superuserReserved
  }

  function ClientsOf(s: Server, names: set<string>): map<string, int>
  {
    map r | r in names && r in s.roles :: s.roles[r].clients
  }

  function Limits(s: Server, names: set<string>): map<string, int>
  {
    map r | r in names && r in s.roles :: s.roles[r].limit
  }

  /** `plan`: the limits a rollback will need, unless the live server does not fit. */
  method Plan(p: Policy, s: Server) returns (previous: Option<map<string, int>>)
    ensures previous.Some? <==> Plannable(p, s)
    ensures previous.Some? ==> previous.value == Limits(s, p.roles.Keys) && previous.value.Keys == p.roles.Keys
  {
    var ok := ValidatePolicy(p);
    if !ok || s.maxConnections != p.maxConnections || s.superuserReserved != p.superuserReserved || s.reserved != 0 { return None; }
    if s.roles.Keys != p.roles.Keys + p.admins { return None; }
    if exists r :: r in s.roles && s.roles[r].superuser != (r in p.admins) { return None; }
    if exists r :: r in p.roles && r in s.roles && s.roles[r].clients > p.roles[r] { return None; }
    var busy := SumLimits(ClientsOf(s, p.admins));
    if busy > p.margin + p.superuserReserved { return None; }
    SameSet(Limits(s, p.roles.Keys).Keys, p.roles.Keys);
    previous := Some(Limits(s, p.roles.Keys));
  }

  // ----- the transaction -----

  /** What the guard block of the transaction demands of the server. */
  ghost predicate Guarded(p: Policy, previous: map<string, int>, target: map<string, int>, s: Server)
  {
    && ValidPolicy(p) && previous.Keys == p.roles.Keys && target.Keys == previous.Keys
    && (forall r :: r in previous ==> previous[r] >= -1) && (forall r :: r in target ==> target[r] >= -1)
    && s.maxConnections == p.maxConnections && s.superuserReserved == p.superuserReserved && s.reserved == 0
    && s.roles.Keys == p.roles.Keys + p.admins
    && (forall r :: r in p.admins && r in s.roles ==> s.roles[r].superuser)
    && (forall r :: r in previous && r in s.roles ==> !s.roles[r].superuser && s.roles[r].limit == previous[r])
    && (forall r :: r in target && r in s.roles && target[r] >= 0 ==> s.roles[r].clients <= target[r])
  }

  /** The guard block. */
  method CheckGuard(p: Policy, previous: map<string, int>, target: map<string, int>, s: Server) returns (ok: bool)
    ensures ok <==> Guarded(p, previous, target, s)
  {
    hide ValidPolicy;
    var valid := ValidatePolicy(p);
    if !valid || previous.Keys != p.roles.Keys || target.Keys != previous.Keys { return false; }
    if exists r :: r in previous && previous[r] < -1 { return false; }
    if exists r :: r in target && target[r] < -1 { return false; }
    if s.maxConnections != p.maxConnections || s.superuserReserved != p.superuserReserved || s.reserved != 0 { return false; }
    if s.roles.Keys != p.roles.Keys + p.admins { return false; }
    if exists r :: r in p.admins && r in s.roles && !s.roles[r].superuser { return false; }
    if exists r :: r in previous && r in s.roles && (s.roles[r].superuser || s.roles[r].limit != previous[r]) { return false; }
    if exists r :: r in target && r in s.roles && target[r] >= 0 && s.roles[r].clients > target[r] { return false; }
    ok := true;
  }

  /** Planner and guard agree: on a server whose limits are proper ones a plan is made exactly
      when the guard would let it through there and then, and the administrators leave enough free. */
  lemma {:induction false} PlannedExactly(p: Policy, s: Server)
    requires forall r :: r in s.roles ==> s.roles[r].limit >= -1
    ensures Plannable(p, s) <==>
      Guarded(p, Limits(s, p.roles.Keys), p.roles, s) && Total(ClientsOf(s, p.admins)) <= p.margin + p.superuserReserved
  {
    var previous := Limits(s, p.roles.Keys);
    if s.roles.Keys == p.roles.Keys + p.admins {
      forall r ensures r in p.roles ==> r in s.roles { assert r in p.roles.Keys ==> r in p.roles.Keys + p.admins; }
      forall r ensures r in s.roles ==> r in p.roles || r in p.admins { assert r in s.roles.Keys ==> r in p.roles.Keys + p.admins; }
      SameSet(previous.Keys, p.roles.Keys);
    }
    hide Total, IsName, ClientsOf;
  }

  function WithLimits(s: Server, target: map<string, int>): Server
  {
    s.(roles := map r | r in s.roles :: if r in target then s.roles[r].(limit := target[r]) else s.roles[r])
  }

  // ----- the server, with the clients of its roles -----

  class Postgres {
    var server: Server

    constructor (server: Server)
      ensures this.server == server
    {
      this.server := server;
    }

    /** The guarded change of limits; `free` is whether the lock and the statement go through.
        It changes exactly the limits of the target, or nothing. */
    method Transact(p: Policy, previous: map<string, int>, target: map<string, int>, free: bool) returns (ok: bool)
      modifies this
      ensures ok <==> free && Guarded(p, previous, target, old(server))
      ensures server == if ok then WithLimits(old(server), target) else old(server)
    {
      if !free { return false; }
      ok := CheckGuard(p, previous, target, server);
      if ok { server := WithLimits(server, target); }
    }
  }

  /** A client is admitted while its role is below its limit. */
  predicate Admits(role: Role) { role.superuser || role.limit < 0 || role.clients < role.limit }

  function Clients(s: Server, r: string, change: int): Server
    requires r in s.roles && s.roles[r].clients + change >= 0
  {
    s.(roles := s.roles[r := s.roles[r].(clients := s.roles[r].clients + change)])
  }

  datatype Event = Connects(r: string) | Disconnects(r: string)

  /** Clients come and go; the limits stay. */
  predicate Step(s: Server, e: Event, after: Server)
  {
    e.r in s.roles &&
    match e
    case Connects(r) => Admits(s.roles[r]) && after == Clients(s, r, 1)
    case Disconnects(r) => s.roles[r].clients > 0 && after == Clients(s, r, -1)
  }

  ghost predicate Run(ss: seq<Server>, es: seq<Event>)
  {
    |ss| == |es| + 1 && forall i, j :: 0 <= i < |es| && j == i + 1 ==> Step(ss[i], es[i], ss[j])
  }

  // ----- while the budget is applied -----

  /** The limits of the policy are in force and no role is above its own. */
  ghost predicate InBudget(p: Policy, s: Server)
  {
    forall r :: r in p.roles ==>
      r in s.roles && s.roles[r].limit == p.roles[r] && !s.roles[r].superuser && s.roles[r].clients <= p.roles[r]
  }

  lemma {:induction false} ApplyStartsInBudget(p: Policy, previous: map<string, int>, s: Server)
    requires Guarded(p, previous, p.roles, s)
    ensures InBudget(p, WithLimits(s, p.roles))
  {
    forall r | r in p.roles ensures r in s.roles && r in previous {
      assert r in p.roles.Keys + p.admins;
    }
  }

  lemma {:induction false} StepInBudget(p: Policy, s: Server, e: Event, after: Server)
    requires InBudget(p, s) && Step(s, e, after)
    ensures InBudget(p, after)
  {
  }

  lemma {:induction false} TotalAtMost(a: map<string, int>, b: map<string, int>)
    requires a.Keys <= b.Keys && (forall k :: k in a ==> a[k] <= b[k]) && forall k :: k in b ==> b[k] >= 0
    ensures Total(a) <= Total(b)
    decreases |b|
  {
    if a == map[] {
      TotalPositive(b);
    } else {
      var k := SomeElement(a.Keys);
      TotalRemove(a, k);
      TotalRemove(b, k);
      assert (b - {k}).Keys == b.Keys - {k};
      TotalAtMost(a - {k}, b - {k});
    }
  }

  lemma {:induction false} TotalPositive(b: map<string, int>)
    requires forall k :: k in b ==> b[k] >= 0
    ensures Total(b) >= 0
    decreases |b|
  {
    if b != map[] {
      var k := SomeElement(b.Keys);
      TotalRemove(b, k);
      assert (b - {k}).Keys == b.Keys - {k};
      TotalPositive(b - {k});
    }
  }

  /** After a successful apply, whatever connects and disconnects, the application clients
      together leave the maintenance margin and the superuser reserve free. */
  lemma {:induction false} BudgetHolds(p: Policy, previous: map<string, int>, s: Server, ss: seq<Server>, es: seq<Event>)
    requires Guarded(p, previous, p.roles, s) && Run(ss, es) && ss[0] == WithLimits(s, p.roles)
    ensures InBudget(p, ss[|es|])
    ensures Total(ClientsOf(ss[|es|], p.roles.Keys)) + p.margin + p.superuserReserved <= p.maxConnections
  {
    if es == [] {
      ApplyStartsInBudget(p, previous, s);
    } else {
      var l := |es| - 1;
      hide Guarded, InBudget, Step, WithLimits;
      BudgetHolds(p, previous, s, ss[..l + 1], es[..l]);
      assert Step(ss[l], es[l], ss[l + 1]);
      StepInBudget(p, ss[l], es[l], ss[l + 1]);
    }
    ClientsInBudget(p, ss[|es|]);
    GuardIsValid(p, previous, p.roles, s);
  }

  lemma {:induction false} GuardIsValid(p: Policy, previous: map<string, int>, target: map<string, int>, s: Server)
    requires Guarded(p, previous, target, s)
    ensures Total(p.roles) + p.margin + p.superuserReserved <= p.maxConnections
  {
  }

  lemma {:induction false} ClientsInBudget(p: Policy, s: Server)
    requires InBudget(p, s)
    ensures Total(ClientsOf(s, p.roles.Keys)) <= Total(p.roles)
  {
    forall r | r in p.roles ensures p.roles[r] >= 0 {
      assert s.roles[r].clients >= 0;
    }
    TotalAtMost(ClientsOf(s, p.roles.Keys), p.roles);
  }

  /** The limit of the ERP role is what its workers can open: while they keep to their pools
      none of them is refused. */
  lemma {:induction false} PoolsAreServed(p: Policy, s: Server)
    requires ValidPolicy(p) && InBudget(p, s)
    ensures Admits(s.roles["erp"]) <==> s.roles["erp"].clients < p.slots * p.workers * (p.poolSize + p.maxOverflow)
  {
    hide Total, IsName;
  }

  // ----- rolling back -----

  /** Everything but the numbers of clients. */
  ghost predicate SameSetup(a: Server, b: Server)
  {
    && a.maxConnections == b.maxConnections && a.superuserReserved == b.superuserReserved && a.reserved == b.reserved
    && (forall r :: r in a.roles <==> r in b.roles)
    && forall r :: r in a.roles && r in b.roles ==> a.roles[r].limit == b.roles[r].limit && a.roles[r].superuser == b.roles[r].superuser
  }

  lemma {:induction false} RunKeepsSetup(ss: seq<Server>, es: seq<Event>)
    requires Run(ss, es)
    ensures SameSetup(ss[0], ss[|es|])
  {
    if es != [] {
      var l := |es| - 1;
      RunKeepsSetup(ss[..l + 1], es[..l]);
      assert Step(ss[l], es[l], ss[l + 1]);
      SetupStep(ss[l], es[l], ss[l + 1]);
    }
  }

  lemma {:induction false} SetupStep(s: Server, e: Event, after: Server)
    requires Step(s, e, after)
    ensures SameSetup(s, after)
  {
  }

  /** An apply, any comings and goings, and a successful rollback leave every limit and every
      role as it was before. */
  lemma {:induction false} RollbackRestores(p: Policy, previous: map<string, int>, s: Server, ss: seq<Server>, es: seq<Event>)
    requires Guarded(p, previous, p.roles, s) && Run(ss, es) && ss[0] == WithLimits(s, p.roles)
    requires Guarded(p, p.roles, previous, ss[|es|])
    ensures SameSetup(WithLimits(ss[|es|], previous), s)
    ensures Limits(WithLimits(ss[|es|], previous), p.roles.Keys) == previous
  {
    RunKeepsSetup(ss, es);
    var now := ss[|es|];
    var back := WithLimits(now, previous);
    forall r | r in s.roles ensures r in back.roles && back.roles[r].limit == s.roles[r].limit {
      assert r in now.roles;
    }
    SameMap(Limits(back, p.roles.Keys), previous);
  }

  /** The rollback goes through exactly when no role has more clients than its old limit. */
  lemma {:induction false} RollbackGoesThroughExactly(p: Policy, previous: map<string, int>, s: Server, ss: seq<Server>, es: seq<Event>)
    requires Guarded(p, previous, p.roles, s) && Run(ss, es) && ss[0] == WithLimits(s, p.roles)
    ensures Guarded(p, p.roles, previous, ss[|es|]) <==>
      forall r :: r in previous && r in ss[|es|].roles && previous[r] >= 0 ==> ss[|es|].roles[r].clients <= previous[r]
  {
    RunKeepsSetup(ss, es);
    SameSet(ss[|es|].roles.Keys, p.roles.Keys + p.admins);
    assert forall r :: r in p.roles ==> p.roles[r] >= 1;
    hide ValidPolicy;
  }
}
