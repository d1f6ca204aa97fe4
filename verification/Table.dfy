/** The in-memory rule table: allocation of route IDs, and rules that expire when they are not
    refreshed.  Every call takes one reading of the clock. */
module Table {
  import opened Routing

  type Time = int

  const MAX_DURATION: Duration := 0x7FFF_FFFF_FFFF_FFFF
  const MIN_DURATION: Duration := -0x8000_0000_0000_0000
  const TWO32 := 0x1_0000_0000

  datatype TableState = TableState(nextID: RouteID, rules: map<RouteID, Rule>, activity: map<RouteID, Time>) {
    /** The two maps have the same keys, and rules are stored under their own key. */
    ghost predicate Valid()
    {
      rules.Keys == activity.Keys && forall k :: k in rules ==> rules[k].key == k
    }
  }

  const EmptyTable := TableState(0, map[], map[])

  /** time.Since saturates. */
  function Since(now: Time, t: Time): Duration
  {
    if now - t > MAX_DURATION then MAX_DURATION
    else if now - t < MIN_DURATION then MIN_DURATION
    else now - t
  }

  predicate TimedOut(st: TableState, key: RouteID, rule: Rule, now: Time)
  {
    key !in st.activity || Since(now, st.activity[key]) > rule.keepAlive
  }

  predicate Live(st: TableState, key: RouteID, now: Time)
  {
    key in st.rules && !TimedOut(st, key, st.rules[key], now)
  }

  /** A gap that the keep-alive covers.  Elapsed time saturates at the largest int64, some 292 years, so
      only a keep-alive of that very length never runs out. */
  predicate Within(t: Time, now: Time, keepAlive: Duration)
  {
    now - t <= keepAlive || keepAlive == 0x7FFF_FFFF_FFFF_FFFF
  }

  lemma SinceIs(now: Time, t: Time, keepAlive: Duration)
    ensures Since(now, t) <= keepAlive <==> Within(t, now, keepAlive)
    ensures -0x8000_0000_0000_0000 <= now - t < 0x8000_0000_0000_0000 ==> Since(now, t) == now - t
  {
  }

  /** A rule is live as long as the time since its last activity is at most its keep-alive. */
  lemma LiveIff(st: TableState, key: RouteID, now: Time)
    ensures Live(st, key, now) <==>
      key in st.rules && key in st.activity && Within(st.activity[key], now, st.rules[key].keepAlive)
    ensures key in st.activity && now - st.activity[key] < 0x8000_0000_0000_0000 ==>
      (Live(st, key, now) <==> key in st.rules && now - st.activity[key] <= st.rules[key].keepAlive)
  {
    if key in st.rules && key in st.activity { SinceIs(now, st.activity[key], st.rules[key].keepAlive); }
  }

  // ---- reservation ----

  /** ErrNoAvailableRoutes, or a capacity that the runtime refuses. */
  datatype Reservation = Reserved(ids: seq<RouteID>) | ErrNoAvailableRoutes | Panic

  /** int64 addition. */
  function Wrap64(x: int): (r: Duration)
    ensures (r - x) % 0x1_0000_0000_0000_0000 == 0
  {
    (x + 0x8000_0000_0000_0000) % 0x1_0000_0000_0000_0000 - 0x8000_0000_0000_0000
  }

  /** The counts for which the source's arithmetic does what it says. */
  predicate Countable(st: TableState, n: Duration)
  {
    0 <= n && st.nextID + n <= MAX_DURATION
  }

  /** What a reservation answers: n consecutive IDs above the last one issued, if there are that many. */
  function Grant(st: TableState, n: Duration): Reservation
  {
    if !Countable(st, n) then Panic
    else if st.nextID + n >= MAX_UINT32 then ErrNoAvailableRoutes
    else Reserved(Consecutive(st.nextID + 1, n))
  }

  function NextAfter(st: TableState, n: Duration): RouteID
  {
    if Wrap64(st.nextID + n) >= MAX_UINT32 then st.nextID else (st.nextID + n) % TWO32
  }

  // ---- the other calls, as functions of the state ----

  function Save(st: TableState, rule: Rule, now: Time): TableState
  {
    st.(rules := st.rules[rule.key := rule], activity := st.activity[rule.key := now])
  }

  function Touch(st: TableState, key: RouteID, now: Time): TableState
  {
    if Live(st, key, now) then st.(activity := st.activity[key := now]) else st
  }

  /** Looking a rule up refreshes it only if it consumes packets. */
  function Lookup(st: TableState, key: RouteID, now: Time): TableState
  {
    if key in st.rules && st.rules[key].Consume? then Touch(st, key, now) else st
  }

  function Delete(st: TableState, keys: set<RouteID>): TableState
  {
    st.(rules := st.rules - keys, activity := st.activity - keys)
  }

  function Expired(st: TableState, now: Time): set<RouteID>
  {
    set k | k in st.rules && !Live(st, k, now)
  }

  function Collected(st: TableState, now: Time): TableState { Delete(st, Expired(st, now)) }

  /** The live rules by key. */
  function Alive(st: TableState, now: Time): map<RouteID, Rule>
  {
    map k | k in st.rules && Live(st, k, now) :: st.rules[k]
  }

  /** Garbage collection cannot be observed: what is live at that instant stays live with the same
      activity, and nothing else is left. */
  lemma CollectUnobserved(st: TableState, now: Time)
    requires st.Valid()
    ensures Collected(st, now).Valid()
    ensures Alive(Collected(st, now), now) == Alive(st, now) == Collected(st, now).rules
    ensures forall k :: k in Collected(st, now).activity ==> Collected(st, now).activity[k] == st.activity[k]
    ensures forall k :: Live(Collected(st, now), k, now) <==> Live(st, k, now)
  {
    var st' := Collected(st, now);
    forall k ensures k in st'.rules <==> Live(st, k, now) {}
    assert forall k :: k in st'.rules ==> Live(st', k, now);
  }

  // ---- the table ----

  /** r lists the rules of the given keys, each once. */
  ghost predicate Lists(r: seq<Rule>, rules: map<RouteID, Rule>, keys: set<RouteID>)
  {
    && keys <= rules.Keys && |r| == |keys|
    && forall x :: x in r <==> x.key in keys && x == rules[x.key]
  }

  lemma ListsMore(r: seq<Rule>, rules: map<RouteID, Rule>, keys: set<RouteID>, k: RouteID)
    requires Lists(r, rules, keys) && k in rules && k !in keys && rules[k].key == k
    ensures Lists(r + [rules[k]], rules, keys + {k})
  {
  }

  /** The keys outside `todo` that are expired, or that are not. */
  ghost function Sorted(st: TableState, now: Time, todo: set<RouteID>, expired: bool): set<RouteID>
  {
    set k | k in st.rules && k !in todo && Live(st, k, now) == !expired
  }

  lemma SortedStep(st: TableState, now: Time, todo: set<RouteID>, expired: bool, k: RouteID)
    requires k in todo && k in st.rules
    ensures Sorted(st, now, todo - {k}, expired) ==
      Sorted(st, now, todo, expired) + if Live(st, k, now) == !expired then {k} else {}
  {
  }

  datatype RuleResult = Found(rule: Rule) | ErrRuleNotFound | ErrRuleTimedOut

  class MemTable {
    var nextID: RouteID
    var rules: map<RouteID, Rule>
    var activity: map<RouteID, Time>

    ghost function Model(): TableState reads this { TableState(nextID, rules, activity) }

    constructor ()
      ensures Model() == EmptyTable && Model().Valid()
    {
      nextID, rules, activity := 0, map[], map[];
    }

    /** The inclusive loop over uint32 counters ends because the last ID is below the maximum. */
    method ReserveKeys(n: Duration) returns (r: Reservation)
      requires Model().Valid()
      modifies this`nextID
      ensures Model() == old(Model()).(nextID := NextAfter(old(Model()), n)) && Model().Valid()
      ensures r == Grant(old(Model()), n)
      ensures r.Reserved? <==> 0 <= n && old(nextID) + n < 0xFFFF_FFFF
      ensures r.Reserved? ==> |r.ids| == n && forall i :: 0 <= i < n ==> r.ids[i] == old(nextID) + 1 + i
      ensures r.ErrNoAvailableRoutes? <==> 0xFFFF_FFFF <= old(nextID) + n < 0x8000_0000_0000_0000 && n >= 0
      ensures r.ErrNoAvailableRoutes? ==> nextID == old(nextID)
      ensures r.Reserved? ==> nextID == old(nextID) + n
    {
      if Wrap64(nextID + n) >= MAX_UINT32 { return ErrNoAvailableRoutes; }
      var first: RouteID := (nextID + 1) % TWO32;
      nextID := (nextID + n) % TWO32;
      var last := nextID;
      if n < 0 || n > MAX_UINT32 { return Panic; }
      var routes: seq<RouteID> := [];
      var id := first;
      while id <= last
        invariant first <= id <= last + 1 == first + n && |routes| == id - first
        invariant forall i :: 0 <= i < |routes| ==> routes[i] == first + i
        decreases last + 1 - id
      {
        routes := routes + [id];
        id := (id + 1) % TWO32;
      }
      return Reserved(routes);
    }

    method SaveRule(rule: Rule, now: Time)
      requires Model().Valid()
      modifies this`rules, this`activity
      ensures Model() == Save(old(Model()), rule, now) && Model().Valid()
    {
      rules := rules[rule.key := rule];
      activity := activity[rule.key := now];
    }

    method RuleIsTimedOut(key: RouteID, rule: Rule, now: Time) returns (r: bool)
      ensures r == TimedOut(Model(), key, rule, now)
    {
      var ok := key in activity;
      if !ok { return true; }
      return Since(now, activity[key]) > rule.keepAlive;
    }

    method Rule(key: RouteID, now: Time) returns (r: RuleResult)
      requires Model().Valid()
      modifies this`activity
      ensures Model() == Lookup(old(Model()), key, now) && Model().Valid()
      ensures r.Found? <==> key in old(rules) && Within(old(activity)[key], now, old(rules)[key].keepAlive)
      ensures r.ErrRuleNotFound? <==> key !in old(rules)
      ensures r.Found? ==> r.rule == old(rules)[key] && r.rule.key == key
      ensures activity == if r.Found? && r.rule.Consume? then old(activity)[key := now] else old(activity)
    {
      LiveIff(Model(), key, now);
      if key !in rules { return ErrRuleNotFound; }
      var rule := rules[key];
      var out := RuleIsTimedOut(key, rule, now);
      if out { return ErrRuleTimedOut; }
      if rule.Consume? { activity := activity[key := now]; }
      return Found(rule);
    }

    method UpdateActivity(key: RouteID, now: Time) returns (ok: bool)
      requires Model().Valid()
      modifies this`activity
      ensures Model() == Touch(old(Model()), key, now) && Model().Valid()
      ensures ok <==> key in old(rules) && Within(old(activity)[key], now, old(rules)[key].keepAlive)
      ensures activity == if ok then old(activity)[key := now] else old(activity)
    {
      LiveIff(Model(), key, now);
      if key !in rules { return false; }
      var out := RuleIsTimedOut(key, rules[key], now);
      if out { return false; }
      activity := activity[key := now];
      return true;
    }

    /** Each live rule once, in any order. */
    method AllRules(now: Time) returns (r: seq<Rule>)
      requires Model().Valid()
      ensures Lists(r, rules, Alive(Model(), now).Keys)
      ensures forall x :: x in r <==>
        x.key in rules && x == rules[x.key] && Within(activity[x.key], now, x.keepAlive)
    {
      hide Lists, Sorted, Live, TimedOut;
      r := [];
      ghost var st := Model();
      var todo := rules.Keys;
      SortedEnds(st, now, false);
      while todo != {}
        invariant todo <= rules.Keys && Lists(r, rules, Sorted(st, now, todo, false))
        decreases todo
      {
        var k :| k in todo;
        var out := RuleIsTimedOut(k, rules[k], now);
        LiveIs(st, k, now);
        SortedStep(st, now, todo, false, k);
        if !out {
          SortedOut(st, now, todo, false, k);
          ListsMore(r, rules, Sorted(st, now, todo, false), k);
          r := r + [rules[k]];
        } else {
          assert Sorted(st, now, todo, false) + {} == Sorted(st, now, todo, false);
        }
        todo := todo - {k};
      }
      AliveWithin(st, now, r);
    }

    method DelRules(keys: seq<RouteID>)
      requires Model().Valid()
      modifies this`rules, this`activity
      ensures Model() == Delete(old(Model()), set k | k in keys) && Model().Valid()
    {
      for i := 0 to |keys|
        invariant Model() == Delete(old(Model()), set k | k in keys[..i])
      {
        DelRule(keys[i]);
        assert keys[..i + 1] == keys[..i] + [keys[i]];
      }
      assert keys[..|keys|] == keys;
    }

    method DelRule(key: RouteID)
      modifies this`rules, this`activity
      ensures Model() == Delete(old(Model()), {key})
    {
      rules := rules - {key};
      activity := activity - {key};
    }

    /** Returns exactly the rules it removes: the expired ones, each once. */
    method CollectGarbage(now: Time) returns (r: seq<Rule>)
      requires Model().Valid()
      modifies this`rules, this`activity
      ensures Model() == Collected(old(Model()), now) && Model().Valid()
      ensures Lists(r, old(rules), Expired(old(Model()), now))
      ensures forall k :: k in rules <==> k in old(rules) && Within(old(activity)[k], now, old(rules)[k].keepAlive)
      ensures forall x :: x in r <==>
        x.key in old(rules) && x == old(rules)[x.key] && !Within(old(activity)[x.key], now, x.keepAlive)
    {
      hide Lists, Sorted, Live, TimedOut, Delete;
      r := [];
      ghost var st := Model();
      var todo := rules.Keys;
      SortedEnds(st, now, true);
      DeleteValid(st, Expired(st, now));
      while todo != {}
        invariant todo <= st.rules.Keys && Model() == Delete(st, Sorted(st, now, todo, true))
        invariant Lists(r, st.rules, Sorted(st, now, todo, true))
        decreases todo
      {
        var k :| k in todo;
        ghost var gone := Sorted(st, now, todo, true);
        SortedOut(st, now, todo, true, k);
        SortedStep(st, now, todo, true, k);
        DeleteMore(st, gone, k);
        var rule := rules[k];
        var out := RuleIsTimedOut(k, rule, now);
        LiveIs(st, k, now);
        if out {
          ListsMore(r, st.rules, gone, k);
          r := r + [rule];
          DelRule(k);
        } else {
          assert gone + {} == gone;
        }
        todo := todo - {k};
      }
      ExpiredWithin(st, now, r);
    }
  }

  /** Lists of the live and of the expired rules, in terms of time. */
  lemma AliveWithin(st: TableState, now: Time, r: seq<Rule>)
    requires st.Valid() && Lists(r, st.rules, Alive(st, now).Keys)
    ensures forall x :: x in r <==>
      x.key in st.rules && x == st.rules[x.key] && Within(st.activity[x.key], now, x.keepAlive)
  {
    forall k | k in st.rules ensures Live(st, k, now) <==> Within(st.activity[k], now, st.rules[k].keepAlive) {
      LiveIff(st, k, now);
    }
    hide Live, Within;
  }

  lemma ExpiredWithin(st: TableState, now: Time, r: seq<Rule>)
    requires st.Valid() && Lists(r, st.rules, Expired(st, now))
    ensures forall x :: x in r <==>
      x.key in st.rules && x == st.rules[x.key] && !Within(st.activity[x.key], now, x.keepAlive)
    ensures forall k :: k in Collected(st, now).rules <==>
      k in st.rules && Within(st.activity[k], now, st.rules[k].keepAlive)
  {
    forall k | k in st.rules ensures Live(st, k, now) <==> Within(st.activity[k], now, st.rules[k].keepAlive) {
      LiveIff(st, k, now);
    }
    hide Live, Within;
  }

  lemma SortedEnds(st: TableState, now: Time, expired: bool)
    ensures Lists([], st.rules, Sorted(st, now, st.rules.Keys, expired))
    ensures Sorted(st, now, st.rules.Keys, expired) == {}
    ensures Sorted(st, now, {}, true) == Expired(st, now) && Sorted(st, now, {}, false) == Alive(st, now).Keys
  {
  }

  lemma SortedOut(st: TableState, now: Time, todo: set<RouteID>, expired: bool, k: RouteID)
    requires k in todo
    ensures k !in Sorted(st, now, todo, expired)
  {
  }

  lemma LiveIs(st: TableState, k: RouteID, now: Time)
    requires k in st.rules
    ensures Live(st, k, now) == !TimedOut(st, k, st.rules[k], now)
  {
  }

  lemma DeleteMore(st: TableState, gone: set<RouteID>, k: RouteID)
    requires st.Valid() && k in st.rules && k !in gone
    ensures k in Delete(st, gone).rules && Delete(st, gone).rules[k] == st.rules[k]
    ensures forall now :: TimedOut(Delete(st, gone), k, st.rules[k], now) == TimedOut(st, k, st.rules[k], now)
    ensures Delete(Delete(st, gone), {k}) == Delete(st, gone + {k})
  {
  }

  lemma DeleteValid(st: TableState, gone: set<RouteID>)
    ensures Delete(st, {}) == st && (st.Valid() ==> Delete(st, gone).Valid())
  {
  }
}
