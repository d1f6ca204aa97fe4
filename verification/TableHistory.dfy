/** Whole histories of a rule table: which IDs it ever issues, and which rules it can still find. */
module TableHistory {
  import opened Routing
  import opened Table

  datatype Call =
    | CallReserve(n: Duration)
    | CallSave(rule: Rule)
    | CallRule(key: RouteID)
    | CallUpdate(key: RouteID)
    | CallDelete(keys: seq<RouteID>)
    | CallCollect

  datatype Event = Event(call: Call, at: Time)

  function Step(st: TableState, e: Event): TableState
  {
    match e.call
    case CallReserve(n) => st.(nextID := NextAfter(st, n))
    case CallSave(rule) => Save(st, rule, e.at)
    case CallRule(key) => Lookup(st, key, e.at)
    case CallUpdate(key) => Touch(st, key, e.at)
    case CallDelete(keys) => Delete(st, set k | k in keys)
    case CallCollect => Collected(st, e.at)
  }

  function Replay(h: seq<Event>): TableState
  {
    if h == [] then EmptyTable else Step(Replay(h[..|h| - 1]), h[|h| - 1])
  }

  lemma {:induction false} ReplayValid(h: seq<Event>)
    ensures Replay(h).Valid()
  {
    if h != [] { ReplayValid(h[..|h| - 1]); }
  }

  // ---- fresh IDs ----

  /** The answer to the reservation at position i. */
  ghost function Answer(h: seq<Event>, i: nat): Reservation
    requires i < |h| && h[i].call.CallReserve?
  {
    Grant(Replay(h[..i]), h[i].call.n)
  }

  /** No reservation asks for a negative number of IDs, or for one that overflows int64. */
  ghost predicate Counted(h: seq<Event>)
  {
    forall i :: 0 <= i < |h| && h[i].call.CallReserve? ==> Countable(Replay(h[..i]), h[i].call.n)
  }

  lemma CountedPrefix(h: seq<Event>, k: nat)
    requires Counted(h) && k <= |h|
    ensures Counted(h[..k])
  {
    forall i | 0 <= i < k && h[..k][i].call.CallReserve? ensures Countable(Replay(h[..k][..i]), h[..k][i].call.n) {
      assert h[..k][..i] == h[..i] && h[..k][i] == h[i];
    }
  }

  lemma {:induction false} NextGrows(h: seq<Event>, i: nat)
    requires Counted(h) && i <= |h|
    ensures Replay(h[..i]).nextID <= Replay(h).nextID
  {
    if i == |h| {
      assert h[..i] == h;
    } else {
      var h' := h[..|h| - 1];
      assert h'[..i] == h[..i];
      CountedPrefix(h, |h| - 1);
      NextGrows(h', i);
      var e, st := h[|h| - 1], Replay(h');
      StepNext(st, e);
      hide Step;
      if e.call.CallReserve? { NextIs(st, e.call.n); }
    }
  }

  lemma StepNext(st: TableState, e: Event)
    ensures Step(st, e).nextID == if e.call.CallReserve? then NextAfter(st, e.call.n) else st.nextID
  {
  }

  lemma NextIs(st: TableState, n: Duration)
    requires Countable(st, n)
    ensures NextAfter(st, n) == if Grant(st, n).Reserved? then st.nextID + n else st.nextID
  {
  }

  /** How many IDs have been issued. */
  ghost function Issued(h: seq<Event>): nat
  {
    if h == [] then 0
    else
      var n := |h| - 1;
      Issued(h[..n]) + if h[n].call.CallReserve? && Answer(h, n).Reserved? then |Answer(h, n).ids| else 0
  }

  /** No ID is wasted: the counter stands at the number of IDs issued. */
  lemma {:induction false} CounterIsIssued(h: seq<Event>)
    requires Counted(h)
    ensures Replay(h).nextID == Issued(h)
  {
    if h != [] {
      var n := |h| - 1;
      CountedPrefix(h, n);
      CounterIsIssued(h[..n]);
      if h[n].call.CallReserve? { NextIs(Replay(h[..n]), h[n].call.n); }
    }
  }

  /** A reservation succeeds if and only if it leaves the number of issued IDs below the largest uint32. */
  lemma ReservesIff(h: seq<Event>, j: nat)
    requires Counted(h) && j < |h| && h[j].call.CallReserve?
    ensures Answer(h, j).Reserved? <==> Issued(h[..j]) + h[j].call.n < 0xFFFF_FFFF
  {
    CountedPrefix(h, j);
    CounterIsIssued(h[..j]);
  }

  /** In a history of counted reservations every answer is an error or exactly n consecutive non-zero
      IDs, and no ID is ever issued twice. */
  lemma FreshKeys(h: seq<Event>, i: nat, j: nat)
    requires Counted(h) && i < j < |h| && h[i].call.CallReserve? && h[j].call.CallReserve?
    ensures !Answer(h, i).Panic? && !Answer(h, j).Panic?
    ensures Answer(h, j).Reserved? ==> |Answer(h, j).ids| == h[j].call.n && 0 !in Answer(h, j).ids
    ensures Answer(h, i).Reserved? && Answer(h, j).Reserved? ==>
      forall x, y :: x in Answer(h, i).ids && y in Answer(h, j).ids ==> x < y
  {
    var hi, hj := h[..i + 1], h[..j];
    assert hi[..i] == h[..i] && hj[..i + 1] == hi && hi[i] == h[i];
    NextIs(Replay(h[..i]), h[i].call.n);
    CountedPrefix(h, j);
    NextGrows(hj, i + 1);
  }

  /** The bound on n is needed: a negative count makes the table issue an ID again. */
  lemma NegativeCountReissues()
    ensures var h := [Event(CallReserve(1), 0), Event(CallReserve(-1), 0), Event(CallReserve(1), 0)];
            Answer(h, 0) == Answer(h, 2) == Reserved([1]) && Answer(h, 1).Panic?
  {
    var h := [Event(CallReserve(1), 0), Event(CallReserve(-1), 0), Event(CallReserve(1), 0)];
    assert h[..1] == [h[0]] && h[..2][..1] == h[..1] && h[..0] == [] && h[..1][..0] == [];
    assert Replay(h[..1]).nextID == 1;
    assert Replay(h[..2]).nextID == 0;
  }

  // ---- no resurrection ----

  ghost predicate Ordered(h: seq<Event>) { forall i, j :: 0 <= i <= j < |h| ==> h[i].at <= h[j].at }

  /** The calls that decide which rule a key names. */
  ghost predicate Renames(c: Call, key: RouteID)
  {
    (c.CallSave? && c.rule.key == key) || (c.CallDelete? && key in c.keys)
  }

  ghost predicate Refreshes(c: Call, rule: Rule)
  {
    c == CallUpdate(rule.key) || (c == CallRule(rule.key) && rule.Consume?)
  }

  /** `chain` leads from the last save of `rule` through refreshes with no gap above its keep-alive. */
  ghost predicate Unbroken(h: seq<Event>, rule: Rule, chain: seq<nat>)
  {
    && chain != [] && (forall j :: 0 <= j < |chain| ==> chain[j] < |h|)
    && h[chain[0]].call == CallSave(rule)
    && (forall i :: chain[0] < i < |h| ==> !Renames(h[i].call, rule.key))
    && (forall j :: 0 < j < |chain| ==> Follows(h, rule, chain[j - 1], chain[j]))
  }

  ghost predicate Follows(h: seq<Event>, rule: Rule, a: nat, b: nat)
  {
    a < b < |h| && Refreshes(h[b].call, rule) && Within(h[a].at, h[b].at, rule.keepAlive)
  }

  ghost function LastAt(h: seq<Event>, chain: seq<nat>): Time
    requires chain != [] && chain[|chain| - 1] < |h|
  {
    h[chain[|chain| - 1]].at
  }

  /** Some unbroken chain reaches `now`. */
  ghost predicate KeptAlive(h: seq<Event>, rule: Rule, now: Time)
  {
    exists chain :: Unbroken(h, rule, chain) && Within(LastAt(h, chain), now, rule.keepAlive)
  }

  lemma WithinMonotone(t: Time, now: Time, t': Time, now': Time, keepAlive: Duration)
    requires now <= now' && t' <= t && Within(t', now', keepAlive)
    ensures Within(t, now, keepAlive)
  {
  }

  lemma UnbrokenLonger(h: seq<Event>, e: Event, rule: Rule, chain: seq<nat>)
    requires Unbroken(h, rule, chain) && !Renames(e.call, rule.key)
    ensures Unbroken(h + [e], rule, chain) && LastAt(h + [e], chain) == LastAt(h, chain)
  {
    forall j | 0 < j < |chain| ensures Follows(h + [e], rule, chain[j - 1], chain[j]) {
      assert Follows(h, rule, chain[j - 1], chain[j]);
    }
  }

  lemma UnbrokenNext(h: seq<Event>, e: Event, rule: Rule, chain: seq<nat>)
    requires Unbroken(h, rule, chain) && Refreshes(e.call, rule) && Within(LastAt(h, chain), e.at, rule.keepAlive)
    ensures Unbroken(h + [e], rule, chain + [|h|]) && LastAt(h + [e], chain + [|h|]) == e.at
  {
    UnbrokenLonger(h, e, rule, chain);
    var c, h' := chain + [|h|], h + [e];
    forall j | 0 < j < |c| ensures Follows(h', rule, c[j - 1], c[j]) {
      if j < |chain| { assert Follows(h', rule, chain[j - 1], chain[j]); }
    }
  }

  /** Whatever the table holds comes from an unbroken chain that ends at its activity. */
  lemma {:induction false} HeldIsUnbroken(h: seq<Event>, key: RouteID) returns (chain: seq<nat>)
    requires key in Replay(h).rules
    ensures Replay(h).Valid() && Unbroken(h, Replay(h).rules[key], chain)
    ensures LastAt(h, chain) == Replay(h).activity[key]
  {
    ReplayValid(h);
    var n := |h| - 1;
    var h', e := h[..n], h[n];
    assert h == h' + [e];
    var st, rule := Replay(h'), Replay(h).rules[key];
    if e.call == CallSave(rule) {
      chain := [n];
    } else {
      hide Unbroken;
      chain := HeldIsUnbroken(h', key);
      assert rule == st.rules[key] && !Renames(e.call, key);
      LiveIff(st, key, e.at);
      if Refreshes(e.call, rule) && Live(st, key, e.at) {
        UnbrokenNext(h', e, rule, chain);
        chain := chain + [n];
      } else {
        UnbrokenLonger(h', e, rule, chain);
      }
    }
  }

  /** An unbroken chain keeps its rule in the table until its last gap is exceeded. */
  lemma {:induction false} UnbrokenIsHeld(h: seq<Event>, rule: Rule, chain: seq<nat>, now: Time)
    requires Ordered(h) && Unbroken(h, rule, chain) && (h != [] ==> h[|h| - 1].at <= now)
    requires Within(LastAt(h, chain), now, rule.keepAlive)
    ensures Holds(Replay(h), rule, LastAt(h, chain))
  {
    hide Step, Within;
    var n, m := |h| - 1, |chain| - 1;
    var h', e, last := h[..n], h[n], chain[|chain| - 1];
    assert h == h' + [e];
    if last == n && m == 0 {
      SaveHolds(Replay(h'), e, rule);
    } else if last == n {
      var c := chain[..m];
      assert Follows(h, rule, chain[m - 1], chain[m]);
      ChainPrefix(h, rule, chain, m);
      hide Unbroken;
      UnbrokenIsHeld(h', rule, c, e.at);
      StepHolds(Replay(h'), e, rule, LastAt(h', c));
    } else {
      WithinMonotone(LastAt(h, chain), e.at, LastAt(h, chain), now, rule.keepAlive);
      ChainPrefix(h, rule, chain, |chain|);
      assert chain[..|chain|] == chain;
      assert !Renames(e.call, rule.key) by { PrefixOrdered(h, rule, chain, 0, m); }
      hide Unbroken;
      UnbrokenIsHeld(h', rule, chain, e.at);
      StepHolds(Replay(h'), e, rule, LastAt(h', chain));
    }
  }

  ghost predicate Holds(st: TableState, rule: Rule, since: Time)
  {
    && rule.key in st.rules && st.rules[rule.key] == rule
    && rule.key in st.activity && since <= st.activity[rule.key]
  }

  lemma SaveHolds(st: TableState, e: Event, rule: Rule)
    requires e.call == CallSave(rule)
    ensures Holds(Step(st, e), rule, e.at)
  {
  }

  /** A call that does not rename the key keeps its live rule, and refreshes it if it is a refresh. */
  lemma StepHolds(st: TableState, e: Event, rule: Rule, since: Time)
    requires Holds(st, rule, since) && Within(since, e.at, rule.keepAlive) && since <= e.at
    requires !Renames(e.call, rule.key)
    ensures Holds(Step(st, e), rule, since)
    ensures Refreshes(e.call, rule) ==> Holds(Step(st, e), rule, e.at)
  {
    WithinMonotone(st.activity[rule.key], e.at, since, e.at, rule.keepAlive);
    LiveIff(st, rule.key, e.at);
    assert Live(st, rule.key, e.at);
  }

  /** The first k links are a chain of the history without its last event, if they do not use it. */
  lemma ChainPrefix(h: seq<Event>, rule: Rule, chain: seq<nat>, k: nat)
    requires Unbroken(h, rule, chain) && 0 < k <= |chain| && chain[k - 1] < |h| - 1
    ensures Unbroken(h[..|h| - 1], rule, chain[..k])
    ensures LastAt(h[..|h| - 1], chain[..k]) == h[chain[k - 1]].at
  {
    var h', c := h[..|h| - 1], chain[..k];
    forall j | 0 <= j < k ensures chain[j] < |h| - 1 { PrefixOrdered(h, rule, chain, j, k - 1); }
    forall j | 0 < j < |c| ensures Follows(h', rule, c[j - 1], c[j]) {
      assert Follows(h, rule, chain[j - 1], chain[j]);
    }
  }

  lemma {:induction false} PrefixOrdered(h: seq<Event>, rule: Rule, chain: seq<nat>, j: nat, k: nat)
    requires Unbroken(h, rule, chain) && j <= k < |chain|
    ensures chain[j] <= chain[k]
    decreases k - j
  {
    if j < k {
      PrefixOrdered(h, rule, chain, j, k - 1);
      assert Follows(h, rule, chain[k - 1], chain[k]);
    }
  }

  /** Over every history with a monotone clock, the table finds a rule exactly when an unbroken chain
      of refreshes since its last save reaches the present: no rule comes back after a gap, and none
      is lost without one. */
  lemma NoResurrection(h: seq<Event>, rule: Rule, now: Time)
    requires Ordered(h) && (h != [] ==> h[|h| - 1].at <= now)
    ensures var st := Replay(h);
            Live(st, rule.key, now) && st.rules[rule.key] == rule <==> KeptAlive(h, rule, now)
  {
    var st := Replay(h);
    LiveIff(st, rule.key, now);
    if Live(st, rule.key, now) && st.rules[rule.key] == rule {
      var chain := HeldIsUnbroken(h, rule.key);
      assert Unbroken(h, rule, chain) && Within(LastAt(h, chain), now, rule.keepAlive);
    }
    if KeptAlive(h, rule, now) {
      var chain :| Unbroken(h, rule, chain) && Within(LastAt(h, chain), now, rule.keepAlive);
      hide Unbroken;
      UnbrokenIsHeld(h, rule, chain, now);
      WithinMonotone(st.activity[rule.key], now, LastAt(h, chain), now, rule.keepAlive);
    }
  }
}
