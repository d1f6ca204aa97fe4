/** The keep-alive service of a route group against the expiry of the rules it keeps in use.  The
    service ticks every half keep-alive period and stays silent if data was written less than one
    tick ago; keep-alives themselves do not count as data. */
module KeepAlives {
  import opened Routing
  import opened Table
  import opened TableHistory

  const DEFAULT_ROUTE_KEEP_ALIVE: Duration := 30 * SECOND
  const KEEP_ALIVE_INTERVAL: Duration := DEFAULT_ROUTE_KEEP_ALIVE / 2

  /** keepAliveServiceFn sends unless data went out less than an interval ago. */
  predicate Due(lastSent: Time, now: Time, interval: Duration) { !(Since(now, lastSent) < interval) }

  /** That is exactly when the last data is an interval or more ago; in particular the service stays silent
      right after a Write. */
  lemma DueIff(lastSent: Time, now: Time, interval: Duration)
    ensures Due(lastSent, now, interval) <==> now - lastSent >= interval || interval == -0x8000_0000_0000_0000
  {
  }

  lemma Periods()
    ensures DEFAULT_ROUTE_KEEP_ALIVE == 30_000_000_000 && 2 * KEEP_ALIVE_INTERVAL == 30_000_000_000
  {
  }

  /** `sends` are the times at which packets of any kind went out on the forward rule, after the time
      at which the rule was saved. */
  datatype Clock = Clock(now: Time, lastSent: Time, nextTick: Time, sends: seq<Time>)

  datatype Act = WriteAt(t: Time) | ServiceAt(t: Time) | Tick

  predicate CanAct(c: Clock, a: Act)
  {
    match a
    case WriteAt(t) => c.now <= t <= c.nextTick
    case ServiceAt(t) => c.now <= t <= c.nextTick
    case Tick => true
  }

  /** Writes set lastSent; pings, pongs and keep-alives do not. */
  function Next(c: Clock, a: Act): Clock
  {
    match a
    case WriteAt(t) => c.(now := t, lastSent := t, sends := c.sends + [t])
    case ServiceAt(t) => c.(now := t, sends := c.sends + [t])
    case Tick =>
      var sends := if Due(c.lastSent, c.nextTick, KEEP_ALIVE_INTERVAL) then c.sends + [c.nextTick] else c.sends;
      c.(now := c.nextTick, nextTick := c.nextTick + KEEP_ALIVE_INTERVAL, sends := sends)
  }

  /** A tick sends a keep-alive if and only if no data went out in the last 15 s. */
  lemma TickSends(c: Clock)
    ensures Next(c, Tick).sends == if c.nextTick - c.lastSent >= 15_000_000_000 then c.sends + [c.nextTick] else c.sends
    ensures Next(c, Tick).nextTick == c.nextTick + 15_000_000_000 && Next(c, Tick).lastSent == c.lastSent
  {
    DueIff(c.lastSent, c.nextTick, KEEP_ALIVE_INTERVAL);
    Periods();
  }

  /** The rule is saved, and the service starts, less than an interval later. */
  ghost predicate Starts(c: Clock, saved: Time)
  {
    && c.sends == [saved] && c.lastSent <= saved <= c.now
    && c.now + KEEP_ALIVE_INTERVAL == c.nextTick < saved + DEFAULT_ROUTE_KEEP_ALIVE
  }

  ghost predicate Runs(c: Clock, acts: seq<Act>, c': Clock)
    decreases |acts|
  {
    if acts == [] then c' == c else CanAct(c, acts[0]) && Runs(Next(c, acts[0]), acts[1..], c')
  }

  /** Times that rise with gaps below the keep-alive period. */
  ghost predicate Dense(ts: seq<Time>)
  {
    ts != [] && forall i :: 0 < i < |ts| ==> Near(ts[i - 1], ts[i])
  }

  predicate Near(a: Time, b: Time) { a <= b < a + DEFAULT_ROUTE_KEEP_ALIVE }

  function Last(ts: seq<Time>): Time requires ts != [] { ts[|ts| - 1] }

  ghost predicate Steady(c: Clock)
  {
    && Dense(c.sends) && c.lastSent <= Last(c.sends) <= c.now
    && c.nextTick - KEEP_ALIVE_INTERVAL <= c.now <= c.nextTick < Last(c.sends) + DEFAULT_ROUTE_KEEP_ALIVE
  }

  lemma DenseMore(ts: seq<Time>, t: Time)
    requires Dense(ts) && Near(Last(ts), t)
    ensures Dense(ts + [t])
  {
    var ts' := ts + [t];
    forall i | 0 < i < |ts'| ensures Near(ts'[i - 1], ts'[i]) {
      if i < |ts| { assert Near(ts[i - 1], ts[i]); }
    }
  }

  lemma StepSteady(c: Clock, a: Act)
    requires Steady(c) && CanAct(c, a)
    ensures Steady(Next(c, a)) && c.sends <= Next(c, a).sends
  {
    match a
    case WriteAt(t) => DenseMore(c.sends, t);
    case ServiceAt(t) => DenseMore(c.sends, t);
    case Tick => DenseMore(c.sends, c.nextTick);
  }

  /** For every schedule of writes and other packets, consecutive sends are less than the keep-alive
      period apart, and so is the last one from the next tick; the first comes by the first tick. */
  lemma {:induction false} SendsAreDense(c: Clock, acts: seq<Act>, c': Clock)
    requires Steady(c) && Runs(c, acts, c')
    ensures Steady(c') && c.sends <= c'.sends
    ensures |c'.sends| > |c.sends| ==> c'.sends[|c.sends|] < Last(c.sends) + DEFAULT_ROUTE_KEEP_ALIVE
    decreases |acts|
  {
    if acts != [] {
      StepSteady(c, acts[0]);
      SendsAreDense(Next(c, acts[0]), acts[1..], c');
      assert |c'.sends| > |c.sends| ==> Near(c'.sends[|c.sends| - 1], c'.sends[|c.sends|]);
    }
  }

  lemma StartsSteady(c: Clock, saved: Time)
    requires Starts(c, saved)
    ensures Steady(c)
  {
  }

  // ---- the rules on the way ----

  /** In the history h of a visor's table, `at` lists the save of the rule and its use by each packet
      sent, which arrives `delay` after it was sent.  The save comes in time for the first tick. */
  ghost predicate Used(h: seq<Event>, rule: Rule, c: Clock, delay: nat, firstTick: Time, at: seq<nat>)
  {
    && Ordered(h) && |at| == |c.sends| > 0 && (forall j :: 0 <= j < |at| ==> at[j] < |h|)
    && h[at[0]].call == CallSave(rule)
    && (forall i :: at[0] < i < |h| ==> !Renames(h[i].call, rule.key))
    && (forall j :: 0 < j < |at| ==>
          at[j - 1] < at[j] && Refreshes(h[at[j]].call, rule) && h[at[j]].at == c.sends[j] + delay)
    && firstTick + delay <= h[at[0]].at + DEFAULT_ROUTE_KEEP_ALIVE
  }

  /** The first packet leaves by the first tick. */
  ghost predicate Prompt(c: Clock, firstTick: Time)
  {
    if |c.sends| <= 1 then c.nextTick <= firstTick else c.sends[1] <= firstTick
  }

  lemma {:induction false} RunPrompt(c: Clock, acts: seq<Act>, c': Clock, firstTick: Time)
    requires Steady(c) && Prompt(c, firstTick) && Runs(c, acts, c')
    requires |c.sends| == 1 ==> c.lastSent + KEEP_ALIVE_INTERVAL <= c.nextTick
    ensures Steady(c') && Prompt(c', firstTick)
    decreases |acts|
  {
    if acts != [] {
      StepSteady(c, acts[0]);
      RunPrompt(Next(c, acts[0]), acts[1..], c', firstTick);
    }
  }

  lemma UsedUnbroken(h: seq<Event>, rule: Rule, c: Clock, delay: nat, firstTick: Time, at: seq<nat>)
    requires Steady(c) && Prompt(c, firstTick) && Used(h, rule, c, delay, firstTick, at)
    requires rule.keepAlive == DEFAULT_ROUTE_KEEP_ALIVE
    ensures Unbroken(h, rule, at)
  {
    forall j | 0 < j < |at| ensures Follows(h, rule, at[j - 1], at[j]) {
      assert Near(c.sends[j - 1], c.sends[j]);
      assert h[at[j - 1]].at <= h[at[j]].at;
    }
  }

  /** Over every run of the service, no rule that its packets use ever times out: not the sender's
      forward rule (delay 0) and, with a constant delay, none downstream.  It is live at every moment
      up to the arrival of whatever the next tick may send. */
  lemma NeverTimesOut(c0: Clock, saved: Time, acts: seq<Act>, c: Clock,
                      h: seq<Event>, rule: Rule, delay: nat, at: seq<nat>, now: Time)
    requires Starts(c0, saved) && Runs(c0, acts, c)
    requires Used(h, rule, c, delay, c0.nextTick, at) && rule.keepAlive == DEFAULT_ROUTE_KEEP_ALIVE
    requires h[|h| - 1].at <= now <= c.nextTick + delay
    ensures Live(Replay(h), rule.key, now) && Replay(h).rules[rule.key] == rule
  {
    StartsSteady(c0, saved);
    RunPrompt(c0, acts, c, c0.nextTick);
    UsedUnbroken(h, rule, c, delay, c0.nextTick, at);
    assert Within(LastAt(h, at), now, rule.keepAlive);
    assert KeptAlive(h, rule, now);
    NoResurrection(h, rule, now);
  }
}
