/** The rules that a setup hands out stay alive as long as the route is in use. */
module SetupKeepAlive {
  import opened Routing
  import opened Setup
  import opened SetupProofs
  import opened Table
  import opened TableHistory
  import opened KeepAlives

  /** Every handed-out rule has the keep-alive of the request. */
  lemma HandedOutKeep(bi: BiRoute, f: seq<RouteID>, r: seq<RouteID>, v: PubKey, rule: Rule)
    requires bi.Check() == CheckOk && |f| == |bi.forward| + 1 && |r| == |bi.reverse| + 1
    requires EdgeReady(BiRules(bi, f, r), bi.desc.Src()) && EdgeReady(BiRules(bi, f, r), bi.desc.Dst())
    requires (v, rule) in HandedOut(bi, BiRules(bi, f, r))
    ensures rule.keepAlive == bi.keepAlive
  {
    BiRulesKeep(bi, f, r);
    hide BiRules;
  }

  /** With the default keep-alive of 30 s, no rule of a setup ever times out while the keep-alive service of
      its sender runs: whatever the sender writes, at the sender and at every visor after a constant
      delay. */
  lemma HandedOutNeverTimesOut(bi: BiRoute, f: seq<RouteID>, r: seq<RouteID>, v: PubKey, rule: Rule,
                               c0: Clock, saved: Time, acts: seq<Act>, c: Clock,
                               h: seq<Event>, delay: nat, at: seq<nat>, now: Time)
    requires bi.Check() == CheckOk && |f| == |bi.forward| + 1 && |r| == |bi.reverse| + 1
    requires EdgeReady(BiRules(bi, f, r), bi.desc.Src()) && EdgeReady(BiRules(bi, f, r), bi.desc.Dst())
    requires (v, rule) in HandedOut(bi, BiRules(bi, f, r)) && bi.keepAlive == 30_000_000_000
    requires Starts(c0, saved) && Runs(c0, acts, c) && Used(h, rule, c, delay, c0.nextTick, at)
    requires h[|h| - 1].at <= now <= c.nextTick + delay
    ensures Live(Replay(h), rule.key, now) && Replay(h).rules[rule.key] == rule
  {
    hide BiRules, HandedOut;
    HandedOutKeep(bi, f, r, v, rule);
    NeverTimesOut(c0, saved, acts, c, h, rule, delay, at, now);
  }
}
