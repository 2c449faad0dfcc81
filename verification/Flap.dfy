/** The sliding-window detector for flapping workers (internal/comrad/manager_worker_flapping.go):
    what the pruned event list and the suppression deadline say about the full history. */
module Flap {
  import opened Base
  import opened Model
  import opened Store

  datatype FlapConfig = FlapConfig(threshold: int, window: int, cooldown: int)

  const FIVE_MINUTES: int := 300_000_000_000

  function Threshold(cfg: FlapConfig): (r: int)
    ensures r > 0
  {
    if cfg.threshold <= 0 then 4 else cfg.threshold
  }

  function Window(cfg: FlapConfig): (r: int)
    ensures r > 0
  {
    if cfg.window <= 0 then FIVE_MINUTES else cfg.window
  }

  function Cooldown(cfg: FlapConfig): (r: int)
    ensures r > 0
  {
    if cfg.cooldown <= 0 then FIVE_MINUTES else cfg.cooldown
  }

  /** As configured where positive; or else four events within five minutes ban a node for five minutes. */
  lemma Defaults(cfg: FlapConfig)
    ensures cfg.threshold > 0 ==> Threshold(cfg) == cfg.threshold
    ensures cfg.window > 0 ==> Window(cfg) == cfg.window
    ensures cfg.cooldown > 0 ==> Cooldown(cfg) == cfg.cooldown
    ensures cfg.threshold <= 0 && cfg.window <= 0 && cfg.cooldown <= 0 ==>
              Threshold(cfg) == 4 && Window(cfg) == 300_000_000_000 && Cooldown(cfg) == 300_000_000_000
  {
  }

  // ---------- the detector ----------

  function Since(cutoff: Time): FlapEvent -> bool {
    (e: FlapEvent) => e.at >= cutoff
  }

  function Prune(events: seq<FlapEvent>, now: Time, cfg: FlapConfig): seq<FlapEvent> {
    Filter(events, Since(now - Window(cfg)))
  }

  /** `recordWorkerFlapEvent`. */
  function Recorded(node: Node, kind: string, now: Time, cfg: FlapConfig): Node {
    if kind == "" then node
    else
      var events := Prune(node.flapEvents, now, cfg) + [FlapEvent(kind, now)];
      if |events| >= Threshold(cfg) then
        node.(flapEvents := events, suppressed := true, suppressionReason := FAILURE_WORKER_FLAPPING,
              suppressionUntil := Some(now + Cooldown(cfg)))
      else node.(flapEvents := events)
  }

  predicate Suppressed(node: Node, now: Time) {
    node.suppressed && node.suppressionUntil.Some? && node.suppressionUntil.value > now
  }

  function Cleared(node: Node, now: Time): Node {
    if !node.suppressed || Suppressed(node, now) then node
    else node.(suppressed := false, suppressionReason := "", suppressionUntil := None)
  }

  function Maintained(node: Node, now: Time, cfg: FlapConfig): Node {
    Cleared(node.(flapEvents := Prune(node.flapEvents, now, cfg)), now)
  }

  function Maintenance(now: Time, cfg: FlapConfig): Node -> Node {
    (node: Node) => Maintained(node, now, cfg)
  }

  function MaintainAll(nodes: map<Id, Node>, now: Time, cfg: FlapConfig): map<Id, Node> {
    MapValues(nodes, Maintenance(now, cfg))
  }

  predicate Stale(node: Node, now: Time, cfg: FlapConfig) {
    || (node.suppressed && !Suppressed(node, now))
    || exists e :: e in node.flapEvents && e.at < now - Window(cfg)
  }

  predicate NeedsMaintenance(nodes: map<Id, Node>, now: Time, cfg: FlapConfig) {
    exists k :: k in nodes && Stale(nodes[k], now, cfg)
  }

  /** A worker registers again: the flap state of the stored node is copied, an expired
      suppression is cleared, and a reconnect is recorded when it applies. */
  function Reregistered(node: Node, existing: Node, reconnect: bool, now: Time, cfg: FlapConfig): Node {
    var merged := Cleared(node.(flapEvents := existing.flapEvents, suppressed := existing.suppressed,
                                suppressionReason := existing.suppressionReason,
                                suppressionUntil := existing.suppressionUntil), now);
    if reconnect then Recorded(merged, "reconnect", now, cfg) else merged
  }

  // ---------- the loops ----------

  /** `pruneWorkerFlapEvents` filters in place: kept events move to the front of the same array. */
  method PruneInPlace(events: array<FlapEvent>, length: nat, now: Time, cfg: FlapConfig) returns (kept: nat)
    requires length <= events.Length
    modifies events
    ensures kept <= length && events[..kept] == Prune(old(events[..length]), now, cfg)
    ensures events[length..] == old(events[length..])
  {
    var cutoff := now - Window(cfg);
    ghost var before, keep := events[..length], Since(cutoff);
    kept := 0;
    for i := 0 to length
      invariant kept <= i
      invariant forall j :: i <= j < length ==> events[j] == before[j]
      invariant forall j :: length <= j < events.Length ==> events[j] == old(events[j])
      invariant events[..kept] + Filter(before[i..], keep) == Filter(before, keep)
    {
      ghost var front := events[..kept];
      FilterStep(before, keep, i, front);
      if !(events[i].at < cutoff) {
        events[kept] := events[i];
        kept := kept + 1;
        assert events[..kept] == front + [before[i]];
      }
    }
    assert before[length..] == [] && events[..kept] + [] == events[..kept];
  }

  method NeedsWorkerFlapMaintenance(nodes: map<Id, Node>, now: Time, cfg: FlapConfig) returns (needed: bool)
    ensures needed <==> NeedsMaintenance(nodes, now, cfg)
  {
    var cutoff := now - Window(cfg);
    var todo := nodes.Keys;
    while todo != {}
      invariant todo <= nodes.Keys
      invariant forall k :: k in nodes && k !in todo ==> !Stale(nodes[k], now, cfg)
      decreases |todo|
    {
      var k :| k in todo;
      var node := nodes[k];
      todo := todo - {k};
      if node.suppressed && !Suppressed(node, now) {
        return true;
      }
      for i := 0 to |node.flapEvents|
        invariant forall j :: 0 <= j < i ==> node.flapEvents[j].at >= cutoff
      {
        if node.flapEvents[i].at < cutoff {
          assert node.flapEvents[i] in node.flapEvents;
          return true;
        }
      }
    }
    return false;
  }

  method ClearExpiredWorkerSuppressions(store: Store, now: Time, cfg: FlapConfig)
    modifies store
    ensures store.db == old(store.db).(nodes := MaintainAll(old(store.db).nodes, now, cfg))
  {
    var needed := NeedsWorkerFlapMaintenance(store.db.nodes, now, cfg);
    if !needed {
      MaintenanceNeededOnlyIfStale(store.db.nodes, now, cfg);
      return;
    }
    ghost var before, maintain := store.db, Maintenance(now, cfg);
    var todo := store.db.nodes.Keys;
    while todo != {}
      invariant store.db == before.(nodes := store.db.nodes)
      invariant MappedSoFar(store.db.nodes, before.nodes, maintain, todo)
      decreases |todo|
    {
      var k :| k in todo;
      MapNext(store.db.nodes, before.nodes, maintain, todo, k);
      todo := todo - {k};
      store.db := store.db.(nodes := store.db.nodes[k := Maintained(store.db.nodes[k], now, cfg)]);
    }
    MapDone(store.db.nodes, before.nodes, maintain);
  }

  // ---------- maintenance runs exactly when it has something to do ----------

  lemma {:induction false} FilterShrinks<T>(s: seq<T>, p: T -> bool)
    ensures |Filter(s, p)| <= |s|
    ensures Filter(s, p) == s <==> forall x :: x in s ==> p(x)
  {
    if s != [] {
      FilterShrinks(s[1..], p);
      FilterCons(s[0], s[1..], p);
      assert s == [s[0]] + s[1..];
      if Filter(s, p) == s {
        assert p(s[0]) by {
          assert |Filter(s[1..], p)| < |s|;
        }
        assert Filter(s[1..], p) == s[1..];
      }
    }
  }

  lemma MaintainedChanges(node: Node, now: Time, cfg: FlapConfig)
    ensures Maintained(node, now, cfg) != node <==> Stale(node, now, cfg)
  {
    FilterShrinks(node.flapEvents, Since(now - Window(cfg)));
  }

  /** The cheap check says "nothing to do" exactly when maintenance would change nothing. */
  lemma MaintenanceNeededOnlyIfStale(nodes: map<Id, Node>, now: Time, cfg: FlapConfig)
    ensures NeedsMaintenance(nodes, now, cfg) <==> MaintainAll(nodes, now, cfg) != nodes
  {
    forall k | k in nodes ensures Maintained(nodes[k], now, cfg) != nodes[k] <==> Stale(nodes[k], now, cfg) {
      MaintainedChanges(nodes[k], now, cfg);
    }
    if !NeedsMaintenance(nodes, now, cfg) {
      assert MaintainAll(nodes, now, cfg) == nodes;
    }
  }

  // ---------- refinement of the full history ----------

  function Within(from: Time, to: Time): FlapEvent -> bool {
    (e: FlapEvent) => from <= e.at <= to
  }

  /** The times `s` at which at least `threshold` events had happened within the window. */
  ghost function Bursts(history: seq<FlapEvent>, cfg: FlapConfig): Time -> bool {
    (s: Time) => |Filter(history, Within(s - Window(cfg), s))| >= Threshold(cfg)
  }

  /** What the full history says: some event completed a burst less than a cooldown ago. */
  ghost predicate ShouldSuppress(history: seq<FlapEvent>, t: Time, cfg: FlapConfig) {
    exists e :: e in history && Bursts(history, cfg)(e.at) && e.at + Cooldown(cfg) > t
  }

  ghost predicate Ordered(history: seq<FlapEvent>, clock: Time) {
    forall e :: e in history ==> e.at <= clock
  }

  /** The node's flap fields are an abstraction of the history up to `clock`. */
  ghost predicate Refines(node: Node, history: seq<FlapEvent>, clock: Time, cfg: FlapConfig) {
    && Ordered(history, clock)
    && (exists cutoff :: cutoff <= clock - Window(cfg) && node.flapEvents == Filter(history, Since(cutoff)))
    && Accounts(node, history, Bursts(history, cfg), clock, Cooldown(cfg))
  }

  /** A suppression ends a cooldown after some burst, and no burst outlasts it. */
  ghost predicate Accounts(node: Node, history: seq<FlapEvent>, burst: Time -> bool, clock: Time, cooldown: int) {
    && (node.suppressed ==>
          node.suppressionUntil.Some? && Justified(history, burst, node.suppressionUntil.value, cooldown))
    && (forall e :: e in history && burst(e.at) && e.at + cooldown > clock ==>
          node.suppressed && node.suppressionUntil.Some? && node.suppressionUntil.value >= e.at + cooldown)
  }

  ghost predicate Justified(history: seq<FlapEvent>, burst: Time -> bool, until: Time, cooldown: int) {
    exists e :: e in history && burst(e.at) && until == e.at + cooldown
  }

  lemma {:induction false} FilterFilter<T>(s: seq<T>, p: T -> bool, q: T -> bool)
    requires forall x :: q(x) ==> p(x)
    ensures Filter(Filter(s, p), q) == Filter(s, q)
  {
    if s != [] {
      var x, rest := s[0], s[1..];
      FilterFilter(rest, p, q);
      FilterCons(x, rest, p);
      FilterCons(x, rest, q);
      FilterCons(x, Filter(rest, p), q);
      assert s == [x] + rest;
    }
  }

  lemma {:induction false} FilterSame<T>(s: seq<T>, p: T -> bool, q: T -> bool)
    requires forall x :: x in s ==> p(x) == q(x)
    ensures Filter(s, p) == Filter(s, q)
  {
    if s != [] {
      FilterSame(s[1..], p, q);
    }
  }

  /** The pruned list is the full history restricted to the window. */
  lemma PruneIsWindow(node: Node, history: seq<FlapEvent>, clock: Time, now: Time, cfg: FlapConfig)
    requires Refines(node, history, clock, cfg) && clock <= now
    ensures Prune(node.flapEvents, now, cfg) == Filter(history, Since(now - Window(cfg)))
  {
    var cutoff :| cutoff <= clock - Window(cfg) && node.flapEvents == Filter(history, Since(cutoff));
    FilterFilter(history, Since(cutoff), Since(now - Window(cfg)));
  }

  lemma AppendBursts(history: seq<FlapEvent>, e: FlapEvent, s: Time, cfg: FlapConfig)
    requires s < e.at
    ensures Bursts(history + [e], cfg)(s) == Bursts(history, cfg)(s)
  {
    var p := Within(s - Window(cfg), s);
    FilterConcat(history, [e], p);
    FilterCons(e, [], p);
    assert Filter(history, p) + [] == Filter(history, p);
  }

  lemma RecordedWindow(node: Node, history: seq<FlapEvent>, clock: Time, kind: string, now: Time, cfg: FlapConfig)
    requires Refines(node, history, clock, cfg) && clock <= now && kind != ""
    ensures var history' := history + [FlapEvent(kind, now)];
            && Ordered(history', now)
            && Recorded(node, kind, now, cfg).flapEvents == Filter(history', Since(now - Window(cfg)))
            && (Bursts(history', cfg)(now) <==> |Filter(history', Since(now - Window(cfg)))| >= Threshold(cfg))
  {
    var e, cutoff := FlapEvent(kind, now), now - Window(cfg);
    var history' := history + [e];
    PruneIsWindow(node, history, clock, now, cfg);
    FilterConcat(history, [e], Since(cutoff));
    FilterCons(e, [], Since(cutoff));
    assert [e] + [] == [e];
    forall x | x in history' ensures x.at <= now && Since(cutoff)(x) == Within(cutoff, now)(x) {
    }
    FilterSame(history', Since(cutoff), Within(cutoff, now));
  }

  lemma SuppressionStep(
      node: Node, node': Node, history: seq<FlapEvent>, e: FlapEvent, burst: Time -> bool, burst': Time -> bool,
      clock: Time, cooldown: int)
    requires Accounts(node, history, burst, clock, cooldown) && Ordered(history, clock) && clock <= e.at && cooldown > 0
    requires forall s :: s < e.at ==> burst'(s) == burst(s)
    requires if burst'(e.at) then node'.suppressed && node'.suppressionUntil == Some(e.at + cooldown)
             else node'.suppressed == node.suppressed && node'.suppressionUntil == node.suppressionUntil
    requires !burst'(e.at) ==> !burst(e.at)
    ensures Accounts(node', history + [e], burst', e.at, cooldown)
  {
    if burst'(e.at) {
      assert e in history + [e];
    } else if node.suppressed {
      var x :| x in history && burst(x.at) && node.suppressionUntil.value == x.at + cooldown;
      assert x in history + [e] && burst'(x.at);
    }
  }

  /** Appending an event only adds to the bursts. */
  lemma BurstsGrow(history: seq<FlapEvent>, e: FlapEvent, s: Time, cfg: FlapConfig)
    ensures Bursts(history, cfg)(s) ==> Bursts(history + [e], cfg)(s)
  {
    FilterConcat(history, [e], Within(s - Window(cfg), s));
  }

  /** Recording an event keeps the refinement. */
  lemma RecordRefines(node: Node, history: seq<FlapEvent>, clock: Time, kind: string, now: Time, cfg: FlapConfig)
    requires Refines(node, history, clock, cfg) && clock <= now && kind != ""
    ensures Refines(Recorded(node, kind, now, cfg), history + [FlapEvent(kind, now)], now, cfg)
  {
    var e := FlapEvent(kind, now);
    RecordedWindow(node, history, clock, kind, now, cfg);
    forall s | s < now ensures Bursts(history + [e], cfg)(s) == Bursts(history, cfg)(s) {
      AppendBursts(history, e, s, cfg);
    }
    BurstsGrow(history, e, now, cfg);
    SuppressionStep(node, Recorded(node, kind, now, cfg), history, e, Bursts(history, cfg), Bursts(history + [e], cfg),
                    clock, Cooldown(cfg));
  }

  /** So does clearing an expired suppression, with or without pruning. */
  lemma MaintainRefines(node: Node, history: seq<FlapEvent>, clock: Time, now: Time, cfg: FlapConfig)
    requires Refines(node, history, clock, cfg) && clock <= now
    ensures Refines(Cleared(node, now), history, now, cfg)
    ensures Refines(Maintained(node, now, cfg), history, now, cfg)
    ensures Maintained(node, now, cfg).flapEvents == Filter(history, Since(now - Window(cfg)))
  {
    PruneIsWindow(node, history, clock, now, cfg);
    var cutoff :| cutoff <= clock - Window(cfg) && node.flapEvents == Filter(history, Since(cutoff));
    assert Cleared(node, now).flapEvents == Filter(history, Since(cutoff));
  }

  /** The node is suppressed exactly when the full history says so. */
  lemma SuppressionIsExact(node: Node, history: seq<FlapEvent>, clock: Time, t: Time, cfg: FlapConfig)
    requires Refines(node, history, clock, cfg) && clock <= t
    ensures Suppressed(node, t) <==> ShouldSuppress(history, t, cfg)
  {
    if Suppressed(node, t) {
      var e :| e in history && Bursts(history, cfg)(e.at) && node.suppressionUntil.value == e.at + Cooldown(cfg);
    }
  }

  // ---------- over whole runs ----------

  datatype Step = Record(kind: string) | Maintain | Reregister(node: Node, reconnect: bool)

  function After(node: Node, step: Step, now: Time, cfg: FlapConfig): Node {
    match step
    case Record(kind) => Recorded(node, kind, now, cfg)
    case Maintain => Maintained(node, now, cfg)
    case Reregister(incoming, reconnect) => Reregistered(incoming, node, reconnect, now, cfg)
  }

  /** The event a step adds to the full history. */
  function Observed(step: Step, now: Time): seq<FlapEvent> {
    match step
    case Record(kind) => if kind == "" then [] else [FlapEvent(kind, now)]
    case Maintain => []
    case Reregister(_, reconnect) => if reconnect then [FlapEvent("reconnect", now)] else []
  }

  datatype Timed = Timed(now: Time, step: Step)

  ghost predicate InOrder(run: seq<Timed>, clock: Time) {
    run == [] || (clock <= run[0].now && InOrder(run[1..], run[0].now))
  }

  function RunNode(node: Node, run: seq<Timed>, cfg: FlapConfig): Node
    decreases |run|
  {
    if run == [] then node else RunNode(After(node, run[0].step, run[0].now, cfg), run[1..], cfg)
  }

  function RunHistory(history: seq<FlapEvent>, run: seq<Timed>): seq<FlapEvent>
    decreases |run|
  {
    if run == [] then history else RunHistory(history + Observed(run[0].step, run[0].now), run[1..])
  }

  function RunClock(clock: Time, run: seq<Timed>): Time
    decreases |run|
  {
    if run == [] then clock else RunClock(run[0].now, run[1..])
  }

  lemma RefinesLater(node: Node, history: seq<FlapEvent>, clock: Time, now: Time, cfg: FlapConfig)
    requires Refines(node, history, clock, cfg) && clock <= now
    ensures Refines(node, history, now, cfg)
  {
  }

  lemma RefinesCopied(node: Node, other: Node, history: seq<FlapEvent>, clock: Time, cfg: FlapConfig)
    requires Refines(node, history, clock, cfg) && other.flapEvents == node.flapEvents
    requires other.suppressed == node.suppressed && other.suppressionUntil == node.suppressionUntil
    ensures Refines(other, history, clock, cfg)
  {
  }

  lemma StepRefines(node: Node, history: seq<FlapEvent>, clock: Time, step: Step, now: Time, cfg: FlapConfig)
    requires Refines(node, history, clock, cfg) && clock <= now
    ensures Refines(After(node, step, now, cfg), history + Observed(step, now), now, cfg)
  {
    assert history + [] == history;
    match step
    case Record(kind) =>
      if kind == "" {
        RefinesLater(node, history, clock, now, cfg);
      } else {
        RecordRefines(node, history, clock, kind, now, cfg);
      }
    case Maintain => MaintainRefines(node, history, clock, now, cfg);
    case Reregister(incoming, reconnect) =>
      var copied := incoming.(flapEvents := node.flapEvents, suppressed := node.suppressed,
                           suppressionReason := node.suppressionReason, suppressionUntil := node.suppressionUntil);
      RefinesCopied(node, copied, history, clock, cfg);
      MaintainRefines(copied, history, clock, now, cfg);
      if reconnect {
        RecordRefines(Cleared(copied, now), history, now, "reconnect", now, cfg);
      }
  }

  lemma {:induction false} RunRefines(
      node: Node, history: seq<FlapEvent>, clock: Time, run: seq<Timed>, cfg: FlapConfig)
    requires Refines(node, history, clock, cfg) && InOrder(run, clock)
    ensures Refines(RunNode(node, run, cfg), RunHistory(history, run), RunClock(clock, run), cfg)
    decreases |run|
  {
    if run != [] {
      StepRefines(node, history, clock, run[0].step, run[0].now, cfg);
      RunRefines(After(node, run[0].step, run[0].now, cfg), history + Observed(run[0].step, run[0].now), run[0].now,
                 run[1..], cfg);
    }
  }

  /** From a node without flap state, over any run with ordered clock readings: the pruned
      list is the history within the window, and suppression is what the history says. */
  lemma DetectorRefinesHistory(node: Node, run: seq<Timed>, clock: Time, t: Time, cfg: FlapConfig)
    requires node.flapEvents == [] && !node.suppressed && InOrder(run, clock) && RunClock(clock, run) <= t
    ensures var after, history := RunNode(node, run, cfg), RunHistory([], run);
            && Prune(after.flapEvents, t, cfg) == Filter(history, Since(t - Window(cfg)))
            && (Suppressed(after, t) <==> ShouldSuppress(history, t, cfg))
  {
    assert node.flapEvents == Filter([], Since(clock - Window(cfg)));
    assert Refines(node, [], clock, cfg);
    RunRefines(node, [], clock, run, cfg);
    PruneIsWindow(RunNode(node, run, cfg), RunHistory([], run), RunClock(clock, run), t, cfg);
    SuppressionIsExact(RunNode(node, run, cfg), RunHistory([], run), RunClock(clock, run), t, cfg);
  }
}
