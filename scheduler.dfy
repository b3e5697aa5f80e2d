/** The handler: for every region, every instance and every tag whose key
    starts with the custom tag name, decide start, stop or nothing, collect
    the region's start and stop lists, and issue one batch call per
    non-empty list. The clock, the inventory and the provider's failures
    are inputs; the batch calls and the metric points are outputs. */
module Scheduler {
  import opened Text
  import opened Window
  import opened Days
  import opened TagParser

  datatype Option<T> = None | Some(value: T)

  /** The instance's `state['Name']`: "running" is `Running`, "stopped" is
      `Stopped`, and every other name ("pending", "stopping", ...) is
      `Other(name)`, which therefore never carries "running" or "stopped". */
  datatype InstanceState = Running | Stopped | Other(name: string)

  /** The reading of a state name that the constructors above stand for. */
  function StateOf(name: string): (st: InstanceState)
    ensures st == Running <==> name == "running"
    ensures st == Stopped <==> name == "stopped"
    ensures st.Other? ==> st.name != "running" && st.name != "stopped"
  {
    if name == "running" then Running else if name == "stopped" then Stopped else Other(name)
  }

  datatype Tag = Tag(key: string, value: string)

  /** An instance as the inventory lists it; `tags` is None when the
      instance has no tags at all. */
  datatype Instance = Instance(id: string, state: InstanceState, tags: Option<seq<Tag>>)

  datatype Action = StartAction | StopAction

  /** One metric point: the instance id is the metric name, the value 1 or 0. */
  datatype Metric = Metric(region: string, instanceId: string, value: int)

  /** One batch `start()` or `stop()` of the listed instances in a region. */
  datatype BatchCall = BatchCall(region: string, action: Action, ids: seq<string>)

  /** One region as the handler meets it: the clock it reads there, the
      instances (None when listing them raised) and whether the batch
      start call raises. */
  datatype RegionInput = RegionInput(
    name: string,
    clock: Clock,
    inventory: Option<seq<Instance>>,
    startCallFails: bool)

  /** What a stretch of tags, instances or regions adds to the start list,
      the stop list and the metric log. */
  datatype Decisions = Decisions(starts: seq<string>, stops: seq<string>, metrics: seq<Metric>)
  {
    function Then(next: Decisions): Decisions
    {
      Decisions(starts + next.starts, stops + next.stops, metrics + next.metrics)
    }

    function Ids(a: Action): seq<string>
    {
      if a == StartAction then starts else stops
    }
  }

  const NoDecisions := Decisions([], [], [])

  lemma ThenAssociative(x: Decisions, y: Decisions, z: Decisions)
    ensures x.Then(y).Then(z) == x.Then(y.Then(z))
  {
    assert (x.starts + y.starts) + z.starts == x.starts + (y.starts + z.starts);
    assert (x.stops + y.stops) + z.stops == x.stops + (y.stops + z.stops);
    assert (x.metrics + y.metrics) + z.metrics == x.metrics + (y.metrics + z.metrics);
  }

  lemma ThenNothing(x: Decisions)
    ensures x.Then(NoDecisions) == x
  {
    assert x.starts + [] == x.starts && x.stops + [] == x.stops && x.metrics + [] == x.metrics;
  }

  /** Following with metric points alone leaves both lists as they were. */
  lemma ThenMetricsOnly(x: Decisions, y: Decisions)
    requires y.starts == [] && y.stops == []
    ensures x.Then(y) == Decisions(x.starts, x.stops, x.metrics + y.metrics)
  {
    assert x.starts + [] == x.starts && x.stops + [] == x.stops;
  }

  /** The outputs of a run: the batch calls in order and the metric points in order. */
  datatype RunResult = RunResult(calls: seq<BatchCall>, metrics: seq<Metric>)
  {
    function Then(next: RunResult): RunResult
    {
      RunResult(calls + next.calls, metrics + next.metrics)
    }
  }

  lemma RunThenAssociative(x: RunResult, y: RunResult, z: RunResult)
    ensures x.Then(y).Then(z) == x.Then(y.Then(z))
  {
    assert (x.calls + y.calls) + z.calls == x.calls + (y.calls + z.calls);
    assert (x.metrics + y.metrics) + z.metrics == x.metrics + (y.metrics + z.metrics);
  }

  /** `key[:len(customTagName)] == customTagName`, with Python's clamped slice. */
  predicate KeyMatches(key: string, customTagName: string)
  {
    var n := if |customTagName| <= |key| then |customTagName| else |key|;
    key[..n] == customTagName
  }

  /** The clamped slice test is exactly "the custom tag name is a prefix of the key". */
  lemma KeyMatchesIsPrefix(key: string, customTagName: string)
    ensures KeyMatches(key, customTagName) <==> customTagName <= key
  {
    if |key| < |customTagName| {
      assert |key[..|key|]| < |customTagName|;
    }
  }

  predicate MetricsEnabled(d: Defaults)
  {
    Lower(d.cloudWatchMetrics) == "enabled"
  }

  function TagsOf(inst: Instance): seq<Tag>
  {
    match inst.tags
    case None => []
    case Some(ts) => ts
  }

  /** The decision rule for one tag: the tag's key matches, the trigger time
      for the action (start time or stop time) is in the window, today is an
      active day, and the instance is in the state the action leaves
      (stopped for a start, running for a stop). */
  predicate Wants(a: Action, inst: Instance, tag: Tag, c: Clock, d: Defaults)
  {
    var s := Resolve(Split(tag.value, ';'), d);
    KeyMatches(tag.key, d.customTagName) &&
    ActiveDay(s.daysActive, c.nowDay) &&
    match a
    case StartAction => InWindow(s.startTime, c) && inst.state == Stopped
    case StopAction => InWindow(s.stopTime, c) && inst.state == Running
  }

  /** The current-state point: 1 for running, 0 for stopped, none otherwise. */
  function StateMetrics(region: string, inst: Instance): seq<Metric>
  {
    match inst.state
    case Running => [Metric(region, inst.id, 1)]
    case Stopped => [Metric(region, inst.id, 0)]
    case Other(_) => []
  }

  /** What the decision block adds for a matching tag, given whether the
      rule asks for a start and for a stop and the lower-cased metrics setting. */
  function DecisionStep(region: string, inst: Instance, start: bool, stop: bool, createMetrics: string): Decisions
  {
    Decisions(
      if start then [inst.id] else [],
      if stop then [inst.id] else [],
      if createMetrics == "enabled" then
        (if start then [Metric(region, inst.id, 1)] else []) + (if stop then [Metric(region, inst.id, 0)] else [])
      else [])
  }

  /** The current-state point of a matching tag, when metrics are on. */
  function StateStep(region: string, inst: Instance, createMetrics: string): Decisions
  {
    Decisions([], [], if createMetrics == "enabled" then StateMetrics(region, inst) else [])
  }

  /** What one tag of one instance adds: its decisions and metric points. */
  function TagStep(region: string, inst: Instance, tag: Tag, c: Clock, d: Defaults): Decisions
  {
    if !KeyMatches(tag.key, d.customTagName) then NoDecisions
    else
      var createMetrics := Lower(d.cloudWatchMetrics);
      StateStep(region, inst, createMetrics).Then(
        DecisionStep(region, inst, Wants(StartAction, inst, tag, c, d), Wants(StopAction, inst, tag, c, d), createMetrics))
  }

  /** A matching tag's step read off its resolved schedule and day verdict. */
  lemma TagStepResolved(region: string, inst: Instance, tag: Tag, c: Clock, d: Defaults, s: Schedule, active: bool)
    requires KeyMatches(tag.key, d.customTagName)
    requires s == Resolve(Split(tag.value, ';'), d) && active == ActiveDay(s.daysActive, c.nowDay)
    ensures TagStep(region, inst, tag, c, d) ==
      StateStep(region, inst, Lower(d.cloudWatchMetrics)).Then(DecisionStep(region, inst,
        InWindow(s.startTime, c) && active && inst.state == Stopped,
        InWindow(s.stopTime, c) && active && inst.state == Running,
        Lower(d.cloudWatchMetrics)))
  {
  }

  /** A matching tag's contribution, for any verdicts that never ask for
      both actions: the id on a list exactly when asked for, and at most two
      0/1 points about this instance, none unless metrics are enabled. */
  lemma StepShape(region: string, inst: Instance, start: bool, stop: bool, createMetrics: string)
    requires !(start && stop)
    ensures var r := StateStep(region, inst, createMetrics).Then(DecisionStep(region, inst, start, stop, createMetrics));
      && (forall x :: x in r.starts <==> x == inst.id && start)
      && (forall x :: x in r.stops <==> x == inst.id && stop)
      && |r.starts| <= 1 && |r.stops| <= 1
      && |r.metrics| <= 2
      && (createMetrics != "enabled" ==> r.metrics == [])
      && (forall m :: m in r.metrics ==>
            m.region == region && m.instanceId == inst.id && (m.value == 0 || m.value == 1))
  {
    var r := StateStep(region, inst, createMetrics).Then(DecisionStep(region, inst, start, stop, createMetrics));
    assert r.starts == (if start then [inst.id] else []);
    assert r.stops == (if stop then [inst.id] else []);
  }

  /** One tag: nothing unless its key matches; at most one id per list, the
      instance's own, on a list exactly when the rule asks for it, and never
      on both; at most two metric points, none when metrics are disabled,
      each a 0 or 1 about this instance. */
  lemma TagStepShape(region: string, inst: Instance, tag: Tag, c: Clock, d: Defaults)
    ensures var r := TagStep(region, inst, tag, c, d);
      && (!KeyMatches(tag.key, d.customTagName) ==> r == NoDecisions)
      && (forall a, x :: x in r.Ids(a) <==> x == inst.id && Wants(a, inst, tag, c, d))
      && (forall a :: |r.Ids(a)| <= 1)
      && (r.starts == [] || r.stops == [])
      && |r.metrics| <= 2
      && (!MetricsEnabled(d) ==> r.metrics == [])
      && (forall m :: m in r.metrics ==>
            m.region == region && m.instanceId == inst.id && (m.value == 0 || m.value == 1))
  {
    if KeyMatches(tag.key, d.customTagName) {
      var start, stop := Wants(StartAction, inst, tag, c, d), Wants(StopAction, inst, tag, c, d);
      StepShape(region, inst, start, stop, Lower(d.cloudWatchMetrics));
    }
  }

  /** What a stretch of items adds, in order, when `step` is what one
      item adds: the shape of both the tag loop and the instance loop. */
  function Concat<T>(step: T -> Decisions, xs: seq<T>): Decisions
    decreases |xs|
  {
    if xs == [] then NoDecisions else Concat(step, xs[..|xs| - 1]).Then(step(xs[|xs| - 1]))
  }

  /** What one tag of `inst` adds, as a step of the tag loop. */
  function TagSteps(region: string, inst: Instance, c: Clock, d: Defaults): Tag -> Decisions
  {
    tag => TagStep(region, inst, tag, c, d)
  }

  /** What the tags of one instance add, in order. */
  function TagsDecisions(region: string, inst: Instance, tags: seq<Tag>, c: Clock, d: Defaults): Decisions
  {
    Concat(TagSteps(region, inst, c, d), tags)
  }

  function InstanceDecisions(region: string, inst: Instance, c: Clock, d: Defaults): Decisions
  {
    TagsDecisions(region, inst, TagsOf(inst), c, d)
  }

  /** What one instance adds, as a step of the instance loop. */
  function InstanceSteps(region: string, c: Clock, d: Defaults): Instance -> Decisions
  {
    inst => InstanceDecisions(region, inst, c, d)
  }

  /** What the instances of one region add, in order. */
  function InstancesDecisions(region: string, insts: seq<Instance>, c: Clock, d: Defaults): Decisions
  {
    Concat(InstanceSteps(region, c, d), insts)
  }

  /** The batch calls a region's lists lead to: a start call when the start
      list is non-empty, then a stop call when the stop list is non-empty,
      unless the start call raised first. */
  function BatchCalls(r: RegionInput, acc: Decisions): (calls: seq<BatchCall>)
    ensures forall k :: 0 <= k < |calls| ==> calls[k].region == r.name && calls[k].ids != []
    ensures forall k :: 0 <= k < |calls| ==> calls[k].ids == acc.Ids(calls[k].action)
    ensures BatchCall(r.name, StartAction, acc.starts) in calls <==> acc.starts != []
    ensures BatchCall(r.name, StopAction, acc.stops) in calls <==>
      acc.stops != [] && !(acc.starts != [] && r.startCallFails)
    ensures |calls| == (if acc.starts != [] then 1 else 0)
      + (if acc.stops != [] && !(acc.starts != [] && r.startCallFails) then 1 else 0)
    ensures |calls| == 2 ==> calls[0].action == StartAction && calls[1].action == StopAction
  {
    (if acc.starts != [] then [BatchCall(r.name, StartAction, acc.starts)] else [])
    + (if acc.stops != [] && !(acc.starts != [] && r.startCallFails)
       then [BatchCall(r.name, StopAction, acc.stops)] else [])
  }

  /** One region's outputs; a region whose listing raised contributes nothing. */
  function RegionRun(r: RegionInput, d: Defaults): RunResult
  {
    match r.inventory
    case None => RunResult([], [])
    case Some(insts) =>
      var acc := InstancesDecisions(r.name, insts, r.clock, d);
      RunResult(BatchCalls(r, acc), acc.metrics)
  }

  /** The outputs of the regions, in order. */
  function Run(regions: seq<RegionInput>, d: Defaults): RunResult
    decreases |regions|
  {
    if regions == [] then RunResult([], [])
    else Run(regions[..|regions| - 1], d).Then(RegionRun(regions[|regions| - 1], d))
  }

  /** The current-state point the handler posts for a matching tag. */
  method PostState(name: string, i: Instance, createMetrics: string, metrics: seq<Metric>)
    returns (metrics': seq<Metric>)
    ensures Decisions([], [], metrics') ==
      Decisions([], [], metrics).Then(StateStep(name, i, createMetrics))
  {
    metrics' := metrics;
    var state := i.state;
    if createMetrics == "enabled" {
      if state == Running {
        metrics' := metrics' + [Metric(name, i.id, 1)];
      }
      if state == Stopped {
        metrics' := metrics' + [Metric(name, i.id, 0)];
      }
    }
  }

  /** The handler's decision block for a matching tag whose schedule is `s`
      and whose day verdict is `isActiveDay`. */
  method Decide(name: string, i: Instance, s: Schedule, isActiveDay: bool, clock: Clock, createMetrics: string,
                startList: seq<string>, stopList: seq<string>, metrics: seq<Metric>)
    returns (startList': seq<string>, stopList': seq<string>, metrics': seq<Metric>)
    ensures Decisions(startList', stopList', metrics') ==
      Decisions(startList, stopList, metrics).Then(DecisionStep(name, i,
        InWindow(s.startTime, clock) && isActiveDay && i.state == Stopped,
        InWindow(s.stopTime, clock) && isActiveDay && i.state == Running,
        createMetrics))
  {
    startList', stopList', metrics' := startList, stopList, metrics;
    var state := i.state;
    if InWindow(s.startTime, clock) && isActiveDay && state == Stopped {
      startList' := startList' + [i.id];
      if createMetrics == "enabled" {
        metrics' := metrics' + [Metric(name, i.id, 1)];
      }
    }
    if InWindow(s.stopTime, clock) && isActiveDay && state == Running {
      stopList' := stopList' + [i.id];
      if createMetrics == "enabled" {
        metrics' := metrics' + [Metric(name, i.id, 0)];
      }
    }
  }

  /** The body of the handler's tag loop: for a tag whose key matches,
      post the current state, parse the value, interpret the days and
      append to the lists the rule selects. */
  method HandleTag(name: string, i: Instance, t: Tag, clock: Clock, d: Defaults, createMetrics: string,
                   startList: seq<string>, stopList: seq<string>, metrics: seq<Metric>)
    returns (startList': seq<string>, stopList': seq<string>, metrics': seq<Metric>)
    requires createMetrics == Lower(d.cloudWatchMetrics)
    ensures Decisions(startList', stopList', metrics') ==
      Decisions(startList, stopList, metrics).Then(TagStep(name, i, t, clock, d))
  {
    startList', stopList', metrics' := startList, stopList, metrics;
    if KeyMatches(t.key, d.customTagName) {
      metrics' := PostState(name, i, createMetrics, metrics');
      var s := ParseTag(t.value, d);
      var isActiveDay := DaysInterpreter(s.daysActive, clock.nowDay);
      startList', stopList', metrics' := Decide(name, i, s, isActiveDay, clock, createMetrics, startList', stopList', metrics');
      TagStepResolved(name, i, t, clock, d, s, isActiveDay);
      var before, state, decision := Decisions(startList, stopList, metrics), StateStep(name, i, createMetrics),
        DecisionStep(name, i, InWindow(s.startTime, clock) && isActiveDay && i.state == Stopped,
                     InWindow(s.stopTime, clock) && isActiveDay && i.state == Running, createMetrics);
      ThenMetricsOnly(before, state);
      ThenAssociative(before, state, decision);
    } else {
      ThenNothing(Decisions(startList, stopList, metrics));
    }
  }

  /** The handler's loop over the tags of one instance. */
  method HandleInstance(name: string, i: Instance, clock: Clock, d: Defaults, createMetrics: string,
                        startList: seq<string>, stopList: seq<string>, metrics: seq<Metric>)
    returns (startList': seq<string>, stopList': seq<string>, metrics': seq<Metric>)
    requires createMetrics == Lower(d.cloudWatchMetrics)
    ensures Decisions(startList', stopList', metrics') ==
      Decisions(startList, stopList, metrics).Then(InstanceDecisions(name, i, clock, d))
  {
    startList', stopList', metrics' := startList, stopList, metrics;
    var tags := TagsOf(i);
    var ti := 0;
    while ti < |tags|
      invariant 0 <= ti <= |tags|
      invariant Decisions(startList', stopList', metrics') ==
        Decisions(startList, stopList, metrics).Then(TagsDecisions(name, i, tags[..ti], clock, d))
    {
      startList', stopList', metrics' := HandleTag(name, i, tags[ti], clock, d, createMetrics, startList', stopList', metrics');
      assert tags[..ti + 1][..ti] == tags[..ti];
      assert TagsDecisions(name, i, tags[..ti + 1], clock, d) ==
        TagsDecisions(name, i, tags[..ti], clock, d).Then(TagStep(name, i, tags[ti], clock, d));
      ThenAssociative(Decisions(startList, stopList, metrics), TagsDecisions(name, i, tags[..ti], clock, d),
                      TagStep(name, i, tags[ti], clock, d));
      ti := ti + 1;
    }
    assert tags[..ti] == tags;
  }

  /** The handler's nested loops over the instances of one region and their
      tags, appending to the start list, the stop list and the metric log. */
  method ScheduleRegion(name: string, instances: seq<Instance>, clock: Clock, d: Defaults)
    returns (startList: seq<string>, stopList: seq<string>, metrics: seq<Metric>)
    ensures Decisions(startList, stopList, metrics) == InstancesDecisions(name, instances, clock, d)
  {
    var createMetrics := Lower(d.cloudWatchMetrics);
    startList, stopList, metrics := [], [], [];
    var ii := 0;
    while ii < |instances|
      invariant 0 <= ii <= |instances|
      invariant Decisions(startList, stopList, metrics) == InstancesDecisions(name, instances[..ii], clock, d)
    {
      startList, stopList, metrics := HandleInstance(name, instances[ii], clock, d, createMetrics, startList, stopList, metrics);
      assert instances[..ii + 1][..ii] == instances[..ii];
      ii := ii + 1;
    }
    assert instances[..ii] == instances;
  }

  /** The batch calls at the end of a region: start the start list if it is
      non-empty, then stop the stop list if it is non-empty, unless the start
      call raised and left the region's `try`. */
  method IssueCalls(region: RegionInput, startList: seq<string>, stopList: seq<string>)
    returns (regionCalls: seq<BatchCall>)
    ensures regionCalls == BatchCalls(region, Decisions(startList, stopList, []))
  {
    regionCalls := [];
    if startList != [] {
      regionCalls := regionCalls + [BatchCall(region.name, StartAction, startList)];
    }
    if !(startList != [] && region.startCallFails) && stopList != [] {
      regionCalls := regionCalls + [BatchCall(region.name, StopAction, stopList)];
    }
  }

  /** The handler's loop over the regions. A region whose listing raises
      is skipped; a start call that raises skips that region's stop call. */
  method LambdaHandler(regions: seq<RegionInput>, d: Defaults)
    returns (calls: seq<BatchCall>, metrics: seq<Metric>)
    ensures RunResult(calls, metrics) == Run(regions, d)
  {
    calls, metrics := [], [];
    var ri := 0;
    while ri < |regions|
      invariant 0 <= ri <= |regions|
      invariant RunResult(calls, metrics) == Run(regions[..ri], d)
    {
      var region := regions[ri];
      var regionCalls: seq<BatchCall> := [];
      var regionMetrics: seq<Metric> := [];
      match region.inventory {
        case None =>
        case Some(instances) =>
          var startList, stopList;
          startList, stopList, regionMetrics := ScheduleRegion(region.name, instances, region.clock, d);
          regionCalls := IssueCalls(region, startList, stopList);
      }
      assert RunResult(regionCalls, regionMetrics) == RegionRun(region, d);
      calls, metrics := calls + regionCalls, metrics + regionMetrics;
      assert regions[..ri + 1][..ri] == regions[..ri];
      ri := ri + 1;
    }
    assert regions[..ri] == regions;
  }

  lemma ThenIds(x: Decisions, y: Decisions, a: Action)
    ensures x.Then(y).Ids(a) == x.Ids(a) + y.Ids(a)
  {
  }

  /** An id on a concatenated list was put there by some item's step. */
  lemma {:induction false} ConcatIdsSound<T>(step: T -> Decisions, xs: seq<T>, a: Action, x: string)
    ensures x in Concat(step, xs).Ids(a) ==> exists k :: 0 <= k < |xs| && x in step(xs[k]).Ids(a)
    decreases |xs|
  {
    if xs != [] && x in Concat(step, xs).Ids(a) {
      var n := |xs| - 1;
      var init := xs[..n];
      ThenIds(Concat(step, init), step(xs[n]), a);
      if x in Concat(step, init).Ids(a) {
        ConcatIdsSound(step, init, a, x);
        var k :| 0 <= k < n && x in step(init[k]).Ids(a);
        assert xs[k] == init[k];
      } else {
        assert x in step(xs[n]).Ids(a);
      }
    }
  }

  /** An id some item's step puts on a list is on the concatenated list. */
  lemma {:induction false} ConcatIdsComplete<T>(step: T -> Decisions, xs: seq<T>, a: Action, x: string, k: int)
    requires 0 <= k < |xs| && x in step(xs[k]).Ids(a)
    ensures x in Concat(step, xs).Ids(a)
    decreases |xs|
  {
    var n := |xs| - 1;
    var init := xs[..n];
    ThenIds(Concat(step, init), step(xs[n]), a);
    if k < n {
      assert init[k] == xs[k];
      ConcatIdsComplete(step, init, a, x, k);
    }
  }

  /** An id is on a concatenated list exactly when one item's step put it there. */
  lemma ConcatIds<T>(step: T -> Decisions, xs: seq<T>, a: Action, x: string)
    ensures x in Concat(step, xs).Ids(a) <==> exists k :: 0 <= k < |xs| && x in step(xs[k]).Ids(a)
  {
    ConcatIdsSound(step, xs, a, x);
    if exists k :: 0 <= k < |xs| && x in step(xs[k]).Ids(a) {
      var k :| 0 <= k < |xs| && x in step(xs[k]).Ids(a);
      ConcatIdsComplete(step, xs, a, x, k);
    }
  }

  /** Concatenating two stretches adds what each adds, in order. */
  lemma {:induction false} ConcatAppend<T>(step: T -> Decisions, xs: seq<T>, ys: seq<T>)
    ensures Concat(step, xs + ys) == Concat(step, xs).Then(Concat(step, ys))
    decreases |ys|
  {
    if ys == [] {
      assert xs + ys == xs;
      var r := Concat(step, xs);
      assert r.starts + [] == r.starts && r.stops + [] == r.stops && r.metrics + [] == r.metrics;
    } else {
      var n := |ys| - 1;
      ConcatAppend(step, xs, ys[..n]);
      assert (xs + ys)[..|xs + ys| - 1] == xs + ys[..n];
      assert (xs + ys)[|xs + ys| - 1] == ys[n];
      ThenAssociative(Concat(step, xs), Concat(step, ys[..n]), step(ys[n]));
    }
  }

  /** Items whose steps add nothing add nothing together. */
  lemma {:induction false} ConcatOfNothing<T>(step: T -> Decisions, xs: seq<T>)
    requires forall k :: 0 <= k < |xs| ==> step(xs[k]) == NoDecisions
    ensures Concat(step, xs) == NoDecisions
    decreases |xs|
  {
    if xs != [] {
      var n := |xs| - 1;
      ConcatOfNothing(step, xs[..n]);
      assert step(xs[n]) == NoDecisions;
    }
  }

  /** Items whose steps post no metric point post none together. */
  lemma {:induction false} ConcatNoMetrics<T>(step: T -> Decisions, xs: seq<T>)
    requires forall k :: 0 <= k < |xs| ==> step(xs[k]).metrics == []
    ensures Concat(step, xs).metrics == []
    decreases |xs|
  {
    if xs != [] {
      var n := |xs| - 1;
      ConcatNoMetrics(step, xs[..n]);
      assert step(xs[n]).metrics == [];
    }
  }

  lemma TagStepIds(a: Action, region: string, inst: Instance, tag: Tag, c: Clock, d: Defaults, x: string)
    ensures x in TagStep(region, inst, tag, c, d).Ids(a) <==> x == inst.id && Wants(a, inst, tag, c, d)
  {
  }

  /** An id is on a list built from one instance's tags exactly when it is
      the instance's id and one of those tags asks for the action. */
  lemma TagsIdsMembership(a: Action, region: string, inst: Instance, tags: seq<Tag>,
                          c: Clock, d: Defaults, x: string)
    ensures x in TagsDecisions(region, inst, tags, c, d).Ids(a) <==>
      x == inst.id && exists k :: 0 <= k < |tags| && Wants(a, inst, tags[k], c, d)
  {
    var step := TagSteps(region, inst, c, d);
    ConcatIds(step, tags, a, x);
    forall k | 0 <= k < |tags|
      ensures x in step(tags[k]).Ids(a) <==> x == inst.id && Wants(a, inst, tags[k], c, d)
    {
      TagStepIds(a, region, inst, tags[k], c, d, x);
    }
  }

  /** Some tag of the instance asks for the action. */
  predicate SomeTagWants(a: Action, inst: Instance, c: Clock, d: Defaults)
  {
    exists k :: 0 <= k < |TagsOf(inst)| && Wants(a, inst, TagsOf(inst)[k], c, d)
  }

  /** An id is on a region's start (stop) list exactly when some instance
      with that id has a matching tag whose start (stop) time is in the
      window on an active day while the instance is stopped (running). */
  lemma ListMembership(a: Action, region: string, insts: seq<Instance>, c: Clock, d: Defaults, x: string)
    ensures x in InstancesDecisions(region, insts, c, d).Ids(a) <==>
      exists i :: 0 <= i < |insts| && insts[i].id == x && SomeTagWants(a, insts[i], c, d)
  {
    var step := InstanceSteps(region, c, d);
    ConcatIds(step, insts, a, x);
    forall i | 0 <= i < |insts|
      ensures x in step(insts[i]).Ids(a) <==> insts[i].id == x && SomeTagWants(a, insts[i], c, d)
    {
      TagsIdsMembership(a, region, insts[i], TagsOf(insts[i]), c, d, x);
    }
  }

  /** An instance is put on the start list only while stopped and on the
      stop list only while running, so never on both. */
  lemma InstanceListsFollowState(region: string, inst: Instance, c: Clock, d: Defaults)
    ensures InstanceDecisions(region, inst, c, d).starts != [] ==> inst.state == Stopped
    ensures InstanceDecisions(region, inst, c, d).stops != [] ==> inst.state == Running
    ensures InstanceDecisions(region, inst, c, d).starts == [] || InstanceDecisions(region, inst, c, d).stops == []
  {
    var r := InstanceDecisions(region, inst, c, d);
    if r.starts != [] {
      TagsIdsMembership(StartAction, region, inst, TagsOf(inst), c, d, r.starts[0]);
    }
    if r.stops != [] {
      TagsIdsMembership(StopAction, region, inst, TagsOf(inst), c, d, r.stops[0]);
    }
  }

  /** An instance without tags, or with no tag whose key starts with the
      custom tag name, is on neither list and produces no metric point. */
  lemma UnmatchedInstanceInvisible(region: string, inst: Instance, c: Clock, d: Defaults)
    requires forall k :: 0 <= k < |TagsOf(inst)| ==> !KeyMatches(TagsOf(inst)[k].key, d.customTagName)
    ensures InstanceDecisions(region, inst, c, d) == NoDecisions
  {
    var step := TagSteps(region, inst, c, d);
    forall k | 0 <= k < |TagsOf(inst)|
      ensures step(TagsOf(inst)[k]) == NoDecisions
    {
      assert !KeyMatches(TagsOf(inst)[k].key, d.customTagName);
    }
    ConcatOfNothing(step, TagsOf(inst));
  }

  /** The instances' contributions are concatenated in order. */
  lemma InstancesAppend(region: string, xs: seq<Instance>, ys: seq<Instance>, c: Clock, d: Defaults)
    ensures InstancesDecisions(region, xs + ys, c, d) ==
      InstancesDecisions(region, xs, c, d).Then(InstancesDecisions(region, ys, c, d))
  {
    ConcatAppend(InstanceSteps(region, c, d), xs, ys);
  }

  /** Adding an instance that carries no matching tag anywhere in the
      inventory changes neither list nor the metric log. */
  lemma UnmatchedInstanceChangesNothing(region: string, xs: seq<Instance>, inst: Instance, ys: seq<Instance>,
                                        c: Clock, d: Defaults)
    requires forall k :: 0 <= k < |TagsOf(inst)| ==> !KeyMatches(TagsOf(inst)[k].key, d.customTagName)
    ensures InstancesDecisions(region, xs + [inst] + ys, c, d) == InstancesDecisions(region, xs + ys, c, d)
  {
    UnmatchedInstanceInvisible(region, inst, c, d);
    InstancesAppend(region, xs + [inst], ys, c, d);
    InstancesAppend(region, xs, [inst], c, d);
    InstancesAppend(region, xs, ys, c, d);
    assert [inst][..0] == [];
    var r := InstancesDecisions(region, xs, c, d);
    assert r.starts + [] == r.starts && r.stops + [] == r.stops && r.metrics + [] == r.metrics;
  }

  /** A region puts anything on either list only when its window is
      ordered, `nowMax <= now`. */
  lemma ListsNeedOrderedWindow(a: Action, region: string, insts: seq<Instance>, c: Clock, d: Defaults)
    ensures InstancesDecisions(region, insts, c, d).Ids(a) != [] ==> LexLe(c.nowMax, c.now)
  {
    var ids := InstancesDecisions(region, insts, c, d).Ids(a);
    if ids != [] {
      ListMembership(a, region, insts, c, d, ids[0]);
      var i :| 0 <= i < |insts| && insts[i].id == ids[0] && SomeTagWants(a, insts[i], c, d);
      var k :| 0 <= k < |TagsOf(insts[i])| && Wants(a, insts[i], TagsOf(insts[i])[k], c, d);
      var s := Resolve(Split(TagsOf(insts[i])[k].value, ';'), d);
      WindowNonEmptyOnlyIfOrdered(if a == StartAction then s.startTime else s.stopTime, c);
    }
  }

  /** The midnight wrap: a run in the first 59 minutes of the day starts
      and stops nothing, whatever the tags say. */
  lemma IdleInFirstHour(region: string, insts: seq<Instance>, m: int, day: string, d: Defaults)
    requires 0 <= m < LookBack
    ensures InstancesDecisions(region, insts, ClockAt(m, day), d).starts == []
    ensures InstancesDecisions(region, insts, ClockAt(m, day), d).stops == []
  {
    WindowOrderedIffPastLookBack(m);
    ListsNeedOrderedWindow(StartAction, region, insts, ClockAt(m, day), d);
    ListsNeedOrderedWindow(StopAction, region, insts, ClockAt(m, day), d);
  }

  /** With metrics disabled no metric point is produced. */
  lemma NoMetricsWhenDisabled(region: string, insts: seq<Instance>, c: Clock, d: Defaults)
    requires !MetricsEnabled(d)
    ensures InstancesDecisions(region, insts, c, d).metrics == []
  {
    var step := InstanceSteps(region, c, d);
    forall i | 0 <= i < |insts|
      ensures step(insts[i]).metrics == []
    {
      var inst := insts[i];
      var tagStep := TagSteps(region, inst, c, d);
      forall k | 0 <= k < |TagsOf(inst)|
        ensures tagStep(TagsOf(inst)[k]).metrics == []
      {
        TagStepShape(region, inst, TagsOf(inst)[k], c, d);
      }
      ConcatNoMetrics(tagStep, TagsOf(inst));
    }
    ConcatNoMetrics(step, insts);
  }

  /** The timezone field never affects a decision: replacing it leaves the
      rule's verdict unchanged for either action. */
  lemma TimeZoneIgnored(a: Action, inst: Instance, key: string, fields: seq<string>, tz: string, c: Clock, d: Defaults)
    requires |fields| >= 3
    requires forall i :: 0 <= i < |fields| ==> ';' !in fields[i]
    requires ';' !in tz
    ensures Wants(a, inst, Tag(key, Join(fields, ';')), c, d) ==
      Wants(a, inst, Tag(key, Join(fields[2 := tz], ';')), c, d)
  {
    JoinThenSplit(fields, ';');
    JoinThenSplit(fields[2 := tz], ';');
  }

  /** The regions' outputs are concatenated in order. */
  lemma {:induction false} RunAppend(xs: seq<RegionInput>, ys: seq<RegionInput>, d: Defaults)
    ensures Run(xs + ys, d) == Run(xs, d).Then(Run(ys, d))
    decreases |ys|
  {
    if ys == [] {
      assert xs + ys == xs;
      var r := Run(xs, d);
      assert r.calls + [] == r.calls && r.metrics + [] == r.metrics;
    } else {
      var n := |ys| - 1;
      RunAppend(xs, ys[..n], d);
      assert (xs + ys)[..|xs + ys| - 1] == xs + ys[..n];
      assert (xs + ys)[|xs + ys| - 1] == ys[n];
      RunThenAssociative(Run(xs, d), Run(ys[..n], d), RegionRun(ys[n], d));
    }
  }

  /** A region whose listing raises is skipped and does not disturb any
      other region's calls or metric points. */
  lemma FailedRegionSkipped(xs: seq<RegionInput>, r: RegionInput, ys: seq<RegionInput>, d: Defaults)
    requires r.inventory.None?
    ensures Run(xs + [r] + ys, d) == Run(xs + ys, d)
  {
    RunAppend(xs + [r], ys, d);
    RunAppend(xs, [r], d);
    RunAppend(xs, ys, d);
    assert [r][..0] == [];
    var p := Run(xs, d);
    assert p.calls + [] == p.calls && p.metrics + [] == p.metrics;
  }
}

/** Worked decisions: a few concrete instances read against a concrete clock. */
module SchedulerExamples {
  import opened Text
  import opened Window
  import opened Days
  import opened TagParser
  import opened Scheduler

  /** A tag "0800" sets both trigger times to 08:00. Read at 08:30 on an
      active day, it starts a stopped instance and stops a running one;
      read at 10:00, when 08:00 has left the window, it does neither. */
  lemma SingleTimeTag(inst: Instance, value: string, c: Clock, later: Clock, d: Defaults)
    requires value == "0800"
    requires c == Clock("0830", "0731", "mon") && later == Clock("1000", "0901", "mon")
    requires d.defaultDaysActive == "all"
    ensures Wants(StartAction, inst, Tag(d.customTagName, value), c, d) <==> inst.state == Stopped
    ensures Wants(StopAction, inst, Tag(d.customTagName, value), c, d) <==> inst.state == Running
    ensures !Wants(StartAction, inst, Tag(d.customTagName, value), later, d)
    ensures !Wants(StopAction, inst, Tag(d.customTagName, value), later, d)
  {
    KeyMatchesIsPrefix(d.customTagName, d.customTagName);
    assert Lower(value) == "0800";
    SingleTimeIsSymmetric(value, d);
    assert LexLe(c.nowMax, value) && LexLe(value, c.now);
    assert !LexLe(later.nowMax, value);
  }
}
