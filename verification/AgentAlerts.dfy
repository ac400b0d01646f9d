/**
  The lost and reachable announcements of push_relay/app.py: heartbeats clear a flag, the minute sweep
  sets it, and both announce before they write.
 */
module AgentAlerts {
  import opened Common

  const LOSS_SECONDS := 90

  /** How a handler that announces ends: the send fails, the handler dies after it, or all is written. */
  datatype Outcome = Failed | Died | Done

  datatype Kind = Lost | Reachable

  /** One announcement to the Agent's devices, and whether the flag was then written. */
  datatype Alert = Alert(kind: Kind, at: int, recorded: bool)

  datatype Agent = Agent(lastSeenAt: int, lostAt: Option<int>, revoked: bool)

  datatype Site = Site(agent: Agent, alerts: seq<Alert>)

  /** What reaches one Agent's document; `Touch` is any other request that records presence. */
  datatype Event =
    | Beat(at: int, outcome: Outcome)
    | Touch(at: int)
    | Swept(at: int, outcome: Outcome)
    | Revoke(at: int)

  function Announce(s: Site, kind: Kind, at: int, outcome: Outcome, written: Agent): Site {
    match outcome
    case Failed => s
    case Died => s.(alerts := s.alerts + [Alert(kind, at, false)])
    case Done => Site(written, s.alerts + [Alert(kind, at, true)])
  }

  /** `heartbeat`, after authentication. */
  function Heartbeat(s: Site, at: int, outcome: Outcome): Site {
    var seen := s.agent.(lastSeenAt := at, lostAt := None);
    if s.agent.lostAt.Some? then Announce(s, Reachable, at, outcome, seen) else s.(agent := seen)
  }

  /** Whether the sweep's query finds this Agent. */
  predicate Listed(a: Agent, now: int) {
    a.lastSeenAt < now - LOSS_SECONDS
  }

  /** Whether the sweep announces it. */
  predicate Overdue(a: Agent, now: int) {
    Listed(a, now) && !a.revoked && a.lostAt.None?
  }

  function Sweep(s: Site, now: int, outcome: Outcome): Site {
    if Overdue(s.agent, now) then Announce(s, Lost, now, outcome, s.agent.(lostAt := Some(now))) else s
  }

  /** A revoked Agent's requests are refused. */
  function Apply(s: Site, e: Event): Site {
    match e
    case Beat(at, outcome) => if s.agent.revoked then s else Heartbeat(s, at, outcome)
    case Touch(at) => if s.agent.revoked then s else s.(agent := s.agent.(lastSeenAt := at))
    case Swept(at, outcome) => Sweep(s, at, outcome)
    case Revoke(_) => s.(agent := s.agent.(revoked := true))
  }

  /** A site after a history that starts with its enrollment. */
  function Run(enrolledAt: int, h: seq<Event>): Site {
    if h == [] then Site(Agent(enrolledAt, None, false), [])
    else Apply(Run(enrolledAt, h[..|h| - 1]), h[|h| - 1])
  }

  // ---------------------------------------------------------------- alternation

  /** The flag says what the last announcement said, unless its handler died before writing it. */
  ghost predicate FlagMatches(s: Site) {
    if s.alerts == [] then s.agent.lostAt.None?
    else var last := s.alerts[|s.alerts| - 1]; s.agent.lostAt.Some? <==> (last.kind == Lost) == last.recorded
  }

  ghost predicate RepeatsOnlyAfterDeath(alerts: seq<Alert>) {
    && (alerts != [] ==> alerts[0].kind == Lost)
    && forall i :: 0 < i < |alerts| ==> (alerts[i].kind == alerts[i - 1].kind <==> !alerts[i - 1].recorded)
  }

  /** The first announcement is a loss, and an announcement repeats the one before it exactly when the
      handler of the one before it died between sending and writing. */
  lemma {:induction false} Alternation(enrolledAt: int, h: seq<Event>)
    ensures FlagMatches(Run(enrolledAt, h)) && RepeatsOnlyAfterDeath(Run(enrolledAt, h).alerts)
  {
    if h != [] {
      Alternation(enrolledAt, h[..|h| - 1]);
    }
  }

  /** A sweep that dies after announcing at 91 makes the next one announce again. */
  lemma DeathRepeatsAnnouncement()
    ensures Run(0, [Swept(91, Died), Swept(151, Done)]).alerts == [Alert(Lost, 91, false), Alert(Lost, 151, true)]
  {
    var h := [Swept(91, Died), Swept(151, Done)];
    assert h[..1] == [h[0]] && h[..1][..0] == [];
  }

  /** If no handler dies there, lost and reachable alternate strictly, starting with lost, and the flag
      is set exactly after a loss. */
  lemma {:induction false} StrictAlternation(enrolledAt: int, h: seq<Event>)
    requires forall e :: e in h && (e.Beat? || e.Swept?) ==> e.outcome != Died
    ensures var s := Run(enrolledAt, h);
            && (forall i :: 0 <= i < |s.alerts| ==> s.alerts[i].kind == if i % 2 == 0 then Lost else Reachable)
            && (s.agent.lostAt.Some? <==> |s.alerts| % 2 == 1)
  {
    Alternation(enrolledAt, h);
    AllRecorded(enrolledAt, h);
    Parity(Run(enrolledAt, h).alerts);
  }

  lemma {:induction false} AllRecorded(enrolledAt: int, h: seq<Event>)
    requires forall e :: e in h && (e.Beat? || e.Swept?) ==> e.outcome != Died
    ensures forall a :: a in Run(enrolledAt, h).alerts ==> a.recorded
  {
    if h != [] {
      AllRecorded(enrolledAt, h[..|h| - 1]);
      assert h[|h| - 1] in h;
    }
  }

  lemma {:induction false} Parity(alerts: seq<Alert>)
    requires RepeatsOnlyAfterDeath(alerts) && forall a :: a in alerts ==> a.recorded
    ensures forall i :: 0 <= i < |alerts| ==> alerts[i].kind == if i % 2 == 0 then Lost else Reachable
  {
    if alerts != [] {
      var front := alerts[..|alerts| - 1];
      Parity(front);
      if front != [] {
        assert front[|front| - 1] == alerts[|alerts| - 2] && alerts[|alerts| - 2] in alerts;
      }
    }
  }

  /** A revoked Agent is neither announced nor seen again. */
  lemma {:induction false} RevokedIsQuiet(enrolledAt: int, h: seq<Event>, at: int, rest: seq<Event>)
    ensures var before := Run(enrolledAt, h);
            Run(enrolledAt, h + [Revoke(at)] + rest) == Site(before.agent.(revoked := true), before.alerts)
  {
    var start := h + [Revoke(at)];
    if rest == [] {
      assert start + rest == start && start[..|h|] == h;
    } else {
      var all := start + rest;
      assert all[..|all| - 1] == start + rest[..|rest| - 1];
      RevokedIsQuiet(enrolledAt, h, at, rest[..|rest| - 1]);
    }
  }

  // ---------------------------------------------------------------- no false loss

  /** The event writes the time the Agent was last seen. */
  predicate RecordsPresence(s: Site, e: Event) {
    !s.agent.revoked && (e.Touch? || (e.Beat? && (s.agent.lostAt.None? || e.outcome == Done)))
  }

  /** The Agent was seen, or enrolled, at or after `from`. */
  ghost predicate SeenSince(enrolledAt: int, h: seq<Event>, from: int) {
    enrolledAt >= from
    || exists i :: 0 <= i < |h| && RecordsPresence(Run(enrolledAt, h[..i]), h[i]) && h[i].at >= from
  }

  predicate InOrder(enrolledAt: int, h: seq<Event>) {
    && (forall i :: 0 <= i < |h| ==> enrolledAt <= h[i].at)
    && forall i, j :: 0 <= i < j < |h| ==> h[i].at <= h[j].at
  }

  lemma RecordsMeaning(s: Site, e: Event)
    ensures Apply(s, e).agent.lastSeenAt == if RecordsPresence(s, e) then e.at else s.agent.lastSeenAt
  {
  }

  lemma FrontInOrder(enrolledAt: int, h: seq<Event>, e: Event)
    ensures InOrder(enrolledAt, h + [e])
       <==> InOrder(enrolledAt, h) && enrolledAt <= e.at && forall i :: 0 <= i < |h| ==> h[i].at <= e.at
  {
    var all := h + [e];
    assert all[|h|] == e && forall i :: 0 <= i < |h| ==> all[i] == h[i];
    if InOrder(enrolledAt, all) {
      forall i, j | 0 <= i < j < |h| ensures h[i].at <= h[j].at {
        assert all[i].at <= all[j].at;
      }
      forall i | 0 <= i < |h| ensures enrolledAt <= h[i].at && h[i].at <= e.at {
        assert enrolledAt <= all[i].at && all[i].at <= all[|h|].at;
      }
    }
  }

  lemma {:induction false} LastSeenMeaning(enrolledAt: int, h: seq<Event>, from: int)
    requires InOrder(enrolledAt, h)
    ensures SeenSince(enrolledAt, h, from) <==> Run(enrolledAt, h).agent.lastSeenAt >= from
    ensures h != [] ==> Run(enrolledAt, h).agent.lastSeenAt <= h[|h| - 1].at
  {
    if h != [] {
      var front, last := h[..|h| - 1], h[|h| - 1];
      assert h == front + [last];
      FrontInOrder(enrolledAt, front, last);
      LastSeenMeaning(enrolledAt, front, from);
      LastSeenExtend(enrolledAt, front, last, from);
      RecordsMeaning(Run(enrolledAt, front), last);
      hide SeenSince, InOrder, Apply, RecordsPresence;
      if front != [] {
        assert front[|front| - 1].at <= last.at;
      }
    }
  }

  lemma LastSeenExtend(enrolledAt: int, h: seq<Event>, e: Event, from: int)
    ensures SeenSince(enrolledAt, h + [e], from)
       <==> SeenSince(enrolledAt, h, from) || (RecordsPresence(Run(enrolledAt, h), e) && e.at >= from)
  {
    hide Run, RecordsPresence;
    var all := h + [e];
    forall i | 0 <= i < |h| ensures all[..i] == h[..i] && all[i] == h[i] {
    }
    assert all[..|h|] == h && all[|h|] == e;
    if SeenSince(enrolledAt, h, from) && enrolledAt < from {
      var i :| 0 <= i < |h| && RecordsPresence(Run(enrolledAt, h[..i]), h[i]) && h[i].at >= from;
      assert RecordsPresence(Run(enrolledAt, all[..i]), all[i]);
    }
    if RecordsPresence(Run(enrolledAt, h), e) && e.at >= from {
      assert RecordsPresence(Run(enrolledAt, all[..|h|]), all[|h|]);
    }
    if SeenSince(enrolledAt, all, from) && enrolledAt < from {
      var i :| 0 <= i < |all| && RecordsPresence(Run(enrolledAt, all[..i]), all[i]) && all[i].at >= from;
      if i < |h| {
        assert RecordsPresence(Run(enrolledAt, h[..i]), h[i]);
      }
    }
  }

  /** A sweep announces a loss exactly when its send succeeds for an Agent that is not revoked or
      flagged and was not seen in the last 90 seconds. */
  lemma LostMeansSilent(enrolledAt: int, h: seq<Event>, now: int, outcome: Outcome)
    requires InOrder(enrolledAt, h + [Swept(now, outcome)])
    ensures var before := Run(enrolledAt, h);
            var alerts := Run(enrolledAt, h + [Swept(now, outcome)]).alerts;
            if outcome != Failed && !before.agent.revoked && before.agent.lostAt.None?
               && !SeenSince(enrolledAt, h, now - LOSS_SECONDS)
            then alerts == before.alerts + [Alert(Lost, now, outcome == Done)]
            else alerts == before.alerts
  {
    hide SeenSince, InOrder, Run;
    FrontInOrder(enrolledAt, h, Swept(now, outcome));
    RunOn(enrolledAt, h, Swept(now, outcome));
    LastSeenMeaning(enrolledAt, h, now - LOSS_SECONDS);
  }

  /** Whenever a sweep comes, the Agent was seen in the 90 seconds before it. */
  ghost predicate NoLongGap(enrolledAt: int, h: seq<Event>) {
    forall i :: 0 <= i < |h| && h[i].Swept? ==> SeenSince(enrolledAt, h[..i], h[i].at - LOSS_SECONDS)
  }

  lemma FrontHasNoLongGap(enrolledAt: int, h: seq<Event>, e: Event)
    requires NoLongGap(enrolledAt, h + [e])
    ensures NoLongGap(enrolledAt, h) && (e.Swept? ==> SeenSince(enrolledAt, h, e.at - LOSS_SECONDS))
  {
    hide SeenSince;
    var all := h + [e];
    assert all[..|h|] == h && all[|h|] == e;
    forall i | 0 <= i < |h| && h[i].Swept? ensures SeenSince(enrolledAt, h[..i], h[i].at - LOSS_SECONDS) {
      assert all[..i] == h[..i] && all[i] == h[i];
    }
  }

  /** An Agent without such gaps is never announced. */
  lemma {:induction false} ShortGapsNeverAlert(enrolledAt: int, h: seq<Event>)
    requires InOrder(enrolledAt, h) && NoLongGap(enrolledAt, h)
    ensures Run(enrolledAt, h).alerts == []
  {
    if h != [] {
      var front, last := h[..|h| - 1], h[|h| - 1];
      assert h == front + [last];
      FrontInOrder(enrolledAt, front, last);
      FrontHasNoLongGap(enrolledAt, front, last);
      hide SeenSince, InOrder, NoLongGap;
      ShortGapsNeverAlert(enrolledAt, front);
      Alternation(enrolledAt, front);
      if last.Swept? {
        LostMeansSilent(enrolledAt, front, last.at, last.outcome);
      }
    }
  }

  // ---------------------------------------------------------------- prompt loss

  function Sweeps(s: Site, times: seq<int>): Site
    decreases |times|
  {
    if times == [] then s else Sweeps(Sweep(s, times[0], Done), times[1..])
  }

  /** Sweeps at most 60 seconds apart, the first before the Agent is overdue, the last after. */
  ghost predicate EveryMinute(times: seq<int>, lastSeenAt: int) {
    && times != [] && times[0] <= lastSeenAt + LOSS_SECONDS < times[|times| - 1]
    && forall i :: 0 < i < |times| ==> times[i - 1] <= times[i] <= times[i - 1] + 60
  }

  /** One site, announced at the first sweep after its time. */
  lemma {:induction false} SilentSiteIsAnnounced(site: Site, times: seq<int>)
    requires site.agent.lostAt.None? && !site.agent.revoked && EveryMinute(times, site.agent.lastSeenAt)
    ensures var after := Sweeps(site, times);
            exists t :: && site.agent.lastSeenAt + 90 < t <= site.agent.lastSeenAt + 150 && t in times
                        && after == Site(site.agent.(lostAt := Some(t)), site.alerts + [Alert(Lost, t, true)])
  {
    assert Sweep(site, times[0], Done) == site;
    var rest := times[1..];
    assert times[1] == rest[0] && rest[|rest| - 1] == times[|times| - 1];
    if rest[0] > site.agent.lastSeenAt + LOSS_SECONDS {
      FlaggedStaysQuiet(Sweep(site, rest[0], Done), rest[1..]);
      assert rest[0] in times;
    } else {
      SilentSiteIsAnnounced(site, rest);
    }
  }

  lemma {:induction false} FlaggedStaysQuiet(s: Site, times: seq<int>)
    requires s.agent.lostAt.Some?
    ensures Sweeps(s, times) == s
  {
    if times != [] {
      FlaggedStaysQuiet(s, times[1..]);
    }
  }

  // ---------------------------------------------------------------- the fleet

  /** The announcements of a sweep that do not end well. */
  type Failures = map<string, Outcome>

  function OutcomeOf(failures: Failures, a: string): Outcome {
    Get(failures, a).GetOr(Done)
  }

  predicate Distinct(order: seq<string>) {
    forall i, j :: 0 <= i < j < |order| ==> order[i] != order[j]
  }

  /** The sweep does not get past this Agent. */
  predicate Blocks(sites: map<string, Site>, a: string, failures: Failures, now: int) {
    a in sites && Overdue(sites[a].agent, now) && OutcomeOf(failures, a) != Done
  }

  /** How many of the streamed Agents the sweep handles: all, or up to the first that blocks. */
  function Reach(sites: map<string, Site>, order: seq<string>, failures: Failures, now: int): (n: nat)
    ensures n <= |order| && (n < |order| ==> n > 0 && Blocks(sites, order[n - 1], failures, now))
    ensures forall j :: 0 <= j < n - 1 ==> !Blocks(sites, order[j], failures, now)
  {
    if order == [] then 0
    else
      var n := Reach(sites, order[..|order| - 1], failures, now);
      if n > 0 && Blocks(sites, order[n - 1], failures, now) then n else |order|
  }

  /** A sweep handles an Agent exactly if no Agent streamed before it blocks. */
  lemma ReachesIff(sites: map<string, Site>, order: seq<string>, failures: Failures, now: int, k: nat)
    requires k < |order|
    ensures k < Reach(sites, order, failures, now)
       <==> forall j :: 0 <= j < k ==> !Blocks(sites, order[j], failures, now)
  {
    var n := Reach(sites, order, failures, now);
    if n < |order| && n <= k {
      assert Blocks(sites, order[n - 1], failures, now);
    }
  }

  lemma ReachIs(sites: map<string, Site>, order: seq<string>, failures: Failures, now: int, n: nat)
    requires n <= |order| && forall j :: 0 <= j < n - 1 ==> !Blocks(sites, order[j], failures, now)
    requires if n < |order| then n > 0 && Blocks(sites, order[n - 1], failures, now) else true
    ensures Reach(sites, order, failures, now) == n
  {
  }

  function SweptSites(sites: map<string, Site>, order: seq<string>, failures: Failures, now: int): map<string, Site>
    requires forall a :: a in order ==> a in sites
    ensures SweptSites(sites, order, failures, now).Keys == sites.Keys
  {
    if order == [] then sites
    else
      var n := |order| - 1;
      var before := SweptSites(sites, order[..n], failures, now);
      before[order[n] := Sweep(before[order[n]], now, OutcomeOf(failures, order[n]))]
  }

  lemma {:induction false} SweptSitesMeaning(sites: map<string, Site>, order: seq<string>, failures: Failures, now: int)
    requires (forall a :: a in order ==> a in sites) && Distinct(order)
    ensures forall a :: a in sites ==>
              SweptSites(sites, order, failures, now)[a]
              == if a in order then Sweep(sites[a], now, OutcomeOf(failures, a)) else sites[a]
  {
    if order != [] {
      var n := |order| - 1;
      SweptSitesMeaning(sites, order[..n], failures, now);
      assert order == order[..n] + [order[n]] && order[n] !in order[..n];
    }
  }

  datatype FleetStep =
    | Enrolls(agent: string, at: int)
    | Happens(agent: string, event: Event)
    | SweepRound(order: seq<string>, failures: Failures, now: int)

  /** A sweep streams exactly the Agents its query finds, in some order. */
  ghost predicate CanHappen(sites: map<string, Site>, step: FleetStep) {
    match step
    case Enrolls(a, _) => a !in sites
    case Happens(a, _) => a in sites
    case SweepRound(order, _, now) =>
      (forall a :: a in order <==> a in sites && Listed(sites[a].agent, now)) && Distinct(order)
  }

  function Next(sites: map<string, Site>, step: FleetStep): map<string, Site>
    requires CanHappen(sites, step)
  {
    match step
    case Enrolls(a, at) => sites[a := Site(Agent(at, None, false), [])]
    case Happens(a, e) => sites[a := Apply(sites[a], e)]
    case SweepRound(order, failures, now) =>
      SweptSites(sites, order[..Reach(sites, order, failures, now)], failures, now)
  }

  ghost predicate Possible(sites: map<string, Site>, steps: seq<FleetStep>)
    decreases |steps|
  {
    steps == [] || (CanHappen(sites, steps[0]) && Possible(Next(sites, steps[0]), steps[1..]))
  }

  function After(sites: map<string, Site>, steps: seq<FleetStep>): map<string, Site>
    requires Possible(sites, steps)
    decreases |steps|
  {
    if steps == [] then sites else After(Next(sites, steps[0]), steps[1..])
  }

  /** The sweep streams `a`, and no Agent before it blocks. */
  ghost predicate Reaches(sites: map<string, Site>, step: FleetStep, a: string) {
    && step.SweepRound?
    && exists k :: 0 <= k < |step.order| && step.order[k] == a
                   && forall j :: 0 <= j < k ==> !Blocks(sites, step.order[j], step.failures, step.now)
  }

  /** It also announces it well, if that is due. */
  ghost predicate Serves(sites: map<string, Site>, step: FleetStep, a: string) {
    Reaches(sites, step, a) && OutcomeOf(step.failures, a) == Done
  }

  /** What a sweep does to each Agent. */
  lemma SweepRoundMeaning(sites: map<string, Site>, step: FleetStep, a: string)
    requires CanHappen(sites, step) && step.SweepRound? && a in sites
    ensures Next(sites, step)[a] == if Reaches(sites, step, a)
                                    then Sweep(sites[a], step.now, OutcomeOf(step.failures, a)) else sites[a]
  {
    var n := Reach(sites, step.order, step.failures, step.now);
    SweptSitesMeaning(sites, step.order[..n], step.failures, step.now);
    if a in step.order {
      var k :| 0 <= k < |step.order| && step.order[k] == a;
      ReachesIff(sites, step.order, step.failures, step.now, k);
      assert k < n <==> a in step.order[..n];
    }
  }

  /** What a step of the fleet adds to an Agent's history. */
  ghost function Extension(sites: map<string, Site>, step: FleetStep, a: string): seq<Event> {
    match step
    case Enrolls(_, _) => []
    case Happens(agent, event) => if agent == a then [event] else []
    case SweepRound(_, failures, now) =>
      if Reaches(sites, step, a) then [Swept(now, OutcomeOf(failures, a))] else []
  }

  /** A fleet is Agents with histories: enrollment starts one, and every step extends each by what it means
      for that Agent. */
  lemma FleetIsHistories(sites: map<string, Site>, step: FleetStep, a: string, enrolledAt: int, h: seq<Event>)
    requires CanHappen(sites, step)
    ensures step.Enrolls? ==> Next(sites, step) == sites[step.agent := Run(step.at, [])]
    ensures a in sites && sites[a] == Run(enrolledAt, h) ==>
              a in Next(sites, step) && Next(sites, step)[a] == Run(enrolledAt, h + Extension(sites, step, a))
  {
    if a in sites && sites[a] == Run(enrolledAt, h) {
      assert h + [] == h;
      match step
      case Enrolls(_, _) =>
      case Happens(_, event) => RunOn(enrolledAt, h, event);
      case SweepRound(_, failures, now) =>
        SweepRoundMeaning(sites, step, a);
        RunOn(enrolledAt, h, Swept(now, OutcomeOf(failures, a)));
    }
  }

  /** A sweep flags an overdue Agent exactly if it serves it. */
  lemma SweepFlagsIff(sites: map<string, Site>, step: FleetStep, a: string)
    requires CanHappen(sites, step) && step.SweepRound? && a in sites && Overdue(sites[a].agent, step.now)
    ensures Next(sites, step)[a].agent.lostAt.Some? <==> Serves(sites, step, a)
  {
    SweepRoundMeaning(sites, step, a);
  }

  /** Nothing is heard of the Agent. */
  predicate SilentIn(steps: seq<FleetStep>, a: string) {
    forall i :: 0 <= i < |steps| && steps[i].Happens? ==> steps[i].agent != a
  }

  /** The times of all sweeps. */
  function SweepTimes(steps: seq<FleetStep>): seq<int>
    decreases |steps|
  {
    if steps == [] then []
    else (if steps[0].SweepRound? then [steps[0].now] else []) + SweepTimes(steps[1..])
  }

  /** Every sweep that comes when the Agent is overdue serves it. */
  ghost predicate ServedWhenOverdue(sites: map<string, Site>, steps: seq<FleetStep>, a: string)
    requires Possible(sites, steps)
    decreases |steps|
  {
    steps == []
    || ((a in sites && steps[0].SweepRound? && Overdue(sites[a].agent, steps[0].now) ==> Serves(sites, steps[0], a))
        && ServedWhenOverdue(Next(sites, steps[0]), steps[1..], a))
  }

  /** Such an Agent's site goes as if every sweep were its own. */
  lemma {:induction false} SilentSite(sites: map<string, Site>, steps: seq<FleetStep>, a: string)
    requires Possible(sites, steps) && a in sites && SilentIn(steps, a) && ServedWhenOverdue(sites, steps, a)
    ensures a in After(sites, steps) && After(sites, steps)[a] == Sweeps(sites[a], SweepTimes(steps))
    decreases |steps|
  {
    if steps != [] {
      var next, rest := Next(sites, steps[0]), steps[1..];
      SilentSite(next, rest, a);
      if steps[0].SweepRound? {
        SweepRoundMeaning(sites, steps[0], a);
        assert next[a] == Sweep(sites[a], steps[0].now, Done);
        assert SweepTimes(steps)[1..] == SweepTimes(rest);
      } else {
        assert SweepTimes(steps) == SweepTimes(rest);
      }
    }
  }

  /** Over every run of the fleet whose sweeps are at most 60 seconds apart: an unflagged, unrevoked Agent
      silent since `s`, and served by the sweeps that find it overdue, is announced lost once, after
      s + 90 and no later than s + 150. */
  lemma SilentAgentIsAnnounced(sites: map<string, Site>, steps: seq<FleetStep>, a: string)
    requires Possible(sites, steps) && a in sites && SilentIn(steps, a) && ServedWhenOverdue(sites, steps, a)
    requires sites[a].agent.lostAt.None? && !sites[a].agent.revoked
    requires EveryMinute(SweepTimes(steps), sites[a].agent.lastSeenAt)
    ensures a in After(sites, steps)
    ensures var s := sites[a].agent.lastSeenAt;
            exists t :: && s + 90 < t <= s + 150 && t in SweepTimes(steps)
                        && After(sites, steps)[a] == Site(sites[a].agent.(lostAt := Some(t)),
                                                          sites[a].alerts + [Alert(Lost, t, true)])
  {
    SilentSite(sites, steps, a);
    SilentSiteIsAnnounced(sites[a], SweepTimes(steps));
  }

  const UNSEEN := Site(Agent(0, None, false), [])
  const ANNOUNCED := Site(Agent(0, Some(120), false), [Alert(Lost, 120, true)])

  /** For example an Agent last seen at 0 and swept at 60, when the query does not find it, and at 120. */
  lemma PromptRun(sites: map<string, Site>)
    requires sites == map["a" := UNSEEN]
    ensures var steps := [SweepRound([], map[], 60), SweepRound(["a"], map[], 120)];
            && Possible(sites, steps) && SilentIn(steps, "a") && ServedWhenOverdue(sites, steps, "a")
            && EveryMinute(SweepTimes(steps), 0) && After(sites, steps) == map["a" := ANNOUNCED]
  {
    var first, last := SweepRound([], map[], 60), SweepRound(["a"], map[], 120);
    LastSweepAnnounces(sites, last);
    assert CanHappen(sites, first) && Next(sites, first) == sites;
    assert [first, last][1..] == [last] && [first, last][0] == first;
    hide Next, CanHappen, Serves;
  }

  lemma LastSweepAnnounces(sites: map<string, Site>, last: FleetStep)
    requires sites == map["a" := UNSEEN] && last == SweepRound(["a"], map[], 120)
    ensures CanHappen(sites, last) && Serves(sites, last, "a") && Next(sites, last) == map["a" := ANNOUNCED]
    ensures Possible(sites, [last]) && After(sites, [last]) == Next(sites, last)
    ensures ServedWhenOverdue(sites, [last], "a") && SweepTimes([last]) == [120]
  {
    assert last.order[0] == "a" && Reaches(sites, last, "a");
    SweepRoundMeaning(sites, last, "a");
    assert UNSEEN.alerts + [Alert(Lost, 120, true)] == ANNOUNCED.alerts;
    assert Next(sites, last)["a"] == ANNOUNCED && Next(sites, last).Keys == {"a"};
    assert [last][1..] == [] && Possible(sites, [last]);
  }

  /** Every sweep of the run comes when `b` is overdue since `seen`, streams it before `a`, and fails to
      announce it; nothing is heard of the two. */
  predicate Starves(steps: seq<FleetStep>, b: string, a: string, seen: int) {
    SilentIn(steps, a) && SilentIn(steps, b)
    && forall i :: 0 <= i < |steps| && steps[i].SweepRound? ==>
         && seen < steps[i].now - LOSS_SECONDS && Get(steps[i].failures, b) == Some(Failed)
         && Before(steps[i].order, b, a)
  }

  predicate Before(order: seq<string>, b: string, a: string) {
    forall i :: 0 <= i < |order| && order[i] == a ==> exists j :: 0 <= j < i && order[j] == b
  }

  /** Then `a` is never announced, however long it has been silent. */
  lemma {:induction false} StarvedForever(sites: map<string, Site>, steps: seq<FleetStep>, b: string, a: string)
    requires Possible(sites, steps) && a in sites && b in sites
    requires !sites[b].agent.revoked && sites[b].agent.lostAt.None?
    requires Starves(steps, b, a, sites[b].agent.lastSeenAt)
    ensures a in After(sites, steps) && After(sites, steps)[a] == sites[a]
    decreases |steps|
  {
    if steps != [] {
      if steps[0].SweepRound? {
        SweepRoundMeaning(sites, steps[0], a);
        SweepRoundMeaning(sites, steps[0], b);
        assert Blocks(sites, b, steps[0].failures, steps[0].now);
        assert !Reaches(sites, steps[0], a);
      }
      StarvedForever(Next(sites, steps[0]), steps[1..], b, a);
    }
  }

  function MinuteSweeps(n: nat): seq<FleetStep> {
    seq(n, i requires 0 <= i < n => SweepRound(["b", "a"], map["b" := Failed], 91 + 60 * i))
  }

  /** Two Agents last seen at 0, swept every minute from 91 on: while the send to the first one's phones
      fails, the second one is not announced, whatever the number of sweeps. */
  lemma StarvingRun(n: nat, sites: map<string, Site>)
    requires sites == map["a" := Site(Agent(0, None, false), []), "b" := Site(Agent(0, None, false), [])]
    ensures Possible(sites, MinuteSweeps(n)) && "a" in After(sites, MinuteSweeps(n))
    ensures After(sites, MinuteSweeps(n))["a"] == Site(Agent(0, None, false), [])
  {
    StarvingIsPossible(MinuteSweeps(n), sites);
    StarvedForever(sites, MinuteSweeps(n), "b", "a");
  }

  lemma {:induction false} StarvingIsPossible(steps: seq<FleetStep>, sites: map<string, Site>)
    requires sites.Keys == {"a", "b"} && forall x :: x in sites ==> sites[x].agent.lastSeenAt == 0
    requires forall i :: 0 <= i < |steps| ==>
               steps[i].SweepRound? && steps[i].order == ["b", "a"] && steps[i].now > LOSS_SECONDS
    ensures Possible(sites, steps)
    decreases |steps|
  {
    if steps != [] {
      assert "b" in sites && "a" in sites;
      forall x | x in sites ensures Next(sites, steps[0])[x].agent.lastSeenAt == 0 {
        SweepRoundMeaning(sites, steps[0], x);
      }
      StarvingIsPossible(steps[1..], Next(sites, steps[0]));
    }
  }

  // ---------------------------------------------------------------- the relay

  datatype History = History(enrolledAt: int, events: seq<Event>) {
    function Add(e: Event): History {
      this.(events := events + [e])
    }
  }

  /** The site is the result of its own history, which has reached `clock`. */
  ghost predicate Follows(s: Site, h: History, clock: int) {
    && s == Run(h.enrolledAt, h.events) && InOrder(h.enrolledAt, h.events)
    && h.enrolledAt <= clock && forall i :: 0 <= i < |h.events| ==> h.events[i].at <= clock
  }

  lemma FollowsOn(s: Site, h: History, clock: int, e: Event)
    requires Follows(s, h, clock) && clock <= e.at
    ensures Follows(s, h, e.at) && Follows(Apply(s, e), h.Add(e), e.at)
  {
    hide Run, InOrder, Apply;
    var events := h.events + [e];
    assert forall i :: 0 <= i < |h.events| ==> events[i] == h.events[i];
    FrontInOrder(h.enrolledAt, h.events, e);
    RunOn(h.enrolledAt, h.events, e);
  }

  lemma RunOn(enrolledAt: int, h: seq<Event>, e: Event)
    ensures Run(enrolledAt, h + [e]) == Apply(Run(enrolledAt, h), e)
  {
    hide Apply;
    assert (h + [e])[..|h|] == h;
  }

  /** One sweep event for each of these Agents. */
  function AllSwept(histories: map<string, History>, order: seq<string>, failures: Failures, now: int):
    map<string, History>
    requires forall a :: a in order ==> a in histories
    ensures AllSwept(histories, order, failures, now).Keys == histories.Keys
  {
    if order == [] then histories
    else
      var n := |order| - 1;
      var before := AllSwept(histories, order[..n], failures, now);
      before[order[n] := before[order[n]].Add(Swept(now, OutcomeOf(failures, order[n])))]
  }

  /** Each Agent of the list gets its own one, and no other Agent any. */
  lemma {:induction false} AllSweptMeaning(histories: map<string, History>, order: seq<string>,
                                           failures: Failures, now: int)
    requires (forall a :: a in order ==> a in histories) && Distinct(order)
    ensures var after := AllSwept(histories, order, failures, now);
            && (forall i :: 0 <= i < |order| ==>
                  after[order[i]] == histories[order[i]].Add(Swept(now, OutcomeOf(failures, order[i]))))
            && (forall a :: a in histories && a !in order ==> after[a] == histories[a])
  {
    if order != [] {
      var n := |order| - 1;
      AllSweptMeaning(histories, order[..n], failures, now);
      assert order == order[..n] + [order[n]];
      assert order[n] !in order[..n];
    }
  }

  function OverdueCount(sites: map<string, Site>, order: seq<string>, now: int): nat
    requires forall a :: a in order ==> a in sites
  {
    if order == [] then 0
    else
      var a := order[|order| - 1];
      OverdueCount(sites, order[..|order| - 1], now) + if Overdue(sites[a].agent, now) then 1 else 0
  }

  /** The sweep's specification, unfolded by one Agent. */
  lemma OneMoreSwept(sites: map<string, Site>, histories: map<string, History>, order: seq<string>,
                     failures: Failures, now: int, i: nat)
    requires i < |order| && sites.Keys == histories.Keys && (forall a :: a in order ==> a in sites) && Distinct(order)
    ensures SweptSites(sites, order[..i], failures, now)[order[i]] == sites[order[i]]
    ensures Blocks(sites, order[i], failures, now)
       <==> Overdue(sites[order[i]].agent, now) && OutcomeOf(failures, order[i]) != Done
    ensures var a, outcome := order[i], OutcomeOf(failures, order[i]);
            var s, h := SweptSites(sites, order[..i], failures, now), AllSwept(histories, order[..i], failures, now);
            && SweptSites(sites, order[..i + 1], failures, now) == s[a := Sweep(s[a], now, outcome)]
            && AllSwept(histories, order[..i + 1], failures, now) == h[a := h[a].Add(Swept(now, outcome))]
            && OverdueCount(sites, order[..i + 1], now)
               == OverdueCount(sites, order[..i], now) + if Overdue(sites[a].agent, now) then 1 else 0
  {
    assert order[..i + 1][..i] == order[..i];
    SweptSitesMeaning(sites, order[..i], failures, now);
  }

  class RelayPresence {
    var sites: map<string, Site>
    ghost var histories: map<string, History>
    ghost var clock: int

    constructor (now: int)
      ensures Valid() && sites == map[] && histories == map[] && clock == now
    {
      sites, histories, clock := map[], map[], now;
    }

    ghost predicate Valid()
      reads this
    {
      sites.Keys == histories.Keys && forall a :: a in sites ==> Follows(sites[a], histories[a], clock)
    }

    method Enroll(a: string, now: int)
      requires Valid() && clock <= now && a !in sites
      modifies this
      ensures Valid() && clock == now && sites == Next(old(sites), Enrolls(a, now))
      ensures histories == old(histories)[a := History(now, [])]
    {
      Advance(now);
      assert Follows(Site(Agent(now, None, false), []), History(now, []), now);
      hide Follows;
      sites := sites[a := Site(Agent(now, None, false), [])];
      histories := histories[a := History(now, [])];
    }

    ghost method Advance(now: int)
      requires Valid() && clock <= now
      modifies this`clock
      ensures Valid() && clock == now
    {
      forall a | a in sites ensures Follows(sites[a], histories[a], now) {
        FollowsOn(sites[a], histories[a], clock, Touch(now));
      }
      clock := now;
    }

    /** Write one site after an event. */
    method Write(a: string, s: Site, ghost e: Event)
      requires Valid() && a in sites && clock <= e.at && s == Apply(sites[a], e)
      modifies this
      ensures Valid() && clock == e.at
      ensures sites == old(sites)[a := s] && histories == old(histories)[a := old(histories)[a].Add(e)]
    {
      hide Follows, Apply;
      FollowsOn(sites[a], histories[a], clock, e);
      Advance(e.at);
      sites, histories := sites[a := s], histories[a := histories[a].Add(e)];
    }

    /** `None` when the Agent is unknown or revoked; otherwise whether the request succeeds. */
    method Heartbeat(a: string, now: int, outcome: Outcome) returns (ok: Option<bool>)
      requires Valid() && clock <= now
      modifies this
      ensures Valid() && clock == now
      ensures a !in old(sites) ==> ok.None? && sites == old(sites) && histories == old(histories)
      ensures a in old(sites) ==>
                && histories == old(histories)[a := old(histories)[a].Add(Beat(now, outcome))]
                && sites == Next(old(sites), Happens(a, Beat(now, outcome)))
                && (ok.None? <==> old(sites)[a].agent.revoked)
      ensures ok == Some(true) ==> sites[a].agent == Agent(now, None, false)
      ensures ok == Some(false) ==> sites[a].agent == old(sites)[a].agent
    {
      hide Follows;
      if a !in sites {
        Advance(now);
        return None;
      }
      var s := sites[a];
      if s.agent.revoked {
        ok := None;
      } else if s.agent.lostAt.Some? && outcome == Failed {
        ok := Some(false);
      } else {
        if s.agent.lostAt.Some? {
          s := s.(alerts := s.alerts + [Alert(Reachable, now, outcome == Done)]);
        }
        ok := Some(s.agent.lostAt.None? || outcome == Done);
        if ok == Some(true) {
          s := s.(agent := s.agent.(lastSeenAt := now, lostAt := None));
        }
      }
      Write(a, s, Beat(now, outcome));
    }

    /** One Agent of the sweep; `false` when the handler does not get past it. */
    method SweepOne(a: string, now: int, outcome: Outcome) returns (ok: bool)
      requires Valid() && clock <= now && a in sites
      modifies this
      ensures Valid() && clock == now
      ensures sites == old(sites)[a := Sweep(old(sites)[a], now, outcome)]
      ensures histories == old(histories)[a := old(histories)[a].Add(Swept(now, outcome))]
      ensures ok <==> !Overdue(old(sites)[a].agent, now) || outcome == Done
    {
      hide Follows;
      var s := sites[a];
      ok := !Overdue(s.agent, now) || outcome == Done;
      if Overdue(s.agent, now) && outcome != Failed {
        s := s.(alerts := s.alerts + [Alert(Lost, now, ok)]);
        if ok {
          s := s.(agent := s.agent.(lostAt := Some(now)));
        }
      }
      Write(a, s, Swept(now, outcome));
    }

    /** Go through the Agents in the order the database streams them; a sweep that does not get through
        an announcement leaves the Agents after it as they were. */
    method SweepAll(order: seq<string>, failures: Failures, now: int)
      returns (lost: Option<nat>, ghost reached: nat)
      requires Valid() && clock <= now && CanHappen(sites, SweepRound(order, failures, now))
      modifies this
      ensures Valid() && clock == now && reached <= |order|
      ensures histories == AllSwept(old(histories), order[..reached], failures, now)
      ensures reached == Reach(old(sites), order, failures, now)
      ensures sites == Next(old(sites), SweepRound(order, failures, now))
      ensures lost.None? <==> 0 < reached && Blocks(old(sites), order[reached - 1], failures, now)
      ensures lost.Some? ==> lost.value == OverdueCount(old(sites), order, now)
    {
      hide Follows, SweptSites, AllSwept, OverdueCount, Reach;
      Advance(now);
      var count, stopped;
      count, stopped, reached := SweepUntilBlocked(order, failures, now);
      ReachIs(old(sites), order, failures, now, reached);
      lost := if stopped then None else Some(count);
    }

    /** What the loop has done after the first n Agents; `before` and `past` are what it started from. */
    ghost predicate SweptTo(before: map<string, Site>, past: map<string, History>, order: seq<string>,
                            failures: Failures, now: int, n: nat)
      reads this
    {
      && Valid() && clock == now && before.Keys == past.Keys
      && n <= |order| && CanHappen(before, SweepRound(order, failures, now))
      && sites == SweptSites(before, order[..n], failures, now)
      && histories == AllSwept(past, order[..n], failures, now)
    }

    lemma NothingSwept(order: seq<string>, failures: Failures, now: int)
      requires Valid() && clock == now && CanHappen(sites, SweepRound(order, failures, now))
      ensures SweptTo(sites, histories, order, failures, now, 0) && OverdueCount(sites, order[..0], now) == 0
      ensures order[..|order|] == order
    {
    }

    /** The loop; it stops after the first Agent that blocks. */
    method SweepUntilBlocked(order: seq<string>, failures: Failures, now: int)
      returns (count: nat, stopped: bool, ghost reached: nat)
      requires Valid() && clock == now && CanHappen(sites, SweepRound(order, failures, now))
      modifies this
      ensures SweptTo(old(sites), old(histories), order, failures, now, reached)
      ensures forall j :: 0 <= j < reached - 1 ==> !Blocks(old(sites), order[j], failures, now)
      ensures stopped <==> 0 < reached && Blocks(old(sites), order[reached - 1], failures, now)
      ensures !stopped ==> reached == |order| && count == OverdueCount(old(sites), order, now)
    {
      hide SweptTo, Blocks, OverdueCount, Valid;
      ghost var before, past := sites, histories;
      count, stopped := 0, false;
      NothingSwept(order, failures, now);
      for i := 0 to |order|
        invariant SweptTo(before, past, order, failures, now, i)
        invariant forall j :: 0 <= j < i ==> !Blocks(before, order[j], failures, now)
        invariant count == OverdueCount(before, order[..i], now)
      {
        var overdue, ok := SweepNext(before, past, order, failures, now, i);
        if !ok {
          return count, true, i + 1;
        }
        count := if overdue then count + 1 else count;
      }
      reached := |order|;
    }

    method SweepNext(ghost before: map<string, Site>, ghost past: map<string, History>, order: seq<string>,
                     failures: Failures, now: int, i: nat) returns (overdue: bool, ok: bool)
      requires i < |order| && SweptTo(before, past, order, failures, now, i)
      modifies this
      ensures SweptTo(before, past, order, failures, now, i + 1)
      ensures ok <==> !Blocks(before, order[i], failures, now)
      ensures OverdueCount(before, order[..i + 1], now)
           == OverdueCount(before, order[..i], now) + if overdue then 1 else 0
    {
      OneMoreSwept(before, past, order, failures, now, i);
      hide Follows, Sweep, AllSwept, SweptSites, OverdueCount, Blocks;
      overdue := Overdue(sites[order[i]].agent, now);
      ok := SweepOne(order[i], now, OutcomeOf(failures, order[i]));
    }
  }
}
