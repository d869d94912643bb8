/**
 * The fallback language model (pkg/providers/fantasy_fallback.go): an ordered
 * list of candidate models tried one after another, with a shared cooldown
 * tracker deciding which providers may be called.
 *
 * The tracker's own logic is not part of this model: it is an availability
 * predicate over the log of MarkSuccess/MarkFailure calls made so far. What a
 * candidate's Generate/Stream call returns, and whether the context has been
 * cancelled, are inputs.
 */
module Fallback {
  import opened Wrappers
  import opened Strings
  import opened Configuration
  import opened Protocol

  datatype FailoverReason = RateLimit | Auth | Timeout | Overloaded | Unknown

  /** The keyword rules of the classification, most important first. */
  const ClassificationRules: seq<(FailoverReason, seq<string>)> := [
    (RateLimit, ["rate", "429"]),
    (Auth, ["auth", "401", "403"]),
    (Timeout, ["timeout"]),
    (Overloaded, ["overloaded", "529"])
  ]

  predicate MentionsAny(msg: string, words: seq<string>) {
    exists w | w in words :: Contains(msg, w)
  }

  /** Reference reading of the rules: the reason of the first rule any of whose words occurs. */
  function FirstMatchingRule(rules: seq<(FailoverReason, seq<string>)>, msg: string): FailoverReason {
    if rules == [] then Unknown
    else if MentionsAny(msg, rules[0].1) then rules[0].0
    else FirstMatchingRule(rules[1..], msg)
  }

  lemma MentionsAnyOfPair(msg: string, a: string, b: string)
    ensures MentionsAny(msg, [a, b]) <==> Contains(msg, a) || Contains(msg, b)
  {
    if Contains(msg, b) { assert b in [a, b]; }
  }

  lemma MentionsAnyOfTriple(msg: string, a: string, b: string, c: string)
    ensures MentionsAny(msg, [a, b, c]) <==> Contains(msg, a) || Contains(msg, b) || Contains(msg, c)
  {
    if Contains(msg, b) { assert b in [a, b, c]; }
    if Contains(msg, c) { assert c in [a, b, c]; }
  }

  /** The rule table read out one rule at a time. */
  lemma RulesInOrder(msg: string)
    ensures FirstMatchingRule(ClassificationRules, msg) ==
      if MentionsAny(msg, ["rate", "429"]) then RateLimit
      else if MentionsAny(msg, ["auth", "401", "403"]) then Auth
      else if MentionsAny(msg, ["timeout"]) then Timeout
      else if MentionsAny(msg, ["overloaded", "529"]) then Overloaded
      else Unknown
  {
    var rules := ClassificationRules;
    assert rules[0] == (RateLimit, ["rate", "429"]) && rules[1] == (Auth, ["auth", "401", "403"]);
    assert rules[2] == (Timeout, ["timeout"]) && rules[3] == (Overloaded, ["overloaded", "529"]);
    assert rules[1..][1..] == rules[2..] && rules[1..][0] == rules[1];
    assert rules[2..][1..] == rules[3..] && rules[2..][0] == rules[2];
    assert rules[3..][1..] == rules[4..] && rules[3..][0] == rules[3];
    assert FirstMatchingRule(rules[4..], msg) == Unknown;
    assert FirstMatchingRule(rules[3..], msg) ==
      if MentionsAny(msg, rules[3].1) then Overloaded else FirstMatchingRule(rules[4..], msg);
    assert FirstMatchingRule(rules[2..], msg) ==
      if MentionsAny(msg, rules[2].1) then Timeout else FirstMatchingRule(rules[3..], msg);
    assert FirstMatchingRule(rules[1..], msg) ==
      if MentionsAny(msg, rules[1].1) then Auth else FirstMatchingRule(rules[2..], msg);
    assert FirstMatchingRule(rules, msg) ==
      if MentionsAny(msg, rules[0].1) then RateLimit else FirstMatchingRule(rules[1..], msg);
  }

  /**
   * classifyFantasyError, as the switch is written. It agrees with the rule
   * table: the first rule with a matching keyword wins.
   */
  function ClassifyError(msg: string): FailoverReason {
    if Contains(msg, "rate") || Contains(msg, "429") then RateLimit
    else if Contains(msg, "auth") || Contains(msg, "401") || Contains(msg, "403") then Auth
    else if Contains(msg, "timeout") then Timeout
    else if Contains(msg, "overloaded") || Contains(msg, "529") then Overloaded
    else Unknown
  }

  /** The switch of classifyError is the first matching rule of the table, in its order. */
  lemma ClassifyErrorFollowsRules(msg: string)
    ensures ClassifyError(msg) == FirstMatchingRule(ClassificationRules, msg)
  {
    RulesInOrder(msg);
    MentionsAnyOfPair(msg, "rate", "429");
    MentionsAnyOfTriple(msg, "auth", "401", "403");
    assert MentionsAny(msg, ["timeout"]) <==> Contains(msg, "timeout") by {
      assert "timeout" in ["timeout"];
    }
    MentionsAnyOfPair(msg, "overloaded", "529");
  }

  /** The reason recorded for a failed call: its message lowercased, then classified. */
  function ReasonOf(message: string): FailoverReason {
    ClassifyError(ToLower(message))
  }

  /** The calls the chain makes on the tracker. */
  datatype CooldownEvent = MarkedSuccess(provider: string) | MarkedFailure(provider: string, reason: FailoverReason)

  /** A CooldownTracker: the calls it has received, and its availability verdict over them. */
  class CooldownTracker {
    var log: seq<CooldownEvent>
    const available: (string, seq<CooldownEvent>) -> bool

    constructor (available: (string, seq<CooldownEvent>) -> bool)
      ensures log == [] && this.available == available
    {
      log := [];
      this.available := available;
    }

    method IsAvailable(provider: string) returns (b: bool)
      ensures b == available(provider, log)
    {
      b := available(provider, log);
    }

    method MarkSuccess(provider: string)
      modifies this`log
      ensures log == old(log) + [MarkedSuccess(provider)]
    {
      log := log + [MarkedSuccess(provider)];
    }

    method MarkFailure(provider: string, reason: FailoverReason)
      modifies this`log
      ensures log == old(log) + [MarkedFailure(provider, reason)]
    {
      log := log + [MarkedFailure(provider, reason)];
    }
  }

  datatype Candidate = Candidate(model: LanguageModel, provider: string, modelId: string)

  /** What one candidate call returns: a response, or an error with its message. */
  datatype CallOutcome = Success(response: string) | Failure(message: string)

  /**
   * The result of Generate or Stream. Every variant other than Response is a
   * non-nil error, so the chain never yields a nil response with a nil error.
   */
  datatype ChainResult =
    | Response(response: string)
    | ContextDone
    | Aborted(message: string)
    | Exhausted(lastError: Option<string>)

  /** Everything a run of the chain depends on besides its position. */
  datatype Setting = Setting(
    cands: seq<Candidate>,
    hasCooldown: bool,
    available: (string, seq<CooldownEvent>) -> bool,
    outcome: nat -> CallOutcome,
    cancelFrom: Option<nat>,
    abortsOn: string -> bool,
    reasonOf: string -> FailoverReason)
  {
    /** The context is found cancelled by the check made before candidate i. */
    predicate CancelledAt(i: nat) {
      cancelFrom.Some? && cancelFrom.value <= i
    }
  }

  /** Both "invalid" and "request" occur in the (lowercased) text. */
  predicate MentionsInvalidRequest(lower: string) {
    Contains(lower, "invalid") && Contains(lower, "request")
  }

  /** The check Generate makes on an error message before giving up on the chain. */
  predicate IsInvalidRequest(message: string) {
    MentionsInvalidRequest(ToLower(message))
  }

  /** The result, the tracker calls made, and the candidates invoked, in order. */
  datatype Trace = Trace(result: ChainResult, events: seq<CooldownEvent>, invoked: seq<nat>)

  /** The event recorded after calling candidate k, when there is a tracker. */
  function EventFor(s: Setting, k: nat): CooldownEvent
    requires k < |s.cands|
  {
    match s.outcome(k)
    case Success(_) => MarkedSuccess(s.cands[k].provider)
    case Failure(msg) => MarkedFailure(s.cands[k].provider, s.reasonOf(msg))
  }

  /** The tracker calls after invoking candidate k: its event, or none without a tracker. */
  function EventsAfter(s: Setting, k: nat): (ev: seq<CooldownEvent>)
    requires k < |s.cands|
    ensures |ev| <= 1
  {
    if s.hasCooldown then [EventFor(s, k)] else []
  }

  /** What the loop does at one candidate: stop with a result, or go on to the next. */
  datatype Step =
    | Stop(result: ChainResult, events: seq<CooldownEvent>, invoked: seq<nat>)
    | Next(events: seq<CooldownEvent>, invoked: seq<nat>, lastErr: Option<string>)

  /** One iteration of the candidate loop at candidate i. */
  function StepAt(s: Setting, i: nat, log: seq<CooldownEvent>, lastErr: Option<string>): (st: Step)
    requires i < |s.cands|
    ensures st.invoked == [] || st.invoked == [i]
    ensures st.events == [] || (st.invoked == [i] && st.events == EventsAfter(s, i))
    ensures st.Next? && st.invoked == [i] ==> st.events == EventsAfter(s, i)
  {
    if s.CancelledAt(i) then Stop(ContextDone, [], [])
    else if s.hasCooldown && !s.available(s.cands[i].provider, log) then Next([], [], lastErr)
    else match s.outcome(i)
      case Success(resp) => Stop(Response(resp), EventsAfter(s, i), [i])
      case Failure(msg) =>
        if s.abortsOn(msg) then Stop(Aborted(msg), [], [i])
        else Next(EventsAfter(s, i), [i], Some(msg))
  }

  /** A trace `t` preceded by the events `ev` and invocations `inv` already made. */
  function After(ev: seq<CooldownEvent>, inv: seq<nat>, t: Trace): Trace {
    Trace(t.result, ev + t.events, inv + t.invoked)
  }

  lemma AfterAfter(ev1: seq<CooldownEvent>, inv1: seq<nat>, ev2: seq<CooldownEvent>, inv2: seq<nat>, t: Trace)
    ensures After(ev1, inv1, After(ev2, inv2, t)) == After(ev1 + ev2, inv1 + inv2, t)
  {
    assert ev1 + (ev2 + t.events) == (ev1 + ev2) + t.events;
    assert inv1 + (inv2 + t.invoked) == (inv1 + inv2) + t.invoked;
  }

  /**
   * The loop from candidate i on, with tracker log `log` and last error
   * `lastErr`. Generate aborts on an invalid request, Stream never aborts.
   */
  function Run(s: Setting, i: nat, log: seq<CooldownEvent>, lastErr: Option<string>): Trace
    decreases |s.cands| - i
  {
    if i >= |s.cands| then Trace(Exhausted(lastErr), [], [])
    else match StepAt(s, i, log, lastErr)
      case Stop(r, ev, inv) => Trace(r, ev, inv)
      case Next(ev, inv, err) => After(ev, inv, Run(s, i + 1, log + ev, err))
  }

  /** One unfolding of Run at a candidate that is there. */
  lemma RunAt(s: Setting, i: nat, log: seq<CooldownEvent>, lastErr: Option<string>)
    requires i < |s.cands|
    ensures var st := StepAt(s, i, log, lastErr);
      Run(s, i, log, lastErr) ==
        if st.Stop? then Trace(st.result, st.events, st.invoked)
        else After(st.events, st.invoked, Run(s, i + 1, log + st.events, st.lastErr))
  {
  }

  /**
   * One iteration of the loop that computes Run: if the run so far is `full`
   * with `evSoFar` and `inv` done before candidate i, the step at i either ends
   * it or leaves the rest to the run from i + 1.
   */
  lemma LoopStep(full: Trace, s: Setting, i: nat, log0: seq<CooldownEvent>, evSoFar: seq<CooldownEvent>,
                 inv: seq<nat>, lastErr: Option<string>)
    requires i < |s.cands|
    requires full == After(evSoFar, inv, Run(s, i, log0 + evSoFar, lastErr))
    ensures var st := StepAt(s, i, log0 + evSoFar, lastErr);
      (log0 + evSoFar) + st.events == log0 + (evSoFar + st.events) &&
      if st.Stop? then full == Trace(st.result, evSoFar + st.events, inv + st.invoked)
      else full == After(evSoFar + st.events, inv + st.invoked, Run(s, i + 1, log0 + (evSoFar + st.events), st.lastErr))
  {
    var st := StepAt(s, i, log0 + evSoFar, lastErr);
    RunAt(s, i, log0 + evSoFar, lastErr);
    assert (log0 + evSoFar) + st.events == log0 + (evSoFar + st.events);
    if st.Next? {
      AfterAfter(evSoFar, inv, st.events, st.invoked, Run(s, i + 1, (log0 + evSoFar) + st.events, st.lastErr));
    }
  }

  // ---- Which candidates are invoked ----

  /**
   * Only candidates from i on are invoked, each at most once and in increasing
   * order; with a tracker, every invoked candidate but possibly the last has
   * its event recorded.
   */
  ghost predicate Ordered(s: Setting, i: nat, t: Trace) {
    (forall j :: 0 <= j < |t.invoked| ==> i <= t.invoked[j] < |s.cands|) &&
    (forall a, b :: 0 <= a < b < |t.invoked| ==> t.invoked[a] < t.invoked[b]) &&
    |t.events| <= |t.invoked| && (s.hasCooldown ==> |t.invoked| <= |t.events| + 1)
  }

  lemma AfterOrdered(s: Setting, i: nat, ev: seq<CooldownEvent>, inv: seq<nat>, rest: Trace)
    requires i < |s.cands| && Ordered(s, i + 1, rest)
    requires (inv == [] && ev == []) || (inv == [i] && |ev| <= 1 && (s.hasCooldown ==> |ev| == 1))
    ensures Ordered(s, i, After(ev, inv, rest))
  {
    var t := After(ev, inv, rest);
    if inv == [i] {
      assert forall j :: 0 < j < |t.invoked| ==> t.invoked[j] == rest.invoked[j - 1];
    } else {
      assert t.invoked == rest.invoked && t.events == rest.events;
    }
  }

  lemma {:induction false} RunOrdered(s: Setting, i: nat, log: seq<CooldownEvent>, lastErr: Option<string>)
    ensures Ordered(s, i, Run(s, i, log, lastErr))
    decreases |s.cands| - i
  {
    if i < |s.cands| {
      var st := StepAt(s, i, log, lastErr);
      RunAt(s, i, log, lastErr);
      if st.Next? {
        RunOrdered(s, i + 1, log + st.events, st.lastErr);
        AfterOrdered(s, i, st.events, st.invoked, Run(s, i + 1, log + st.events, st.lastErr));
      }
    }
  }

  // ---- The tracker calls ----

  /**
   * The tracker calls of a trace: none without a tracker; with one, exactly one
   * per invoked candidate except an aborting one, its success or its
   * classified failure, in invocation order.
   */
  ghost predicate EventsMatch(s: Setting, i: nat, t: Trace) {
    Ordered(s, i, t) &&
    (!s.hasCooldown ==> t.events == []) &&
    (s.hasCooldown ==>
      |t.events| == |t.invoked| - (if t.result.Aborted? then 1 else 0) &&
      forall j :: 0 <= j < |t.events| ==> t.events[j] == EventFor(s, t.invoked[j]))
  }

  lemma AfterEventsMatch(s: Setting, i: nat, ev: seq<CooldownEvent>, inv: seq<nat>, rest: Trace)
    requires i < |s.cands| && EventsMatch(s, i + 1, rest) && Ordered(s, i, After(ev, inv, rest))
    requires (inv == [] && ev == []) || (inv == [i] && ev == EventsAfter(s, i))
    ensures EventsMatch(s, i, After(ev, inv, rest))
  {
    var t := After(ev, inv, rest);
    if inv == [i] && s.hasCooldown {
      forall j | 0 <= j < |t.events| ensures t.events[j] == EventFor(s, t.invoked[j]) {
        if j > 0 { assert t.events[j] == rest.events[j - 1] && t.invoked[j] == rest.invoked[j - 1]; }
      }
    } else if inv == [] {
      assert t.invoked == rest.invoked && t.events == rest.events;
    }
  }

  lemma {:induction false} RunEvents(s: Setting, i: nat, log: seq<CooldownEvent>, lastErr: Option<string>)
    ensures EventsMatch(s, i, Run(s, i, log, lastErr))
    decreases |s.cands| - i
  {
    RunOrdered(s, i, log, lastErr);
    if i < |s.cands| {
      var st := StepAt(s, i, log, lastErr);
      RunAt(s, i, log, lastErr);
      if st.Next? {
        RunEvents(s, i + 1, log + st.events, st.lastErr);
        AfterEventsMatch(s, i, st.events, st.invoked, Run(s, i + 1, log + st.events, st.lastErr));
      }
    }
  }

  /**
   * With a tracker, every invoked candidate was available on the log as it
   * stood when it was reached: `log` followed by the events recorded before it.
   */
  ghost predicate InvokedWhenAvailable(s: Setting, i: nat, log: seq<CooldownEvent>, t: Trace)
    requires s.hasCooldown
  {
    Ordered(s, i, t) &&
    forall j :: 0 <= j < |t.invoked| ==> s.available(s.cands[t.invoked[j]].provider, log + t.events[..j])
  }

  lemma AfterAvailable(s: Setting, i: nat, log: seq<CooldownEvent>, ev: seq<CooldownEvent>, inv: seq<nat>, rest: Trace)
    requires i < |s.cands| && s.hasCooldown
    requires InvokedWhenAvailable(s, i + 1, log + ev, rest) && Ordered(s, i, After(ev, inv, rest))
    requires (inv == [] && ev == []) || (inv == [i] && |ev| == 1 && s.available(s.cands[i].provider, log))
    ensures InvokedWhenAvailable(s, i, log, After(ev, inv, rest))
  {
    var t := After(ev, inv, rest);
    if inv == [i] {
      forall j | 0 <= j < |t.invoked|
        ensures s.available(s.cands[t.invoked[j]].provider, log + t.events[..j])
      {
        if j > 0 {
          assert t.invoked[j] == rest.invoked[j - 1];
          assert log + t.events[..j] == (log + ev) + rest.events[..j - 1];
        } else {
          assert log + t.events[..0] == log;
        }
      }
    } else {
      assert t.invoked == rest.invoked && t.events == rest.events && log + ev == log;
    }
  }

  /** With a tracker, a candidate is invoked only when it is available on the log as it stands then. */
  lemma {:induction false} RunInvokedAvailable(s: Setting, i: nat, log: seq<CooldownEvent>, lastErr: Option<string>)
    requires s.hasCooldown
    ensures InvokedWhenAvailable(s, i, log, Run(s, i, log, lastErr))
    decreases |s.cands| - i
  {
    RunOrdered(s, i, log, lastErr);
    if i < |s.cands| {
      var st := StepAt(s, i, log, lastErr);
      RunAt(s, i, log, lastErr);
      if st.invoked == [i] {
        assert s.available(s.cands[i].provider, log);
      }
      if st.Next? {
        RunInvokedAvailable(s, i + 1, log + st.events, st.lastErr);
        AfterAvailable(s, i, log, st.events, st.invoked, Run(s, i + 1, log + st.events, st.lastErr));
      } else if st.invoked == [i] {
        assert log + st.events[..0] == log;
      }
    }
  }

  // ---- How the run ends ----

  /** Every invoked candidate but the last failed with an error that does not abort the chain. */
  ghost predicate FailedBeforeLast(s: Setting, t: Trace) {
    forall j :: 0 <= j < |t.invoked| - 1 ==>
      s.outcome(t.invoked[j]).Failure? && !s.abortsOn(s.outcome(t.invoked[j]).message)
  }

  /** The last invoked candidate, if any, failed with an error that does not abort the chain. */
  ghost predicate LastFailed(s: Setting, t: Trace) {
    t.invoked != [] ==>
      s.outcome(t.invoked[|t.invoked| - 1]).Failure? &&
      !s.abortsOn(s.outcome(t.invoked[|t.invoked| - 1]).message)
  }

  /**
   * The result agrees with the last invoked candidate: a response is its
   * success, an abort its aborting error; on exhaustion and cancellation it
   * failed too, and exhaustion reports its message (or `lastErr` when no
   * candidate was invoked).
   */
  ghost predicate ResultFits(s: Setting, lastErr: Option<string>, t: Trace) {
    match t.result
    case Response(resp) => t.invoked != [] && s.outcome(t.invoked[|t.invoked| - 1]) == Success(resp)
    case Aborted(msg) =>
      t.invoked != [] && s.outcome(t.invoked[|t.invoked| - 1]) == Failure(msg) && s.abortsOn(msg)
    case Exhausted(err) =>
      LastFailed(s, t) &&
      err == (if t.invoked == [] then lastErr else Some(s.outcome(t.invoked[|t.invoked| - 1]).message))
    case ContextDone => LastFailed(s, t)
  }

  lemma StopFits(s: Setting, i: nat, log: seq<CooldownEvent>, lastErr: Option<string>)
    requires i < |s.cands| && StepAt(s, i, log, lastErr).Stop?
    ensures var st := StepAt(s, i, log, lastErr);
      ResultFits(s, lastErr, Trace(st.result, st.events, st.invoked)) &&
      FailedBeforeLast(s, Trace(st.result, st.events, st.invoked))
  {
  }

  lemma AfterFits(s: Setting, i: nat, lastErr: Option<string>, ev: seq<CooldownEvent>, inv: seq<nat>,
                  err: Option<string>, rest: Trace)
    requires ResultFits(s, err, rest) && FailedBeforeLast(s, rest)
    requires (inv == [] && err == lastErr) ||
      (inv == [i] && s.outcome(i).Failure? && !s.abortsOn(s.outcome(i).message) && err == Some(s.outcome(i).message))
    ensures ResultFits(s, lastErr, After(ev, inv, rest)) && FailedBeforeLast(s, After(ev, inv, rest))
  {
    var t := After(ev, inv, rest);
    if inv == [i] {
      assert t.invoked[0] == i;
      assert forall j :: 0 < j < |t.invoked| ==> t.invoked[j] == rest.invoked[j - 1];
    } else {
      assert t.invoked == rest.invoked;
    }
  }

  lemma {:induction false} RunFits(s: Setting, i: nat, log: seq<CooldownEvent>, lastErr: Option<string>)
    ensures ResultFits(s, lastErr, Run(s, i, log, lastErr)) && FailedBeforeLast(s, Run(s, i, log, lastErr))
    decreases |s.cands| - i
  {
    if i < |s.cands| {
      var st := StepAt(s, i, log, lastErr);
      RunAt(s, i, log, lastErr);
      if st.Stop? {
        StopFits(s, i, log, lastErr);
      } else {
        RunFits(s, i + 1, log + st.events, st.lastErr);
        AfterFits(s, i, lastErr, st.events, st.invoked, st.lastErr, Run(s, i + 1, log + st.events, st.lastErr));
      }
    }
  }

  /**
   * A response comes from the last invoked candidate, whose call succeeded;
   * every candidate invoked before it failed.
   */
  lemma RunResponse(s: Setting, i: nat, log: seq<CooldownEvent>, lastErr: Option<string>)
    ensures var t := Run(s, i, log, lastErr);
      t.result.Response? ==>
        |t.invoked| > 0 && s.outcome(t.invoked[|t.invoked| - 1]) == Success(t.result.response) &&
        forall j :: 0 <= j < |t.invoked| - 1 ==> s.outcome(t.invoked[j]).Failure?
  {
    RunFits(s, i, log, lastErr);
  }

  /**
   * An abort happens on the last invoked candidate, whose error the setting
   * aborts on; every candidate before it failed with an error that does not.
   */
  lemma RunAbort(s: Setting, i: nat, log: seq<CooldownEvent>, lastErr: Option<string>)
    ensures var t := Run(s, i, log, lastErr);
      t.result.Aborted? ==>
        |t.invoked| > 0 && s.outcome(t.invoked[|t.invoked| - 1]) == Failure(t.result.message) &&
        s.abortsOn(t.result.message) && FailedBeforeLast(s, t)
  {
    RunFits(s, i, log, lastErr);
  }

  /**
   * When the candidates run out, every invoked candidate failed, and the error
   * wraps the message of the last one (or the incoming last error if none was invoked).
   */
  lemma RunExhausted(s: Setting, i: nat, log: seq<CooldownEvent>, lastErr: Option<string>)
    ensures var t := Run(s, i, log, lastErr);
      t.result.Exhausted? ==>
        (forall j :: 0 <= j < |t.invoked| ==> s.outcome(t.invoked[j]).Failure?) &&
        t.result.lastError == (if t.invoked == [] then lastErr
                               else Some(s.outcome(t.invoked[|t.invoked| - 1]).message))
  {
    RunFits(s, i, log, lastErr);
  }

  /** Cancellation stops the run before the candidate it is noticed at; none from there on is invoked. */
  ghost predicate StopsBeforeCancel(s: Setting, t: Trace) {
    (t.result.ContextDone? ==> s.cancelFrom.Some?) &&
    (s.cancelFrom.Some? ==> forall j :: 0 <= j < |t.invoked| ==> t.invoked[j] < s.cancelFrom.value)
  }

  lemma {:induction false} RunCancelled(s: Setting, i: nat, log: seq<CooldownEvent>, lastErr: Option<string>)
    ensures StopsBeforeCancel(s, Run(s, i, log, lastErr))
    decreases |s.cands| - i
  {
    if i < |s.cands| {
      var st := StepAt(s, i, log, lastErr);
      RunAt(s, i, log, lastErr);
      if st.Next? {
        var rest := Run(s, i + 1, log + st.events, st.lastErr);
        RunCancelled(s, i + 1, log + st.events, st.lastErr);
        if st.invoked == [i] && s.cancelFrom.Some? {
          var t := After(st.events, st.invoked, rest);
          assert forall j :: 0 < j < |t.invoked| ==> t.invoked[j] == rest.invoked[j - 1];
        }
      }
    }
  }

  /** The candidates built from the fallback configs, in order; a config that fails to build is dropped. */
  function BuildCandidates(cfgs: seq<ModelConfig>, providerName: LanguageModel -> string, sdk: Sdk): (r: seq<Candidate>)
    ensures |r| <= |cfgs|
  {
    if cfgs == [] then []
    else BuildCandidates(cfgs[..|cfgs| - 1], providerName, sdk) + BuiltCandidate(cfgs[|cfgs| - 1], providerName, sdk)
  }

  /** Every built candidate comes from a config that builds, and carries that model's provider and identifier. */
  lemma {:induction false} BuildCandidatesFromConfigs(cfgs: seq<ModelConfig>, providerName: LanguageModel -> string, sdk: Sdk)
    ensures forall c :: c in BuildCandidates(cfgs, providerName, sdk) ==>
      c.provider == providerName(c.model) && c.modelId == c.model.modelId &&
      exists k :: 0 <= k < |cfgs| && FantasyModelFromConfig(Some(cfgs[k]), sdk).model == Ok(c.model)
  {
    if cfgs != [] {
      var front := cfgs[..|cfgs| - 1];
      BuildCandidatesFromConfigs(front, providerName, sdk);
      forall c | c in BuildCandidates(cfgs, providerName, sdk)
        ensures c.provider == providerName(c.model) && c.modelId == c.model.modelId &&
          exists k :: 0 <= k < |cfgs| && FantasyModelFromConfig(Some(cfgs[k]), sdk).model == Ok(c.model)
      {
        if c in BuildCandidates(front, providerName, sdk) {
          var k :| 0 <= k < |front| && FantasyModelFromConfig(Some(front[k]), sdk).model == Ok(c.model);
          assert front[k] == cfgs[k];
        } else {
          assert FantasyModelFromConfig(Some(cfgs[|cfgs| - 1]), sdk).model == Ok(c.model);
        }
      }
    }
  }

  /** The candidate for one fallback config, or None when FantasyModelFromConfig fails on it. */
  function BuildFallback(cfg: ModelConfig, providerName: LanguageModel -> string, sdk: Sdk): (r: Option<Candidate>)
  {
    match FantasyModelFromConfig(Some(cfg), sdk).model
    case Ok(model) => Some(Candidate(model, providerName(model), model.modelId))
    case Err(_) => None
  }

  function BuiltCandidate(cfg: ModelConfig, providerName: LanguageModel -> string, sdk: Sdk): seq<Candidate> {
    var b := BuildFallback(cfg, providerName, sdk);
    if b.Some? then [b.value] else []
  }

  lemma BuildCandidatesStep(first: Candidate, cfgs: seq<ModelConfig>, i: nat, providerName: LanguageModel -> string, sdk: Sdk)
    requires i < |cfgs|
    ensures var built := BuildFallback(cfgs[i], providerName, sdk);
      [first] + BuildCandidates(cfgs[..i + 1], providerName, sdk)
      == [first] + BuildCandidates(cfgs[..i], providerName, sdk) + (if built.Some? then [built.value] else [])
  {
    assert cfgs[..i + 1][..i] == cfgs[..i];
  }

  /** The number of configs that build. */
  function BuildSuccesses(cfgs: seq<ModelConfig>, sdk: Sdk): nat {
    if cfgs == [] then 0
    else BuildSuccesses(cfgs[..|cfgs| - 1], sdk) + (if FantasyModelFromConfig(Some(cfgs[|cfgs| - 1]), sdk).model.Ok? then 1 else 0)
  }

  /** Building keeps every config that builds: the count equals the number of successful builds. */
  lemma {:induction false} BuildCandidatesCount(cfgs: seq<ModelConfig>, providerName: LanguageModel -> string, sdk: Sdk)
    ensures |BuildCandidates(cfgs, providerName, sdk)| == BuildSuccesses(cfgs, sdk)
  {
    if cfgs != [] {
      BuildCandidatesCount(cfgs[..|cfgs| - 1], providerName, sdk);
    }
  }

  /** The candidate loop of NewFallbackLanguageModel: the primary, then each fallback that builds. */
  method CandidateList(primary: LanguageModel, fallbackCfgs: seq<ModelConfig>,
                       providerName: LanguageModel -> string, sdk: Sdk)
    returns (cands: seq<Candidate>)
    ensures cands == [Candidate(primary, providerName(primary), primary.modelId)]
                     + BuildCandidates(fallbackCfgs, providerName, sdk)
  {
    var first := Candidate(primary, providerName(primary), primary.modelId);
    cands := [first];
    for i := 0 to |fallbackCfgs|
      invariant cands == [first] + BuildCandidates(fallbackCfgs[..i], providerName, sdk)
    {
      BuildCandidatesStep(first, fallbackCfgs, i, providerName, sdk);
      var built := BuildFallback(fallbackCfgs[i], providerName, sdk);
      if built.Some? {
        cands := cands + [built.value];
      }
    }
    assert fallbackCfgs[..|fallbackCfgs|] == fallbackCfgs;
  }

  class FallbackLanguageModel {
    const primary: LanguageModel
    const candidates: seq<Candidate>
    const cooldown: CooldownTracker?

    /** The primary is the first candidate. */
    predicate Valid()
      reads this
    {
      |candidates| > 0 && candidates[0].model == primary
    }

    /**
     * NewFallbackLanguageModel. `providerName` stands for the SDK's
     * LanguageModel.Provider(); Model() is the model identifier; `sdk` is how
     * the SDK's constructors fare on each fallback config. The fallback
     * configs are non-nil: for a nil one, the warning logged after the failed
     * build reads its Model field and Go panics.
     */
    constructor (primary: LanguageModel, fallbackCfgs: seq<ModelConfig>, cooldown: CooldownTracker?,
                 providerName: LanguageModel -> string, sdk: Sdk)
      ensures Valid()
      ensures this.primary == primary && this.cooldown == cooldown
      ensures candidates == [Candidate(primary, providerName(primary), primary.modelId)]
                            + BuildCandidates(fallbackCfgs, providerName, sdk)
    {
      var cands := CandidateList(primary, fallbackCfgs, providerName, sdk);
      this.primary := primary;
      this.cooldown := cooldown;
      candidates := cands;
    }

    /** The setting a Generate (abort = true) or Stream (abort = false) call runs in. */
    ghost function SettingFor(outcome: nat -> CallOutcome, cancelFrom: Option<nat>, abort: bool): Setting {
      Setting(candidates, cooldown != null,
        if cooldown != null then cooldown.available else (_, _) => true,
        outcome, cancelFrom, if abort then IsInvalidRequest else _ => false, ReasonOf)
    }

    ghost function TrackerLog(): seq<CooldownEvent>
      reads this, cooldown
    {
      if cooldown != null then cooldown.log else []
    }

    /**
     * One pass of the candidate loop at candidate i: the context check, the
     * cooldown check, the call, and the tracker call that follows it.
     */
    method Attempt(outcome: nat -> CallOutcome, cancelFrom: Option<nat>, abort: bool, i: nat, lastErr: Option<string>)
      returns (st: Step)
      requires i < |candidates|
      modifies cooldown
      ensures st == StepAt(SettingFor(outcome, cancelFrom, abort), i, old(TrackerLog()), lastErr)
      ensures TrackerLog() == old(TrackerLog()) + st.events
    {
      ghost var s := SettingFor(outcome, cancelFrom, abort);
      if cancelFrom.Some? && cancelFrom.value <= i {
        return Stop(ContextDone, [], []);
      }
      var candidate := candidates[i];
      if cooldown != null {
        var ok := cooldown.IsAvailable(candidate.provider);
        if !ok {
          return Next([], [], lastErr);
        }
      }
      match outcome(i)
      case Success(resp) =>
        if cooldown != null {
          cooldown.MarkSuccess(candidate.provider);
        }
        st := Stop(Response(resp), if cooldown != null then [MarkedSuccess(candidate.provider)] else [], [i]);
      case Failure(msg) =>
        var lower := ToLower(msg);
        if abort && MentionsInvalidRequest(lower) {
          return Stop(Aborted(msg), [], [i]);
        }
        var reason := ClassifyError(lower);
        if cooldown != null {
          cooldown.MarkFailure(candidate.provider, reason);
        }
        st := Next(if cooldown != null then [MarkedFailure(candidate.provider, reason)] else [], [i], Some(msg));
    }

    /** One pass of the candidate loop, and where it leaves the specification Run. */
    method Pass(outcome: nat -> CallOutcome, cancelFrom: Option<nat>, abort: bool, i: nat, lastErr: Option<string>,
                ghost s: Setting, ghost full: Trace, ghost log0: seq<CooldownEvent>, ghost evSoFar: seq<CooldownEvent>, ghost invoked: seq<nat>)
      returns (st: Step)
      requires s == SettingFor(outcome, cancelFrom, abort)
      requires i < |candidates|
      requires TrackerLog() == log0 + evSoFar
      requires full == After(evSoFar, invoked, Run(s, i, log0 + evSoFar, lastErr))
      modifies cooldown
      ensures TrackerLog() == log0 + (evSoFar + st.events)
      ensures st.Stop? ==> full == Trace(st.result, evSoFar + st.events, invoked + st.invoked)
      ensures st.Next? ==> full == After(evSoFar + st.events, invoked + st.invoked,
        Run(s, i + 1, log0 + (evSoFar + st.events), st.lastErr))
    {
      st := Attempt(outcome, cancelFrom, abort, i, lastErr);
      LoopStep(full, s, i, log0, evSoFar, invoked, lastErr);
    }

    /** The shared candidate loop of Generate and Stream. */
    method TryCandidates(outcome: nat -> CallOutcome, cancelFrom: Option<nat>, abort: bool)
      returns (r: ChainResult, ghost invoked: seq<nat>)
      modifies cooldown
      ensures var t := Run(SettingFor(outcome, cancelFrom, abort), 0, old(TrackerLog()), None);
        r == t.result && invoked == t.invoked && TrackerLog() == old(TrackerLog()) + t.events
    {
      ghost var s := SettingFor(outcome, cancelFrom, abort);
      ghost var log0 := TrackerLog();
      ghost var full := Run(s, 0, log0, None);
      ghost var evSoFar: seq<CooldownEvent> := [];
      invoked := [];
      var lastErr: Option<string> := None;
      var i := 0;
      while i < |candidates|
        invariant i <= |candidates|
        invariant TrackerLog() == log0 + evSoFar
        invariant full == After(evSoFar, invoked, Run(s, i, log0 + evSoFar, lastErr))
        decreases |candidates| - i
      {
        var st := Pass(outcome, cancelFrom, abort, i, lastErr, s, full, log0, evSoFar, invoked);
        if st.Stop? {
          return st.result, invoked + st.invoked;
        }
        evSoFar := evSoFar + st.events;
        invoked := invoked + st.invoked;
        lastErr := st.lastErr;
        i := i + 1;
      }
      assert Run(s, i, log0 + evSoFar, lastErr) == Trace(Exhausted(lastErr), [], []);
      return Exhausted(lastErr), invoked;
    }

    /** Generate: an invalid-request error ends the chain at once. */
    method Generate(outcome: nat -> CallOutcome, cancelFrom: Option<nat>) returns (r: ChainResult)
      modifies cooldown
      ensures var t := Run(SettingFor(outcome, cancelFrom, true), 0, old(TrackerLog()), None);
        r == t.result && TrackerLog() == old(TrackerLog()) + t.events
    {
      ghost var invoked;
      r, invoked := TryCandidates(outcome, cancelFrom, true);
    }

    /** Stream: every failure is recorded and the next candidate is tried. */
    method Stream(outcome: nat -> CallOutcome, cancelFrom: Option<nat>) returns (r: ChainResult)
      modifies cooldown
      ensures var t := Run(SettingFor(outcome, cancelFrom, false), 0, old(TrackerLog()), None);
        r == t.result && TrackerLog() == old(TrackerLog()) + t.events
    {
      ghost var invoked;
      r, invoked := TryCandidates(outcome, cancelFrom, false);
    }

    /**
     * GenerateObject and StreamObject: the answer of the first candidate, the
     * primary, without fallback, cooldown checks or tracker calls.
     */
    method GenerateObject(primaryCall: LanguageModel -> CallOutcome) returns (r: CallOutcome)
      requires Valid()
      ensures r == primaryCall(candidates[0].model)
    {
      r := primaryCall(primary);
    }

    /** Provider() and Model(): the first candidate's provider and model. */
    method Identity(providerName: LanguageModel -> string) returns (provider: string, model: string)
      requires Valid()
      ensures provider == providerName(candidates[0].model) && model == candidates[0].model.modelId
    {
      provider := providerName(primary);
      model := primary.modelId;
    }
  }

  /** Stream never aborts: its run ends in a response, a cancellation or exhaustion. */
  lemma StreamNeverAborts(s: Setting, log: seq<CooldownEvent>)
    requires forall m :: !s.abortsOn(m)
    ensures !Run(s, 0, log, None).result.Aborted?
  {
    RunAbort(s, 0, log, None);
  }
}
