/**
 * Interleavings of staging attempts on one app. Every event that can reach the app's
 * staging bookkeeping is a step: a dispatch (which stamps a fresh token), the setup or the
 * completion reply of an attempt that captured some token, or a concurrent writer
 * marking the app failed. A run folds the steps over the app's state in arrival order.
 */
module StagingRuns {
  import opened Common
  import opened Apps
  import opened StagerTask

  datatype Event =
    | Dispatch(token: Token)
    | SetupReply(captured: Token, reply: Reply)
    | CompletionReply(captured: Token, reply: Reply)
    | MarkedFailed(reason: string)

  function Step(s: Staging, e: Event, bps: seq<AdminBuildpack>): Staging {
    match e
    case Dispatch(t) => s.(stagingTaskId := Some(t))
    case SetupReply(t, reply) => SetupStep(s, t, reply).0
    case CompletionReply(t, reply) => CompletionStep(s, t, reply, bps).0
    case MarkedFailed(reason) => MarkFailed(s, reason)
  }

  /** The app's state after the events, applied in order. */
  function Run(s: Staging, evs: seq<Event>, bps: seq<AdminBuildpack>): Staging
    decreases |evs|
  {
    if evs == [] then s else Step(Run(s, evs[..|evs| - 1], bps), evs[|evs| - 1], bps)
  }

  /** The token of the most recent dispatch among `evs`, or `init` when there is none. */
  function LastDispatch(evs: seq<Event>, init: Option<Token>): Option<Token>
    decreases |evs|
  {
    if evs == [] then init
    else if evs[|evs| - 1].Dispatch? then Some(evs[|evs| - 1].token)
    else LastDispatch(evs[..|evs| - 1], init)
  }

  /** Only a dispatch writes the token: after any run the app carries the last dispatched one. */
  lemma {:induction false} RunTokenIsLastDispatch(s: Staging, evs: seq<Event>, bps: seq<AdminBuildpack>)
    ensures Run(s, evs, bps).stagingTaskId == LastDispatch(evs, s.stagingTaskId)
    decreases |evs|
  {
    if evs != [] {
      RunTokenIsLastDispatch(s, evs[..|evs| - 1], bps);
    }
  }

  lemma {:induction false} LastDispatchAppend(a: seq<Event>, b: seq<Event>, init: Option<Token>)
    ensures LastDispatch(a + b, init) == LastDispatch(b, LastDispatch(a, init))
    decreases |b|
  {
    if b == [] {
      assert a + b == a;
    } else {
      assert (a + b)[..|a + b| - 1] == a + b[..|b| - 1];
      LastDispatchAppend(a, b[..|b| - 1], init);
    }
  }

  lemma {:induction false} LastDispatchAvoids(evs: seq<Event>, init: Option<Token>, t: Token)
    requires init != Some(t)
    requires forall i :: 0 <= i < |evs| ==> evs[i] != Dispatch(t)
    ensures LastDispatch(evs, init) != Some(t)
    decreases |evs|
  {
    if evs != [] {
      LastDispatchAvoids(evs[..|evs| - 1], init, t);
    }
  }

  /**
   * Once a newer attempt (token t') has been dispatched after attempt t, and t is never
   * dispatched again, the app no longer carries t, whatever else happened in between.
   */
  lemma SupersededTokenIsStale(s: Staging, before: seq<Event>, t: Token, between: seq<Event>,
                               t': Token, after: seq<Event>, bps: seq<AdminBuildpack>)
    requires t' != t
    requires forall i :: 0 <= i < |after| ==> after[i] != Dispatch(t)
    ensures Run(s, before + [Dispatch(t)] + between + [Dispatch(t')] + after, bps).stagingTaskId != Some(t)
  {
    var prefix := before + [Dispatch(t)] + between + [Dispatch(t')];
    var evs := prefix + after;
    RunTokenIsLastDispatch(s, evs, bps);
    LastDispatchAppend(prefix, after, s.stagingTaskId);
    assert prefix[..|prefix| - 1] == before + [Dispatch(t)] + between;
    assert LastDispatch(prefix, s.stagingTaskId) == Some(t');
    LastDispatchAvoids(after, Some(t'), t);
  }

  /**
   * The token guard on completion under any interleaving: a superseded attempt's completion
   * reply leaves the app exactly as it finds it (no staged flag, detected field or droplet
   * hash changes), whatever it carries.
   */
  lemma SupersededCompletionIsInert(s: Staging, before: seq<Event>, t: Token, between: seq<Event>,
                                    t': Token, after: seq<Event>, reply: Reply, bps: seq<AdminBuildpack>)
    requires t' != t
    requires forall i :: 0 <= i < |after| ==> after[i] != Dispatch(t)
    ensures var now := Run(s, before + [Dispatch(t)] + between + [Dispatch(t')] + after, bps);
            CompletionStep(now, t, reply, bps) == (now, Abandoned(AnotherStagingInitiated))
  {
    SupersededTokenIsStale(s, before, t, between, t', after, bps);
  }

  /**
   * The token guard on setup under any interleaving: a superseded attempt's well-formed setup
   * reply raises "another staging request was initiated" and leaves the app as it finds it.
   */
  lemma SupersededSetupIsInert(s: Staging, before: seq<Event>, t: Token, between: seq<Event>,
                               t': Token, after: seq<Event>, reply: Reply, bps: seq<AdminBuildpack>)
    requires t' != t && reply.Ok?
    requires forall i :: 0 <= i < |after| ==> after[i] != Dispatch(t)
    ensures var now := Run(s, before + [Dispatch(t)] + between + [Dispatch(t')] + after, bps);
            SetupStep(now, t, reply) == (now, SetupRaised(AnotherStagingInitiated))
  {
    SupersededTokenIsStale(s, before, t, between, t', after, bps);
  }

  lemma {:induction false} LastDispatchWithout(evs: seq<Event>, init: Option<Token>)
    requires forall i :: 0 <= i < |evs| ==> !evs[i].Dispatch?
    ensures LastDispatch(evs, init) == init
    decreases |evs|
  {
    if evs != [] {
      LastDispatchWithout(evs[..|evs| - 1], init);
    }
  }

  lemma {:induction false} RunAppend(s: Staging, a: seq<Event>, b: seq<Event>, bps: seq<AdminBuildpack>)
    ensures Run(s, a + b, bps) == Run(Run(s, a, bps), b, bps)
    decreases |b|
  {
    if b == [] {
      assert a + b == a;
    } else {
      assert (a + b)[..|a + b| - 1] == a + b[..|b| - 1];
      RunAppend(s, a, b[..|b| - 1], bps);
    }
  }

  /**
   * Until the next dispatch the failed flag stays set: no reply and no failure mark clears it,
   * since the completion that could commit is refused on a failed app.
   */
  lemma {:induction false} FailedUntilDispatch(s: Staging, evs: seq<Event>, bps: seq<AdminBuildpack>)
    requires s.IsFailed()
    requires forall i :: 0 <= i < |evs| ==> !evs[i].Dispatch?
    ensures Run(s, evs, bps).IsFailed() && Run(s, evs, bps).stagingTaskId == s.stagingTaskId
    decreases |evs|
  {
    if evs != [] {
      FailedUntilDispatch(s, evs[..|evs| - 1], bps);
    }
  }

  /**
   * A concurrent writer marks the app failed while attempt t is still the latest: from then
   * until the next dispatch, whatever else arrives, t's well-formed setup reply and its
   * completion reply are both refused with "already marked failed", and neither changes the app.
   */
  lemma MarkedFailedAttemptIsRefused(s: Staging, before: seq<Event>, t: Token, between: seq<Event>,
                                     reason: string, after: seq<Event>, reply: Reply, bps: seq<AdminBuildpack>)
    requires forall i :: 0 <= i < |between| ==> !between[i].Dispatch?
    requires forall i :: 0 <= i < |after| ==> !after[i].Dispatch?
    ensures var now := Run(s, before + [Dispatch(t)] + between + [MarkedFailed(reason)] + after, bps);
            (reply.Ok? ==> SetupStep(now, t, reply) == (now, SetupRaised(AlreadyMarkedFailed))) &&
            CompletionStep(now, t, reply, bps) == (now, Abandoned(AlreadyMarkedFailed))
  {
    var prefix := before + [Dispatch(t)];
    var marked := prefix + between + [MarkedFailed(reason)];
    RunTokenIsLastDispatch(s, prefix + between, bps);
    LastDispatchAppend(prefix, between, s.stagingTaskId);
    LastDispatchWithout(between, Some(t));
    assert marked[..|prefix + between|] == prefix + between;
    RunAppend(s, marked, after, bps);
    FailedUntilDispatch(Run(s, marked, bps), after, bps);
  }

  /** Only the most recently dispatched attempt's completion can commit. */
  lemma OnlyLatestAttemptCommits(s: Staging, evs: seq<Event>, t: Token, reply: Reply, bps: seq<AdminBuildpack>)
    requires CompletionStep(Run(s, evs, bps), t, reply, bps).1.Committed?
    ensures LastDispatch(evs, s.stagingTaskId) == Some(t)
  {
    RunTokenIsLastDispatch(s, evs, bps);
  }

  /** Only the most recently dispatched attempt's setup hands back a log locator. */
  lemma OnlyLatestAttemptStreams(s: Staging, evs: seq<Event>, t: Token, reply: Reply, bps: seq<AdminBuildpack>)
    requires SetupStep(Run(s, evs, bps), t, reply).1.StreamingLog?
    ensures LastDispatch(evs, s.stagingTaskId) == Some(t)
  {
    RunTokenIsLastDispatch(s, evs, bps);
  }
}
