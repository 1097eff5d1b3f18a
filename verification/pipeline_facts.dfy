/** Consequences of the fail-fast and data-flow shape of `RequestFn` that
    callers rely on: what the transport sees and when, where validation
    sits relative to the network, and when the business error is consulted. */
module PipelineFacts {
  import opened Base
  import opened Collaborators
  import opened Descriptor
  import opened Trace
  import opened Pipeline

  /** Every invocation of a wired trace is one the descriptor schedules. */
  lemma OnlyPlanned(env: Env, c: Client, send: Transport, t: seq<Invocation>)
    requires Wired(env, c, send, t)
    ensures forall i :: 0 <= i < |t| ==> Planned(c.desc, Rank(t[i]))
  {
    forall i | 0 <= i < |t|
      ensures Planned(c.desc, Rank(t[i]))
    {
      if i > 0 {
        assert Follows(env, c, send, t[i - 1], t[i]);
      }
    }
  }

  /** A wired trace skips no scheduled step: every scheduled position up to
      that of its `n`-th invocation is present among its first `n + 1`. */
  lemma {:induction false} CoversPlan(env: Env, c: Client, send: Transport, t: seq<Invocation>, n: nat, k: nat)
    requires Wired(env, c, send, t) && n < |t|
    requires Planned(c.desc, k) && k <= Rank(t[n])
    ensures exists i :: 0 <= i <= n && Rank(t[i]) == k
    decreases n
  {
    if Rank(t[n]) != k {
      assert n > 0;
      assert Follows(env, c, send, t[n - 1], t[n]);
      assert k <= Rank(t[n - 1]);
      CoversPlan(env, c, send, t, n - 1, k);
    }
  }

  /** The shape `RequestFnFailsFast` establishes for every call. */
  ghost predicate Shaped(env: Env, c: Client, send: Transport, r: Call) {
    FailsFast(env, c, send, r) && Wired(env, c, send, r.trace)
  }

  lemma SuccessCoversPlan(env: Env, c: Client, send: Transport, r: Call)
    requires Shaped(env, c, send, r) && r.outcome.Done?
    ensures AllSucceeded(env, c, send, r.trace)
    ensures r.trace[|r.trace| - 1].CheckOutput?
    ensures forall k :: Planned(c.desc, k) ==> exists i :: 0 <= i < |r.trace| && Rank(r.trace[i]) == k
  {
    var t := r.trace;
    assert t == t[..|t| - 1] + [t[|t| - 1]];
    forall k | Planned(c.desc, k)
      ensures exists i :: 0 <= i < |t| && Rank(t[i]) == k
    {
      CoversPlan(env, c, send, t, |t| - 1, k);
    }
  }

  /** `RequestFn` returns nil only if every scheduled step ran and every
      collaborator it invoked succeeded, ending with the output's own
      error check. */
  lemma SuccessRanEveryPlannedStep(env: Env, c: Client, send: Transport)
    ensures var r := RequestFn(env, c, send);
      r.outcome.Done? ==>
        && AllSucceeded(env, c, send, r.trace)
        && r.trace[|r.trace| - 1].CheckOutput?
        && forall k :: Planned(c.desc, k) ==> exists i :: 0 <= i < |r.trace| && Rank(r.trace[i]) == k
  {
    var r := RequestFn(env, c, send);
    RequestFnFailsFast(env, c, send);
    if r.outcome.Done? {
      SuccessCoversPlan(env, c, send, r);
    }
  }

  lemma TransportPresence(env: Env, c: Client, send: Transport, r: Call)
    requires Shaped(env, c, send, r)
    ensures (exists i :: 0 <= i < |r.trace| && r.trace[i].Send?) <==> (r.outcome.Done? || StageRank(r.outcome.stage) >= 4)
  {
    var t := r.trace;
    var last := |t| - 1;
    if r.outcome.Done? || StageRank(r.outcome.stage) >= 4 {
      if r.outcome.Done? {
        assert Rank(t[last]) == 8;
      }
      CoversPlan(env, c, send, t, last, 4);
    }
  }

  lemma TransportInput(env: Env, c: Client, send: Transport, r: Call, i: nat)
    requires Shaped(env, c, send, r)
    requires i < |r.trace| && r.trace[i].Send?
    ensures var t := r.trace;
      && t[i].context == c.instance.context
      && t[i].httpMethod == c.instance.httpMethod
      && t[i].path == c.instance.path
      && 0 < i
      && AllSucceeded(env, c, send, t[..i])
      && Produced(env, c, send, t[i - 1]) == Some(t[i].body)
      && (c.desc.inputLoader.Some? ==>
            && t[i - 1] == Validate(Outbound, t[i].body, c.desc.inputLoader.value)
            && env.validate(t[i].body, c.desc.inputLoader.value).None?)
  {
    var t := r.trace;
    assert Configured(c, t[i]);
    assert i > 0;
    assert Follows(env, c, send, t[i - 1], t[i]);
    assert ErrorOf(env, c, send, t[i - 1]).None? by {
      assert t[..|t| - 1][i - 1] == t[i - 1];
    }
    assert Configured(c, t[i - 1]);
    assert AllSucceeded(env, c, send, t[..i]) by {
      forall j | 0 <= j < i
        ensures ErrorOf(env, c, send, t[..i][j]).None?
      {
        assert t[..i][j] == t[..|t| - 1][j];
      }
    }
  }

  /** The transport is invoked exactly when marshal, merge, outbound format
      and input validation all succeeded; it is invoked on the caller's
      route and context, after every earlier step succeeded, with the body
      the previous step handed on, which is the body the input validator
      accepted when the route has one. */
  lemma TransportOnlyAfterInputChecks(env: Env, c: Client, send: Transport)
    ensures var r := RequestFn(env, c, send);
      (exists i :: 0 <= i < |r.trace| && r.trace[i].Send?) <==> (r.outcome.Done? || StageRank(r.outcome.stage) >= 4)
    ensures var r := RequestFn(env, c, send);
      forall i :: 0 <= i < |r.trace| && r.trace[i].Send? ==>
        && r.trace[i].context == c.instance.context
        && r.trace[i].httpMethod == c.instance.httpMethod
        && r.trace[i].path == c.instance.path
        && 0 < i
        && AllSucceeded(env, c, send, r.trace[..i])
        && Produced(env, c, send, r.trace[i - 1]) == Some(r.trace[i].body)
        && (c.desc.inputLoader.Some? ==>
              && r.trace[i - 1] == Validate(Outbound, r.trace[i].body, c.desc.inputLoader.value)
              && env.validate(r.trace[i].body, c.desc.inputLoader.value).None?)
  {
    var r := RequestFn(env, c, send);
    RequestFnFailsFast(env, c, send);
    TransportPresence(env, c, send, r);
    forall i | 0 <= i < |r.trace| && r.trace[i].Send?
      ensures
        && r.trace[i].context == c.instance.context
        && r.trace[i].httpMethod == c.instance.httpMethod
        && r.trace[i].path == c.instance.path
        && 0 < i
        && AllSucceeded(env, c, send, r.trace[..i])
        && Produced(env, c, send, r.trace[i - 1]) == Some(r.trace[i].body)
        && (c.desc.inputLoader.Some? ==>
              && r.trace[i - 1] == Validate(Outbound, r.trace[i].body, c.desc.inputLoader.value)
              && env.validate(r.trace[i].body, c.desc.inputLoader.value).None?)
    {
      TransportInput(env, c, send, r, i);
    }
  }

  lemma SendFailureEndsCall(env: Env, c: Client, send: Transport, r: Call, i: nat)
    requires Shaped(env, c, send, r)
    requires i < |r.trace| && r.trace[i].Send? && ErrorOf(env, c, send, r.trace[i]).Some?
    ensures var x := r.trace[i];
      && send(x.context, x.httpMethod, x.path, x.body).Err?
      && r.outcome == Failed(TransportStage, send(x.context, x.httpMethod, x.path, x.body).error)
  {
  }

  /** A transport error is the call's result, verbatim, tagged as such. */
  lemma TransportErrorVerbatim(env: Env, c: Client, send: Transport)
    ensures var r := RequestFn(env, c, send);
      forall i :: 0 <= i < |r.trace| && r.trace[i].Send? && ErrorOf(env, c, send, r.trace[i]).Some? ==>
        var x := r.trace[i];
        && send(x.context, x.httpMethod, x.path, x.body).Err?
        && r.outcome == Failed(TransportStage, send(x.context, x.httpMethod, x.path, x.body).error)
  {
    var r := RequestFn(env, c, send);
    RequestFnFailsFast(env, c, send);
    forall i | 0 <= i < |r.trace| && r.trace[i].Send? && ErrorOf(env, c, send, r.trace[i]).Some?
      ensures send(r.trace[i].context, r.trace[i].httpMethod, r.trace[i].path, r.trace[i].body).Err?
      ensures r.outcome == Failed(TransportStage, send(r.trace[i].context, r.trace[i].httpMethod, r.trace[i].path, r.trace[i].body).error)
    {
      SendFailureEndsCall(env, c, send, r, i);
    }
  }

  lemma ResponseValidated(env: Env, c: Client, send: Transport, r: Call, i: nat)
    requires Shaped(env, c, send, r)
    requires i < |r.trace| && r.trace[i].Validate? && r.trace[i].dir == Inbound
    ensures var t := r.trace;
      && 0 < i
      && t[i - 1].Send?
      && Some(t[i].loader) == c.desc.outputLoader
      && send(t[i - 1].context, t[i - 1].httpMethod, t[i - 1].path, t[i - 1].body) == Ok(t[i].doc)
  {
    var t := r.trace;
    assert Configured(c, t[i]);
    assert i > 0;
    assert Follows(env, c, send, t[i - 1], t[i]);
    assert Rank(t[i - 1]) == 4;
  }

  lemma OutputFailureStops(env: Env, c: Client, send: Transport, r: Call)
    requires Shaped(env, c, send, r) && r.outcome.Failed? && r.outcome.stage == ValidateOutputStage
    ensures forall i :: 0 <= i < |r.trace| ==>
      !r.trace[i].Unmarshal? && !r.trace[i].CheckOutput? && !(r.trace[i].Format? && r.trace[i].dir == Inbound)
  {
    forall i | 0 <= i < |r.trace|
      ensures !r.trace[i].Unmarshal? && !r.trace[i].CheckOutput? && !(r.trace[i].Format? && r.trace[i].dir == Inbound)
    {
      assert Rank(r.trace[i]) < 6;
    }
  }

  /** Output validation runs on the raw response the transport returned,
      before any inbound formatting; when it fails, nothing after it runs:
      no inbound formatting, no decode, no business check. */
  lemma OutputValidatedOnRawResponse(env: Env, c: Client, send: Transport)
    ensures var r := RequestFn(env, c, send);
      forall i :: 0 <= i < |r.trace| && r.trace[i].Validate? && r.trace[i].dir == Inbound ==>
        && 0 < i
        && r.trace[i - 1].Send?
        && Some(r.trace[i].loader) == c.desc.outputLoader
        && send(r.trace[i - 1].context, r.trace[i - 1].httpMethod, r.trace[i - 1].path, r.trace[i - 1].body)
             == Ok(r.trace[i].doc)
    ensures var r := RequestFn(env, c, send);
      r.outcome.Failed? && r.outcome.stage == ValidateOutputStage ==>
        forall i :: 0 <= i < |r.trace| ==> !r.trace[i].Unmarshal? && !r.trace[i].CheckOutput? && !(r.trace[i].Format? && r.trace[i].dir == Inbound)
  {
    var r := RequestFn(env, c, send);
    RequestFnFailsFast(env, c, send);
    if r.outcome.Failed? && r.outcome.stage == ValidateOutputStage {
      OutputFailureStops(env, c, send, r);
    }
    forall i | 0 <= i < |r.trace| && r.trace[i].Validate? && r.trace[i].dir == Inbound
      ensures
        && 0 < i
        && r.trace[i - 1].Send?
        && Some(r.trace[i].loader) == c.desc.outputLoader
        && send(r.trace[i - 1].context, r.trace[i - 1].httpMethod, r.trace[i - 1].path, r.trace[i - 1].body)
             == Ok(r.trace[i].doc)
    {
      ResponseValidated(env, c, send, r, i);
    }
  }

  lemma BusinessShape(env: Env, c: Client, send: Transport, r: Call)
    requires Shaped(env, c, send, r) && r.outcome.Failed? && r.outcome.stage == BusinessStage
    ensures var t := r.trace;
      && |t| >= 2
      && t[|t| - 1].CheckOutput?
      && t[|t| - 2].Unmarshal?
      && env.unmarshal(c.instance.output, t[|t| - 2].doc) == Ok(t[|t| - 1].output)
      && env.outputError(t[|t| - 1].output) == Some(r.outcome.error)
      && AllSucceeded(env, c, send, t[..|t| - 1])
      && exists i :: 0 <= i < |t| && t[i].Send?
  {
    var t := r.trace;
    var last := |t| - 1;
    assert t[last].CheckOutput?;
    assert last > 0;
    assert Follows(env, c, send, t[last - 1], t[last]);
    CoversPlan(env, c, send, t, last, 4);
  }

  /** The output's `Error()` is consulted only on what a successful decode
      produced, after every earlier step succeeded; its error is the result. */
  lemma BusinessErrorOnlyAfterDecode(env: Env, c: Client, send: Transport)
    ensures var r := RequestFn(env, c, send);
      var t := r.trace;
      r.outcome.Failed? && r.outcome.stage == BusinessStage ==>
        && |t| >= 2
        && t[|t| - 1].CheckOutput?
        && t[|t| - 2].Unmarshal?
        && env.unmarshal(c.instance.output, t[|t| - 2].doc) == Ok(t[|t| - 1].output)
        && env.outputError(t[|t| - 1].output) == Some(r.outcome.error)
        && AllSucceeded(env, c, send, t[..|t| - 1])
        && exists i :: 0 <= i < |t| && t[i].Send?
  {
    var r := RequestFn(env, c, send);
    RequestFnFailsFast(env, c, send);
    if r.outcome.Failed? && r.outcome.stage == BusinessStage {
      BusinessShape(env, c, send, r);
    }
  }

  /** A route without schemas calls no merge, format or validation: the
      transport receives the marshalled request itself, straight after the
      marshal. */
  lemma NoSchemasDirectDispatch(env: Env, c: Client, send: Transport)
    requires c.desc == NoSchemas && env.marshal(c.instance).Ok?
    ensures var r := RequestFn(env, c, send);
      && |r.trace| >= 2
      && r.trace[1] == Send(c.instance.context, c.instance.httpMethod, c.instance.path, env.marshal(c.instance).value)
      && forall i :: 0 <= i < |r.trace| ==> !r.trace[i].Merge? && !r.trace[i].Format? && !r.trace[i].Validate?
  {
    var r := RequestFn(env, c, send);
    var t := r.trace;
    RequestFnFailsFast(env, c, send);
    OnlyPlanned(env, c, send, t);
    assert |t| >= 2;
    assert Follows(env, c, send, t[0], t[1]);
    assert Configured(c, t[1]);
    forall i | 0 <= i < |t|
      ensures !t[i].Merge? && !t[i].Format? && !t[i].Validate?
    {
      assert Planned(c.desc, Rank(t[i]));
    }
  }
}
