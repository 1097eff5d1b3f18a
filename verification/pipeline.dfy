/** The call orchestrator (client.go `_Client.RequestFn`): marshal, merge
    defaults, format outbound, validate input, send, validate the raw
    response, format inbound, decode, and ask the output for its business
    error. Every step returns early on error. */
module Pipeline {
  import opened Base
  import opened Collaborators
  import opened Descriptor
  import opened Trace
  import opened Glue

  /** The step a call failed in. Formatting never fails, so it has no stage. */
  datatype Stage =
    | MarshalStage
    | MergeStage
    | ValidateInputStage
    | TransportStage
    | ValidateOutputStage
    | DecodeStage
    | BusinessStage

  /** The pipeline position of the invocation a stage fails in. */
  function StageRank(s: Stage): (k: nat) {
    match s
    case MarshalStage => 0
    case MergeStage => 1
    case ValidateInputStage => 3
    case TransportStage => 4
    case ValidateOutputStage => 5
    case DecodeStage => 7
    case BusinessStage => 8
  }

  /** A nil error, or the error tagged with the stage that returned it. On
      success the output object holds the decoded response. */
  datatype Outcome = Done(output: Output) | Failed(stage: Stage, error: Error)

  datatype Call = Call(outcome: Outcome, trace: seq<Invocation>)

  /** The whole call. Each stage below receives the trace so far. */
  function RequestFn(env: Env, c: Client, send: Transport): (r: Call)
    ensures |r.trace| > 0 && r.trace[0] == Marshal
    ensures env.marshal(c.instance).Err? ==> r == Call(Failed(MarshalStage, env.marshal(c.instance).error), [Marshal])
    ensures env.marshal(c.instance).Ok? ==> |r.trace| > 1
  {
    match env.marshal(c.instance)
    case Err(e) => Call(Failed(MarshalStage, e), [Marshal])
    case Ok(marshalled) => MergeStep(env, c, send, marshalled, [Marshal])
  }

  /** Merges the default document into the marshalled request. */
  function MergeStep(env: Env, c: Client, send: Transport, marshalled: string, t: seq<Invocation>): (r: Call)
    ensures |r.trace| > |t| && r.trace[..|t|] == t
    ensures c.desc.defaultJson != "" ==> r.trace[|t|] == Merge(marshalled, c.desc.defaultJson)
    ensures c.desc.defaultJson != "" && env.mergeDefault(marshalled, c.desc.defaultJson).Err? ==>
      r == Call(Failed(MergeStage, WithMessage(env.mergeDefault(marshalled, c.desc.defaultJson).error, MergeMessage)),
                t + [Merge(marshalled, c.desc.defaultJson)])
    ensures c.desc.defaultJson == "" ==> r == OutboundStep(env, c, send, marshalled, t)
  {
    var merge := MergeDefault(env, marshalled, c.desc.defaultJson);
    match merge.result
    case Err(e) => Call(Failed(MergeStage, e), t + merge.trace)
    case Ok(input) => OutboundStep(env, c, send, input, t + merge.trace)
  }

  /** Formats the request for the wire and validates the formatted body. */
  function OutboundStep(env: Env, c: Client, send: Transport, input: string, t: seq<Invocation>): (r: Call)
    ensures |r.trace| > |t| && r.trace[..|t|] == t
    ensures c.desc.inputFormatPath != "" ==> r.trace[|t|] == Format(Outbound, input, c.desc.inputFormatPath)
    ensures c.desc.inputFormatPath == "" && c.desc.inputLoader.Some? ==>
      r.trace[|t|] == Validate(Outbound, input, c.desc.inputLoader.value)
    ensures c.desc.inputFormatPath == "" && c.desc.inputLoader.None? ==>
      r.trace[|t|] == Send(c.instance.context, c.instance.httpMethod, c.instance.path, input)
    ensures var body := if c.desc.inputFormatPath == "" then input else env.gjsonGet(input, c.desc.inputFormatPath);
      c.desc.inputLoader.Some? && env.validate(body, c.desc.inputLoader.value).Some? ==>
        && r.outcome == Failed(ValidateInputStage, env.validate(body, c.desc.inputLoader.value).value)
        && r.trace[|r.trace| - 1] == Validate(Outbound, body, c.desc.inputLoader.value)
  {
    // `FormatAsIntput` never returns an error
    var format := FormatAsInput(env, c.desc, input);
    var body := format.result.value;
    var check := InputValidate(env, c.desc, body);
    match check.result
    case Err(e) => Call(Failed(ValidateInputStage, e), t + format.trace + check.trace)
    case Ok(_) => SendStep(env, c, send, body, t + format.trace + check.trace)
  }

  /** Sends the body on the caller's route and context. */
  function SendStep(env: Env, c: Client, send: Transport, body: string, t: seq<Invocation>): (r: Call)
    ensures |r.trace| > |t| && r.trace[..|t|] == t
    ensures r.trace[|t|] == Send(c.instance.context, c.instance.httpMethod, c.instance.path, body)
    ensures send(c.instance.context, c.instance.httpMethod, c.instance.path, body).Err? ==>
      && r.outcome == Failed(TransportStage, send(c.instance.context, c.instance.httpMethod, c.instance.path, body).error)
      && |r.trace| == |t| + 1
  {
    var inst := c.instance;
    var sent := t + [Send(inst.context, inst.httpMethod, inst.path, body)];
    match send(inst.context, inst.httpMethod, inst.path, body)
    case Err(e) => Call(Failed(TransportStage, e), sent)
    case Ok(raw) => ReceiveStep(env, c, raw, sent)
  }

  /** Validates the raw response, then formats it for the program. */
  function ReceiveStep(env: Env, c: Client, raw: string, t: seq<Invocation>): (r: Call)
    ensures |r.trace| > |t| && r.trace[..|t|] == t
    ensures c.desc.outputLoader.Some? ==> r.trace[|t|] == Validate(Inbound, raw, c.desc.outputLoader.value)
    ensures c.desc.outputLoader.Some? && env.validate(raw, c.desc.outputLoader.value).Some? ==>
      r == Call(Failed(ValidateOutputStage, env.validate(raw, c.desc.outputLoader.value).value),
                t + [Validate(Inbound, raw, c.desc.outputLoader.value)])
    ensures c.desc.outputLoader.None? && c.desc.outputFormatPath != "" ==>
      r.trace[|t|] == Format(Inbound, raw, c.desc.outputFormatPath)
    ensures c.desc.outputLoader.None? && c.desc.outputFormatPath == "" ==> r.trace[|t|] == Unmarshal(raw)
  {
    var check := OutputValidate(env, c.desc, raw);
    match check.result
    case Err(e) => Call(Failed(ValidateOutputStage, e), t + check.trace)
    case Ok(_) =>
      // `FormatAsOutput` never returns an error
      var format := FormatAsOutput(env, c.desc, raw);
      DecodeStep(env, c, format.result.value, t + check.trace + format.trace)
  }

  /** Decodes into the output object and asks it for its business error. */
  function DecodeStep(env: Env, c: Client, doc: string, t: seq<Invocation>): (r: Call)
    ensures |r.trace| > |t| && r.trace[..|t|] == t
    ensures r.trace[|t|] == Unmarshal(doc)
    ensures env.unmarshal(c.instance.output, doc).Err? ==>
      r == Call(Failed(DecodeStage, env.unmarshal(c.instance.output, doc).error), t + [Unmarshal(doc)])
    ensures env.unmarshal(c.instance.output, doc).Ok? ==>
      var out := env.unmarshal(c.instance.output, doc).value;
      && r.trace == t + [Unmarshal(doc), CheckOutput(out)]
      && r.outcome == (if env.outputError(out).Some? then Failed(BusinessStage, env.outputError(out).value) else Done(out))
  {
    var decoding := t + [Unmarshal(doc)];
    match env.unmarshal(c.instance.output, doc)
    case Err(e) => Call(Failed(DecodeStage, e), decoding)
    case Ok(out) =>
      match env.outputError(out)
      case Some(e) => Call(Failed(BusinessStage, e), decoding + [CheckOutput(out)])
      case None => Call(Done(out), decoding + [CheckOutput(out)])
  }

  /** What the call reports for one collaborator invocation: `None` if the
      collaborator succeeded, otherwise the error `RequestFn` returns for it. */
  function ErrorOf(env: Env, c: Client, send: Transport, inv: Invocation): (e: Option<Error>) {
    match inv
    case Marshal => env.marshal(c.instance).ErrorOption()
    case Merge(doc, defaults) =>
      (match env.mergeDefault(doc, defaults)
       case Ok(_) => None
       case Err(e) => Some(WithMessage(e, MergeMessage)))
    case Format(_, _, _) => None
    case Validate(_, doc, loader) => env.validate(doc, loader)
    case Send(ctx, m, p, body) => send(ctx, m, p, body).ErrorOption()
    case Unmarshal(doc) => env.unmarshal(c.instance.output, doc).ErrorOption()
    case CheckOutput(out) => env.outputError(out)
  }

  /** The document an invocation hands on to the next step: a validator
      hands on the document it checked, the transport the response body. */
  function Produced(env: Env, c: Client, send: Transport, inv: Invocation): (doc: Option<string>) {
    match inv
    case Marshal => env.marshal(c.instance).ToOption()
    case Merge(doc, defaults) => env.mergeDefault(doc, defaults).ToOption()
    case Format(_, doc, formatPath) => Some(env.gjsonGet(doc, formatPath))
    case Validate(_, doc, _) => Some(doc)
    case Send(ctx, m, p, body) => send(ctx, m, p, body).ToOption()
    case Unmarshal(_) => None
    case CheckOutput(_) => None
  }

  /** The document an invocation works on, if it takes one. */
  function Consumed(inv: Invocation): (doc: Option<string>) {
    match inv
    case Marshal => None
    case Merge(doc, _) => Some(doc)
    case Format(_, doc, _) => Some(doc)
    case Validate(_, doc, _) => Some(doc)
    case Send(_, _, _, body) => Some(body)
    case Unmarshal(doc) => Some(doc)
    case CheckOutput(_) => None
  }

  /** Whether the route's descriptor schedules the invocation at pipeline
      position `k`: marshal, send, decode and the output check always run;
      merge, format and validation only when the route declares the
      default document, format path or validator they use. */
  predicate Planned(d: Descriptor, k: nat) {
    if k == 1 then d.defaultJson != ""
    else if k == 2 then d.inputFormatPath != ""
    else if k == 3 then d.inputLoader.Some?
    else if k == 5 then d.outputLoader.Some?
    else if k == 6 then d.outputFormatPath != ""
    else k <= 8
  }

  /** The next scheduled position after `k`. */
  function NextPlanned(d: Descriptor, k: nat): (r: nat)
    requires k < 8
    ensures k < r <= 8 && Planned(d, r)
    ensures forall j :: k < j < r ==> !Planned(d, j)
    decreases 8 - k
  {
    if Planned(d, k + 1) then k + 1 else NextPlanned(d, k + 1)
  }

  /** An invocation uses the route's own artifacts, route and context. */
  ghost predicate Configured(c: Client, inv: Invocation) {
    match inv
    case Merge(_, defaults) => defaults == c.desc.defaultJson
    case Format(dir, _, formatPath) =>
      formatPath == (if dir == Outbound then c.desc.inputFormatPath else c.desc.outputFormatPath)
    case Validate(dir, _, loader) =>
      Some(loader) == (if dir == Outbound then c.desc.inputLoader else c.desc.outputLoader)
    case Send(ctx, m, p, _) => ctx == c.instance.context && m == c.instance.httpMethod && p == c.instance.path
    case _ => true
  }

  /** `x` comes straight after `prev`: it is the next scheduled step, it
      works on what `prev` handed on, and the output check inspects what
      the decode produced. */
  ghost predicate Follows(env: Env, c: Client, send: Transport, prev: Invocation, x: Invocation) {
    && Rank(prev) < 8
    && Rank(x) == NextPlanned(c.desc, Rank(prev))
    && (Consumed(x).Some? ==> Consumed(x) == Produced(env, c, send, prev))
    && (x.CheckOutput? ==> prev.Unmarshal? && env.unmarshal(c.instance.output, prev.doc) == Ok(x.output))
  }

  /** The data flow of a trace: it starts with the marshal, every
      invocation uses the route's artifacts, and each follows the one
      before it. */
  ghost predicate Wired(env: Env, c: Client, send: Transport, t: seq<Invocation>) {
    && |t| > 0
    && t[0].Marshal?
    && (forall i :: 0 <= i < |t| ==> Configured(c, t[i]))
    && (forall i :: 0 < i < |t| ==> Follows(env, c, send, t[i - 1], t[i]))
  }

  /** Every invocation of `t` succeeded. */
  ghost predicate AllSucceeded(env: Env, c: Client, send: Transport, t: seq<Invocation>) {
    forall i :: 0 <= i < |t| ==> ErrorOf(env, c, send, t[i]).None?
  }

  /** The fail-fast shape of a call: collaborators ran in pipeline order,
      each at most once; every one but the last succeeded; the call
      succeeded exactly when the last did, and then the last was the
      output's own error check; otherwise the call returns the last one's
      error, tagged with its stage, and nothing after that stage ran. */
  ghost predicate FailsFast(env: Env, c: Client, send: Transport, r: Call) {
    var t := r.trace;
    && |t| > 0
    && Ordered(t)
    && AllSucceeded(env, c, send, t[..|t| - 1])
    && (r.outcome.Done? <==> ErrorOf(env, c, send, t[|t| - 1]).None?)
    && (r.outcome.Done? ==> t[|t| - 1].CheckOutput? && t[|t| - 1].output == r.outcome.output)
    && (r.outcome.Failed? ==>
          && ErrorOf(env, c, send, t[|t| - 1]) == Some(r.outcome.error)
          && Rank(t[|t| - 1]) == StageRank(r.outcome.stage)
          && Before(t, StageRank(r.outcome.stage) + 1))
  }

  /** A trace so far: ordered, wired and successful throughout. */
  ghost predicate Healthy(env: Env, c: Client, send: Transport, t: seq<Invocation>) {
    |t| > 0 && Ordered(t) && Wired(env, c, send, t) && AllSucceeded(env, c, send, t)
  }

  /** A trace so far that hands `doc` on to the step at position `k`, with
      nothing scheduled in between. */
  ghost predicate Ready(env: Env, c: Client, send: Transport, t: seq<Invocation>, doc: string, k: nat) {
    && Healthy(env, c, send, t)
    && Rank(t[|t| - 1]) < k <= 8
    && NextPlanned(c.desc, Rank(t[|t| - 1])) >= k
    && Produced(env, c, send, t[|t| - 1]) == Some(doc)
  }

  lemma OrderedBefore(t: seq<Invocation>)
    requires |t| > 0 && Ordered(t)
    ensures Before(t, Rank(t[|t| - 1]) + 1)
  {
  }

  lemma AppendSucceeded(env: Env, c: Client, send: Transport, t: seq<Invocation>, s: seq<Invocation>)
    requires AllSucceeded(env, c, send, t) && AllSucceeded(env, c, send, s)
    ensures AllSucceeded(env, c, send, t + s)
  {
    forall i | 0 <= i < |t + s|
      ensures ErrorOf(env, c, send, (t + s)[i]).None?
    {
      if i >= |t| {
        assert (t + s)[i] == s[i - |t|];
      }
    }
  }

  /** Appending the invocation that follows a healthy trace. */
  lemma Attach(env: Env, c: Client, send: Transport, t: seq<Invocation>, x: Invocation)
    requires Healthy(env, c, send, t)
    requires Follows(env, c, send, t[|t| - 1], x) && Configured(c, x)
    ensures var u := t + [x];
      && Ordered(u) && Wired(env, c, send, u) && Before(u, Rank(x) + 1)
      && u[..|u| - 1] == t && u[|u| - 1] == x
  {
    OrderedBefore(t);
    Append(t, [x], Rank(x));
    var u := t + [x];
    assert u[..|t|] == t;
    forall i | 0 < i < |u|
      ensures Follows(env, c, send, u[i - 1], u[i])
    {
      if i < |t| {
        assert u[i - 1] == t[i - 1] && u[i] == t[i];
      }
    }
    forall i | 0 <= i < |u|
      ensures Configured(c, u[i])
    {
      if i < |t| {
        assert u[i] == t[i];
      }
    }
  }

  /** A call that stops at invocation `x` with its error. */
  lemma Stop(env: Env, c: Client, send: Transport, t: seq<Invocation>, x: Invocation, stage: Stage, e: Error)
    requires Healthy(env, c, send, t)
    requires Follows(env, c, send, t[|t| - 1], x) && Configured(c, x)
    requires ErrorOf(env, c, send, x) == Some(e) && Rank(x) == StageRank(stage)
    ensures FailsFast(env, c, send, Call(Failed(stage, e), t + [x]))
    ensures Wired(env, c, send, t + [x])
  {
    Attach(env, c, send, t, x);
  }

  /** An optional step at position `k` that either did not run (`s` empty,
      `doc` handed on unchanged) or ran once, successfully, handing on `out`. */
  lemma Pass(env: Env, c: Client, send: Transport, t: seq<Invocation>, doc: string, s: seq<Invocation>, out: string, k: nat)
    requires Ready(env, c, send, t, doc, k) && k < 8
    requires |s| <= 1 && (|s| == 0 <==> !Planned(c.desc, k))
    requires |s| == 0 ==> out == doc
    requires |s| == 1 ==>
      && Rank(s[0]) == k && !s[0].CheckOutput?
      && Consumed(s[0]) == Some(doc) && Produced(env, c, send, s[0]) == Some(out)
      && Configured(c, s[0]) && ErrorOf(env, c, send, s[0]).None?
    ensures Ready(env, c, send, t + s, out, k + 1)
  {
    if |s| == 0 {
      assert t + s == t;
    } else {
      assert s == [s[0]];
      Attach(env, c, send, t, s[0]);
      AppendSucceeded(env, c, send, t, s);
    }
  }

  lemma DecodeFailsFast(env: Env, c: Client, send: Transport, doc: string, t: seq<Invocation>)
    requires Ready(env, c, send, t, doc, 7)
    ensures FailsFast(env, c, send, DecodeStep(env, c, doc, t))
    ensures Wired(env, c, send, DecodeStep(env, c, doc, t).trace)
  {
    var x := Unmarshal(doc);
    match env.unmarshal(c.instance.output, doc)
    case Err(e) =>
      Stop(env, c, send, t, x, DecodeStage, e);
    case Ok(out) =>
      Attach(env, c, send, t, x);
      AppendSucceeded(env, c, send, t, [x]);
      var y := CheckOutput(out);
      match env.outputError(out)
      case Some(e) =>
        Stop(env, c, send, t + [x], y, BusinessStage, e);
      case None =>
        Attach(env, c, send, t + [x], y);
  }

  lemma ReceiveFailsFast(env: Env, c: Client, send: Transport, raw: string, t: seq<Invocation>)
    requires Ready(env, c, send, t, raw, 5)
    ensures FailsFast(env, c, send, ReceiveStep(env, c, raw, t))
    ensures Wired(env, c, send, ReceiveStep(env, c, raw, t).trace)
  {
    var check := OutputValidate(env, c.desc, raw);
    if check.result.Err? {
      Stop(env, c, send, t, check.trace[0], ValidateOutputStage, check.result.error);
      assert t + check.trace == t + [check.trace[0]];
    } else {
      Pass(env, c, send, t, raw, check.trace, raw, 5);
      var format := FormatAsOutput(env, c.desc, raw);
      Pass(env, c, send, t + check.trace, raw, format.trace, format.result.value, 6);
      DecodeFailsFast(env, c, send, format.result.value, t + check.trace + format.trace);
    }
  }

  lemma SendFailsFast(env: Env, c: Client, send: Transport, body: string, t: seq<Invocation>)
    requires Ready(env, c, send, t, body, 4)
    ensures FailsFast(env, c, send, SendStep(env, c, send, body, t))
    ensures Wired(env, c, send, SendStep(env, c, send, body, t).trace)
  {
    var inst := c.instance;
    var x := Send(inst.context, inst.httpMethod, inst.path, body);
    match send(inst.context, inst.httpMethod, inst.path, body)
    case Err(e) =>
      Stop(env, c, send, t, x, TransportStage, e);
    case Ok(raw) =>
      Attach(env, c, send, t, x);
      AppendSucceeded(env, c, send, t, [x]);
      ReceiveFailsFast(env, c, send, raw, t + [x]);
  }

  lemma OutboundFailsFast(env: Env, c: Client, send: Transport, input: string, t: seq<Invocation>)
    requires Ready(env, c, send, t, input, 2)
    ensures FailsFast(env, c, send, OutboundStep(env, c, send, input, t))
    ensures Wired(env, c, send, OutboundStep(env, c, send, input, t).trace)
  {
    var format := FormatAsInput(env, c.desc, input);
    var body := format.result.value;
    Pass(env, c, send, t, input, format.trace, body, 2);
    var t1 := t + format.trace;
    var check := InputValidate(env, c.desc, body);
    if check.result.Err? {
      Stop(env, c, send, t1, check.trace[0], ValidateInputStage, check.result.error);
      assert t1 + check.trace == t1 + [check.trace[0]];
    } else {
      Pass(env, c, send, t1, body, check.trace, body, 3);
      SendFailsFast(env, c, send, body, t1 + check.trace);
    }
  }

  lemma MergeFailsFast(env: Env, c: Client, send: Transport, marshalled: string, t: seq<Invocation>)
    requires Ready(env, c, send, t, marshalled, 1)
    ensures FailsFast(env, c, send, MergeStep(env, c, send, marshalled, t))
    ensures Wired(env, c, send, MergeStep(env, c, send, marshalled, t).trace)
  {
    var merge := MergeDefault(env, marshalled, c.desc.defaultJson);
    if merge.result.Err? {
      Stop(env, c, send, t, merge.trace[0], MergeStage, merge.result.error);
      assert t + merge.trace == t + [merge.trace[0]];
    } else {
      Pass(env, c, send, t, marshalled, merge.trace, merge.result.value, 1);
      OutboundFailsFast(env, c, send, merge.result.value, t + merge.trace);
    }
  }

  /** Every call fails fast (see `FailsFast`) and is wired (see `Wired`),
      whatever the libraries and the transport do. */
  lemma RequestFnFailsFast(env: Env, c: Client, send: Transport)
    ensures FailsFast(env, c, send, RequestFn(env, c, send))
    ensures Wired(env, c, send, RequestFn(env, c, send).trace)
  {
    match env.marshal(c.instance)
    case Err(e) =>
    case Ok(marshalled) =>
      MergeFailsFast(env, c, send, marshalled, [Marshal]);
  }
}
