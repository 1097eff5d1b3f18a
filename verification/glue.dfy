/** The opt-in steps around the transport (client.go `inputValidate`,
    `outputValidate`, `modifyTypeByFormat`, `FormatAsIntput`,
    `FormatAsOutput`, and the default merge of `RequestFn`). A route
    without a schema skips them without calling any library. */
module Glue {
  import opened Base
  import opened Collaborators
  import opened Descriptor
  import opened Trace

  const MergeMessage := "merge default value error"

  /** Fills the marshalled request from the route's default document; with
      no default document the merge is skipped. */
  function MergeDefault(env: Env, doc: string, defaults: string): (r: Step<string>)
    ensures defaults == "" ==> r == Step(Ok(doc), [])
    ensures defaults != "" ==> r.trace == [Merge(doc, defaults)]
    ensures defaults != "" ==> (r.result.Ok? <==> env.mergeDefault(doc, defaults).Ok?)
    ensures r.result.Ok? && defaults != "" ==> r.result.value == env.mergeDefault(doc, defaults).value
    ensures r.result.Err? ==> r.result.error == WithMessage(env.mergeDefault(doc, defaults).error, MergeMessage)
  {
    if defaults == "" then Step(Ok(doc), [])
    else
      match env.mergeDefault(doc, defaults)
      case Err(e) => Step(Err(WithMessage(e, MergeMessage)), [Merge(doc, defaults)])
      case Ok(merged) => Step(Ok(merged), [Merge(doc, defaults)])
  }

  /** `modifyTypeByFormat`: evaluates the format path on the document; an
      empty path returns the document itself. Never an error. */
  function ModifyTypeByFormat(env: Env, dir: Direction, doc: string, formatPath: string): (r: Step<string>)
    ensures r.result.Ok?
    ensures formatPath == "" ==> r == Step(Ok(doc), [])
    ensures formatPath != "" ==> r == Step(Ok(env.gjsonGet(doc, formatPath)), [Format(dir, doc, formatPath)])
  {
    if formatPath == "" then Step(Ok(doc), [])
    else Step(Ok(env.gjsonGet(doc, formatPath)), [Format(dir, doc, formatPath)])
  }

  /** `FormatAsIntput`: the outbound (stringifying) format path. */
  function FormatAsInput(env: Env, d: Descriptor, doc: string): (r: Step<string>)
    ensures r.result.Ok?
    ensures d.inputFormatPath == "" ==> r == Step(Ok(doc), [])
    ensures |r.trace| <= 1 && forall i :: 0 <= i < |r.trace| ==> r.trace[i] == Format(Outbound, doc, d.inputFormatPath)
    ensures d.inputFormatPath != "" ==>
      r == Step(Ok(env.gjsonGet(doc, d.inputFormatPath)), [Format(Outbound, doc, d.inputFormatPath)])
  {
    ModifyTypeByFormat(env, Outbound, doc, d.inputFormatPath)
  }

  /** `FormatAsOutput`: the inbound (type-restoring) format path. */
  function FormatAsOutput(env: Env, d: Descriptor, doc: string): (r: Step<string>)
    ensures r.result.Ok?
    ensures d.outputFormatPath == "" ==> r == Step(Ok(doc), [])
    ensures |r.trace| <= 1 && forall i :: 0 <= i < |r.trace| ==> r.trace[i] == Format(Inbound, doc, d.outputFormatPath)
    ensures d.outputFormatPath != "" ==>
      r == Step(Ok(env.gjsonGet(doc, d.outputFormatPath)), [Format(Inbound, doc, d.outputFormatPath)])
  {
    ModifyTypeByFormat(env, Inbound, doc, d.outputFormatPath)
  }

  /** Validates against an optional loader; a nil loader always passes. */
  function ValidateWith(env: Env, dir: Direction, doc: string, loader: Option<Loader>): (r: Step<()>)
    ensures loader.None? ==> r == Step(Ok(()), [])
    ensures loader.Some? ==> r.trace == [Validate(dir, doc, loader.value)]
    ensures loader.Some? ==> (r.result.Ok? <==> env.validate(doc, loader.value).None?)
    ensures r.result.Err? ==> loader.Some? && env.validate(doc, loader.value) == Some(r.result.error)
  {
    match loader
    case None => Step(Ok(()), [])
    case Some(l) =>
      match env.validate(doc, l)
      case None => Step(Ok(()), [Validate(dir, doc, l)])
      case Some(e) => Step(Err(e), [Validate(dir, doc, l)])
  }

  /** `inputValidate`. */
  function InputValidate(env: Env, d: Descriptor, doc: string): (r: Step<()>)
    ensures d.inputLoader.None? ==> r == Step(Ok(()), [])
    ensures r.result.Err? ==> d.inputLoader.Some? && env.validate(doc, d.inputLoader.value) == Some(r.result.error)
    ensures d.inputLoader.Some? ==>
      && r.trace == [Validate(Outbound, doc, d.inputLoader.value)]
      && (r.result.Ok? <==> env.validate(doc, d.inputLoader.value).None?)
  {
    ValidateWith(env, Outbound, doc, d.inputLoader)
  }

  /** `outputValidate`. */
  function OutputValidate(env: Env, d: Descriptor, doc: string): (r: Step<()>)
    ensures d.outputLoader.None? ==> r == Step(Ok(()), [])
    ensures r.result.Err? ==> d.outputLoader.Some? && env.validate(doc, d.outputLoader.value) == Some(r.result.error)
    ensures d.outputLoader.Some? ==>
      && r.trace == [Validate(Inbound, doc, d.outputLoader.value)]
      && (r.result.Ok? <==> env.validate(doc, d.outputLoader.value).None?)
  {
    ValidateWith(env, Inbound, doc, d.outputLoader)
  }
}
