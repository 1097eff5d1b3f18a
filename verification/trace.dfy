/** The record of which collaborators one call invoked, with what, in
    which order. client.go keeps no such record; it is the observation
    the pipeline's ordering properties are stated over. */
module Trace {
  import opened Base
  import opened Collaborators

  datatype Invocation =
    | Marshal
    | Merge(doc: string, defaults: string)
    | Format(dir: Direction, doc: string, formatPath: string)
    | Validate(dir: Direction, doc: string, loader: Loader)
    | Send(context: Context, httpMethod: string, path: string, body: string)
    | Unmarshal(doc: string)
    | CheckOutput(output: Output)

  /** A pipeline step's Go-style result and the invocations it made. */
  datatype Step<+T> = Step(result: Result<T>, trace: seq<Invocation>)

  /** The position of an invocation in the pipeline's fixed order. */
  function Rank(inv: Invocation): (k: nat) {
    match inv
    case Marshal => 0
    case Merge(_, _) => 1
    case Format(dir, _, _) => if dir == Outbound then 2 else 6
    case Validate(dir, _, _) => if dir == Outbound then 3 else 5
    case Send(_, _, _, _) => 4
    case Unmarshal(_) => 7
    case CheckOutput(_) => 8
  }

  /** Strictly increasing ranks: every collaborator at most once, in order. */
  ghost predicate Ordered(t: seq<Invocation>) {
    forall i, j :: 0 <= i < j < |t| ==> Rank(t[i]) < Rank(t[j])
  }

  /** Every invocation of `t` comes before pipeline position `k`. */
  ghost predicate Before(t: seq<Invocation>, k: nat) {
    forall i :: 0 <= i < |t| ==> Rank(t[i]) < k
  }

  /** Appending at most one invocation of position `k` to an ordered trace
      whose invocations all come before `k` keeps it ordered. */
  lemma Append(t: seq<Invocation>, s: seq<Invocation>, k: nat)
    requires Ordered(t) && Before(t, k)
    requires |s| <= 1 && forall i :: 0 <= i < |s| ==> Rank(s[i]) == k
    ensures Ordered(t + s) && Before(t + s, k + 1)
  {
    var u := t + s;
    forall i, j | 0 <= i < j < |u|
      ensures Rank(u[i]) < Rank(u[j])
    {
      if j >= |t| {
        assert u[j] == s[j - |t|];
        assert u[i] == t[i];
      }
    }
  }
}
