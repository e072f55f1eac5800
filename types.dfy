/** The records the engine passes around (src/types.ts): the pull request and
    workflow run snapshots fetched from the repository host, and the
    `Problem` error envelope with its open context bag. */
module Types {
  import opened Wrappers

  /** The JavaScript values that end up in a problem's context bag. */
  datatype Value =
    | Undefined
    | Null
    | Num(n: int)
    | Str(s: string)
    | Obj(fields: map<string, Value>)
    | Arr(items: seq<Value>)
    | Thrown(error: Error)

  /** A thrown error: a plain `Error` (raised by a gate or by the remote client) or a `Problem`. */
  datatype Error =
    | PlainError(msg: string)
    | ProblemError(problem: Problem)
  {
    /** The error's `message` property. */
    function Message(): string {
      match this
      case PlainError(m) => m
      case ProblemError(p) => p.message
    }
  }

  /** The error envelope: a message, the underlying cause if one was given,
      and the remaining named context. An unset `cause` is `None`; a `cause`
      key present with the value `undefined` is `Some(Undefined)`. */
  datatype Problem = Problem(message: string, cause: Option<Value>, opts: map<string, Value>)

  /** `new Problem(message, opts)`: the context bag is a fresh copy of `opts`
      (an empty bag for `null`/`undefined`), and a `cause` key is moved out of it. */
  function NewProblem(message: string, opts: Option<map<string, Value>>): (p: Problem)
    ensures p.message == message
    ensures "cause" !in p.opts
    ensures opts.None? ==> p.opts == map[] && p.cause == None
    ensures opts.Some? ==> p.cause == (if "cause" in opts.value then Some(opts.value["cause"]) else None)
    ensures opts.Some? ==> p.opts.Keys == opts.value.Keys - {"cause"}
    ensures opts.Some? ==> forall k :: k in p.opts ==> p.opts[k] == opts.value[k]
  {
    var bag := if opts.Some? then opts.value else map[];
    if "cause" in bag then Problem(message, Some(bag["cause"]), bag - {"cause"})
    else Problem(message, None, bag)
  }

  /** The `Problem` constructor as written: copy the bag (an empty one for a
      missing bag), then, if it has a `cause` key, set the cause from it and
      delete the key from the copy. The caller's bag is a value and is left as it was. */
  method ConstructProblem(message: string, opts: Option<map<string, Value>>) returns (p: Problem)
    ensures p == NewProblem(message, opts)
  {
    var bag := if opts.Some? then opts.value else map[];
    var cause: Option<Value> := None;
    if "cause" in bag {
      cause := Some(bag["cause"]);
      bag := bag - {"cause"};
    }
    p := Problem(message, cause, bag);
  }

  /** The options bag a problem carries, with its cause put back under the `cause` key. */
  function OptionsBag(p: Problem): map<string, Value> {
    if p.cause.Some? then p.opts["cause" := p.cause.value] else p.opts
  }

  /** Constructing a problem loses no key of the bag it was given: putting the
      cause back gives the original bag. */
  lemma NewProblemKeepsBag(message: string, bag: map<string, Value>)
    ensures OptionsBag(NewProblem(message, Some(bag))) == bag
  {
    var p := NewProblem(message, Some(bag));
    var back := OptionsBag(p);
    assert back.Keys == bag.Keys;
    forall k | k in bag ensures back[k] == bag[k] {
      if k != "cause" {
        assert k in p.opts;
      }
    }
  }

  /** Every well-formed problem (no `cause` key left in its bag) is what the
      constructor builds from its own options bag. */
  lemma NewProblemOfOptionsBag(p: Problem)
    requires "cause" !in p.opts
    ensures NewProblem(p.message, Some(OptionsBag(p))) == p
  {
    var q := NewProblem(p.message, Some(OptionsBag(p)));
    assert q.opts.Keys == p.opts.Keys;
    forall k | k in p.opts ensures q.opts[k] == p.opts[k] {
      assert k != "cause";
    }
  }

  /** The repository a pull request belongs to: `repository.name` and `repository.owner.login`. */
  datatype Repository = Repository(name: string, ownerLogin: string)

  /** `IncomingPullRequest`: an open pull request targeting the pushed branch. */
  datatype PullRequest = PullRequest(
    number: nat,
    mergeable: string,
    headRefName: string,
    repository: Repository)

  /** The fields of a listed workflow run that the engine and the reporter read.
      `name` and `status` may be null; `pullRequests` holds the numbers of the
      associated pull requests and may be null. */
  datatype WorkflowRun = WorkflowRun(
    id: nat,
    name: Option<string>,
    status: Option<string>,
    pullRequests: Option<seq<nat>>)

  function NullableString(s: Option<string>): Value {
    if s.Some? then Str(s.value) else Null
  }

  /** A pull request as the JavaScript object placed under `pullRequest` in a problem's bag. */
  function PullRequestValue(pr: PullRequest): Value {
    Obj(map[
      "number" := Num(pr.number),
      "mergeable" := Str(pr.mergeable),
      "headRef" := Obj(map["name" := Str(pr.headRefName)]),
      "repository" := Obj(map[
        "name" := Str(pr.repository.name),
        "owner" := Obj(map["login" := Str(pr.repository.ownerLogin)])])])
  }

  /** A workflow run as the JavaScript object placed under `run` in a problem's bag. */
  function RunValue(run: WorkflowRun): Value {
    Obj(map[
      "id" := Num(run.id),
      "name" := NullableString(run.name),
      "status" := NullableString(run.status),
      "pull_requests" :=
        if run.pullRequests.Some?
        then Arr(seq(|run.pullRequests.value|, i requires 0 <= i < |run.pullRequests.value| =>
                       Obj(map["number" := Num(run.pullRequests.value[i])])))
        else Null])
  }
}
