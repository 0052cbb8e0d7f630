/** The strategies package: the values strategies work on, and the
    gradualRolloutSessionId strategy. */
module Strategies {
  import opened Wrappers

  /** An evaluation context: field name to value (userId, sessionId, appName, ...). */
  type Context = map<string, string>

  /** A strategy parameter value as the strategy object holds it. */
  datatype Param = Num(n: int) | Text(t: string)

  /** normalized_hash(identifier, group): a deterministic function into the
      integers; its MurmurHash3 body is not part of this model, and no range
      is assumed for it. */
  type Hasher = (string, Param) -> int

  /** The strategy classes a client can dispatch to: the seven built-ins and
      the custom ones a caller registers, told apart by a name. */
  datatype StrategyClass =
    | ApplicationHostname
    | Default
    | GradualRolloutRandom
    | GradualRolloutSessionId
    | GradualRolloutUserId
    | RemoteAddress
    | UserWithId
    | Custom(name: string)

  /** `m[k]` on a dictionary: the value, or a KeyError. */
  function Lookup<V>(m: map<string, V>, k: string): (r: Result<V>)
    ensures r.Success? <==> k in m
    ensures r.Success? ==> r.value == m[k]
    ensures r.Failure? ==> r.error == KeyError(k)
  {
    if k in m then Success(m[k]) else Failure(KeyError(k))
  }

  /** `context[k]` where the context may be None (the strategy's default
      argument): subscripting None is a TypeError. */
  function LookupContext(context: Option<Context>, k: string): (r: Result<string>)
    ensures r.Success? <==> context.Some? && k in context.value
    ensures r.Success? ==> r.value == context.value[k]
    ensures context.None? ==> r == Failure(TypeError)
    ensures context.Some? && k !in context.value ==> r == Failure(KeyError(k))
  {
    match context
    case None => Failure(TypeError)
    case Some(c) => Lookup(c, k)
  }

  /** Python's `a < b` with an integer on the right: comparing a str with an
      int raises a TypeError. */
  function LessThan(a: Param, b: int): (r: Result<bool>)
    ensures r.Success? <==> a.Num?
    ensures r.Success? ==> (r.value <==> a.n < b)
    ensures a.Text? ==> r == Failure(TypeError)
  {
    match a
    case Num(n) => Success(n < b)
    case Text(_) => Failure(TypeError)
  }

  /** GradualRolloutSessionId.__call__: read `percentage` and `groupId` from
      the parameters and `sessionId` from the context, in that order, and
      hold exactly when the percentage is strictly below the session's
      normalized hash. */
  function SessionRollout(parameters: map<string, Param>, context: Option<Context>, hash: Hasher): (r: Result<bool>)
    // the first missing input decides the exception
    ensures "percentage" !in parameters ==> r == Failure(KeyError("percentage"))
    ensures "percentage" in parameters && "groupId" !in parameters ==> r == Failure(KeyError("groupId"))
    ensures "percentage" in parameters && "groupId" in parameters && context.None? ==> r == Failure(TypeError)
    ensures "percentage" in parameters && "groupId" in parameters && context.Some? && "sessionId" !in context.value
            ==> r == Failure(KeyError("sessionId"))
    ensures "percentage" in parameters && "groupId" in parameters && context.Some? && "sessionId" in context.value
            && parameters["percentage"].Text?
            ==> r == Failure(TypeError)
    // a boolean comes back exactly when all three inputs are there and the percentage is a number
    ensures r.Success? <==> "percentage" in parameters && "groupId" in parameters && context.Some?
                            && "sessionId" in context.value && parameters["percentage"].Num?
    ensures r.Success? ==>
              (r.value <==> parameters["percentage"].n < hash(context.value["sessionId"], parameters["groupId"]))
  {
    var percentage :- Lookup(parameters, "percentage");
    var activationGroup :- Lookup(parameters, "groupId");
    var sessionId :- LookupContext(context, "sessionId");
    LessThan(percentage, hash(sessionId, activationGroup))
  }

  /** Two evaluations that agree on percentage, groupId and sessionId agree,
      whatever else the parameters and contexts hold: the strategy is
      deterministic and reads nothing else. */
  lemma SessionRolloutReadsOnlyItsInputs(p1: map<string, Param>, p2: map<string, Param>,
                                         c1: Context, c2: Context, hash: Hasher)
    requires Lookup(p1, "percentage") == Lookup(p2, "percentage")
    requires Lookup(p1, "groupId") == Lookup(p2, "groupId")
    requires Lookup(c1, "sessionId") == Lookup(c2, "sessionId")
    ensures SessionRollout(p1, Some(c1), hash) == SessionRollout(p2, Some(c2), hash)
  {
  }

  /** With group, session and hash fixed, lowering the percentage never
      turns the strategy off. */
  lemma SessionRolloutAntitone(parameters: map<string, Param>, context: Context, hash: Hasher, p: int, q: int)
    requires q <= p
    requires SessionRollout(parameters["percentage" := Num(p)], Some(context), hash) == Success(true)
    ensures SessionRollout(parameters["percentage" := Num(q)], Some(context), hash) == Success(true)
  {
  }
}
