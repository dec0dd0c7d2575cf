/** The HTTP client and the remote service, seen from the command-line
    client: a log of the calls it makes, each answered by an oracle. */
module Client {
  import opened Wrappers
  import opened PyJson

  /** One call on the client object, with the arguments it receives. The two
      resolvers stand for the identifier helpers, which look a name or UUID
      up and answer a UUID or raise; their code is not part of this model. */
  datatype Call =
    | NewClient(kwargs: map<string, Json>)
    | SetToken(token: Json)
    | TokenNew(backend: Json, expiration: int)
    | TokenRevoke(token: Json)
    | ResolveUser(identifier: string)
    | ResolvePolicy(identifier: string)
    | UsersNew(body: map<string, Json>)
    | UsersDelete(uuid: Json)
    | UsersList
    | UsersGet(uuid: Json)
    | UsersGetPolicies(uuid: Json)
    | UsersGetTenants(uuid: Json)
    | UsersGetGroups(uuid: Json)
    | UsersAddPolicy(user: Json, policy: Json)
    | UsersRemovePolicy(user: Json, policy: Json)

  /** The remote side: the reply to each call, or the error it raises. A
      command never makes the same call twice, so a function of the call is
      enough. */
  type Server = Call -> Result<Json, Error>

  /** The calls a step made, in order, and what it produced or raised. */
  datatype Run<T> = Run(calls: seq<Call>, outcome: Result<T, Error>)

  /** How many calls of a log satisfy `p`. */
  function Count(calls: seq<Call>, p: Call -> bool): (n: nat)
    ensures n <= |calls|
    ensures n == 0 <==> forall i :: 0 <= i < |calls| ==> !p(calls[i])
  {
    if calls == [] then 0
    else (if p(calls[0]) then 1 else 0) + Count(calls[1..], p)
  }

  /** Counting distributes over concatenation of logs. */
  lemma {:induction false} CountAppend(a: seq<Call>, b: seq<Call>, p: Call -> bool)
    ensures Count(a + b, p) == Count(a, p) + Count(b, p)
  {
    if a != [] {
      assert (a + b)[1..] == a[1..] + b;
      CountAppend(a[1..], b, p);
    } else {
      assert a + b == b;
    }
  }
}
