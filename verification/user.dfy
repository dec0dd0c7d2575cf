/** The `user` sub-commands: list, create, delete, show, and add or remove a
    policy. Each command turns its parsed arguments into calls on the client
    and shapes the replies for display. */
module UserCommands {
  import opened Wrappers
  import opened PyJson
  import opened Client

  // ---------------------------------------------------------------------
  // user list: the synthetic `email` column
  // ---------------------------------------------------------------------

  /** `_main_email` over the elements of the emails collection: the address
      of the first email whose `main` is truthy, "" when there is none. */
  function MainEmailIn(emails: seq<Json>): Result<Json, Error>
  {
    if emails == [] then Ok(JStr(""))
    else
      var main :- Subscript(emails[0], "main");
      if Truthy(main) then Subscript(emails[0], "address")
      else MainEmailIn(emails[1..])
  }

  function MainEmail(emails: Json): Result<Json, Error> {
    var xs :- Iterate(emails);
    MainEmailIn(xs)
  }

  /** `_first_email`: the address of the first email, "" when there is none. */
  function FirstEmail(emails: Json): Result<Json, Error> {
    var xs :- Iterate(emails);
    if xs == [] then Ok(JStr("")) else Subscript(xs[0], "address")
  }

  /** `_main_email(emails) or _first_email(emails)`: Python's `or` keeps the
      main address when it is truthy and otherwise evaluates the fallback. */
  function DerivedEmail(emails: Json): Result<Json, Error> {
    var main :- MainEmail(emails);
    if Truthy(main) then Ok(main) else FirstEmail(emails)
  }

  /** An email record as the service sends it: a dict with `main` and
      `address`. */
  predicate IsEmailRecord(e: Json) {
    e.JObject? && "main" in e.fields && "address" in e.fields
  }

  predicate EmailRecords(xs: seq<Json>) {
    forall i :: 0 <= i < |xs| ==> IsEmailRecord(xs[i])
  }

  predicate IsMain(e: Json)
    requires IsEmailRecord(e)
  {
    Truthy(e.fields["main"])
  }

  function Address(e: Json): Json
    requires IsEmailRecord(e)
  {
    e.fields["address"]
  }

  /** `i` is the position of the first email marked main. */
  predicate FirstMainAt(xs: seq<Json>, i: int)
    requires EmailRecords(xs)
  {
    0 <= i < |xs| && IsMain(xs[i]) && forall j :: 0 <= j < i ==> !IsMain(xs[j])
  }

  predicate NoMain(xs: seq<Json>)
    requires EmailRecords(xs)
  {
    forall j :: 0 <= j < |xs| ==> !IsMain(xs[j])
  }

  /** `_main_email` on well-formed records answers the address of the first
      main email, and "" when no email is main. */
  lemma {:induction false} MainEmailPicksFirstMain(xs: seq<Json>)
    requires EmailRecords(xs)
    ensures forall i :: FirstMainAt(xs, i) ==> MainEmail(JList(xs)) == Ok(Address(xs[i]))
    ensures NoMain(xs) ==> MainEmail(JList(xs)) == Ok(JStr(""))
  {
    if xs != [] && !IsMain(xs[0]) {
      var rest := xs[1..];
      MainEmailPicksFirstMain(rest);
      assert MainEmailIn(xs) == MainEmailIn(rest);
      forall i | FirstMainAt(xs, i)
        ensures MainEmail(JList(xs)) == Ok(Address(xs[i]))
      {
        assert i > 0;
        forall j | 0 <= j < i - 1
          ensures !IsMain(rest[j])
        {
          assert rest[j] == xs[j + 1];
        }
        assert FirstMainAt(rest, i - 1);
      }
      if NoMain(xs) {
        assert NoMain(rest) by {
          forall j | 0 <= j < |rest|
            ensures !IsMain(rest[j])
          {
            assert rest[j] == xs[j + 1];
          }
        }
      }
    }
  }

  /** The email column on well-formed records: the first main email's
      address when it is truthy; otherwise (no main email, or a main email
      with an empty address) the first email's address; "" for no emails. */
  lemma DerivedEmailCases(xs: seq<Json>)
    requires EmailRecords(xs)
    ensures forall i :: FirstMainAt(xs, i) && Truthy(Address(xs[i])) ==>
      DerivedEmail(JList(xs)) == Ok(Address(xs[i]))
    ensures forall i :: FirstMainAt(xs, i) && !Truthy(Address(xs[i])) ==>
      DerivedEmail(JList(xs)) == Ok(Address(xs[0]))
    ensures NoMain(xs) && xs != [] ==> DerivedEmail(JList(xs)) == Ok(Address(xs[0]))
    ensures xs == [] ==> DerivedEmail(JList(xs)) == Ok(JStr(""))
  {
    MainEmailPicksFirstMain(xs);
  }

  /** An email with a string address: a record whose `address` is a string and
      whose `main` is a bool. */
  datatype Email = Email(address: string, main: bool)

  function EmailJson(e: Email): Json {
    JObject(map["address" := JStr(e.address), "main" := JBool(e.main)])
  }

  function EmailsJson(es: seq<Email>): seq<Json> {
    seq(|es|, i requires 0 <= i < |es| => EmailJson(es[i]))
  }

  /** Position of the first main email, `|es|` when there is none. */
  function MainIndex(es: seq<Email>): (i: nat)
    ensures i <= |es|
    ensures i < |es| ==> es[i].main
    ensures forall j :: 0 <= j < i ==> !es[j].main
  {
    if es == [] then 0
    else if es[0].main then 0
    else 1 + MainIndex(es[1..])
  }

  /** The tie-break, stated on its own: prefer the main email's address when
      it is non-empty, else the first email's address, else "". */
  function PreferredAddress(es: seq<Email>): string {
    var i := MainIndex(es);
    if i < |es| && es[i].address != "" then es[i].address
    else if es != [] then es[0].address
    else ""
  }

  /** The email column computed from the service's records agrees with the
      tie-break stated on its own. */
  lemma DerivedEmailIsPreferred(es: seq<Email>)
    ensures DerivedEmail(JList(EmailsJson(es))) == Ok(JStr(PreferredAddress(es)))
  {
    var xs := EmailsJson(es);
    assert EmailRecords(xs);
    assert forall j :: 0 <= j < |xs| ==> IsMain(xs[j]) == es[j].main;
    assert forall j :: 0 <= j < |xs| ==> Address(xs[j]) == JStr(es[j].address);
    DerivedEmailCases(xs);
    var i := MainIndex(es);
    if i < |es| {
      assert FirstMainAt(xs, i);
    } else {
      assert NoMain(xs);
    }
  }

  /** Three examples of the tie-break, and a main email with
      an empty address falling through to the first email. */
  lemma DerivedEmailExamples()
    ensures DerivedEmail(JList(EmailsJson([Email("a", false), Email("b", true)]))) == Ok(JStr("b"))
    ensures DerivedEmail(JList(EmailsJson([Email("a", false)]))) == Ok(JStr("a"))
    ensures DerivedEmail(JList([])) == Ok(JStr(""))
    ensures DerivedEmail(JList(EmailsJson([Email("a", false), Email("", true)]))) == Ok(JStr("a"))
  {
  }

  /** One user record with its `email` key set: every other key keeps its
      value, and `emails` stays in place. */
  function WithEmail(item: Json): (r: Result<Json, Error>)
    ensures r.Ok? <==>
      item.JObject? && "emails" in item.fields && DerivedEmail(item.fields["emails"]).Ok?
    ensures r.Ok? ==> r.value.JObject?
    ensures r.Ok? ==> r.value.fields.Keys == item.fields.Keys + {"email"}
    ensures r.Ok? ==> forall k :: k in item.fields && k != "email" ==> r.value.fields[k] == item.fields[k]
    ensures r.Ok? ==> Ok(r.value.fields["email"]) == DerivedEmail(item.fields["emails"])
    ensures !item.JObject? ==> r == Err(TypeError)
    ensures item.JObject? && "emails" !in item.fields ==> r == Err(KeyError("emails"))
    ensures item.JObject? && "emails" in item.fields && DerivedEmail(item.fields["emails"]).Err? ==>
      r == Err(DerivedEmail(item.fields["emails"]).error)
  {
    var emails :- Subscript(item, "emails");
    var email :- DerivedEmail(emails);
    Store(item, "email", email)
  }

  /** `_add_email_column`: every record annotated, in order; the first record
      that cannot be annotated stops the loop with its error. */
  function AddEmailColumn(items: seq<Json>): (r: Result<seq<Json>, Error>)
    ensures r.Ok? <==> forall i :: 0 <= i < |items| ==> WithEmail(items[i]).Ok?
    ensures r.Ok? ==> |r.value| == |items|
    ensures r.Ok? ==> forall i :: 0 <= i < |items| ==> Ok(r.value[i]) == WithEmail(items[i])
    ensures r.Err? ==>
      exists i :: 0 <= i < |items| && WithEmail(items[i]).Err? &&
        r == Err(WithEmail(items[i]).error) && (forall j :: 0 <= j < i ==> WithEmail(items[j]).Ok?)
  {
    if items == [] then Ok([])
    else
      var first :- WithEmail(items[0]);
      var rest :- AddEmailColumn(items[1..]);
      Ok([first] + rest)
  }

  /** What `user list` produces: column headers and rows. */
  datatype Table = Table(headers: seq<string>, rows: seq<seq<Json>>)

  /** `result['items']` of the listing reply. */
  function ListedItems(server: Server): Result<Json, Error> {
    var result :- server(UsersList);
    Subscript(result, "items")
  }

  function ListOutcome(
    server: Server,
    headersOf: Json -> seq<string>,
    rowsOf: (seq<string>, seq<Json>) -> seq<seq<Json>>): Result<Table, Error>
  {
    var items :- ListedItems(server);
    if !Truthy(items) then Ok(Table([], []))
    else
      var xs :- Iterate(items);
      var raw :- AddEmailColumn(xs);
      var headers := headersOf(raw[0]);
      Ok(Table(headers, rowsOf(headers, raw)))
  }

  /** `UserList.take_action`. Headers and rows are extracted by the list
      helpers, whose code is not part of this model: they are the parameters
      `headersOf` (from the first annotated record) and `rowsOf`. */
  function ListUsers(
    server: Server,
    headersOf: Json -> seq<string>,
    rowsOf: (seq<string>, seq<Json>) -> seq<seq<Json>>): (r: Run<Table>)
    ensures r.calls == [UsersList]
    ensures ListedItems(server).Ok? && !Truthy(ListedItems(server).value) ==>
      r.outcome == Ok(Table([], []))
    ensures ListedItems(server).Err? ==> r.outcome == Err(ListedItems(server).error)
    ensures ListedItems(server).Ok? && Truthy(ListedItems(server).value) && !ListedItems(server).value.JList? ==>
      r.outcome == Err(TypeError)
    ensures var items := ListedItems(server);
      items.Ok? && items.value.JList? && items.value.items != [] ==>
        match AddEmailColumn(items.value.items)
        case Ok(raw) =>
          |raw| == |items.value.items| &&
          r.outcome == Ok(Table(headersOf(raw[0]), rowsOf(headersOf(raw[0]), raw)))
        case Err(e) => r.outcome == Err(e)
  {
    Run([UsersList], ListOutcome(server, headersOf, rowsOf))
  }

  // ---------------------------------------------------------------------
  // user create
  // ---------------------------------------------------------------------

  /** The parsed arguments of `user create`: the username and `--password`
      are required, the rest are optional. */
  datatype CreateArgs = CreateArgs(
    name: string,
    password: string,
    uuid: Option<string>,
    email: Option<string>,
    firstname: Option<string>,
    lastname: Option<string>)

  /** `body[key] = value` only when the option was supplied. */
  function WithOptional(body: map<string, Json>, key: string, o: Option<string>): map<string, Json> {
    if Supplied(o) then body[key := JStr(o.value)] else body
  }

  /** The request body of `user create`: always the username and password,
      each optional field exactly when it was given a non-empty value, and
      nothing else. */
  function CreateBody(a: CreateArgs): (body: map<string, Json>)
    ensures "username" in body && body["username"] == JStr(a.name)
    ensures "password" in body && body["password"] == JStr(a.password)
    ensures "uuid" in body <==> Supplied(a.uuid)
    ensures "email_address" in body <==> Supplied(a.email)
    ensures "firstname" in body <==> Supplied(a.firstname)
    ensures "lastname" in body <==> Supplied(a.lastname)
    ensures "uuid" in body ==> body["uuid"] == JStr(a.uuid.value)
    ensures "email_address" in body ==> body["email_address"] == JStr(a.email.value)
    ensures "firstname" in body ==> body["firstname"] == JStr(a.firstname.value)
    ensures "lastname" in body ==> body["lastname"] == JStr(a.lastname.value)
    ensures body.Keys <= {"username", "password", "uuid", "email_address", "firstname", "lastname"}
  {
    var body := map["username" := JStr(a.name), "password" := JStr(a.password)];
    var body := WithOptional(body, "uuid", a.uuid);
    var body := WithOptional(body, "email_address", a.email);
    var body := WithOptional(body, "firstname", a.firstname);
    WithOptional(body, "lastname", a.lastname)
  }

  /** With only the username and password supplied, nothing else is sent:
      no optional field appears as null or as an empty string. */
  lemma CreateBodyMinimal(name: string, password: string, uuid: Option<string>,
                          email: Option<string>, firstname: Option<string>, lastname: Option<string>)
    requires !Supplied(uuid) && !Supplied(email) && !Supplied(firstname) && !Supplied(lastname)
    ensures CreateBody(CreateArgs(name, password, uuid, email, firstname, lastname))
         == map["username" := JStr(name), "password" := JStr(password)]
  {
  }

  /** `UserCreate.take_action`: one creation call with the body; the output is
      the new user's UUID on a line of its own. */
  function CreateUser(server: Server, a: CreateArgs): (r: Run<string>)
    ensures r.calls == [UsersNew(CreateBody(a))]
    ensures r.outcome.Ok? <==>
      server(UsersNew(CreateBody(a))).Ok? &&
      Subscript(server(UsersNew(CreateBody(a))).value, "uuid").Ok? &&
      Subscript(server(UsersNew(CreateBody(a))).value, "uuid").value.JStr?
    ensures r.outcome.Ok? ==>
      r.outcome.value == Subscript(server(UsersNew(CreateBody(a))).value, "uuid").value.s + "\n"
    ensures server(UsersNew(CreateBody(a))).Err? ==> r.outcome == Err(server(UsersNew(CreateBody(a))).error)
    ensures var reply := server(UsersNew(CreateBody(a)));
      reply.Ok? && Subscript(reply.value, "uuid").Err? ==>
        r.outcome == Err(Subscript(reply.value, "uuid").error)
    ensures var reply := server(UsersNew(CreateBody(a)));
      reply.Ok? && Subscript(reply.value, "uuid").Ok? && !Subscript(reply.value, "uuid").value.JStr? ==>
        r.outcome == Err(TypeError)
  {
    var call := UsersNew(CreateBody(a));
    Run([call],
      var user :- server(call);
      var uuid :- Subscript(user, "uuid");
      if uuid.JStr? then Ok(uuid.s + "\n") else Err(TypeError))
  }

  // ---------------------------------------------------------------------
  // user delete
  // ---------------------------------------------------------------------

  /** `UserDelete.take_action`: resolve, then delete the resolved UUID; a
      failed resolution deletes nothing. */
  function DeleteUser(server: Server, identifier: string): (r: Run<()>)
    ensures |r.calls| >= 1 && r.calls[0] == ResolveUser(identifier)
    ensures server(ResolveUser(identifier)).Err? ==>
      r.calls == [ResolveUser(identifier)] && r.outcome == Err(server(ResolveUser(identifier)).error)
    ensures server(ResolveUser(identifier)).Ok? ==>
      r.calls == [ResolveUser(identifier), UsersDelete(server(ResolveUser(identifier)).value)]
    ensures server(ResolveUser(identifier)).Ok? ==>
      var deleted := server(UsersDelete(server(ResolveUser(identifier)).value));
      deleted.Err? ==> r.outcome == Err(deleted.error)
    ensures r.outcome.Ok? <==> forall k :: 0 <= k < |r.calls| ==> server(r.calls[k]).Ok?
  {
    var resolve := ResolveUser(identifier);
    match server(resolve)
    case Err(e) => Run([resolve], Err(e))
    case Ok(uuid) =>
      var delete := UsersDelete(uuid);
      match server(delete)
      case Err(e) =>
        assert server([resolve, delete][1]).Err?;
        Run([resolve, delete], Err(e))
      case Ok(_) => Run([resolve, delete], Ok(()))
  }

  // ---------------------------------------------------------------------
  // user show
  // ---------------------------------------------------------------------

  /** `reply['items']` of a successful call. */
  function ItemsOf(reply: Result<Json, Error>): Result<Json, Error> {
    var v :- reply;
    Subscript(v, "items")
  }

  /** `user[key] = <call>['items']`: the call and its subscript come first,
      then the assignment. */
  function Attach(server: Server, user: Json, call: Call, key: string): Result<Json, Error> {
    var items :- ItemsOf(server(call));
    Store(user, key, items)
  }

  /** The calls `user show` makes for the user resolved to `uuid`. */
  function ShowCalls(identifier: string, uuid: Json): seq<Call> {
    [ResolveUser(identifier), UsersGet(uuid), UsersGetPolicies(uuid),
     UsersGetTenants(uuid), UsersGetGroups(uuid)]
  }

  /** Every reply `user show` needs has the shape it relies on: the user
      resolves, the user record is a dict, and the three collections come
      back as dicts with `items`. */
  predicate ShowRepliesWellFormed(server: Server, identifier: string) {
    var resolved := server(ResolveUser(identifier));
    && resolved.Ok?
    && server(UsersGet(resolved.value)).Ok?
    && server(UsersGet(resolved.value)).value.JObject?
    && ItemsOf(server(UsersGetPolicies(resolved.value))).Ok?
    && ItemsOf(server(UsersGetTenants(resolved.value))).Ok?
    && ItemsOf(server(UsersGetGroups(resolved.value))).Ok?
  }

  /** `UserShow.take_action`: the user record with `policies`, `tenants` and
      `groups` set to the `items` of the three related collections and every
      other key unchanged; any failing step fails the whole command. */
  function ShowUser(server: Server, identifier: string): (r: Run<Json>)
    ensures 1 <= |r.calls| <= 5 && r.calls[0] == ResolveUser(identifier)
    ensures server(ResolveUser(identifier)).Ok? ==>
      r.calls == ShowCalls(identifier, server(ResolveUser(identifier)).value)[..|r.calls|]
    ensures r.outcome.Ok? <==> ShowRepliesWellFormed(server, identifier)
    ensures server(ResolveUser(identifier)).Err? ==>
      r.calls == [ResolveUser(identifier)] && r.outcome == Err(server(ResolveUser(identifier)).error)
    ensures server(ResolveUser(identifier)).Ok? ==>
      var uuid := server(ResolveUser(identifier)).value;
      var user := server(UsersGet(uuid));
      var policies := ItemsOf(server(UsersGetPolicies(uuid)));
      var tenants := ItemsOf(server(UsersGetTenants(uuid)));
      var groups := ItemsOf(server(UsersGetGroups(uuid)));
      && (user.Err? ==> |r.calls| == 2 && r.outcome == Err(user.error))
      && (user.Ok? && policies.Err? ==> |r.calls| == 3 && r.outcome == Err(policies.error))
      && (user.Ok? && policies.Ok? && !user.value.JObject? ==> |r.calls| == 3 && r.outcome == Err(TypeError))
      && (user.Ok? && user.value.JObject? && policies.Ok? && tenants.Err? ==>
            |r.calls| == 4 && r.outcome == Err(tenants.error))
      && (user.Ok? && user.value.JObject? && policies.Ok? && tenants.Ok? && groups.Err? ==>
            |r.calls| == 5 && r.outcome == Err(groups.error))
    ensures r.outcome.Ok? ==>
      var uuid := server(ResolveUser(identifier)).value;
      var user := server(UsersGet(uuid)).value;
      && r.calls == ShowCalls(identifier, uuid)
      && r.outcome.value.JObject?
      && r.outcome.value.fields.Keys == user.fields.Keys + {"policies", "tenants", "groups"}
      && (forall k :: k in user.fields && k !in {"policies", "tenants", "groups"} ==>
            r.outcome.value.fields[k] == user.fields[k])
      && Ok(r.outcome.value.fields["policies"]) == ItemsOf(server(UsersGetPolicies(uuid)))
      && Ok(r.outcome.value.fields["tenants"]) == ItemsOf(server(UsersGetTenants(uuid)))
      && Ok(r.outcome.value.fields["groups"]) == ItemsOf(server(UsersGetGroups(uuid)))
  {
    var resolve := ResolveUser(identifier);
    match server(resolve)
    case Err(e) => Run([resolve], Err(e))
    case Ok(uuid) =>
      var calls := ShowCalls(identifier, uuid);
      match server(UsersGet(uuid))
      case Err(e) => Run(calls[..2], Err(e))
      case Ok(user) =>
        match Attach(server, user, UsersGetPolicies(uuid), "policies")
        case Err(e) => Run(calls[..3], Err(e))
        case Ok(user1) =>
          match Attach(server, user1, UsersGetTenants(uuid), "tenants")
          case Err(e) => Run(calls[..4], Err(e))
          case Ok(user2) =>
            Run(calls, Attach(server, user2, UsersGetGroups(uuid), "groups"))
  }

  // ---------------------------------------------------------------------
  // user add / user remove
  // ---------------------------------------------------------------------

  datatype Relation = Add | Remove

  /** The one mutation a relation command makes. */
  function Mutation(op: Relation, user: Json, policy: Json): Call {
    match op
    case Add => UsersAddPolicy(user, policy)
    case Remove => UsersRemovePolicy(user, policy)
  }

  predicate IsMutation(c: Call) {
    c.UsersAddPolicy? || c.UsersRemovePolicy?
  }

  /** The shared shape of `UserAdd.take_action` and `UserRemove.take_action`:
      resolve the user, then (only when `--policy` is non-empty) resolve the
      policy, then make one mutation with both resolved UUIDs. */
  function Relate(server: Server, op: Relation, identifier: string, policy: Option<string>): (r: Run<()>)
    ensures 1 <= |r.calls| <= 3 && r.calls[0] == ResolveUser(identifier)
    ensures forall k :: 0 <= k < |r.calls| && r.calls[k].ResolvePolicy? ==>
      k == 1 && Supplied(policy) && r.calls[k] == ResolvePolicy(policy.value)
    ensures forall k :: 0 <= k < |r.calls| && IsMutation(r.calls[k]) ==>
      && k == 2
      && server(ResolveUser(identifier)).Ok?
      && Supplied(policy)
      && server(ResolvePolicy(policy.value)).Ok?
      && r.calls[k] == Mutation(op, server(ResolveUser(identifier)).value,
                                    server(ResolvePolicy(policy.value)).value)
    ensures server(ResolveUser(identifier)).Err? ==>
      r.calls == [ResolveUser(identifier)] && r.outcome == Err(server(ResolveUser(identifier)).error)
    ensures server(ResolveUser(identifier)).Ok? && Supplied(policy) ==>
      |r.calls| >= 2 && r.calls[1] == ResolvePolicy(policy.value)
    ensures server(ResolveUser(identifier)).Ok? && Supplied(policy) && server(ResolvePolicy(policy.value)).Err? ==>
      |r.calls| == 2 && r.outcome == Err(server(ResolvePolicy(policy.value)).error)
    ensures server(ResolveUser(identifier)).Ok? && Supplied(policy) && server(ResolvePolicy(policy.value)).Ok? ==>
      var mutate := Mutation(op, server(ResolveUser(identifier)).value, server(ResolvePolicy(policy.value)).value);
      |r.calls| == 3 && r.calls[2] == mutate &&
      r.outcome == (if server(mutate).Ok? then Ok(()) else Err(server(mutate).error))
    ensures Count(r.calls, IsMutation) == 1 <==>
      server(ResolveUser(identifier)).Ok? && Supplied(policy) && server(ResolvePolicy(policy.value)).Ok?
    ensures !Supplied(policy) ==> r.calls == [ResolveUser(identifier)]
    ensures r.outcome.Ok? <==> forall k :: 0 <= k < |r.calls| ==> server(r.calls[k]).Ok?
  {
    var resolveUser := ResolveUser(identifier);
    match server(resolveUser)
    case Err(e) => Run([resolveUser], Err(e))
    case Ok(uuid) =>
      if !Supplied(policy) then Run([resolveUser], Ok(()))
      else
        var resolvePolicy := ResolvePolicy(policy.value);
        match server(resolvePolicy)
        case Err(e) => Run([resolveUser, resolvePolicy], Err(e))
        case Ok(policyUuid) =>
          var mutate := Mutation(op, uuid, policyUuid);
          var calls := [resolveUser, resolvePolicy, mutate];
          assert calls[1..][1..] == [mutate] && calls[1..][1..][1..] == [];
          assert Count(calls[1..][1..], IsMutation) == 1;
          assert Count(calls[1..], IsMutation) == 1;
          match server(mutate)
          case Err(e) => Run(calls, Err(e))
          case Ok(_) => Run(calls, Ok(()))
  }

  /** `user add` only ever adds a policy. */
  function UserAdd(server: Server, identifier: string, policy: Option<string>): (r: Run<()>)
    ensures forall k :: 0 <= k < |r.calls| && IsMutation(r.calls[k]) ==> r.calls[k].UsersAddPolicy?
  {
    Relate(server, Add, identifier, policy)
  }

  /** `user remove` only ever removes a policy. */
  function UserRemove(server: Server, identifier: string, policy: Option<string>): (r: Run<()>)
    ensures forall k :: 0 <= k < |r.calls| && IsMutation(r.calls[k]) ==> r.calls[k].UsersRemovePolicy?
  {
    Relate(server, Remove, identifier, policy)
  }

  /** A policy that cannot be resolved (unknown or ambiguous) stops the
      command before any mutation. */
  lemma UnresolvedPolicyMutatesNothing(server: Server, op: Relation, identifier: string, policy: string)
    requires policy != "" && server(ResolvePolicy(policy)).Err?
    ensures Count(Relate(server, op, identifier, Some(policy)).calls, IsMutation) == 0
    ensures Relate(server, op, identifier, Some(policy)).outcome.Err?
  {
  }
}
