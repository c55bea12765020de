/** The user registry. `src/routes/routes.ts` and `src/routes.ts` each keep
    their own module-level list of users with a list route and a create
    route; one class serves for both, instantiated once per file. */
module Users {
  import opened Http

  datatype User = User(id: string, name: string, email: string)

  /** The body of the create route. */
  datatype NewUser = NewUser(name: string, email: string)

  /** A request to the user routes; a create carries the fresh UUID the
      handler draws for it. */
  datatype Request = ListUsers | CreateUser(body: NewUser, id: string)

  /** The list after serving one request. */
  function Apply(users: seq<User>, req: Request): (r: seq<User>)
    ensures users <= r
    ensures req.ListUsers? ==> r == users
    ensures req.CreateUser? ==>
      |r| == |users| + 1 && r[|users|] == User(req.id, req.body.name, req.body.email)
  {
    match req
    case ListUsers => users
    case CreateUser(body, id) => users + [User(id, body.name, body.email)]
  }

  /** The list after serving the requests in order. */
  function Run(users: seq<User>, reqs: seq<Request>): seq<User>
    decreases |reqs|
  {
    if reqs == [] then users else Run(Apply(users, reqs[0]), reqs[1..])
  }

  /** The users the create requests among `reqs` add, in request order. */
  function Created(reqs: seq<Request>): seq<User>
    decreases |reqs|
  {
    if reqs == [] then []
    else match reqs[0]
      case ListUsers => Created(reqs[1..])
      case CreateUser(body, id) => [User(id, body.name, body.email)] + Created(reqs[1..])
  }

  /** Nothing ever removes or edits a user: after any run of requests the
      list is the list before it followed by the created users in the
      order of their requests. */
  lemma {:induction false} RunAppends(users: seq<User>, reqs: seq<Request>)
    ensures Run(users, reqs) == users + Created(reqs)
    ensures users <= Run(users, reqs)
    decreases |reqs|
  {
    if reqs == [] {
      assert users + [] == users;
    } else {
      RunAppends(Apply(users, reqs[0]), reqs[1..]);
      match reqs[0]
      case ListUsers =>
      case CreateUser(body, id) =>
        var u := User(id, body.name, body.email);
        assert users + [u] + Created(reqs[1..]) == users + ([u] + Created(reqs[1..]));
    }
  }

  class UserRegistry {
    /** The module-level list, in insertion order. */
    var users: seq<User>

    constructor ()
      ensures users == []
    {
      users := [];
    }

    /** GET: the whole list as stored. */
    method List() returns (r: Response<seq<User>>)
      ensures r == Ok(STATUS_OK, users)
    {
      r := Ok(STATUS_OK, users);
    }

    /** POST: append one user with the given name and email and the fresh
        id; reply 201 with an empty body. */
    method Create(body: NewUser, id: string) returns (status: nat)
      modifies this
      ensures users == old(users) + [User(id, body.name, body.email)]
      ensures users == Apply(old(users), CreateUser(body, id))
      ensures status == STATUS_CREATED
    {
      users := users + [User(id, body.name, body.email)];
      status := STATUS_CREATED;
    }
  }
}
