/** The in-memory user table of backend/app.py, without the Flask layer:
    each handler takes the parsed request (the path's user id and the JSON
    object body, `None` when there is none) and returns the status code with
    the JSON it would send. */
module Users {
  import opened Wrappers

  /** A JSON value as Python's `json` module yields it. */
  datatype Json =
    | JNull
    | JBool(b: bool)
    | JInt(i: int)
    | JReal(r: real)
    | JStr(s: string)
    | JArray(items: seq<Json>)
    | JObject(fields: map<string, Json>)

  /** A user record: a JSON object. */
  type User = map<string, Json>

  /** Status code and JSON body of a response. */
  datatype Reply = Reply(status: int, body: Json)

  /** Python truthiness: `None`, `False`, zero and empty containers are false. */
  predicate Truthy(v: Json)
  {
    match v
    case JNull => false
    case JBool(b) => b
    case JInt(i) => i != 0
    case JReal(r) => r != 0.0
    case JStr(s) => s != ""
    case JArray(items) => items != []
    case JObject(fields) => fields != map[]
  }

  /** Python's `v == n` for a JSON value and an int: numbers compare by value,
      and `True`/`False` equal 1/0. */
  predicate EqualsInt(v: Json, n: int)
  {
    match v
    case JInt(i) => i == n
    case JReal(r) => r == n as real
    case JBool(b) => (if b then 1 else 0) == n
    case _ => false
  }

  /** `u["id"] == user_id`. */
  predicate Matches(u: User, id: int)
  {
    "id" in u && EqualsInt(u["id"], id)
  }

  /** `not user.get(key)`: the field is missing or falsy. */
  predicate Missing(u: User, key: string)
  {
    key !in u || !Truthy(u[key])
  }

  function Error(message: string): Json
  {
    JObject(map["error" := JStr(message)])
  }

  /** `next((u for u in users if u["id"] == id), None)`, as an index. */
  function FindUser(users: seq<User>, id: int): (r: Option<nat>)
    ensures r.Some? ==> r.value < |users| && Matches(users[r.value], id)
    ensures r.Some? ==> forall j :: 0 <= j < r.value ==> !Matches(users[j], id)
    ensures r.None? ==> forall j :: 0 <= j < |users| ==> !Matches(users[j], id)
    decreases |users|
  {
    if users == [] then None
    else if Matches(users[0], id) then Some(0)
    else
      match FindUser(users[1..], id)
      case None => None
      case Some(k) => Some(k + 1)
  }

  /** `[u for u in users if u["id"] != id]`. */
  function Without(users: seq<User>, id: int): (r: seq<User>)
    ensures forall u :: u in r <==> u in users && !Matches(u, id)
    ensures |r| <= |users|
    ensures (forall j :: 0 <= j < |users| ==> !Matches(users[j], id)) ==> r == users
    ensures (exists j :: 0 <= j < |users| && Matches(users[j], id)) ==> |r| < |users|
    decreases |users|
  {
    if users == [] then []
    else (if Matches(users[0], id) then [] else [users[0]]) + Without(users[1..], id)
  }

  /** The filter keeps the surviving records in their original order: it
      distributes over concatenation. */
  lemma {:induction false} WithoutConcat(a: seq<User>, b: seq<User>, id: int)
    ensures Without(a + b, id) == Without(a, id) + Without(b, id)
    decreases |a|
  {
    if a == [] {
      assert a + b == b;
    } else {
      assert (a + b)[1..] == a[1..] + b;
      WithoutConcat(a[1..], b, id);
    }
  }

  /** `len(users) + 1`, the id a new record gets. */
  function NextId(users: seq<User>): int
  {
    |users| + 1
  }

  /** Ids are not unique: with records 1 and 2, deleting 1 and then creating
      a user hands out id 2 again, which the remaining record already holds. */
  lemma IdReusedAfterDelete(first: User, second: User)
    requires Matches(first, 1) && Matches(second, 2)
    ensures var rest := Without([first, second], 1);
      rest == [second] && Matches(rest[0], NextId(rest))
  {
  }

  /** `data_store["users"]`. */
  class UserStore {
    var users: seq<User>

    /** Every record has an `id`: create sets it and update can only
        overwrite it, so `u["id"]` never raises. */
    ghost predicate Valid()
      reads this
    {
      forall u :: u in users ==> "id" in u
    }

    constructor ()
      ensures Valid() && users == []
    {
      users := [];
    }

    /** `GET /api/users`: the whole table, unchanged, with 200. */
    function GetUsers(): (r: Reply)
      requires Valid()
      reads this
      ensures r.status == 200 && r.body.JObject? && r.body.fields.Keys == {"users"}
      ensures var listed := r.body.fields["users"];
        listed.JArray? && |listed.items| == |users| &&
        forall j :: 0 <= j < |users| ==> listed.items[j] == JObject(users[j])
    {
      var table := users;
      Reply(200, JObject(map["users" := JArray(seq(|table|, j requires 0 <= j < |table| => JObject(table[j])))]))
    }

    /** `POST /api/users`: 400 without a truthy `name` and `email`; otherwise
        the body plus `id = len + 1` is appended and returned with 201. */
    method CreateUser(body: Option<User>) returns (r: Reply)
      requires Valid()
      modifies this
      ensures Valid()
      ensures body.None? || Missing(body.value, "name") || Missing(body.value, "email") ==>
        r == Reply(400, Error("Invalid input")) && users == old(users)
      ensures body.Some? && !Missing(body.value, "name") && !Missing(body.value, "email") ==>
        var created := body.value["id" := JInt(|old(users)|+ 1)];
        r == Reply(201, JObject(created)) && users == old(users) + [created]
    {
      if body.None? || body.value == map[] || Missing(body.value, "name") || Missing(body.value, "email") {
        return Reply(400, Error("Invalid input"));
      }
      var user := body.value["id" := JInt(NextId(users))];
      users := users + [user];
      r := Reply(201, JObject(user));
    }

    /** `GET /api/users/<id>`: the first record whose id equals `id`, or 404. */
    function GetUser(id: int): (r: Reply)
      requires Valid()
      reads this
      ensures r.status == 200 <==> exists j :: 0 <= j < |users| && Matches(users[j], id)
      ensures r.status != 200 ==> r == Reply(404, Error("User not found"))
      ensures r.status == 200 ==>
        exists k :: 0 <= k < |users| && r.body == JObject(users[k]) &&
                    Matches(users[k], id) && (forall j :: 0 <= j < k ==> !Matches(users[j], id))
    {
      match FindUser(users, id)
      case None => Reply(404, Error("User not found"))
      case Some(k) => Reply(200, JObject(users[k]))
    }

    /** `PUT /api/users/<id>`: 404 when no record matches, then 400 on an
        empty body; otherwise `dict.update` merges the body into the first
        matching record in place (it may overwrite `id`), leaving the other
        records alone, and returns the record with 200. */
    method UpdateUser(id: int, body: Option<User>) returns (r: Reply)
      requires Valid()
      modifies this
      ensures Valid()
      ensures FindUser(old(users), id).None? ==>
        r == Reply(404, Error("User not found")) && users == old(users)
      ensures FindUser(old(users), id).Some? && (body.None? || body.value == map[]) ==>
        r == Reply(400, Error("Invalid input")) && users == old(users)
      ensures FindUser(old(users), id).Some? && body.Some? && body.value != map[] ==>
        var k := FindUser(old(users), id).value;
        |users| == |old(users)| &&
        users[k] == old(users)[k] + body.value &&
        (forall j :: 0 <= j < |users| && j != k ==> users[j] == old(users)[j]) &&
        r == Reply(200, JObject(users[k]))
    {
      var found := FindUser(users, id);
      if found.None? {
        return Reply(404, Error("User not found"));
      }
      if body.None? || body.value == map[] {
        return Reply(400, Error("Invalid input"));
      }
      var k := found.value;
      users := users[k := users[k] + body.value];
      r := Reply(200, JObject(users[k]));
    }

    /** `DELETE /api/users/<id>`: 404 when no record matches; otherwise every
        matching record is removed, the rest keep their order, and 200. */
    method DeleteUser(id: int) returns (r: Reply)
      requires Valid()
      modifies this
      ensures Valid()
      ensures FindUser(old(users), id).None? ==>
        r == Reply(404, Error("User not found")) && users == old(users)
      ensures FindUser(old(users), id).Some? ==>
        r == Reply(200, JObject(map["message" := JStr("User deleted")])) &&
        users == Without(old(users), id) &&
        (forall j :: 0 <= j < |users| ==> !Matches(users[j], id)) &&
        |users| < |old(users)|
    {
      if FindUser(users, id).None? {
        return Reply(404, Error("User not found"));
      }
      users := Without(users, id);
      r := Reply(200, JObject(map["message" := JStr("User deleted")]));
    }
  }
}
