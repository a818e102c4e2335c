/** Get-or-create of a tenant's D1 database (src/resources.ts), over an
    account whose databases are a map from name to record. */
module Resources {
  import opened Wrappers
  import opened Util

  /** A remote call made to the D1 part of the management API. */
  datatype D1Call =
    | GetDatabase(name: string)
    | CreateDatabase(name: string, locationHint: Option<string>)

  /** The D1 side of one account: its databases by name, how many were created
      (the source of fresh uuids), and the failure, if any, that every `get`
      (every `create`) answers with instead of consulting the store. */
  datatype D1State = D1State(
    databases: map<string, JsObject>,
    created: nat,
    getFault: Option<Error>,
    createFault: Option<Error>)

  /** The record the platform answers a successful `create` with. */
  function NewDatabase(name: string, serial: nat): JsObject
  {
    [Entry("uuid", Str("d1-" + NatToString(serial))), Entry("name", Str(name))]
  }

  /** The platform's answer to `d1.database.get(name)`. */
  function GetReply(s: D1State, name: string): Result<JsObject, Error>
  {
    if s.getFault.Some? then Failure(s.getFault.value)
    else if name in s.databases then Success(s.databases[name])
    else Failure(NotFoundError("database not found: " + name))
  }

  /** The platform's answer to `d1.database.create({name, primary_location_hint})`
      and the store afterwards; an existing name is refused. */
  function CreateReply(s: D1State, name: string, hint: Option<string>): (Result<JsObject, Error>, D1State)
  {
    if s.createFault.Some? then (Failure(s.createFault.value), s)
    else if name in s.databases then (Failure(ApiError(400, "database already exists: " + name)), s)
    else
      var db := NewDatabase(name, s.created);
      (Success(db), s.(databases := s.databases[name := db], created := s.created + 1))
  }

  /** What `getOrCreateD1(name, hint)` does to an account in state `s`: its
      result, the account afterwards and the remote calls it makes, in order. */
  function GetOrCreate(s: D1State, name: string, hint: Option<string>): (Result<JsObject, Error>, D1State, seq<D1Call>)
  {
    match GetReply(s, name)
    case Success(db) => (Required(db), s, [GetDatabase(name)])
    case Failure(e) =>
      if e.NotFoundError? then
        var (made, s') := CreateReply(s, name, hint);
        (RequireReply(made), s', [GetDatabase(name), CreateDatabase(name, hint)])
      else (Failure(e), s, [GetDatabase(name)])
  }

  /** The account behind the SDK client: the store that `create` adds to, and
      the log of every call made to it. */
  class D1Account {
    var databases: map<string, JsObject>
    var created: nat
    var getFault: Option<Error>
    var createFault: Option<Error>
    var log: seq<D1Call>

    constructor (databases: map<string, JsObject>, getFault: Option<Error>, createFault: Option<Error>)
      ensures State() == D1State(databases, 0, getFault, createFault)
      ensures log == []
    {
      this.databases := databases;
      this.created := 0;
      this.getFault := getFault;
      this.createFault := createFault;
      this.log := [];
    }

    function State(): D1State
      reads this
    {
      D1State(databases, created, getFault, createFault)
    }

    method Get(name: string) returns (r: Result<JsObject, Error>)
      modifies this`log
      ensures log == old(log) + [GetDatabase(name)]
      ensures r == GetReply(State(), name)
    {
      log := log + [GetDatabase(name)];
      r := GetReply(State(), name);
    }

    method Create(name: string, hint: Option<string>) returns (r: Result<JsObject, Error>)
      modifies this
      ensures log == old(log) + [CreateDatabase(name, hint)]
      ensures (r, State()) == CreateReply(old(State()), name, hint)
    {
      log := log + [CreateDatabase(name, hint)];
      var (reply, after) := CreateReply(State(), name, hint);
      databases, created := after.databases, after.created;
      r := reply;
    }
  }

  /** `Resources.getOrCreateD1`: a `get` whose result goes through `required`
      inside a try block; the catch block creates the database when the error
      is `NotFoundError` and rethrows anything else. */
  method GetOrCreateD1(account: D1Account, name: string, locationHint: Option<string>) returns (r: Result<JsObject, Error>)
    modifies account
    ensures var out := GetOrCreate(old(account.State()), name, locationHint);
            r == out.0 && account.State() == out.1 && account.log == old(account.log) + out.2
  {
    // try
    var existing := account.Get(name);
    var attempt := RequireReply(existing);
    if attempt.Success? {
      return attempt;
    }
    // catch (error)
    if attempt.error.NotFoundError? {
      var made := account.Create(name, locationHint);
      r := RequireReply(made);
    } else {
      r := attempt;
    }
  }

  /** A complete record found by `get` is returned as it is and nothing is created. */
  lemma FoundDatabaseReturned(s: D1State, name: string, hint: Option<string>)
    requires s.getFault.None? && name in s.databases && AllDefined(s.databases[name])
    ensures GetOrCreate(s, name, hint) == (Success(s.databases[name]), s, [GetDatabase(name)])
  {
  }

  /** On `NotFoundError` exactly one `create` is issued, for the same name and
      hint, and its reply (through `required`) is the result. */
  lemma NotFoundCreatesOnce(s: D1State, name: string, hint: Option<string>)
    requires GetReply(s, name).Failure? && GetReply(s, name).error.NotFoundError?
    ensures var out := GetOrCreate(s, name, hint);
            && out.2 == [GetDatabase(name), CreateDatabase(name, hint)]
            && out.0 == RequireReply(CreateReply(s, name, hint).0)
            && out.1 == CreateReply(s, name, hint).1
  {
  }

  /** When nothing fails, a missing database is created and stored under its name. */
  lemma MissingDatabaseStored(s: D1State, name: string, hint: Option<string>)
    requires s.getFault.None? && s.createFault.None? && name !in s.databases
    ensures var out := GetOrCreate(s, name, hint);
            && out.0 == Success(NewDatabase(name, s.created))
            && out.1.databases == s.databases[name := NewDatabase(name, s.created)]
  {
  }

  /** Any other error from `get` is rethrown unchanged and nothing is created. */
  lemma OtherErrorRethrown(s: D1State, name: string, hint: Option<string>, e: Error)
    requires GetReply(s, name) == Failure(e) && !e.NotFoundError?
    ensures GetOrCreate(s, name, hint) == (Failure(e), s, [GetDatabase(name)])
  {
  }

  /** A found record with an `undefined` entry makes `required` throw; that is
      not `NotFoundError`, so it is rethrown and no `create` happens. */
  lemma IncompleteRecordNotRecreated(s: D1State, name: string, hint: Option<string>)
    requires s.getFault.None? && name in s.databases && !AllDefined(s.databases[name])
    ensures var out := GetOrCreate(s, name, hint);
            && out.0.Failure? && out.0.error.PlainError?
            && out.1 == s && out.2 == [GetDatabase(name)]
  {
  }

  /** A successful result has every entry defined, and it is the record the
      account now holds under that name. */
  lemma SuccessIsStoredAndComplete(s: D1State, name: string, hint: Option<string>)
    ensures var out := GetOrCreate(s, name, hint);
            out.0.Success? ==>
              AllDefined(out.0.value) && name in out.1.databases && out.1.databases[name] == out.0.value
  {
  }

  /** Idempotence over the store: after a successful call for `name`, a second
      call for `name` returns the same record, changes nothing and creates
      nothing, whatever hint it is given. */
  lemma GetOrCreateIdempotent(s: D1State, name: string, hint: Option<string>, hint': Option<string>)
    requires s.getFault.None?
    requires GetOrCreate(s, name, hint).0.Success?
    ensures var (r1, s1, _) := GetOrCreate(s, name, hint);
            GetOrCreate(s1, name, hint') == (r1, s1, [GetDatabase(name)])
  {
    SuccessIsStoredAndComplete(s, name, hint);
  }
}
