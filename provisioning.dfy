/** What the two provisioning edge functions share: the request they read, the
    response they answer with, the answers of the services they call, and the
    backend those calls change (the auth users, the `pilots` table and the
    `profiles` table, reached with the service-role key). */
module Provisioning {
  import opened Wrappers
  import opened Strings

  /** A JSON value of the request body, as far as the handlers look at it. */
  datatype Json = Undefined | Null | Bool(b: bool) | Num(n: real) | Str(s: string) | Container

  /** JavaScript truthiness: `!v` is false. */
  predicate Truthy(v: Json) {
    match v
    case Undefined => false
    case Null => false
    case Bool(b) => b
    case Num(n) => n != 0.0
    case Str(s) => s != ""
    case Container => true
  }

  /** A string field that may be absent; it is present for `!field` only when not empty. */
  predicate Given(field: Option<string>) {
    field.Some? && field.value != ""
  }

  datatype PilotData = PilotData(name: Option<string>, category: Json, baseFee: Json, closingDate: Json, observations: Json)
  datatype UserData = UserData(email: Option<string>, password: Option<string>)
  datatype Payload = Payload(pilotData: Option<PilotData>, userData: Option<UserData>)

  /** The result of `await req.json()`: the payload, or the message of the parse error it raises. */
  datatype Body = Parsed(payload: Payload) | Malformed(parseError: string)

  datatype Request = Request(verb: string, body: Body)

  datatype ResponseBody = Text(text: string) | MessageBody(message: string) | ErrorBody(error: string)
  datatype Response = Response(status: int, body: ResponseBody)

  /** `new Response('ok', { headers: corsHeaders })`: the answer to a CORS preflight. */
  const Preflight := Response(200, Text("ok"))

  type UserId = nat
  type PilotKey = nat

  /** An auth user, with the password it was created with and whether its email counts as confirmed. */
  datatype Account = Account(email: string, password: string, emailConfirmed: bool)

  /** A row of the `pilots` table as the edge functions insert it: the payload's values, unconverted. */
  datatype PilotRow = PilotRow(name: string, category: Json, baseFee: Json, closingDate: Json, observations: Json)

  /** A row of the `profiles` table: keyed by the user's id, it gives the role and the linked pilot. */
  datatype Profile = Profile(role: string, pilotId: PilotKey)

  const PilotRole := "piloto"

  /** The calls a handler makes to the auth service and the database, in order. */
  datatype Call =
    | CreateUser(email: string, password: string, emailConfirm: bool)
    | InsertPilot(row: PilotRow)
    | InsertProfile(userId: UserId, profile: Profile)
    | DeletePilot(pilotId: PilotKey)
    | DeleteUser(userId: UserId)

  /** The answer of `auth.admin.createUser`: a user with an id, no id, or an error. */
  datatype AuthReply = Created | CreatedWithoutId | AuthError(message: string)

  /** The answer of `from('pilots').insert(...).select('id').single()`. */
  datatype InsertReply = Inserted | InsertedWithoutId | InsertError(message: string)

  /** Everything outside the handler: whether the service-role environment
      variables are set, the UUID `crypto.randomUUID()` draws, and how each
      call is answered. */
  datatype Environment = Environment(
    configured: bool,
    uuid: string,
    createUser: AuthReply,
    insertPilot: InsertReply,
    insertProfile: StepOutcome,
    pilotRollback: StepOutcome,
    userRollback: StepOutcome,
    catchRollback: StepOutcome)

  datatype Tables = Tables(users: map<UserId, Account>, pilots: map<PilotKey, PilotRow>, profiles: map<UserId, Profile>)

  /** The tables a request changes, the calls it makes, and its answer. */
  datatype Run = Run(tables: Tables, calls: seq<Call>, response: Response)

  /** The tables, calls and error of the steps after the user is created. */
  datatype Step = Step(tables: Tables, calls: seq<Call>, thrown: Option<string>)

  /** The tables after `auth.admin.deleteUser(u)` answered with `outcome`. */
  function DeleteUserIn(t: Tables, u: UserId, outcome: StepOutcome): Tables {
    if outcome.Succeeds? then t.(users := t.users - {u}) else t
  }

  // ---------------------------------------------------------------------------
  // Texts both handlers build the same way

  /** `password || crypto.randomUUID().substring(0, 12)`: a given password is
      used as it is; otherwise the password is the first 12 characters of the
      UUID, or all of it when it is shorter. */
  function Password(userData: UserData, uuid: string): (password: string)
    ensures Given(userData.password) ==> password == userData.password.value
    ensures !Given(userData.password) ==> IsPrefix(password, uuid) && |password| == if |uuid| < 12 then |uuid| else 12
  {
    if Given(userData.password) then userData.password.value
    else uuid[..if |uuid| < 12 then |uuid| else 12]
  }

  const InUse := "já está em uso"
  const UserWithoutId := "Usuário Auth criado, mas ID não retornado."

  function DuplicateEmailMessage(email: string): string {
    "O email " + email + " " + InUse + "."
  }

  /** `Erro ao salvar dados do piloto: ${pilotError?.message || 'ID não retornado'}` */
  function PilotErrorMessage(detail: string): string {
    "Erro ao salvar dados do piloto: " + (if detail != "" then detail else "ID não retornado")
  }

  function ProfileErrorMessage(detail: string): string {
    "Erro ao vincular perfil: " + detail
  }

  function Confirmation(name: string, email: string): string {
    "Piloto " + name + " e conta para " + email + " criados com sucesso."
  }

  /** The confirmation, followed by the temporary password when the handler generated it. */
  function SuccessMessage(name: string, email: string, password: string, generated: bool): string {
    Confirmation(name, email) + (if generated then PasswordNote + password else "")
  }

  const PasswordNote := " Senha temporária: "

  /** The success message announces a temporary password if and only if one was
      generated, and then it shows that password; this holds for every name and
      email whose confirmation does not itself hold the announcement. */
  lemma TemporaryPasswordShownIffGenerated(name: string, email: string, password: string, generated: bool)
    requires !Contains(Confirmation(name, email), PasswordNote)
    ensures Contains(SuccessMessage(name, email, password, generated), PasswordNote) <==> generated
    ensures generated ==> Contains(SuccessMessage(name, email, password, generated), password)
  {
    var base := Confirmation(name, email);
    if generated {
      assert SuccessMessage(name, email, password, generated) == base + PasswordNote + password;
      ContainsInfix(base, PasswordNote, password);
      assert base + PasswordNote + password == (base + PasswordNote) + password + "";
      ContainsInfix(base + PasswordNote, password, "");
    } else {
      assert SuccessMessage(name, email, password, generated) == base;
    }
  }

  /** A name and an email without 'á' never make the confirmation hold the announcement. */
  lemma ConfirmationWithoutAcuteLacksNote(name: string, email: string)
    requires 'á' !in name && 'á' !in email
    ensures !Contains(Confirmation(name, email), PasswordNote)
  {
    assert PasswordNote[13] == 'á';
    assert 'á' !in Confirmation(name, email) by {
      assert 'á' !in "Piloto " && 'á' !in " e conta para " && 'á' !in " criados com sucesso.";
    }
    NotContainsWithoutChar(Confirmation(name, email), PasswordNote, 'á');
  }

  /** The duplicate-email message always holds the text the status mapping looks for. */
  lemma DuplicateEmailMessageInUse(email: string)
    ensures Contains(DuplicateEmailMessage(email), InUse)
  {
    ContainsInfix("O email " + email + " ", InUse, ".");
  }

  /** The message prefixes that never hold the conflict text. */
  lemma MessagesWithoutConflict()
    ensures !Contains(UserWithoutId, InUse)
  {
    assert InUse[0] == 'j';
    NotContainsWithoutChar(UserWithoutId, InUse, 'j');
  }

  // ---------------------------------------------------------------------------
  // The backend

  class Backend {
    var users: map<UserId, Account>
    var pilots: map<PilotKey, PilotRow>
    var profiles: map<UserId, Profile>
    /** The ids the services hand out next. */
    var nextUserId: nat
    var nextPilotId: nat
    /** The calls made so far. */
    ghost var calls: seq<Call>

    /** Every id in use was handed out before. */
    ghost predicate Valid()
      reads this
    {
      && (forall u | u in users :: u < nextUserId)
      && (forall u | u in profiles :: u < nextUserId)
      && (forall p | p in pilots :: p < nextPilotId)
    }

    function State(): Tables
      reads this
    {
      Tables(users, pilots, profiles)
    }

    constructor ()
      ensures Valid() && State() == Tables(map[], map[], map[]) && calls == []
    {
      users, pilots, profiles := map[], map[], map[];
      nextUserId, nextPilotId := 0, 0;
      calls := [];
    }

    /** `auth.admin.createUser({ email, password, email_confirm })`: the id of the new user, no id, or the error. */
    method CreateUserCall(email: string, password: string, emailConfirm: bool, reply: AuthReply)
      returns (r: Result<Option<UserId>>)
      requires Valid()
      modifies this
      ensures Valid()
      ensures calls == old(calls) + [CreateUser(email, password, emailConfirm)]
      ensures pilots == old(pilots) && profiles == old(profiles) && nextPilotId == old(nextPilotId)
      ensures reply.Created? ==>
        && r == Success(Some(old(nextUserId)))
        && old(nextUserId) !in old(users)
        && users == old(users)[old(nextUserId) := Account(email, password, emailConfirm)]
        && nextUserId == old(nextUserId) + 1
      ensures !reply.Created? ==> nextUserId == old(nextUserId)
      ensures reply.CreatedWithoutId? ==> r == Success(None) && users == old(users)
      ensures reply.AuthError? ==> r == Failure(reply.message) && users == old(users)
    {
      calls := calls + [CreateUser(email, password, emailConfirm)];
      match reply
      case Created =>
        var id := nextUserId;
        users := users[id := Account(email, password, emailConfirm)];
        nextUserId := nextUserId + 1;
        r := Success(Some(id));
      case CreatedWithoutId =>
        r := Success(None);
      case AuthError(message) =>
        r := Failure(message);
    }

    /** `from('pilots').insert(row).select('id').single()` */
    method InsertPilotCall(row: PilotRow, reply: InsertReply) returns (r: Result<Option<PilotKey>>)
      requires Valid()
      modifies this
      ensures Valid()
      ensures calls == old(calls) + [InsertPilot(row)]
      ensures users == old(users) && profiles == old(profiles) && nextUserId == old(nextUserId)
      ensures reply.Inserted? ==>
        && r == Success(Some(old(nextPilotId)))
        && old(nextPilotId) !in old(pilots)
        && pilots == old(pilots)[old(nextPilotId) := row]
        && nextPilotId == old(nextPilotId) + 1
      ensures !reply.Inserted? ==> nextPilotId == old(nextPilotId)
      ensures reply.InsertedWithoutId? ==> r == Success(None) && pilots == old(pilots)
      ensures reply.InsertError? ==> r == Failure(reply.message) && pilots == old(pilots)
    {
      calls := calls + [InsertPilot(row)];
      match reply
      case Inserted =>
        var id := nextPilotId;
        pilots := pilots[id := row];
        nextPilotId := nextPilotId + 1;
        r := Success(Some(id));
      case InsertedWithoutId =>
        r := Success(None);
      case InsertError(message) =>
        r := Failure(message);
    }

    /** `from('profiles').insert({ id, role, pilot_id })` */
    method InsertProfileCall(userId: UserId, profile: Profile, outcome: StepOutcome) returns (r: StepOutcome)
      requires Valid() && userId < nextUserId
      modifies this`profiles, this`calls
      ensures Valid()
      ensures calls == old(calls) + [InsertProfile(userId, profile)]
      ensures r == outcome
      ensures profiles == if outcome.Succeeds? then old(profiles)[userId := profile] else old(profiles)
    {
      calls := calls + [InsertProfile(userId, profile)];
      if outcome.Succeeds? {
        profiles := profiles[userId := profile];
      }
      r := outcome;
    }

    /** `from('pilots').delete().eq('id', pilotId)` */
    method DeletePilotCall(pilotId: PilotKey, outcome: StepOutcome) returns (r: StepOutcome)
      requires Valid()
      modifies this`pilots, this`calls
      ensures Valid()
      ensures calls == old(calls) + [DeletePilot(pilotId)]
      ensures r == outcome
      ensures pilots == if outcome.Succeeds? then old(pilots) - {pilotId} else old(pilots)
    {
      calls := calls + [DeletePilot(pilotId)];
      if outcome.Succeeds? {
        pilots := pilots - {pilotId};
      }
      r := outcome;
    }

    /** `auth.admin.deleteUser(userId)` */
    method DeleteUserCall(userId: UserId, outcome: StepOutcome) returns (r: StepOutcome)
      requires Valid()
      modifies this`users, this`calls
      ensures Valid()
      ensures calls == old(calls) + [DeleteUser(userId)]
      ensures r == outcome
      ensures users == if outcome.Succeeds? then old(users) - {userId} else old(users)
    {
      calls := calls + [DeleteUser(userId)];
      if outcome.Succeeds? {
        users := users - {userId};
      }
      r := outcome;
    }
  }
}
