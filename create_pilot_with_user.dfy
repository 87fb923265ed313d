/** The `create-pilot-with-user` edge function: it validates the request,
    creates the auth user, then the pilot, then the profile that links them,
    undoes what it created in reverse order when a later step fails, and maps
    the error message to the HTTP status.

    The long messages are concatenations of short literals, and the lemmas
    that show a character absent from one go piece by piece: the solver
    settles a short literal quickly but not several long ones in one proof. */
module CreatePilotWithUser {
  import opened Wrappers
  import opened Strings
  import opened Provisioning

  const MethodNotAllowed := "Método não permitido" + ". Use POST."
  const IncompleteData := "Dados incompletos" + ". Forneça pelo menos "
                          + "nome, email, mensalidade(número) e "
                          + "data de fechamento(número)."
  const MissingEnvironment := "Variáveis de ambiente " + "SUPABASE_URL ou "
                              + "SUPABASE_SERVICE_ROLE_KEY " + "não definidas."
  /** The start of the auth error message, and the text the catch block tests before its rollback. */
  const LoginError := "Erro ao criar conta de login"

  /** The payload has pilot and user data, a name and an email, and numbers
      for the fee and the closing day: a payload that passes yields a pilot row
      with a name and numeric fee and day, and an account with an email. */
  predicate ValidPayload(p: Payload): (ok: bool)
    ensures ok ==>
      && p.pilotData.Some? && Given(p.pilotData.value.name) && p.userData.Some? && Given(p.userData.value.email)
      && var row := NewPilotRow(p.pilotData.value);
         row.name != "" && row.baseFee.Num? && row.closingDate.Num?
  {
    && p.pilotData.Some?
    && p.userData.Some?
    && Given(p.pilotData.value.name)
    && Given(p.userData.value.email)
    && p.pilotData.value.baseFee.Num?
    && p.pilotData.value.closingDate.Num?
  }

  /** The auth errors reported as an email already in use. */
  predicate IsDuplicateEmail(authMessage: string) {
    Contains(authMessage, "duplicate key value") || Contains(authMessage, "already registered")
  }

  /** The error thrown for a failed user creation: a duplicate is reported as
      an email in use; any other error starts with the text that keeps the
      catch block from deleting a user, and carries the service's message. */
  function AuthErrorMessage(email: string, authMessage: string): (m: string)
    ensures IsDuplicateEmail(authMessage) ==> m == DuplicateEmailMessage(email) && Contains(m, InUse)
    ensures !IsDuplicateEmail(authMessage) ==>
      IsPrefix(LoginError, m) && !RetriesRollback(m) && Contains(m, authMessage)
  {
    if IsDuplicateEmail(authMessage) then
      DuplicateEmailMessageInUse(email);
      DuplicateEmailMessage(email)
    else
      var m := LoginError + ": " + authMessage;
      assert m[..|LoginError|] == LoginError;
      assert m == LoginError + (": " + authMessage);
      ContainsPrefix(LoginError, ": " + authMessage);
      assert m == (LoginError + ": ") + authMessage + "";
      ContainsInfix(LoginError + ": ", authMessage, "");
      m
  }

  /** `status: 409 if 'já está em uso', else 400 if 'Dados incompletos' or
      'Método não permitido', else 500`: always an error status, and a conflict
      exactly for a message about an email in use. */
  function Status(message: string): (status: int)
    ensures status in {400, 409, 500}
    ensures status == 409 <==> Contains(message, InUse)
    ensures status == 400 <==>
      !Contains(message, InUse) && (Contains(message, "Dados incompletos") || Contains(message, "Método não permitido"))
  {
    if Contains(message, InUse) then 409
    else if Contains(message, "Dados incompletos") || Contains(message, "Método não permitido") then 400
    else 500
  }

  function ErrorResponse(message: string): Response {
    Response(Status(message), ErrorBody(message))
  }

  /** The catch block deletes the user again unless the message is about
      creating the login, so never after a login error. */
  predicate RetriesRollback(message: string): (ok: bool)
    ensures IsPrefix(LoginError, message) ==> !ok
  {
    if IsPrefix(LoginError, message) then
      assert message == LoginError + message[|LoginError|..];
      ContainsPrefix(LoginError, message[|LoginError|..]);
      false
    else !Contains(message, LoginError)
  }

  /** The message the catch block answers with: the error at its head, with
      the message of a failed rollback appended and nothing added otherwise. */
  function AfterCatch(thrown: string, rollback: StepOutcome): (m: string)
    ensures IsPrefix(thrown, m)
    ensures rollback.Fails? ==> |m| > |thrown| && Contains(m, rollback.message)
    ensures rollback.Succeeds? ==> m == thrown
  {
    if rollback.Fails? then
      var m := thrown + " (Falha no rollback: " + rollback.message + ")";
      assert m == (thrown + " (Falha no rollback: ") + rollback.message + ")";
      ContainsInfix(thrown + " (Falha no rollback: ", rollback.message, ")");
      assert m[..|thrown|] == thrown;
      m
    else thrown
  }

  /** The row inserted for a payload: the name, fee and day as given, and an
      empty category or empty observations become `null`. */
  function NewPilotRow(p: PilotData): (row: PilotRow)
    requires Given(p.name)
    ensures row.name == p.name.value && row.baseFee == p.baseFee && row.closingDate == p.closingDate
    ensures Truthy(p.category) ==> row.category == p.category
    ensures !Truthy(p.category) ==> row.category == Null
    ensures Truthy(p.observations) ==> row.observations == p.observations
    ensures !Truthy(p.observations) ==> row.observations == Null
  {
    PilotRow(p.name.value, if Truthy(p.category) then p.category else Null,
             p.baseFee, p.closingDate, if Truthy(p.observations) then p.observations else Null)
  }

  /** The request gets as far as the call that creates the user. */
  predicate ReachesAuth(req: Request, env: Environment) {
    req.verb == "POST" && req.body.Parsed? && ValidPayload(req.body.payload) && env.configured
  }

  function PilotDataOf(req: Request): PilotData
    requires req.body.Parsed? && ValidPayload(req.body.payload)
  {
    req.body.payload.pilotData.value
  }

  function UserDataOf(req: Request): UserData
    requires req.body.Parsed? && ValidPayload(req.body.payload)
  {
    req.body.payload.userData.value
  }

  /** The user the handler asks the auth service to create: the request's
      email, not yet confirmed, with the given password or else one drawn
      from the UUID. */
  function NewAccount(req: Request, env: Environment): (a: Account)
    requires req.body.Parsed? && ValidPayload(req.body.payload)
    ensures a.email == UserDataOf(req).email.value && a.email != "" && !a.emailConfirmed
    ensures Given(UserDataOf(req).password) ==> a.password == UserDataOf(req).password.value
    ensures !Given(UserDataOf(req).password) ==> IsPrefix(a.password, env.uuid) && |a.password| <= 12
  {
    Account(UserDataOf(req).email.value, Password(UserDataOf(req), env.uuid), false)
  }

  /** A request that is not POST is answered with 400. */
  lemma MethodNotAllowedIs400()
    ensures Status(MethodNotAllowed) == 400
  {
    assert InUse[1] == 'á';
    assert 'á' !in "Método não permitido" && 'á' !in ". Use POST.";
    NotContainsWithoutChar(MethodNotAllowed, InUse, 'á');
    ContainsPrefix("Método não permitido", ". Use POST.");
  }

  lemma FillInLacksAcute() ensures 'á' !in ". Forneça pelo menos " {}
  lemma FieldsLackAcute() ensures 'á' !in "nome, email, mensalidade(número) e " {}
  lemma ClosingDayLacksAcute() ensures 'á' !in "data de fechamento(número)." {}

  /** The incomplete-data message has no 'á'. */
  lemma IncompleteDataLacksAcute()
    ensures 'á' !in IncompleteData
  {
    FillInLacksAcute();
    FieldsLackAcute();
    ClosingDayLacksAcute();
    AbsentFromPieces("Dados incompletos", ". Forneça pelo menos ", "nome, email, mensalidade(número) e ",
                     "data de fechamento(número).", 'á');
  }

  /** A payload that fails validation is answered with 400. */
  lemma IncompleteDataIs400()
    ensures Status(IncompleteData) == 400
  {
    IncompleteDataLacksAcute();
    assert InUse[1] == 'á';
    NotContainsWithoutChar(IncompleteData, InUse, 'á');
    var a, b := "Dados incompletos", ". Forneça pelo menos ";
    ContainsPrefix(a, b);
    ContainsAppend(a + b, "nome, email, mensalidade(número) e ", a);
    ContainsAppend(a + b + "nome, email, mensalidade(número) e ", "data de fechamento(número).", a);
  }

  lemma VariablesLack() ensures 'j' !in "Variáveis de ambiente " && 'D' !in "Variáveis de ambiente " && 'é' !in "Variáveis de ambiente " {}
  lemma UrlLacks() ensures 'j' !in "SUPABASE_URL ou " && 'D' !in "SUPABASE_URL ou " && 'é' !in "SUPABASE_URL ou " {}
  lemma KeyLacks() ensures 'j' !in "SUPABASE_SERVICE_ROLE_KEY " && 'D' !in "SUPABASE_SERVICE_ROLE_KEY " && 'é' !in "SUPABASE_SERVICE_ROLE_KEY " {}
  lemma UndefinedLacks() ensures 'j' !in "não definidas." && 'D' !in "não definidas." && 'é' !in "não definidas." {}

  /** The environment message lacks a character of each text the status mapping looks for. */
  lemma MissingEnvironmentLacks()
    ensures 'j' !in MissingEnvironment && 'D' !in MissingEnvironment && 'é' !in MissingEnvironment
  {
    VariablesLack(); UrlLacks(); KeyLacks(); UndefinedLacks();
    AbsentFromPieces("Variáveis de ambiente ", "SUPABASE_URL ou ", "SUPABASE_SERVICE_ROLE_KEY ", "não definidas.", 'j');
    AbsentFromPieces("Variáveis de ambiente ", "SUPABASE_URL ou ", "SUPABASE_SERVICE_ROLE_KEY ", "não definidas.", 'D');
    AbsentFromPieces("Variáveis de ambiente ", "SUPABASE_URL ou ", "SUPABASE_SERVICE_ROLE_KEY ", "não definidas.", 'é');
  }

  /** Missing service-role variables are answered with 500. */
  lemma MissingEnvironmentIs500()
    ensures Status(MissingEnvironment) == 500
  {
    MissingEnvironmentLacks();
    assert InUse[0] == 'j';
    NotContainsWithoutChar(MissingEnvironment, InUse, 'j');
    assert "Dados incompletos"[0] == 'D';
    NotContainsWithoutChar(MissingEnvironment, "Dados incompletos", 'D');
    assert "Método não permitido"[1] == 'é';
    NotContainsWithoutChar(MissingEnvironment, "Método não permitido", 'é');
  }

  /** An auth error about a duplicate key or an already registered email is answered with 409. */
  lemma DuplicateEmailIs409(email: string, authMessage: string)
    requires IsDuplicateEmail(authMessage)
    ensures Status(AuthErrorMessage(email, authMessage)) == 409
  {
    DuplicateEmailMessageInUse(email);
  }

  // ---------------------------------------------------------------------------
  // What one request does

  /** The message a request is refused with before any call is made, checked
      in order: the method and the payload give a 400, a missing environment
      a 500, and an unparsable body answers with the parser's message. */
  function Rejection(req: Request, env: Environment): (m: string)
    requires !ReachesAuth(req, env)
    ensures req.verb != "POST" ==> Status(m) == 400
    ensures req.verb == "POST" && req.body.Parsed? && !ValidPayload(req.body.payload) ==> Status(m) == 400
    ensures req.verb == "POST" && req.body.Parsed? && ValidPayload(req.body.payload) ==> Status(m) == 500
    ensures req.verb == "POST" && req.body.Malformed? ==> m == req.body.parseError
  {
    MethodNotAllowedIs400();
    IncompleteDataIs400();
    MissingEnvironmentIs500();
    if req.verb != "POST" then MethodNotAllowed
    else if req.body.Malformed? then req.body.parseError
    else if !ValidPayload(req.body.payload) then IncompleteData
    else MissingEnvironment
  }

  /** The catch block for an error thrown after the user `u` was created: it
      deletes the user once more unless the message is about creating the
      login, keeps the error at the head of the message, and touches neither
      the pilots nor the profiles. */
  function CatchBlock(t: Tables, calls: seq<Call>, u: UserId, thrown: string, rollback: StepOutcome): (r: Run)
    ensures r.calls == calls + (if RetriesRollback(thrown) then [DeleteUser(u)] else [])
    ensures r.tables.pilots == t.pilots && r.tables.profiles == t.profiles
    ensures r.tables.users == t.users || r.tables.users == t.users - {u}
    ensures r.response.status != 201 && r.response.body.ErrorBody?
    ensures IsPrefix(thrown, r.response.body.error)
    ensures RetriesRollback(thrown) && rollback.Fails? ==> Contains(r.response.body.error, rollback.message)
    ensures !(RetriesRollback(thrown) && rollback.Fails?) ==> r.response.body.error == thrown
    ensures r.tables.users == if RetriesRollback(thrown) && rollback.Succeeds? then t.users - {u} else t.users
  {
    var message := if RetriesRollback(thrown) then AfterCatch(thrown, rollback) else thrown;
    if RetriesRollback(thrown)
    then Run(DeleteUserIn(t, u, rollback), calls + [DeleteUser(u)], ErrorResponse(message))
    else Run(t, calls, ErrorResponse(message))
  }

  /** The pilot and profile inserts with their inline rollbacks, on tables
      that already hold the new user `u`, when the next pilot id is `p`. They
      throw exactly when an insert fails; when they do not, the pilot and the
      profile linking it to the user are added, and when they do, no profile is. */
  function PilotSteps(t: Tables, row: PilotRow, u: UserId, p: PilotKey, env: Environment): (s: Step)
    ensures s.thrown.None? <==> env.insertPilot.Inserted? && env.insertProfile.Succeeds?
    ensures s.thrown.None? ==> s.tables == t.(pilots := t.pilots[p := row], profiles := t.profiles[u := Profile(PilotRole, p)])
    ensures s.thrown.Some? ==> s.tables.profiles == t.profiles
    ensures env.insertPilot.InsertError? ==> s.thrown == Some(PilotErrorMessage(env.insertPilot.message))
    ensures env.insertPilot.InsertedWithoutId? ==> s.thrown == Some(PilotErrorMessage(""))
    ensures env.insertPilot.Inserted? && env.insertProfile.Fails? ==>
      s.thrown == Some(ProfileErrorMessage(env.insertProfile.message))
  {
    match env.insertPilot
    case Inserted =>
      var withPilot := t.(pilots := t.pilots[p := row]);
      var profile := Profile(PilotRole, p);
      if env.insertProfile.Succeeds? then
        Step(withPilot.(profiles := withPilot.profiles[u := profile]), [InsertPilot(row), InsertProfile(u, profile)], None)
      else
        var afterPilot := if env.pilotRollback.Succeeds? then withPilot.(pilots := withPilot.pilots - {p}) else withPilot;
        Step(DeleteUserIn(afterPilot, u, env.userRollback),
             [InsertPilot(row), InsertProfile(u, profile), DeletePilot(p), DeleteUser(u)],
             Some(ProfileErrorMessage(env.insertProfile.message)))
    case _ =>
      var detail := match env.insertPilot case InsertError(m) => m case _ => "";
      Step(DeleteUserIn(t, u, env.userRollback), [InsertPilot(row), DeleteUser(u)], Some(PilotErrorMessage(detail)))
  }

  /** What a request that passed validation does, from the user creation on:
      it first asks for an unconfirmed user, and answers 201 exactly when the
      user is created with an id and both inserts succeed, with the user, the
      pilot and the profile linking them added; a failed user creation leaves
      the tables as they were, and every other answer carries an error. */
  function Provision(req: Request, env: Environment, before: Tables, u: UserId, p: PilotKey): (r: Run)
    requires ReachesAuth(req, env)
    ensures |r.calls| >= 1 && r.calls[0] == CreateUser(NewAccount(req, env).email, NewAccount(req, env).password, false)
    ensures r.response.status == 201 <==>
      env.createUser.Created? && env.insertPilot.Inserted? && env.insertProfile.Succeeds?
    ensures r.response.status == 201 ==>
      r.tables == before.(users := before.users[u := NewAccount(req, env)],
                          pilots := before.pilots[p := NewPilotRow(PilotDataOf(req))],
                          profiles := before.profiles[u := Profile(PilotRole, p)])
    ensures r.response.status != 201 ==> r.response.body.ErrorBody?
    ensures !env.createUser.Created? ==> r.tables == before && |r.calls| == 1
  {
    var a := NewAccount(req, env);
    var create := CreateUser(a.email, a.password, false);
    match env.createUser
    case AuthError(m) => Run(before, [create], ErrorResponse(AuthErrorMessage(a.email, m)))
    case CreatedWithoutId => Run(before, [create], ErrorResponse(UserWithoutId))
    case Created =>
      var s := PilotSteps(before.(users := before.users[u := a]), NewPilotRow(PilotDataOf(req)), u, p, env);
      if s.thrown.None? then
        Run(s.tables, [create] + s.calls,
            Response(201, MessageBody(SuccessMessage(PilotDataOf(req).name.value, a.email, a.password,
                                                     !Given(UserDataOf(req).password)))))
      else CatchBlock(s.tables, [create] + s.calls, u, s.thrown.value, env.catchRollback)
  }

  /** What serving `req` does to the tables `before`, when the services hand
      out the user id `u` and the pilot id `p`: the new tables, the calls made
      and the response. */
  function Serve(req: Request, env: Environment, before: Tables, u: UserId, p: PilotKey): (r: Run)
    ensures r.calls == [] <==> req.verb == "OPTIONS" || !ReachesAuth(req, env)
    ensures r.calls == [] ==> r.tables == before
  {
    if req.verb == "OPTIONS" then Run(before, [], Preflight)
    else if !ReachesAuth(req, env) then Run(before, [], ErrorResponse(Rejection(req, env)))
    else Provision(req, env, before, u, p)
  }

  /** Steps 3 and 4 of the handler, after the user `u` was created. */
  method InsertPilotAndProfile(b: Backend, row: PilotRow, u: UserId, env: Environment) returns (thrown: Option<string>)
    requires b.Valid() && u < b.nextUserId
    modifies b
    ensures b.Valid() && b.nextUserId == old(b.nextUserId)
    ensures var s := PilotSteps(old(b.State()), row, u, old(b.nextPilotId), env);
      b.State() == s.tables && b.calls == old(b.calls) + s.calls && thrown == s.thrown
  {
    var pilotResult := b.InsertPilotCall(row, env.insertPilot);
    if pilotResult.Failure? || pilotResult.value.None? {
      // A failed rollback is only logged.
      var _ := b.DeleteUserCall(u, env.userRollback);
      return Some(PilotErrorMessage(if pilotResult.Failure? then pilotResult.message else ""));
    }
    var newPilotId := pilotResult.value.value;
    var profileResult := b.InsertProfileCall(u, Profile(PilotRole, newPilotId), env.insertProfile);
    if profileResult.Fails? {
      var _ := b.DeletePilotCall(newPilotId, env.pilotRollback);
      var _ := b.DeleteUserCall(u, env.userRollback);
      return Some(ProfileErrorMessage(profileResult.message));
    }
    return None;
  }

  /** Steps 2 to 5 and the catch block, for a request that passed validation. */
  method CreateAndLink(b: Backend, req: Request, env: Environment) returns (resp: Response)
    requires b.Valid() && ReachesAuth(req, env)
    modifies b
    ensures b.Valid()
    ensures var r := Provision(req, env, old(b.State()), old(b.nextUserId), old(b.nextPilotId));
      b.State() == r.tables && b.calls == old(b.calls) + r.calls && resp == r.response
  {
    var pilotData, userData := req.body.payload.pilotData.value, req.body.payload.userData.value;
    var password := Password(userData, env.uuid);
    var auth := b.CreateUserCall(userData.email.value, password, false, env.createUser);
    if auth.Failure? {
      return ErrorResponse(AuthErrorMessage(userData.email.value, auth.message));
    }
    if auth.value.None? {
      return ErrorResponse(UserWithoutId);
    }
    var newUserId := auth.value.value;
    var thrown := InsertPilotAndProfile(b, NewPilotRow(pilotData), newUserId, env);
    if thrown.None? {
      return Response(201, MessageBody(SuccessMessage(pilotData.name.value, userData.email.value, password,
                                                      !Given(userData.password))));
    }
    var message := thrown.value;
    if RetriesRollback(message) {
      var rollback := b.DeleteUserCall(newUserId, env.catchRollback);
      message := AfterCatch(message, rollback);
    }
    return ErrorResponse(message);
  }

  /** The handler of `Deno.serve`: it does what `Serve` describes, on the ids the services hand out next. */
  method Handle(b: Backend, req: Request, env: Environment) returns (resp: Response)
    requires b.Valid()
    modifies b
    ensures b.Valid()
    ensures var r := Serve(req, env, old(b.State()), old(b.nextUserId), old(b.nextPilotId));
      b.State() == r.tables && b.calls == old(b.calls) + r.calls && resp == r.response
  {
    if req.verb == "OPTIONS" {
      return Preflight;
    }
    if req.verb != "POST" {
      return ErrorResponse(MethodNotAllowed);
    }
    if req.body.Malformed? {
      return ErrorResponse(req.body.parseError);
    }
    if !ValidPayload(req.body.payload) {
      return ErrorResponse(IncompleteData);
    }
    if !env.configured {
      return ErrorResponse(MissingEnvironment);
    }
    resp := CreateAndLink(b, req, env);
  }

  // ---------------------------------------------------------------------------
  // What the handler promises

  /** A preflight is answered at once; any other request that fails the method,
      payload or configuration check makes no call and changes nothing. A wrong
      method and an incomplete payload are 400, a missing configuration is 500. */
  lemma NothingBeforeValidation(req: Request, env: Environment, before: Tables, u: UserId, p: PilotKey)
    requires req.verb == "OPTIONS" || !ReachesAuth(req, env)
    ensures var r := Serve(req, env, before, u, p);
      && r.tables == before && r.calls == []
      && (req.verb == "OPTIONS" ==> r.response == Preflight)
      && (req.verb != "OPTIONS" && req.verb != "POST" ==> r.response == Response(400, ErrorBody(MethodNotAllowed)))
      && (req.verb == "POST" && req.body.Parsed? && !ValidPayload(req.body.payload) ==>
            r.response == Response(400, ErrorBody(IncompleteData)))
      && (req.verb == "POST" && req.body.Parsed? && ValidPayload(req.body.payload) ==>
            r.response == Response(500, ErrorBody(MissingEnvironment)))
  {
    if req.verb == "OPTIONS" {
    } else if req.verb != "POST" {
      MethodNotAllowedIs400();
    } else if req.body.Parsed? && !ValidPayload(req.body.payload) {
      IncompleteDataIs400();
    } else if req.body.Parsed? {
      MissingEnvironmentIs500();
    }
  }

  /** Steps 3 and 4 start with the pilot insert; a profile is inserted only
      after the pilot, as the second call, and links the user to that pilot.
      What failed is undone in reverse order, after the insert it undoes: the
      pilot is deleted only after a failed profile insert and before the user,
      and the user's deletion, the last call, happens exactly when a step fails. */
  lemma PilotStepsCallOrder(t: Tables, row: PilotRow, u: UserId, p: PilotKey, env: Environment)
    ensures var s := PilotSteps(t, row, u, p, env);
      && |s.calls| >= 1 && s.calls[0] == InsertPilot(row)
      && (forall i | 0 <= i < |s.calls| && s.calls[i].InsertProfile? ::
            i == 1 && env.insertPilot.Inserted? && s.calls[i] == InsertProfile(u, Profile(PilotRole, p)))
      && (forall i | 0 <= i < |s.calls| && s.calls[i].DeletePilot? ::
            i == 2 && s.calls[i] == DeletePilot(p) && s.calls[1].InsertProfile? && env.insertProfile.Fails?)
      && (forall i | 0 <= i < |s.calls| && s.calls[i].DeleteUser? ::
            && i == |s.calls| - 1 && s.calls[i] == DeleteUser(u) && s.thrown.Some?
            && (env.insertPilot.Inserted? ==> i == 3 && s.calls[2] == DeletePilot(p)))
      && (s.thrown.Some? ==> DeleteUser(u) in s.calls && (DeletePilot(p) in s.calls <==> env.insertPilot.Inserted?))
  {
  }

  /** A valid request first creates the user, with the given or the generated
      password and its email unconfirmed; a profile is only inserted after the
      pilot row, and it links the new user to the new pilot as a `piloto`. */
  lemma CallOrder(req: Request, env: Environment, before: Tables, u: UserId, p: PilotKey)
    requires ReachesAuth(req, env)
    ensures var r, a := Serve(req, env, before, u, p), NewAccount(req, env);
      && |r.calls| >= 1
      && r.calls[0] == CreateUser(a.email, a.password, false)
      && (|r.calls| > 1 ==> env.createUser.Created? && r.calls[1] == InsertPilot(NewPilotRow(PilotDataOf(req))))
      && (forall i | 0 <= i < |r.calls| && r.calls[i].InsertProfile? ::
            i == 2 && env.insertPilot.Inserted? && r.calls[i] == InsertProfile(u, Profile(PilotRole, p)))
  {
    var r := Serve(req, env, before, u, p);
    if env.createUser.Created? {
      var row := NewPilotRow(PilotDataOf(req));
      var s := PilotSteps(before.(users := before.users[u := NewAccount(req, env)]), row, u, p, env);
      PilotStepsCallOrder(before.(users := before.users[u := NewAccount(req, env)]), row, u, p, env);
      var head := [r.calls[0]] + s.calls;
      assert r.calls == head || r.calls == head + [DeleteUser(u)];
      forall i | 0 <= i < |r.calls| && r.calls[i].InsertProfile?
        ensures i == 2 && env.insertPilot.Inserted? && r.calls[i] == InsertProfile(u, Profile(PilotRole, p))
      {
        assert r.calls[i] == head[i];
        assert 1 <= i < 1 + |s.calls| && head[i] == s.calls[i - 1];
      }
    }
  }

  /** Every response other than the preflight and the success carries the error
      message, with the status the message maps to: 400, 409 or 500. */
  lemma ErrorResponses(req: Request, env: Environment, before: Tables, u: UserId, p: PilotKey)
    requires req.verb != "OPTIONS"
    ensures var r := Serve(req, env, before, u, p);
      r.response.status != 201 ==>
        && r.response.body.ErrorBody?
        && r.response.status == Status(r.response.body.error)
        && r.response.status in {400, 409, 500}
  {
  }

  /** The request succeeds with 201 exactly when the user, the pilot and the
      profile are all created; the backend then holds the new user, the new
      pilot and the profile linking them, and nothing else changed. */
  lemma CreatedIffAllStepsSucceed(req: Request, env: Environment, before: Tables, u: UserId, p: PilotKey)
    ensures var r := Serve(req, env, before, u, p);
      r.response.status == 201 <==>
        && ReachesAuth(req, env)
        && env.createUser.Created? && env.insertPilot.Inserted? && env.insertProfile.Succeeds?
    ensures var r := Serve(req, env, before, u, p);
      r.response.status == 201 ==>
        r.tables == Tables(before.users[u := NewAccount(req, env)],
                           before.pilots[p := NewPilotRow(PilotDataOf(req))],
                           before.profiles[u := Profile(PilotRole, p)])
  {
    if req.verb != "OPTIONS" {
      ErrorResponses(req, env, before, u, p);
    }
  }

  /** On success the message announces a temporary password exactly when the
      caller gave none, and then shows it. The one name and email excluded are
      those whose confirmation already holds the announcement. */
  lemma SuccessShowsGeneratedPassword(req: Request, env: Environment, before: Tables, u: UserId, p: PilotKey)
    requires ReachesAuth(req, env)
    requires env.createUser.Created? && env.insertPilot.Inserted? && env.insertProfile.Succeeds?
    requires !Contains(Confirmation(PilotDataOf(req).name.value, UserDataOf(req).email.value), PasswordNote)
    ensures var m := Serve(req, env, before, u, p).response.body;
      && m.MessageBody?
      && (Contains(m.message, PasswordNote) <==> !Given(UserDataOf(req).password))
      && (!Given(UserDataOf(req).password) ==> Contains(m.message, Password(UserDataOf(req), env.uuid)))
  {
    var a := NewAccount(req, env);
    TemporaryPasswordShownIffGenerated(PilotDataOf(req).name.value, a.email, a.password, !Given(UserDataOf(req).password));
  }

  /** An email already in use is answered with 409 after the one auth call, and nothing changes. */
  lemma DuplicateEmailConflict(req: Request, env: Environment, before: Tables, u: UserId, p: PilotKey)
    requires ReachesAuth(req, env) && env.createUser.AuthError? && IsDuplicateEmail(env.createUser.message)
    ensures var a := NewAccount(req, env);
      Serve(req, env, before, u, p) ==
        Run(before, [CreateUser(a.email, a.password, false)], Response(409, ErrorBody(DuplicateEmailMessage(a.email))))
  {
    DuplicateEmailIs409(NewAccount(req, env).email, env.createUser.message);
    DuplicateEmailMessageInUse(NewAccount(req, env).email);
  }

  /** When steps 3 or 4 fail, the pilot row survives only when its deletion
      failed, and the user only when its inline deletion failed. */
  lemma PilotStepsOnFailure(t: Tables, row: PilotRow, u: UserId, p: PilotKey, env: Environment)
    requires p !in t.pilots
    ensures var s := PilotSteps(t, row, u, p, env);
      s.thrown.Some? ==>
        && (s.tables.users == t.users - {u} || (env.userRollback.Fails? && s.tables.users == t.users))
        && (s.tables.pilots == t.pilots || (env.pilotRollback.Fails? && s.tables.pilots == t.pilots[p := row]))
  {
    if env.insertPilot.Inserted? && env.insertProfile.Fails? && env.pilotRollback.Succeeds? {
      assert t.pilots[p := row] - {p} == t.pilots;
    }
  }

  /** A failed request never leaves a profile behind; the new user survives only
      when the inline deletion failed, the new pilot only when its deletion
      failed. So with rollbacks that succeed, a failed request changes nothing. */
  lemma FailureLeavesOnlyFailedRollbacks(req: Request, env: Environment, before: Tables, u: UserId, p: PilotKey)
    requires u !in before.users && u !in before.profiles && p !in before.pilots
    ensures var r := Serve(req, env, before, u, p);
      r.response.status != 201 ==>
        && r.tables.profiles == before.profiles
        && (r.tables.users == before.users
            || (ReachesAuth(req, env) && env.userRollback.Fails?
                && (env.catchRollback.Fails? || !RetriesRollback(r.response.body.error))
                && r.tables.users == before.users[u := NewAccount(req, env)]))
        && (r.tables.pilots == before.pilots
            || (ReachesAuth(req, env) && env.pilotRollback.Fails?
                && r.tables.pilots == before.pilots[p := NewPilotRow(PilotDataOf(req))]))
    ensures var r := Serve(req, env, before, u, p);
      r.response.status != 201 && env.pilotRollback.Succeeds? && env.userRollback.Succeeds? ==> r.tables == before
    ensures var r := Serve(req, env, before, u, p);
      (&& r.response.status != 201 && r.response.body.ErrorBody?
       && env.pilotRollback.Succeeds? && env.catchRollback.Succeeds?
       && RetriesRollback(r.response.body.error)) ==> r.tables == before
  {
    if ReachesAuth(req, env) && env.createUser.Created? {
      var a := NewAccount(req, env);
      var withUser := before.(users := before.users[u := a]);
      PilotStepsOnFailure(withUser, NewPilotRow(PilotDataOf(req)), u, p, env);
      assert before.users[u := a] - {u} == before.users;
      assert before.users - {u} == before.users;
    }
  }
}
