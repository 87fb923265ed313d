/** The older edition of the provisioning function, kept in the repository
    under `delete-pilot-full`: the same three steps, but with a truthiness
    check of the payload, inline rollbacks whose failure replaces the error,
    a confirmed email, and only 409 or 500 as error statuses.

    The long messages are concatenations of short literals, and the lemmas
    that show a character absent from one go piece by piece: the solver
    settles a short literal quickly but not several long ones in one proof. */
module DeletePilotFull {
  import opened Wrappers
  import opened Strings
  import opened Provisioning
  import Latest = CreatePilotWithUser

  const MethodNotAllowed := "Método não permitido."
  const IncompleteData := "Dados incompletos" + ". Forneça pelo menos "
                          + "nome, email, mensalidade e " + "data de fechamento."
  const MissingEnvironment := "Variáveis de ambiente ausentes."
  const DuplicateKey := "duplicate key value" + " violates unique constraint"
  /** The text the catch block tests before its rollback; no message of this function holds it. */
  const CreateUserError := "Erro ao criar usuário Auth"

  /** `!pilotData || !userData || !pilotData.name || !userData.email ||
      !pilotData.baseFee || !pilotData.closingDate`, negated: a payload that
      passes yields a pilot row with a name and a truthy fee and day, and an
      account with an email. */
  predicate ValidPayload(p: Payload): (ok: bool)
    ensures ok ==>
      && p.pilotData.Some? && Given(p.pilotData.value.name) && p.userData.Some? && Given(p.userData.value.email)
      && var row := NewPilotRow(p.pilotData.value);
         row.name != "" && Truthy(row.baseFee) && Truthy(row.closingDate)
  {
    && p.pilotData.Some?
    && p.userData.Some?
    && Given(p.pilotData.value.name)
    && Given(p.userData.value.email)
    && Truthy(p.pilotData.value.baseFee)
    && Truthy(p.pilotData.value.closingDate)
  }

  predicate IsDuplicateEmail(authMessage: string) {
    Contains(authMessage, DuplicateKey)
  }

  /** The error thrown for a failed user creation: a duplicate key is
      reported as an email in use; any other error is a login error that
      carries the service's message. */
  function AuthErrorMessage(email: string, authMessage: string): (m: string)
    ensures IsDuplicateEmail(authMessage) ==> m == DuplicateEmailMessage(email) && Contains(m, InUse)
    ensures !IsDuplicateEmail(authMessage) ==> IsPrefix(Latest.LoginError, m) && Contains(m, authMessage)
  {
    if IsDuplicateEmail(authMessage) then
      DuplicateEmailMessageInUse(email);
      DuplicateEmailMessage(email)
    else
      var m := "Erro ao criar conta de login: " + authMessage;
      assert m[..|Latest.LoginError|] == Latest.LoginError;
      assert m == "Erro ao criar conta de login: " + authMessage + "";
      ContainsInfix("Erro ao criar conta de login: ", authMessage, "");
      m
  }

  /** `status: 409 if 'já está em uso', else 500`: a conflict exactly for a
      message about an email in use, a server error for every other. */
  function Status(message: string): (status: int)
    ensures status in {409, 500}
    ensures status == 409 <==> Contains(message, InUse)
  {
    if Contains(message, InUse) then 409 else 500
  }

  function ErrorResponse(message: string): Response {
    Response(Status(message), ErrorBody(message))
  }

  /** The catch block deletes the user again unless the message names the
      user's creation, so never after a message that starts with it. */
  predicate RetriesRollback(message: string): (ok: bool)
    ensures IsPrefix(CreateUserError, message) ==> !ok
  {
    if IsPrefix(CreateUserError, message) then
      assert message == CreateUserError + message[|CreateUserError|..];
      ContainsPrefix(CreateUserError, message[|CreateUserError|..]);
      false
    else !Contains(message, CreateUserError)
  }

  /** The row inserted for a payload: every field as it came, so it is the
      current edition's row whenever the category and the observations are
      filled in, and differs from it at most in those two fields otherwise. */
  function NewPilotRow(p: PilotData): (row: PilotRow)
    requires Given(p.name)
    ensures var latest := Latest.NewPilotRow(p);
      && row.name == latest.name && row.baseFee == latest.baseFee && row.closingDate == latest.closingDate
      && (Truthy(p.category) && Truthy(p.observations) ==> row == latest)
    ensures row.category == p.category && row.observations == p.observations
  {
    PilotRow(p.name.value, p.category, p.baseFee, p.closingDate, p.observations)
  }

  predicate ReachesAuth(req: Request, env: Environment) {
    req.verb == "POST" && req.body.Parsed? && ValidPayload(req.body.payload) && env.configured
  }

  function PilotDataOf(req: Request): PilotData
    requires req.body.Parsed? && ValidPayload(req.body.payload)
  {
    req.body.payload.pilotData.value
  }

  function UserDataOf(req: Request): UserData
    requires req.body.Parsed? && ValidPayload(req.body.payload)
  {
    req.body.payload.userData.value
  }

  /** The user this edition creates: the request's email, counted as
      confirmed, with the given password or else one drawn from the UUID. */
  function NewAccount(req: Request, env: Environment): (a: Account)
    requires req.body.Parsed? && ValidPayload(req.body.payload)
    ensures a.email == UserDataOf(req).email.value && a.email != "" && a.emailConfirmed
    ensures Given(UserDataOf(req).password) ==> a.password == UserDataOf(req).password.value
    ensures !Given(UserDataOf(req).password) ==> IsPrefix(a.password, env.uuid) && |a.password| <= 12
  {
    Account(UserDataOf(req).email.value, Password(UserDataOf(req), env.uuid), true)
  }

  /** The message a request is refused with before any call is made: every
      refusal of a parsed body or a wrong method is a 500 here, and an
      unparsable body answers with the parser's message. */
  function Rejection(req: Request, env: Environment): (m: string)
    requires !ReachesAuth(req, env)
    ensures req.verb != "POST" || req.body.Parsed? ==> Status(m) == 500
    ensures req.verb == "POST" && req.body.Malformed? ==> m == req.body.parseError
  {
    MethodNotAllowedIs500();
    IncompleteDataIs500();
    MissingEnvironmentIs500();
    if req.verb != "POST" then MethodNotAllowed
    else if req.body.Malformed? then req.body.parseError
    else if !ValidPayload(req.body.payload) then IncompleteData
    else MissingEnvironment
  }

  /** A request that is not POST is a 500 here. */
  lemma MethodNotAllowedIs500()
    ensures Status(MethodNotAllowed) == 500
  {
    assert InUse[1] == 'á';
    NotContainsWithoutChar(MethodNotAllowed, InUse, 'á');
  }

  /** The incomplete-data message has no 'á'. */
  lemma IncompleteDataLacksAcute()
    ensures 'á' !in IncompleteData
  {
    assert 'á' !in ". Forneça pelo menos ";
    assert 'á' !in "nome, email, mensalidade e ";
    assert 'á' !in "data de fechamento.";
    AbsentFromPieces("Dados incompletos", ". Forneça pelo menos ", "nome, email, mensalidade e ", "data de fechamento.", 'á');
  }

  /** A payload that fails validation is a 500 here. */
  lemma IncompleteDataIs500()
    ensures Status(IncompleteData) == 500
  {
    IncompleteDataLacksAcute();
    assert InUse[1] == 'á';
    NotContainsWithoutChar(IncompleteData, InUse, 'á');
  }

  /** Missing service-role variables are a 500. */
  lemma MissingEnvironmentIs500()
    ensures Status(MissingEnvironment) == 500
  {
    assert InUse[0] == 'j';
    NotContainsWithoutChar(MissingEnvironment, InUse, 'j');
  }

  /** The catch block, for an error thrown after the user `u` was created: it
      deletes the user once more unless the message names the user's creation,
      keeps the error at the head of the message, and touches neither the
      pilots nor the profiles. */
  function CatchBlock(t: Tables, calls: seq<Call>, u: UserId, thrown: string, rollback: StepOutcome): (r: Run)
    ensures r.calls == calls + (if RetriesRollback(thrown) then [DeleteUser(u)] else [])
    ensures r.tables.pilots == t.pilots && r.tables.profiles == t.profiles
    ensures r.tables.users == t.users || r.tables.users == t.users - {u}
    ensures r.response.status != 201 && r.response.body.ErrorBody?
    ensures IsPrefix(thrown, r.response.body.error)
    ensures RetriesRollback(thrown) && rollback.Fails? ==> Contains(r.response.body.error, rollback.message)
    ensures !(RetriesRollback(thrown) && rollback.Fails?) ==> r.response.body.error == thrown
    ensures r.tables.users == if RetriesRollback(thrown) && rollback.Succeeds? then t.users - {u} else t.users
  {
    var message :=
      if RetriesRollback(thrown) && rollback.Fails? then
        var m := thrown + " (Falha no rollback do usuário: " + rollback.message + ")";
        assert m == (thrown + " (Falha no rollback do usuário: ") + rollback.message + ")";
        ContainsInfix(thrown + " (Falha no rollback do usuário: ", rollback.message, ")");
        m
      else thrown;
    assert message[..|thrown|] == thrown;
    if RetriesRollback(thrown)
    then Run(DeleteUserIn(t, u, rollback), calls + [DeleteUser(u)], ErrorResponse(message))
    else Run(t, calls, ErrorResponse(message))
  }

  /** The pilot and profile inserts with their inline rollbacks. A rollback
      that fails throws, so its error replaces the step's, and after a failed
      pilot deletion the user is not deleted inline. */
  function PilotSteps(t: Tables, row: PilotRow, u: UserId, p: PilotKey, env: Environment): (s: Step)
    ensures s.thrown.None? <==> env.insertPilot.Inserted? && env.insertProfile.Succeeds?
    ensures s.thrown.None? ==> s.tables == t.(pilots := t.pilots[p := row], profiles := t.profiles[u := Profile(PilotRole, p)])
    ensures s.thrown.Some? ==> s.tables.profiles == t.profiles
    ensures !env.insertPilot.Inserted? ==>
      s.thrown == Some(if env.userRollback.Fails? then env.userRollback.message
                       else PilotErrorMessage(if env.insertPilot.InsertError? then env.insertPilot.message else ""))
    ensures env.insertPilot.Inserted? && env.insertProfile.Fails? && env.pilotRollback.Fails? ==>
      s.thrown == Some(env.pilotRollback.message)
    ensures env.insertPilot.Inserted? && env.insertProfile.Fails? && env.pilotRollback.Succeeds? ==>
      s.thrown == Some(if env.userRollback.Fails? then env.userRollback.message
                       else ProfileErrorMessage(env.insertProfile.message))
  {
    match env.insertPilot
    case Inserted =>
      var withPilot := t.(pilots := t.pilots[p := row]);
      var profile := Profile(PilotRole, p);
      var calls := [InsertPilot(row), InsertProfile(u, profile)];
      if env.insertProfile.Succeeds? then
        Step(withPilot.(profiles := withPilot.profiles[u := profile]), calls, None)
      else if env.pilotRollback.Fails? then
        Step(withPilot, calls + [DeletePilot(p)], Some(env.pilotRollback.message))
      else
        Step(DeleteUserIn(withPilot.(pilots := withPilot.pilots - {p}), u, env.userRollback),
             calls + [DeletePilot(p), DeleteUser(u)],
             Some(if env.userRollback.Fails? then env.userRollback.message
                  else ProfileErrorMessage(env.insertProfile.message)))
    case _ =>
      var detail := match env.insertPilot case InsertError(m) => m case _ => "";
      Step(DeleteUserIn(t, u, env.userRollback), [InsertPilot(row), DeleteUser(u)],
           Some(if env.userRollback.Fails? then env.userRollback.message else PilotErrorMessage(detail)))
  }

  /** What a request that passed validation does, from the user creation on:
      it first asks for a user with a confirmed email, and answers 201 exactly
      when the user is created with an id and both inserts succeed, with the
      user, the pilot and the profile linking them added; a failed user
      creation leaves the tables as they were, and every other answer carries
      an error. */
  function Provision(req: Request, env: Environment, before: Tables, u: UserId, p: PilotKey): (r: Run)
    requires ReachesAuth(req, env)
    ensures |r.calls| >= 1 && r.calls[0] == CreateUser(NewAccount(req, env).email, NewAccount(req, env).password, true)
    ensures r.response.status == 201 <==>
      env.createUser.Created? && env.insertPilot.Inserted? && env.insertProfile.Succeeds?
    ensures r.response.status == 201 ==>
      r.tables == before.(users := before.users[u := NewAccount(req, env)],
                          pilots := before.pilots[p := NewPilotRow(PilotDataOf(req))],
                          profiles := before.profiles[u := Profile(PilotRole, p)])
    ensures r.response.status != 201 ==> r.response.body.ErrorBody?
    ensures !env.createUser.Created? ==> r.tables == before && |r.calls| == 1
  {
    var a := NewAccount(req, env);
    var create := CreateUser(a.email, a.password, true);
    match env.createUser
    case AuthError(m) => Run(before, [create], ErrorResponse(AuthErrorMessage(a.email, m)))
    case CreatedWithoutId => Run(before, [create], ErrorResponse(UserWithoutId))
    case Created =>
      var s := PilotSteps(before.(users := before.users[u := a]), NewPilotRow(PilotDataOf(req)), u, p, env);
      if s.thrown.None? then
        Run(s.tables, [create] + s.calls,
            Response(201, MessageBody(SuccessMessage(PilotDataOf(req).name.value, a.email, a.password,
                                                     !Given(UserDataOf(req).password)))))
      else CatchBlock(s.tables, [create] + s.calls, u, s.thrown.value, env.catchRollback)
  }

  /** What serving `req` does to the tables `before`, when the services hand
      out the user id `u` and the pilot id `p`. */
  function Serve(req: Request, env: Environment, before: Tables, u: UserId, p: PilotKey): (r: Run)
    ensures r.calls == [] <==> req.verb == "OPTIONS" || !ReachesAuth(req, env)
    ensures r.calls == [] ==> r.tables == before
  {
    if req.verb == "OPTIONS" then Run(before, [], Preflight)
    else if !ReachesAuth(req, env) then Run(before, [], ErrorResponse(Rejection(req, env)))
    else Provision(req, env, before, u, p)
  }

  /** Steps 3 and 4, after the user `u` was created. */
  method InsertPilotAndProfile(b: Backend, row: PilotRow, u: UserId, env: Environment) returns (thrown: Option<string>)
    requires b.Valid() && u < b.nextUserId
    modifies b
    ensures b.Valid() && b.nextUserId == old(b.nextUserId)
    ensures var s := PilotSteps(old(b.State()), row, u, old(b.nextPilotId), env);
      b.State() == s.tables && b.calls == old(b.calls) + s.calls && thrown == s.thrown
  {
    var pilotResult := b.InsertPilotCall(row, env.insertPilot);
    if pilotResult.Failure? || pilotResult.value.None? {
      var rollback := b.DeleteUserCall(u, env.userRollback);
      if rollback.Fails? {
        return Some(rollback.message);
      }
      return Some(PilotErrorMessage(if pilotResult.Failure? then pilotResult.message else ""));
    }
    var newPilotId := pilotResult.value.value;
    var profileResult := b.InsertProfileCall(u, Profile(PilotRole, newPilotId), env.insertProfile);
    if profileResult.Fails? {
      var pilotRollback := b.DeletePilotCall(newPilotId, env.pilotRollback);
      if pilotRollback.Fails? {
        return Some(pilotRollback.message);
      }
      var userRollback := b.DeleteUserCall(u, env.userRollback);
      if userRollback.Fails? {
        return Some(userRollback.message);
      }
      return Some(ProfileErrorMessage(profileResult.message));
    }
    return None;
  }

  /** Steps 2 to 5 and the catch block, for a request that passed validation. */
  method CreateAndLink(b: Backend, req: Request, env: Environment) returns (resp: Response)
    requires b.Valid() && ReachesAuth(req, env)
    modifies b
    ensures b.Valid()
    ensures var r := Provision(req, env, old(b.State()), old(b.nextUserId), old(b.nextPilotId));
      b.State() == r.tables && b.calls == old(b.calls) + r.calls && resp == r.response
  {
    var pilotData, userData := req.body.payload.pilotData.value, req.body.payload.userData.value;
    var password := Password(userData, env.uuid);
    var auth := b.CreateUserCall(userData.email.value, password, true, env.createUser);
    if auth.Failure? {
      return ErrorResponse(AuthErrorMessage(userData.email.value, auth.message));
    }
    if auth.value.None? {
      return ErrorResponse(UserWithoutId);
    }
    var newUserId := auth.value.value;
    var thrown := InsertPilotAndProfile(b, NewPilotRow(pilotData), newUserId, env);
    if thrown.None? {
      return Response(201, MessageBody(SuccessMessage(pilotData.name.value, userData.email.value, password,
                                                      !Given(userData.password))));
    }
    var message := thrown.value;
    if RetriesRollback(message) {
      var rollback := b.DeleteUserCall(newUserId, env.catchRollback);
      if rollback.Fails? {
        message := message + " (Falha no rollback do usuário: " + rollback.message + ")";
      }
    }
    return ErrorResponse(message);
  }

  /** The handler of `Deno.serve`: it does what `Serve` describes. */
  method Handle(b: Backend, req: Request, env: Environment) returns (resp: Response)
    requires b.Valid()
    modifies b
    ensures b.Valid()
    ensures var r := Serve(req, env, old(b.State()), old(b.nextUserId), old(b.nextPilotId));
      b.State() == r.tables && b.calls == old(b.calls) + r.calls && resp == r.response
  {
    if req.verb == "OPTIONS" {
      return Preflight;
    }
    if req.verb != "POST" {
      return ErrorResponse(MethodNotAllowed);
    }
    if req.body.Malformed? {
      return ErrorResponse(req.body.parseError);
    }
    if !ValidPayload(req.body.payload) {
      return ErrorResponse(IncompleteData);
    }
    if !env.configured {
      return ErrorResponse(MissingEnvironment);
    }
    resp := CreateAndLink(b, req, env);
  }

  // ---------------------------------------------------------------------------
  // What this edition promises

  /** A preflight is answered at once; any other request that fails the
      method, payload or configuration check makes no call, changes nothing,
      and is answered with 500. */
  lemma NothingBeforeValidation(req: Request, env: Environment, before: Tables, u: UserId, p: PilotKey)
    requires req.verb == "OPTIONS" || !ReachesAuth(req, env)
    ensures var r := Serve(req, env, before, u, p);
      && r.tables == before && r.calls == []
      && (req.verb == "OPTIONS" ==> r.response == Preflight)
      && (req.verb != "OPTIONS" && req.verb != "POST" ==> r.response == Response(500, ErrorBody(MethodNotAllowed)))
      && (req.verb == "POST" && req.body.Parsed? && !ValidPayload(req.body.payload) ==>
            r.response == Response(500, ErrorBody(IncompleteData)))
      && (req.verb == "POST" && req.body.Parsed? && ValidPayload(req.body.payload) ==>
            r.response == Response(500, ErrorBody(MissingEnvironment)))
  {
    if req.verb == "OPTIONS" {
    } else if req.verb != "POST" {
      MethodNotAllowedIs500();
    } else if req.body.Parsed? && !ValidPayload(req.body.payload) {
      IncompleteDataIs500();
    } else if req.body.Parsed? {
      MissingEnvironmentIs500();
    }
  }

  /** Steps 3 and 4 start with the pilot insert; a profile is inserted only
      after the pilot, as the second call, and links the user to that pilot.
      What failed is undone in reverse order, after the insert it undoes: the
      pilot is deleted only after a failed profile insert, and the user, the
      last call, only after a failed pilot insert or a successful pilot deletion. */
  lemma PilotStepsCallOrder(t: Tables, row: PilotRow, u: UserId, p: PilotKey, env: Environment)
    ensures var s := PilotSteps(t, row, u, p, env);
      && |s.calls| >= 1 && s.calls[0] == InsertPilot(row)
      && (forall i | 0 <= i < |s.calls| && s.calls[i].InsertProfile? ::
            i == 1 && env.insertPilot.Inserted? && s.calls[i] == InsertProfile(u, Profile(PilotRole, p)))
      && (forall i | 0 <= i < |s.calls| && s.calls[i].DeletePilot? ::
            i == 2 && s.calls[i] == DeletePilot(p) && s.calls[1].InsertProfile? && env.insertProfile.Fails?)
      && (forall i | 0 <= i < |s.calls| && s.calls[i].DeleteUser? ::
            && i == |s.calls| - 1 && s.calls[i] == DeleteUser(u) && s.thrown.Some?
            && (env.insertPilot.Inserted? ==> i == 3 && s.calls[2] == DeletePilot(p) && env.pilotRollback.Succeeds?))
      && (s.thrown.Some? ==>
            && (DeletePilot(p) in s.calls <==> env.insertPilot.Inserted?)
            && (DeleteUser(u) in s.calls <==> !env.insertPilot.Inserted? || env.pilotRollback.Succeeds?))
  {
  }

  /** A valid request first creates the user, with its email confirmed; a
      profile is only inserted after the pilot row and links the two. */
  lemma CallOrder(req: Request, env: Environment, before: Tables, u: UserId, p: PilotKey)
    requires ReachesAuth(req, env)
    ensures var r, a := Serve(req, env, before, u, p), NewAccount(req, env);
      && |r.calls| >= 1
      && r.calls[0] == CreateUser(a.email, a.password, true)
      && (|r.calls| > 1 ==> env.createUser.Created? && r.calls[1] == InsertPilot(NewPilotRow(PilotDataOf(req))))
      && (forall i | 0 <= i < |r.calls| && r.calls[i].InsertProfile? ::
            i == 2 && env.insertPilot.Inserted? && r.calls[i] == InsertProfile(u, Profile(PilotRole, p)))
  {
    var r := Serve(req, env, before, u, p);
    if env.createUser.Created? {
      var row := NewPilotRow(PilotDataOf(req));
      var s := PilotSteps(before.(users := before.users[u := NewAccount(req, env)]), row, u, p, env);
      PilotStepsCallOrder(before.(users := before.users[u := NewAccount(req, env)]), row, u, p, env);
      var head := [r.calls[0]] + s.calls;
      assert r.calls == head || r.calls == head + [DeleteUser(u)];
      forall i | 0 <= i < |r.calls| && r.calls[i].InsertProfile?
        ensures i == 2 && env.insertPilot.Inserted? && r.calls[i] == InsertProfile(u, Profile(PilotRole, p))
      {
        assert r.calls[i] == head[i];
        assert 1 <= i < 1 + |s.calls| && head[i] == s.calls[i - 1];
      }
    }
  }

  /** Every response other than the preflight and the success carries the
      error message, with status 409 when it reports an email in use and 500 otherwise. */
  lemma ErrorResponses(req: Request, env: Environment, before: Tables, u: UserId, p: PilotKey)
    requires req.verb != "OPTIONS"
    ensures var r := Serve(req, env, before, u, p);
      r.response.status != 201 ==>
        && r.response.body.ErrorBody?
        && (r.response.status == 409 <==> Contains(r.response.body.error, InUse))
        && r.response.status in {409, 500}
  {
  }

  /** The request succeeds with 201 exactly when the user, the pilot and the
      profile are all created, and the backend then holds exactly those. */
  lemma CreatedIffAllStepsSucceed(req: Request, env: Environment, before: Tables, u: UserId, p: PilotKey)
    ensures var r := Serve(req, env, before, u, p);
      r.response.status == 201 <==>
        && ReachesAuth(req, env)
        && env.createUser.Created? && env.insertPilot.Inserted? && env.insertProfile.Succeeds?
    ensures var r := Serve(req, env, before, u, p);
      r.response.status == 201 ==>
        r.tables == Tables(before.users[u := NewAccount(req, env)],
                           before.pilots[p := NewPilotRow(PilotDataOf(req))],
                           before.profiles[u := Profile(PilotRole, p)])
  {
    if req.verb != "OPTIONS" {
      ErrorResponses(req, env, before, u, p);
    }
  }

  /** An email reported as a duplicate key is answered with 409 after the one auth call, and nothing changes. */
  lemma DuplicateEmailConflict(req: Request, env: Environment, before: Tables, u: UserId, p: PilotKey)
    requires ReachesAuth(req, env) && env.createUser.AuthError? && IsDuplicateEmail(env.createUser.message)
    ensures var a := NewAccount(req, env);
      Serve(req, env, before, u, p) ==
        Run(before, [CreateUser(a.email, a.password, true)], Response(409, ErrorBody(DuplicateEmailMessage(a.email))))
  {
    DuplicateEmailMessageInUse(NewAccount(req, env).email);
  }

  /** On success the message announces a temporary password exactly when the
      caller gave none, and then shows it. The one name and email excluded are
      those whose confirmation already holds the announcement. */
  lemma SuccessShowsGeneratedPassword(req: Request, env: Environment, before: Tables, u: UserId, p: PilotKey)
    requires ReachesAuth(req, env)
    requires env.createUser.Created? && env.insertPilot.Inserted? && env.insertProfile.Succeeds?
    requires !Contains(Confirmation(PilotDataOf(req).name.value, UserDataOf(req).email.value), PasswordNote)
    ensures var m := Serve(req, env, before, u, p).response.body;
      && m.MessageBody?
      && (Contains(m.message, PasswordNote) <==> !Given(UserDataOf(req).password))
      && (!Given(UserDataOf(req).password) ==> Contains(m.message, Password(UserDataOf(req), env.uuid)))
  {
    var a := NewAccount(req, env);
    TemporaryPasswordShownIffGenerated(PilotDataOf(req).name.value, a.email, a.password, !Given(UserDataOf(req).password));
  }

  /** When steps 3 or 4 fail, the pilot row survives only when its deletion
      failed, and the user only when an inline rollback failed. */
  lemma PilotStepsOnFailure(t: Tables, row: PilotRow, u: UserId, p: PilotKey, env: Environment)
    requires p !in t.pilots
    ensures var s := PilotSteps(t, row, u, p, env);
      s.thrown.Some? ==>
        && (s.tables.users == t.users - {u}
            || ((env.userRollback.Fails? || env.pilotRollback.Fails?) && s.tables.users == t.users))
        && (s.tables.pilots == t.pilots || (env.pilotRollback.Fails? && s.tables.pilots == t.pilots[p := row]))
  {
    if env.insertPilot.Inserted? && env.insertProfile.Fails? && env.pilotRollback.Succeeds? {
      assert t.pilots[p := row] - {p} == t.pilots;
    }
  }

  /** A failed request never leaves a profile behind; the new pilot survives
      only when its deletion failed, and the new user only when an inline
      rollback failed. With rollbacks that succeed, nothing changes. */
  lemma FailureLeavesOnlyFailedRollbacks(req: Request, env: Environment, before: Tables, u: UserId, p: PilotKey)
    requires u !in before.users && u !in before.profiles && p !in before.pilots
    ensures var r := Serve(req, env, before, u, p);
      r.response.status != 201 ==>
        && r.tables.profiles == before.profiles
        && (r.tables.users == before.users
            || (ReachesAuth(req, env) && (env.userRollback.Fails? || env.pilotRollback.Fails?)
                && (env.catchRollback.Fails? || !RetriesRollback(r.response.body.error))
                && r.tables.users == before.users[u := NewAccount(req, env)]))
        && (r.tables.pilots == before.pilots
            || (ReachesAuth(req, env) && env.pilotRollback.Fails?
                && r.tables.pilots == before.pilots[p := NewPilotRow(PilotDataOf(req))]))
    ensures var r := Serve(req, env, before, u, p);
      r.response.status != 201 && env.pilotRollback.Succeeds? && env.userRollback.Succeeds? ==> r.tables == before
    ensures var r := Serve(req, env, before, u, p);
      (&& r.response.status != 201 && r.response.body.ErrorBody?
       && env.pilotRollback.Succeeds? && env.catchRollback.Succeeds?
       && RetriesRollback(r.response.body.error)) ==> r.tables == before
  {
    if ReachesAuth(req, env) && env.createUser.Created? {
      var a := NewAccount(req, env);
      var withUser := before.(users := before.users[u := a]);
      PilotStepsOnFailure(withUser, NewPilotRow(PilotDataOf(req)), u, p, env);
      assert before.users[u := a] - {u} == before.users;
      assert before.users - {u} == before.users;
    }
  }

  // ---------------------------------------------------------------------------
  // How the newer edition differs

  /** For numeric fee and closing day, this edition accepts a payload exactly
      when the newer one does and both numbers are non-zero: a fee or day of 0
      passes the newer `typeof` check but fails this truthiness check. */
  lemma ValidationAgainstLatest(pl: Payload)
    requires pl.pilotData.Some? && pl.pilotData.value.baseFee.Num? && pl.pilotData.value.closingDate.Num?
    ensures ValidPayload(pl) <==>
      && Latest.ValidPayload(pl)
      && pl.pilotData.value.baseFee.n != 0.0
      && pl.pilotData.value.closingDate.n != 0.0
  {
  }

  /** Every auth error this edition maps to "email in use" is mapped so by the newer one too. */
  lemma DuplicateDetectionWidened(authMessage: string)
    requires IsDuplicateEmail(authMessage)
    ensures Latest.IsDuplicateEmail(authMessage)
  {
    ContainsPrefix("duplicate key value", " violates unique constraint");
    ContainsTransitive(authMessage, DuplicateKey, "duplicate key value");
  }

  /** The message the auth service gives for an email that is taken. */
  const AlreadyRegistered := "User " + "already registered"

  /** This edition does not recognise that message as a duplicate. */
  lemma AlreadyRegisteredIsNoDuplicateKey()
    ensures !IsDuplicateEmail(AlreadyRegistered)
  {
    assert |AlreadyRegistered| == 23 && |DuplicateKey| == 46;
  }

  /** The auth message `User already registered` is a 500 here and a 409 in the newer edition. */
  lemma AlreadyRegisteredNotDetected(email: string)
    ensures Status(AuthErrorMessage(email, AlreadyRegistered)) == 500
    ensures Latest.Status(Latest.AuthErrorMessage(email, AlreadyRegistered)) == 409
  {
    AlreadyRegisteredIsNoDuplicateKey();
    ContainsInfix("User ", "already registered", "");
    assert "User " + "already registered" + "" == AlreadyRegistered;
    Latest.DuplicateEmailIs409(email, AlreadyRegistered);
    assert InUse[0] == 'j';
    assert 'j' !in "Erro ao criar conta de login: " && 'j' !in AlreadyRegistered;
    NotContainsWithoutChar("Erro ao criar conta de login: " + AlreadyRegistered, InUse, 'j');
  }
}
