/** auth/meli/auth.py: `AuthClient._connection`, the credential lifecycle. One run sets
    up the cipher, reads the latest stored credential and its freshness, and then, in a
    `finally` block that always returns or raises, reuses the stored access token,
    refreshes it, or runs the authorization-code exchange and stores the new pair.

    The imperative method `AuthClient.Connection` is proved equal to the pure
    `ConnectionSpec` over a snapshot of everything a run reads or changes; the lemmas
    state the lifecycle's promises about `ConnectionSpec`. */
module MeliAuth {
  import opened Common
  import opened TimeUtil
  import opened Config
  import opened ConnectionModel
  import opened Security
  import opened DataBase
  import opened HttpRequest
  import opened AuthStatus

  /** Which store calls of one run fail: the two queries of `credential`, the query of
      `supervise`, and the save of the new credential. */
  datatype StoreFaults = StoreFaults(getAll: bool, credentialLast: bool, superviseLast: bool, save: bool)

  /** What a run takes from outside the program: the key `Fernet.generate_key()` would
      produce, the clock as `supervise` reads it, the token endpoint's reply, and the
      store failures. */
  datatype RunInputs = RunInputs(generatedKey: string, now: int, reply: Reply, faults: StoreFaults)

  /** Everything a run reads or changes: the process environment and `.env`, the
      encryptor's attributes, the `connection` table, and the class-level payloads of
      the two request classes. */
  datatype World = World(
    env: map<string, string>, dotEnv: string,
    key: Slot<string>, fernet: Slot<string>,
    rows: seq<Row>, nextId: int, dateDefault: int,
    connectionData: map<string, string>, refreshData: map<string, string>)

  /** A run's result (the plaintext access token or the exception that escapes), the
      POSTs it made, and the world it leaves. */
  datatype RunOutcome = RunOutcome(result: Result<string>, posts: seq<Post>, world: World)

  /** The world after `_setup_token`. */
  function SetupWorld(w: World, generated: string): World
  {
    var found := GetVar(w.env, "SECRET_KEY");
    var key := if found.Ok? then Bound(found.value) else w.key;
    var built := BuildFernet(key);
    w.(key := key,
       dotEnv := w.dotEnv + (if found.Ok? then "" else SecretKeyEntry(generated)),
       fernet := if built.Ok? then Bound(built.value) else w.fernet)
  }

  /** The cipher key `_setup_token` settles on, or the exception it raises. */
  function CipherKey(w: World, generated: string): Result<string>
  {
    BuildFernet(SetupWorld(w, generated).key)
  }

  /** `auth.py:_connection` as a function of the world and the run's inputs. */
  function ConnectionSpec(w: World, i: RunInputs): RunOutcome
  {
    var w1 := SetupWorld(w, i.generatedKey);
    if CipherKey(w, i.generatedKey).Err? then
      // the try block stops before `connection` is bound; the finally block reads it
      RunOutcome(Err(NotHandledError), [], w1)
    else
      var cred := Credential(w1.rows, i.faults.getAll, i.faults.credentialLast);
      if cred.Err? then RunOutcome(Err(NotHandledError), [], w1)
      else
        var sup := Supervise(w1.rows, i.now, i.faults.superviseLast);
        FinallySpec(w1, cred.value, if sup.Ok? then Bound(sup.value) else Unbound, i)
  }

  /** The `finally` block, once `connection` is bound; `supervise` may not be. */
  function FinallySpec(w: World, connection: Option<CredentialDict>, supervise: Slot<Option<bool>>, i: RunInputs): RunOutcome
    requires w.fernet.Bound?
  {
    if connection.Some? then
      if supervise.Unbound? then RunOutcome(Err(NotHandledError), [], w)
      else if supervise.value == Some(true) then
        var plain := Open(w.fernet.value, connection.value.accessToken);
        RunOutcome(if plain.Ok? then Ok(plain.value) else Err(NotHandledError), [], w)
      else
        var rt := Open(w.fernet.value, connection.value.refreshToken);
        if rt.Err? then RunOutcome(Err(NotHandledError), [], w)
        else
          var w2 := w.(refreshData := w.refreshData["refresh_token" := rt.value]);
          ExchangeSpec(w2, w2.refreshData, i)
    else
      ExchangeSpec(w, w.connectionData, i)
  }

  /** One POST of `form` to the token endpoint, encryption of the reply's tokens, the
      save, and the decryption of the saved access token. */
  function ExchangeSpec(w: World, form: map<string, string>, i: RunInputs): RunOutcome
    requires w.fernet.Bound?
  {
    var post := Post(TokenUrl, TokenHeaders, form);
    var t := ReplyTokens(i.reply);
    if t.Err? then RunOutcome(Err(AuthenticationError), [post], w)
    else if t.value.None? then
      // `encrypt_connection_data(None)` raises AttributeError
      RunOutcome(Err(NotHandledError), [post], w)
    else
      var a := Seal(w.fernet.value, t.value.value.0);
      var b := Seal(w.fernet.value, t.value.value.1);
      if a.Err? || b.Err? then RunOutcome(Err(NotHandledError), [post], w)
      else if i.faults.save then RunOutcome(Err(DataBaseError), [post], w)
      else
        var row := Row(w.nextId, Some(w.dateDefault), a.value, b.value);
        RunOutcome(Ok(t.value.value.0.s), [post], w.(rows := w.rows + [row], nextId := w.nextId + 1))
  }

  /** The auth client: the store it was given and its encryptor attributes. */
  class AuthClient {
    const db: DataBaseClient
    const encryptor: TokenEncryptor

    /** `AuthClient(db)`: neither `key` nor `fernet` is assigned yet. */
    constructor (db: DataBaseClient)
      ensures this.db == db
      ensures fresh(encryptor) && encryptor.key == Unbound && encryptor.fernet == Unbound
    {
      this.db := db;
      encryptor := new TokenEncryptor();
    }

    /** The snapshot of the state a run reads or changes. */
    function WorldOf(config: ConfigSource, classes: MeliAuthRequests): World
      reads db, encryptor, config, classes
    {
      World(config.env, config.dotEnv, encryptor.key, encryptor.fernet,
            db.rows, db.nextId, db.dateDefault, classes.connectionData, classes.refreshData)
    }

    /** `_connection()`: returns the plaintext access token, or the exception that escapes. */
    method Connection(config: ConfigSource, classes: MeliAuthRequests, i: RunInputs)
        returns (r: Result<string>, posts: seq<Post>)
      requires db.Valid()
      modifies db, encryptor, config, classes
      ensures db.Valid()
      ensures var o := ConnectionSpec(old(WorldOf(config, classes)), i);
        r == o.result && posts == o.posts && WorldOf(config, classes) == o.world
    {
      ghost var w := WorldOf(config, classes);
      var connection: Slot<Option<CredentialDict>> := Unbound;
      var supervise: Slot<Option<bool>> := Unbound;
      // An exception the try block raises stops it and is then discarded: the finally
      // block returns or raises in every case, so it never reaches the caller.
      var setup := encryptor.SetupToken(config, i.generatedKey);
      assert WorldOf(config, classes) == SetupWorld(w, i.generatedKey);
      if setup.Ok? {
        var cred := Credential(db.rows, i.faults.getAll, i.faults.credentialLast);
        if cred.Ok? {
          connection := Bound(cred.value);
          var sup := Supervise(db.rows, i.now, i.faults.superviseLast);
          if sup.Ok? {
            supervise := Bound(sup.value);
          }
        }
      }
      if connection.Unbound? {
        // UnboundLocalError inside the finally block
        return Err(NotHandledError), [];
      }
      r, posts := Finally(config, classes, connection.value, supervise, i);
    }

    /** The `finally` block of `_connection`, once `connection` is bound. */
    method Finally(config: ConfigSource, classes: MeliAuthRequests, connection: Option<CredentialDict>,
                   supervise: Slot<Option<bool>>, i: RunInputs)
        returns (r: Result<string>, posts: seq<Post>)
      requires db.Valid()
      requires encryptor.fernet.Bound?
      modifies db, classes
      ensures db.Valid()
      ensures var o := FinallySpec(old(WorldOf(config, classes)), connection, supervise, i);
        r == o.result && posts == o.posts && WorldOf(config, classes) == o.world
    {
      var req: AuthRequest;
      if connection.Some? {
        if supervise.Unbound? {
          // UnboundLocalError
          return Err(NotHandledError), [];
        }
        if supervise.value == Some(true) {
          var plain := encryptor.Decrypt(connection.value.accessToken);
          return (if plain.Ok? then Ok(plain.value) else Err(NotHandledError)), [];
        }
        var rt := encryptor.Decrypt(connection.value.refreshToken);
        if rt.Err? {
          return Err(NotHandledError), [];
        }
        req := classes.NewRefreshConnRequest(rt.value);
      } else {
        req := ConnectionRequest;
      }
      r, posts := Exchange(config, classes, req, i);
    }

    /** `encrypt_connection_data(data_req.authenticate())`, the save and the decryption. */
    method Exchange(config: ConfigSource, classes: MeliAuthRequests, req: AuthRequest, i: RunInputs)
        returns (r: Result<string>, posts: seq<Post>)
      requires db.Valid()
      requires encryptor.fernet.Bound?
      modifies db
      ensures db.Valid()
      ensures var o := ExchangeSpec(old(WorldOf(config, classes)), classes.Payload(req), i);
        r == o.result && posts == o.posts && WorldOf(config, classes) == o.world
    {
      var post, reply := Authenticate(classes, req, i.reply);
      posts := [post];
      if reply.Err? {
        return Err(AuthenticationError), posts;
      }
      var encrypted := encryptor.EncryptConnectionData(reply.value);
      if encrypted.Err? {
        return Err(NotHandledError), posts;
      }
      // `if new_connection` always holds: a Connection object is truthy, so the
      // "Connection failed." branch is never taken
      var newConnection := encrypted.value;
      var saved := db.Save(newConnection, i.faults.save);
      if saved.Err? {
        return Err(DataBaseError), posts;
      }
      var plain := encryptor.Decrypt(newConnection.accessToken);
      r := if plain.Ok? then Ok(plain.value) else Err(NotHandledError);
    }
  }

  /** `o` ends a run from `w` that saved exactly one row: it returns a token, and the
      new row is the only change to the store, carries the next id and the
      class-definition-time date, holds both tokens sealed under `k`, and its access
      token opens to the returned token. */
  predicate SavedOneRow(w: World, o: RunOutcome, k: string)
  {
    && o.result.Ok? && |o.posts| == 1
    && |o.world.rows| == |w.rows| + 1 && o.world.rows[..|w.rows|] == w.rows
    && o.world.nextId == w.nextId + 1
    && var row := o.world.rows[|w.rows|];
       && row.id == w.nextId && row.date == Some(w.dateDefault)
       && SealedUnder(row, k)
       && Open(k, row.accessToken) == Ok(o.result.value)
  }

  /** The exchange posts once and changes nothing but the store; the store changes
      exactly when the run succeeds, by one sealed row. */
  lemma ExchangeChanges(w: World, form: map<string, string>, i: RunInputs)
    requires w.fernet.Bound?
    ensures var o := ExchangeSpec(w, form, i);
      && o.world.(rows := w.rows, nextId := w.nextId) == w
      && |o.posts| == 1
      && (o.world.rows == w.rows <==> o.result.Err?)
      && (o.world.rows == w.rows ==> o.world.nextId == w.nextId)
      && (o.world.rows != w.rows ==> SavedOneRow(w, o, w.fernet.value))
  {
    var o := ExchangeSpec(w, form, i);
    if o.world.rows != w.rows {
      assert (w.rows + [o.world.rows[|w.rows|]])[..|w.rows|] == w.rows;
    }
  }

  /** The `finally` block changes at most the store and the refresh payload, posts at
      most once, and saves only through the exchange. */
  lemma FinallyChanges(w: World, connection: Option<CredentialDict>, supervise: Slot<Option<bool>>, i: RunInputs)
    requires w.fernet.Bound?
    ensures var o := FinallySpec(w, connection, supervise, i);
      && o.world.(rows := w.rows, nextId := w.nextId, refreshData := w.refreshData) == w
      && |o.posts| <= 1
      && (o.result.Ok? && o.posts != [] ==> o.world.rows != w.rows)
      && (o.world.rows == w.rows ==> o.world.nextId == w.nextId)
      && (o.world.rows != w.rows ==> SavedOneRow(w, o, w.fernet.value))
  {
    if connection.Some? && supervise.Bound? && supervise.value != Some(true) {
      var rt := Open(w.fernet.value, connection.value.refreshToken);
      if rt.Ok? {
        var w2 := w.(refreshData := w.refreshData["refresh_token" := rt.value]);
        ExchangeChanges(w2, w2.refreshData, i);
      }
    } else if connection.None? {
      ExchangeChanges(w, w.connectionData, i);
    }
  }

  /** A run does not touch the process environment, and `.env` only ever grows. */
  lemma RunKeepsEnvironment(w: World, i: RunInputs)
    ensures ConnectionSpec(w, i).world.env == w.env
    ensures ConnectionSpec(w, i).world.dotEnv == SetupWorld(w, i.generatedKey).dotEnv
    ensures ConnectionSpec(w, i).world.key == SetupWorld(w, i.generatedKey).key
    ensures ConnectionSpec(w, i).world.fernet == SetupWorld(w, i.generatedKey).fernet
  {
    RunChanges(w, i);
  }

  /** The part of `ConnectionSpec` both lemmas about a whole run rest on. */
  lemma RunChanges(w: World, i: RunInputs)
    ensures var w1 := SetupWorld(w, i.generatedKey); var o := ConnectionSpec(w, i);
      && o.world.(rows := w1.rows, nextId := w1.nextId, refreshData := w1.refreshData) == w1
      && |o.posts| <= 1
      && (o.result.Ok? && o.posts != [] ==> o.world.rows != w1.rows)
      && (o.world.rows == w1.rows ==> o.world.nextId == w1.nextId)
      && (o.world.rows != w1.rows ==>
            CipherKey(w, i.generatedKey).Ok? && SavedOneRow(w1, o, CipherKey(w, i.generatedKey).value))
  {
    var w1 := SetupWorld(w, i.generatedKey);
    if CipherKey(w, i.generatedKey).Ok? {
      var cred := Credential(w1.rows, i.faults.getAll, i.faults.credentialLast);
      if cred.Ok? {
        var sup := Supervise(w1.rows, i.now, i.faults.superviseLast);
        FinallyChanges(w1, cred.value, if sup.Ok? then Bound(sup.value) else Unbound, i);
      }
    }
  }

  /** When the cipher cannot be built, the run ends in NotHandledError before any
      query or request. */
  lemma SetupFailureIsNotHandled(w: World, i: RunInputs)
    requires CipherKey(w, i.generatedKey).Err?
    ensures ConnectionSpec(w, i) == RunOutcome(Err(NotHandledError), [], SetupWorld(w, i.generatedKey))
  {
  }

  /** Without SECRET_KEY, a client whose `key` was never assigned fails every run: a
      key is generated and appended to `.env`, but `self.key` stays unassigned. */
  lemma MissingSecretKeyAlwaysFails(w: World, i: RunInputs)
    requires GetVar(w.env, "SECRET_KEY").Err?
    requires w.key.Unbound?
    ensures ConnectionSpec(w, i).result == Err(NotHandledError)
    ensures ConnectionSpec(w, i).posts == []
    ensures ConnectionSpec(w, i).world == w.(dotEnv := w.dotEnv + SecretKeyEntry(i.generatedKey))
  {
  }

  /** A stored credential at most THRESHOLD hours old is reused: its access token is
      decrypted and returned, no request is made and nothing is saved. A token that does
      not open under the key ends the run in NotHandledError. */
  lemma FreshCredentialIsReused(w: World, i: RunInputs)
    requires CipherKey(w, i.generatedKey).Ok?
    requires w.rows != [] && Latest(w.rows).value.date.Some?
    requires !i.faults.getAll && !i.faults.credentialLast && !i.faults.superviseLast
    requires i.now - Latest(w.rows).value.date.value <= Hours(Threshold)
    ensures var o := ConnectionSpec(w, i);
      var plain := Open(CipherKey(w, i.generatedKey).value, Latest(w.rows).value.accessToken);
      && o.result == (if plain.Ok? then Ok(plain.value) else Err(NotHandledError))
      && o.posts == []
      && o.world == SetupWorld(w, i.generatedKey)
  {
  }

  /** A stored credential older than THRESHOLD hours is refreshed: the decrypted
      refresh token goes into the shared refresh payload and that payload is posted,
      once. An undecryptable refresh token ends the run in NotHandledError with no POST. */
  lemma StaleCredentialIsRefreshed(w: World, i: RunInputs)
    requires CipherKey(w, i.generatedKey).Ok?
    requires w.rows != [] && Latest(w.rows).value.date.Some?
    requires !i.faults.getAll && !i.faults.credentialLast && !i.faults.superviseLast
    requires i.now - Latest(w.rows).value.date.value > Hours(Threshold)
    ensures var o := ConnectionSpec(w, i);
      var rt := Open(CipherKey(w, i.generatedKey).value, Latest(w.rows).value.refreshToken);
      && (rt.Err? ==> o.result == Err(NotHandledError) && o.posts == [])
      && (rt.Ok? ==>
            && o.posts == [Post(TokenUrl, TokenHeaders, w.refreshData["refresh_token" := rt.value])]
            && o.world.refreshData == w.refreshData["refresh_token" := rt.value])
  {
    var w1 := SetupWorld(w, i.generatedKey);
    var cred := Credential(w1.rows, i.faults.getAll, i.faults.credentialLast);
    var sup := Supervise(w1.rows, i.now, i.faults.superviseLast);
    assert cred.Ok? && cred.value.Some? && sup == Ok(None);
    assert ConnectionSpec(w, i) == FinallySpec(w1, cred.value, Bound(None), i);
    var rt := Open(w1.fernet.value, cred.value.value.refreshToken);
    if rt.Ok? {
      var w2 := w1.(refreshData := w1.refreshData["refresh_token" := rt.value]);
      ExchangePosts(w2, w2.refreshData, i);
    }
  }

  /** The exchange posts `form` once and leaves the payloads where it found them. */
  lemma ExchangePosts(w: World, form: map<string, string>, i: RunInputs)
    requires w.fernet.Bound?
    ensures ExchangeSpec(w, form, i).posts == [Post(TokenUrl, TokenHeaders, form)]
    ensures ExchangeSpec(w, form, i).world.refreshData == w.refreshData
  {
  }

  /** An empty store runs the authorization-code exchange with the ConnectionRequest
      payload, whether or not the freshness query failed. */
  lemma EmptyStoreAuthorizes(w: World, i: RunInputs)
    requires CipherKey(w, i.generatedKey).Ok?
    requires w.rows == [] && !i.faults.getAll
    ensures ConnectionSpec(w, i).posts == [Post(TokenUrl, TokenHeaders, w.connectionData)]
  {
  }

  /** When a credential is stored but the freshness query fails, `supervise` is left
      unbound and the run ends in NotHandledError without any request. */
  lemma SuperviseFailureIsNotHandled(w: World, i: RunInputs)
    requires CipherKey(w, i.generatedKey).Ok?
    requires w.rows != [] && !i.faults.getAll && !i.faults.credentialLast
    requires i.faults.superviseLast
    ensures ConnectionSpec(w, i) == RunOutcome(Err(NotHandledError), [], SetupWorld(w, i.generatedKey))
  {
  }

  /** When reading the credential fails (`_get_all`, or `_last` on a non-empty store),
      the DataBaseError stops the try block before `connection` is bound; the finally
      block reads the unbound name and the run ends in NotHandledError without any
      request or change to the store. */
  lemma CredentialFailureIsNotHandled(w: World, i: RunInputs)
    requires CipherKey(w, i.generatedKey).Ok?
    requires i.faults.getAll || (w.rows != [] && i.faults.credentialLast)
    ensures ConnectionSpec(w, i) == RunOutcome(Err(NotHandledError), [], SetupWorld(w, i.generatedKey))
  {
  }

  /** A run makes at most one POST and saves at most one row. A row is saved only by a
      successful run after its POST: it carries the next id and the class-definition-time
      date, both tokens are sealed under the cipher key, and its access token opens to the
      token the run returns. */
  lemma AtMostOneSealedRowSaved(w: World, i: RunInputs)
    ensures |ConnectionSpec(w, i).posts| <= 1
    ensures var o := ConnectionSpec(w, i);
      o.world.rows == w.rows ==> o.world.nextId == w.nextId
    ensures var o := ConnectionSpec(w, i);
      o.result.Ok? && o.posts != [] ==> o.world.rows != w.rows
    ensures var o := ConnectionSpec(w, i);
      o.world.rows != w.rows ==>
        && CipherKey(w, i.generatedKey).Ok? && o.result.Ok? && |o.posts| == 1
        && |o.world.rows| == |w.rows| + 1 && o.world.rows[..|w.rows|] == w.rows
        && o.world.nextId == w.nextId + 1
        && var row := o.world.rows[|w.rows|];
           && row.id == w.nextId && row.date == Some(w.dateDefault)
           && SealedUnder(row, CipherKey(w, i.generatedKey).value)
           && Open(CipherKey(w, i.generatedKey).value, row.accessToken) == Ok(o.result.value)
  {
    RunChanges(w, i);
    var w1 := SetupWorld(w, i.generatedKey);
    assert w1.rows == w.rows && w1.nextId == w.nextId && w1.dateDefault == w.dateDefault;
  }

  /** A run that posted went through the exchange, from a world that differs from the
      one key setup left at most in the refresh payload. */
  lemma RunReachesExchange(w: World, i: RunInputs)
    requires ConnectionSpec(w, i).posts != []
    ensures CipherKey(w, i.generatedKey).Ok?
    ensures exists w2: World, form: map<string, string> ::
      && w2.fernet == Bound(CipherKey(w, i.generatedKey).value)
      && w2.rows == w.rows && w2.nextId == w.nextId && w2.dateDefault == w.dateDefault
      && ConnectionSpec(w, i) == ExchangeSpec(w2, form, i)
  {
    var w1 := SetupWorld(w, i.generatedKey);
    var cred := Credential(w1.rows, i.faults.getAll, i.faults.credentialLast);
    var sup := Supervise(w1.rows, i.now, i.faults.superviseLast);
    var supervise := if sup.Ok? then Bound(sup.value) else Unbound;
    assert ConnectionSpec(w, i) == FinallySpec(w1, cred.value, supervise, i);
    if cred.value.Some? {
      var rt := Open(w1.fernet.value, cred.value.value.refreshToken);
      var w2 := w1.(refreshData := w1.refreshData["refresh_token" := rt.value]);
      assert ConnectionSpec(w, i) == ExchangeSpec(w2, w2.refreshData, i);
    } else {
      assert ConnectionSpec(w, i) == ExchangeSpec(w1, w1.connectionData, i);
    }
  }

  /** The exchange on a reply it cannot read, or on a network fault, is AuthenticationError. */
  lemma ExchangeUnreadable(w: World, form: map<string, string>, i: RunInputs)
    requires w.fernet.Bound?
    requires i.reply.NetworkFault? || (i.reply.status == 200 && !i.reply.body.JsonObject?)
    ensures ExchangeSpec(w, form, i).result == Err(AuthenticationError)
    ensures ExchangeSpec(w, form, i).world.rows == w.rows
  {
  }

  /** The exchange on a status other than 200 is NotHandledError. */
  lemma ExchangeRejected(w: World, form: map<string, string>, i: RunInputs)
    requires w.fernet.Bound?
    requires i.reply.Response? && i.reply.status != 200
    ensures ExchangeSpec(w, form, i).result == Err(NotHandledError)
    ensures ExchangeSpec(w, form, i).world.rows == w.rows
  {
  }

  /** The exchange on an accepted reply with two string tokens. */
  lemma ExchangeAccepted(w: World, form: map<string, string>, i: RunInputs, access: string, refresh: string)
    requires w.fernet.Bound?
    requires i.reply.Response? && i.reply.status == 200 && i.reply.body.JsonObject?
    requires TokenOf(i.reply.body.fields, "access_token") == Text(access)
    requires TokenOf(i.reply.body.fields, "refresh_token") == Text(refresh)
    ensures var o := ExchangeSpec(w, form, i); var k := w.fernet.value;
      && (!i.faults.save ==>
            && o.result == Ok(access)
            && o.world.rows == w.rows + [Row(w.nextId, Some(w.dateDefault), Sealed(k, access), Sealed(k, refresh))])
      && (i.faults.save ==> o.result == Err(DataBaseError) && o.world.rows == w.rows)
  {
    assert ReplyTokens(i.reply) == Ok(Some((Text(access), Text(refresh))));
  }

  /** The exchange on an accepted reply with a token that is not a string. */
  lemma ExchangeNonText(w: World, form: map<string, string>, i: RunInputs)
    requires w.fernet.Bound?
    requires i.reply.Response? && i.reply.status == 200 && i.reply.body.JsonObject?
    requires !TokenOf(i.reply.body.fields, "access_token").Text? || !TokenOf(i.reply.body.fields, "refresh_token").Text?
    ensures ExchangeSpec(w, form, i).result == Err(NotHandledError)
    ensures ExchangeSpec(w, form, i).world.rows == w.rows
  {
  }

  /** Once the exchange is under way, a network fault or a body that is not a JSON object
      escapes as AuthenticationError, and nothing is saved. */
  lemma NetworkFaultIsAuthenticationError(w: World, i: RunInputs)
    requires ConnectionSpec(w, i).posts != []
    requires i.reply.NetworkFault? || (i.reply.status == 200 && !i.reply.body.JsonObject?)
    ensures ConnectionSpec(w, i).result == Err(AuthenticationError)
    ensures ConnectionSpec(w, i).world.rows == w.rows
  {
    RunReachesExchange(w, i);
    var w2: World, form: map<string, string> :|
      && w2.fernet == Bound(CipherKey(w, i.generatedKey).value) && w2.rows == w.rows
      && ConnectionSpec(w, i) == ExchangeSpec(w2, form, i);
    ExchangeUnreadable(w2, form, i);
  }

  /** A reply with a status other than 200 makes `authenticate` return None, which
      `encrypt_connection_data` cannot take: the run ends in NotHandledError, not in the
      "Connection failed." AuthenticationError, and nothing is saved. */
  lemma RejectedReplyIsNotHandled(w: World, i: RunInputs)
    requires ConnectionSpec(w, i).posts != []
    requires i.reply.Response? && i.reply.status != 200
    ensures ConnectionSpec(w, i).result == Err(NotHandledError)
    ensures ConnectionSpec(w, i).world.rows == w.rows
  {
    RunReachesExchange(w, i);
    var w2: World, form: map<string, string> :|
      && w2.fernet == Bound(CipherKey(w, i.generatedKey).value) && w2.rows == w.rows
      && ConnectionSpec(w, i) == ExchangeSpec(w2, form, i);
    ExchangeRejected(w2, form, i);
  }

  /** A 200 reply whose body is a JSON object, with any further fields, whose two token
      fields are strings or absent (read as ""), saved without a store failure, ends the
      run with the new access token in plaintext and exactly one row holding both
      tokens encrypted under the cipher key. */
  lemma AcceptedReplyIsSaved(w: World, i: RunInputs, access: string, refresh: string)
    requires ConnectionSpec(w, i).posts != []
    requires i.reply.Response? && i.reply.status == 200 && i.reply.body.JsonObject?
    requires TokenOf(i.reply.body.fields, "access_token") == Text(access)
    requires TokenOf(i.reply.body.fields, "refresh_token") == Text(refresh)
    requires !i.faults.save
    ensures CipherKey(w, i.generatedKey).Ok?
    ensures var k := CipherKey(w, i.generatedKey).value;
      && ConnectionSpec(w, i).result == Ok(access)
      && ConnectionSpec(w, i).world.rows
           == w.rows + [Row(w.nextId, Some(w.dateDefault), Sealed(k, access), Sealed(k, refresh))]
  {
    RunReachesExchange(w, i);
    var w2: World, form: map<string, string> :|
      && w2.fernet == Bound(CipherKey(w, i.generatedKey).value)
      && w2.rows == w.rows && w2.nextId == w.nextId && w2.dateDefault == w.dateDefault
      && ConnectionSpec(w, i) == ExchangeSpec(w2, form, i);
    ExchangeAccepted(w2, form, i, access, refresh);
  }

  /** The same accepted reply with a failing save ends in DataBaseError with nothing saved. */
  lemma SaveFailureIsDataBaseError(w: World, i: RunInputs, access: string, refresh: string)
    requires ConnectionSpec(w, i).posts != []
    requires i.reply.Response? && i.reply.status == 200 && i.reply.body.JsonObject?
    requires TokenOf(i.reply.body.fields, "access_token") == Text(access)
    requires TokenOf(i.reply.body.fields, "refresh_token") == Text(refresh)
    requires i.faults.save
    ensures ConnectionSpec(w, i).result == Err(DataBaseError)
    ensures ConnectionSpec(w, i).world.rows == w.rows
  {
    RunReachesExchange(w, i);
    var w2: World, form: map<string, string> :|
      && w2.fernet == Bound(CipherKey(w, i.generatedKey).value) && w2.rows == w.rows
      && ConnectionSpec(w, i) == ExchangeSpec(w2, form, i);
    ExchangeAccepted(w2, form, i, access, refresh);
  }

  /** A 200 reply whose access or refresh token is null or not a string cannot be
      encrypted: the run ends in NotHandledError with nothing saved. */
  lemma NonTextTokenIsNotHandled(w: World, i: RunInputs)
    requires ConnectionSpec(w, i).posts != []
    requires i.reply.Response? && i.reply.status == 200 && i.reply.body.JsonObject?
    requires !TokenOf(i.reply.body.fields, "access_token").Text? || !TokenOf(i.reply.body.fields, "refresh_token").Text?
    ensures ConnectionSpec(w, i).result == Err(NotHandledError)
    ensures ConnectionSpec(w, i).world.rows == w.rows
  {
    RunReachesExchange(w, i);
    var w2: World, form: map<string, string> :|
      && w2.fernet == Bound(CipherKey(w, i.generatedKey).value) && w2.rows == w.rows
      && ConnectionSpec(w, i) == ExchangeSpec(w2, form, i);
    ExchangeNonText(w2, form, i);
  }

  /** Only the three exceptions of the handlers reach the caller: the ConfigError of
      `_setup_token` and every built-in error become NotHandledError. */
  lemma OnlyHandledErrorsEscape(w: World, i: RunInputs)
    ensures var r := ConnectionSpec(w, i).result;
      r.Err? ==> r.error == NotHandledError || r.error == AuthenticationError || r.error == DataBaseError
  {
  }

  /** After a run that obtained and saved a new credential, a second run within
      THRESHOLD hours of the saved row's date, with SECRET_KEY still set and no store
      failure, returns the same access token without any request and changes nothing. */
  lemma {:induction false} RerunReusesSavedCredential(w: World, i: RunInputs, j: RunInputs)
    requires IdsIncreasing(w.rows) && forall k :: 0 <= k < |w.rows| ==> w.rows[k].id < w.nextId
    requires GetVar(w.env, "SECRET_KEY").Ok?
    requires ConnectionSpec(w, i).result.Ok? && ConnectionSpec(w, i).posts != []
    requires j.faults == StoreFaults(false, false, false, false)
    requires j.now - w.dateDefault <= Hours(Threshold)
    ensures var o := ConnectionSpec(w, i);
      ConnectionSpec(o.world, j) == RunOutcome(o.result, [], o.world)
  {
    var o := ConnectionSpec(w, i);
    var k := CipherKey(w, i.generatedKey).value;
    RunKeepsEnvironment(w, i);
    AtMostOneSealedRowSaved(w, i);
    var row := o.world.rows[|w.rows|];
    assert o.world.rows == w.rows + [row] by {
      assert o.world.rows == o.world.rows[..|w.rows|] + [row];
    }
    assert IdsIncreasing(o.world.rows) by {
      AppendKeepsIdsIncreasing(w.rows, row);
    }
    LatestIsLast(o.world.rows);
    assert GetVar(o.world.env, "SECRET_KEY") == Ok(k) && ValidKey(k);
    assert o.world.key == Bound(k) && o.world.fernet == Bound(k);
    FreshWorldIsStable(o.world, j, k, row, o.result.value);
  }

  /** A run on a world whose cipher is already built from SECRET_KEY and whose latest row
      is fresh and opens under that key returns its access token and changes nothing. */
  lemma FreshWorldIsStable(w: World, j: RunInputs, k: string, row: Row, plain: string)
    requires GetVar(w.env, "SECRET_KEY") == Ok(k) && ValidKey(k)
    requires w.key == Bound(k) && w.fernet == Bound(k)
    requires Latest(w.rows) == Some(row) && row.date.Some?
    requires j.now - row.date.value <= Hours(Threshold)
    requires Open(k, row.accessToken) == Ok(plain)
    requires j.faults == StoreFaults(false, false, false, false)
    ensures ConnectionSpec(w, j) == RunOutcome(Ok(plain), [], w)
  {
    assert SetupWorld(w, j.generatedKey) == w;
    assert Credential(w.rows, false, false) == Ok(Some(CredentialDict(row.date, row.accessToken, row.refreshToken)));
    assert Supervise(w.rows, j.now, false) == Ok(Some(true));
  }

  /** Appending a row whose id is above every id keeps the ids increasing. */
  lemma AppendKeepsIdsIncreasing(rows: seq<Row>, row: Row)
    requires IdsIncreasing(rows)
    requires forall k :: 0 <= k < |rows| ==> rows[k].id < row.id
    ensures IdsIncreasing(rows + [row])
  {
  }
}
