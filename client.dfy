/** `TelegramClientManager`: resolves credentials from the environment, owns at
    most one Telethon client handle, and brackets its use between `start` and
    `stop`, directly or as an asynchronous context manager. Each `await` is a
    sequential call here. */
module Client {
  import opened Wrappers
  import opened Credentials
  import opened Telethon
  import Lifecycle

  /** The name under which Telethon persists the session. */
  const SessionName := "telegraphite_session"

  /** How a scoped use of the manager ended: normally, or by an exception that
      propagates out of the scope. */
  datatype Raised = StartRaised(error: TelethonError) | BodyRaised(exception: string)

  class TelegramClientManager {
    var botToken: Option<string>
    var apiId: string
    var apiHash: string
    var client: TelegramClient?

    /** Every handle `start` has built, and every handle `stop` has
        disconnected, in order. */
    ghost var created: seq<TelegramClient>
    ghost var released: seq<TelegramClient>

    /** The manager's lifecycle state. */
    ghost function Abstract(): Lifecycle.State<TelegramClient>
      reads this
    {
      Lifecycle.State(if client == null then None else Some(client as TelegramClient), created, released)
    }

    function Stored(): Credentials
      reads this
    {
      Credentials(botToken, apiId, apiHash)
    }

    /** The handles the manager has built, whose disconnect counters it vouches for. */
    ghost function Handles(): set<object>
      reads this
    {
      set h | h in created
    }

    /** The stored credentials are usable, the held handle was built from them
        under the fixed session name, the lifecycle state is sound, and each
        handle built has been disconnected once if it is in the release log
        and never otherwise. */
    ghost predicate Valid()
      reads this, Handles()
    {
      && Usable(Stored())
      && (client != null ==> client.session == SessionName && client.apiId == apiId && client.apiHash == apiHash)
      && Lifecycle.Sound(Abstract())
      && (forall h :: h in created ==> h.disconnects == if h in released then 1 else 0)
    }

    /** Through the invariant, the release log speaks about the handles
        themselves: a handle in it was disconnected exactly once, and one built
        but not in it never. */
    lemma DisconnectCountsMatchLog(h: TelegramClient)
      requires Valid() && h in created
      ensures h in released ==> h.disconnects == 1
      ensures h !in released ==> h.disconnects == 0
    {
    }

    constructor (c: Credentials)
      requires Usable(c)
      ensures Valid() && Stored() == c
      ensures client == null && created == [] && released == []
    {
      botToken, apiId, apiHash := c.botToken, c.apiId, c.apiHash;
      client := null;
      created, released := [], [];
    }

    /** `TelegramClientManager(env_path)` once the file has been loaded into
        `env`: reads the three variables, defaults the application identity
        when a bot token is set, and raises `AuthenticationError` when no
        usable combination is present. */
    static method Create(env: Env) returns (r: Result<TelegramClientManager, AuthenticationError>)
      ensures r.Failure? <==> Resolve(env).Failure?
      ensures r.Failure? ==> r.error == Resolve(env).error
      ensures r.Success? ==> fresh(r.value) && r.value.Valid()
      ensures r.Success? ==> r.value.Stored() == Resolve(env).value
      ensures r.Success? ==> r.value.client == null && r.value.Abstract() == Lifecycle.Initial()
    {
      var botToken := Getenv(env, BotTokenKey);
      var apiId := Getenv(env, ApiIdKey);
      var apiHash := Getenv(env, ApiHashKey);
      if Truthy(botToken) {
        apiId := Some(OrElse(apiId, Placeholder));
        apiHash := Some(OrElse(apiHash, Placeholder));
      } else if !Truthy(apiId) || !Truthy(apiHash) {
        return Failure(AuthenticationError(MissingCredentials));
      }
      var m := new TelegramClientManager(Credentials(botToken, apiId.value, apiHash.value));
      r := Success(m);
    }

    /** `await start()`. `TelegramClient(...)` is evaluated first: if it raises
        (`build`), nothing changes and the exception propagates. Otherwise the
        new handle, for the stored identity under the fixed session name, is
        stored in `client` before the handshake, which logs in with the bot
        token when there is one (interactively otherwise). A handshake
        failure (`handshake`) propagates and leaves the new handle in
        `client`; a handle that was already held is overwritten without
        being disconnected. */
    method Start(build: Option<TelethonError>, handshake: Option<TelethonError>)
      returns (r: Result<TelegramClient, TelethonError>)
      requires Valid()
      modifies this
      ensures Valid() && Stored() == old(Stored())
      ensures build.Some? ==> r == Failure(build.value) && unchanged(this)
      ensures build.None? ==> client != null && fresh(client)
      ensures build.None? ==> client.session == SessionName && client.apiId == apiId && client.apiHash == apiHash
      ensures build.None? ==> client.disconnects == 0
      ensures build.None? && Truthy(botToken) ==> client.login == Some(BotLogin(botToken.value))
      ensures build.None? && !Truthy(botToken) ==> client.login == Some(UserLogin)
      ensures build.None? && handshake.None? ==> r == Success(client)
      ensures build.None? && handshake.Some? ==> r == Failure(handshake.value)
      ensures build.None? ==> Abstract() == Lifecycle.Step(old(Abstract()), Lifecycle.Start(client))
      ensures old(client) != null ==> old(client).disconnects == old(client.disconnects)
    {
      if build.Some? {
        return Failure(build.value);
      }
      var c := new TelegramClient(SessionName, apiId, apiHash);
      client := c;
      created := created + [c];
      var raised;
      if Truthy(botToken) {
        raised := c.Start(BotLogin(botToken.value), handshake);
      } else {
        raised := c.Start(UserLogin, handshake);
      }
      if raised.Some? {
        return Failure(raised.value);
      }
      r := Success(c);
    }

    /** `await stop()`: disconnects the held handle, once, and clears
        `client`; with no handle held it does nothing. */
    method Stop()
      requires Valid()
      modifies this, client
      ensures Valid() && Stored() == old(Stored())
      ensures client == null
      ensures old(client) == null ==> unchanged(this)
      ensures old(client) != null ==> old(client).disconnects == old(client.disconnects) + 1
      ensures old(client) != null ==> old(client).login == old(client.login)
      ensures Abstract() == Lifecycle.Step(old(Abstract()), Lifecycle.Stop)
    {
      if client != null {
        client.Disconnect();
        released := released + [client];
        client := null;
      }
    }

    /** `__aenter__`: the result of `start`. */
    method Enter(build: Option<TelethonError>, handshake: Option<TelethonError>)
      returns (r: Result<TelegramClient, TelethonError>)
      requires Valid()
      modifies this
      ensures Valid() && Stored() == old(Stored())
      ensures build.Some? ==> r == Failure(build.value) && unchanged(this)
      ensures build.None? ==> client != null && fresh(client)
      ensures build.None? ==> client.session == SessionName && client.apiId == apiId && client.apiHash == apiHash
      ensures build.None? ==> client.disconnects == 0
      ensures build.None? && Truthy(botToken) ==> client.login == Some(BotLogin(botToken.value))
      ensures build.None? && !Truthy(botToken) ==> client.login == Some(UserLogin)
      ensures build.None? && handshake.None? ==> r == Success(client)
      ensures build.None? && handshake.Some? ==> r == Failure(handshake.value)
      ensures build.None? ==> Abstract() == Lifecycle.Step(old(Abstract()), Lifecycle.Start(client))
      ensures old(client) != null ==> old(client).disconnects == old(client.disconnects)
    {
      r := Start(build, handshake);
    }

    /** `__aexit__`: calls `stop` whether the scope ended normally or with the
        exception `exception`, and returns a false value, so that an exception
        is not suppressed. */
    method Exit(exception: Option<string>) returns (suppress: bool)
      requires Valid()
      modifies this, client
      ensures !suppress
      ensures Valid() && Stored() == old(Stored())
      ensures client == null
      ensures old(client) == null ==> unchanged(this)
      ensures old(client) != null ==> old(client).disconnects == old(client.disconnects) + 1
      ensures old(client) != null ==> old(client).login == old(client.login)
      ensures Abstract() == Lifecycle.Step(old(Abstract()), Lifecycle.Stop)
    {
      Stop();
      suppress := false;
    }

    /** `async with manager as client: body`. If `__aenter__` raises, Python
        runs neither the body nor `__aexit__`: when `TelegramClient(...)`
        raised no handle exists (`h` is null) and nothing changed, and when
        the handshake raised the new handle `h` stays in `client`. Otherwise
        the body runs and ends normally or raises `body.value`, `h` is
        disconnected exactly once on the way out, and the body's exception
        propagates. The body is taken not to touch the manager. */
    method WithSession(build: Option<TelethonError>, handshake: Option<TelethonError>, body: Option<string>)
      returns (r: Option<Raised>, ghost h: TelegramClient?)
      requires Valid()
      modifies this
      ensures Valid() && Stored() == old(Stored())
      ensures build.Some? ==> r == Some(StartRaised(build.value)) && h == null && unchanged(this)
      ensures build.None? ==> h != null && fresh(h)
      ensures build.None? ==> h.session == SessionName && h.apiId == apiId && h.apiHash == apiHash
      ensures build.None? && Truthy(botToken) ==> h.login == Some(BotLogin(botToken.value))
      ensures build.None? && !Truthy(botToken) ==> h.login == Some(UserLogin)
      ensures build.None? && handshake.Some? ==>
                r == Some(StartRaised(handshake.value)) && client == h && h.disconnects == 0
      ensures build.None? && handshake.None? ==> client == null && h.disconnects == 1
      ensures build.None? && handshake.None? ==> r == if body.Some? then Some(BodyRaised(body.value)) else None
      ensures build.None? ==> Abstract() == Lifecycle.Run(old(Abstract()), Lifecycle.ScopeCalls(h, handshake.None?))
    {
      ghost var before := Abstract();
      var entered := Enter(build, handshake);
      if build.Some? {
        return Some(StartRaised(entered.error)), null;
      }
      var c := client;
      h := c;
      Lifecycle.RunCons(before, Lifecycle.Start(c), []);
      if entered.Failure? {
        assert Lifecycle.ScopeCalls(c, false) == [Lifecycle.Start(c)] + [];
        return Some(StartRaised(entered.error)), h;
      }
      // the body runs here, with `entered.value` bound to the scope's variable
      var suppress := Exit(body);
      assert Lifecycle.ScopeCalls(c, true) == [Lifecycle.Start(c)] + [Lifecycle.Stop];
      Lifecycle.RunCons(Lifecycle.Step(before, Lifecycle.Start(c)), Lifecycle.Stop, []);
      Lifecycle.RunCons(before, Lifecycle.Start(c), [Lifecycle.Stop]);
      r := if body.Some? && !suppress then Some(BodyRaised(body.value)) else None;
    }
  }

  /** A bot-token-only environment: construction succeeds with the placeholder
      identity, a start/stop cycle leaves nothing held and disconnects the
      handle once, and a second start works on the same manager. */
  method BotSessionCycle(token: string)
    requires token != ""
  {
    var env := map[BotTokenKey := token];
    BotTokenOnly(token);
    var created := TelegramClientManager.Create(env);
    var m := created.value;
    assert m.apiId == Placeholder && m.apiHash == Placeholder;
    var first := m.Start(None, None);
    var h1 := first.value;
    assert h1.login == Some(BotLogin(token));
    m.Stop();
    assert m.client == null && h1.disconnects == 1;
    m.Stop();
    assert m.client == null && h1.disconnects == 1;
    var second := m.Start(None, None);
    assert second.Success? && second.value != h1 && m.client == second.value;
    assert h1 in m.released && h1.disconnects == 1;
  }
}
