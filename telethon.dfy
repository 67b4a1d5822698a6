/** A stand-in for the part of Telethon's `TelegramClient` that the manager
    uses: it is built from a session name and an application identity, its
    `start` performs the login handshake with a bot token or interactively, and
    `disconnect` closes the connection. The handshake itself is network I/O: its
    outcome is a parameter. */
module Telethon {
  import opened Wrappers

  /** The login flow a handshake uses. */
  datatype Login = BotLogin(token: string) | UserLogin

  /** An exception raised while building the client (`TelegramClient(...)`)
      or from a failed handshake (an invalid api id, a rejected bot token, a
      broken authorisation key, a transport failure). It need not be one of
      Telethon's own error classes; only its name is kept. */
  datatype TelethonError = TelethonError(name: string)

  class TelegramClient {
    const session: string
    const apiId: string
    const apiHash: string
    /** The flow of the most recent handshake, if there was one. */
    var login: Option<Login>
    /** How many times `disconnect` was called on this handle. */
    var disconnects: nat

    constructor (session: string, apiId: string, apiHash: string)
      ensures this.session == session && this.apiId == apiId && this.apiHash == apiHash
      ensures login == None && disconnects == 0
    {
      this.session := session;
      this.apiId := apiId;
      this.apiHash := apiHash;
      login := None;
      disconnects := 0;
    }

    /** `await client.start(...)`: returns normally or raises `outcome.value`. */
    method Start(flow: Login, outcome: Option<TelethonError>) returns (raised: Option<TelethonError>)
      modifies this
      ensures login == Some(flow) && disconnects == old(disconnects)
      ensures raised == outcome
    {
      login := Some(flow);
      raised := outcome;
    }

    /** `await client.disconnect()`. */
    method Disconnect()
      modifies this
      ensures disconnects == old(disconnects) + 1 && login == old(login)
    {
      disconnects := disconnects + 1;
    }
  }
}
