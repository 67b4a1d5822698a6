# TeleGraphite client manager in Dafny

This project models `TelegramClientManager` from TeleGraphite's `telegraphite/client.py`. The manager does two things:

1. It resolves Telegram credentials from the environment (`BOT_TOKEN`, `API_ID`, `API_HASH`).
2. It owns at most one Telethon client handle at a time. `start` opens it, `stop` closes it, and the asynchronous context-manager pair brackets a scope with the two.

Modules:

- `Wrappers` (wrappers.dfy): `Option` and `Result`.
- `Credentials` (credentials.dfy): the environment as a map, `Getenv` as the stand-in for `os.getenv` (a key that is not set reads as `None`), Python truthiness on optional strings, and `Resolve`, the pure decision `__init__` takes. `Resolve` either returns the resolved triple or raises `AuthenticationError`. Lemmas about it are in the same module.
- `Telethon` (telethon.dfy): a stand-in for Telethon's `TelegramClient`, which is a foreign library. It keeps the session name and application identity it was built with, the login flow of its latest handshake, and a count of `disconnect` calls. The outcomes of building the client and of the handshake are inputs.
- `Lifecycle` (lifecycle.dfy): the handle lifecycle as a value-level state machine. The state is the held handle plus two logs: the handles `start` built and the handles `stop` disconnected. `Run` folds a sequence of `start`/`stop` calls over the state. The inductive lemmas about runs are here.
- `Client` (client.dfy): the class `TelegramClientManager` with fields `botToken`, `apiId`, `apiHash` and `client`, and the two ghost logs. `Create` is `__init__`. A Dafny constructor cannot fail, so the factory returns a `Result`, and its contract ties it to `Resolve`. The class also has `Start`, `Stop`, `Enter`/`Exit` (`__aenter__`/`__aexit__`) and `WithSession` (an `async with` block). Each method's contract says how it moves the state, in terms of `Lifecycle.Step`/`Lifecycle.Run`. The class invariant `Valid` ties the ghost release log to each handle's disconnect counter. `BotSessionCycle` is a usage scenario, not a model of a source function. It runs a bot-token-only environment through construction, start, two stops and a second start, and checks what the contracts promise at each step.

The model keeps the behaviour of the code as written, including where a stricter design or the docstrings would suggest otherwise:

- Missing credentials raise `AuthenticationError`, not a separate configuration error.
- `API_ID` stays a string.
- The policy is "bot token if set, otherwise api id and api hash". With a bot token, an absent or empty id or hash becomes `"0"`.
- A second `start` overwrites `client` and does not disconnect the old handle. It does not raise a state error. `Lifecycle.DoubleStartLeaks` shows the lost handle.
- `TelegramClient(...)` is evaluated before `self.client` is assigned. If building the client raises, `client` keeps its old value and no handle is built. The model takes this outcome as an input, because what makes the Telethon constructor raise is outside this model.
- `start` stores the new handle before the handshake. A failed handshake therefore leaves that handle in `client`, and the Telethon exception propagates unwrapped.
- Python does not run `__aexit__` when `__aenter__` raises. So a scope whose handshake fails does not call `stop`.

## Model

| member | source | states |
|---|---|---|
| Credentials.Resolve | telegraphite/client.py:36-47 | A truthy `BOT_TOKEN` always succeeds. Without one, resolution fails exactly when `API_ID` or `API_HASH` is absent or empty, and the error is `AuthenticationError` with the fixed message. The bot token is stored as read. Truthy id and hash values are kept unchanged. A falsy one becomes `"0"`. Every success has a non-empty id and hash. |
| Credentials.ResolveIsStable | telegraphite/client.py:36-47 | Resolving an environment that holds exactly the resolved credentials returns them unchanged. Defaulting is applied only once. |
| Credentials.UserCredentialsKeptVerbatim | telegraphite/client.py:36-44 | With no truthy bot token and both id and hash present, the stored triple is exactly the environment's values. |
| Credentials.BotTokenOnly | telegraphite/client.py:40-43 | An environment holding only a non-empty `BOT_TOKEN` resolves to that token with id `"0"` and hash `"0"`. |
| Credentials.NothingSetFails | telegraphite/client.py:44-47 | An empty environment fails. So does one whose only variable is an empty `BOT_TOKEN`. |
| Client.TelegramClientManager.DisconnectCountsMatchLog | telegraphite/client.py:70-74 | Under the invariant, a built handle in the release log was disconnected exactly once, and one not in it never. So `RunKeepsSound`'s duplicate-free log means the manager's own `stop` never disconnects a handle twice. |
| Client.TelegramClientManager.constructor | telegraphite/client.py:50 | Stores the resolved credentials. No handle is held and none has been built. |
| Client.TelegramClientManager.Create | telegraphite/client.py:24-50 | Fails exactly when `Resolve` fails, with the same error. Otherwise it returns a fresh, valid manager storing `Resolve`'s credentials, in the initial lifecycle state with `client` None. |
| Client.TelegramClientManager.Start | telegraphite/client.py:52-68 | If building the client raises, returns that exception and changes nothing. Otherwise builds a fresh handle with session name `"telegraphite_session"` and the stored id and hash, and holds it in `client`. The handshake uses the bot-token flow if and only if `botToken` is truthy. Returns that handle, or the handshake's exception with the handle still held. A previous handle is not disconnected. Credentials are unchanged. |
| Client.TelegramClientManager.Stop | telegraphite/client.py:70-74 | With no handle held, nothing changes. Otherwise the held handle is disconnected exactly once and `client` becomes None. Credentials are unchanged. |
| Client.TelegramClientManager.Enter | telegraphite/client.py:76-78 | Same effect and result as `Start`, on both failure paths and on success. |
| Client.TelegramClientManager.Exit | telegraphite/client.py:80-82 | Calls `Stop` whatever exception ended the scope, with `Stop`'s whole effect: a no-op when nothing is held, otherwise one disconnect, login flow untouched, `client` None. Never suppresses the exception. |
| Client.TelegramClientManager.WithSession | telegraphite/client.py:76-82 | If building the client fails, that exception propagates, no handle exists and nothing changes. The scope's handle is built from the stored identity and uses the bot-token flow if and only if `botToken` is truthy. If the handshake fails, that exception propagates and the handle stays held, never disconnected. Otherwise the handle is disconnected exactly once on exit, `client` is None, and the body's exception propagates unchanged. The state follows `Lifecycle.Run` over the scope's calls. |
| Lifecycle.StepKeepsSound | telegraphite/client.py:62-74 | One `start` with a new handle, or one `stop`, keeps the logs duplicate-free. Every disconnected handle was built, and the held handle is not yet disconnected. |
| Lifecycle.RunKeepsSound | telegraphite/client.py:62-74 | Any run that builds only new handles keeps that soundness. So the manager's own `stop` never disconnects a handle twice. |
| Lifecycle.StepNoLeakIff | telegraphite/client.py:62-74 | A step keeps every built handle held or disconnected if and only if it is not a `start` while a handle is held. |
| Lifecycle.GuardedRunNoLeak | telegraphite/client.py:52-74 | A run that never starts while a handle is held leaks no handle. |
| Lifecycle.StopTwiceIsStopOnce | telegraphite/client.py:70-74 | Anywhere in a run, two consecutive `stop` calls have the same effect as one. |
| Lifecycle.StopReleases | telegraphite/client.py:70-74 | After any run that ends with `stop`, no handle is held. |
| Lifecycle.ScopeEffect | telegraphite/client.py:76-82 | A scope entered with nothing held whose start succeeds disconnects its handle exactly once and leaks nothing. When its start fails, the handle stays held and is not disconnected. |
| Lifecycle.Reusable | telegraphite/client.py:52-74 | After a start/stop cycle, a second `start` holds its new handle, and the first stays disconnected. |
| Lifecycle.DoubleStartLeaks | telegraphite/client.py:62 | From any sound state, two `start` calls with new handles and no `stop` between them lose the first handle. |

## Left out

- Loading the `.env` file and the `env_path` default (lines 33-34) are file I/O. The environment after loading is the input map of `Create`.
- Telethon's network handshake and session-file persistence are foreign library code. `TelegramClient(...)`, `client.start(...)` and `client.disconnect()` are abstract operations on the stand-in class. Whether `TelegramClient(...)` raises, and the handshake outcome, are inputs. The conversion of `api_id` inside Telethon is not part of this model.
- A `disconnect` that raises is not modelled. The stand-in's `Disconnect` always returns.
- Logging calls (lines 41, 49, 61, 67) are left out: they have no observable effect here.
- The asyncio event loop is left out. Each `await` is a sequential call, and nothing in the class depends on concurrency.
- `ApiIdInvalidError` and `AuthKeyError` are imported but never caught. Handshake failures are therefore not mapped to `AuthenticationError`, and the model does not map them either.
- `if self.client:` is modelled as "a handle is held". Telethon's client object is taken to be always truthy.
- The body of an `async with` block is arbitrary code. `WithSession` takes only its outcome, normal end or an exception, and assumes the body does not call the manager itself.
- Someone assigning the manager's public attributes from outside is not modelled.
- Client.TelegramClientManager.Valid: the invariant assumes the handle that `start` returns is disconnected only through `stop`. In the source a caller may call `disconnect` on it directly, and a later `stop` then calls `disconnect` on it a second time. The model's methods promise nothing from that state, because `Valid` no longer holds there.
