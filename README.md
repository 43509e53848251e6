# IVR simulator call-session engine in Dafny

This project models the call-session state machine of an airline IVR
(interactive voice response) simulator. A caller walks a fixed menu graph by
sending one DTMF symbol per request. The server keeps one record per active
call and moves finished calls into an append-only archive.

The repository has two copies of the engine, `milestone_3/main.py` and
`backend/ivr_simulator_backend.py`. They differ only in wording. The model
has one engine, generic over the menu table and the wording. Each file's
`MENU` and messages then instantiate it.

- `wrappers.dfy` (`Wrappers`): an `Option` datatype.
- `menu.dfy` (`MenuGraph`): the menu table, a map from node id to a prompt
  and an ordered list of options. `Lookup` is the dict lookup. `WellFormed`
  says every node lists distinct keys and only goto options that lead to
  existing nodes, end, transfer, or the lookup under `#`. On its own it does
  not exclude "bad menu": a record whose `currentMenu` is not a node still
  gets that reply. The guarantee that no error branch is reached also needs
  the session invariant (`StepNeverFails`), which every session reached from
  process start keeps (`NeverFailsAfterAnyRun`).
- `engine.dfy` (`Engine`): the session record, the store (`active_calls` and
  `call_history`), and the replies. The effect of each endpoint is a pure
  function: `Step` for one symbol on one session, `DtmfSpec`, `CreateSpec`
  and `EndSpec` on the whole store. The invariants are `SessionInv` and
  `StoreInv`.
- `server.dfy` (`Server.IvrServer`): the endpoints as a class. The two
  collections are fields. The methods update them step by step, as the
  source does, and each is proved equal to its `Engine` function.
- `properties.dfy` (`EngineProperties`): lemmas about single steps, and
  invariants kept over any sequence of requests (`Run`).
- `milestone3.dfy` and `backend.dfy`: each file's table and wording, a proof
  that the table is well formed, and scenario lemmas. The constants `Menu`
  copy each file's `MENU` string for string, node by node and option by
  option in dict order (`milestone_3/main.py:43-122`,
  `backend/ivr_simulator_backend.py:46-135`). The constants `Texts` hold the
  reply strings the engine writes itself (`milestone_3/main.py:161-193`,
  `backend/ivr_simulator_backend.py:186-252`). They are constants, not
  members, so they have no row below. The rows for `NodeOk` and
  `MenuWellFormed` cite the table lines, and the scenario rows cite the
  reply lines.

The model follows what the code does, not what its messages say:

- A lookup with a buffer length other than 6 replies `invalid_pnr` with
  hangup and says "Returning to main". But the call stays active at
  `flight_status` with an empty buffer, and nothing is archived
  (`LookupFails`).
- The six-digit prompt offers `*` to restart. But `*` is rejected as a
  non-digit, and the buffer is left as it was (`StarDoesNotRestart`).
- Digits keep accumulating after six. A later `#` then fails the length-6
  check (`BufferGrowsPastSix`).
- `isdigit` accepts multi-character symbols, so `"12"` appends two digits
  (`SixDigitsFound` allows any split of the code into symbols).
- A goto to a node missing from the table sets `current_menu` and extends
  `menu_path` first. Only then `MENU[target]` raises. The model keeps those
  updates and replies `MenuKeyError`.
- `ivr_start` stores the session before it reads `MENU["main"]`.
- `main` assigns every key from `1` to `9`, so the unassigned-key scenario
  uses `0` (`ZeroAtMainRejected`).
- Ids are not guaranteed unique. The code draws a random id, so a collision
  overwrites an active record. The model takes the id as a parameter and
  does the same.

## Model

| member | source | states |
|---|---|---|
| MenuGraph.Lookup | milestone_3/main.py:172-175 | the lookup fails exactly when the symbol is not among the node's keys; on success it returns the action of an option with that symbol |
| MenuGraph.LookupFindsChoice | milestone_3/main.py:173-175 | with distinct keys, looking up an option's key returns that option's action (dict semantics) |
| MenuGraph.Keys | milestone_3/main.py:174 | `list(options.keys())`: one key per option |
| MenuGraph.KeyAt | milestone_3/main.py:174 | the `i`-th listed key is the `i`-th option's symbol, so keys are listed in table order |
| MenuGraph.LookupInWellFormed | milestone_3/main.py:43-122 | in a well-formed table a lookup never yields an unknown action kind; a goto target is a node linked from the current one; a PNR lookup only comes from `#` at `flight_status` |
| Engine.FoundMessage | backend/ivr_simulator_backend.py:240-246 | the success message contains the captured PNR |
| Engine.IsDigits | milestone_3/main.py:164 | `isdigit` holds exactly for a non-empty string of ASCII digits |
| Engine.NewSession | milestone_3/main.py:127-135 | the fresh record keeps the given id, caller and start time, sits at `main` with path `[main]`, and has no inputs, an empty buffer and no end time |
| Engine.Archive | milestone_3/main.py:179-198 | the archived copy carries the end time; every other field equals the live record's |
| Engine.MockLookup | milestone_3/main.py:188 | the mocked reservation quotes the PNR asked for, on flight `HS123`, status `Confirmed`, and the variant's route |
| Engine.Dispatch | milestone_3/main.py:175-193 | the action dispatch: archives exactly on end, transfer, or a lookup with a 6-character buffer, and then returns the stamped record; a goto moves to its target and extends the path, and gives the key-error fault exactly when the target is not a node; a failed lookup only clears the buffer; an unknown kind changes nothing and replies "unhandled". `Step`'s ensures state the whole digit endpoint through it |
| Engine.Step | milestone_3/main.py:155-193 | the symbol is always logged and identity fields kept; the call is archived exactly on end, transfer or a found PNR, stamped with the end time; the position moves only by a goto, which appends its target to the path; the buffer changes only by collecting a digit at `flight_status` (and then equals the reply's `collected`) or by being cleared on a failed lookup |
| Engine.CreateSpec | milestone_3/main.py:125-137 | the new record is stored under the given id, at `main` with path `[main]`, no inputs, an empty buffer and no end time; records under other ids and the history are untouched |
| Engine.DtmfSpec | milestone_3/main.py:149-157 | an id not in `active_calls` gives not-found and changes nothing; no other id's record changes; the history is unchanged or grows by exactly the call's final record, which then leaves `active_calls` |
| Engine.EndSpec | milestone_3/main.py:195-200 | on an active id: `ended`, the id is removed, no other record changes, and the stamped record is appended to the history; otherwise `not_found` and no change |
| EngineProperties.CollectDigit | milestone_3/main.py:163-169 | at `flight_status` a digit string other than `#` is appended to the buffer; the reply is `collecting` with the new buffer, and the "more digits" prompt below 6 characters or the press-`#` prompt from 6 on; position and path unchanged |
| EngineProperties.NonDigitRejected | milestone_3/main.py:170-171 | at `flight_status` a non-digit symbol other than `#` gives `invalid`; only the input log changes |
| EngineProperties.StarDoesNotRestart | backend/ivr_simulator_backend.py:196-200 | `*` at `flight_status` is rejected and leaves the buffer as it was |
| EngineProperties.UnknownOptionRejected | milestone_3/main.py:172-174 | a symbol that is not an option key gives `invalid` with all the node's keys in table order; only the input log changes |
| EngineProperties.GotoMoves | milestone_3/main.py:176-178 | a goto sets the current node to the target, appends the target to the path and replies with the target's prompt and the option's message |
| EngineProperties.ArchivingActions | milestone_3/main.py:179-190 | a dispatched option archives exactly when it is end, transfer, or a lookup with a 6-character buffer; end replies `call_ended` and transfer replies `transferring`, each with the option's message |
| EngineProperties.LookupSucceeds | backend/ivr_simulator_backend.py:237-246 | a lookup with exactly 6 characters replies `pnr_found` with a message containing the buffer, and archives the final record stamped with the end time |
| EngineProperties.LookupFails | backend/ivr_simulator_backend.py:247-249 | a lookup with any other length replies `invalid_pnr`, clears the buffer, keeps the current node and path, and does not archive |
| EngineProperties.BufferGrowsPastSix | backend/ivr_simulator_backend.py:189-240 | from 6 or more characters a further digit is still appended, with the press-`#` prompt; a following `#` fails the length check, clears the buffer and leaves the call active at `flight_status` |
| EngineProperties.PayloadMenuIgnored | backend/ivr_simulator_backend.py:172-179 | two requests that differ only in their `current_menu` field have the same reply and effect |
| EngineProperties.ArchiveMovesOneRecord | backend/ivr_simulator_backend.py:221-246 | a finishing symbol removes the call (active count down by 1) and appends exactly one record (history up by 1): the final state stamped with the end time |
| EngineProperties.NonFinishingKeepsCall | milestone_3/main.py:155-178 | any other outcome keeps the call active under its id with the stepped record; the active count and the history are unchanged |
| EngineProperties.EndTwice | backend/ivr_simulator_backend.py:254-264 | hanging up an active call twice gives `ended`, then `not_found`; the second call changes nothing and the history holds a single new record |
| EngineProperties.NewSessionInv | milestone_3/main.py:125-137 | a fresh record satisfies the session invariant |
| EngineProperties.StepKeepsSessionInv | milestone_3/main.py:155-193 | in a well-formed table one symbol keeps the current node a valid node, the path starting at `main`, ending at the current node and linked by goto options, and the buffer all digits |
| EngineProperties.StepNeverFails | milestone_3/main.py:159-193 | in a well-formed table a session in the invariant never gets "bad menu", "unhandled" or the missing-target fault |
| EngineProperties.LookupOnlyOnTerminator | milestone_3/main.py:185-192 | in a well-formed table a lookup reply only follows `#` at `flight_status` |
| EngineProperties.CreateKeepsStoreInv | milestone_3/main.py:125-137 | creating a session keeps the store invariant |
| EngineProperties.DtmfKeepsStoreInv | milestone_3/main.py:149-193 | a digit request keeps the store invariant |
| EngineProperties.EndKeepsStoreInv | milestone_3/main.py:195-200 | a hangup keeps the store invariant |
| EngineProperties.RunKeepsStoreInv | milestone_3/main.py:125-200 | over any sequence of start, digit and hangup requests the store invariant holds, and the old history is a prefix of the new one, so archived records are never changed or removed |
| EngineProperties.NeverFailsAfterAnyRun | milestone_3/main.py:159-193 | from process start, after any requests, a digit request against a well-formed table never gets an error reply |
| EngineProperties.StepKeepsBufferConfined | milestone_3/main.py:67-72 | when `flight_status` has no goto, the buffer stays empty at every other node |
| EngineProperties.ServeKeepsBufferConfined | milestone_3/main.py:125-200 | when `flight_status` has no goto, any one request keeps every active call's buffer empty away from `flight_status` |
| EngineProperties.RunKeepsBufferConfined | milestone_3/main.py:125-200 | the same holds after any sequence of start, digit and hangup requests |
| EngineProperties.FeedCollects | milestone_3/main.py:163-169 | digit strings fed one by one at `flight_status` join onto the buffer and the input log; nothing else changes |
| Server.IvrServer.constructor | milestone_3/main.py:39-40 | the server starts with no active calls and an empty history |
| Server.IvrServer.CreateSession | milestone_3/main.py:125-137 | returns the id it stored under; the new state is `CreateSpec` of the old, so the record is at `main` with path `[main]`, no inputs and an empty buffer |
| Server.IvrServer.Status | milestone_3/main.py:140-142 | returns the number of active calls and the history length, changing nothing |
| Server.IvrServer.Start | milestone_3/main.py:144-147 | creates the session, then replies `connected` with the id and the root prompt, or the key-error fault if the table has no root |
| Server.IvrServer.Dtmf | milestone_3/main.py:149-193 | the reply and the new state are `DtmfSpec` of the old state |
| Server.IvrServer.End | milestone_3/main.py:195-200 | the reply and the new state are `EndSpec` of the old state |
| Milestone3.Launch | milestone_3/main.py:39-40 | the process starts with empty collections over a well-formed table |
| Milestone3.NodeOk | milestone_3/main.py:43-122 | each node lists distinct keys; every option is a goto to an existing node, an end, a transfer, or the lookup under `#` of `flight_status` |
| Milestone3.CollectNodeIsSink | milestone_3/main.py:67-72 | `flight_status` offers no goto |
| Milestone3.MenuWellFormed | milestone_3/main.py:43-122 | the table is well formed |
| Milestone3.BufferOnlyAtCollect | milestone_3/main.py:67-72 | from process start, after any requests, no active call away from `flight_status` holds PNR digits |
| Milestone3.MainToBooking | milestone_3/main.py:176-178 | `1` at `main` replies `processed` with the booking prompt and moves to `booking` |
| Milestone3.ZeroAtMainRejected | milestone_3/main.py:172-174 | `0` at `main` is rejected with valid keys `1` to `9`, position unchanged |
| Milestone3.SixDigitsFound | milestone_3/main.py:163-190 | digits joining to `123456`, then `#`, give `pnr_found` with a message containing `123456`, and the call is archived |
| Milestone3.EarlyHashKeepsCall | milestone_3/main.py:185-192 | `#` after `12` replies `invalid_pnr`, clears the buffer and keeps the call active at `flight_status` |
| Backend.Launch | backend/ivr_simulator_backend.py:41-42 | the process starts with empty collections over a well-formed table |
| Backend.NodeOk | backend/ivr_simulator_backend.py:46-135 | each node lists distinct keys; every option is a goto to an existing node, an end, a transfer, or the lookup under `#` of `flight_status` |
| Backend.CollectNodeIsSink | backend/ivr_simulator_backend.py:74-79 | `flight_status` offers no goto |
| Backend.MenuWellFormed | backend/ivr_simulator_backend.py:46-135 | the table is well formed |
| Backend.BufferOnlyAtCollect | backend/ivr_simulator_backend.py:74-79 | from process start, after any requests, no active call away from `flight_status` holds PNR digits |
| Backend.DigitPrompts | backend/ivr_simulator_backend.py:189-198 | each digit below six characters is echoed in the prompt; from six on the prompt asks for `#` |
| Backend.SeventhDigitSpoilsLookup | backend/ivr_simulator_backend.py:189-249 | a seventh digit is accepted with the press-`#` prompt and `collected` `1234567`; `#` then replies `invalid_pnr`, clears the buffer and keeps the call at `flight_status` |

## Left out

- HTTP transport (FastAPI routes, pydantic validation, CORS) is left out. `HTTPException(404)` is the reply value `SessionMissing`, without its detail text.
- The telephony adapter (`milestone_3/main.py:202-288`) is left out. It starts sessions through `create_session` (`/voice`, and a fallback session in `/twilio/dtmf`) and relays each digit through `ivr_dtmf`, with a `current_menu` read from the stored record. Those calls go through the modelled operations; the reply markup, the lookup of a session by caller number and the callback URLs are not modelled.
- Clock readings (`datetime.now().isoformat()`) and random ids (`random.randint`) are parameters. Nothing keeps a new id from matching an active one; a collision overwrites that record, as in the source.
- `print` logging is left out. It has no effect on state.
- `str.isdigit` is modelled as "non-empty, every character `0`-`9`". Other Unicode digits are not modelled.
- Prompt and message texts are carried as opaque strings. Only "the success message contains the PNR" is proved about text.
- Concurrency is left out. The source has no locking, and each request is modelled as atomic.
- The session record is a value inside the `activeCalls` map, so the aliasing of `session.copy()` is not modelled. The copy shares the `inputs` and `menu_path` lists with the live record. This is harmless, because the live record is deleted right after the copy.
- Table entries are typed records, and a node's options are an ordered list. A Python dict literal with a repeated key keeps one entry holding the last value, while `Lookup` returns the first match, so a list with a repeated key has no Python counterpart; `WellFormed` excludes such lists, and both tables meet it. Because entries are typed, a node that is an empty dict (the Python "bad menu" test), an option without `msg` (`opt.get("msg", "")`) or a goto without `target` (a `KeyError`) cannot be written. A missing node id and an unknown action kind can, and both are modelled.
- The `CallRecord` pydantic model (`backend/ivr_simulator_backend.py:31-38`) is left out. No endpoint uses it.
