# OPC UA server and client core, and the Modbus gateway's configuration validator

This project models three sequential parts of a Rust OPC UA implementation and proves properties of them in Dafny:

- **Modbus gateway configuration validator** (`modbus_config.dfy`, module `ModbusConfig`). It covers the register width of each alias data type, the address window of each of the four Modbus tables (input and output coils, input and output registers), and `Config::valid`. `Config::valid` accepts a configuration with a slave address, four valid windows and, when aliases are given, distinct alias names and aliases that are addressable, typed correctly for coils and not running past the register maximum (39999 for input registers, 49999 otherwise).
- **Subscription registry** (`subscription_state.dfy`, module `SubscriptionRegistry`). This is the client's `SubscriptionState`: a class whose field maps subscription ids to subscriptions. Its methods state the whole new map in terms of the old one. Unknown ids are no-ops, adding replaces, and draining hands the map out and leaves the registry empty. A lemma over any sequence of adds and deletes shows that the last one naming an id decides whether the id is present.
- **Message dispatcher** (`message_handler.dfy`, module `MessageDispatch`). `MessageHandler::handle_message` routes five request kinds to three services. Any other kind fails with BadServiceUnsupported and changes no state. A service's outcome, error or response, is returned unchanged.

`machine_ints.dfy` holds the u8/u16/u32 subset types and wrapping u16 addition. `wrappers.dfy` holds `Option` and `Result`.

Code that is not shown appears as parameters or opaque types:
- `Table::table_from_number` is a function-valued parameter (`TableLookup`).
- The discovery, session and view services are function-valued fields of `Services`.
- A subscription's reaction to data changes and to monitored-item operations is a function-valued parameter of the registry method that forwards to it.
- `ServerState`, `SessionState`, the request bodies and a subscription's internals are opaque types.

Sums of two u16 values are taken over `int` in the main model. The source's u16 sum can overflow at three places: the window test (config.rs line 75), the membership test (line 83) and the alias end (line 173). All three are also modelled as written, by the members whose names end in `AsWritten`. Lines 75 and 173 are listed under Findings. With overflow checks, line 83 can panic only on a window whose base is at least 9998, which line 75 rejects without computing the sum. Without them, line 83 also wraps on windows that line 75's wrapped sum accepts, such as (1, 65535).

## Model

| member | source | states |
|---|---|---|
| `ModbusConfig.AliasType.SizeInWords` | samples/modbus-server/src/config.rs:27-37 | The width is always 1, 2 or 4 registers. It is the fewest 16-bit words that hold the type's bits: 1 for Default, Boolean, Byte, SByte, UInt16 and Int16; 2 for UInt32, Int32 and Float; 4 for UInt64, Int64 and Double. |
| `ModbusConfig.TableConfig.Default` | samples/modbus-server/src/config.rs:64-71 | The default window (0, 0) is valid, has count 0 and contains no address. |
| `ModbusConfig.TableConfig.Valid` | samples/modbus-server/src/config.rs:74-80 | A valid window's end, base + count, fits in u16, and every address the window contains is below 9999. |
| `ModbusConfig.TableConfig.ValidAsWritten` | samples/modbus-server/src/config.rs:75 | The source's wrapping test accepts exactly the valid windows plus those whose base is below 9998 and whose end passes 65535 but wraps to at most 9999. |
| `ModbusConfig.TableConfig.InRange` | samples/modbus-server/src/config.rs:82-84 | A window with count 0 contains no address, whatever its base. An address it contains is at or above the base. |
| `ModbusConfig.TableConfig.InRangeAsWritten` | samples/modbus-server/src/config.rs:83 | The source's wrapping membership test matches the test over int when base + count fits in u16. When the sum wraps, it finds no address in the window. |
| `ModbusConfig.InRangeDiffersOnlyOnInvalidWindow` | samples/modbus-server/src/config.rs:74-84 | The two membership tests disagree only on a window that is not valid. |
| `ModbusConfig.InRangeAsWrittenMissesOnAcceptedWindow` | samples/modbus-server/src/config.rs:74-84 | Without overflow checks, the source's window test accepts (1, 65535), and its membership test then misses address 5, which lies in the window. |
| `ModbusConfig.InRangeAsWrittenWrapsOnInvalidWindow` | samples/modbus-server/src/config.rs:83 | On window (9998, 65535) the source's test wraps the end to 9997 and misses address 9998, which the test over int finds. The window is not valid. |
| `ModbusConfig.ValidIffWindowBelowLimit` | samples/modbus-server/src/config.rs:74-84 | A window is valid exactly when its base is below 9998 and every address it contains is below 9999. |
| `ModbusConfig.ValidTableDoesNotOverflow` | samples/modbus-server/src/config.rs:74-84 | On a valid window, base + count fits in u16. So the source's u16 tests at lines 75 and 83 agree with the tests over int. |
| `ModbusConfig.ValidIffAsWrittenWithoutWrap` | samples/modbus-server/src/config.rs:74-80 | The corrected window test equals the source's wrapping test plus "base + count does not pass 65535". |
| `ModbusConfig.ValidAsWrittenAcceptsWrappedWindow` | samples/modbus-server/src/config.rs:75 | The source's test accepts window (1, 65535), whose end wraps to 0. The corrected test rejects it. |
| `ModbusConfig.RegisterEndOkAsWritten` | samples/modbus-server/src/config.rs:170-176 | The source's wrapping end check matches the check over int when number + width fits in u16. When the sum wraps, the check always passes. |
| `ModbusConfig.RegisterEndOkIffAsWrittenWithoutWrap` | samples/modbus-server/src/config.rs:170-179 | The corrected register-end check equals the source's wrapping check plus "number + width does not pass 65535" for register tables. |
| `ModbusConfig.RegisterEndAsWrittenMissesWrap` | samples/modbus-server/src/config.rs:172-175 | The source's end check passes a Double at number 65534 in the output registers: the end wraps to 2. The corrected check rejects it. |
| `ModbusConfig.NameSet` | samples/modbus-server/src/config.rs:143 | The set of alias names is never larger than the alias list. |
| `ModbusConfig.NameSetMembers` | samples/modbus-server/src/config.rs:143 | The set of alias names holds the name of every alias and nothing else. |
| `ModbusConfig.DistinctIffNoNameCollapses` | samples/modbus-server/src/config.rs:143-147 | The name set is as large as the alias list exactly when no two aliases share a name. So the size comparison at line 144 detects duplicates. |
| `ModbusConfig.CollectNames` | samples/modbus-server/src/config.rs:143 | Collecting the names alias by alias yields the name set. |
| `ModbusConfig.Config.CheckAlias` | samples/modbus-server/src/config.rs:149-179 | An alias passes exactly when three checks hold. First, its address is in the window of the table `table_from_number` picks. Second, a coil alias is Boolean or Default. Third, a register alias has number + width at most 39999 (input registers) or 49999 (output registers). |
| `ModbusConfig.Config.Valid` | samples/modbus-server/src/config.rs:120-183 | Valid exactly when all of these hold: the slave address is non-empty; the four windows are valid; and, if aliases are given, their names are pairwise distinct and every alias passes its checks. With no aliases, no alias check applies. |
| `SubscriptionRegistry.Added` | client/src/subscription_state.rs:40-42 | Adding puts s under its own id, replacing any entry there. Every other entry is kept and the key set gains exactly that id. |
| `SubscriptionRegistry.Removed` | client/src/subscription_state.rs:54-56 | Removing drops exactly that id and keeps every other entry. |
| `SubscriptionRegistry.LatestAddOrDeleteWins` | client/src/subscription_state.rs:40-56 | After any sequence of adds and deletes, an id is present exactly when the last operation naming it was an add. The id then holds what that add stored. An id no operation named keeps its first entry. |
| `SubscriptionRegistry.SubscriptionState.constructor` | client/src/subscription_state.rs:14-18 | A new registry is empty. |
| `SubscriptionRegistry.SubscriptionState.DrainSubscriptions` | client/src/subscription_state.rs:20-22 | Returns exactly the prior map and leaves the registry empty. |
| `SubscriptionRegistry.SubscriptionState.SubscriptionIds` | client/src/subscription_state.rs:24-30 | Returns None exactly when the registry is empty. Otherwise it returns a duplicate-free sequence whose elements are exactly the live ids, in no particular order. |
| `SubscriptionRegistry.SubscriptionState.SubscriptionExists` | client/src/subscription_state.rs:32-34 | True exactly when `Get` finds the id. |
| `SubscriptionRegistry.SubscriptionState.Get` | client/src/subscription_state.rs:36-38 | Returns the subscription stored under the id, or None when the id is not a key. In a registry that keeps each subscription under its own id, the subscription found carries the id asked for. |
| `SubscriptionRegistry.SubscriptionState.AddSubscription` | client/src/subscription_state.rs:40-42 | The new map is the old one with the subscription under its own id, silently overwriting. Afterwards the id exists. |
| `SubscriptionRegistry.SubscriptionState.ModifySubscription` | client/src/subscription_state.rs:44-52 | On an unknown id nothing changes. On a known id exactly the five settings are set. The rest of that subscription, the key set and every other subscription are unchanged. |
| `SubscriptionRegistry.SubscriptionState.DeleteSubscription` | client/src/subscription_state.rs:54-56 | Returns the old entry, or None when the id was absent. Afterwards the id does not exist and every other entry is unchanged. |
| `SubscriptionRegistry.SubscriptionState.SetPublishingMode` | client/src/subscription_state.rs:58-64 | Every live listed id gets the flag set. Unknown ids are skipped. Unlisted subscriptions and the key set are unchanged. |
| `SubscriptionRegistry.SubscriptionState.SubscriptionDataChange` | client/src/subscription_state.rs:66-70 | On an unknown id nothing changes. Otherwise only that subscription is replaced, by its reaction to the notifications. The key set is unchanged. |
| `SubscriptionRegistry.SubscriptionState.InsertMonitoredItems` | client/src/subscription_state.rs:72-76 | The same as the data change, for the items to create. |
| `SubscriptionRegistry.SubscriptionState.ModifyMonitoredItems` | client/src/subscription_state.rs:78-82 | The same as the data change, for the items to modify. |
| `SubscriptionRegistry.SubscriptionState.DeleteMonitoredItems` | client/src/subscription_state.rs:84-88 | The same as the data change, for the item ids to delete. |
| `MessageDispatch.Route` | server/src/message_handler.rs:42-61 | Exactly the kinds outside the five matched requests have no route. A routed message goes to discovery exactly when it is GetEndpoints, and to view exactly when it is Browse. |
| `MessageDispatch.Dispatch` | server/src/message_handler.rs:42-63 | A routed kind yields exactly the outcome of the operation the routing table names, with the service's error returned untranslated and its response unchanged. Any other kind yields Err(BadServiceUnsupported) with both states untouched. |
| `MessageDispatch.RoutingIsTotalAndExclusive` | server/src/message_handler.rs:42-61 | Every message has exactly one route: GetEndpoints goes to discovery; CreateSession, CloseSession and ActivateSession go to the session service; Browse goes to view; every other kind goes nowhere. |
| `MessageDispatch.MessageHandler.constructor` | server/src/message_handler.rs:27-35 | The handler holds the given states and services. |
| `MessageDispatch.MessageHandler.HandleMessage` | server/src/message_handler.rs:37-64 | The handler's result and new states are those of `Dispatch`. An unsupported kind fails with BadServiceUnsupported and leaves the server and session state unchanged. |

## Left out

- `Config::load` (file reading and YAML deserialisation) is I/O and is not modelled.
- The `println!` and `debug!` output is left out; it does not affect any result. So the model cannot tell whether `Config::valid` stops at the first failing check. `Config.Valid` makes every check, as the source does.
- `Table::table_from_number` and the `Table` enum are not part of this model. The lookup is a parameter, and `Table` has only the four variants the validator matches on.
- `Config.Valid`, `CheckAlias`, `ValidIffWindowBelowLimit`: the main model adds u16 values over int. Rust's overflow at lines 75, 83 and 173 appears only in the `AsWritten` members. Those members model a build without overflow checks (the sum wraps). A build with overflow checks panics instead, at any of the three lines; the model does not capture the panic. With overflow checks, the panic at line 83 can happen only for a window whose base is at least 9998, which line 75 rejects; `Config::valid` still runs the per-alias checks after such a window fails.
- The `Arc<Mutex<SessionState>>` lock is left out because it is concurrency. The session state is a plain field of the handler.
- `MessageHandler.constructor` takes the services as arguments. It does not model `ServerState::clone`, `Arc::clone` or the services' `new`.
- The bodies of the discovery, session and view services are not shown, nor are the contents of the server and session state. The other variants of `SupportedMessage` are collapsed into `OtherMessage`.
- A subscription's internals (monitored items, notification queue, setters) are not shown. `publishing_interval` is kept as an f64 bit pattern and never computed with.
- The publish-timer, keep-alive and lifetime state machine, sequence numbering, republish and priority ordering are not in the files modelled. So they are not modelled either.
- `HashMap` iteration order is not modelled: `SubscriptionIds` returns the keys in an order the model leaves open.
- `SubscriptionDataChange`, `InsertMonitoredItems`, `ModifyMonitoredItems`, `DeleteMonitoredItems`: the methods keep each subscription stored under its own id (`KeyedById`) only when the subscription's reaction keeps its id. The reaction is not part of this model. The other mutating methods keep it unconditionally.
- The dispatcher routes only the five kinds the code matches. OPC UA's subscription and monitored-item requests are not among the kinds the code matches, so they get BadServiceUnsupported here, as in the code.

## Findings

| source | as written | input that shows it | evidently intended | confidence | as-written member | corrected member |
|---|---|---|---|---|---|---|
| samples/modbus-server/src/config.rs:75 | `base_address + count` is a u16 sum: without overflow checks it wraps, with them it panics. | base_address 1, count 65535: without checks the sum wraps to 0 and `valid()` returns true; with checks it panics. | Reject every window whose end passes 9999. | not executed | `ModbusConfig.ValidAsWrittenAcceptsWrappedWindow` | `ModbusConfig.ValidIffWindowBelowLimit` |
| samples/modbus-server/src/config.rs:173 | `number + cnt` is a u16 sum: without overflow checks it wraps, with them it panics. | An alias with number 65534 and type Double in a register table: without checks the end wraps to 2 and passes `end > max`; with checks it panics. | Reject an alias whose registers pass the table maximum. | not executed; whether such an alias is also caught by the address check depends on `Table::table_from_number`, which is not part of this model | `ModbusConfig.RegisterEndAsWrittenMissesWrap` | `ModbusConfig.RegisterEndOkIffAsWrittenWithoutWrap` |
