# BTCPay app core, modelled in Dafny

This project models the stateful core of the BTCPay Server mobile/desktop app, in five parts:

- **The Lightning node supervisor (`LDKNode`).**
  - A one-shot start gate (`_started`) over the scoped hosted services, and the stop path.
  - The channel-monitor promise `icm`, resolved by state recovery.
  - The persisted engine blobs: channel manager, network graph and scorer.
  - The payments table: upsert, and reconciliation of success/failure notifications.
  - The pass-through calls to the on-chain wallet (`DeriveScript`) and the server hub (`TrackScripts`).
- **The configuration lifecycle manager (`BTCPayAppConfigManager`)** and the connection supervisor (`BTCPayConnection`).
  - The manager keeps two cached documents (pairing and wallet) with their load signals and the combined `Loaded` barrier.
  - `UpdateConfig` persists, then assigns the cache, then fires the event.
  - The supervisor makes a connect-or-kill decision on every pairing change.
- **The indexed secure key-value store (`MauiEssentialsSecureConfigProvider`).**
  - It stores JSON text in the platform's secure storage.
  - It keeps an index of live keys under "SecureConfigProviderIndex".
- **The plain secure key-value store (`XamarinEssentialsSecureConfigProvider`).**
- **The authentication state provider (`AuthStateProvider`).**
  - Loads the persisted account once.
  - Gives the HTTP client access when both tokens are present.
  - Fetches the user's info and builds the principal's claims.
  - Handles logout, sign-in, token refresh and the password-reset endpoint choice.

Each source file that changes state is a Dafny `class`, and its async methods are methods that change the class's fields. A pure function states each operation's whole effect. Each method's `ensures` ties the new state to that function of the old state, and lemmas prove what the source promises about those functions.

Concurrency is modelled as interleaving. Every call is one atomic step on the object, and concurrent callers become a sequence of calls. The start gate's interleavings are `StartGate.Replay` over a list of start and stop requests.

Outside inputs become parameters:
- which services throw;
- whether a store write succeeds;
- the HTTP client's responses;
- the engine's monitor-recovery function;
- the wallet's script derivation;
- the JSON codec.

Modules, one per file:

| file | module | source |
|---|---|---|
| wrappers.dfy | `Wrappers` | Option / Result / Outcome |
| hex.dfy | `Hex` | lower-case hex text of script bytes and its decoding |
| start_gate.dfy | `StartGate` | the start/stop gate of `LDKNode` as a step function |
| payment_ledger.dfy | `PaymentLedger` | the payments table and notification reconciliation |
| configs.dfy | `Configs` | pairing and wallet configuration documents |
| lightning_node.dfy | `LightningNode` | `LDKNode` |
| config_manager.dfy | `ConfigManager` | `BTCPayAppConfigManager`, `BTCPayConnection` |
| secure_storage.dfy | `SecureStorage` | the platform store, the JSON codec, the shared read |
| plain_secure_store.dfy | `PlainSecureStore` | `XamarinEssentialsSecureConfigProvider` |
| indexed_secure_store.dfy | `IndexedSecureStore` | `MauiEssentialsSecureConfigProvider` |
| auth_state.dfy | `AuthState` | `AuthStateProvider` |

## Notes on the source

Behaviour of the code that a reader might not expect; the model follows the code.

- **LDKNode.cs:190-203: `GetSerializedChannelManager` never takes its first-run branch.**
  - LDKNode.cs:168-171 coalesces a missing channel-manager entry to an empty array, so the `data is null` test at LDKNode.cs:195 is never true.
  - The branch at LDKNode.cs:195-199 (resolve `icm` with no monitors and return null) is therefore dead. In the model it is an `assert false` branch that verifies.
  - Every call goes on to recovery (LDKNode.cs:201). A second call asks the engine to rebuild the monitors again and then throws when it resolves `icm` a second time (LDKNode.cs:164); `LightningNode.RecoveryResolvesOnce` counts the two engine runs.
- **LDKNode.cs:82-103: `StopAsync` stops services in enumeration order**, the same order as `StartAsync` (LDKNode.cs:73-76), not the reverse.
- **LDKNode.cs:210-215: `TrackScripts` reads the lightning-scripts derivation's identifier (line 212) and then does not use it.**
  - The read still throws when the wallet configuration is null or lacks that derivation.
  - The request sent at line 214 carries the derivation purpose, not the identifier.
- **LDKNode.cs:139-149: `PaymentUpdate` saves even when it ignores a stale failure.** Only a missing row skips the save.

## Model

| member | source | states |
|---|---|---|
| StartGate.FirstFailure | BTCPayApp.Core/Attempt2/LDKNode.cs:73-76 | the services before the returned index do not throw, and the service at that index (if any) does: the loop stops at the first exception |
| StartGate.Called | BTCPayApp.Core/Attempt2/LDKNode.cs:73-76 | the services called are a prefix of the list: all of them when none throws, otherwise exactly those up to and including the first that throws |
| StartGate.StartStep | BTCPayApp.Core/Attempt2/LDKNode.cs:49-80 | a caller that finds `_started` set changes nothing and only waits (joined iff completed); the creator starts the services in order and completes the gate, reporting that all ran, iff every service started; when one throws, the outcome names the first throwing service, the gate stays created-but-incomplete and the starts end at that service |
| StartGate.StopStep | BTCPayApp.Core/Attempt2/LDKNode.cs:82-103 | never changes the gate; does nothing iff the gate was never created; otherwise stops the services in order up to the first that throws, reports all stopped iff none throws, and otherwise names the first throwing service as the exception that reaches the caller |
| StartGate.ApplyKeepsStartedOnce | BTCPayApp.Core/Attempt2/LDKNode.cs:51-67 | one start or stop call keeps the invariant: no start before the gate exists, and the services started are a prefix of the service list |
| StartGate.ServicesStartedOnce | BTCPayApp.Core/Attempt2/LDKNode.cs:51-79 | under any interleaving of start and stop calls, each service's start is called at most once, in list order: only the first caller runs the loop |
| StartGate.GateIsFinal | BTCPayApp.Core/Attempt2/LDKNode.cs:54-103 | once created, `_started` never changes under any sequence of calls: stop does not reset it, and a gate left incomplete by a throwing service is never completed (no retry path) |
| StartGate.StartAfterFailureWaits | BTCPayApp.Core/Attempt2/LDKNode.cs:63-79 | after a start whose service threw, every later start, after any calls in between, only waits on the incomplete signal |
| LightningNode.LdkNode.StartAsync | BTCPayApp.Core/Attempt2/LDKNode.cs:49-80 | the loop over the services yields exactly `StartStep`'s new gate, service calls and outcome |
| LightningNode.LdkNode.StopAsync | BTCPayApp.Core/Attempt2/LDKNode.cs:82-103 | the loop over the services yields exactly `StopStep`'s service calls and outcome; `_started` is not modified |
| LightningNode.LdkNode.DisposeAsync | BTCPayApp.Core/Attempt2/LDKNode.cs:105-110 | disposal is a stop |
| LightningNode.SetResult | BTCPayApp.Core/Attempt2/LDKNode.cs:115-166 | a completion source resolves iff it was unresolved, to the given value; otherwise the call throws InvalidOperation |
| LightningNode.LdkNode.InitialChannelMonitors | BTCPayApp.Core/Attempt2/LDKNode.cs:117-120 | the monitors are available iff `icm` was resolved, and are the value it was resolved with |
| LightningNode.ChannelBlobs | BTCPayApp.Core/Attempt2/LDKNode.cs:160-161 | the data handed to recovery is each persisted channel's stored setting value, one per channel, in the order the query yields them |
| LightningNode.LdkNode.RecoverChannelMonitors | BTCPayApp.Core/Attempt2/LDKNode.cs:155-166 | the engine is run once on the channel blobs; when it throws, so does the call and `icm` is untouched; otherwise, on an unresolved `icm`, returns the recovered monitors and resolves `icm` with them, and on a resolved one throws InvalidOperation and leaves `icm` as it was |
| LightningNode.LdkNode.GetRawChannelManager | BTCPayApp.Core/Attempt2/LDKNode.cs:168-171 | never null: the stored channel-manager blob, or the empty array when none is stored |
| LightningNode.LdkNode.UpdateChannelManager | BTCPayApp.Core/Attempt2/LDKNode.cs:173-176 | the serialized state is stored under "ChannelManager" and no other entry changes |
| LightningNode.LdkNode.UpdateNetworkGraph | BTCPayApp.Core/Attempt2/LDKNode.cs:179-182 | the serialized graph is stored under "NetworkGraph" and no other entry changes |
| LightningNode.LdkNode.UpdateScore | BTCPayApp.Core/Attempt2/LDKNode.cs:184-187 | the serialized scorer is stored under "Score" and no other entry changes |
| LightningNode.LdkNode.GetSerializedChannelManager | BTCPayApp.Core/Attempt2/LDKNode.cs:190-203 | the null branch cannot run, so every call runs recovery once; with `icm` unresolved and the engine succeeding it returns a non-null pair of the raw blob and the recovered monitors and resolves `icm`; an engine failure throws and leaves `icm` as it was; with `icm` resolved it throws InvalidOperation |
| LightningNode.RecoveryResolvesOnce | BTCPayApp.Core/Attempt2/LDKNode.cs:190-203 | two calls run the engine twice; the first returns a pair iff the engine succeeds, and then the second throws (InvalidOperation when the engine succeeds again) and the initial monitors stay those of the first |
| LightningNode.LdkNode.Payment | BTCPayApp.Core/Attempt2/LDKNode.cs:122-126 | the table afterwards is the upsert of the row under its (hash, direction) key, and every row stays under its own key |
| LightningNode.LdkNode.PaymentUpdate | BTCPayApp.Core/Attempt2/LDKNode.cs:128-151 | when no row matches the hash, direction and payment id, nothing changes and nothing is saved; otherwise only the matching row changes, to its reconciliation with the notification, and the changes are saved once |
| LightningNode.LdkNode.DeriveScript | BTCPayApp.Core/Attempt2/LDKNode.cs:205-208 | the script is the wallet's native-segwit derivation |
| LightningNode.TrackScripts | BTCPayApp.Core/Attempt2/LDKNode.cs:210-215 | throws NullReference without a wallet config and KeyNotFound without a lightning-scripts derivation, succeeds otherwise; the request carries that purpose and one hex text per script, in order, each decoding back to its script |
| LightningNode.HexAll | BTCPayApp.Core/Attempt2/LDKNode.cs:214 | one hex text per script, and each decodes back to the script at the same position |
| Hex.ToHex | BTCPayApp.Core/Attempt2/LDKNode.cs:214 | two hex digits per byte, every character a lower-case hex digit |
| Hex.FromHexToHex | BTCPayApp.Core/Attempt2/LDKNode.cs:214 | decoding the hex text of any byte string gives that byte string back |
| Hex.ToHexInjective | BTCPayApp.Core/Attempt2/LDKNode.cs:214 | distinct scripts have distinct hex texts |
| PaymentLedger.Reconcile | BTCPayApp.Core/Attempt2/LDKNode.cs:139-147 | a failure on a complete payment leaves the row unchanged; otherwise the status becomes Failed or Complete as notified and the preimage is written only when the row has none; the key, id, secret, time and value never change |
| PaymentLedger.CompleteIsTerminal | BTCPayApp.Core/Attempt2/LDKNode.cs:139-145 | no sequence of notifications moves a complete payment out of Complete |
| PaymentLedger.PreimageWrittenOnce | BTCPayApp.Core/Attempt2/LDKNode.cs:146 | once a preimage is recorded, no sequence of notifications changes it |
| PaymentLedger.FirstPreimageWins | BTCPayApp.Core/Attempt2/LDKNode.cs:146 | of two notifications carrying preimages for a pending payment, the first preimage is kept |
| PaymentLedger.Upsert | BTCPayApp.Core/Migrations/20240502121610_Init.Designer.cs:67 | the row is stored under its (hash, direction) key, replacing any row with that key, and every other row is kept; a well-keyed table stays well-keyed |
| PaymentLedger.Find | BTCPayApp.Core/Attempt2/LDKNode.cs:132-136 | a row is found iff one is stored under (hash, direction) with the same payment id, and it is that row |
| PaymentLedger.FindIsQuery | BTCPayApp.Core/Attempt2/LDKNode.cs:132-136 | on a table whose rows are under their own keys, the lookup finds a row iff some row has the hash, direction and payment id asked for, and any such row is the one found, so the single-row query never sees two |
| PaymentLedger.FindAfterUpsert | BTCPayApp.Core/Attempt2/LDKNode.cs:122-137 | a payment just upserted is found by its own hash, direction and id |
| ConfigManager.Decide | BTCPayApp.Core/BTCPayAppConfigManager.cs:23-29 | StartOrReplace iff the config, its instance URI and its pairing key are all present; Kill iff any is missing; exactly one of the two |
| ConfigManager.ClearingPairingKills | BTCPayApp.Core/BTCPayAppConfigManager.cs:25-28 | clearing the instance URI or the key of a connecting config, or clearing the config, makes the decision Kill |
| ConfigManager.BtcPayConnection.OnPairConfigUpdated | BTCPayApp.Core/BTCPayAppConfigManager.cs:23-29 | each notification makes exactly one session call, the one `Decide` picks |
| ConfigManager.BtcPayConnection.StartAsync | BTCPayApp.Core/BTCPayAppConfigManager.cs:16-21 | the supervisor's handler is appended to the pairing event's handlers |
| ConfigManager.BtcPayConnection.StopAsync | BTCPayApp.Core/BTCPayAppConfigManager.cs:46-51 | the last occurrence of the supervisor's handler is removed |
| ConfigManager.LastIndex | BTCPayApp.Core/BTCPayAppConfigManager.cs:49 | the position of the handler's last occurrence: it is there, and not after it |
| ConfigManager.RemoveLast | BTCPayApp.Core/BTCPayAppConfigManager.cs:49 | removing a handler drops exactly its last occurrence, keeping the others in order, when present, and changes nothing otherwise |
| ConfigManager.Dispatch | BTCPayApp.Core/BTCPayAppConfigManager.cs:86 | one firing of the pairing event makes one session call per attached supervisor handler, in attachment order |
| ConfigManager.DispatchCalls | BTCPayApp.Core/BTCPayAppConfigManager.cs:86 | firing the pairing event makes one session call per attached supervisor handler, each being `Decide` of the fired value |
| ConfigManager.SubscribedSupervisorDecides | BTCPayApp.Core/BTCPayAppConfigManager.cs:16-29 | a supervisor handler attached last adds its own decision after the calls of the handlers before it |
| ConfigManager.ClearedPairingKillsSession | BTCPayApp.Core/BTCPayAppConfigManager.cs:16-104 | after the supervisor starts, an update to a pairing without a key runs its handler, which makes exactly one call, Kill |
| ConfigManager.UnsubscribeUndoesSubscribe | BTCPayApp.Core/BTCPayAppConfigManager.cs:16-51 | unsubscribing right after subscribing restores the handler list |
| ConfigManager.ReadPair | BTCPayApp.Core/BTCPayAppConfigManager.cs:85 | the pairing document stored under "pairconfig", or null |
| ConfigManager.ReadWallet | BTCPayApp.Core/BTCPayAppConfigManager.cs:91 | the wallet document stored under "walletconfig", or null |
| ConfigManager.Put | BTCPayApp.Core/BTCPayAppConfigManager.cs:97-112 | a null value deletes the key, any other replaces it; no other key changes |
| ConfigManager.SameConfig | BTCPayApp.Core/BTCPayAppConfigManager.cs:97-112 | two nulls are equal, null and non-null are not, two values are equal iff the type's equality says so |
| ConfigManager.AppConfigManager.LoadPairConfig | BTCPayApp.Core/BTCPayAppConfigManager.cs:83-88 | the cache becomes the stored pairing document (null included), the event fires with it and its handlers run, and only then the load signal completes (once) |
| ConfigManager.AppConfigManager.LoadWalletConfig | BTCPayApp.Core/BTCPayAppConfigManager.cs:89-94 | the same for the wallet document under "walletconfig" |
| ConfigManager.AppConfigManager.AwaitLoaded | BTCPayApp.Core/BTCPayAppConfigManager.cs:74-78 | the waiter proceeds iff both load signals are complete, and then completes `Loaded` at most once, only when both load signals already appear in the effects |
| ConfigManager.AppConfigManager.StartAsync | BTCPayApp.Core/BTCPayAppConfigManager.cs:69-81 | after both loads and the waiter, both caches hold the stored documents and all three signals are complete, whether or not the documents are null |
| ConfigManager.AppConfigManager.UpdatePairConfig | BTCPayApp.Core/BTCPayAppConfigManager.cs:97-104 | a value equal to the cache changes nothing and fires nothing; otherwise "pairconfig" is written, then the cache is assigned, then the event fires with the new value and its handlers run; a failing write leaves everything as it was; the wallet state is untouched |
| ConfigManager.AppConfigManager.CommitPair | BTCPayApp.Core/BTCPayAppConfigManager.cs:101-103 | the write under "pairconfig", the cache assignment, the event with the new value and its handlers' session calls, in that order |
| ConfigManager.AppConfigManager.UpdateWalletConfig | BTCPayApp.Core/BTCPayAppConfigManager.cs:105-112 | the same for "walletconfig" and the wallet cache; the pairing state is untouched |
| ConfigManager.RepeatedPairUpdate | BTCPayApp.Core/BTCPayAppConfigManager.cs:97-104 | updating twice with the same value writes and fires at most once |
| ConfigManager.AppConfigManager.StopAsync | BTCPayApp.Core/BTCPayAppConfigManager.cs:117-120 | the manager's state is unchanged |
| SecureStorage.Read | BTCPayApp.Maui/Services/MauiEssentialsSecureConfigProvider.cs:8-12 | a missing or empty entry reads as the default; any other entry is its deserialized text |
| SecureStorage.Serialized | Comrade.Maui/Services/XamarinEssentialsSecureConfigProvider.cs:14-24 | a null value has no text; any other value's text is its serialization |
| SecureStorage.Write | Comrade.Maui/Services/XamarinEssentialsSecureConfigProvider.cs:14-24 | null text removes the key, other text replaces it; no other key changes |
| SecureStorage.ReadAfterWrite | Comrade.Maui/Services/XamarinEssentialsSecureConfigProvider.cs:8-24 | a value written reads back as itself when its text round-trips and is not empty |
| SecureStorage.ReadAfterRemove | Comrade.Maui/Services/XamarinEssentialsSecureConfigProvider.cs:8-19 | a key set to null reads back as absent |
| SecureStorage.ReadOtherKey | Comrade.Maui/Services/XamarinEssentialsSecureConfigProvider.cs:14-24 | writing one key leaves what every other key reads unchanged |
| PlainSecureStore.XamarinEssentialsSecureConfigProvider.Get | Comrade.Maui/Services/XamarinEssentialsSecureConfigProvider.cs:8-12 | the default for a missing or empty entry, the deserialized text otherwise |
| PlainSecureStore.XamarinEssentialsSecureConfigProvider.Set | Comrade.Maui/Services/XamarinEssentialsSecureConfigProvider.cs:14-24 | null removes the key; a value is stored serialized under it; every other key is unchanged |
| PlainSecureStore.SetThenGet | Comrade.Maui/Services/XamarinEssentialsSecureConfigProvider.cs:8-24 | Set then Get returns the value set (null included), given a round-tripping codec with non-empty text |
| IndexedSecureStore.Keep | BTCPayApp.Maui/Services/MauiEssentialsSecureConfigProvider.cs:22 | the `Where` filter keeps exactly the elements satisfying the predicate |
| IndexedSecureStore.KeepNoDuplicates | BTCPayApp.Maui/Services/MauiEssentialsSecureConfigProvider.cs:22 | filtering an index without duplicates gives one without duplicates |
| IndexedSecureStore.Without | BTCPayApp.Maui/Services/MauiEssentialsSecureConfigProvider.cs:22 | the removed key is gone and every other key is in the result iff it was in the index |
| IndexedSecureStore.KeepAppend | BTCPayApp.Maui/Services/MauiEssentialsSecureConfigProvider.cs:22 | filtering distributes over concatenation, so removal keeps the relative order of the other keys |
| IndexedSecureStore.WithPrefix | BTCPayApp.Maui/Services/MauiEssentialsSecureConfigProvider.cs:50-54 | exactly the index entries starting with the prefix |
| IndexedSecureStore.WithPrefixKeepsOrder | BTCPayApp.Maui/Services/MauiEssentialsSecureConfigProvider.cs:53 | the listing of a concatenation is the concatenation of the listings: index order is kept |
| IndexedSecureStore.IndexIn | BTCPayApp.Maui/Services/MauiEssentialsSecureConfigProvider.cs:37-41 | a missing or empty index entry reads as the empty array; any other is deserialized |
| IndexedSecureStore.AfterSet | BTCPayApp.Maui/Services/MauiEssentialsSecureConfigProvider.cs:14-35 | for a key other than the index key: null removes it and a value stores its text; every other live key is unchanged; the index entry becomes the index without the key when a listed key is removed, the index with the key appended when an unlisted key is set, and is unchanged otherwise |
| IndexedSecureStore.SetKeepsIndexMatching | BTCPayApp.Maui/Services/MauiEssentialsSecureConfigProvider.cs:14-35 | for any key other than the index key, if the index lists exactly the live keys without duplicates before a Set, it still does after |
| IndexedSecureStore.MauiEssentialsSecureConfigProvider.Get | BTCPayApp.Maui/Services/MauiEssentialsSecureConfigProvider.cs:8-12 | the default for a missing or empty entry, the deserialized text otherwise |
| IndexedSecureStore.MauiEssentialsSecureConfigProvider.GetIndex | BTCPayApp.Maui/Services/MauiEssentialsSecureConfigProvider.cs:37-41 | the empty array for a missing or empty index entry, the deserialized index otherwise |
| IndexedSecureStore.MauiEssentialsSecureConfigProvider.SetIndex | BTCPayApp.Maui/Services/MauiEssentialsSecureConfigProvider.cs:43-46 | the serialized index is stored under the index key and reads back as the index written |
| IndexedSecureStore.MauiEssentialsSecureConfigProvider.Set | BTCPayApp.Maui/Services/MauiEssentialsSecureConfigProvider.cs:14-35 | null removes the key and filters it out of the index (rewritten only if it was listed); a value is stored serialized and its key appended last only if absent; other keys are unchanged; the index keeps matching the live keys |
| IndexedSecureStore.MauiEssentialsSecureConfigProvider.List | BTCPayApp.Maui/Services/MauiEssentialsSecureConfigProvider.cs:50-54 | exactly the index entries that start with the prefix |
| AuthState.AccessFor | BTCPayApp.UI/Auth/AuthStateProvider.cs:48-51 | client access is set iff both tokens are non-empty, with the stored tokens and the expiry or its default; it is cleared otherwise |
| AuthState.ClearedAccountGivesNoAccess | BTCPayApp.UI/Auth/AuthStateProvider.cs:48-91 | an account persisted by logout gives no client access when loaded again |
| AuthState.RoleClaims | BTCPayApp.UI/Auth/AuthStateProvider.cs:72-73 | one claim of the role claim type per role, carrying that role, in order |
| AuthState.ClaimsFor | BTCPayApp.UI/Auth/AuthStateProvider.cs:66-73 | three fixed claims plus one per role |
| AuthState.ClaimsCarryUser | BTCPayApp.UI/Auth/AuthStateProvider.cs:66-73 | the claims are user id, user name (the email), email, then the role claims, whose values are exactly the user's roles in order when the role claim type is distinct |
| AuthState.PrincipalFor | BTCPayApp.UI/Auth/AuthStateProvider.cs:42-77 | authenticated iff user info is known, then with the user's claims and the provider's authentication type |
| AuthState.Refresh | BTCPayApp.UI/Auth/AuthStateProvider.cs:44-62 | after a refresh the account is never loaded again; an initialized provider or one with an account keeps its account, access and flag; with an account and no user info, one user-info request is sent and user info becomes the response (still null when the fetch failed); otherwise user info and requests are unchanged; the persisted account is not changed |
| AuthState.AccountLoadedOnce | BTCPayApp.UI/Auth/AuthStateProvider.cs:45-53 | a second refresh keeps the account, the client access and the initialized flag that the first one left |
| AuthState.RefreshLoadsStoredAccount | BTCPayApp.UI/Auth/AuthStateProvider.cs:45-53 | an uninitialized provider without an account loads the persisted account and sets client access from it |
| AuthState.UserInfoFetchedWhenMissing | BTCPayApp.UI/Auth/AuthStateProvider.cs:55-62 | user info is requested iff there is an account and no user info, and then it becomes the response, so a failed fetch leaves it null; known user info is kept |
| AuthState.SignedIn | BTCPayApp.UI/Auth/AuthStateProvider.cs:96-103 | the account is adopted and persisted, client access holds its tokens and expiry (0 when absent), and user info, requests and the initialized flag are unchanged |
| AuthState.SignInSticks | BTCPayApp.UI/Auth/AuthStateProvider.cs:96-103 | after sign-in the refresh keeps the new account, which is persisted, and client access holds its tokens |
| AuthState.LoggedOut | BTCPayApp.UI/Auth/AuthStateProvider.cs:86-91 | user info is cleared; the account becomes the same account with its tokens and expiry cleared (server and email kept) and is persisted; client access is cleared; requests and the initialized flag are unchanged |
| AuthState.ResetPath | BTCPayApp.UI/Auth/AuthStateProvider.cs:137-147 | "forgot-password" iff both the reset code and the new password are empty or null, "reset-password" otherwise |
| AuthState.AuthStateProvider.GetAuthenticationStateAsync | BTCPayApp.UI/Auth/AuthStateProvider.cs:39-78 | the provider's new state is `Refresh` of the old one, and the principal is built from the user info |
| AuthState.AuthStateProvider.CheckAuthenticated | BTCPayApp.UI/Auth/AuthStateProvider.cs:80-84 | refreshes, then answers true iff user info is known |
| AuthState.AuthStateProvider.Logout | BTCPayApp.UI/Auth/AuthStateProvider.cs:86-94 | without an account only the user info is cleared and the call throws; otherwise the state is the refresh of the logged-out state |
| AuthState.AuthStateProvider.SetAccount | BTCPayApp.UI/Auth/AuthStateProvider.cs:96-103 | the state is the refresh of the signed-in state: account adopted and persisted, client access set from its tokens |
| AuthState.AuthStateProvider.Login | BTCPayApp.UI/Auth/AuthStateProvider.cs:112-133 | a client error gives a failed result and changes nothing but the request log; success signs in with a new account for the server and email holding the returned tokens |
| AuthState.AuthStateProvider.OnAccessRefresh | BTCPayApp.UI/Auth/AuthStateProvider.cs:105-110 | without an account nothing changes; otherwise the account takes the new tokens and expiry and is persisted |
| AuthState.AuthStateProvider.ResetPassword | BTCPayApp.UI/Auth/AuthStateProvider.cs:135-155 | one post to the path `ResetPath` picks, with null code and password sent as empty strings; a client error gives a failed result with its message |

## Left out

- Concurrency.
  - The static semaphore around `_started`, `Task.Run`, fire-and-forget tasks and cancellation tokens are not modelled.
  - Each call is one atomic step, so interleavings inside a call are not captured.
  - That the semaphore is shared across node instances is not captured either.
- Logging is not modelled.
- The scoped services are identified by number. Whether one throws is an input (`failing`). The container is assumed to enumerate them in the same order every time.
- `ChannelManagerHelper.GetInitialMonitors` is an input function (`recover`), which gives None where the engine throws. The engine's `write()` serializers and the entropy and signer sources are abstract too: the model stores the bytes it is given.
- The database context and its queries, `SaveChangesAsync` and EF's upsert are not modelled. The table is a map keyed by (hash, direction), and a save is counted.
- JSON serialization is an abstract codec. Its round-trip is a precondition where a property depends on it.
- The equality behind `config == PairConfig` is a parameter of the manager, because the document types' equality is not part of this model.
- `AppConfigManager.StartAsync`: modelled as the two loads followed by the waiter. Other orders are still reachable by calling `LoadPairConfig`, `LoadWalletConfig` and `AwaitLoaded` separately.
- `ConfigManager.AppConfigManager.LoadPairConfig`, `ConfigManager.AppConfigManager.LoadWalletConfig`: a read or deserialization that throws (BTCPayApp.Core/BTCPayAppConfigManager.cs:85 and :91) is not modelled. In the source it ends that load before its signal completes, so `Loaded` is never completed and the waiter at lines 74-78 waits for ever; the model's reads always succeed, which is why `StartAsync` always ends with all three signals complete.
- `ConfigManager.Subscriber`: the connection supervisor's handler is one value shared by every `BtcPayConnection`. In the source, handlers bound to different connection instances are distinct delegates, so one connection's `StopAsync` only removes its own; the model does not tell connections apart.
- The bodies of `Kill` and `StartOrReplace` are empty in the source. Only the choice between them is modelled.
- Handlers of the pairing event are run through `ConfigManager.Dispatch`, which models the connection supervisor's handler: each attached copy makes its `Decide` call, in attachment order. Handlers of other subscribers, and of the wallet and load events, are not part of this model; the events they would receive are recorded as effects.
- `StartsWith` is modelled as an ordinal prefix test. Culture-sensitive comparison is not modelled.
- The platform secure-storage API is a map from key to text. Its I/O failures are not modelled.
- `LightningNode.TrackScripts`: a failure of the hub call itself (BTCPayApp.Core/Attempt2/LDKNode.cs:214) is not modelled. In the source its exception reaches the caller; the model's "succeeds" means the request is built and sent.
- HTTP client responses are inputs.
  - A failed user-info fetch is `None`.
  - A failing login or reset post is an error message.
  - The client's access state and the requests it sends are recorded.
- `NotifyAuthenticationStateChanged` is modelled as one refresh. The subscribers it notifies are not modelled.
- `ConfigManager.Decide`: assumes a non-null pairing config carries a non-null `PairingResult`. The source reads `e.PairingResult.Key` (BTCPayApp.Core/BTCPayAppConfigManager.cs:25) without a null check, so a config with a null result would throw there; the model has no null result.
- The authentication state's persisted account is stored as the account value itself. The configuration provider's JSON round-trip of the account is not modelled.
- `BTCPayAccount` is not part of this model. `ClearAccess` is taken to null the tokens and expiry, and `SetAccess` to store them.
- `AuthStateProvider.Login`: the account's absolute expiry, which the source derives from the response and the clock, is an input.
- The identity options' claim types are a constructor parameter. `ClaimsPrincipal` and `ClaimsIdentity` are modelled as a claim list and an authentication type.
- The generated native bindings, the database migration (used only for the payment key), the UI middleware, the CLI and its daemon, `LDKChangeDestinationSource` and the route constants are not part of this model.
- `LightningNode.LdkNode.GetRawChannelManager`: reads the channel-manager bytes directly from the settings map. The configuration provider's JSON round-trip of `byte[]` is not modelled.
