# A model of Trustline's messaging core

This project models the parts of Trustline that decide whether a message arrives, once,
to the right device, and under which key. It proves what those parts promise over whole
runs.

| module | what it holds |
|---|---|
| `Prelude`, `KeyTerms` | options and results, 32-bit wrap-around, symbolic keys |
| `Padding`, `Utf8`, `SkipKeyText` | plaintext padding, the text of a plaintext, the text form of a skipped-key entry |
| `Ratchet`, `RatchetObject` | the Double Ratchet session: what each operation does, and the session object whose methods do it |
| `Conversation`, `Opening`, `Preservation`, `Runs` | two sessions and a network, the invariant of every run and its proof |
| `Guarantees`, `Headers`, `Forgetting`, `SelfHealing`, `SkipLimits`, `Confluence` | what every run gives: delivery, under which headers, exactly once, no key reuse, lockstep, the store, forgotten keys, recovery after exposure, bounds, any order |
| `X3dh` | key agreement and the first ratchet message |
| `InboundQueue`, `QueueFollowsRun` | the desktop client's per-conversation promise chains, and what they give of the packets of a run |
| `QueryAnswers`, `History`, `ChatLog`, `ReplayEqualsLive`, `RepeatedIds` | what an ordered query may answer; the open conversation, live and rebuilt from the vault, also when ids repeat |
| `RateLimiter` | the sliding window of the authentication endpoints |
| `Traces` | what happened in the first steps of a run: ever, since, and gathered in order |
| `Delivery`, `DeliveryObject`, `DeliveryHistory` | the relay's send and connect steps, interleaved, the tables they change in place, and each table read off the steps |
| `Server`, `ServerInvariant`, `ServerGuarantees`, `KeyLedger`, `ServerObject` | the backend's tables and handlers: tenancy, receipts, revocation, one-time keys |
| `ServerHistory`, `SessionHistory`, `MessageHistory` | each of those tables read off the steps of a run: exactly which steps put an entry there and which took it away |

How the model stands for the code:

- **Keys are terms.** KDF_RK, KDF_CK, the X3DH derivation and the AEAD derivation are
  constructors, so they are injective and never collide; a Diffie-Hellman output is the
  unordered pair of its private keys' names; the AEAD opens exactly what was sealed under
  the same key, nonce and associated data. Key generation takes the next unused name.
- **32-bit counters wrap**, as in a release build; `Add32` is the wrapping sum.
- **A run of two sessions** is a sequence of `ratchet_encrypt` and `ratchet_decrypt`
  commands: load the session, run, save only on success. The network may reorder, drop,
  duplicate and reflect packets and never forges one. Associated data is arbitrary per
  call, and delivery asks for the sealed one.
- **Update in place is kept** where the source has it: `RatchetSession`, `Inbox`,
  `OpenChat`, `Limiter`, `Hub` and `Instance` are classes with the source's loops. Each of
  their methods is proved to compute the step function that the theorems speak of.
- **The backend's handlers** are single steps in `Server` (transactions and their registry
  update together). In `Delivery` the points where sends and connects may interleave are
  steps of their own.

Where code and comments disagree the model follows the code. Four results say where a
promise stops. Reloading a conversation shows what was on screen, whatever its queries
answer, exactly when no text repeated an id, texts came in order of distinct times, no
overtaking event leaves a mark, and rows stored at one time agree
(`RepeatedIds.ReplayOfAnyLog`). A live
socket is reached exactly while it is its device's registered one
(`Delivery.ReachedExactly`). A stored message is missing from a settled device's channel
exactly when its send was aborted at the insert and the pending query of the device's
present socket did not return it (`Delivery.NoMissedMessage`). Next-in-order packets are accepted
exactly up to the counter value where `recv_count + MAX_SKIP` wraps
(`SkipLimits.NextInOrderAccepted`).

## Model

| member | source | states |
|---|---|---|
| Padding.UnpadPad | crates/crypto_core/src/ratchet.rs:434-456 | unpadding a padded plaintext gives it back, for every byte string |
| Padding.PadLength | crates/crypto_core/src/ratchet.rs:434-440 | a padded plaintext has 32 * (len / 32 + 1) bytes |
| Padding.UnpadAccepts | crates/crypto_core/src/ratchet.rs:443-456 | unpad accepts exactly a plaintext followed by n copies of n, 1 to 32, and returns that plaintext |
| Padding.PadUnpad | crates/crypto_core/src/ratchet.rs:434-456 | of the accepted inputs, exactly those of whole blocks are the padding of their plaintext |
| SkipKeyText.SkipMapKeyInjective | crates/crypto_core/src/ratchet.rs:413-415 | two 32-byte keys and counters share a store entry only when both agree |
| Ratchet.SkippedRangeHolds | crates/crypto_core/src/ratchet.rs:334-341 | the keys a skip stores: exactly the positions passed, each with the chain key advanced that far |
| Ratchet.OpenSealed | crates/crypto_core/src/ratchet.rs:142-151 | a sealed plaintext opens under its own message key and associated data and no other |
| RatchetObject.RatchetSession.SkipUntil | crates/crypto_core/src/ratchet.rs:330-345 | the loop leaves the session of the closed form: chain advanced, counter at `until`, one stored key per position; a refused skip changes nothing |
| RatchetObject.RatchetSession.RatchetDh | crates/crypto_core/src/ratchet.rs:348-374 | the whole session after a DH step, and what a missing key pair or low-order key leaves behind |
| RatchetObject.RatchetSession.Encrypt | crates/crypto_core/src/ratchet.rs:256-281 | the whole session and the sealed header and body after encrypting, or the refusal that changes nothing |
| RatchetObject.RatchetSession.Decrypt | crates/crypto_core/src/ratchet.rs:288-324 | the whole session and the result on every branch, failures with the changes they leave |
| RatchetObject.RatchetEncryptCommand | apps/desktop/src-tauri/src/lib.rs:412-426 | a new session only on success |
| RatchetObject.RatchetDecryptCommand | apps/desktop/src-tauri/src/lib.rs:429-445 | a new session only when decryption succeeded and gave a string, so nothing else is saved |
| Utf8.StringsAreText | apps/desktop/src-tauri/src/lib.rs:412-445 | the bytes of every string pass the check on decrypted text |
| Conversation.InitInv | crates/crypto_core/src/ratchet.rs:200-243 | a sender-initialised and a receiver-initialised session start in lockstep |
| Conversation.MessageKeyInjective | crates/crypto_core/src/ratchet.rs:117-139 | no two positions of the key schedule share a message key |
| Opening.OpenPending | crates/crypto_core/src/ratchet.rs:294-299 | a packet whose key is stored opens with the sealed associated data only, and its entry goes |
| Opening.OpenCurrent | crates/crypto_core/src/ratchet.rs:302-323 | what decrypt answers on the current receive chain, and the session it leaves |
| Opening.OpenNext | crates/crypto_core/src/ratchet.rs:302-323 | what decrypt answers to a packet under a new ratchet key, and the session it leaves |
| Opening.OpenStale | crates/crypto_core/src/ratchet.rs:288-324 | a reflected packet or an old one no longer stored always fails |
| Runs.StepInv | crates/crypto_core/src/ratchet.rs:256-374 | every command keeps the invariant of the two sessions |
| Runs.RunInv | crates/crypto_core/src/ratchet.rs:200-374 | the invariant holds at every point of every run |
| Runs.RunGrows | apps/desktop/src-tauri/src/lib.rs:412-445 | nothing sealed or decrypted is ever taken back |
| Guarantees.DeliveredExactly | crates/crypto_core/src/ratchet.rs:288-324 | at any point of any run a sealed packet decrypts if and only if it is the peer's, with the sealed associated data, not decrypted before, and within the skip gaps; then to its plaintext |
| Guarantees.TextGoesThrough | apps/desktop/src-tauri/src/lib.rs:437-438 | in every run the command answers as the session does on packets that carry a string |
| Headers.HeadersThatOpen | crates/crypto_core/src/ratchet.rs:288-324 | at any point of any run and for any header, a sealed body decrypts if and only if it is the peer's, fresh, given with the sealed associated data, and the header leads to its key; the header itself is not authenticated |
| Headers.PrevCounterOnlyStores | crates/crypto_core/src/ratchet.rs:302-310 | under a new ratchet key the previous count decides only which keys of the old chain are stored |
| Headers.UnsealedNeverOpens | crates/crypto_core/src/ratchet.rs:417-425 | a body that nobody sealed opens under no header, for every session |
| Guarantees.ExactlyOnce | crates/crypto_core/src/ratchet.rs:294-323 | a decrypted packet never decrypts again, for anyone; each is delivered once, at its addressee, with its plaintext |
| Guarantees.NoKeyReuse | crates/crypto_core/src/ratchet.rs:256-281 | no two packets of a run share a header, an AEAD key or a nonce |
| Guarantees.LockstepEverywhere | crates/crypto_core/src/ratchet.rs:348-374 | the peers are one DH step apart, and each chain the one receives on leads to the chain the other sends on by exactly the packets not yet taken |
| Guarantees.StoreExactEverywhere | crates/crypto_core/src/ratchet.rs:330-345 | a packet's key is stored exactly while its position has been passed and it is not decrypted, and it is the sender's key |
| Guarantees.StoreHoldsNothingElse | crates/crypto_core/src/ratchet.rs:330-345 | every stored entry is the key of a packet the peer sealed and that is still to be decrypted |
| Forgetting.KeysForgotten | crates/crypto_core/src/ratchet.rs:264-324 | from the saved sessions a sealed packet's key cannot be derived by its sender, and by its addressee exactly until it is decrypted |
| SelfHealing.HealsWithinRoundTrip | crates/crypto_core/src/ratchet.rs:348-374 | of all packets a run ever seals, a session saved at some point gives away exactly the own ones still to be sealed under its ratchet key and the peer's not yet decrypted up to the peer's next key |
| SkipLimits.SkipAdds | crates/crypto_core/src/ratchet.rs:330-345 | while the sum fits in 32 bits, a skip is refused exactly beyond MAX_SKIP, and adds exactly the entries of [recv_count, until) |
| SkipLimits.SkipGrowth | crates/crypto_core/src/ratchet.rs:330-345 | at most 1000 new entries a call |
| SkipLimits.DecryptGrowth | crates/crypto_core/src/ratchet.rs:288-324 | at most 2000 new entries a decryption, for every session and header |
| SkipLimits.NextInOrderAccepted | crates/crypto_core/src/ratchet.rs:331-333 | the packet next in order passes the skip check exactly while `recv_count + MAX_SKIP` does not wrap |
| SkipLimits.SendCounterWraps | crates/crypto_core/src/ratchet.rs:264-276 | consecutive headers count up exactly until the last counter value, after which the counter restarts under the same key |
| Confluence.AnyOrder | crates/crypto_core/src/ratchet.rs:294-345 | up to 1001 consecutive packets, each with its own associated data and previous count, give in any order each its plaintext and the session of in-order delivery |
| Confluence.AnyOrderInRuns | crates/crypto_core/src/ratchet.rs:294-345 | the same for the packets of any run that stand next in the receive chain |
| Confluence.OneMoreIsRefused | crates/crypto_core/src/ratchet.rs:331-333 | with one packet more, delivering the last first is refused |
| Confluence.ReadyInRuns | crates/crypto_core/src/ratchet.rs:330-345 | in every run a session is ready for such a batch exactly when it has a receive chain and counter room |
| X3dh.Agreement | crates/crypto_core/src/lib.rs:156-214 | sender and receiver derive the same secret exactly when both use the same one-time key or both none |
| X3dh.FailsOnLowOrder | crates/crypto_core/src/lib.rs:149-154 | agreement fails exactly on a low-order public key |
| X3dh.FirstMessage | crates/crypto_core/src/ratchet.rs:200-243 | the first ratchet message opens to its plaintext exactly when the one-time keys match, and is an authentication failure otherwise |
| X3dh.KnownExactly | crates/crypto_core/src/lib.rs:156-214 | which sets of private keys suffice to compute the secret |
| X3dh.SecretIsGuarded | crates/crypto_core/src/lib.rs:163-165 | an X3DH secret meets the condition under which keys are forgotten |
| InboundQueue.Inbox.ProcessIncoming | apps/desktop/src/infrastructure/crypto_orchestration.ts:15-23 | a packet joins the end of its conversation's chain and nothing else changes |
| InboundQueue.Inbox.ResumeHead | apps/desktop/src/infrastructure/crypto_orchestration.ts:23-84 | one resumption of a chain's head handler: load, where a failed read counts as no session, handshake, decrypt, save |
| InboundQueue.Refines | apps/desktop/src/infrastructure/crypto_orchestration.ts:5-87 | whatever the interleaving, each conversation's session and results are those of one packet after the other in arrival order |
| InboundQueue.Drained | apps/desktop/src/infrastructure/crypto_orchestration.ts:5-87 | a drained chain has handled every arrival, in order |
| QueueFollowsRun.SessionUsed | apps/desktop/src/infrastructure/crypto_orchestration.ts:24-60 | a packet is tried with the saved session, and with its handshake's exactly when nothing is saved or the read failed |
| QueueFollowsRun.FoldFollowsRun | apps/desktop/src/infrastructure/crypto_orchestration.ts:23-84 | handling the packets of a run one by one gives each its plaintext exactly when it was due at its point of the run, and saves the session the run's deliveries leave |
| QueueFollowsRun.QueueDelivers | apps/desktop/src/infrastructure/crypto_orchestration.ts:5-87 | the same of a drained chain of an established conversation, whatever the interleaving |
| QueueFollowsRun.RepetitionsGiveNothing | apps/desktop/src/infrastructure/crypto_orchestration.ts:23-84 | every repetition of a packet that gave its plaintext gives nothing |
| QueueFollowsRun.FirstContact | apps/desktop/src/infrastructure/crypto_orchestration.ts:27-84 | with nothing saved, handshakes are used until the first packet that is due saves its session, and all packets are given their due |
| QueueFollowsRun.NothingKept | apps/desktop/src/infrastructure/crypto_orchestration.ts:24-84 | a packet without a session or header, or whose save fails, changes nothing and gives nothing |
| InboundQueue.FailuresLeaveNoTrace | apps/desktop/src/infrastructure/crypto_orchestration.ts:62-84 | deleting the packets that failed changes neither the session nor the plaintexts |
| History.OpenChat.HandleIncoming | apps/desktop/src/features/chat/useChat.ts:57-126 | the tables and the live list after one decrypted payload, unchanged if its save fails |
| History.OpenChat.Resolve | apps/desktop/src/infrastructure/vault.ts:405-421 | the inner loop applies exactly the events about its message, in query order |
| History.OpenChat.Load | apps/desktop/src/infrastructure/vault.ts:369-423 | for whatever answers the two queries give, the rebuilt list: their rows in order, each with its joined events applied |
| ChatLog.TablesHoldLog | apps/desktop/src/infrastructure/vault.ts:276-367 | with distinct ids the two tables hold exactly the arrived texts and events, in order |
| ChatLog.LiveIsLate | apps/desktop/src/features/chat/useChat.ts:93-126 | each live message is its text with the events that arrived after it |
| ChatLog.LiveRows | apps/desktop/src/features/chat/useChat.ts:57-126 | every text is on screen once with its own id, sender, time and parent, and the wording, reactions and marks of the events after it |
| QueryAnswers.AgreedInOrder | apps/desktop/src/infrastructure/vault.ts:371-384 | what rows of one time agree on, all answers of an ordered query agree on, place by place |
| QueryAnswers.SwapPart | apps/desktop/src/infrastructure/vault.ts:371-384 | any two tied rows of a part of the table may change places in an answer |
| ChatLog.MaskedExactly | apps/desktop/src/infrastructure/vault.ts:405-421 | early events leave no mark on a message exactly when none is a reaction and later ones cover their edits and deletions |
| ReplayEqualsLive.ReloadedRows | apps/desktop/src/infrastructure/vault.ts:369-423 | every stored text is in every reload once, with its own id, sender, time and parent, and what the queried events about it say |
| ReplayEqualsLive.RowAgreesExactly | apps/desktop/src/infrastructure/vault.ts:405-421 | a message is rebuilt as it was on screen from every answer exactly when its early events are masked, its tied reactions carry one emoji and its last tied writes one text |
| ReplayEqualsLive.ReplayAgreesExactly | apps/desktop/src/infrastructure/vault.ts:369-423 | every reload the queries allow shows the live list in time order if and only if no two texts have one time and every message is so settled |
| ReplayEqualsLive.ReplayEqualsLive | apps/desktop/src/infrastructure/vault.ts:369-423 | every reload shows the live list as it stands if and only if texts arrived in order of distinct times and every message is settled |
| ReplayEqualsLive.OnlyTiesTell | apps/desktop/src/infrastructure/vault.ts:369-423 | with events after their messages, every reload is the screen exactly when texts are in order and ties are harmless |
| ReplayEqualsLive.ReplayInOrder | apps/desktop/src/infrastructure/vault.ts:369-423 | with events after their messages and distinct increasing times, every reload is the screen |
| QueryAnswers.OnlyAnswer | apps/desktop/src/infrastructure/vault.ts:369-384 | with distinct increasing times the queries have one possible answer |
| RepeatedIds.TableKeepsFirsts | apps/desktop/src/infrastructure/vault.ts:276-311 | after any log the message table has one row for each id: sender, time and parent of its first text, body of its last |
| RepeatedIds.RepeatedEventsDropOut | apps/desktop/src/infrastructure/vault.ts:360-367 | events that repeat an id change neither tables nor screen: the chat is that of the log without them |
| RepeatedIds.LiveShowsTexts | apps/desktop/src/features/chat/useChat.ts:93-94 | on screen every text has its row, a repeated one too |
| RepeatedIds.ReplayOfAnyLog | apps/desktop/src/infrastructure/vault.ts:369-423 | after any log, every reload is the screen if and only if no text repeated an id, texts arrived in order of distinct times, and every message is settled by the events that count |
| RepeatedIds.AnyLogInTimeOrder | apps/desktop/src/infrastructure/vault.ts:369-423 | the same of the screen's list in time order, for texts in any order |
| ReplayEqualsLive.TiedEditsDiffer | apps/desktop/src/infrastructure/vault.ts:369-421 | after two different edits stored at one time some reload does not show the screen |
| ReplayEqualsLive.MaskedEditReturns | apps/desktop/src/infrastructure/vault.ts:369-421 | an early edit covered by one stored at the same time may come back, though it is masked |
| ReplayEqualsLive.OvertakingReactionDiffers | apps/desktop/src/features/chat/useChat.ts:117-125 | after a reaction that arrived before its message no reload shows the screen |
| RateLimiter.Limiter.CheckCall | crates/backend/src/auth.rs:35-47 | the table and the answer after one call |
| RateLimiter.TableIsHistory | crates/backend/src/auth.rs:35-47 | the pruned list is the complete accepted history cut at the key's last call |
| RateLimiter.LetThroughExactly | crates/backend/src/auth.rs:35-47 | a call is let through exactly when fewer than five were in its window |
| RateLimiter.AtMostFive | crates/backend/src/auth.rs:20-47 | in every run no window of sixty seconds holds more than five accepted calls of a key, whatever the order of calls on other keys |
| RateLimiter.RefusedAtFive | crates/backend/src/auth.rs:40-44 | a call is refused exactly when five were accepted in its window |
| Delivery.StepInv | crates/backend/src/ws.rs:299-354 | every interleaved step keeps each pending row accounted for at its device's registered socket, and each channel made of its query's answer and finished sends |
| Delivery.NoMissedMessage | crates/backend/src/ws.rs:822-877 | whenever a device is registered, flushed and nothing is being sent to it, an undelivered row for it is missing from its channel exactly when its send was aborted at the insert and this socket's query did not return it |
| Delivery.AbortedSendStrands | crates/backend/src/ws.rs:516-532 | a run in which an aborted send leaves a connected device without a stored message |
| Delivery.LiveSocketMissesNothing | crates/backend/src/ws.rs:299-354 | for a device with one socket at a time the same holds of that socket, whatever other devices do |
| Delivery.ReachedExactly | crates/backend/src/ws.rs:598-601 | a live socket is sent its device's next message exactly when it is the registered one |
| Delivery.SecondSocketMissesMessage | crates/backend/src/ws.rs:534 | a run in which cleaning up a device's first socket lets messages pass its second one, until the heartbeat closes that one |
| DeliveryHistory.RowsExactly | crates/backend/src/ws.rs:822-835 | a row is there, for its recipient, exactly when an insert for it succeeded, and is marked delivered exactly when it was acknowledged itself |
| DeliveryHistory.PendingExactly | crates/backend/src/ws.rs:952-956 | a row is pending for a device exactly when it was stored for that device and never acknowledged; receipts for other rows make no difference |
| DeliveryHistory.SendsExactly | crates/backend/src/ws.rs:822-877 | a send is under way exactly from its insert to its abort or delivery |
| DeliveryHistory.SocketsExactly | crates/backend/src/ws.rs:299-534 | a socket lives exactly from its connection to its cleanup |
| DeliveryHistory.RegistryExactly | crates/backend/src/ws.rs:299-534 | a device is registered with the socket that connected last, unless one of its sockets was cleaned up, or a revocation came, since |
| DeliveryHistory.PhaseExactly | crates/backend/src/ws.rs:313-354 | a live socket waits for its query, or has flushed, exactly when its steps say so |
| DeliveryHistory.ChannelExactly | crates/backend/src/ws.rs:598-601 | a live socket's channel is, in order, the messages delivered while it was the registered one and the rows its flush pushed |
| DeliveryHistory.MissedExactly | crates/backend/src/ws.rs:822-877 | no missed message, from the steps alone: what was stored, not acknowledged, and not put on the channel of the socket connected last was aborted and not in its query's answer |
| DeliveryObject.Hub.SendMessage | crates/backend/src/ws.rs:822-890 | a send takes its three steps: row, lookup, delivery |
| DeliveryObject.Hub.FlushPending | crates/backend/src/ws.rs:313-354 | the flush is a run of a query and push steps that adds the query's answer to the channel: each pending row once, older ones first |
| DeliveryObject.Hub.Perform | crates/backend/src/ws.rs:299-354 | every step, taken on the tables in place, is the step of the theorems |
| ServerInvariant.StepInv | crates/backend/src/ws.rs:718-1089 | every handler keeps tenancy, session, connection, pool and receipt invariants |
| ServerGuarantees.OneOrganisation | crates/backend/src/ws.rs:680-716 | in every run each stored message and routed event links devices of one organisation |
| ServerGuarantees.ReceiptsAreFirst | crates/backend/src/ws.rs:907-1042 | delivered_at and read_at are the times of the first receipt, and first read receipt, of the connected recipient, and of nothing else |
| ServerGuarantees.MessagesStay | crates/backend/src/ws.rs:907-1042 | messages stay, receipt times are write-once, and read implies delivered |
| ServerGuarantees.InactiveIsGone | crates/backend/src/ws.rs:651-658 | an inactive device owns no key, session or connection, cannot log in or connect, and its envelopes change nothing |
| ServerGuarantees.DeactivatedExactly | crates/backend/src/admin.rs:624-641 | an active device is deactivated exactly by a revocation with an administrator's session of its organisation, or with a session of its own user |
| ServerGuarantees.RevokedForever | crates/backend/src/admin.rs:619-699 | an inactive device stays so, and no message, event, bundle or key is added for it by any later handler |
| ServerGuarantees.NukedIsInactive | crates/backend/src/admin.rs:226-252 | a nuked device is inactive at every point of every run |
| ServerHistory.RevocationTakes | crates/backend/src/admin.rs:619-699 | a revocation whose caller may marks its device inactive, drops its connection and leaves messages, accounts, events and uploads alone; any other changes nothing |
| ServerHistory.RevocationTakesKeys | crates/backend/src/admin.rs:645-648 | of the pool it purges the device's keys and no other |
| ServerHistory.RevocationTakesSessions | crates/backend/src/admin.rs:650-653 | of the sessions it ends those tied to the device and no other |
| ServerHistory.OthersAreSpared | crates/backend/src/users.rs:214-262 | every other device keeps its row, keys, connection and sessions |
| ServerHistory.AccountsExactly | crates/backend/src/admin.rs:376-432 | an account is as it was last set |
| ServerHistory.DevicesExactly | crates/backend/src/auth.rs:142-201 | a device is there for a user and organisation exactly when a registration or key upload added it for them, active exactly while no caller who may revoked it, and nuked exactly when one nuked it |
| SessionHistory.SessionsExactly | crates/backend/src/auth.rs:412-455 | a session with its user, organisation and rights is there exactly when a registration, login or bootstrap that passes its checks created it so and no logout or revocation ended it |
| SessionHistory.AdministratorsLoggedIn | crates/backend/src/auth.rs:442-451 | a session has administrator rights only if its login or bootstrap found its user's account with them |
| SessionHistory.TiesExactly | crates/backend/src/keys.rs:44-105 | a session is tied to the device of its login or of its last key upload |
| SessionHistory.ConnectionsExactly | crates/backend/src/ws.rs:180-209 | a device is connected exactly when a live session of its user and organisation connected it while active, and it was neither disconnected nor revoked since |
| MessageHistory.MessagesExactly | crates/backend/src/ws.rs:809-835 | a message with its sender, recipient and organisation is stored exactly when its connected sender sent it to an active device of the organisation, connected or not, it decodes and its insert succeeds |
| MessageHistory.EventsExactly | crates/backend/src/ws.rs:718-1089 | the events passed on are, in order, those of the steps: kind, from whom, to whom |
| MessageHistory.ReceiptGoesBack | crates/backend/src/ws.rs:907-1042 | a connected recipient's receipt goes to the device that sent the message, and a receipt for any other message nowhere |
| MessageHistory.BundlesExactly | crates/backend/src/keys.rs:150-218 | the bundles sent and the keys in them are, in order, those of the requests for users of the caller's organisation |
| MessageHistory.InsertsExactly | crates/backend/src/keys.rs:326-359 | the keys inserted are, in order, those of the uploads that go through |
| MessageHistory.PurgedExactly | crates/backend/src/admin.rs:645-648 | a key was purged exactly when its own device was revoked while it was in the pool |
| MessageHistory.GivenExactly | crates/backend/src/keys.rs:177-218 | a key was handed out exactly when some request picked it |
| MessageHistory.PoolExactly | crates/backend/src/keys.rs:175-218 | the pool holds exactly the keys uploaded, as uploaded, that no request was given and no revocation of their device purged |
| KeyLedger.RunLedger | crates/backend/src/keys.rs:175-218 | every key ever inserted is in the pool, handed out once unchanged with its own device's bundle, or purged, and in one place only |
| KeyLedger.Conservation | crates/backend/src/keys.rs:175-218 | keys inserted = remaining + handed out + purged |
| KeyLedger.OneKeyEach | crates/backend/src/keys.rs:177-218 | each listed device's bundle carries one of its own keys exactly when it has any, and its pool shrinks by that key |
| KeyLedger.OthersKeepKeys | crates/backend/src/keys.rs:177-191 | devices not asked for keep their keys |
| KeyLedger.UploadAllOrNothing | crates/backend/src/keys.rs:287-387 | a batch is accepted exactly when it has 1 to 50 well-formed keys and fits; then the device has at most 200, else nothing changes |
| KeyLedger.UploadStoresEach | crates/backend/src/keys.rs:325-359 | each key of an accepted batch is stored, in order |
| ServerObject.Instance.InsertBatch | crates/backend/src/keys.rs:326-359 | the insert loop stores every entry, or rolls back to exactly the tables before it |
| ServerObject.Instance.UploadOtpkBatch | crates/backend/src/keys.rs:287-387 | the state and reply of the batch upload on every branch |
| ServerObject.Instance.UploadNewDevice | crates/backend/src/keys.rs:44-105 | device, session link and keys together, or nothing |
| ServerObject.Instance.BuildBundles | crates/backend/src/keys.rs:194-218 | the loop gives every listed device one bundle with the key picked for it, and the keys given are those in the bundles |
| ServerObject.Instance.Perform | crates/backend/src/ws.rs:718-1089 | every handler, run on the tables in place, takes exactly the step of the theorems |

## Left out

- Cryptography itself: libsodium, HKDF and SHA-256 are the stated laws on terms; a low-order public key makes the scalar multiplication fail, and in the ratchet that panic is the error `Panicked`.
- Serialisation: sessions and envelopes are values, so JSON and base64 are not modelled.
- Runs.RunInv: does not model counter wrap-around, because a run seals at most 4,294,966,295 packets under one ratchet key; `SkipLimits` shows that this is the bound the 32-bit sums themselves set.
- Forgetting.KeysForgotten: asks that the shared secret is random or rests on an agreement of two keys outside the ratchet, which `X3dh.SecretIsGuarded` shows for every X3DH secret.
- ReplayEqualsLive.ReplayAgreesExactly: asks for distinct ids, which `RepeatedIds.AnyLogInTimeOrder` does without.
- RepeatedIds.ReplayOfAnyLog: asks for a vault clock that does not run back between stored events.
- QueueFollowsRun.QueueDelivers: asks that the vault answers reads and accepts writes while the lane drains; `InboundQueue.FailuresLeaveNoTrace` and `QueueFollowsRun.NothingKept` say what a failure leaves.
- `prune_stale_skipped_keys` (crates/crypto_core/src/ratchet.rs:398-408): nothing calls it; it drops entries in the text order of their keys and not, as its comment says, by counter.
- The two ends' associated data in the desktop client: apps/desktop/src/features/chat/ChatArena.tsx:163 seals with another conversation id than apps/desktop/src/infrastructure/crypto_orchestration.ts:12 opens with; the model leaves associated data free and asks only that the sealed one is given.
- The X3DH commands' Ed25519 conversions and one-time-key identity from server to client: agreement is stated on X25519 key pairs.
- Handshakes with `used_opk_id`: the server sends none (crates/backend/src/ws.rs:563-575), so the queue's handshake is the one without a one-time key, as a session given with the packet.
- Sends that bypass the inbound queue, and story-key sharing on the client: concurrent use of one session from both sides.
- Delivery: message ids and connections are new in the whole run; a channel closed while flushing, failed queries, the heartbeat's timing, and delivery across backend instances over NATS.
- Server: each handler is one step whose queries succeed, and generated ids are new; interleavings inside a handler are modelled for delivery only.
- Server: input decoding before a handler's first query, challenge and signature checks, access codes, audit rows, session expiry, and frames written straight to a socket (errors, confirmations, revocation notices).
- Server: accounts change freely between steps, except that an account keeps its organisation, which no handler changes.
- The `used` column of the key pool, which no query sets; `ON CONFLICT DO NOTHING`, which no constraint triggers; row-level security and the SQL engine.
- History: conversations that are not open, unread counts, metadata, own messages and search; a log holds the arrivals whose save succeeded.
- Clocks of the rate limiter: calls on one key are assumed to be applied in the order of their readings; the source reads the clock before it locks the entry (crates/backend/src/auth.rs:36-39), so two concurrent calls may be applied the other way round.
- React components, administration dashboards, profiles, stories, health checks, configuration and deployment.
