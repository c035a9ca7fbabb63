# MeshPe — a verified model of the payment path

MeshPe is a voice-driven payment system. It works like this:

1. A user speaks a command such as "pay bob 100 rupees".
2. The backend checks the speaker's voice and liveness. It transcribes the command and parses it into an action, an amount and a receiver.
3. The backend looks the receiver up among the user's contacts.
4. On confirmation, it builds a payment packet and seals it with hybrid encryption. A fresh AES-256-GCM key encrypts the packet, and RSA-OAEP wraps that key for the bank.
5. It sends the envelope over a Bluetooth mesh. Relay nodes queue and forward envelopes without reading them.
6. A bank node unwraps the key, decrypts the packet and records the payment.

This project models that path in Dafny:

- **Text parsing:** amount, receiver and action from a transcript.
- **Storage:** the JSON user store.
- **Keys:** bank key provisioning and loading.
- **Packets:** packet creation, AES and RSA encryption, and the matching decryption.
- **Nodes:** the BLE sender, the GATT relay and bank nodes, the stand-alone RFCOMM relay and bank, and the bank-MAC discovery script.
- **Routes:** the HTTP payment routes: `/packet`, which builds an unsealed packet from the request, and the two steps of a voice payment, `/initiate` and `/confirm`.

Things outside the program's own code become parameters of the model:

- **Cryptography and JSON.** AES-GCM, RSA-OAEP, `json.dumps`/`json.loads` and UTF-8 are values of function type: `Crypto.Primitives` and `JsonCodec.Codec`. The laws the code relies on are named as ghost predicates:
  - GCM opens what it seals and rejects anything else.
  - OAEP unwraps only with the matching private key.
  - `loads` undoes `dumps`.
  
  Lemmas that need a law take it as a precondition.
- **Environment inputs.** These are all explicit parameters:
  - random draws (`os.urandom`, `uuid4`, the OAEP seed, RSA key generation)
  - the clock
  - Bluetooth scan results
  - socket and GATT outcomes
  - the voice-check and transcription results
- **Exceptions.** A Python exception becomes a `Result`/`Option` error value, or an outcome or log datatype naming the failing step. This includes exceptions the source does not catch, such as a Bluetooth scan that raises.

State that the source changes in place becomes classes with `modifies` clauses:

- the key files: `BankKeys.BankKeyStore`
- `users.json`: `UserStore.Store`
- the relay's queue: `RunRelay.RelayNode`
- an accepted socket: `StreamSocket.ClientSocket`

Loops become methods, each proved equal to a specification function. The lemmas then state the properties the code promises about those functions:

- round trips (hex, JSON, seal/open)
- "first match" characterisations of the search loops
- frame properties (other users unchanged)
- FIFO order of the relay queue
- end-to-end delivery from `confirm_payment` to the bank node

## Model

| member | source | states |
|---|---|---|
| Bytes.Hex | backend/services/encryption_service.py:22-29 | `bytes.hex()` yields twice as many characters as bytes, all lower-case hex digits |
| Bytes.Unhexlify | backend/services/mesh_service.py:8-19 | `binascii.unhexlify` succeeds exactly on ASCII strings of even length made of hex digits of either case, halving the length |
| Bytes.UnhexlifyHex | backend/services/encryption_service.py:22-29 | unhexlify undoes hex: every field the sender hex-encodes decodes back to the same bytes |
| Bytes.HexUnhexlify | backend/services/mesh_service.py:8-19 | conversely, every lower-case hex string is the hex form of what it decodes to |
| Bytes.HexInjective | backend/services/encryption_service.py:22-29 | different byte strings have different hex forms, and conversely |
| Text.Split | ml/nlp_parse.py:10 | `str.split()` yields non-empty words without whitespace |
| Text.SplitJoin | ml/nlp_parse.py:10 | `split()` of a space-join of words gives back exactly those words, in order |
| Text.SplitEmpty | ml/nlp_parse.py:10 | `split()` finds no words exactly when the string is all whitespace |
| Text.Lower | backend/routes/payment_routes.py:87-90 | `str.lower()` keeps the length and lower-cases each character |
| Text.ContainsOccurs | ml/nlp_parse.py:47-54 | the substring test `pat in text` holds exactly when `pat` occurs at some index of `text` |
| Text.StripJoinOfTokens | ml/nlp_parse.py:40-42 | stripping a space-join of words changes nothing, and the join is empty only for no words |
| JsonCodec.ParseUtf8Json | run_bank.py:58-72 | a parse that succeeds is `loads` applied to a successful UTF-8 decode |
| JsonCodec.ParseSerialized | backend/services/ble_service.py:33 | what one node serialises with `json.dumps(...).encode()` the next node parses back unchanged |
| AesUtils.AesEncrypt | backend/crypto/aes_utils.py:5-12 | the key is the first 32 and the nonce the next 12 random bytes, and ciphertext and tag are the GCM sealing of the plaintext under them |
| AesUtils.AesEncryptOpens | backend/crypto/aes_utils.py:5-12 | GCM decryption with the returned key, nonce and tag yields the plaintext back |
| AesUtils.AesEncryptFresh | backend/crypto/aes_utils.py:6-7 | two different random draws give a different key or nonce |
| BankKeys.ImportKey | backend/crypto/bank_keys.py:22-29 | `RSA.import_key` succeeds exactly on a PEM file |
| BankKeys.EnsureKeys | backend/crypto/bank_keys.py:9-19 | afterwards both key files exist; existing files are left as they are; otherwise both files hold the generated pair |
| BankKeys.EnsureKeysIdempotent | backend/crypto/bank_keys.py:14-15 | a second `ensure_bank_keys` changes nothing, whatever key it would generate |
| BankKeys.LoadedKeysMatch | backend/crypto/bank_keys.py:9-29 | after provisioning, the loaded public key is the public half of the loaded private key |
| BankKeys.BankKeyStore.constructor | backend/crypto/bank_keys.py:9-19 | the store starts with the given key files |
| BankKeys.BankKeyStore.EnsureBankKeys | backend/crypto/bank_keys.py:9-19 | the key files become `EnsureKeys` of the old files |
| BankKeys.BankKeyStore.LoadBankPrivateKey | backend/crypto/bank_keys.py:22-24 | provisions the files, then returns the import of the private-key file |
| BankKeys.BankKeyStore.LoadBankPublicKey | backend/crypto/bank_keys.py:27-29 | provisions the files, then returns the import of the public-key file |
| PaymentService.CreatePacket | backend/services/payment_service.py:5-16 | the packet has exactly the nine fields, each holding the given value, id or timestamp |
| PaymentService.DefaultTtlIsSixty | backend/services/payment_service.py:5 | without an explicit ttl the packet's ttl is 60 |
| PaymentService.NineFields | backend/services/payment_service.py:6-16 | the packet's field names are nine distinct keys |
| EncryptionService.EncryptPacket | backend/services/encryption_service.py:6-29 | succeeds exactly when the packet has `timestamp` and `packet_id` (otherwise names the missing one); the envelope is the packet sealed for the bank's public key, and those two fields are copied in clear |
| EncryptionService.EnvelopeHexFields | backend/services/encryption_service.py:22-29 | the envelope's `iv`, `ciphertext`, `tag` and `encrypted_key` are the hex forms of the nonce, the GCM output and the OAEP-wrapped key |
| EncryptionService.PaymentFieldsOnlyInCiphertext | backend/services/encryption_service.py:22-29 | packets that differ only in their payment fields give envelopes that differ only in `ciphertext` and `tag` |
| EncryptionService.FreshDrawsGiveFreshFields | backend/services/encryption_service.py:8 | two different random draws give envelopes that differ in `iv` or in the unwrapped key |
| MeshService.Field | backend/services/mesh_service.py:33-42 | an envelope field lookup succeeds exactly when the field is present |
| MeshService.UnhexField | backend/services/mesh_service.py:8-19 | a decoded field was a JSON string that unhexlifies to the result |
| MeshService.RsaDecryptWithBankPrivateKey | backend/services/mesh_service.py:8-11 | success means the bank key loaded, the field decoded from hex and OAEP unwrapped it to the result |
| MeshService.AesDecryptPacket | backend/services/mesh_service.py:14-19 | success means iv, ciphertext and tag decoded from hex and GCM opened them to the result |
| MeshService.DecryptEnvelope | backend/services/mesh_service.py:30-42 | success means all four fields are present, the key unwraps, and the result is the AES decryption of `iv`, `ciphertext` and `tag` under that key; a missing `encrypted_key` is the first failure |
| MeshService.OpenEnvelope | backend/services/mesh_service.py:28-55 | the envelope opens exactly when it decrypts and the plaintext parses as UTF-8 JSON, to that parse; a decryption error is the outcome |
| MeshService.SendToMesh | backend/services/mesh_service.py:22-55 | True exactly when the envelope decrypts and the plaintext parses; True needs all four crypto fields |
| MeshService.OpenSealedEnvelope | backend/services/mesh_service.py:22-55 | an envelope sealed for the bank's key opens to the original packet, and `send_to_mesh` returns True |
| MeshService.WrongKeyRejected | backend/services/mesh_service.py:8-11 | a private key of another pair fails at the key unwrap |
| MeshService.TamperedEnvelopeNeverYieldsSealedPlaintext | backend/services/mesh_service.py:22-55 | a changed ciphertext never decrypts to the sealed plaintext |
| MeshService.TamperedTagRejected | backend/services/mesh_service.py:14-19 | a changed tag fails authentication, and `send_to_mesh` returns False |
| MeshService.OnlyCryptoFieldsRead | backend/services/mesh_service.py:33-42 | the outcome depends only on `encrypted_key`, `iv`, `ciphertext` and `tag` |
| MeshService.UnwrapPrecedesDecryption | backend/services/mesh_service.py:33-42 | when the key unwrap fails, that error is the outcome, whatever the other fields hold |
| BleService.FindMeshNode | backend/services/ble_service.py:17-23 | the chosen device is a scanned device that lists `MESH_SERVICE_UUID` among its advertised service UUIDs, compared case-insensitively; none is chosen exactly when no device does |
| BleService.FindMeshNodeIsFirst | backend/services/ble_service.py:17-19 | the chosen device is the first in scan order that advertises the mesh service UUID |
| BleService.AdvertisesMeshIgnoresCase | backend/services/ble_service.py:18 | an advertised service UUID equal to `MESH_SERVICE_UUID` up to letter case qualifies the device |
| BleService.SendPacketViaBle | backend/services/ble_service.py:10-49 | a scan that raises escapes the call; no mesh node gives False without a write; otherwise the JSON payload is written with a response to the packet characteristic of the first mesh node, and True is returned exactly when the link completes |
| BleService.WrittenPayloadParses | backend/services/ble_service.py:33-45 | the written payload parses back to the packet |
| UserStore.LoadRaw | backend/storage/user_store.py:9-16 | a missing file reads as an empty object; otherwise its document |
| UserStore.GetUser | backend/storage/user_store.py:25-27 | on an object document: the user's record if present, None otherwise |
| UserStore.ListContacts | backend/storage/user_store.py:46-49 | an absent, falsy or contact-less user gives `[]`; a user record with `contacts` gives that entry; the call raises exactly when the document is not an object or a truthy user record is not an object |
| UserStore.Upsert | backend/storage/user_store.py:30-43 | fails exactly when the document or the user record is not an object; otherwise only that user's record changes |
| UserStore.AppendContact | backend/storage/user_store.py:52-66 | fails exactly on the source's type errors; otherwise the user exists, its `contacts` is the returned list, and every other field of an existing user is kept unchanged |
| UserStore.Store.constructor | backend/storage/user_store.py:9-16 | the store wraps the given file |
| UserStore.Store.CreateOrUpdateUser | backend/storage/user_store.py:30-43 | the file becomes the result of `Upsert` on the old document; on failure nothing changes |
| UserStore.Store.AddContact | backend/storage/user_store.py:52-66 | the file becomes the result of `AppendContact` on the old document; on failure nothing changes |
| UserStore.UpsertThenGet | backend/storage/user_store.py:30-43 | after an upsert, `get_user` returns the record with the given name, phone and language |
| UserStore.UpsertKeepsOtherUsers | backend/storage/user_store.py:30-43 | an upsert leaves every other user unchanged |
| UserStore.AddThenList | backend/storage/user_store.py:52-66 | after adding, `list_contacts` is the old list plus the new contact at the end |
| UserStore.AddContactKeepsDuplicates | backend/storage/user_store.py:52-66 | adding the same contact twice lists it twice |
| UserStore.AddContactCreatesDefaultUser | backend/storage/user_store.py:54-64 | adding a contact for an unknown user creates a default record holding just that contact |
| UserStore.AddContactKeepsOtherUsers | backend/storage/user_store.py:52-66 | adding a contact leaves every other user unchanged |
| NlpParse.ExtractAmount | ml/nlp_parse.py:4-6 | no amount exactly when the text has no digit |
| NlpParse.ExtractAmountIsFirstRun | ml/nlp_parse.py:4-6 | the amount is the value of the first maximal run of digits |
| NlpParse.FirstDigitRunExists | ml/nlp_parse.py:4-6 | a text with a digit has a first maximal digit run |
| NlpParse.IndexOf | ml/nlp_parse.py:13-20 | `words.index(w)`: the first position of `w`, or the length when absent |
| NlpParse.StopIndex | ml/nlp_parse.py:33-38 | the receiver run stops at the first stop word or number |
| NlpParse.CollectReceiverTokens | ml/nlp_parse.py:33-38 | the token loop collects the words before the first stop word |
| NlpParse.ReceiverAfterTrigger | ml/nlp_parse.py:26-42 | the per-trigger step computes `TriggerReceiver`, the stripped join of the run after the trigger |
| NlpParse.ExtractReceiver | ml/nlp_parse.py:9-44 | the method's result is the receiver rule `Receiver` of the text |
| NlpParse.TriggerReceiverShape | ml/nlp_parse.py:26-42 | a trigger yields exactly the join of the non-empty stop-free run after its first occurrence |
| NlpParse.TriggerReceiverYields | ml/nlp_parse.py:26-42 | a yielded receiver is a non-empty, stop-free run directly after the trigger's first occurrence |
| NlpParse.YieldDeterminesReceiver | ml/nlp_parse.py:26-42 | conversely, such a run after the trigger's first occurrence is what the trigger yields |
| NlpParse.ToRule | ml/nlp_parse.py:13-15 | a word "to" that is not last makes the receiver everything after its first occurrence |
| NlpParse.ForRule | ml/nlp_parse.py:18-20 | without "to", a word "for" that is not last makes the receiver everything after it |
| NlpParse.FirstYieldIsFirst | ml/nlp_parse.py:26-44 | the trigger loop returns the first trigger's yield, or None when none yields |
| NlpParse.TriggerReceiverIsCleanSlice | ml/nlp_parse.py:9-44 | without "to"/"for", the receiver is None exactly when no trigger yields; otherwise it is the run after the first trigger in list order that yields |
| NlpParse.ExtractAction | ml/nlp_parse.py:47-54 | the action is one of pay, send, transfer |
| NlpParse.ExtractActionByOccurrence | ml/nlp_parse.py:47-54 | "pay" if it occurs, else "send" if it occurs, else "transfer" if "transfer" or "transwar" occurs, else None, in both directions |
| PaymentRoutes.ContactItems | backend/routes/payment_routes.py:86-89 | a contacts list is iterated item by item |
| PaymentRoutes.ContactName | backend/routes/payment_routes.py:90 | `c.get("name", "")` of a dict: its string name, or "" when absent |
| PaymentRoutes.FirstContact | backend/routes/payment_routes.py:86-97 | a found contact is one of the listed contacts |
| PaymentRoutes.FindContact | backend/routes/payment_routes.py:153-158 | the contact loop with `break` computes `FirstContact` |
| PaymentRoutes.FirstContactIsFirst | backend/routes/payment_routes.py:89-92 | the contact found is the first whose lower-cased name matches; all earlier ones do not |
| PaymentRoutes.FirstContactNotFound | backend/routes/payment_routes.py:93-97 | nothing is found exactly when no contact matches |
| PaymentRoutes.InitiatePayment | backend/routes/payment_routes.py:40-117 | the route's response is `Initiate` of the stored users, the voice checks and the transcript |
| PaymentRoutes.InitiateChecksFirst | backend/routes/payment_routes.py:56-63 | a failed voice, enrolment or liveness check answers with its message before any user data is read |
| PaymentRoutes.ResolveFindsFirstPrefixMatch | backend/routes/payment_routes.py:86-111 | the first contact whose lower-cased name starts with the lower-cased receiver is returned with the amount in INR |
| PaymentRoutes.InitiateFindsFirstPrefixMatch | backend/routes/payment_routes.py:75-111 | for a parsed command, `initiate_payment` answers with the first prefix-matching contact |
| PaymentRoutes.ResolveReceiverNotFound | backend/routes/payment_routes.py:93-97 | no prefix match gives the "not found in contacts" failure |
| PaymentRoutes.InitiateReceiverNotFound | backend/routes/payment_routes.py:75-97 | for a parsed command with no prefix match, `initiate_payment` fails with "not found in contacts" |
| PaymentRoutes.PacketRoute | backend/routes/payment_routes.py:17-37 | `POST /packet` returns a packet with exactly the nine fields, copying each request field and adding the fresh id and the timestamp |
| PaymentRoutes.PacketRouteDefaultTtl | backend/routes/payment_routes.py:24 | a request without `ttl` gives a packet whose ttl is 60 |
| PaymentRoutes.PacketRouteInjective | backend/routes/payment_routes.py:27-37 | for the same id and time, different requests give different packets, and conversely |
| PaymentRoutes.PacketRouteSeals | backend/routes/payment_routes.py:27-37 | what the route returns always carries `timestamp` and `packet_id`, so `encrypt_packet` can seal it |
| PaymentRoutes.ConfirmPlan | backend/routes/payment_routes.py:149-175 | a planned packet carries `timestamp` and `packet_id`, so its encryption cannot fail |
| PaymentRoutes.PlanPayment | backend/routes/payment_routes.py:149-175 | the lookup-and-build half of `confirm_payment` computes `ConfirmPlan` |
| PaymentRoutes.ConfirmPayment | backend/routes/payment_routes.py:120-199 | the route's response and key files are `Confirm` of the old key files, stored users, checks and inputs |
| PaymentRoutes.ConfirmChecksFirst | backend/routes/payment_routes.py:139-147 | a failed check answers with its message before users or keys are touched |
| PaymentRoutes.ConfirmPacketFields | backend/routes/payment_routes.py:165-175 | the packet carries the sender's id and name, `ACC-` accounts, the exact-match contact's name and the amount |
| PaymentRoutes.ConfirmSuccessMeansForwarded | backend/routes/payment_routes.py:177-195 | success means the envelope opened at the mesh step |
| PaymentRoutes.ConfirmDelivers | backend/routes/payment_routes.py:120-199 | with lawful crypto and valid checks, a planned payment succeeds and the bank's mesh step opens exactly the packet built |
| RunBank.ProcessPacket | run_bank.py:29-56 | a payment is logged exactly when the envelope is a dict that opens, with the opened payload; otherwise with the step that failed |
| RunBank.WriteRequestCallback | run_bank.py:58-72 | an unparsable write is logged as such; otherwise the parsed packet is processed |
| RunBank.DeliveredEnvelopeIsReceived | run_bank.py:29-72 | a serialised envelope sealed for the bank is logged as the received packet |
| RunRelay.ForwardOne | run_relay.py:48-75 | one forwarding turn ends the relay process exactly when the scan raises, drops the packet exactly when no mesh node is in range, forwards exactly when a mesh node is found and the link completes, writing the serialised packet with a response to the first mesh node's packet characteristic, and otherwise fails on the link to that node |
| RunRelay.ForwardIsContentBlind | run_relay.py:43-75 | whether a packet is dropped or forwarded does not depend on its contents |
| RunRelay.RelayNode.constructor | run_relay.py:22-23 | the relay process starts running, with an empty queue |
| RunRelay.RelayNode.WriteRequestCallback | run_relay.py:25-41 | while the process runs, a parsable write is appended to the queue and anything else leaves it unchanged; once the process has exited no write is accepted and nothing changes |
| RunRelay.RelayNode.ForwardNext | run_relay.py:43-125 | with a non-empty queue, the head is taken and its turn is `ForwardOne`; it is marked done unless the scan raised, which ends the whole relay process (run_relay.py:116-125); with an empty queue the node waits; after the process has exited a turn does nothing |
| RunRelay.TakenInArrivalOrder | run_relay.py:39-48 | packets leave the queue in the order they were accepted, and the queue holds the rest |
| RunBankStandalone.LoadPrivateKey | run_bank_standalone.py:23-29 | no key file gives None; a PEM file gives its key; anything else fails |
| RunBankStandalone.DecryptRsa | run_bank_standalone.py:31-33 | success means the hex field unwrapped with the private key |
| RunBankStandalone.DecryptRsaAgrees | run_bank_standalone.py:31-33 | the stand-alone RSA step agrees with the backend's |
| RunBankStandalone.OpenFields | run_bank_standalone.py:56-73 | opening needs a private key and all four fields; a missing `encrypted_key` fails first, and a public key fails at the unwrap |
| RunBankStandalone.OpenReceived | run_bank_standalone.py:54-77 | never logs a missing key; text that is not JSON is logged as such; otherwise a payment is logged exactly when the packet is an object that `send_to_mesh`'s opening opens, with its payload, and a failure carries that opening's error |
| RunBankStandalone.SameOpeningAsMeshService | run_bank_standalone.py:44-77 | the stand-alone bank opens an envelope exactly as `send_to_mesh` does |
| RunBankStandalone.ProcessPacket | run_bank_standalone.py:44-77 | no key logs "no private key"; a key file that does not import raises; otherwise the received text is opened |
| RunBankStandalone.HandleConnection | run_bank_standalone.py:100-115 | a `recv` that raises gives a read error; nothing received is logged exactly when no data arrived; the packet is handled exactly when data arrived, decodes as UTF-8 and the key file loads, and the log is `process_packet` of the decoded text |
| RunBankStandalone.HandleClient | run_bank_standalone.py:100-115 | the handler's log is `HandleConnection` of the socket's incoming events, and the socket is closed |
| RunBankStandalone.SealedEnvelopeIsOpened | run_bank_standalone.py:44-77 | a serialised sealed envelope is logged as the payment it carries |
| RunBankStandalone.ReceivedEnvelopeIsOpened | run_bank_standalone.py:100-115 | an envelope arriving in chunks before end of stream is logged as its payment |
| RunRelayStandalone.ForwardToBank | run_relay_standalone.py:14-33 | the placeholder MAC refuses to forward; otherwise success exactly when `send` returns, with the prefix it sent |
| RunRelayStandalone.ShippedRelayNeverForwards | run_relay_standalone.py:7 | with the shipped placeholder address the relay never forwards |
| RunRelayStandalone.PartialSendReportedAsSuccess | run_relay_standalone.py:24-30 | a partial `send` is still reported as success |
| RunRelayStandalone.FullSendDeliversUnchanged | run_relay_standalone.py:24-30 | a full `send` delivers the data unchanged |
| RunRelayStandalone.RelayConnection | run_relay_standalone.py:54-78 | a `recv` that raises gives a connection error, no data gives nothing received; data is relayed exactly when it arrived, with `forward_to_bank` of it |
| RunRelayStandalone.HandleSender | run_relay_standalone.py:54-78 | the handler's log is `RelayConnection` of the socket's incoming events, and the socket is closed |
| RunRelayStandalone.RelayedEnvelopeReachesBank | run_relay_standalone.py:54-78 | an envelope relayed in full is logged by the stand-alone bank as its payment |
| StreamSocket.ClientSocket.Recv | run_bank_standalone.py:101-106 | `recv` returns the next chunk, raises on a reset, or returns `b""` once the stream ends |
| StreamSocket.ClientSocket.Close | run_bank_standalone.py:113-115 | closing marks the socket closed |
| StreamSocket.ReassembleUpToEmptyChunk | run_bank_standalone.py:101-106 | the loop's data is the concatenation of the chunks before the first empty one |
| StreamSocket.ReceiveAll | run_bank_standalone.py:101-106 | the receive loop computes `Reassemble` of the incoming events |
| GetBankMac.DisplayName | get_bank_mac.py:11 | an unnamed device is shown as "Unknown" |
| GetBankMac.FirstBank | get_bank_mac.py:10-18 | a bank found is a scanned device whose name contains "MeshBank"; none exactly when no device's does |
| GetBankMac.Listing | get_bank_mac.py:20-25 | the listing names only scanned devices |
| GetBankMac.FindBank | get_bank_mac.py:4-28 | the script's report is `BankReport` of the scan |
| GetBankMac.FirstBankIsFirst | get_bank_mac.py:10-18 | the bank found is the first in scan order whose name contains "MeshBank" |
| GetBankMac.FoundIsFirstBank | get_bank_mac.py:4-28 | a found report names the first bank device and its address |
| GetBankMac.UnnamedIsNeverBank | get_bank_mac.py:11-12 | a device without a name is never taken for the bank |
| GetBankMac.ListingIsNamedDevices | get_bank_mac.py:20-25 | the not-found listing holds exactly the names and addresses of the named devices, and none of them mentions the bank |
| GetBankMac.ListingAppend | get_bank_mac.py:20-25 | the listing of a concatenation of scans is the concatenation of their listings, so the lines come in scan order, one per named device |

## Left out

- Audio loading, voice verification, liveness detection and Whisper transcription are not modelled. Their outcomes enter as a `VoiceChecks` value and the transcript `heard`, and the command is what `ml/nlp_parse.py` makes of the transcript.
- Cryptographic algorithms are not modelled. AES-GCM and RSA-OAEP are abstract functions with stated laws, and the model does not show that a concrete implementation satisfies those laws.
- JSON text is not modelled byte for byte. `dumps`/`loads` are abstract, with `loads` undoing `dumps`.
- UTF-8 decoding is abstract.
- Digits and lower-casing are ASCII only. `str.isdigit` and `str.lower` on other Unicode characters are not modelled.
- The text of exceptions (`str(e)` in responses and logs) is not modelled. Only which step failed is kept.
- `str()` of a non-string contact id in `ACC-{...}` is a parameter `pyStr`.
- The concurrency between the GATT write callback and the forward loop in `run_relay.py` is not modelled. The queue is only touched by whole method calls.
- The server set-up code is not modelled. This covers the accept loops, BLE advertising and GATT service registration in `run_bank.py`, `run_relay.py`, the stand-alone scripts and `run_backend.py`.
- FastAPI's validation of the `/packet` body against `PaymentReq`, and its error answer, are not modelled. The route receives the already validated request.
- Time formatting (backend/utils/time_utils) is not part of this model. The timestamp is a parameter.
- BLE MTU limits and the 4096-byte `recv` size are not modelled. Chunk boundaries are arbitrary in the model.
- RunRelayStandalone.ForwardToBank: the socket that stays open when `connect` raises is not modelled.
- MeshService.TamperedEnvelopeNeverYieldsSealedPlaintext: this is weaker than full rejection. GCM authenticity is stated per (key, nonce, ciphertext, tag), so a changed ciphertext is shown never to yield the sealed plaintext, and a changed tag is shown to be rejected.
- RunBankStandalone.DecryptRsa: a non-string `encrypted_key` fails with the same error kind as in `mesh_service`. The exception message differs in the source and is not kept.
- In `backend/services/mesh_service.py` the bank private key is loaded after the `encrypted_key` lookup. The model keeps that order, so a missing field is reported before a key error.
- RunBank.ProcessPacket: the bank key is taken as the outcome of `load_bank_private_key`. The key files that its call to `ensure_bank_keys` writes when they are missing (backend/crypto/bank_keys.py:14-19) are not modelled on the bank node. That write is modelled by `BankKeys.BankKeyStore`, which `PaymentRoutes.ConfirmPayment` uses.
