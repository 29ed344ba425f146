# Verified models of the secure messenger

Dafny models of the parts of the messenger whose correctness spans several
functions, components or restarts, with proofs about them. One file per
component:

| file | models |
|---|---|
| `Bytes.dfy` | byte strings, fixed-width integers, results, how a durable save can end |
| `MerkleCore.dfy`, `MerkleShapes.dfy`, `LogScan.dfy`, `ReconcileScan.dfy` | leaf construction, tree, proofs, what a root does not bind, chunked log scan (`server/blockchain/merkle-core.js`), and the scan as reconciliation uses it |
| `MessagesContract.dfy` | `storeBatchHashes` (`blockchain/contracts/MessagesContract.sol`) |
| `MerkleTables.dfy`, `Anchoring.dfy` | the two tables and the worker as a state machine over awaits, with an environment that inserts messages, mines, and crashes the worker |
| `AnchoringSafety.dfy`, `AnchoringTheorems.dfy`, `AnchoringHistory.dfy`, `AnchoringWitness.dfy` | the invariant of all its runs, what it means to readers, what is final and until when, when the attempt limit holds, and runs on which these fail |
| `AnchoringRecovery.dfy`, `AnchoringProgress.dfy` | what confirmation, crash recovery, builds and broadcasts do to each row, and the way of a message into the chain |
| `Publisher.dfy` | the worker's procedures as loops over the tables, proved to do what the machine's steps do |
| `MerkleHandlers.dfy` | message status and proof handlers |
| `ModularPower.dfy`, `Srp.dfy` | SRP-6a client and its agreement with the server |
| `SrpServer.dfy` | the registered verifier and the server's side of SRP-6a, section 2.6 of RFC 5054, with equations of their own |
| `Keys.dfy`, `Pqxdh.dfy` | one-time prekeys, identity bundle storage, both sides of the PQXDH handshake |
| `KeyServer.dfy` | the server's prekey pool under concurrent uploads and claims |
| `OpkResponder.dfy` | consumption of a pair by the responder under failed saves and restarts |
| `EndToEnd.dfy` | a run of the pool and a run of a responder's device together |
| `RatchetWire.dfy`, `RatchetSession.dfy` | ratchet wire format, associated data, persistence discipline |
| `SessionKeys.dfy` | session-key cache against its table as seen by `requireAuth` |
| `LocalMessageStore.dfy` | message list with id index against a plain id-keyed list |

Keccak, the SRP hash, HMAC and the handshake primitives are function
parameters: every statement holds for all functions of those types. What is
assumed of them is written as a precondition: nothing for Keccak and the SRP
hash (statements that need collision resistance return the colliding inputs
instead, taken from what the program hashed), commutative Diffie-Hellman and
correct decapsulation for PQXDH, a non-empty output for HMAC. Clocks,
randomness, database answers and network outcomes are parameters too.

Where the code and its comments disagree the models follow the code:

- `server/blockchain/merkle-core.js:4` says a leaf hashes the ciphertext only;
  `computeLeaf` binds four length-prefixed fields.
- `server/blockchain/verification.js:264` still hashes the bare ciphertext.
- `server/middleware/require_auth.js:19` says the two-hour limit is enforced
  where keys are stored; it is enforced in `requireAuth` itself.
- `client/cryptography/core/pqxdh.py:286` describes the key material as the
  code builds it, but with an empty salt where the code passes 32 zero bytes.

Results where the code does not do all that one might expect:

- The error path's UPDATE names a root by its id only. When it hits a root that
  is already confirmed, which takes a confirmation whose commit takes effect and
  then raises, the root leaves `confirmed` while its leaves stay there. Leaves
  and roots agree throughout a run exactly when no step does this
  (`AnchoringHistory.AgreementExact`, `RunAgreesIff`,
  `CleanRunNeverOverwrites`). It also ends the finality of that confirmation
  (`AnchoringHistory.StepKeepsConfirmed`); the other anchoring results hold over
  all runs.
- A root does not bind the number of leaves: any two lengths have lists with one
  root (`MerkleShapes.AnyLengthsShareRoot`), so equal length is what binding needs.
- `attempts` can exceed the limit without bound
  (`AnchoringWitness.AttemptsExceedLimit`). They stay within it throughout a run
  exactly when reconciliation never returns a root that has no attempt left; its
  statements do not look at attempts (`AnchoringHistory.LimitExact`,
  `LimitHoldsIff`). The excess is at most one for each crash (`ReturnsBounded`).
- An upload is accepted without effect exactly when all its ids are known,
  whatever keys come with them (`KeyServer.UploadIgnoredIff`); any unknown id is
  stored with its first entry's keys (`KeyServer.UploadStores`).
- A first message whose pair was handed out gets through exactly when no earlier
  message used the pair up (`EndToEnd.ServedInitiatorOpensIff`).
- The session-key cache is invisible, and revocation holds until the next login,
  exactly when each device is always spelled one way
  (`SessionKeys.CacheInvisibleIffOneSpelling`, `RevocationHoldsIffOneSpelling`):
  UUIDs compare without case in the table and with case in the cache.
- The message index survives a rename exactly when the new id was free
  (`LocalMessageStore.MessageStore.UpdateMessageId`).

## Model

| member | source | states |
|---|---|---|
| `MerkleCore.PreimageRoundTrip` | server/blockchain/merkle-core.js:35-62 | decoding a leaf preimage gives back its four fields, missing and empty context fields identified, for all lengths below 2^32 |
| `MerkleCore.PreimageBytes` | server/blockchain/merkle-core.js:38-59 | the preimage byte by byte: message, conversation, device and ciphertext, each after its length in four little-endian bytes |
| `MerkleCore.PreimageInjective` | server/blockchain/merkle-core.js:38-59 | two preimages are equal exactly when the fields are |
| `MerkleCore.LeafBinding` | server/blockchain/merkle-core.js:21-62 | equal leaves mean equal fields, or the two preimages collide |
| `MerkleCore.PageLeafDiffers` | server/blockchain/verification.js:264 | the page's hash of the bare ciphertext equals the leaf only through a collision |
| `MerkleCore.ProofComplete` | server/blockchain/merkle-core.js:64-92 | every leaf of every non-empty list verifies under its own proof, however often odd nodes are promoted |
| `MerkleCore.RootSplits` | server/blockchain/merkle-core.js:11-72 | without speaking of layers: the root of two or more leaves is the hash of the front's root followed by the rest's, the front being the largest power of two below the length; this fixes order, pairing and promotion |
| `MerkleCore.ProofStepOrder` | server/blockchain/merkle-core.js:77-92 | a step marked left hashes its data before the node, one marked right after it |
| `MerkleCore.RootBinding` | server/blockchain/merkle-core.js:64-72 | equally long lists with one root are equal, or a collision is found among the inputs hashed for the two trees |
| `MerkleCore.ProofBinding` | server/blockchain/merkle-core.js:74-92 | a proof with the positions of index i that verifies another leaf yields a collision between its inputs and the tree's |
| `MerkleCore.LengthNotBound` | server/blockchain/merkle-core.js:11-14 | every list of two or more leaves shares its root with a shorter list |
| `MerkleShapes.AnyLengthsShareRoot` | server/blockchain/merkle-core.js:11-72 | for any two positive lengths there are leaf lists with one root |
| `MerkleShapes.BuildValue` | server/blockchain/merkle-core.js:64-72 | the root of a list is the value of the tree its pairing builds |
| `MerkleCore.BatchBinding` | server/blockchain/merkle-core.js:21-72 | equally long message batches with one root have the same fields in the same order, or hashed inputs collide |
| `LogScan.QueryFilterChunked` | server/blockchain/merkle-core.js:94-107 | asks disjoint consecutive ranges of at most 9000 blocks; answers empty exactly when no log is in the range, else all logs of the first chunk that has one, a prefix of the whole answer |
| `ReconcileScan.ScanForRoot` | server/blockchain/publisher.js:41-45 | the first log found for a root, or its absence, is an answer the state machine's scan takes: none exactly when no successful transaction from the deploy block on emitted the root |
| `MessagesContract.MessageIntegrity.StoreBatchHashes` | blockchain/contracts/MessagesContract.sol:138-153 | all or nothing: one event per root in order with the block's time, or the first failing guard and no event |
| `AnchoringSafety.StepKeepsInv` | server/blockchain/publisher.js:30-242 | every step between two awaits, and every environment step, keeps: unique roots, built roots have no transaction, a leaf is pending exactly while it has no root and confirmed when its root is, indices 0..k-1 hashing to the root, confirmed roots evidenced on chain |
| `AnchoringSafety.RunKeepsInv` | server/blockchain/publisher.js:30-242 | the same in every state reached from the empty database, with crashes at any await and every outcome of every transaction |
| `AnchoringTheorems.StoredMeansAnchored` | server/handlers/merkle/verify.js:4-54 | over every run, a message reported as stored is at its index in its root's leaf list, its proof verifies, and the reported transaction succeeded and emitted HashStored for that root at the reported time |
| `AnchoringTheorems.StatusExact` | server/handlers/merkle/verify.js:4-54 | over every run, exactly the visible messages under a confirmed root are reported as stored with that root, those under another root come with its value, pending ones without, invisible ones with nothing |
| `AnchoringTheorems.OrderedAnswerIsUnique` | server/handlers/merkle/proof.js:31-42 | ordering by leaf_index has one possible answer, the list hashed at build time |
| `AnchoringTheorems.ProofHandlerExact` | server/handlers/merkle/proof.js:19-53 | in every reachable state verified is answered for leaves of confirmed roots and for nothing else, an unconfirmed root exactly for values no confirmed root has, and the recomputed root never disagrees |
| `AnchoringTheorems.BuildTakesOldest` | server/blockchain/build-worker.js:18-64 | a build gives 1 to batchSize oldest pending leaves, none with a root, to one new root in that order |
| `AnchoringTheorems.GroupWithinContract` | server/blockchain/publisher.js:173-205 | with maxRootsPerTx at most 100 a group can only be refused for its sender or a zero root |
| `AnchoringTheorems.ReceiptConfirmsGroup` | server/blockchain/publisher.js:102-145 | a successful receipt holds an event for every root of the group |
| `AnchoringRecovery.ReceiptEffect` | server/blockchain/publisher.js:102-145 | a listed root with an event ends confirmed at the time and index of its last event with all its leaves; without one, or not listed, it stays as it was |
| `AnchoringRecovery.PendingConfirms` | server/blockchain/publisher.js:79-82 | in every reachable state, settling a pending root whose transaction succeeded confirms it by that transaction's event, with its leaves, however the commit reports |
| `AnchoringRecovery.ConfirmReachesGroup` | server/blockchain/publisher.js:215-218 | in every reachable state the worker's own confirmation does the same for every root of its group |
| `AnchoringRecovery.SettleNullTxsEffect` | server/blockchain/publisher.js:38-67 | what the first loop of reconcile does to a root and its leaves depends only on its own scan and statement: confirmed by the event found, back to built without one, untouched when the scan raised or the statement was lost |
| `AnchoringRecovery.SettlePendingsEffect` | server/blockchain/publisher.js:76-97 | what the second loop does to a root and its leaves depends only on its own receipt and statement: confirmed by the last event of a successful transaction, back to built without a hash after a revert, else untouched |
| `AnchoringRecovery.ReconcileSettlesAll` | server/blockchain/publisher.js:27-98 | over every run, a reconcile after a restart that skips no root and loses no statement leaves no root broadcasting |
| `AnchoringProgress.BuildTakes` | server/blockchain/build-worker.js:18-46 | a build starts exactly when pending leaves fill a batch or have waited too long; it takes one full batch, or else all of them |
| `AnchoringProgress.BuildRootEffect` | server/blockchain/build-worker.js:41-63 | a build inserts one fresh root, gives each selected leaf that root and its position, and touches nothing else |
| `AnchoringProgress.BroadcastConfirmsGroup` | server/blockchain/publisher.js:173-219 | a broadcast in which nothing fails confirms its whole group under its transaction, at consecutive log indices, with one attempt more and all leaves, and touches no other root |
| `AnchoringProgress.RaisedLeads` | server/blockchain/publisher.js:201-242 | where a statement that raises leads: to the error path with the whole group, to the next root of reconcile, or to the end of the tick |
| `AnchoringProgress.RunBegins` | server/blockchain/publisher.js:173-219 | over every run, a group is sent only when its marking committed, and awaited only when its hash was stored |
| `AnchoringProgress.MessageGetsStored` | server/handlers/merkle/verify.js:22-54 | a message that is inserted, built and broadcast is reported as stored with that transaction, the root of its batch, the block time, its hash and its position |
| `AnchoringHistory.AgreementExact` | server/blockchain/publisher.js:221-240 | from any reachable state where a leaf is confirmed exactly when its root is, a step keeps this if and only if it is not an error-path UPDATE that takes effect on an already confirmed root |
| `AnchoringHistory.RunAgreesIff` | server/blockchain/publisher.js:123-240 | leaves and roots agree in every state of a run if and only if no step of it is such an UPDATE |
| `AnchoringHistory.OverwriteUndoes` | server/blockchain/publisher.js:228-239 | such an UPDATE takes the root to built or failed while a leaf of it stays confirmed |
| `AnchoringHistory.CleanRunNeverOverwrites` | server/blockchain/publisher.js:201-240 | only a confirmation that commits and then raises can lead to one |
| `AnchoringTheorems.AmbiguousCommitUndone` | server/blockchain/publisher.js:218-240 | after such a confirmation the next step of the error path is one |
| `AnchoringWitness.AmbiguousRunExists` | server/blockchain/publisher.js:149-242 | a concrete run from the empty database in which a confirmed root is overwritten |
| `AnchoringWitness.AttemptsExceedLimit` | server/blockchain/publisher.js:61-63 | for every limit and every larger number a run from the empty database leaves a root with that many attempts |
| `AnchoringHistory.StepKeepsConfirmed` | server/blockchain/publisher.js:30-242 | a step leaves a confirmed root's row as it was if and only if it does not overwrite that root |
| `AnchoringHistory.ConfirmedIsFinalIff` | server/blockchain/publisher.js:123-144 | over every run, a row once confirmed is unchanged at the end if and only if no later step overwrote it |
| `AnchoringHistory.ConfirmedIsFinalWhenClean` | server/blockchain/publisher.js:123-144 | hence for the rest of every run whose raised confirmations had no effect |
| `AnchoringHistory.PlaceIsFinal` | server/blockchain/build-worker.js:53-63 | a leaf that has a root keeps that root, its index and its hash for the rest of every run |
| `AnchoringHistory.AttemptsBounded` | server/blockchain/publisher.js:188-240 | attempts equal the number of broadcasts and exceed the limit by at most the number of returns by reconciliation; a failed root has used up the limit |
| `AnchoringHistory.LimitExact` | server/blockchain/publisher.js:61-88 | from any reachable state whose attempts are within the limit, a step keeps them within it if and only if it is not reconciliation returning a root with no attempt left |
| `AnchoringHistory.LimitHoldsIff` | server/blockchain/publisher.js:30-242 | attempts are within the limit in every state of a run if and only if no step of it is such a return |
| `AnchoringHistory.ReturnsBounded` | server/blockchain/publisher.js:30-98 | over every run reconciliation returns a root at most once for each crash |
| `AnchoringHistory.BroadcastsBounded` | server/blockchain/publisher.js:188-240 | over every run a root is broadcast at most max(1, maxAttempts) times plus the number of crashes |
| `AnchoringHistory.RetriesEnd` | server/blockchain/publisher.js:221-240 | without crashes a root is broadcast at most max(1, maxAttempts) times |
| `AnchoringHistory.NoReturnsWithoutCrash` | server/blockchain/publisher.js:30-98 | without crashes reconciliation returns no root |
| `Publisher.MerkleDatabase.BuildPendingRoots` | server/blockchain/build-worker.js:11-64 | when pending leaves fill a batch or are old enough, changes the tables exactly as the machine's build step does under each outcome of its transaction, and otherwise not at all; a root value that exists makes it raise |
| `Publisher.MerkleDatabase.MarkBuiltRoots` | server/blockchain/publisher.js:157-199 | when built roots are many or old enough, marks exactly the selected group and returns it with the attempts from before, under each outcome of its transaction |
| `Publisher.MerkleDatabase.ConfirmRootsFromReceipt` | server/blockchain/publisher.js:102-145 | the table of events and the loop over rows amount to confirming every listed root with an event, and its leaves, in one transaction |
| `Publisher.MerkleDatabase.RecoverGroup` | server/blockchain/publisher.js:221-241 | the error path's loop takes the machine's recovery steps in order and ends at the first statement that raises |
| `Publisher.MerkleDatabase.ReconcileNullTx` | server/blockchain/publisher.js:31-67 | the first loop of reconcile is the fold whose effect on each root `AnchoringRecovery.SettleNullTxsEffect` states |
| `Publisher.MerkleDatabase.ReconcilePending` | server/blockchain/publisher.js:69-97 | the second loop of reconcile is the fold whose effect on each root `AnchoringRecovery.SettlePendingsEffect` states |
| `Publisher.RecoverFromEffect` | server/blockchain/publisher.js:224-240 | exactly the roots of the group that the loop reached with a statement that took effect change, each by its own attempt count |
| `Srp.MinimalRoundTrip` | client/cryptography/core/srp_session.py:58-61 | the minimal encoding holds every value, has no leading zero and decodes to what was encoded |
| `Srp.SrpSession.ProcessChallenge` | client/cryptography/core/srp_session.py:93-142 | returns M1 and remembers K and the expected M2 of the session specification, or rejects and remembers nothing new |
| `Srp.ClientRejectsIff` | client/cryptography/core/srp_session.py:106-115 | the client rejects exactly a B that is zero modulo N, one beyond the group's width, or a zero u, by the server's own formula for u |
| `Srp.SrpSession.VerifyServer` | client/cryptography/core/srp_session.py:148-159 | true exactly when a challenge was processed and the proof it led to arrives |
| `Srp.Authenticate` | client/cryptography/crypto_service.py:301-356 | start, challenge and verify in order yield the session key exactly when the server sends the proof of the session for the given password |
| `Srp.SecretsAgree` | client/cryptography/testing/test_srp.py:37-88 | client and server compute one secret for every modulus, generator, multiplier and all exponents, the client's base being possibly negative |
| `Srp.LoginAuthenticates` | client/cryptography/crypto_service.py:106-120 | against the server written with equations of its own, holding the verifier registered with the same salt, name and password, the client rejects exactly when B or u is zero; otherwise the server accepts exactly when A is not zero, and K and M2 agree byte for byte |
| `Srp.AcceptanceBindsSecret` | client/cryptography/core/srp_session.py:124-140 | an M1 accepted by that server means equal secrets, unless the two proof inputs or the two padded secrets collide |
| `Srp.DeployedGroupValid` | client/cryptography/core/srp_session.py:22-43 | the 3072-bit modulus and generator satisfy what the proofs ask of a group |
| `Keys.GenerateOneTimePrekeys` | client/cryptography/core/keys.py:467-505 | count prekeys with consecutive ids, none for a count below one, the i-th from the i-th generated key pair |
| `Keys.GenerateOpkPairs` | client/cryptography/core/keys.py:508-525 | the two lists are paired with distinct consecutive ids, each filled in order from its own source of keys |
| `Keys.ReplenishOneTimePrekeys` | client/cryptography/core/keys.py:653-694 | refused exactly for unpaired lists; appending the answer keeps pairing and distinct ids and reaches the target; numbering goes on after the highest id and restarts at 1 only for empty lists; each list is filled from its own source |
| `Keys.WithoutKeepsPairs` | client/cryptography/crypto_service.py:184-185 | dropping an id from both lists keeps them paired at every index |
| `Keys.WithoutErases` | client/cryptography/crypto_service.py:184-185 | dropping a prekey leaves those before and after it as they were |
| `Keys.OpksRoundTrip` | client/cryptography/core/keys.py:325-415 | a prekey list survives serialisation |
| `Keys.PrivateBundleRoundTrip` | client/cryptography/core/keys.py:325-415 | a bundle is serialised exactly when its lists are paired, and reading it back gives the same bundle |
| `Keys.StoredFields` | client/cryptography/core/keys.py:325-358 | every field of a stored bundle is the hex of the key it is named after |
| `Keys.StoredOpkFields` | client/cryptography/core/keys.py:325-358 | likewise for each prekey |
| `Hex.HexDigits` | client/cryptography/core/keys.py:325-358 | hex text has two lower-case digits a byte, the high half first |
| `Pqxdh.DictRoundTrip` | client/cryptography/core/pqxdh.py:126-143 | reading the dictionary of an initiation gives the initiation |
| `Pqxdh.SecretsAgree` | client/cryptography/core/pqxdh.py:196-378 | on the one-time and on the identity path, whenever the initiator accepts a bundle showing the responder's keys, the responder derives the same SK from the serialised initiation and the maps loaded from his lists |
| `Pqxdh.OwnBundleOffers` | client/cryptography/core/keys.py:295-323 | a device's public bundle is one the agreement covers and the initiator's parser accepts |
| `Pqxdh.SubstitutedPrekeyRefused` | client/cryptography/core/pqxdh.py:228-240 | an accepted bundle decodes to a 2624-byte identity key and a 4691-byte signature of which the Ed25519 half and the ML-DSA half both verify the prekey |
| `Pqxdh.InitiatesIff` | client/cryptography/core/pqxdh.py:217-311 | exactly which bundles the initiator goes through with, the signature's both halves and the fallback to the identity key included |
| `Pqxdh.InitiatedKey` | client/cryptography/core/pqxdh.py:242-311 | what it then derives and sends, on either path: 32 bytes of 0xFF, the three or four exchanges in order, the encapsulated secret |
| `Pqxdh.RespondsIff` | client/cryptography/core/pqxdh.py:316-378 | exactly which initiations the responder derives a secret from, and the exchanges and secret he derives it from |
| `Pqxdh.DictFields` | client/cryptography/core/pqxdh.py:126-133 | the dictionary of an initiation, field by field |
| `Pqxdh.LoadedSecret` | client/cryptography/crypto_service.py:154-170 | with distinct ids the map loaded from a list gives each id its own secret |
| `Pqxdh.ConsumedPairRefused` | client/cryptography/core/pqxdh.py:345-364 | once a pair is dropped every initiation naming it is refused, whatever path it claims |
| `Pqxdh.MaterialDeterminesLegs` | client/cryptography/core/pqxdh.py:261-279 | the key material determines every leg and whether the one-time leg is present |
| `KeyServer.KeyPool.Upload` | server/server.js:201-240 | all pairs are inserted or none, with the source's checks in their order; the count returned is the number of pairs |
| `KeyServer.KeyPool.Claim` | server/server.js:159-188 | picks an oldest unused, unlocked row of the device, none only when there is no such row, marks every row of its id and returns them |
| `KeyServer.OldestBelow` | server/server.js:162-171 | while some row is available the query has an answer |
| `KeyServer.InsertFromKeeps` | server/server.js:211-237 | an upload keeps rows paired and changes no row that was there |
| `KeyServer.NeverHandedTwice` | server/server.js:161-237 | over every interleaving of uploads and claims, rows of an id exist in pairs with equal flags, a row is used exactly when handed out, and no id of a device is handed out twice |
| `KeyServer.UploadSucceedsIff` | server/server.js:203-237 | whether an upload succeeds depends on its pairs only: matching int32 ids, keys of 32 and 1568 bytes |
| `KeyServer.UploadStores` | server/server.js:211-237 | row by row, a successful upload keeps old rows, stores each unknown id unused with the keys of its first entry, and adds nothing else |
| `KeyServer.UploadIgnoredIff` | server/server.js:222-233 | an upload succeeds and changes nothing if and only if its pairs are good and all their ids are known |
| `KeyServer.AnswerParses` | client/cryptography/core/pqxdh.py:155-191 | a reachable claim answers one complete pair or nothing, which the initiator's parser accepts |
| `KeyServer.PublicHalfIsHeld` | client/cryptography/core/keys.py:295-323 | the server reads from a published entry exactly the public key of a prekey in the lists |
| `KeyServer.UploadPublishes` | server/server.js:211-237 | uploading a held pair keeps the rows of its id in step with the device's lists, whatever else any device uploads |
| `KeyServer.PoolFollowsOwner` | server/server.js:161-237 | over every run, for each id, the unused rows of a device stay in step with its lists as long as it keeps that pair until it is handed out; other pairs may come and go |
| `KeyServer.ClaimedPairAgrees` | server/server.js:137-197 | over every run, initiating with what the server hands out, both sides derive one secret as long as the device kept the picked pair, on the identity path exactly when nothing was picked |
| `EndToEnd.ServedInitiatorOpensIff` | client/cryptography/crypto_service.py:470-582 | after any run of the pool and any run of the responder's device, a served initiator's first message gets through if and only if the device still holds her pair, and the session then opens with her secret |
| `EndToEnd.UnnamedPairIsHeld` | client/cryptography/crypto_service.py:527-530 | a pair is held as long as no first message named it |
| `OpkResponder.CryptoService.DecryptFirstMessage` | client/cryptography/crypto_service.py:478-582 | the whole new state and answer of a first message, for every way its saves and checks can end |
| `OpkResponder.FirstMessageIff` | client/cryptography/crypto_service.py:514-582 | in every reachable state a first message yields a plaintext exactly when the handshake succeeds, the pair it uses is dropped durably, the sender's key is given and matches the pin, its signature is valid, the ratchet decrypts to that plaintext, and session and pin are saved |
| `OpkResponder.SessionWrittenIff` | client/cryptography/crypto_service.py:536-571 | a session is written exactly when all those checks passed and its save took effect, and it is the message's own |
| `OpkResponder.OpeningsWereSigned` | client/cryptography/crypto_service.py:552-558 | over every run every session ever written comes from a validly signed first message of the run |
| `OpkResponder.SessionsAfterHandshake` | client/cryptography/crypto_service.py:488-580 | after a handshake the conversation's session in memory is the new one or gone; all others stay |
| `OpkResponder.ListsAfterHandshake` | client/cryptography/crypto_service.py:173-186 | after a handshake that uses a pair, the pair is gone from memory, and from disk when the save took effect, whatever the later checks say; otherwise the lists stay |
| `OpkResponder.FailedHandshakeForgets` | client/cryptography/crypto_service.py:488-523 | a failed handshake changes nothing but the conversation's session in memory, which is gone |
| `OpkResponder.CryptoService.ConsumeOpkPair` | client/cryptography/crypto_service.py:173-186 | drops the pair from memory first and from disk when the save takes effect |
| `OpkResponder.PairOpensOnce` | client/cryptography/crypto_service.py:514-582 | over every run with crashes, reloads, failed and ambiguous saves, of two sessions naming one pair the earlier used the identity key, and both copies of the lists stay paired with distinct ids |
| `OpkResponder.HandshakeConsumes` | client/cryptography/crypto_service.py:527-530 | a completed handshake removes the named pair from memory and disk, and on the identity path changes neither |
| `OpkResponder.StepDropsOnlyNamed` | client/cryptography/crypto_service.py:173-186 | no step removes from memory or disk a pair both hold, except the one its message names on the one-time path |
| `OpkResponder.UnnamedPairStays` | client/cryptography/crypto_service.py:478-582 | the same over every run with crashes, failed and ambiguous saves |
| `OpkResponder.OfferedKeysOpen` | client/cryptography/crypto_service.py:470-582 | an initiator who was shown the device's keys gets through on either path, with or without the fallback allowed: the session opens with her secret; the one-time path leaves no copy of the pair, the identity path leaves the lists as they were |
| `OpkResponder.ReopenKeepsPin` | client/cryptography/crypto_service.py:488-549 | a conversation in memory is only reopened with the key pinned for it |
| `RatchetWire.ParseAfterEncode` | client/cryptography/core/dh_ratchet/session.py:375-393 | parsing an encoding returns the message, for all uint32 counters and 32-byte keys; only later messages refuse an empty body |
| `RatchetWire.WireBytes` | client/cryptography/core/dh_ratchet/session.py:346-353 | which messages encode, and where version, counters, key and ciphertext sit, byte by byte |
| `RatchetWire.EncodeAfterParse` | client/cryptography/core/dh_ratchet/session.py:241-253 | what parses is the encoding of what it parses to |
| `RatchetWire.AcceptsExactlyEncodings` | client/cryptography/core/dh_ratchet/session.py:375-397 | the parser accepts exactly the encodings of messages with a body |
| `RatchetWire.ReceiverRebuilds` | client/cryptography/core/dh_ratchet/session.py:328-409 | the receiver rebuilds from the wire the associated data the sender authenticated |
| `RatchetWire.AuthenticatedDetermines` | client/cryptography/core/dh_ratchet/session.py:124-132 | the authenticated bytes determine index, caller data, ratchet key and both counters |
| `RatchetWire.AuthenticatedBytes` | client/cryptography/core/dh_ratchet/session.py:124-132 | where length, index, caller data, key and counters sit in the authenticated data, byte by byte |
| `RatchetSession.Session.Encrypt` | client/cryptography/core/dh_ratchet/session.py:317-358 | memory, disk and answer after an encryption, for every way the save can end |
| `RatchetSession.Session.Decrypt` | client/cryptography/core/dh_ratchet/session.py:360-411 | memory, disk and answer after a decryption, likewise |
| `RatchetSession.SendsIff` | client/cryptography/core/dh_ratchet/session.py:317-358 | when a message leaves, what its wire carries, and where memory and disk then stand, for every way the save can end |
| `RatchetSession.ReceivesIff` | client/cryptography/core/dh_ratchet/session.py:360-411 | a plaintext is returned exactly when the wire is an encoding with a body, the ratchet gave that plaintext and the save returned; memory and disk then hold the ratchet's new state |
| `RatchetSession.CreatesIff` | client/cryptography/core/dh_ratchet/session.py:168-278 | when a session is created on either side, its first index and wire, and where memory and disk stand otherwise |
| `RatchetSession.Load` | client/cryptography/core/dh_ratchet/session.py:281-313 | restores exactly the last state that reached the disk |
| `RatchetSession.CreateAsInitiator` | client/cryptography/core/dh_ratchet/session.py:168-221 | the first wire has index 1 and is returned only with a saved session |
| `RatchetSession.CreateAsResponder` | client/cryptography/core/dh_ratchet/session.py:223-278 | the plaintext is returned only with a saved session |
| `RatchetSession.DeliveredInOrder` | client/cryptography/core/dh_ratchet/session.py:168-433 | over every run with failed and ambiguous writes, crashes and reloads, the indices on the returned wires strictly increase, no two wires use one sending position, and both copies of the state are beyond every returned wire |
| `RatchetSession.ReturnedMeansDurable` | client/cryptography/core/dh_ratchet/session.py:319-358 | whenever a wire or a plaintext is returned, disk and memory hold the same state, and the returned wire parses to the next index at the sending position used |
| `RatchetSession.AmbiguousWriteRepeatsIndex` | client/cryptography/core/dh_ratchet/session.py:354-357 | after a write that took effect and raised, the retry carries the index already on disk |
| `SessionKeys.StoredIsAnswered` | server/state/session_keys.js:23-41 | a stored key answers every lookup under its spelling until its entry and its row have run out, and under a spelling not cached until its row has |
| `SessionKeys.StoredRunsOut` | server/state/session_keys.js:43-60 | once both have run out it answers nothing |
| `SessionKeys.SameDeviceIff` | server/state/session_keys.js:53-60 | two spellings denote one device exactly when they differ in letter case only |
| `SessionKeys.SessionKeyStore.GetSessionKey` | server/state/session_keys.js:43-70 | answer and new cache of a lookup |
| `SessionKeys.RevokedIsForgotten` | server/state/session_keys.js:72-77 | after a revocation a lookup for the device answers exactly what is still cached under another spelling |
| `SessionKeys.SessionKeyStore.Sweep` | server/state/session_keys.js:17-21 | the eviction loop keeps exactly the entries that have not expired |
| `SessionKeys.SessionKeyStore.RequireAuth` | server/middleware/require_auth.js:27-117 | decision and new cache of an authenticated request |
| `SessionKeys.AcceptedIff` | server/middleware/require_auth.js:27-117 | a request is accepted exactly when it is well formed, its device active, and it fits the keys the lookup answers: token, two hours, thirty seconds, HMAC |
| `SessionKeys.AcceptedAfterLoginIff` | server/middleware/require_auth.js:27-117 | after a login an active device's well-formed requests are accepted exactly when they fit that login, for as long as its entry or row lives |
| `SessionKeys.CacheInvisibleIffOneSpelling` | server/middleware/require_auth.js:48-78 | over every run of logins, requests, evictions, restarts and revocations, requireAuth accepts exactly what it would with database lookups only, if and only if every device is always spelled one way |
| `SessionKeys.AcceptedWasLoggedIn` | server/middleware/require_auth.js:27-117 | over every run, an accepted request comes from an active device, carries the token a login gave it at most two hours before, and proves possession of that login's HMAC key within 30 seconds |
| `SessionKeys.RevocationHolds` | server/state/session_keys.js:72-77 | with one spelling per device, after a revocation no request of the device is accepted until its next login |
| `SessionKeys.RevocationHoldsIffOneSpelling` | server/state/session_keys.js:43-77 | revocation holds until the next login over every run, if and only if every device is always spelled one way |
| `SessionKeys.TwoSpellingsDisagree` | server/state/session_keys.js:43-70 | a run and a request on which they differ, for any two spellings of one device |
| `SessionKeys.CacheCanOutliveRow` | server/state/session_keys.js:68-69 | a repopulated entry answers long after its row has expired |
| `MessageLists.SelectKeepsOrder` | client/secure_messenger/src/storage/LocalMessageStore.cpp:341-350 | a filtered list keeps exactly the chosen entries in their order |
| `MessageLists.RenameKeepsUniqueIff` | client/secure_messenger/src/storage/LocalMessageStore.cpp:273-300 | a rename keeps ids unique if and only if it does not apply, its message is absent, or the new id is free |
| `MessageLists.RunKeepsUnique` | client/secure_messenger/src/storage/LocalMessageStore.cpp:211-377 | ids stay unique over every run whose renames meet that condition |
| `MessageLists.OrderKept` | client/secure_messenger/src/storage/LocalMessageStore.cpp:211-377 | after any operation exactly the survivors remain, each changed on its own, in their old order, and a stored message follows them exactly when it has an id that is not there yet |
| `MessageLists.EnvelopesKept` | client/secure_messenger/src/storage/LocalMessageStore.cpp:168-377 | the same for envelopes, of which a rename changes only the first with the old id |
| `LocalMessageStore.MessageStore.constructor` | client/secure_messenger/src/storage/LocalMessageStore.cpp:10-67 | loading restores the saved lists, and the index is exact exactly when the saved ids are unique |
| `LocalMessageStore.MessageStore.StoreDecryptedMessage` | client/secure_messenger/src/storage/LocalMessageStore.cpp:211-228 | refines appending unless the id is empty or stored; index exact, saved state current |
| `LocalMessageStore.MessageStore.StoreOutgoingEnvelope` | client/secure_messenger/src/storage/LocalMessageStore.cpp:168-188 | refines appending unless the id is empty or stored |
| `LocalMessageStore.MessageStore.ContainsMessage` | client/secure_messenger/src/storage/LocalMessageStore.cpp:253-258 | true exactly when some stored message has the id |
| `LocalMessageStore.MessageStore.UpdateMessageId` | client/secure_messenger/src/storage/LocalMessageStore.cpp:273-300 | refines renaming on the list; the index stays exact if and only if the rename is safe |
| `LocalMessageStore.MessageStore.RemoveDecryptedMessage` | client/secure_messenger/src/storage/LocalMessageStore.cpp:302-316 | erasing the indexed position and rebuilding refines filtering by id |
| `LocalMessageStore.MessageStore.MarkMessageRevoked` | client/secure_messenger/src/storage/LocalMessageStore.cpp:318-326 | refines marking by id, saving only on a change |
| `LocalMessageStore.MessageStore.MarkMessageDeleted` | client/secure_messenger/src/storage/LocalMessageStore.cpp:328-336 | likewise for deletion |
| `LocalMessageStore.MessageStore.ClearConversation` | client/secure_messenger/src/storage/LocalMessageStore.cpp:338-370 | the copying loops refine filtering both lists by conversation, and the rebuilt index is exact |
| `LocalMessageStore.BuildIndex` | client/secure_messenger/src/storage/LocalMessageStore.cpp:311-313 | the rebuilt index is the exact inverse of the id column exactly when ids are unique |

## Left out

- Cryptographic primitives (Keccak, SHA-256, HKDF, Argon2id, AEAD, X25519, ML-KEM, Ed25519, ML-DSA): function parameters with the stated assumptions; nothing is said about secrecy.
- merkletreejs, js-srp6a and python-doubleratchet are not part of this model: the tree follows the options pinned in `merkle-core.js`, the SRP server follows section 2.6 of RFC 5054, and the ratchet is a sending position that moves forward.
- The SQL engine, connection pools and the advisory lock: each transaction is atomic, one worker runs at a time, and a query's answer is any answer its clauses allow.
- Publisher and build timers: a tick's order of build and broadcast is not imposed on the state machine, so its runs include more interleavings than the worker has.
- ReconcileScan.ScanForRoot: takes the chain as it is when the scan starts; events mined during a scan are found by the next one.
- SessionKeys.CacheInvisibleIffOneSpelling: compares acceptance only, since the refusal of an expired session is worded differently by the two lookups; a store or a lookup is one step, and a lookup reads the clock once.
- RatchetSession.DeliveredInOrder: covers one session from its creation on; creating a second one under the same id starts the indices again.
- Header counter of the ratchet session: constant in the modelled code paths.
- OpkResponder.PairOpensOnce: covers one keystore; registering again creates a new one, and no code path replenishes prekeys on the client.
- Messages without a non-empty initiation dictionary in `decrypt_message`, and deletion of stored sessions on a reset: they touch no prekey.
- Chain reorganisations and dropped transactions that are later mined twice: a mined transaction stays mined.
- Hard deletion of messages, which removes leaves.
- Contract ownership transfer: the owner is fixed during a run.
- JSON and hex text beyond a round trip (whitespace, letter case), arrays, objects and fractions as `opk_id`, elements of an array-valued key that are not integers, header trimming, non-string fields of a remote bundle, and date formats of the message store.
- Conversation, queue, notice and pagination routes, the Qt user interface and the network clients: shallow filters and plumbing.
