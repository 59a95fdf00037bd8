# ProofVault document provenance, modelled in Dafny

ProofVault is a browser application for document provenance on Filecoin. It
uploads a file to IPFS, which gives the file a content identifier (CID). It
registers that CID with a `ProofVault` contract on the Filecoin Calibration
test network, lists the documents a wallet has registered, and lets anyone
verify a document by its CID or by comparing a file's SHA-256 digest with
the digest inside a CID.

This project models the application's decision logic and state changes. It
proves what that logic promises.

- **Retry engine** (`retry.dfy`, module `Retry`). This is `RetryManager` from
  `src/utils/retryUtils.js`:
  - the three retry conditions;
  - the backoff formula with jitter off;
  - the wrapped error;
  - the bounded retry loop `withRetry`, as a method whose loop invariant gives
    the attempt bound, the early exit and the attempt count.
- **Blockchain service** (`blockchain_service.dfy`, module `Service`). This is
  the `BlockchainService` class of `src/utils/blockchainService.js`, a Dafny
  class with the same fields and an invariant `Valid()` that every operation
  keeps. It covers:
  - wallet connection and the network switch;
  - disconnection and the account-change handler;
  - event-filter bookkeeping;
  - the guards and gas limit of `registerDocument`;
  - the receipt check of `waitForTransaction`;
  - the first-match error mapper `parseContractError`.
- **Verification request** (`verification_request.dfy`, module
  `VerificationRequest`). This is the `handleVerification` status machine of
  `src/components/VerificationRequest.jsx`:
  - its guards, in order;
  - the status runs submitting → submitted → confirmed or failed, including
    the failure that follows `confirmed` when storing or the callback throws;
  - the stored verification list, which grows by exactly one record when a
    confirmation is stored.
- **Document vault** (`document_vault.dfy`, module `DocumentVault`). This is
  `src/components/DocumentVault.jsx`:
  - the document list built from contract reads, sorted newest first;
  - the "mark verified" update;
  - the search for a registration transaction: stored records first, then
    event logs with a narrower block-range fallback;
  - the truncation helpers.
- **Verification queue** (`verification_queue.dfy`, module
  `VerificationQueue`). This is the owner filter, the pending/completed split
  and the display helpers of `src/components/VerificationQueue.jsx`.
- **Verification interface** (`verification_interface.dfy`, module
  `VerificationInterface`). This is `src/components/VerificationInterface.jsx`:
  - byte-array equality, as a loop over arrays;
  - the on-chain check and its fallbacks;
  - the guard order of both handlers and the dispatch between them;
  - the overall verdict.
- **Upload result display** (`cid_display.dfy`, module `CidDisplay`). This is
  `src/components/CIDDisplay.jsx`: the prioritised status classification, its
  message and icon, the retry offer, the links and the CID version label.
- **Shared modules**:
  - `wrappers.dfy`: `Option` and `Result`;
  - `text.dfy`: the JavaScript string operations used (`trim`, `includes`,
    `startsWith`, ASCII `toLowerCase`, prefix/suffix truncation, number
    formatting);
  - `errors.dfy`: the JavaScript error record (name, message, code, reason,
    HTTP response);
  - `ordering.dfy`: the newest-first sort, a stable insertion sort standing in
    for `Array.prototype.sort`.

Everything the application receives from outside becomes a parameter: the
wallet, the RPC node, the contract, `localStorage`, the clock, CID parsing
and SHA-256. A parameter is an answer or a script of answers, or a function
from a request to its answer. Each stateful operation returns the requests
it made, in order, so the model can state which calls happen and which do
not.

## Model

| member | source | states |
|---|---|---|
| Retry.IsRetryableError | src/utils/retryUtils.js:61-84 | A `TypeError` mentioning `fetch` is retried. Otherwise an error with an HTTP response is retried iff the status is ≥ 500, 429 or 408, and its message is never consulted. Without a response, only a `TIMEOUT` code or a timeout/network/connection message is retried. |
| Retry.PinataRetryCondition | src/utils/retryUtils.js:138-147 | The Pinata condition: the HTTP status rule when a response exists; otherwise a `TypeError` or a network/timeout message. |
| Retry.BlockchainRetryCondition | src/utils/retryUtils.js:160-175 | A rejection or insufficient-funds error (by code or message) is never retried, even if the message also mentions the network. Otherwise the network, timeout and gas-estimation failures are retried, and nothing else. |
| Retry.PinataAgreesOnHttpErrors | src/utils/retryUtils.js:138-143 | On errors with an HTTP response (other than a `TypeError`), the Pinata condition and the default condition agree. |
| Retry.BackoffBase | src/utils/retryUtils.js:86-98 | The backoff base is `retry-after`·1000 for a 429 carrying the header, 5·`baseDelay` for a 429 without it, and `baseDelay` otherwise. |
| Retry.CalculateDelay | src/utils/retryUtils.js:86-112 | With jitter off, the delay is never below 100 ms and never above max(`maxDelay`, 100). It is the floor, the cap or base·exponentialBase^attempt. |
| Retry.DelayNonDecreasing | src/utils/retryUtils.js:99-111 | For a fixed error and a base of at least 1, a later attempt never waits less than an earlier one. |
| Retry.RateLimitWaitsLonger | src/utils/retryUtils.js:89-97 | At every attempt, a 429 without `retry-after` waits at least as long as the same failure with any other status. |
| Retry.DefaultSchedule | src/utils/retryUtils.js:7-17 | A manager with no overrides makes at most four calls under the default condition. It waits 1, 2 and 4 s for an ordinary failure, and 5, 10 and 20 s after a 429 without `retry-after`. |
| Retry.PinataSchedule | src/utils/retryUtils.js:134-148 | `pinataRetry` makes at most four calls under the Pinata condition. It waits 2, 4 and 8 s for an ordinary failure, and 10, 20 and 40 s after a bare 429. |
| Retry.ApiSchedule | src/utils/retryUtils.js:150-154 | `apiRetry` makes at most four calls under the default condition. It waits 1, 2 and 4 s for an ordinary failure. After a bare 429 it waits 5 and 10 s, then hits the 15 s cap. |
| Retry.BlockchainSchedule | src/utils/retryUtils.js:156-176 | `blockchainRetry` makes at most three calls under the blockchain condition, so a rejection or a funds error is never repeated. It waits 1.5 and 3 s for an ordinary failure, and 7.5 s then the 10 s cap after a bare 429. |
| Retry.EnhanceError | src/utils/retryUtils.js:114-126 | The thrown error reads "⟨name⟩ failed after ⟨n⟩ attempts: ⟨original message⟩". It keeps the original error, the name and the count, and its `isRetryable` is the manager's condition applied to the original error. |
| Retry.WithRetry | src/utils/retryUtils.js:19-59 | Between 1 and `maxRetries`+1 calls are made. Every call but the last threw a retryable error and was followed by exactly its backoff delay, so there is no sleep after the last call. The first success is returned at once. A failure is thrown only when it is not retryable or no retry is left, and it carries the number of calls made. |
| Text.Trim | src/components/VerificationRequest.jsx:30 | `String.prototype.trim`: the result is no longer than the input, and it neither starts nor ends with whitespace. |
| Text.TrimStartRemovesWhitespace | src/components/VerificationRequest.jsx:30 | Trimming the front removes exactly a leading run of whitespace and keeps the rest as a suffix. |
| Text.TrimEndRemovesWhitespace | src/components/VerificationRequest.jsx:30 | Trimming the end removes only whitespace. |
| Text.TrimEndIsPrefix | src/components/VerificationRequest.jsx:30 | Trimming the end keeps a prefix of the string. |
| Text.TrimIsMiddleSlice | src/components/VerificationRequest.jsx:30 | The trimmed string is a contiguous slice of the input, and everything cut away before and after it is whitespace. |
| Text.TrimEndEmpty | src/components/VerificationRequest.jsx:30 | Trimming the end yields nothing only when every character is whitespace. |
| Text.BlankIffAllWhitespace | src/components/VerificationRequest.jsx:30 | `!s.trim()` holds iff every character of `s` is whitespace. |
| Text.ContainsIff | src/utils/retryUtils.js:63 | `includes` holds iff the substring occurs at some position. |
| Text.ToLower | src/components/VerificationQueue.jsx:24 | Lower-casing keeps the length and maps each character on its own. |
| Text.ToLowerIdempotent | src/components/VerificationQueue.jsx:24 | Lower-casing an already lower-cased string changes nothing. |
| Text.Elide | src/components/DocumentVault.jsx:329-332 | A string no longer than start+end is returned unchanged. A longer one becomes its first `start` characters, "..." and its last `end` characters. With `end` = 0, `slice(-0)` keeps the whole string after the "...". |
| Text.SliceFromEnd | src/components/DocumentVault.jsx:331 | `slice(-k)` gives the last `k` characters, and the whole string when `k` is 0. |
| Text.ElideIdempotent | src/components/DocumentVault.jsx:329-332 | When some end is kept, truncating a truncated string changes nothing. |
| Text.NatToString | src/utils/retryUtils.js:116 | A count prints as a non-empty string of decimal digits that denotes the count, with no leading zero unless the count is 0. |
| Ordering.SortNewestFirst | src/components/DocumentVault.jsx:115 | The sorted list is newest first and a permutation of the input. |
| Ordering.SortKeepsSorted | src/components/DocumentVault.jsx:115 | Sorting a list that is already newest first leaves it unchanged. |
| Ordering.SortIsStable | src/components/DocumentVault.jsx:115 | The sort is stable, as `Array.prototype.sort` is: for every timestamp, the elements with that timestamp appear in the sorted list in their input order. |
| Service.EnsureCorrectNetwork | src/utils/blockchainService.js:133-163 | A switch is requested iff the chain is not 314159. The chain is added iff the switch failed with code 4902. Any other switch error is rethrown unchanged. After a 4902 failure, the error thrown is exactly the add request's error, if it has one. At most two requests are sent. |
| Service.ParseContractError | src/utils/blockchainService.js:397-424 | First match wins, in this order: gas-estimation failure, insufficient funds, user rejection, network error, then `reason`, then `message`, then the fixed unknown text. The result is always a plain error with a non-empty message. |
| Service.ParseKeepsPlainErrors | src/utils/blockchainService.js:397-424 | The service's own guard errors pass through the mapper unchanged. |
| Service.ParseIdempotent | src/utils/blockchainService.js:397-424 | Mapping an already-mapped error changes nothing. |
| Service.GasLimit | src/utils/blockchainService.js:222 | The gas limit is ⌊estimate·120/100⌋, never below the estimate. |
| Service.BlockchainService.constructor | src/utils/blockchainService.js:37-44 | A new service is disconnected, has no handles and no filters, and satisfies the invariant. |
| Service.BlockchainService.ConnectWallet | src/utils/blockchainService.js:48-122 | Failures before the accounts are known change nothing, and each sends exactly the wallet requests made so far. Once an account is known, the provider, signer and account are replaced even if the network step then fails. Only a successful network step installs the contract and sets `isConnected`. The listener map is untouched. |
| Service.BlockchainService.DisconnectWallet | src/utils/blockchainService.js:124-131 | Every handle and the account are cleared, `isConnected` is false and the listener map is empty. |
| Service.BlockchainService.HandleAccountsChanged | src/utils/blockchainService.js:180-188 | An empty list disconnects. The same first account changes nothing. A different first account is stored and a reconnection runs with the effects of `connectWallet`. Once the wallet yields accounts, the provider and signer are replaced. The contract is replaced and the service is connected only if the network step succeeds; otherwise the contract and connection flag are kept. A reconnection that fails before the accounts keeps every handle. The invariant is kept either way. |
| Service.BlockchainService.HandleDisconnect | src/utils/blockchainService.js:195-197 | The wallet going away leaves the service disconnected. |
| Service.BlockchainService.ListenForDocumentRegistered | src/utils/blockchainService.js:340-362 | Without a contract it throws and the map is unchanged. Otherwise exactly the `DocumentRegistered` entry is set, replacing an earlier one. |
| Service.BlockchainService.ListenForDocumentVerified | src/utils/blockchainService.js:364-386 | Without a contract it throws and the map is unchanged. Otherwise exactly the `DocumentVerified` entry is set, replacing an earlier one. |
| Service.BlockchainService.StopListening | src/utils/blockchainService.js:388-393 | An unregistered name changes nothing. A registered name removes exactly that entry and detaches its filter; the invariant guarantees a contract is there to detach from. |
| Service.BlockchainService.RegisterDocument | src/utils/blockchainService.js:201-254 | A disconnected service is refused before its inputs are inspected. A missing CID or tag gives "CID and tag are required.". A blank CID gives "Invalid CID provided." and then a blank tag "Invalid tag provided.". No contract call happens unless connected and both inputs are non-blank. Once the estimate and the gas price succeed, the calls are exactly estimate, gas price and a send with the 20% gas buffer, unless the caller fixed the limit or price. Success iff the send succeeds. A failed estimate, gas price or send is reported as `parseContractError` of exactly that failure, after exactly the calls made so far. |
| Service.BlockchainService.WaitForTransaction | src/utils/blockchainService.js:256-282 | Success iff a provider exists and the receipt has status 1. Any other status throws the fixed failure text, and a provider failure is rethrown. |
| VerificationRequest.GuardError | src/components/VerificationRequest.jsx:24-38 | Guards run in order (not connected, blank trimmed name, missing CID), and all pass iff connected with a non-blank name and a CID. |
| VerificationRequest.ConfirmedOnlyAfterSubmitted | src/components/VerificationRequest.jsx:40-97 | A status run reaches `confirmed` only directly from `submitted`. |
| VerificationRequest.RunsAreValid | src/components/VerificationRequest.jsx:40-97 | The four runs the handler makes are status runs: submitting→failed, submitting→submitted→failed, submitting→submitted→confirmed, and submitting→submitted→confirmed→failed. |
| VerificationRequest.RunShape | src/components/VerificationRequest.jsx:40-97 | Every status run is one of the four runs the handler makes, so it has at most four statuses. A run ending confirmed is exactly submitting, submitted, confirmed, and the only four-status run is that one followed by failed. |
| VerificationRequest.RequestForm.constructor | src/components/VerificationRequest.jsx:7-12 | The form starts idle, not loading, with empty name, error and hash and the type `self`. |
| VerificationRequest.RequestForm.OnCidChange | src/components/VerificationRequest.jsx:17-22 | A CID change resets the name, error and hash and sets the status to idle. Nothing else changes. |
| VerificationRequest.RequestForm.SubmitEnabled | src/components/VerificationRequest.jsx:228 | The button is enabled iff the form is not loading, the trimmed name is non-empty and the status is not confirmed. |
| VerificationRequest.RequestForm.HandleVerification | src/components/VerificationRequest.jsx:24-98 | A failed guard sets its error and makes no call. Otherwise the service is called with the trimmed name: the `self` type uses `selfVerifyDocument` and any other type `verifyDocument`. The status follows one valid run and loading ends false. A confirmed transaction appends exactly one record, with earlier records kept in order, unless reading or writing the stored list throws. A throw after confirmation (storage or callback) ends the run failed with the confirmation error, and a callback throw comes after the record was stored. Nothing is stored or notified when the call or the wait fails. |
| VerificationRequest.RequestForm.Submit | src/components/VerificationRequest.jsx:40-97 | The part after the guards establishes the submission effect described above. |
| VerificationRequest.RequestForm.SubmitFailed | src/components/VerificationRequest.jsx:92-96 | When the verify call throws, the run is submitting→failed. The error is the thrown message, or the default text when it is empty. Only the first call is made, and nothing is stored. |
| VerificationRequest.RequestForm.FollowTransaction | src/components/VerificationRequest.jsx:55-91 | After a returned hash, the hash is kept and the wait for one confirmation is the second call. The rest is the confirmation effect. |
| VerificationRequest.RequestForm.AwaitConfirmation | src/components/VerificationRequest.jsx:61-91 | A failed wait ends submitted→failed with the confirmation error and nothing stored. A storage throw ends confirmed→failed with nothing stored. Otherwise the record is stored and passed to the callback if there is one. A throwing callback still ends the run failed. |
| VerificationRequest.EnabledFormPassesGuards | src/components/VerificationRequest.jsx:228 | A form whose button is enabled passes the name guard, so with a wallet and a CID it submits. |
| VerificationRequest.SubmissionReenablesUnlessConfirmed | src/components/VerificationRequest.jsx:40-97 | After a submission, with a name still entered, the button is enabled again iff the run did not end confirmed. A confirmed form never submits twice. |
| VerificationRequest.StoredOnlyWhenConfirmed | src/components/VerificationRequest.jsx:63-78 | The stored list changes iff the run reached confirmed and the storage did not throw. When it changes, one record is appended after the kept earlier ones, with status `confirmed`, the submitted hash and the CID. A run left confirmed always stored its record. |
| VerificationRequest.ShippedVerifyCall | src/components/VerificationRequest.jsx:49-52 | As shipped, the verify call always throws a `TypeError`. |
| VerificationRequest.ShippedSubmissionNeverConfirms | src/components/VerificationRequest.jsx:44-97 | With the shipped call, every submission ends `submitting → failed` with the `TypeError`'s text, and nothing is stored or notified. |
| DocumentVault.KeptCids | src/components/DocumentVault.jsx:53-68 | At most one CID per index is kept. Every kept CID is non-empty and was returned by a successful read. |
| DocumentVault.KeptCidsComplete | src/components/DocumentVault.jsx:53-68 | Every successful, non-empty read is kept. |
| DocumentVault.CollectCids | src/components/DocumentVault.jsx:53-68 | The index loop collects exactly the kept CIDs, in index order. |
| DocumentVault.BuildDocument | src/components/DocumentVault.jsx:73-111 | A successful read yields the contract's fields with the timestamp in milliseconds. A failed read yields the fallback record (tag `Unknown`, not verified, `error` set, owner the user, time now). |
| DocumentVault.BuildAll | src/components/DocumentVault.jsx:73-112 | One record per kept CID, in order. |
| DocumentVault.FetchUserDocuments | src/components/DocumentVault.jsx:30-124 | No wallet, or a missing or zero count, gives an empty list and no reads. Otherwise there is one read per index, and the list is a newest-first permutation of the records built for the kept CIDs. |
| DocumentVault.FetchedCidsComeFromReads | src/components/DocumentVault.jsx:53-68 | Every listed document's CID is non-empty and came from a successful read of some index. |
| DocumentVault.MarkVerified | src/components/DocumentVault.jsx:344-350 | Exactly the documents with the verified CID become verified; every other field of every document is unchanged. |
| DocumentVault.MarkVerifiedIdempotent | src/components/DocumentVault.jsx:344-350 | Marking the same CID twice equals marking it once. |
| DocumentVault.MarkVerifiedKeepsOrder | src/components/DocumentVault.jsx:344-350 | Marking keeps the list newest first. |
| DocumentVault.FirstStoredIndex | src/components/DocumentVault.jsx:133 | The index found holds the CID and no earlier record does. No index is found iff no record holds the CID. |
| DocumentVault.FindStored | src/components/DocumentVault.jsx:132-135 | The record found has the CID and is stored, and none is found iff no stored record has the CID. |
| DocumentVault.LogMatchIgnoresCase | src/components/DocumentVault.jsx:246-247 | Whether a log matches does not depend on the case of the connected address. An undecodable log never matches, and a match has the CID asked for. |
| DocumentVault.SearchedLogs | src/components/DocumentVault.jsx:164-212 | The logs searched are the all-blocks answer when that query succeeds. Otherwise they are the narrowed query from the fallback block, and an error when reading the latest block fails. |
| DocumentVault.FallbackFromBlock | src/components/DocumentVault.jsx:188 | The narrowed search covers the last 10000 blocks, or starts at block 0 when the chain is shorter. |
| DocumentVault.FetchTransactionDetails | src/components/DocumentVault.jsx:127-284 | A stored record wins, and the first one is used. Without a client or address the wallet is reported not connected. Otherwise all blocks are queried first, and the narrowed range only after that query fails and the latest block is known. Events are reported unavailable iff no log list could be obtained. The first log of the searched list whose user matches case-insensitively and whose CID is equal is reported. "Not found" means no log of that list matched. |
| DocumentVault.TruncateCid | src/components/DocumentVault.jsx:329-332 | At most 24 characters are returned unchanged; longer CIDs keep their first and last 12 around "...". |
| DocumentVault.TruncateAddress | src/components/DocumentVault.jsx:334-337 | An absent address stays absent, and a value of at most start+end characters is unchanged. A longer one keeps its first `start` and last `end` characters around "...". The defaults are 6 and 4, and transaction hashes use 10 and 8 (line 515). |
| VerificationQueue.Select | src/components/VerificationQueue.jsx:23-33 | Only records of the current verifier with a wanted status are kept. |
| VerificationQueue.SameVerifierIgnoresCase | src/components/VerificationQueue.jsx:23-25 | Ownership is symmetric and ignores case. A record without an address belongs only to a reader without one. |
| VerificationQueue.SelectCount | src/components/VerificationQueue.jsx:23-33 | Each wanted record of the current verifier is kept as many times as it is stored; everything else is dropped. |
| VerificationQueue.LoadVerificationHistory | src/components/VerificationQueue.jsx:17-44 | Both lists are newest first. Pending is a permutation of the user's `submitted`/`pending` records and completed a permutation of the user's `confirmed`/`failed` records. |
| VerificationQueue.HistoryPartitionsOwnRecords | src/components/VerificationQueue.jsx:23-37 | The lists are disjoint. A record appears in one iff it is the user's (case-insensitively, with two absent addresses equal) and has a known status, and every copy lands in exactly one list. |
| VerificationQueue.TruncateCid | src/components/VerificationQueue.jsx:56-59 | Empty or short CIDs are unchanged; longer ones keep the first and last 8 around "...". |
| VerificationQueue.TruncateHash | src/components/VerificationQueue.jsx:61-64 | Empty or short hashes are unchanged; longer ones keep the first and last 6 around "...". |
| VerificationQueue.StatusIcon | src/components/VerificationQueue.jsx:66-79 | Any status outside the four known ones shows the unknown icon. |
| VerificationQueue.StatusClass | src/components/VerificationQueue.jsx:81-94 | A known status gets `status-⟨status⟩`, and anything else gets `status-unknown`. |
| VerificationQueue.StatusDisplayDistinguishes | src/components/VerificationQueue.jsx:66-94 | Distinct known statuses get distinct icons and classes, and none looks like an unknown status. |
| VerificationQueue.ContinueOnlyForPending | src/components/VerificationQueue.jsx:169 | A record offered "Continue Verification" is in the pending list and never in the completed list. |
| VerificationQueue.OffersContinue | src/components/VerificationQueue.jsx:169 | "Continue Verification" is offered only with a handler and for a pending record that is neither completed nor `submitted`. |
| VerificationInterface.AreUint8ArraysEqual | src/components/VerificationInterface.jsx:156-162 | True iff the two arrays have equal length and the same byte at every index. |
| VerificationInterface.CheckOnChainVerification | src/components/VerificationInterface.jsx:48-68 | Without a contract: an error, not verified, and no reads. Otherwise `documents` is read first and `isVerified` only if that read succeeds. Any failure yields an error result, which is never verified. |
| VerificationInterface.CidGuard | src/components/VerificationInterface.jsx:72-82 | An empty trimmed input is reported before the format check. The guard passes iff the input is non-blank and well-formed. |
| VerificationInterface.FileGuard | src/components/VerificationInterface.jsx:106-121 | The checks run in order (missing file, blank CID, malformed CID). The guard passes iff all three pass. |
| VerificationInterface.CidVerification | src/components/VerificationInterface.jsx:71-102 | A failed guard only sets the error: loading never starts, the previous result stays and nothing is read. Otherwise the result is the on-chain check of the trimmed CID and the error is cleared. |
| VerificationInterface.FileVerification | src/components/VerificationInterface.jsx:105-153 | A failed guard only sets the error. A file that cannot be read clears the result and reports "Verification failed: …" with no contract read. Otherwise the result records whether the file's digest equals the CID's digest, together with the on-chain check. |
| VerificationInterface.OverallVerdict | src/components/VerificationInterface.jsx:436-459 | The verdict is "fully verified" iff a file check matched and the CID is registered and verified; "registered and verified" iff a CID-only check found it registered and verified; otherwise incomplete. |
| VerificationInterface.FullyVerifiedMeansMatchAndConfirmed | src/components/VerificationInterface.jsx:436-443 | Past the guards, a file check is fully verified iff the file's digest is the CID's and the contract answers registered and verified. |
| VerificationInterface.NoContractNeverVerifies | src/components/VerificationInterface.jsx:49-51 | Without a contract, no contract read is made and any new result is incomplete. |
| VerificationInterface.HandleVerifyOutcome | src/components/VerificationInterface.jsx:180-186 | Method `cid` runs the CID check, and any other method the file check. |
| VerificationInterface.InterfaceState.constructor | src/components/VerificationInterface.jsx:7-12 | The component starts on the CID method with nothing entered or shown. |
| VerificationInterface.InterfaceState.VerifyByCid | src/components/VerificationInterface.jsx:71-102 | The new result, the error, whether loading started and the reads made are those of the CID check. Once loading started, the `finally` leaves it false; a refused input leaves it as it was. |
| VerificationInterface.InterfaceState.VerifyByFile | src/components/VerificationInterface.jsx:105-153 | The new state is that of the file check, with the digests compared byte by byte. Once loading started, the `finally` leaves it false; a refused input leaves it as it was. |
| VerificationInterface.InterfaceState.HandleVerify | src/components/VerificationInterface.jsx:180-186 | The new state is that of the dispatched check, and `loading` ends false once a check started. |
| CidDisplay.GetBlockchainStatus | src/components/CIDDisplay.jsx:97-106 | The status is `success` iff confirmed. Otherwise it is `pending` iff there is a transaction hash (even with an error), else `error` iff there is an error, else `none`. |
| CidDisplay.HashOutranksError | src/components/CIDDisplay.jsx:97-106 | An unconfirmed upload with both a hash and an error shows as pending. |
| CidDisplay.BlockchainMessage | src/components/CIDDisplay.jsx:108-120 | The error message embeds the blockchain error text. |
| CidDisplay.MessageDeterminesStatus | src/components/CIDDisplay.jsx:108-120 | The message tells the four statuses apart, and the error text can be read back from an error message. |
| CidDisplay.StatusIcon | src/components/CIDDisplay.jsx:122-134 | Every status has a non-empty icon. |
| CidDisplay.StatusIconsDistinct | src/components/CIDDisplay.jsx:122-134 | Distinct statuses have distinct icons. |
| CidDisplay.OffersRetry | src/components/CIDDisplay.jsx:194 | Retry is offered only with no confirmation, no transaction hash and an error to show, and the message then carries that error. |
| CidDisplay.GatewayUrl | src/components/CIDDisplay.jsx:84-86 | The public gateway link is the fixed prefix followed by the CID. |
| CidDisplay.PinataGatewayUrl | src/components/CIDDisplay.jsx:88-91 | The Pinata link uses the configured gateway, or `gateway.pinata.cloud` when unset or empty. |
| CidDisplay.ExplorerUrl | src/components/CIDDisplay.jsx:93-95 | The explorer link is the Calibration message prefix followed by the hash. |
| CidDisplay.LinksAreInjective | src/components/CIDDisplay.jsx:84-95 | Different CIDs or hashes give different links. |
| CidDisplay.CidVersionLabel | src/components/CIDDisplay.jsx:371 | The label is "v0 (Base58)" iff the CID starts with `Qm`, and "v1 (Base32)" otherwise. |

## Left out

- Jitter in `calculateDelay` uses `Math.random` and floating-point scaling. Delays are modelled with jitter off. The exported managers run with jitter on by default, so their real delays vary by ±10% around the modelled ones.
- Retry.CalculateDelay: `exponentialBase` is a natural number and `retry-after` a whole number of seconds. A fractional base and a non-numeric header (`parseInt` giving `NaN`) are not modelled.
- Retry.WithRetry: `sleep` is recorded as a delay and not waited. The operation is a script of outcomes indexed by attempt, not a live call.
- Retry.EnhanceError: the `timestamp` field (the current time in ISO format) is not modelled.
- Retry.IsRetryableError: an absent error message is modelled as the empty string. In the source, the `fetch` check calls `includes` on `error.message` without optional chaining, so a `TypeError` with no message would throw there.
- Wallet and RPC I/O are inputs: `window.ethereum` requests, ethers objects, gas estimation, gas price, `publicClient` reads, `getLogs` and log decoding. The answers are parameters, and handler registration on `window.ethereum` is not modelled.
- Service.BlockchainService.ListenForDocumentRegistered and ListenForDocumentVerified: only the map from event name to filter is modelled. The handlers attached with `contract.on` are not. Registering twice replaces the map entry, but the earlier handler stays attached until `removeAllListeners` clears the event.
- `handleChainChanged` only reloads the page, so it is not modelled.
- `getDocumentMetadata`, `isDocumentVerified`, `getUserDocuments`, `getBalance`, `estimateGas`, `updateContractAddress`, `getContractAddress`, `getNetworkConfig` and `getConnectionStatus` are thin RPC wrappers or accessors. They are not modelled.
- Gas prices are kept in wei; `formatUnits`/`formatEther` formatting is not modelled.
- `selfVerifyDocument` and `verifyDocument`: the service does not define them. The intended behaviour is modelled with the call's answer as an input, and the shipped behaviour is recorded under Findings.
- CID parsing and conversion (multiformats) and SHA-256 (`crypto.subtle`) are inputs. QR codes, the clipboard and the alternative CID formats are not modelled.
- Floats and locale formatting (`formatFileSize`, `formatDate`, `toLocaleString`) are not modelled.
- `localStorage` JSON parsing and serialisation: each stored list is a sequence of records. When the verification form stores a record, a malformed stored value or a failing write is an input (`StorageFault`). The readers in the vault and the queue catch and log a malformed value, and that path is not modelled.
- DocumentVault.FetchUserDocuments: one clock reading serves every fallback record, whereas the source reads `Date.now()` once per failed metadata read. The outer catch for errors outside the per-read handlers is not modelled.
- DocumentVault.FetchTransactionDetails: the shape of the returned object (display strings such as "Confirmed" or "Not found on chain", block numbers as strings) is reduced to which case occurred and the record or log found. The outer catch is not modelled.
- Ordering.SortNewestFirst: `Array.prototype.sort` sorts in place. It is modelled as a function on values, so in-place update and aliasing of the sorted array are not captured.
- Text.ToLower: only ASCII letters are lowered. Strings are sequences of code points, not UTF-16 code units, and `trim` recognises the common whitespace characters rather than the full Unicode set.
- The delayed document refresh after a verification (a `setTimeout`) is not modelled.
- React rendering, hooks, CSS, the upload component, wallet UI, deployment and build configuration are not modelled.

## Findings

| source | as written | input that shows it | evidently intended | confidence | as-written member | corrected member |
|---|---|---|---|---|---|---|
| src/components/VerificationRequest.jsx:49-52 | `handleVerification` calls `blockchainService.selfVerifyDocument` / `verifyDocument`, which `src/utils/blockchainService.js` does not define | any connected submission with a non-blank name and a CID: the call throws a `TypeError`, and the status goes submitting → failed | the service sends the contract's `verifyDocument` transaction and returns its hash | high, not executed | VerificationRequest.ShippedSubmissionNeverConfirms | VerificationRequest.RequestForm.Submit |
