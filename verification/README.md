# Verified model of the accounts ledger and the firewall storage

Dafny model of the parts of the Lightning Terminal daemon whose bookkeeping has to stay
consistent over whole runs, with proofs of what they promise.

**Off-chain accounts.** `ServiceSpec` says what each call of the account service does to
its whole state: the store, the tracked payments, the mapped invoices, the registered
request values, the indexes and the enabled flag. `AccountService` and `AccountCheckers`
are the imperative service and interceptor handlers, proved against it. `Protocol` turns
the calls into one transition system: intercepted requests, responses and errors, lnd's
payment and invoice streams, admin calls, restarts, and failure of every single store
write, interleaved at each service call (the request mutex only keeps a second message
out). `Finality`, `Ledger`, `Restart` and `InvoiceCredits` prove what holds over every run;
`Outcomes` says what each call means for a payment and follows payments from request to
end, and `Reservations` shows which reserved amounts only a restart frees.
`BoltStore` (serialised accounts in one bucket) and `SqlStore` (account, invoice, payment
and index tables) both refine `AccountStore`; `StoreAgreement` runs them side by side, and
`StoreLaws` ties the calls of the store to each other.
`Wire` and `AccountCodec` are the TLV encoding of accounts.

**Firewall storage.** `Pagination` is the cursor paginator with its two query forms,
`ActionLog` the action buckets and their index, `RequestLogger` the logger over all its
runs, `ActionListing` the filter that ends a scan early, `ActionHistory` what the log holds
after any run, told from the events. `KvTree` and `KvBolt` are the
rule stores in the nested bucket tree, `KvSql` the same stores in rows, `KvAgreement`
both as one flat map, `KvCollect` and `KvMigration` the migration between them. `Text`,
`PrivacyMap` and `PrivacyStore` are the privacy map with its hide and reveal functions and
the consistency check of its migration, `ConfigObfuscation` the rewriting of feature
configurations.

**Transactions.** `TxExecutor` is the SQL transaction executor with its retries and delays.

Every store write that the source can see fail is an explicit flag of the step, every
random draw and every iteration order over a Go map is arbitrary. Integers are unbounded
in Dafny, so 64-bit wrap-around is written out (`ToInt64`, `ToUint64`, `After`).

Properties that turned out not to hold as one might expect, with the exact condition:

- A SUCCEEDED payment is final if and only if it is no longer tracked for its account
  (`FinalIff`, `FinalityInEveryRun`, over all runs with any failures). It is not tracked
  whenever the service is enabled or its own removal was never lost; when the second store
  write of its settlement fails, it is (`LostRemovalBreaksFinality`), and a failing removal
  of the account then makes it FAILED.
- The balance is what credits, debits and SUCCEEDED payments make it, less the amounts of
  payments that became FAILED in that way: it is conserved if and only if these amounts
  vanish (`Conservation`).
- The balance check reads the amount as a signed word. It lets an amount pass that is not
  covered if and only if the amount is above 2^63-1 (`CheckMissesIff`), which is how a
  negative `AmtMsat` is read (`NegativeReadsLarge`): such a send overdraws any account
  (`LargeSendOverdraws`). In runs that are benign otherwise, no account is ever overdrawn
  if and only if no such amount is reserved (`OverdraftIff`).
- A restart withholds the amounts of FAILED payments again: the account is covered in the
  end, whatever the order of taking payments up, if and only if its balance covers what was
  in flight and what had FAILED (`RestartCoveredIff`).
- The Bolt and SQL stores differ on credits and debits above the signed 64-bit maximum
  (`CreditDiffersAboveMax`, `DebitDiffersAboveMax`).
- A response that reports a failure frees nothing: in every reachable state a payment that is
  waited for is not tracked yet, so `RemovePayment` finds nothing to remove and what the
  request reserved stays withheld until a restart (`FailedResponseStrands`). So does a
  request id that is used twice (`ReusedRequestStrands`).
- A settled invoice is credited at most once, not exactly once (`FailedCreditIsLost`); it is
  credited if it is the invoice of one account and no write fails
  (`AddedInvoiceIsReceived`).
- A decimal number of 66 digits in a configuration is taken for a node key
  (`NumberHiddenIff`).
- The counting query returns the page of the plain query only in some cases
  (`CountedForward`, `CountedReverse`); an offset of 2^64-1 wraps (`LargestOffsetWraps`).
- Ending a scan early is sound, in either direction, if and only if the actions are in the
  order of their times (`EarlyExitIffOrdered`).
- After the key-value migration every lookup is preserved if and only if every migrated
  group is named by the alias of its first session (`Migrate`).
- A revealed number comes back unless its pseudonym is zero (`Uint64RoundTrips`). A channel
  point can be hidden if and only if its own key is new and the candidate free, or is known
  under a channel point, whatever texts were hidden before (`ChanPointHiddenIff`); it comes
  back if and only if its txid is well formed (`ChanPointRoundTrips`).
- The two backends of the key-value stores ask different questions about a group; a write
  gets the same reply if and only if both or neither know it (`KvAgreement.StepBoth`).
- The retry delay is exact if and only if the initial delay is at most about 1.43 s
  (`DelayExactIffRoomy`); beyond that a late delay can be negative (`TightOverflows`).

Where code and comments disagree the code is followed: the delay before the second attempt
is not capped at the maximum (db/interfaces.go:130-132 against 118-120), and `recordSize`
leaves out the leading count of a map record (accounts/tlv.go:132-134).

Check everything with `dafny verify dfyconfig.toml`.

## Model

| member | source | states |
|---|---|---|
| `Finality.StepKeepsInv` | accounts/service.go:486-911 | every step of the protocol, whatever fails in it, keeps the joint invariant over tracked payments, request values, handler position and stored statuses, and every SUCCEEDED entry that is not tracked |
| `Finality.RunKeepsInv` | accounts/service.go:97-911 | the invariant holds in every state of every run, with any failures |
| `Finality.RunKeepsAgreement` | accounts/service.go:883-911 | only a lost removal of a payment itself makes its tracking disagree with the store |
| `Finality.PaymentFinality` | accounts/service.go:796-911 | a SUCCEEDED entry that is not tracked keeps status and amount over every run with any failures, while its account exists |
| `Finality.TrackedIsNotFinal` | accounts/service.go:420-440 | one that is still tracked becomes FAILED by a removal of the account that fails in its last write |
| `Finality.FinalIff` | accounts/service.go:420-440 | a SUCCEEDED entry stays over every run that can follow if and only if it is not tracked for its account |
| `Finality.FinalityInEveryRun` | accounts/service.go:631-911 | from installation, over every run with any failures, the same if-and-only-if; and not tracked whenever the service is enabled or the payment's own removal was never lost |
| `Finality.SettledNotDebitedAgain` | accounts/service.go:796-865 | further updates for a settled hash leave the account untouched, whatever fails, even if it is still tracked |
| `Finality.SettleEffect` | accounts/service.go:840-865 | the removal after the debit leaves the settled amount on record |
| `Finality.LostRemovalBreaksFinality` | accounts/service.go:842-865 | if the write that ends tracking fails after the debit, the payment is settled and tracked and some run changes it, from every state |
| `Finality.ReleaseKeepsInv` | accounts/service.go:883-911 | releasing a tracked payment keeps the invariant |
| `Finality.AssociateKeepsInv` | accounts/service.go:526-550 | associating a payment keeps the invariant |
| `Finality.ResponseKeepsInv` | accounts/checkers.go:638-680 | a send response keeps the invariant and all settled entries |
| `Finality.ErroredKeepsInv` | accounts/checkers.go:738-764 | an RPC error deletes no settled entry and keeps the invariant |
| `Finality.RemoveAccountKeepsInv` | accounts/service.go:420-440 | removing an account, complete or cut short, keeps the invariant |
| `Finality.LifeKeepsInv` | accounts/service.go:97-221 | a restart and every step of Start keep the invariant |
| `Finality.CacheAgreement` | accounts/service.go:118-139 | in every reachable state each tracked payment is on record in an existing account, and in flight as long as the service is enabled or its own removal was never lost; an invoice mapped to an existing account is one of its stored invoices |
| `Finality.InvoiceMappingsBacked` | accounts/service.go:486-501 | without account removals every invoice mapping is backed by a stored invoice |
| `Finality.RemovalLeavesNothingTracked` | accounts/service.go:420-440 | a successful removal leaves nothing of the account tracked and other accounts alone |
| `Finality.StaleInvoiceDisables` | accounts/service.go:595-627 | a settlement for a removed account disables the service |
| `Finality.RemovedForGood` | accounts/service.go:420-440 | a removed account never comes back |
| `Outcomes.FailedUpdateReleases` | accounts/service.go:830-838 | a FAILED update ends tracking, marks the entry and frees exactly the amount it withheld, balance unchanged; if the write fails the service stops with the payment tracked |
| `Outcomes.SucceededUpdateSettles` | accounts/service.go:840-865 | a success debits value plus fee once, ends tracking and withholds nothing any more |
| `Outcomes.UpdateDisablesIff` | accounts/service.go:796-865 | a terminal update stops the service exactly if the payment is not tracked or a write fails; any other is no step |
| `Outcomes.ReservedIff` | accounts/service.go:526-550 | a payment is reserved exactly if it is new or FAILED; exactly its amount is withheld |
| `Outcomes.ErroredForgets` | accounts/service.go:506-521 | an errored payment is forgotten exactly if it is known and not tracked; what it withheld is free again |
| `Outcomes.TrackedIff` | accounts/service.go:631-714 | exactly when a payment comes to be tracked, and exactly when the attempt stops the service |
| `Outcomes.TrackedWithholds` | accounts/service.go:631-714 | a payment that is tracked from now on withholds the amount given, or the one on record |
| `Outcomes.RegisteredUntilDeleted` | accounts/checkers.go:629-632 | values are registered once and deleting them restores the state |
| `Outcomes.SentAndSettled` | accounts/service.go:526-911 | from request over response to success: the account has paid value plus fee once, and nothing is withheld, tracked or registered any more |
| `Outcomes.SentAndFailed` | accounts/service.go:526-911 | from request over response to failure: the account can spend what it could before |
| `Outcomes.SentAndErrored` | accounts/checkers.go:738-764 | from request to an RPC error: the whole service is as before, but for a failed attempt at the same payment |
| `Outcomes.StepKeepsTracked` | accounts/service.go:486-911 | only a terminal update, a missing initiation, a failed response, the removal of its account or a restart can touch a tracked payment |
| `Outcomes.TrackingLasts` | accounts/service.go:631-911 | the same over every run |
| `Outcomes.EndReachesPayer` | accounts/service.go:796-911 | whatever runs in between, the final update of a tracked payment debits or releases exactly its own account |
| `Ledger.StepPosts` | accounts/service.go:289-911 | one step, whatever fails in it, moves a balance exactly by its credits, its debits, what it settles and what it makes FAILED again |
| `Ledger.Conservation` | accounts/service.go:840-911 | in every reachable state balance = initial balance + credits - debits by hand - SUCCEEDED amounts - amounts of payments that were settled and became FAILED, modulo 2^64 and exactly whenever that fits; the last term vanishes if no removal of the account's own payments is lost, and conservation holds if and only if it vanishes |
| `Ledger.StepKeepsClean` | accounts/service.go:842-911 | without a lost removal of its own an account keeps its tracked payments in flight and forgets nothing |
| `Ledger.StepKeepsBalanced` | accounts/service.go:349-396 | one step keeps the account on the books, with its credits and debits added |
| `Ledger.SlackSettle` | accounts/service.go:840-865 | settling at most the amount on record frees at least what it debits |
| `Ledger.SettleResult` | accounts/service.go:840-865 | all accounts after a settlement, whether or not the second write fails: one debit of value plus fee, one SUCCEEDED entry |
| `Ledger.TrackResult` | accounts/service.go:631-714 | the whole store after tracking: nothing, or one entry in flight with the amount on record when none is given |
| `Ledger.InvoiceResult` | accounts/service.go:560-627 | an invoice update credits exactly its mapped account, exactly when both writes succeed |
| `Ledger.StepKeepsSolvent` | accounts/service.go:444-550 | a benign step that reserves no amount above the signed maximum keeps every account able to cover its payments in flight, also between check and reservation |
| `Ledger.CheckMissesIff` | accounts/service.go:444-467 | the check passes an amount that is not covered if and only if the amount is above the signed maximum |
| `Ledger.CheckPassesIff` | accounts/service.go:444-467 | exactly when the check passes for a covered account: not expired, and the amount covered or above the signed maximum |
| `Ledger.CheckReserves` | accounts/checkers.go:608-632 | the balance check leaves room for every amount it can see until it is reserved |
| `Ledger.ReservingCoveredIff` | accounts/service.go:526-550 | reserving keeps all accounts covered if and only if the amount is refused or fits a signed word |
| `Ledger.LargeSendOverdraws` | accounts/checkers.go:553-632 | from every covered state an amount above the signed maximum passes the check and leaves more in flight than the balance |
| `AccountCheckers.NegativeReadsLarge` | accounts/checkers.go:553-556 | exactly the negative numbers of millisatoshis are read as such amounts |
| `Ledger.CreditCoveredIff` | accounts/store_kvdb.go:230-245 | an accepted credit keeps an account covered if and only if the new balance fits a signed word |
| `Ledger.OverdraftIff` | accounts/service.go:444-550 | in a benign run all accounts are covered in all states if and only if no amount above the signed maximum is reserved |
| `Ledger.NoOverdraft` | accounts/service.go:444-481 | in every reachable state of such a run what is in flight is at most the balance |
| `Ledger.RetrackingReservesFailed` | accounts/service.go:118-139 | tracking a FAILED payment again withholds its amount again, which is why restarts are not benign |
| `Restart.TracksProgress` | accounts/service.go:118-139 | over every run of a start the money stays and each payment that has not succeeded is tracked or still to come |
| `Restart.WithholdsAtMostFailed` | accounts/service.go:118-139 | whatever a start takes up, it withholds at most the FAILED amounts |
| `Restart.RestartCoveredIff` | accounts/service.go:97-139 | from any state, over all orders of taking the payments up, the account is covered in the end if and only if its balance covers what was in flight and what had FAILED |
| `Restart.UnsharedCoveredIff` | accounts/service.go:118-139 | for an account that shares no payment the same holds for each single order |
| `Restart.TakeOwnFirst` | accounts/service.go:118-139 | a start can take up all payments of an account first, and all others after them |
| `InvoiceCredits.IndexesNeverDecrease` | accounts/service.go:141-176 | stored indexes never decrease, those in memory only at a restart, which resumes from the stored ones |
| `InvoiceCredits.InvoiceMovesIndexes` | accounts/service.go:560-595 | an invoice update moves both indexes up together and stores the index before the credit |
| `InvoiceCredits.SettlementsIncrease` | accounts/service.go:560-627 | the settlements credited over a run have strictly increasing indexes |
| `InvoiceCredits.CreditedAtMostOnce` | accounts/service.go:560-627 | no settlement is credited twice over any run of updates, failures and restarts |
| `InvoiceCredits.FailedCreditIsLost` | accounts/service.go:595-620 | a credit that fails after its index was stored changes no account, and its settlement is never delivered again in any run that follows |
| `InvoiceCredits.LargestIndexesStored` | accounts/service.go:573-592 | both indexes become the larger of the stored one and that of the update |
| `InvoiceCredits.AssociatedIsMapped` | accounts/service.go:486-501 | an invoice is stored and mapped exactly if the account exists and the write succeeds; no other invoice and no balance changes |
| `InvoiceCredits.MappedIsCredited` | accounts/service.go:595-627 | the settlement of a mapped invoice raises exactly that balance by the amount paid and takes the mapping away |
| `InvoiceCredits.AssociatedIsCredited` | accounts/service.go:486-627 | an invoice that is associated and then settles raises the balance of its account by the amount paid |
| `InvoiceCredits.RunKeepsMapped` | accounts/service.go:118-139 | over every run, restarts included, an invoice of one account that has not settled stays stored and, while the service is enabled, mapped to it |
| `InvoiceCredits.UnsettledInvoiceIsReceived` | accounts/service.go:560-627 | in every reachable state with the service enabled the settlement of such an invoice is received by its account |
| `InvoiceCredits.AddedInvoiceIsReceived` | accounts/service.go:486-627 | from the AddInvoice response on, whatever runs before and after it |
| `AccountService.AvailableBalance` | accounts/service.go:469-481 | the loop computes balance minus everything in flight in 64-bit arithmetic |
| `AccountService.InterceptorService.CheckBalance` | accounts/service.go:444-467 | refuses missing, expired and insufficient accounts and nothing else |
| `AccountService.InterceptorService.AssociateInvoice` | accounts/service.go:486-501 | whole new state as the protocol step has it: stored, then mapped, nothing on error (what that means: `AssociatedIsMapped`, `AddedInvoiceIsReceived`) |
| `AccountService.InterceptorService.PaymentErrored` | accounts/service.go:506-521 | whole new state: entry deleted unless the payment is tracked |
| `AccountService.InterceptorService.AssociatePayment` | accounts/service.go:526-550 | whole new state: entry reserved unless one is in flight or settled |
| `AccountService.InterceptorService.InvoiceUpdate` | accounts/service.go:560-627 | whole new state of indexes, store, mappings and enabled flag on every path |
| `AccountService.InterceptorService.TrackPayment` | accounts/service.go:631-714 | whole new state of store, cache and enabled flag on every path |
| `AccountService.InterceptorService.PaymentUpdate` | accounts/service.go:796-865 | whole new state as the protocol step has it, and whether the update was terminal (what that means: `FailedUpdateReleases`, `SucceededUpdateSettles`, `UpdateDisablesIff`) |
| `AccountService.InterceptorService.RemovePayment` | accounts/service.go:870-911 | whole new state: final status stored and tracking ended |
| `AccountService.InterceptorService.RemoveAccount` | accounts/service.go:420-440 | tracked payments are dropped one by one and then the account, stopping at the first failure; it succeeds if the account exists and no write fails |
| `AccountService.InterceptorService.Start` | accounts/service.go:97-221 | the start is a run of the protocol with exactly that outcome (but for the invoices mapped when it fails); money unchanged, every payment that has not succeeded tracked, all invoices mapped, indexes loaded; disabled on any error, and there is an error only if a read, a write or a call fails |
| `AccountService.InterceptorService.ResumeAccounts` | accounts/service.go:118-139 | the loop over the accounts is a run of tracking steps that leaves none to come, and maps all invoices |
| `AccountService.InterceptorService.ResumePayments` | accounts/service.go:126-138 | the loop over the payments of an account is a run of tracking steps, up to the first error |
| `AccountService.InterceptorService.RegisterValues` | accounts/service.go:958-972 | a request id is registered once |
| `AccountService.InterceptorService.DeleteValues` | accounts/service.go:986-991 | exactly one request id is forgotten |
| `AccountService.DropOne` | accounts/service.go:420-440 | dropping one more tracked payment is one call of removePayment |
| `AccountCheckers.ResolveSend` | accounts/checkers.go:544-632 | the amount is the largest one stated plus its fee limit, the hash the single one named; all other requests are rejected |
| `AccountCheckers.HandleSend` | accounts/checkers.go:608-632 | whole new state: check, reserve, register, stopping at the first error |
| `AccountCheckers.HandleResponse` | accounts/checkers.go:638-680 | whole new state as a run of the protocol has it (`ResponseIsARun`): another hash is refused, a failure ends tracking, anything else starts it (`ResponseTracksUnlessFailed`) |
| `AccountCheckers.ResolveRoute` | accounts/checkers.go:684-710 | the larger reading of the amount plus the larger reading of the fees, for a hash of 32 bytes and a route |
| `AccountCheckers.Larger` | accounts/checkers.go:698-712 | the maximum of an amount in satoshis and in millisatoshis |
| `AccountCheckers.HandleRouteResponse` | accounts/checkers.go:769-830 | whole new state: tracking starts for the hash of the request unless the preimage is malformed or of another hash (`RouteResponseTracks`) |
| `AccountCheckers.HandleError` | accounts/checkers.go:738-764 | whole new state: an untracked payment is disassociated and its request forgotten |
| `AccountCheckers.SendIsARun` | accounts/checkers.go:608-632 | the uninterrupted handler is the run check, reserve, register with the same outcome |
| `AccountCheckers.ResponseIsARun` | accounts/checkers.go:638-680 | the uninterrupted response handler is a named run: for a failure the values are dropped and then the payment, otherwise the payment is tracked and then the values dropped; no step for another hash |
| `AccountCheckers.ErrorIsARun` | accounts/checkers.go:738-764 | the error handler is the run that deletes the entry and then the values |
| `AccountCheckers.SendAcceptedIff` | accounts/checkers.go:608-632 | exactly when a send is let through: account exists, has not expired and covers the amount (or the amount is above the signed maximum), payment new or FAILED, request id free; then the amount is withheld and the values registered |
| `AccountCheckers.ResponseTracksUnlessFailed` | accounts/checkers.go:662-678 | after a response that did not fail the payment is tracked for its account and withholds the amount; after a failed one it is not tracked; the request is done with |
| `AccountCheckers.RouteResponseTracks` | accounts/checkers.go:793-828 | a response along a route starts tracking, with the amount and fees of the route, unless its preimage contradicts the hash |
| `AccountCheckers.FailedResponseEnds` | accounts/checkers.go:662-666 | a failed response for a payment that is tracked makes its entry FAILED and ends tracking |
| `AccountCheckers.SatoshiIsThousand` | accounts/checkers.go:553-556 | a satoshi is read as a thousand millisatoshis exactly as far as these fit the word |
| `AccountCheckers.NamesOneHashCases` | accounts/checkers.go:557-602 | which hash a request names without an invoice, with one, and with both |
| `Reservations.StepKeepsStranded` | accounts/service.go:883-911 | nothing but a restart moves a payment that is in flight, not tracked and not waited for, while its account exists |
| `Reservations.StrandedUntilRestart` | accounts/service.go:526-550 | the same over every run: no update, error, second send or other account frees it |
| `Reservations.FailedResponseStrands` | accounts/checkers.go:658-666 | from every reachable state, after a response that reports a failure the reserved amount stays withheld over every run without a restart |
| `Reservations.ReusedRequestStrands` | accounts/checkers.go:624-632 | so does the amount of a request whose id is already registered |
| `PaymentTotals.TotalUpdate` | accounts/service.go:469-481 | writing one entry changes a sum over all payments by the difference of its weights |
| `BoltBackend.BoltStore.UpdateAccount` | accounts/store_kvdb.go:364-390 | read-modify-write replaces exactly one account or nothing |
| `BoltBackend.BoltStore.NewAccount` | accounts/store_kvdb.go:120-187 | refines the abstract creation, with label checks and redrawn ids |
| `BoltBackend.BoltStore.UpdateAccountBalanceAndExpiry` | accounts/store_kvdb.go:193-209 | refines the abstract update |
| `BoltBackend.BoltStore.CreditAccount` | accounts/store_kvdb.go:230-245 | refines the abstract credit, refusing amounts above the signed maximum |
| `BoltBackend.BoltStore.DebitAccount` | accounts/store_kvdb.go:251-272 | refines the abstract debit, refusing overdrafts |
| `BoltBackend.BoltStore.UpsertAccountPayment` | accounts/store_kvdb.go:282-335 | refines the abstract upsert for every combination of options |
| `BoltBackend.BoltStore.DeleteAccountPayment` | accounts/store_kvdb.go:342-362 | refines the abstract deletion |
| `BoltBackend.BoltStore.Accounts` | accounts/store_kvdb.go:486-528 | the scan over the bucket returns every account and neither index |
| `BoltBackend.BoltStore.StoreLastIndexes` | accounts/store_kvdb.go:587-607 | both indexes stored, no account touched |
| `BoltBackend.BoltStore.Execute` | accounts/store_kvdb.go:120-607 | every call refines the abstract store, through the serialised bytes |
| `BoltBackend.UpsertUpdate` | accounts/store_kvdb.go:292-332 | the update as written, with its checks in order, is the abstract upsert |
| `BoltBackend.DebitUpdate` | accounts/store_kvdb.go:259-269 | the update as written is the abstract debit |
| `BoltBackend.CreditUpdate` | accounts/store_kvdb.go:233-242 | the update as written is the abstract credit |
| `SqlBackend.SqlStore.Accounts` | accounts/store_sql.go:489-516 | the scan over the rows returns every account under the id of its alias |
| `SqlBackend.AliasRoundTrip` | accounts/interface.go:61-83 | account ids and int64 aliases are in bijection |
| `SqlBackend.AccountDeleted` | accounts/store_sql.go:521-531 | deleting the account row with its dependants removes exactly that account |
| `SqlBackend.SqlStore.NewAccount` | accounts/store_sql.go:100-169 | refines the same abstract creation |
| `SqlBackend.SqlStore.UpdateAccountBalanceAndExpiry` | accounts/store_sql.go:347-384 | two row updates refine one abstract update |
| `SqlBackend.SqlStore.AddAccountInvoice` | accounts/store_sql.go:274-306 | refines the abstract call, twice being the same as once |
| `SqlBackend.SqlStore.CreditAccount` | accounts/store_sql.go:390-419 | the credit of this backend, which has no upper limit |
| `SqlBackend.SqlStore.DebitAccount` | accounts/store_sql.go:425-460 | the debit of this backend |
| `SqlBackend.SqlStore.UpsertAccountPayment` | accounts/store_sql.go:541-641 | upsert of the row and separate debit refine the one abstract upsert |
| `SqlBackend.SqlStore.DeleteAccountPayment` | accounts/store_sql.go:648-684 | refines the abstract deletion |
| `SqlBackend.SqlStore.Execute` | accounts/store_sql.go:100-736 | every portable call refines the abstract store |
| `SqlBackend.CreditDiffersAboveMax` | accounts/store_sql.go:390-419 | both backends credit alike if and only if the amount fits a signed word or the account is missing |
| `SqlBackend.DebitDiffersAboveMax` | accounts/store_sql.go:425-460 | the exact amounts on which the backends differ in accepting a debit |
| `StoreAgreement.RunBoth` | accounts/interface.go:229-296 | any sequence of portable calls gives the same replies on both backends, those of the abstract store |
| `StoreLaws.CallIsLocal` | accounts/interface.go:230-296 | a call changes no account but the one it is about, and nothing if it is refused |
| `StoreLaws.CreatedIsFound` | accounts/store_kvdb.go:120-190 | a new account is found with what was asked for; refused exactly if all draws are taken or the label is taken or looks like an id |
| `StoreLaws.UpdatedIsFound` | accounts/store_kvdb.go:193-212 | balance and expiry are set exactly if given, all else stays |
| `StoreLaws.DebitUndoesCredit` | accounts/store_kvdb.go:230-276 | a credit is accepted exactly up to the signed maximum, and the same debit restores the store |
| `StoreLaws.DebitAcceptedIff` | accounts/store_kvdb.go:251-276 | a debit is accepted exactly if the balance covers it or the subtraction wraps around |
| `StoreLaws.UpsertAcceptedIff` | accounts/store_kvdb.go:282-340 | which options refuse which entries, with which error, and the entry and balance that are found afterwards |
| `StoreLaws.DeleteUndoesInsert` | accounts/store_kvdb.go:342-360 | deleting a new entry restores the store, and a missing one is refused |
| `StoreLaws.LabelsStayDistinct` | accounts/store_kvdb.go:120-160 | over every sequence of calls labels stay distinct and none looks like an account id |
| `Wire.VarIntRoundTrip` | accounts/tlv.go:142-181 | a variable-size integer reads back, leaving the rest of the stream |
| `Wire.ShortVarIntSamples` | accounts/tlv.go:142-157 | the encodings at the lower boundaries are those of BOLT 1 |
| `Wire.LongVarIntSamples` | accounts/tlv.go:142-157 | and at the upper ones |
| `Wire.BigEndianKeepsOrder` | firewalldb/actions_kvdb.go:125-127 | big-endian keys are in byte order exactly as their numbers are, so a cursor visits them in that order |
| `AccountCodec.InvoiceEntryMapEncoder` | accounts/tlv.go:142-157 | writes count and hashes in some order of the set, and the set reads back |
| `AccountCodec.InvoiceEntryMapDecoder` | accounts/tlv.go:160-181 | the counted loop reads what the encoding means, or fails |
| `AccountCodec.InvoicesRoundTrip` | accounts/tlv.go:142-181 | any set in any order reads back, leaving the rest of the stream |
| `AccountCodec.PaymentEntryMapEncoder` | accounts/tlv.go:200-227 | writes count and entries in some order of the map, and the map reads back |
| `AccountCodec.PaymentEntryMapDecoder` | accounts/tlv.go:230-267 | the counted loop reads what the encoding means, or fails |
| `AccountCodec.PaymentsRoundTrip` | accounts/tlv.go:200-267 | any payment map in any order reads back |
| `AccountCodec.RoundTrip` | accounts/tlv.go:27-125 | decoding gives back every account, in any iteration order, with negative balances, with or without expiry |
| `AccountCodec.FixedLayout` | accounts/tlv.go:27-72 | the bytes of the fixed records: types 1 to 6 in order, each with its length |
| `AccountCodec.EmptyTail` | accounts/tlv.go:27-72 | the bytes of the records 7 to 9 of an empty account |
| `AccountCodec.SerializeAccount` | accounts/tlv.go:27-73 | what is written decodes to the account |
| `Pagination.CursorStart` | firewalldb/action_paginator.go:96-137 | the cursor ends where the iteration starts, in all offset cases |
| `Pagination.StartsBeyondOffset` | firewalldb/action_paginator.go:96-137 | the iteration visits exactly the keys beyond the offset, in either direction |
| `Pagination.LargestOffsetWraps` | firewalldb/action_paginator.go:97-97 | with the largest offset a forward query visits everything again |
| `Pagination.RunQuery` | firewalldb/action_paginator.go:146-182 | the page is the first MaxNum accepted keys of the scan; a full page ends at its last index, any other at the key that stopped the scan or the last one there is |
| `Pagination.PageLength` | firewalldb/action_paginator.go:155-160 | a page is a beginning of the result, as long as was asked for if there is that much |
| `Pagination.QueryRest` | firewalldb/action_paginator.go:153-179 | the loop keeps what it has and what is left together the whole scan |
| `Pagination.CountRest` | firewalldb/action_paginator.go:210-248 | the loop keeps count and page together with what is left |
| `Pagination.NextPage` | firewalldb/action_paginator.go:146-182 | a page and the query resumed at its last index are the whole query, and fewer keys remain |
| `Pagination.PagesAreComplete` | firewalldb/action_paginator.go:65-182 | paging to the end returns exactly the unlimited query, for any filter and direction and any keys (forward, keys below 2^64-1) |
| `Pagination.RunQueryCountAll` | firewalldb/action_paginator.go:191-251 | the total counts all matches, and the page starts at the match whose key is the offset plus one |
| `Pagination.CountedForward` | firewalldb/action_paginator.go:226-230 | forward, both query forms agree if and only if there is no offset, the key offset plus one is accepted with no stop before it, or no key beyond the offset is |
| `Pagination.CountedReverse` | firewalldb/action_paginator.go:226-230 | in reverse with an offset they agree if and only if neither the key offset plus one nor any key below the offset is shown |
| `Pagination.ScanMembers` | firewalldb/action_paginator.go:159-179 | a scan returns exactly the accepted keys with nothing before them that ends it |
| `ActionLog.AddedStores` | firewalldb/actions_kvdb.go:59-162 | the new action is stored in its initial state under a new locator, all others stay |
| `ActionLog.AddedKeepsIndexed` | firewalldb/actions_kvdb.go:59-162 | the index stays a bijection between sequence numbers and stored actions |
| `ActionLog.StateSetKeepsIndexed` | firewalldb/actions_kvdb.go:222-256 | a change of state touches one action and leaves the index alone |
| `RequestLogger.StepKeeps` | firewall/request_logger.go:182-259 | live locators stay distinct and initial; an action that is not open is not changed and not opened again |
| `RequestLogger.RunKeeps` | firewall/request_logger.go:182-259 | the same over every run, with restarts |
| `RequestLogger.FinalStateStays` | firewall/request_logger.go:246-259 | an action that left its initial state never changes again |
| `RequestLogger.ReusedIdOrphans` | firewall/request_logger.go:237-239 | a reused request id leaves the earlier action in its initial state for good |
| `RequestLogger.ActionDB.AddAction` | firewalldb/actions_kvdb.go:59-162 | stores the action exactly when session and account exist and the transaction commits, under the locator that `SessionHoldsItsRequests` and `IndexListsAllRequests` are about |
| `RequestLogger.ActionDB.SetActionState` | firewalldb/actions_kvdb.go:222-256 | changes the state exactly when reason, bucket and transaction allow it |
| `RequestLogger.Logger.AddNewAction` | firewall/request_logger.go:182-242 | two protocol steps in a row, or nothing |
| `RequestLogger.Logger.MarkAction` | firewall/request_logger.go:246-259 | one protocol step; the locator is gone even if the write fails |
| `ActionListing.EarlyExitIsFiltering` | firewalldb/actions_kvdb.go:271-324 | with times in order the stopping scan returns exactly the wanted actions, in either direction |
| `ActionListing.DisorderHides` | firewalldb/actions_kvdb.go:274-302 | any two actions out of order hide a wanted one, in either direction |
| `ActionListing.EarlyExitIffOrdered` | firewalldb/actions_kvdb.go:271-324 | the stopping scan equals plain filtering for all options if and only if the times are in order, in either direction |
| `ActionListing.RunKeepsTimes` | firewalldb/actions_kvdb.go:59-162 | under a steady clock the index stays in the order of times over every run |
| `ActionListing.ListingIsFiltering` | firewalldb/actions_kvdb.go:263-389 | after any such run a listing returns exactly the wanted actions beyond the offset |
| `ActionListing.SessionListingIsFiltering` | firewalldb/actions_kvdb.go:400-440 | so does the listing of one session |
| `ActionHistory.SessionIsLastFourBytes` | session/macaroon.go:27-35 | the session of a request is the last four bytes of its root key id |
| `ActionHistory.BelongsToIff` | firewalldb/actions.go:90-97 | and session zero if it has none, and no other session |
| `ActionHistory.SessionHoldsItsRequests` | firewalldb/actions_kvdb.go:59-162 | after every run, with failures and restarts, the actions of a session are exactly the stored requests whose root key id ends in its four bytes, in order, with details and times |
| `ActionHistory.IndexListsAllRequests` | firewalldb/actions_kvdb.go:135-155 | after every run the index lists all stored requests in order, each in its own session |
| `ActionHistory.SessionListingShowsRequests` | firewalldb/actions_kvdb.go:400-440 | so the listing of a session shows exactly the wanted ones of its requests beyond the offset |
| `ActionHistory.ListingShowsRequests` | firewalldb/actions_kvdb.go:327-389 | and the listing of all actions those of all requests |
| `ActionHistory.EachOptionFilters` | firewalldb/actions_kvdb.go:271-324 | unset options ask for nothing, and each one that is set cuts down what is wanted |
| `ActionHistory.StateSetIff` | firewalldb/actions_kvdb.go:189-260 | a change of state is refused exactly if it gives a reason without being an error |
| `ActionHistory.ResponseDecides` | firewall/request_logger.go:246-259 | whatever happens to other requests in between, the response to a request sets state and reason of its own action and leaves its details |
| `KvTree.CreateKeepsValues` | firewalldb/kvstores_kvdb.go:224-370 | creating the buckets of a path changes no value and opens the path |
| `KvTree.WriteIsLocal` | firewalldb/kvstores_kvdb.go:200-222 | a write affects one entry of the whole tree |
| `KvTree.PathsDistinct` | firewalldb/kvstores_kvdb.go:267-370 | different cells are different entries |
| `KvBolt.FeatureCreated` | firewalldb/kvstores_kvdb.go:339-370 | a feature bucket can be made unless a value has the name of its parent |
| `KvBolt.BoltKvStore.BucketFor` | firewalldb/kvstores_kvdb.go:224-370 | exact condition under which the bucket of a cell can be made; no value changes |
| `KvBolt.BoltKvStore.Get` | firewalldb/kvstores_kvdb.go:185-195 | the value of the cell, or none |
| `KvBolt.BoltKvStore.Set` | firewalldb/kvstores_kvdb.go:200-207 | sets its own cell and no other, with the exact condition for being accepted |
| `KvBolt.BoltKvStore.Del` | firewalldb/kvstores_kvdb.go:212-222 | clears its own cell and no other, with the exact condition for being refused |
| `KvBolt.BoltKvStore.DeleteTempKVStores` | firewalldb/kvstores_kvdb.go:77-93 | clears exactly the cells that are not permanent |
| `KvSql.SpacesDistinct` | firewalldb/kvstores_sql.go:372-445 | different cells have different namespace columns |
| `KvSql.InsertSetsCell` | firewalldb/kvstores_sql.go:216-229 | a new row never violates the unique index and sets its cell only |
| `KvSql.UpdateSetsCell` | firewalldb/kvstores_sql.go:237-271 | an update sets its cell only |
| `KvSql.DeleteClearsCell` | firewalldb/kvstores_sql.go:277-324 | a deletion clears its cell only |
| `KvSql.SqlKvStore.GenNamespaceFields` | firewalldb/kvstores_sql.go:372-445 | the columns of the cell; reads insert no names, writes do, and no lookup changes |
| `KvSql.SqlKvStore.Get` | firewalldb/kvstores_sql.go:184-195 | the value of the cell, none for missing names or groups |
| `KvSql.SqlKvStore.Set` | firewalldb/kvstores_sql.go:200-272 | sets its own cell and no other, refused only for an unknown group |
| `KvSql.SqlKvStore.Del` | firewalldb/kvstores_sql.go:277-324 | clears its own cell and no other |
| `KvSql.SqlKvStore.DeleteTempKVStores` | firewalldb/kvstores_sql.go:43-49 | clears exactly the cells that are not permanent |
| `KvAgreement.StepBoth` | firewalldb/kvstores_kvdb.go:292-333 | each backend answers as one flat map for the groups it knows, and the answers are the same if and only if both or neither know the group written to |
| `KvAgreement.RunBoth` | firewalldb/kvstores_sql.go:184-324 | any sequence of portable operations on whose groups the backends agree gives the same replies on tree and rows, those of one flat map |
| `KvAgreement.ReadsLastWrite` | firewalldb/kvstores_kvdb.go:185-222 | over every sequence of operations a read sees the last write to its own cell |
| `KvCollect.CollectKVPairs` | firewalldb/sql_migration.go:382-413 | the values of one bucket, each once; buckets passed over or refused |
| `KvCollect.VerifyBktKeys` | firewalldb/sql_migration.go:522-548 | accepts exactly buckets with the given sub-buckets |
| `KvCollect.CollectGroups` | firewalldb/sql_migration.go:279-366 | all values of all known groups of a rule, each once; succeeds exactly on the expected layout |
| `KvCollect.CollectRulePairs` | firewalldb/sql_migration.go:253-374 | all values of a rule, each once; succeeds exactly on the expected layout |
| `KvCollect.CollectAllPairs` | firewalldb/sql_migration.go:201-249 | all values of the tree in global stores and known groups, each once and nothing else; succeeds exactly on the expected layout |
| `KvMigration.InsertPair` | firewalldb/sql_migration.go:416-476 | the entry becomes visible in its cell and nothing else changes |
| `KvMigration.Validate` | firewalldb/sql_migration.go:162-186 | accepts exactly when every entry reads back |
| `KvMigration.Migrate` | firewalldb/sql_migration.go:132-191 | succeeds on the expected layout only; afterwards every lookup through the rows is the lookup through the tree, unknown groups dropped and nothing invented, if and only if every migrated group is named by its first session; no cell of another group is found (the group id of every session being that of some first session) |
| `KvMigration.FoundIsPlaced` | firewalldb/sql_migration.go:431-447 | only cells whose group is named by its first session are found in migrated rows |
| `KvMigration.FoundAgainIff` | firewalldb/sql_migration.go:431-447 | one inserted row is found again under its group if and only if the alias is that of the first session |
| `KvMigration.StoreIsMigratable` | firewalldb/sql_migration.go:193-249 | every tree the store can produce has the expected layout |
| `Text.HexRoundTrip` | firewalldb/privacy_mapper.go:208-235 | bytes written as hexadecimal read back |
| `Text.LowerHexIsCanonical` | firewalldb/privacy_mapper.go:208-235 | lower-case text of even length is what its bytes are written as |
| `Text.HexDecodesIff` | firewall/privacy_mapper.go:1966-1967 | exactly the texts with an even number of hexadecimal digits, in either case, decode |
| `Text.DecimalLength` | firewall/privacy_mapper.go:2000-2007 | a number has more than k digits exactly from 10^k on |
| `Text.DecimalParsesIff` | firewall/privacy_mapper.go:2000-2001 | a written number reads back exactly if it fits a signed word |
| `Text.Uint64TextRoundTrip` | firewalldb/privacy_mapper.go:246-259 | a number written as text reads back |
| `Text.ChanPointRoundTrip` | firewalldb/privacy_mapper.go:261-278 | a written channel point with a 64-character txid without colons reads back for every index |
| `Text.ChanPointReadsBackIff` | firewalldb/privacy_mapper.go:261-278 | and no other does |
| `Text.PointTextIff` | firewalldb/privacy_mapper.go:261-278 | a text reads as a channel point exactly if it is sixty-four characters without colon, a colon and a number |
| `PrivacyMap.AddPairsKeeps` | firewalldb/privacy_mapper_kvdb.go:77-121 | over every sequence of attempts the two buckets stay inverse and no pair changes |
| `PrivacyMap.RunKeeps` | firewalldb/privacy_mapper.go:54-219 | the same over every run of hide calls with arbitrary values, with pseudonyms of the right kind |
| `PrivacyMap.StringRoundTrip` | firewalldb/privacy_mapper.go:54-102 | revealing undoes hiding of a string in every later state |
| `PrivacyMap.HiddenOnce` | firewalldb/privacy_mapper.go:54-75 | hiding a value again in any later state gives the same pseudonym and adds nothing |
| `PrivacyMap.BytesRoundTrip` | firewalldb/privacy_mapper.go:208-235 | the same for bytes, which are refused only when the text is |
| `PrivacyMap.Uint64RoundTrips` | firewalldb/privacy_mapper.go:104-137 | a number comes back if and only if its pseudonym is not zero or it is zero itself |
| `PrivacyMap.ChanPointHiddenIff` | firewalldb/privacy_mapper.go:139-161 | a channel point can be hidden if and only if its own key is known under a channel point, or is new and the candidate free |
| `PrivacyMap.ChanPointRoundTrips` | firewalldb/privacy_mapper.go:139-183 | a channel point that was hidden is revealed in every later state if and only if its txid has 64 characters and no colon |
| `PrivacyMap.RefusedIff` | firewalldb/privacy_mapper.go:54-75 | hiding is refused exactly for a new value that is empty or whose pseudonym is empty or taken |
| `PrivacyStore.PrivacyMapTx.NewPair` | firewalldb/privacy_mapper_kvdb.go:77-121 | adds the pair to both buckets or to none, and keeps them inverse |
| `PrivacyStore.PrivacyMapTx.RealToPseudo` | firewalldb/privacy_mapper_kvdb.go:161-189 | what it finds the other lookup undoes |
| `PrivacyStore.PrivacyMapTx.PseudoToReal` | firewalldb/privacy_mapper_kvdb.go:127-155 | what it finds the other lookup undoes |
| `PrivacyStore.PrivacyMapTx.FetchAllPairs` | firewalldb/privacy_mapper_kvdb.go:194-229 | the loop returns the whole bucket |
| `PrivacyStore.PrivacyMapPairs.Add` | firewalldb/privacy_mapper.go:327-348 | adds all pairs if none conflicts, else none |
| `PrivacyStore.CollectPairs` | firewalldb/sql_migration.go:712-730 | the pairs of a bucket, exactly when it holds nothing but non-empty values |
| `PrivacyStore.PairCheckMeansInverse` | firewalldb/sql_migration.go:685-701 | equal sizes and every real value found again, if and only if the maps are inverse to each other |
| `PrivacyStore.CollectGroupPairs` | firewalldb/sql_migration.go:661-705 | a group is accepted if and only if its two buckets are a bijection |
| `ConfigObfuscation.ObfuscateValue` | firewall/privacy_mapper.go:1909-2035 | the replacement of one string, with at most one new pair and only for a hidden string, whose pseudonym is made from a draw of its own |
| `ConfigObfuscation.ObfuscateList` | firewall/privacy_mapper.go:1906-2038 | a list keeps its length; every item is replaced from one map |
| `ConfigObfuscation.ObfuscateConfig` | firewall/privacy_mapper.go:1864-2052 | same keys, lengths and other values, new pairs only for hidden strings without a pseudonym, each made from a draw of its own; fails only on a mixed list or the random source |
| `ConfigObfuscation.HiddenIff` | firewall/privacy_mapper.go:1933-2007 | a text is hidden exactly if it is a channel point, a key of 66 hexadecimal digits or a number of 13 to 20 characters and the flag of that kind is not set; the kinds exclude each other |
| `ConfigObfuscation.NodeKeyHiddenIff` | firewall/privacy_mapper.go:1966-1972 | a node key of 33 bytes is hidden exactly if keys are not left clear |
| `ConfigObfuscation.ChanPointHiddenIff` | firewall/privacy_mapper.go:1935-1943 | a channel point is hidden exactly if channels are not left clear |
| `ConfigObfuscation.NumberHiddenIff` | firewall/privacy_mapper.go:2000-2013 | a number is hidden as a channel id exactly from 10^12 up to the signed maximum, and as a key if it has 66 digits |
| `ConfigObfuscation.OutputHidesExactly` | firewall/privacy_mapper.go:1906-2038 | every string of the output is the pseudonym of what stood there if that is of a hidden kind, else the same text |
| `ConfigObfuscation.NothingSensitiveLeft` | firewall/privacy_mapper.go:1906-2038 | with no flag set no key, channel point or channel id is left in the output but pseudonyms |
| `ConfigObfuscation.PseudonymsLookAlike` | firewalldb/privacy_mapper.go:77-92 | a key is replaced by what looks like a key, a channel point by a channel point, other texts by text of the same length |
| `ConfigObfuscation.NewPseudoStr` | firewalldb/privacy_mapper.go:77-92 | the loop draws every character from the alphabet |
| `ConfigObfuscation.EqualStringsEqualReplacements` | firewall/privacy_mapper.go:1912-1931 | equal strings get equal replacements across all lists |
| `ConfigObfuscation.RerunIsStable` | firewall/privacy_mapper.go:1912-1931 | running again with the new pairs known gives the same output and no new pairs |
| `ConfigObfuscation.ObfuscateFeatures` | session_rpcserver.go:1236-1264 | over all features of a session adding the pairs never fails, and all outputs are rendered from one map |
| `TxExecutor.ExecTx` | db/interfaces.go:206-277 | commits at most once; success if and only if exactly one commit, that of the first attempt that does not ask for a retry; any error leaves the database alone; attempts bounded; no transaction left open |
| `TxExecutor.FirstDecides` | db/interfaces.go:221-272 | the first attempt that does not ask for a retry decides the result |
| `TxExecutor.DelayExactIffRoomy` | db/interfaces.go:121-147 | no draw and attempt overflow if and only if the initial delay leaves room |
| `TxExecutor.DelayDoubles` | db/interfaces.go:121-147 | the first delay is half the initial one plus the draw, every further one twice the one before it up to the maximum, and from the thirty-third on they stay |
| `TxExecutor.TightOverflows` | db/interfaces.go:138-139 | otherwise some draw makes a late delay negative |
| `TxExecutor.WithinMaximumIff` | db/interfaces.go:121-147 | no delay exceeds the maximum if and only if no first delay does |
| `TxExecutor.DefaultDelays` | db/interfaces.go:19-35 | the default delays never overflow and lie between 20 milliseconds and 3 seconds |

## Left out

- gRPC and REST proxying, TLS, configuration, startup and shutdown wiring, the web interface: plumbing over other libraries.
- Sessions and their lifecycle, rule enforcement, macaroons: which sessions and groups exist is an input; deleting a session, which removes its rows from the SQL stores only, is not modelled.
- Goroutines, channels and contexts: replaced by interleaved atomic steps; lnd's streams are arbitrary event sequences, apart from increasing settle indexes within one invoice subscription.
- Account ids are assumed never to be drawn again after their account was removed, request ids to belong to one account, and requests to arrive after Start has returned.
- The wall clock: expiry and the times of actions are inputs. LastUpdate is stored but not compared between the account stores.
- Error texts and logging; of the known flag of UpsertAccountPayment nothing is claimed beside an error, since it is then read before or after the call that sets it. Likewise collectKVPairs returns its list beside the call that fills it (firewalldb/sql_migration.go:388); the call is taken to come first.
- The filters for lists of invoices and payments in the interceptor, and checks of requests that are not about sending or invoices.
- bbolt and SQL engines are maps and rows with their documented rules: nested buckets, empty names and incompatible values refused, unique indexes with distinct NULLs, foreign keys and cascades. Size limits of keys and values are not modelled, and nil and empty values are the same.
- Failures to read a stored action or locator; listing the actions of a group; the SQL form of the action store.
- The linking of actions to accounts in the migration, and the rows that the privacy map is migrated to.
- hideAmount, hideTimestamp and the rewriting of responses: floating-point noise and field copies.
- `ConfigObfuscation`: parsing and printing JSON and trimming of spaces, which is an arbitrary function; the alphabet of pseudonyms is taken in the order of hexadecimal digits.
- `TxExecutor`: a commit that reports an error after it took effect.
