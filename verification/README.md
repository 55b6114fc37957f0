# btcw: the wallet ledger, proved

btcw is a Bitcoin wallet daemon. Its wallet keeps a list of UTXOs, a balance, two HD key counters, a scanned
height and a map of receiving addresses in memory, and writes each of them through to buckets of a bbolt
database. Blocks are scanned for outputs that pay the wallet; a send picks UTXOs at random, builds and signs a
transaction, hands it to a node and then lets three goroutines (one marking the spent entries, one adding the
change, one writing the balance) bring the books up to date.

Nothing in that code computes the balance as the sum of the unspent entries. That the two agree is a matter of
selection, building, reading back, the three goroutines, both scanners, the reload and the derivation paths
together. This project models those parts and proves it, over every run, together with the properties it
rests on; and where the code only meets a property under a condition, it proves which condition.

## How the model is laid out

| file | part |
|---|---|
| `Text`, `StoreCodec`, `Base64`, `Passphrase` | decimal text, splitting, little-endian numbers, unpadded base64, the argon2 hash string |
| `Coins`, `CoinSelection`, `ArisingSelections` | UTXOs, outpoint keys, sums; `SelectUTXOs` over an array copy, for every sequence of random numbers; which selections can arise |
| `Node`, `KeyChain`, `Transactions`, `Wire` | what the outside provides, derivation paths, building, signing, reading back, the wire form the fee is counted on |
| `Ledger` | the wallet's state and what every operation makes of it, as functions |
| `LiveWallet` | the wallet and database objects, updated in place by loops and assignments, proved against `Ledger` |
| `Scanning`, `ScanTermination`, `StoreFailures`, `NotifiedPanics` | what scans find, with failures; the two scanners; when the loop ends; blocks scanned again after a failed write or a panic |
| `Settlement`, `Overlap`, `CrashRestart`, `ChangeOutput` | the three tasks as atomic steps, every interleaving; an overlapping scan; a crash in between; unrecognised change |
| `SharedCell`, `ScanRace`, `ScanAlone`, `SendRace` | a number several goroutines add to without a lock; any number of scans at once, and one alone; any number of sends at once |
| `KeyDraws`, `KeyInvariants`, `KeyDensity`, `Reload`, `FreshAddresses` | what a draw and a refused build leave, ownership, counters, what a restart restores, the addresses handed out |
| `Runs`, `SoundRuns`, `Accounts`, `LedgerRuns`, `RestartRuns`, `FlagRuns`, `Relock` | the whole system as a state machine, and the invariants of every run |

A run is a list of events from a newly created wallet on: new addresses, blocks by either scanner, sends, single
steps of any settlement under way, locks, unlocks, restarts; any number of settlements may be under way at once. Every database write is told to succeed or fail by a parameter,
every node answer, every cursor order and every number the random source gives is a parameter. Each
settlement task is split into its store write and its memory write, so every interleaving of those is a run.

What the outside does is a record of arbitrary functions (`Node.Env`), constrained only by four laws, each named
where it is used: opening a sealed key gives it back (`CipherLaw`); a script made to pay an address parses to
that address (`PayToLaw`); a script paying the address of a wallet key is a witness script (`WitnessLaw`); the
empty script has no address (`EmptyScriptLaw`). Two child keys never sharing an address (`AddressesDistinct`)
is assumed where a property needs it.

Ownership, key growth, density (below wrap-around), the metadata in the store and relocking hold on all runs, with no
guard. The guards of the ledger law (`LedgerRuns.Allowed`, `FlagRuns.AllowedFlagged`) say what that law needs: no scan, no restart and
no second accepted send while a settlement is under way, working writes in scans and settlements, a node that
refuses negative outputs and spent inputs, TxIDs that are new when sent, blocks as a chain gives them, notified
outputs with an address each, change that differs from the amount and, for the Spent flags only, distinct TxIDs in
the list. Guards that matter have a theorem of their own saying exactly what happens without them:

- **Marks go by TxID alone** (wallet/tx.go:172). They flag the entries spent exactly when each is the first of
  its TxID: `Settlement.MarksHitIffFirst`, with two outputs of one transaction as the failing case.
- **Change worth the amount is not recognised** (wallet/tx.go:137). `addChangeUTXO` then indexes an empty
  address list and crashes, and it does so in no other case: `ChangeOutput.SendCrashesIffChangeIsTheAmount`.
- **The new balance is computed before the tasks run** (wallet/tx.go:162), **and a scan reads the balance before it
  writes it back** (wallet/scan.go:165-166). A settlement overlapped by scans loses exactly what they credited before
  the balance write, unless one credit straddles that write: then nothing credited is lost, but amount and fee are
  never taken off. `Overlap.OverlapCosts` gives both and when neither matters, whatever credit is under way when the
  send is launched; `Overlap.StorePartsIffWritersDo` says when store and memory are left with different balances.
- **A second send may be launched before the balance of the first is kept** (wallet/tx.go:162). The balance then loses
  exactly the deductions that were overwritten, and is right iff no balance was kept between another send's launch and
  the keeping of its own: `SendRace.OverlappingSendsCost`; of two, the one kept last wins: `SendRace.TheFirstOfTwoIsLost`.
- **Each new block is scanned by a goroutine of its own** (wallet/nodeclient.go:51, wallet/nodeclient.go:228), with
  nothing to order them. Balance and height lose exactly the sums that were overwritten, and each is right iff none was
  kept while another had been read and not kept: `ScanRace.RaceCosts`.
- **Nothing resumes a settlement after a crash** (wallet/setup.go:139-154). With change, amount and fee above
  zero, the balance read back is right exactly when both the change and the new balance had reached the store: `CrashRestart.CrashIsHarmlessIffBothSaved`.
- **Failed settlement writes** (wallet/tx.go:174-178, wallet/wallet.go:86-107) conserve exactly when they cancel
  out: `Settlement.FailuresMustCancel`.
- **A failed write while a block is scanned** (wallet/scan.go:152-166) has the block scanned again from its start,
  and what had been saved is listed and added once more, attempt after attempt. Exactly-once survives iff the block
  pays nothing or each failed attempt failed at its very first write: `StoreFailures.OnceIffFirstWritesFailed`.
- **The flag is written to the store as it was before the spend** (wallet/tx.go:174). After a restart the unspent
  sum exceeds the balance by exactly the value of what had been spent: `FlagRuns.BalanceIsUnspentSum`.
- **A script that does not parse** stops a block for good, and a new wallet on a chain below height nine asks for
  negative heights for ever (wallet/scan.go:25-32, wallet/setup.go:184): `ScanTermination.EndsIffScannable`.
- **An output without an address** makes `scanBlockTxs` panic where `scanBlock` skips it (wallet/scan.go:48-53):
  `Scanning.NotifiedRunsIffAllPay`. The height has not moved, so the block is scanned again after the restart, and
  what was paid before the panic counts twice: `NotifiedPanics.PanickedBlockIsCountedAgain`.
- **An unlock does not extend a pending one** (wallet/wallet.go:191-198): it ends at the earliest deadline running:
  `Relock.UnlockLastsToTheFirstDeadline`, `Relock.AnUnlockIsNotExtended`.

Three more things the proofs bring out:

- **The last entry of the list is never drawn** (tx/utxo.go:62-63): `rand.Intn(len-1)` leaves it out. It is selected
  only when every other unspent entry has been and does not suffice: `ArisingSelections.ExactlyTheseArise`.
- **A notified scan goes on after a failed write** (wallet/scan.go:62-75), and its height with it: what a failure kept
  out of the list or of the balance is not scanned again: `StoreFailures.NotifiedScanGoesOn`.
- **A refused send may have drawn a change key** (wallet/tx.go:32-44), but only once address and inputs have passed:
  `LedgerRuns.RefusedSendChangesNothing`.

In three places comments in the code promise something else, and the model follows the code: marking "utxos
used in the tx" (wallet/tx.go:147-149) goes by TxID; `extractTxInfo` "will return the change output"
(wallet/tx.go:122-123) unless it is worth the amount; `createRawTransaction` adds change "if needed"
(wallet/tx.go:10-12), while it always adds it and refuses inputs worth exactly the amount.

## Model

| member | source | states |
|---|---|---|
| Coins.OutpointKeyInjective | tx/utxo.go:31-34 | distinct outpoints have distinct bucket keys, whatever the TxIDs hold |
| CoinSelection.SelectUTXOs | tx/utxo.go:40-94 | for every random number: success iff one entry, or the unspent entries together, exceed the amount; the result is an unspent sub-multiset, its amount the exact sum, no proper prefix enough; it is the selection the numbers drawn decide, and the list's last entry is in it only as the last, after every other unspent one; the caller's array is untouched |
| CoinSelection.SelectFromCopy | tx/utxo.go:60-92 | the loop ends by winning or by losing the play its random indices make, each below the entries left less one |
| CoinSelection.TryLast | tx/utxo.go:84-90 | the entry left over is taken iff it is unspent and enough |
| CoinSelection.DrawOne | tx/utxo.go:65-76 | one round: the entry drawn leaves the copy, order kept, and is selected if unspent |
| CoinSelection.DeleteAt | tx/utxo.go:76 | slices.Delete in place removes exactly one entry and keeps the order |
| CoinSelection.WinningSelects | tx/utxo.go:78-90 | whatever a play yields is a correct selection and was possible at all |
| CoinSelection.LosingCannotSelect | tx/utxo.go:80-91 | any losing play shows the unspent entries are not worth more than the amount |
| CoinSelection.YieldsLastLast | tx/utxo.go:62-90 | a selection holds the list's last entry only at its end, after every other unspent entry |
| ArisingSelections.DrawsDecide | tx/utxo.go:60-92 | the random numbers alone decide the outcome |
| ArisingSelections.ExactlyTheseArise | tx/utxo.go:60-92 | a list of entries arises for some random numbers iff it is a correct selection in which the list's last entry, if there, comes after every other unspent one |
| CoinSelection.ShortcutIgnoresTheFlag | tx/utxo.go:48-55 | the one-entry path selects a spent entry exactly when it is worth more than the amount |
| CoinSelection.SelectedFromList | tx/utxo.go:40-94 | selected entries are entries of the list, each once |
| StoreCodec.LittleEndianDenotes | utils/utils.go:5-23 | reading back the bytes of a number in range gives the number |
| StoreCodec.LittleEndianIsOnto | utils/utils.go:5-23 | every byte string is the encoding of what it reads as |
| StoreCodec.Int64RoundTrip | utils/utils.go:5-13 | int64 in two's complement and its eight bytes are mutual inverses on their full ranges |
| StoreCodec.Uint32RoundTrip | utils/utils.go:15-23 | uint32 and its four bytes are mutual inverses |
| StoreCodec.BytesDenote | utils/utils.go:5-23 | byte by byte: the least significant comes first, the last holds the sign |
| Base64.DecodesExactlyEncodings | utils/crypto.go:81-88 | strict unpadded base64: a string decodes to bytes iff, line ends apart, it is their encoding |
| Base64.RoundTrip | utils/crypto.go:45-46 | decoding undoes encoding, and the text holds no dollar sign |
| Base64.AlphabetReads | utils/crypto.go:45-46 | the 64 letters of RFC 4648, table 1 |
| Base64.QuantumDenotes | utils/crypto.go:45-46 | three bytes and their four sextets are the same 24 bits, a short end filled up with zero bits |
| Base64.LineEndsSkipped | utils/crypto.go:81-85 | the decoder leaves out carriage returns and line feeds, wherever they stand, and nothing else |
| Text.SplitJoin | utils/crypto.go:62 | splitting undoes joining pieces free of the separator |
| Text.JoinSplit | utils/crypto.go:62 | joining undoes splitting, always |
| Text.DecimalReads | wallet/keys.go:82 | decimal text digit by digit, the most significant first |
| Text.ContainsIsSubstring | wallet/db.go:311 | the substring test holds exactly if the text can be cut out of the other |
| Passphrase.DecodePrintedHash | utils/crypto.go:47-93 | for all parameters, salts and keys: decoding the printed hash returns memory, iterations, parallelism, salt and key, with the key's length |
| Passphrase.DecodesExactly | utils/crypto.go:61-93 | exactly what decodes: six pieces, version 19, three costs in range, two strict base64 texts; and the parameters, salt and key returned are those texts' |
| Passphrase.ScansVersionLeniently | utils/crypto.go:68 | the version piece: blanks, a sign and any number in int64 are read, what follows is not looked at |
| Passphrase.ScansLeniently | utils/crypto.go:77 | the costs piece: blanks before each number are skipped, each must fit its type, what follows the last is not looked at |
| Passphrase.ScansStrictly | utils/crypto.go:68-77 | the literals must be there, and a line feed before a number is an error |
| Passphrase.AcceptsExactly | utils/crypto.go:51-59 | a passphrase is accepted iff the hash decodes and the passphrase derives its key with its salt and costs; a hash that does not decode admits nobody |
| Passphrase.PrintedHashReads | utils/crypto.go:28-49 | the stored text piece by piece, with version 19 and costs 65536, 3 and 2 as literals, the key derived with just those |
| Passphrase.VerifyHashed | utils/crypto.go:28-59 | a passphrase is accepted iff it derives the key of the passphrase that was hashed |
| Passphrase.OwnPassphraseAccepted | utils/crypto.go:51-59 | the wallet's own passphrase is accepted, for every salt |
| KeyChain.PathInjective | wallet/keys.go:82 | paths of different branches or indices differ |
| KeyChain.PathTexts | wallet/keys.go:82 | the literal formats of both branches, the index in decimal |
| KeyChain.MarkTellsBranch | wallet/db.go:311 | the substring test for external paths holds exactly on the external branch |
| Transactions.ExtractTxInfo | wallet/tx.go:124-145 | the loops compute the total fee and the last output worth something else than the amount |
| Transactions.FeeIsStable | wallet/tx.go:47-53 | the fee is twice rate times size, and taking it from the change does not change it |
| Transactions.BuiltIsReadBack | wallet/tx.go:13-59 | inputs equal outputs plus fee, input i references UTXO i, the fee is read back exactly, the change is at index 1 iff its value differs from the amount |
| Transactions.SpendableIsSigned | wallet/tx.go:63-102 | signing what was built for spendable UTXOs never fails, changes no output, and signs input i, over the script and value of UTXO i, with a key of the address it pays; other script classes go unsigned |
| Transactions.SignsIffKeysOpen | wallet/tx.go:74-99 | signing fails iff the key of some UTXO is missing or does not open; otherwise input i carries the signature of its class over script i with the key stored under path i |
| Wire.SizeIsWireLength | wallet/tx.go:48 | the size is the length of the unsigned transaction's wire form, byte for byte |
| Wire.FeeIsPerWireByte | wallet/tx.go:47-53 | inputs exceed outputs by twice the rate for each byte of it |
| Scanning.CreditedAll | wallet/scan.go:152-166 | crediting appends the UTXOs, adds their sum, and writes both through |
| Scanning.OwnedInAre | wallet/scan.go:131-159 | what a block holds for the wallet, told by its outputs alone: output k of transaction i, paid to a listed address by public key hash or as a witness, with its value, its script, the path of the address, unspent |
| Scanning.ScanBlockFinds | wallet/scan.go:109-177 | a well-formed block credits exactly its owned outputs, in order, and counts as scanned |
| Scanning.BlockAdvancesIffWellFormed | wallet/scan.go:136-145 | with a working store the height moves on iff every script of the block parses |
| Scanning.ScannedToComposes | wallet/scan.go:25-33 | scanning in two goes is scanning in one |
| Scanning.ExactlyOnce | wallet/scan.go:18-34 | however node calls fail and in whatever order, each good round credits the owned outputs of the next block exactly once, the others change nothing, and as many good rounds as missing blocks end the loop |
| Scanning.ExactlyOnceLedger | wallet/scan.go:18-34 | the same of a loop that ended, spelled out for list, balance, bucket and height |
| Scanning.ScannersAgree | wallet/scan.go:40-76 | for any block that parses, scanBlockTxs on any sub-list keeping every paying transaction equals scanBlock on the block, if each output of the sub-list has an address |
| Scanning.NotifiedRunsIffAllPay | wallet/scan.go:43-56 | scanBlockTxs gets through iff every output it meets has an address |
| ScanTermination.EndsIffScannable | wallet/scan.go:25-32 | the loop ends iff it starts at or above genesis and no missing block holds a malformed script |
| ScanTermination.NewWalletNeedsHeightNine | wallet/setup.go:178-185 | a new wallet's first scan ends iff the chain's height is at least nine and its last ten blocks are well formed |
| StoreFailures.BlockIsCredits | wallet/scan.go:130-173 | a block's scan is its owned outputs credited one by one up to the first failed write |
| StoreFailures.OneAttempt | wallet/scan.go:109-177 | an attempt counts as scanned iff no write of it fails, and otherwise leaves, in list, bucket and both balances, exactly what it had saved and credited |
| StoreFailures.FailedRoundsAddUp | wallet/scan.go:25-33 | however many rounds fail, and however, each leaves in the list what it saved and in the balance what it credited, on top of the round that succeeds |
| StoreFailures.OnceIffFirstWritesFailed | wallet/scan.go:25-33 | exactly-once survives any number of failed rounds iff nothing is owned or each that failed in the store failed at its first write |
| StoreFailures.NotifiedScanGoesOn | wallet/scan.go:60-75 | whatever writes of a notified scan fail: listed is exactly what was saved, in the balance exactly what was credited, and the height moves iff its own write goes through |
| NotifiedPanics.PanicLeaves | wallet/scan.go:43-56 | a panic leaves exactly what was paid before the first output without an address, in memory and store, and the height as it was |
| NotifiedPanics.PanickedBlockIsCountedAgain | wallet/scan.go:43-75 | after the restart the block scanned again is listed and added on top of that; nothing counts twice iff nothing was paid before the panic |
| Settlement.StepKeepsAt | wallet/tx.go:150-207 | every step of every task moves the books along the closed form of how far each task is |
| Settlement.EveryScheduleSettlesAlike | wallet/tx.go:150-164 | confluence: whichever writes fail, every schedule takes the same number of steps and leaves the same books in memory and store |
| Settlement.MarkedIs | wallet/tx.go:168-183 | marks set flags and change nothing else |
| Settlement.RewrittenIs | wallet/tx.go:173-174 | in the bucket a mark that goes through leaves the entry as it was selected, and every other key as it was |
| Settlement.ConservedAt | wallet/tx.go:150-207 | at every step of every interleaving, balance less unspent sum is what it was, plus the marked, less the change added, less what the balance gave up |
| Settlement.SettledConserves | wallet/tx.go:150-164 | with working writes the settled books are as far apart as before the send |
| Settlement.FailuresMustCancel | wallet/tx.go:174-178 | with failing writes they are iff the failures cancel out |
| Settlement.MarksHitIffFirst | wallet/tx.go:171-181 | the marks flag the entries used, and only those, iff each is the first of its TxID |
| Settlement.SharedTxidMarksTheWrongEntry | wallet/tx.go:172 | two outputs of one transaction: spending the second flags the first |
| Overlap.CreditInSteps | wallet/scan.go:159-166 | the five steps of a credit, uninterrupted, are the scan's credit: save, append, read the balance, put the sum, keep it |
| Overlap.OverlapCosts | wallet/scan.go:165-166 | credits and settlement interleaved step by step, one credit perhaps under way at the launch: the final drift is, on top of what that credit will add, minus what was credited before the balance was kept, or plus amount and fee if a credit straddles that moment; conserved iff that is zero |
| Overlap.DeductionCanBeUndone | wallet/tx.go:161-163 | a credit can straddle: one read before and kept after the balance task leaves the balance without the deduction |
| Overlap.OverlapInTheStore | wallet/wallet.go:86-95 | the store holds the balance of memory if one writer wrote both last, otherwise one of them has the send's balance and the other the balance without it |
| Overlap.StorePartsIffWritersDo | wallet/wallet.go:86-95 | for a send that costs something and non-negative outputs, store and memory differ iff different writers wrote them last |
| SharedCell.ApplyKeepsTracked | wallet/wallet.go:86-95 | any reading, putting and keeping of a shared number keeps the record of what it accounts for; two additions that crossed are never accounted for together again |
| SharedCell.RightIffNothingCrossed | wallet/wallet.go:86-95 | once all is over the number is short of exactly what was overwritten; with additions of one sign it is right iff none was kept between another's reading and keeping, and then the store is too |
| SharedCell.TheLastOfTwoWins | wallet/wallet.go:86-95 | of two additions that crossed only the one kept last counts |
| ScanRace.NothingWaits | wallet/nodeclient.go:51 | no scan ever waits for another |
| ScanRace.RaceCosts | wallet/nodeclient.go:228 | any number of blocks scanned at once, steps in any order: all outputs are listed, balance and height are short of exactly what was overwritten, and each is right iff nothing crossed |
| ScanAlone.AloneIsTheScan | wallet/scan.go:109-177 | one such scan alone, step by step, does to list, bucket, balance and height what the block scan of the ledger does |
| SendRace.OverlappingSendsCost | wallet/tx.go:150-164 | any number of sends launched over each other's settlements, steps in any order: the balance keeps all deductions but those overwritten, and is right iff no two balances crossed |
| SendRace.NoSettlementWaits | wallet/tx.go:155-163 | no settlement ever waits for another |
| SendRace.TheFirstOfTwoIsLost | wallet/tx.go:161-163 | of two sends that crossed, the balance has the deduction of the one kept last only |
| CrashRestart.CrashIsHarmlessIffBothSaved | wallet/setup.go:139-154 | a crash after any part of any schedule: how far the balance read back is off, and that it is right iff the missing writes were worth nothing; with positive change and positive amount and fee, iff change and balance were both saved |
| ChangeOutput.SelectionAlwaysSuffices | wallet/tx.go:32-56 | after a selection, building never reports an insufficient amount |
| ChangeOutput.SentReadsBack | wallet/tx.go:124-145 | a signed transaction reads back as change at index 1, or as an empty output at index 0 when the change is worth the amount |
| ChangeOutput.ChangeTaskPanicsIffChangeIsTheAmount | wallet/tx.go:186-207 | the change task crashes iff the change is worth the amount; otherwise it records output 1 under the path of a key with its address |
| ChangeOutput.SendCrashesIffChangeIsTheAmount | wallet/tx.go:150-207 | the same of an accepted send in the state machine |
| KeyDraws.ExternalDraw | wallet/keys.go:64-98 | the whole state after a receiving draw: child key of the counter under the literal path, listed, the counter up by one modulo 2^32, for each pair of failures |
| KeyDraws.InternalDraw | wallet/keys.go:100-131 | the same of a change draw, its address not listed |
| KeyDraws.RawRefusals | wallet/tx.go:13-59 | building refuses a bad address, a bad input, too small inputs, in this order and only then, and then leaves the whole wallet as it was; past that it draws exactly one change key |
| KeyDraws.PreparedExactly | wallet/rpc.go:52-66 | what goes to the node is what was built, signed with the keys stored, if all of them are there and open; otherwise nothing goes |
| KeyInvariants.ExternalKeyKeepsSound | wallet/keys.go:64-98 | drawing a receiving key keeps keys, addresses and ownership, and no path changes its address, whichever writes fail |
| KeyInvariants.InternalKeyKeepsSound | wallet/keys.go:100-131 | so does drawing a change key, which never enters the address map |
| KeyInvariants.CreateRawKeepsSound | wallet/tx.go:13-59 | so does building, on every path |
| KeyInvariants.OwnUTXOsAlwaysSign | wallet/tx.go:63-102 | on the wallet's own UTXOs signing never fails, and input i is signed for the UTXO it spends, over its script |
| KeyInvariants.OwnedIsSpendable | wallet/wallet.go:163-183 | the key under an owned UTXO's path opens and has the address the script pays |
| KeyInvariants.ScanBlockKeepsSound | wallet/scan.go:147-159 | what a scan adds, in memory and in the store, is owned, wherever the scan stops |
| KeyInvariants.ScanBlockTxsKeepsSound | wallet/scan.go:40-76 | so is what a notified scan adds, whichever writes fail and wherever it panics |
| KeyInvariants.ScanKeepsFrame | wallet/scan.go:109-177 | a scan leaves keys, addresses, counters and lock alone |
| KeyInvariants.PathForFinds | wallet/db.go:275-296 | the path found is the first in the cursor's order with the address; an empty answer means there is none |
| KeyDensity.DrawsKeepDense | wallet/keys.go:82-95 | each branch holds paths 0 to idx - 1, perhaps idx, and no other, whichever writes fail |
| KeyDensity.RetryDrawsTheSameAddress | wallet/keys.go:82-97 | after a failed index write a retry rewrites the same path with the same address and moves on |
| Reload.ReadAddressesExact | wallet/db.go:300-320 | the address map read back is the one in memory |
| Reload.ReadUTXOsExact | wallet/db.go:379-399 | the list read back is the one in memory, Spent flags apart, whatever the cursor's order |
| Reload.LoadKeepsSound | wallet/setup.go:139-154 | a restart keeps keys, addresses and ownership |
| Reload.RestartRestores | wallet/setup.go:139-186 | where memory and store agree, a restart restores balance, indices, addresses, the UTXO multiset, flags apart, and the height unless it is zero, which becomes the chain's less ten |
| Reload.RestartIsTransparentToScans | wallet/setup.go:139-186 | scanning to h1, restarting and scanning to h2 is scanning to h2, flags and list order apart, for a wallet whose memory and store agree |
| RestartRuns.MetadataIsAlwaysStored | wallet/wallet.go:59-84 | in every reachable state, whatever fails, both counters and the height are in the store as in memory |
| RestartRuns.AtRestAllIsStored | wallet/wallet.go:59-106 | in every allowed run, at rest, memory and store agree on everything but the Spent flags |
| RestartRuns.RestartRestoresEveryRun | wallet/setup.go:139-186 | so a restart in any such state restores balance, counters, height, addresses and the UTXO multiset up to flags |
| RestartRuns.RestartIsTransparentInEveryRun | wallet/setup.go:139-186 | and from any such state, sends included, scanning to h1, restarting and scanning to h2 is scanning to h2 |
| Accounts.SpendMany | wallet/tx.go:162 | a selection leaving the unspent outpoints takes exactly its sum |
| Accounts.CreditKeepsReal | wallet/scan.go:152-166 | crediting new outputs keeps the ledger law |
| Accounts.SettlingKeepsReal | wallet/tx.go:150-207 | a settled send keeps the ledger law |
| Accounts.RestartKeepsReal | wallet/db.go:379-399 | reading the list back keeps the ledger law |
| Runs.NewWalletIsLoaded | wallet/setup.go:139-186 | loading the store of a created wallet gives the new wallet the runs start from |
| Runs.RunAppends | wallet/rpc.go:21-94 | a run does its events one after the other, each from the state the one before left |
| Runs.RestartLoads | wallet/setup.go:139-186 | a restart, whatever was going on, loads the wallet from the store and ends every settlement |
| Runs.DownUntilRestarted | wallet/scan.go:43-53 | a notified block brings the process down iff it holds an output without an address, and then nothing happens before a restart |
| SoundRuns.EveryUTXOIsOwned | wallet/wallet.go:163-167 | in every reachable state, notified blocks, panics and overlapping settlements included, every UTXO in memory and store has its key in the bucket with the address its script pays |
| SoundRuns.InternalAddressesNeverListed | wallet/keys.go:120-121 | in every reachable state the address map holds no change address |
| SoundRuns.ScannersAgreeInEveryState | wallet/keys.go:53-60 | in every reachable state the class filter of scanBlock drops nothing owned, so the scanners agree on any block that parses |
| SoundRuns.PathsKeepTheirAddresses | wallet/keys.go:64-131 | over every run no key is lost and no path changes the address it maps to |
| SoundRuns.NoIndexIsSkipped | wallet/db.go:202-252 | in every reachable state below wrap-around both branches are dense and the stored counters are those in memory |
| FreshAddresses.IndexNeverFalls | wallet/keys.go:89-95 | below wrap-around the external counter never goes back, over any event and any restart |
| FreshAddresses.DrawHandsOut | wallet/rpc.go:21-28 | a call that succeeds hands out the address of the key at the counter, one that fails none |
| FreshAddresses.NoAddressTwice | wallet/rpc.go:21-28 | over any run below wrap-around no address is handed out twice, and none is a change address |
| LedgerRuns.CreditedIsNew | wallet/scan.go:148-151 | a block holding the wallet's own transactions credits no change a send has added or will add |
| LedgerRuns.ScanIsFresh | wallet/db.go:335-350 | what a block credits has outpoints of its own, so no bucket entry is overwritten |
| LedgerRuns.PreparedOutputs | wallet/tx.go:13-59 | a prepared send pays the amount and an internal key it knows, inputs equal amount, change and fee, and the fee is four a byte |
| LedgerRuns.RefusedSendChangesNothing | wallet/rpc.go:40-69 | a send refused anywhere on its way leaves list, balance, height and addresses alone; refused by the lock, the funds, the address or an input it leaves everything as it was, refused later it has drawn one change key |
| LedgerRuns.ExecKeepsReal | wallet/rpc.go:30-79 | every event, settlement steps included, keeps the ledger invariant |
| LedgerRuns.BalanceIsWhatIsLeft | wallet/tx.go:150-164 | after any run, restarts included, whenever no task is pending the balance is the value of the entries no accepted transaction spent, in memory and store, and not negative |
| FlagRuns.ExecKeepsFlags | wallet/tx.go:168-183 | every event keeps flags equal to what was spent since the last restart |
| FlagRuns.BalanceIsUnspentSum | wallet/tx.go:150-164 | at rest the balance is the unspent sum; after restarts they differ by exactly the value whose flags were lost |
| FlagRuns.ConservationInFlight | wallet/tx.go:150-207 | at every step of every interleaving of every allowed run: balance less unspent sum is marked, less change if added, less amount and fee if written, less what restarts had unflagged |
| FlagRuns.FundsChecksAreExact | wallet/rpc.go:40-49 | at rest a lone entry is unspent, and a send passes both funds checks iff the amount is below the unspent sum |
| Relock.UnlockedHasATimerRunning | wallet/wallet.go:191-198 | however late timers are, an unlocked wallet has the timer of the latest unlock running, due its duration after the call, and every timer running then |
| Relock.UnlockedOnlyUntilTheDeadline | wallet/wallet.go:191-198 | with timers on time an unlocked wallet was unlocked at most the duration asked for ago, and at this very moment if that was not positive |
| Relock.UnlockLastsToTheFirstDeadline | wallet/wallet.go:187-198 | when no timer is due, it is unlocked iff no walletlock came since the latest unlock, its duration is not over, and every timer running then is still to fire |
| Relock.UnlockStartsTimer | wallet/wallet.go:191-198 | a walletpassphrase call does nothing, or unlocks and adds a timer due its duration later to those running |
| Relock.LockingLocks | wallet/wallet.go:187-198 | a walletlock call locks and leaves the timers running; a timer that is due locks and is gone, any other does nothing |
| Relock.TimeAndProcesses | wallet/wallet.go:194-197 | time goes on by ticks alone, and timers die with their process |
| Relock.AnUnlockIsNotExtended | wallet/wallet.go:191-198 | with timers on time, past the deadline of any timer running the wallet is locked, whatever unlocks and locks came before that moment |
| Relock.SendOnlyInsideAWindow | wallet/rpc.go:30-33 | a send that does anything was made at most the duration after an unlock, by a passphrase deriving the wallet's key |
| LiveWallet.Database.UpdateUTXO | wallet/db.go:352-377 | only an entry already there is rewritten |
| LiveWallet.Wallet.SetBalance | wallet/wallet.go:86-95 | store and memory change together, or neither |
| LiveWallet.Wallet.SetLastScannedBlock | wallet/wallet.go:77-84 | the same of the height |
| LiveWallet.Wallet.SetLastExternalIdx | wallet/wallet.go:59-66 | the same of the external counter |
| LiveWallet.Wallet.SetLastInternalIdx | wallet/wallet.go:68-75 | the same of the internal counter |
| LiveWallet.Wallet.AddUTXO | wallet/wallet.go:97-106 | the same of a new UTXO, saved under TxID, colon and index |
| LiveWallet.Wallet.AddKey | wallet/wallet.go:109-116 | a saved key's address enters the map |
| LiveWallet.Wallet.GenerateNewExternalKeyPair | wallet/keys.go:64-98 | the method is the external draw of the model, failures included; a key returned is saved and listed under the literal path |
| LiveWallet.Wallet.GenerateNewInternalKeyPair | wallet/keys.go:100-131 | the method is the internal draw of the model; a key returned is saved under the literal path and no address is listed |
| LiveWallet.Wallet.GetNewAddress | wallet/rpc.go:21-28 | the address of the key drawn |
| LiveWallet.Wallet.GetDerivationPathForAddress | wallet/db.go:275-296 | the cursor loop finds the first path with the address |
| LiveWallet.Wallet.LoadExternalAddresses | wallet/db.go:300-320 | the cursor loop adds exactly the external addresses |
| LiveWallet.Wallet.LoadUTXOs | wallet/db.go:379-399 | the cursor loop reads exactly the bucket |
| LiveWallet.Wallet.Load | wallet/setup.go:139-186 | every field from the store, locked; a zero height becomes the chain's less ten |
| LiveWallet.Wallet.ScanBlock | wallet/scan.go:109-177 | the nested loops, left at the first failure, compute the block scan of the model |
| LiveWallet.Wallet.ScanBlockTxs | wallet/scan.go:40-76 | the nested loops compute the notified scan of the model, panics included |
| LiveWallet.Wallet.ScanNext | wallet/scan.go:25-32 | one round, on any chain: a failed node call or a height the chain does not have changes nothing, a fetched block is scanned |
| LiveWallet.Wallet.ScanMissingBlocks | wallet/scan.go:18-34 | the loop over any finite number of rounds, on any chain and from any height, is the rounds of the model; with every owned output of the blocks it got through credited exactly once when only node calls fail |
| LiveWallet.Wallet.AddInputs | wallet/tx.go:21-30 | the loop adds one input per UTXO and totals them, unless a TxID does not parse |
| LiveWallet.Wallet.AddChange | wallet/tx.go:45-53 | the change pays the fee of the transaction it completes |
| LiveWallet.Wallet.CreateRawTransaction | wallet/tx.go:13-59 | the method is the building of the model; exactly when each refusal occurs, and that refusing changes nothing |
| LiveWallet.Wallet.SignTransaction | wallet/tx.go:63-102 | the loop signs every input with the key of its UTXO, or fails |
| LiveWallet.Wallet.UpdateWalletAfterTx | wallet/tx.go:150-164 | the plan handed to the three tasks |
| LiveWallet.Wallet.FindByTxid | wallet/tx.go:171-172 | the first entry with the TxID, if any |
| LiveWallet.Wallet.MarkOne | wallet/tx.go:171-181 | the mark of one UTXO: store first, and the flag only if the store took it |
| LiveWallet.Wallet.MarkSpentUTXOs | wallet/tx.go:168-183 | the nested loops leave the closed form of all marks |
| LiveWallet.Wallet.AddChangeUTXO | wallet/tx.go:186-207 | adds the change the model's lookup finds, and panics iff the script has no address |
| LiveWallet.TasksInTurnSettle | wallet/tx.go:150-164 | the three tasks one after the other leave what every schedule leaves |
| LiveWallet.Wallet.SendToAddress | wallet/rpc.go:30-79 | which check refuses, exactly when, and that it then changes nothing; the selection is the one the random numbers decide; past the checks, the send of the state machine |
| LiveWallet.Wallet.WalletPassphrase | wallet/rpc.go:81-90 | unlocks and starts a timer, due the duration from now, iff the passphrase verifies |
| LiveWallet.Wallet.Lock | wallet/wallet.go:187-189 | locks and changes nothing else |

## Left out

- RPC server, command line, flags, prompts, wallet directory and file handling (rpcserver/, cmd/, btcw.go, config.go, wallet/setup.go:25-126): input and output.
- Node connections, websockets, ZeroMQ, transaction filters and the race between the first scan and the assignment of the client (wallet/nodeclient.go): plumbing; blocks, heights and acceptance are parameters.
- The polling loop of scanForNewBlocks (wallet/scan.go:79-107): its inner loop is that of scanMissingBlocks.
- argon2, secretbox, ECDSA, WIF, BIP-32 derivation, script parsing and address encoding: arbitrary deterministic functions under the laws named above.
- The difference between the two script readers the code calls, ExtractPkScriptAddrs and ParsePkScript: one function stands for both, so scripts only one of them can read are not told apart, and a script with several addresses counts as one without.
- The panics argon2 raises for zero iterations or parallelism, and its cost limits: argon2 is total here.
- int64 overflow of balances and totals: amounts are unbounded integers; only the stored bytes wrap. Restarts in ledger runs ask for a balance within int64.
- The float in btcutil.NewAmount: amounts are satoshis.
- JSON: a bucket entry is the record itself, so an entry that does not unmarshal does not occur.
- The public key and its hash in a stored key pair: nothing reads them back.
- The size of a transaction past 0xffffffff inputs or scripts, and the witness data added by signing, which the fee estimate does not see either.
- validateSignedTransaction (wallet/tx.go:104-119): nothing calls it.
- Logging.
- Data races on the UTXO slice: steps are atomic and sequentially consistent.
- The ledger law with several settlements under way: runs may have them, and ownership, keys and store metadata are proved there, but the guards of the ledger law admit one at a time. What overlapping costs is in `Overlap`, `ScanRace` and `SendRace`, restarts in the middle of a settlement are in `CrashRestart`; in runs a scan or a send up to its broadcast is one event.
- Scans and sends of any number all at once: `Overlap` has one settlement and one scan at a time, `ScanRace` scans only, `SendRace` sends only.
- Scans inside ledger runs have working writes; scans with failing writes are in the ownership and density runs, and `StoreFailures` says what they do to the ledger.
- LiveWallet.Wallet.ScanMissingBlocks: runs for a given finite number of rounds, because the loop need not end; `ScanTermination.EndsIffScannable` says when it does.
- LiveWallet.Wallet.SendToAddress: that an insufficient selection means too small an unspent sum is stated for non-negative UTXO values only, which is all a chain gives; for others it is what the random numbers decide.
- FlagRuns.BalanceIsUnspentSum: asks for distinct TxIDs in the list, because marking goes by TxID; `Settlement.MarksHitIffFirst` says exactly when that matters.
