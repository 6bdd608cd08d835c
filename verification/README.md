# Verified model of the back office core

This project models the parts of the exchange's back office where state, time and failure
meet, and proves what they keep over every run:

- **Hedge settlement** (`Allocation`, `Settlement`, `SettlementTask`, `SettlementBlocks`,
  `SettlementColumns`, `SettlementRuns`): the job that walks pending trade revenues in id order, parks small
  unhedged ones per coin, and shares a provider order's executed amount over each block that
  a hedged revenue closes. The main theorem takes any interleaving of new revenues and runs,
  each with only some of its answers or cut short, and says that it ends with the fills of one
  run that has every answer exactly when no run came too late for a row it would have settled.
- **Verification levels** (`Kyc`, `KycColumns`, `KycUser`, `KycFlows`, `KycCards`, `KycTasks`,
  `KycForms`, `KycAnswers`, `KycRuns`, `KycSafety`, `KycProvenance`, `KycVerdicts`, `KycCollision`): `save`, `change_status`, `verify_level2_if_not` and
  `reject_level2_if_should` call each other; they are proved to terminate and to equal a closed
  form without recursion. Over every run of the modelled entry points levels never fall, each level
  is entered only with its evidence, every true verdict goes back to a positive answer or a named
  outside step, and the bank cards stay within their constraints. National
  codes stay unique among verified users exactly while the two forms that write a code at any level,
  the staff form and the sign-up widget, do no harm where they stand; a run of ordinary forms and
  tasks from the empty database leads to a widget edit that does. The evidence for level 2 does not
  include the code's own verdict: for each step it is stated when the code of a raised user is
  confirmed, with a run after which it is not.
- **Periodic fetching** (`Fetching`, `ProviderIncomes`): a persistent cursor, errors and crashes
  anywhere; confirmed ranges tile time from where each name begins, and every answered transaction
  is recorded once, as it was answered.
- **Check digits** (`Digits`, `Iban`, `Luhn`, `ModEleven`): which digit errors ISO/IEC 7064
  MOD 97-10, the Luhn formula and the two mod-11 schemes catch, and exactly which they miss.
- **One-time codes** (`OtpLimiter`): the two overlapping sending windows, and redeeming: a used code
  is never found again, an unused one until it expires.
- **Notifications** (`Notifications`, `BulkNotifications`): the DIFF counter that telescopes,
  what every kind of send stores or drops, and the resumable batch job.
- **Names and balances** (`Words`, `Names`, `WalletBalances`): cleaning, splitting and rotating
  names; a grouped double-entry report against replaying every transaction.

Code that changes things step by step is a class or a method with a loop, proved equal to a
function of the old state; the theorems over whole runs are about those functions. Lemmas named
`...Outcome` and `...InColumns` say column by column what an operation leaves in the tables. A table
position stands for a row id. Times are integers. Whatever comes from outside (clock readings,
provider and matcher answers, generated codes, the moment a worker dies, the order in which a
query returns rows) is an argument, so the statements hold for all of it.

Two places where the code and its surroundings differ, and where the model follows the code:
a pattern ending in `$` also accepts one trailing newline, and `int` then raises, so the digit
validators have a third outcome `ValueError`; and requests are not database transactions, so
what a form wrote before it raised a validation error stays written.

## Model

| member | source | states |
|---|---|---|
| Allocation.LeftClosedForm | accounting/tasks/revenue.py:109-117 | the running remainder of the allocation loop is the executed amount less what was asked for so far, never below zero |
| Allocation.GreedyAllocation | accounting/tasks/revenue.py:109-117 | the shares add up to the smaller of executed and total amount, each lies between 0 and its amount, the remainder never goes negative, and shares are full, then at most one partial, then zero |
| Settlement.GapBalances | accounting/models/revenue.py:84-90 | the gap is the agreed value against the hedged value, with opposite signs for the two sides |
| Settlement.NewRevenueStanding | accounting/models/revenue.py:77-80 | a new revenue is pending exactly when it has a hedge key; without one it counts as hedged at its own price |
| Settlement.OpenMembers | accounting/tasks/revenue.py:83-121 | a row waits in its coin's list exactly when no keyed row of the coin has come since |
| Settlement.StepClose | accounting/tasks/revenue.py:102-119 | reaching a keyed row with an answer fills exactly the rows of its block and no others |
| SettlementTask.ShareOrder | accounting/tasks/revenue.py:109-117 | the in-place loop gives every revenue object of the block its greedy share, the order's price and the matching gap |
| SettlementTask.TradeRevenue.SettleDirectly | accounting/tasks/revenue.py:48-100 | the branches outside the blocks fill the three columns of their own row only |
| SettlementTask.RevenueTable.BulkUpdate | accounting/tasks/revenue.py:119 | the three columns of the block's rows are written, everything else is unchanged |
| SettlementTask.RevenueTable.SettleBlock | accounting/tasks/revenue.py:106-119 | an answered block is one more step of the run, and objects and table agree again after it |
| SettlementTask.RevenueTable.Visit | accounting/tasks/revenue.py:48-121 | after each row the map of parked lists holds, per coin, exactly the rows that wait for a keyed one |
| SettlementTask.RevenueTable.FillRevenueFilledPrices | accounting/tasks/revenue.py:25-121 | one run, stopped after any number of rows, leaves each row as its own position in its block, the block's closing row and that row's answer determine |
| SettlementBlocks.BlocksPartition | accounting/tasks/revenue.py:34-121 | per coin, closed blocks and leftover put together are the coin's rows in order |
| SettlementBlocks.BlocksClosed | accounting/tasks/revenue.py:102-104 | each closed block ends in its only keyed row |
| SettlementBlocks.BlockOutcome | accounting/tasks/revenue.py:102-119 | a run fills a block as a whole or not at all, depending only on its closing row's answer |
| SettlementBlocks.BlockConserves | accounting/tasks/revenue.py:109-119 | the amounts a run stores for an answered block add up to the smaller of the executed and the asked amount |
| SettlementBlocks.LeftoverUntouched | accounting/tasks/revenue.py:120-121 | rows that still wait for a keyed one are left alone |
| SettlementBlocks.CoinsIndependent | accounting/tasks/revenue.py:34-121 | settling a coin's rows alone gives row by row what settling the whole table gives, however other coins are interleaved |
| SettlementColumns.BlockRow | accounting/tasks/revenue.py:48-121 | a row meets others in a block exactly when it is pending, recent and of the coin, its asset is enabled, it is no trade of a user or the OTC market, not USDT against IRT while that is not hedged by the market, and its key does not begin with mm- or tr- |
| SettlementColumns.BlockStored | accounting/tasks/revenue.py:109-117 | after an answered block every row has the order's price and the gap that explains its agreed value, with opposite signs for the two sides, and the rows got their amounts, then at most one a part, then nothing |
| SettlementColumns.BlockGaps | accounting/models/revenue.py:84-90 | the gaps stored over an answered block add up to what its users agreed to pay less the price of their net purchase |
| SettlementColumns.AloneStored | accounting/tasks/revenue.py:48-100 | what a completed row outside the blocks stores: its own price and no gap for a user's trade, price 1 and the rest as gap for USDT against IRT, a zero gap alone for a disabled asset, the answered figures for the others |
| SettlementColumns.NotReached | accounting/tasks/revenue.py:29-100 | a row that is not loaded, or stands alone and is not completed, stays as it is |
| SettlementColumns.ReachedRows | accounting/tasks/revenue.py:34-121 | which rows a run that gets to so many completes: those it can settle by itself and those whose answer came |
| SettlementRuns.RunsCompose | accounting/tasks/revenue.py:29-121 | on every table two partial runs equal one run with the answers of both, because only whole blocks leave the pending rows |
| SettlementRuns.RunAppend | accounting/tasks/revenue.py:29-32 | appending a revenue does not disturb a run that has not reached it |
| SettlementRuns.WindowMatters | accounting/tasks/revenue.py:29-32 | a run that misses the rows older than its window fills the table like one that misses none exactly when each of them would have stayed pending: its block's closing row has no answer, or it stands alone and has none |
| SettlementRuns.RetryEquivalence | accounting/tasks/revenue.py:29-121 | any history of appended revenues and partial runs, with creation times and windows that do not go back, ends with the fills of one run that has all the answers at once exactly when no run missed, where it stood, a row that it would have settled |
| SettlementRuns.EventuallyComplete | accounting/tasks/revenue.py:29-121 | once every row has been reached with its answer, the table is the one a single fully answered run produces, exactly on the same condition |
| SettlementRuns.RetryInWindow | accounting/tasks/revenue.py:29-121 | while no pending row leaves the window, the equivalence holds in whatever order rows were created and windows moved |
| SettlementRuns.LeavingTheWindowChangesFills | accounting/tasks/revenue.py:29-32 | a history in which a row is missed: the closing row takes the share that the first row of its block would have had |
| Fetching.InsertNewProperties | accounting/tasks/provider.py:22-32 | inserting an answer row by row never stores a transaction twice, drops nothing already stored and records every row of the answer |
| Fetching.InsertedAsAnswered | accounting/tasks/provider.py:22-32 | every new row is the first row of the answer with its transaction id, in all its columns |
| Fetching.UnknownInserted | accounting/tasks/provider.py:22-32 | and the first row of every transaction that was unknown is stored |
| Fetching.CallTrace | accounting/models/periodic_fetcher.py:43-61 | one call confirms the ranges of its first attempts one after the other, the first from the cursor or one interval before the reading's midnight, moves the cursor behind them, inserts the rows of the attempts it made, and ends for the reason it says |
| Fetching.StepKeepsInv | accounting/models/periodic_fetcher.py:17-61 | one iteration, whatever its outcome, keeps ranges consecutive up to the cursor, behind the clock, and recorded exactly once |
| Fetching.EveryRunKeepsInv | accounting/models/periodic_fetcher.py:43-61 | the same over every sequence of calls, for any names, with errors and crashes at any point and a clock that does not go back |
| Fetching.RunsFromEmptyTables | accounting/models/periodic_fetcher.py:17-61 | every sequence of calls from tables without incomes ends in that state, and each name's first confirmed range starts at its initial cursor, or without one at one interval before the midnight of the reading that confirmed it |
| Fetching.CoveredOnce | accounting/models/periodic_fetcher.py:17-40 | every instant between the first confirmed start and the cursor lies in exactly one confirmed range |
| Fetching.CoveredFromTheStart | accounting/models/periodic_fetcher.py:17-61 | so in every such run each instant from there to the cursor lies in exactly one confirmed range |
| Fetching.FailureFreeProgress | accounting/models/periodic_fetcher.py:43-61 | a call without failures confirms all its iterations, or stops with less than one interval left before the clock |
| Fetching.OtherCursorsUntouched | accounting/models/periodic_fetcher.py:33-40 | calls for one name never move another name's cursor |
| ProviderIncomes.AccountingTables.IncomeFetcher | accounting/tasks/provider.py:22-32 | the insertion loop is get-or-create by transaction id, row by row |
| ProviderIncomes.AccountingTables.ConfirmRange | accounting/models/periodic_fetcher.py:33-40 | confirming creates or moves the cursor of that name only |
| ProviderIncomes.AccountingTables.FetchRepeatedly | accounting/models/periodic_fetcher.py:43-61 | the bounded loop is the state machine's call, errors and crashes included |
| ProviderIncomes.NextVault | accounting/tasks/provider.py:11-40 | a provider's futures vault gets one call of at most 100 hourly ranges under its own name, other vaults none |
| ProviderIncomes.AccountingTables.FillProviderIncomes | accounting/tasks/provider.py:11-40 | one run makes one call per provider futures vault, in order, and ends early exactly at the first call during which the worker dies, whose writes stay |
| Iban.VerdictOfIban | financial/validators.py:6-19 | the verdict on every string: shape, then the residue of body, letters and check digits, then the merged banks; a trailing newline raises |
| Iban.IbanInWords | financial/validators.py:6-14 | the shape in characters, and the checksum as the residue of body, letters and check digits written as one number |
| Iban.SubstitutionRejected | financial/validators.py:10-14 | a valid checksum never survives the change of one digit |
| Iban.ExchangeRejected | financial/validators.py:10-14 | nor the exchange of two different digits at any two positions, across the rearranged prefix too |
| Iban.CheckPairUnique | financial/validators.py:10-14 | every body has exactly one passing check pair in 02..98; 00, 01 and 99 pass only as aliases of 97, 98 and 02 |
| Luhn.BankCardPanValidator | financial/validators.py:22-37 | the loop accepts exactly 16 digits whose Luhn sum is a multiple of ten |
| Luhn.LuhnInWords | financial/validators.py:26-37 | digits at even places from the left count with the digit sum of their double, the others as they are |
| Luhn.SubstitutionCaught | financial/validators.py:26-37 | every change of one digit of a valid number is caught |
| Luhn.ExchangeMissed | financial/validators.py:26-37 | exchanging two different digits is missed exactly when their positions have the same parity or they are 0 and 9 |
| Luhn.LastDigitUnique | financial/validators.py:26-37 | each 15-digit prefix has exactly one last digit |
| ModEleven.NationalCardCodeValidator | accounts/validators.py:38-58 | the loop accepts exactly ten digits, after zero padding, whose check digit fits the weighted remainder |
| ModEleven.NationalCheckDigitUnique | accounts/validators.py:52-58 | every other check digit is rejected |
| ModEleven.NationalSubstitution | accounts/validators.py:46-58 | changing one other digit is missed exactly when the two remainders are 1 and 10 |
| ModEleven.NationalExchange | accounts/validators.py:46-58 | so is exchanging any two of the first nine digits |
| ModEleven.NationalCheckExchange | accounts/validators.py:46-58 | exchanging one of the first nine digits with the check digit is missed exactly when the remainder is 1 and the digit's weight meets one congruence, or the digit is a 1 and the weight meets another |
| ModEleven.NationalMissWitness | accounts/validators.py:52-58 | the remainders 1 and 10 do occur, in two valid codes one digit apart |
| ModEleven.CompanyNationalIdValidator | accounts/validators.py:76-90 | the loop accepts exactly eleven digits whose check digit fits the weighted remainder |
| ModEleven.CollectTenthDigit | accounts/validators.py:82-86 | the tenth digit, which enters every term, weighs 247 in all |
| ModEleven.CompanyCheckDigitUnique | accounts/validators.py:88-90 | every other check digit is rejected |
| ModEleven.CompanySubstitution | accounts/validators.py:80-90 | changing one of the ten other digits is missed exactly when the two remainders are 0 and 10 |
| ModEleven.CompanyExchange | accounts/validators.py:80-90 | exchanging two of the ten other digits leaves the remainder alone exactly when they stand five apart among the first nine, or are the tenth with the second or seventh; it is missed exactly then or when the two remainders are 0 and 10 |
| ModEleven.CompanyCheckExchange | accounts/validators.py:80-90 | exchanging one of the ten with the check digit is missed exactly when one of the two is 0, coming from remainder 10 if it is the check digit, and the other times one more than its place's weight leaves 10 |
| ModEleven.CompanyMissWitness | accounts/validators.py:88-90 | the remainders 0 and 10 do occur, in two valid ids one digit apart |
| OtpLimiter.VerificationCodes.SendOtpCode | accounts/models/phone_verification.py:115-188 | a code is stored exactly when the phone is not blacklisted and, outside debug mode, both windows have room; otherwise nothing changes |
| OtpLimiter.VerificationCodes.GetByCode | accounts/models/phone_verification.py:91-103 | the newest row with this code, phone and scope, and user if given, that is neither used nor expired, or none if there is none |
| OtpLimiter.VerificationCodes.GetByToken | accounts/models/phone_verification.py:106-112 | a row with this token and scope that is unused and at most one hour old, or none if there is none |
| OtpLimiter.VerificationCodes.SetCodeUsed | accounts/models/phone_verification.py:190-192 | marks one code and changes nothing else |
| OtpLimiter.VerificationCodes.SetTokenUsed | accounts/models/phone_verification.py:194-196 | marks one token and changes nothing else |
| OtpLimiter.SendsExactly | accounts/models/phone_verification.py:115-147 | a code is sent exactly when the phone is not the blacklisted one and, outside debug mode, fewer than two of its codes are from the last minute and fewer than five from the last five |
| OtpLimiter.UsedCodeIsGone | accounts/models/phone_verification.py:91-103 | over every run, once a code was marked used no later lookup returns it |
| OtpLimiter.UsedTokenIsGone | accounts/models/phone_verification.py:106-112 | nor a token that was marked used |
| OtpLimiter.SentCodeIsFound | accounts/models/phone_verification.py:91-103 | over every run, a sent code that was not marked used can be redeemed exactly until 15 minutes after it was sent |
| OtpLimiter.SlidingWindowLimit | accounts/models/phone_verification.py:123-159 | over every run each phone and scope has at most 2 codes in every closed minute and at most 5 in every closed five minutes, even if the clock jumps between calls |
| OtpLimiter.LiveCodesBounded | accounts/models/phone_verification.py:91-159 | so at any time there are at most 15 rows that some lookup for one phone and scope accepts |
| BulkNotifications.NotificationStore.ProcessOne | accounts/tasks/notification.py:42-67 | with so many writes before the worker dies, exactly the first whole batches of the users not yet addressed are stored, and DONE only after all of them |
| BulkNotifications.NotificationStore.ProcessBulkNotifications | accounts/tasks/notification.py:40-67 | a run takes the pending bulks in order until the worker dies |
| BulkNotifications.ProcessOutcome | accounts/tasks/notification.py:42-67 | so many writes store the first 1001 users per write that were not yet addressed, and DONE needs one write to spare |
| BulkNotifications.UnsentInOrder | accounts/tasks/notification.py:42-46 | the users without a notification of the group, in the order of the snapshot |
| BulkNotifications.RunFinishes | accounts/tasks/notification.py:40-67 | a run handles pending bulks in order up to the one its worker died at and no further, and with enough writes leaves none pending |
| BulkNotifications.NeverTwice | accounts/tasks/notification.py:40-67 | over every history of crashes and restarts nobody has two notifications of one group |
| BulkNotifications.DoneMeansExactlyOne | accounts/tasks/notification.py:40-67 | when a run marks a bulk DONE, every user of the snapshot it worked from has exactly one, then and ever after |
| BulkNotifications.EnoughWritesFinish | accounts/tasks/notification.py:46-67 | a bulk ends DONE exactly when the writes sufficed for all batches and the mark |
| Notifications.NotificationTable.Send | accounts/models/notification.py:117-183 | the whole effect of a send: ignored, raised, created or updated, with count and message |
| Notifications.NotificationTable.MakeRead | accounts/models/notification.py:185-189 | marks an unread row and dates it, and leaves a read one alone |
| Notifications.UnsentOutcome | accounts/models/notification.py:122-127 | without a recipient nothing happens, an unknown template raises |
| Notifications.OrdinaryOutcome | accounts/models/notification.py:138-156 | an ordinary send is dropped exactly while its group has an unread row of the Ninja service; otherwise it adds one unread row as asked, with the message as given and a count one less than the total, or a constraint raises |
| Notifications.DroppedOutcome | accounts/models/notification.py:157-183 | of the other sends exactly those without a group or of an unknown kind are dropped, and what is not stored changes nothing |
| Notifications.ReplacingOutcome | accounts/models/notification.py:129-179 | a replacing send overwrites the one unread row of group and template or adds one; a DIFF send counts what is new since the read rows and names others only if there are any |
| Notifications.ReplacingUnique | accounts/models/notification.py:165-179 | where it stores, no other unread row of group and template is left |
| Notifications.ReplacingRaises | accounts/models/notification.py:165-179 | it raises exactly when there are several such rows or a constraint forbids the new one |
| Notifications.AlwaysConstrained | accounts/models/notification.py:103-114 | over every history of sends and reads the table meets its two unique constraints |
| Notifications.MutedGroupStays | accounts/models/notification.py:138-140 | while a group has an unread Ninja row that nobody reads or replaces, ordinary sends leave the group's rows alone over every history |
| Notifications.DiffTelescopes | accounts/models/notification.py:120-189 | for a group used only with DIFF sends of one template, after any interleaving of sends and reads and any use of other groups: at most one unread row, and all counts add up to the last announced total minus one |
| Notifications.DiffSendStored | accounts/models/notification.py:103-178 | such a send is refused exactly when the template is plain and the recipient already has a read row of the group |
| Words.JoinSplit | accounts/utils/similarity.py:51-53 | joining the words of a text gives the text back |
| Words.SplitJoin | accounts/utils/similarity.py:51-53 | splitting joined blank-free words gives the words back |
| Words.RotatedWords | accounts/utils/similarity.py:50-70 | rotating i times moves the last i words to the front |
| Words.FullTurn | accounts/utils/similarity.py:50-70 | a name of k words comes back after k rotations |
| Names.CleanIsNormal | accounts/utils/similarity.py:10-43 | a cleaned name has nothing to translate, only single inner blanks and none at its ends |
| Names.CleanIsTokens | accounts/utils/similarity.py:42-43 | a cleaned name is the translated name's pieces between white space, one blank apart: no letter is lost and no words are joined or parted |
| Names.TranslateLetters | accounts/utils/similarity.py:14-40 | which Arabic letter forms become which letters |
| Names.TranslateOthers | accounts/utils/similarity.py:14-40 | hamza and the vowel signs disappear, every other character stays |
| Names.CleanIdempotent | accounts/utils/similarity.py:10-43 | cleaning twice is cleaning once |
| Names.CompareWords | accounts/utils/similarity.py:62-86 | the two tests together: some rotation, or the closing prefix test on the unrotated name |
| Names.CompareRotations | accounts/utils/similarity.py:62-70 | the loop tests each rotation of the words once, and if none passes the name is back to where it was |
| Names.NameSimilarity | accounts/utils/similarity.py:59-86 | true exactly when some rotation of the cleaned first name, or a common prefix of words, is similar enough |
| Names.SimilarInWords | accounts/utils/similarity.py:59-86 | the i-th rotation moves the last i words to the front, the prefix test takes as many leading words of the longer name as the shorter one has, and 0.79 is enough |
| Names.FirstNameWords | accounts/utils/similarity.py:94-112 | how many words go to the first name, by number of words and by title, single letter and double name at its beginning |
| Names.SplitNames | accounts/utils/similarity.py:94-112 | a single word is the first name; of two or more words neither part is empty and together they are the cleaned name |
| WalletBalances.BuildBalanceMap | accounting/reports/wallet_balances.py:15-24 | the map built from grouped sums, in any order, is each account's balance when every selected transaction is replayed, and names exactly the accounts that moved |
| WalletBalances.BalanceIsReceivedLessSent | accounting/reports/wallet_balances.py:13-24 | a replayed balance is what the account received in IRT up to the date less what it sent |
| WalletBalances.BalancesCancel | accounting/reports/wallet_balances.py:20-24 | over all accounts that move, the balances add up to zero |
| WalletBalances.LaterReport | accounting/reports/wallet_balances.py:15-24 | a later report is the earlier one plus the net of the transactions between |
| Kyc.SettledIsQuiescent | accounts/models/user.py:374-420 | a stored profile rests at a fixed point; still pending at level 1 it has unjudged evidence, at level 2 a selfie not refused and not both approvals |
| Kyc.StatusChangeIsQuiescent | accounts/models/user.py:302-349 | so does every change of status, and VERIFIED is stored only on top of VERIFIED |
| KycColumns.EvidenceInColumns | accounts/models/user.py:356-372 | what counts as complete and as open evidence, over the columns of the user and of the user's live cards |
| KycColumns.TakenInColumns | accounts/models/user.py:309 | somebody else above level 1 has the code |
| KycColumns.SaveOutcome | accounts/models/user.py:398-420 | when a save raises, refuses or leaves a user, and that nothing else of the row moves |
| KycColumns.StatusOutcome | accounts/models/user.py:302-349 | the same for a change of status, with the reason it stores |
| KycColumns.ReadyOutcome | accounts/models/user.py:374-380 | the same for the promotion on complete evidence |
| KycColumns.MergeLaws | accounts/models/user.py:398-400 | writing no column changes nothing, all columns the whole row, and two writes are one of both |
| KycColumns.MergeStanding | accounts/models/user.py:398-400 | naming level, status, reason, code or the code's verdict writes that column alone |
| KycColumns.MergeApprovals | accounts/models/user.py:398-400 | so do the phone's verdict, the selfie and its verdict |
| KycColumns.MergeData | accounts/models/user.py:398-400 | so do birth date and names with their verdicts |
| KycUser.User.Save | accounts/models/user.py:398-420 | writing columns and following the mutual recursion ends in the closed form, with nothing left unsaved |
| KycUser.User.ChangeStatus | accounts/models/user.py:302-349 | the same for a change of status, duplicates and level changes included |
| KycUser.User.VerifyLevel2IfNot | accounts/models/user.py:374-380 | promotes a level-1 user exactly when all evidence is true |
| KycUser.User.RejectLevel2IfShould | accounts/models/user.py:382-392 | rejects a pending level-1 user exactly when all evidence is judged and some is false |
| KycUser.EvidenceOfFields | accounts/models/user.py:356-372 | what `all` and a search for None over the field list say about the profile |
| KycTasks.VerifyBankCardByNationalCode | accounts/verifiers/basic_verifier.py:277-339 | the retried matcher call and its effects on user and card, in the order of the code |
| KycTasks.VerifyNameByBankCard | accounts/verifiers/basic_verifier.py:93-164 | the retried card query and its effects on names, card and status |
| KycTasks.VerifyNationalCodeWithPhone | accounts/verifiers/basic_verifier.py:58-82 | the retried phone match at level 2 and what it leads to |
| KycTasks.RunBasicVerify | accounts/verifiers/basic_verifier.py:342-365 | the whole task as one transition of the database |
| KycAnswers.ResolveFirst | accounts/verifiers/basic_verifier.py:319-325 | of the allowed attempts the first one that was answered counts |
| KycAnswers.MatchCardOutcome | accounts/verifiers/basic_verifier.py:293-339 | a match confirms card, birth date and code, or the user is refused as a duplicate; no match leaves the card refuted, the identity open and the user rejected; invalid data leaves the identity refuted and the card open; no answer changes nothing |
| KycAnswers.NotAskedOutcome | accounts/verifiers/basic_verifier.py:277-291 | without a question to ask: all confirmed already, nothing to ask about, or another live verified card has the number, which costs this card its verdict and rejects the user |
| KycAnswers.BasicVerifyAnswers | accounts/verifiers/basic_verifier.py:342-365 | the whole task changes the tables as the matcher answered and raises nobody without a positive answer, unless code, birth date and card were all confirmed before |
| KycAnswers.BasicVerifyRest | accounts/verifiers/basic_verifier.py:353-365 | with these confirmed, the names and the promotion are what is left |
| KycAnswers.BasicVerifyIdle | accounts/verifiers/basic_verifier.py:342-351 | above level 1, or without a KYC card, the task does nothing |
| KycAnswers.FirstKycCardInColumns | accounts/models/user.py:273-274 | the task works on the KYC card of the lowest id, a deleted one too |
| KycAnswers.NameOutcome | accounts/verifiers/basic_verifier.py:108-136 | a full name from the card is split, stored and verified; a single word is stored without a verdict |
| KycAnswers.NoNameOutcome | accounts/verifiers/basic_verifier.py:138-164 | invalid data cost the card its verdict and reject the user; other errors change nothing |
| KycAnswers.PhoneOutcome | accounts/verifiers/basic_verifier.py:58-82 | at level 2 the phone's verdict is the matcher's word, and a positive one raises a pending user whose selfie is accepted |
| KycProvenance.ClaimsHaveSources | accounts/verifiers/basic_verifier.py:277-365 | over every run, a verdict on code, birth date, name, phone or selfie that became true goes back to one step that granted it: a positive answer about it, a staff form, or for the code a payment redirect |
| KycProvenance.CardClaimsHaveSources | accounts/verifiers/basic_verifier.py:277-365 | over every run, a card that became verified goes back to a positive answer about that card or to an outside change of the card table |
| KycCards.ChooseCardKeeps | financial/models/bank_card.py:76-92 | unless a verified KYC card has another number, choosing the card cannot run into the three uniqueness constraints and ends with the chosen card as the user's only live KYC card and only live card with the number |
| KycCards.ConstrainedInColumns | financial/models/bank_card.py:76-92 | the three constraints over live cards |
| KycTasks.GetKycBankCard | accounts/views/basic_verify_user_view.py:44-59 | refuses exactly when a verified live KYC card has another number; otherwise the constraints survive, the chosen card is the user's one live KYC card and one live card with the number, a verified verdict was given to that very number, and of the other cards only the user's live ones with the number are deleted |
| KycTasks.UpdateBasicInfo | accounts/views/basic_verify_user_view.py:61-126 | what a refused, an accepted and a late-refused form leave in the database |
| KycTasks.UpdateFullVerification | accounts/views/full_verify_user_view.py:15-45 | what the selfie form leaves in the database |
| KycTasks.WriteData | accounts/views/basic_verify_user_view.py:89-111 | verified fields keep their values, the others take the submitted ones and lose their verdicts, and every changed column is among the saved ones |
| KycTasks.RejectIfTaken | accounts/views/basic_verify_user_view.py:114-119 | the form is rejected exactly when somebody verified holds the code |
| KycForms.RefusedInColumns | accounts/views/basic_verify_user_view.py:44-80 | when the basic form is refused, in columns, days of age and cards |
| KycForms.DataOutcome | accounts/views/basic_verify_user_view.py:89-111 | which columns take the submitted data and which keep what is confirmed |
| KycForms.SubmitOutcome | accounts/views/basic_verify_user_view.py:82-119 | what an accepted form comes to: refused with a held code, raised on complete evidence, refused when all is judged and something missing, else in line |
| KycForms.FullFormOutcome | accounts/views/full_verify_user_view.py:15-45 | what the selfie form comes to |
| KycForms.StaffOutcome | accounts/admin.py:284-296 | a staff form's columns are stored as written, and a user who is not in line keeps level, status and reason |
| KycForms.WidgetOutcome | accounts/views/signup_widget_view.py:50-59 | when the widget writes a code, in columns |
| KycForms.PutBackOutcome | accounts/views/change_phone_before_verify.py:16-67 | a changed phone puts a level-1 user without a confirmed code in line, its two saves acting as one |
| KycForms.TurnedDownOutcome | accounts/admin.py:433-437 | staff reject new and waiting level-1 users |
| KycForms.StandingOutcome | financial/models/payment.py:218-221 | the payment redirect confirms a code unless it is held; sign-up, plain save and recheck do what they say |
| KycForms.NewcomerOutcome | accounts/views/signup_view.py:90-105 | a new account starts at level 1 without data or verdicts |
| KycTasks.SaveStaffForm | accounts/admin.py:284-296 | names, birth date, code and all verdicts that staff may edit take effect through the full save |
| KycTasks.SubmitWidgetCode | accounts/views/signup_widget_view.py:37-63 | the code is written exactly when the user's own is missing or unconfirmed and nobody holds the new one confirmed |
| KycRuns.MatchedLawful | accounts/verifiers/basic_verifier.py:327-339 | recording a matcher answer promotes at most once even though the user is saved before the card |
| KycRuns.BasicVerifyLawful | accounts/verifiers/basic_verifier.py:277-365 | one whole basic verification raises a user by at most one level, and only with all evidence and a free code |
| KycSafety.SubmitLawful | accounts/views/basic_verify_user_view.py:82-119 | a whole submission raises a user by at most one level and only with a free code, the new one included |
| KycSafety.StepLawful | accounts/models/user.py:302-420 | every step but the two forms that write codes keeps its user's code from level 2 on, besides what StepOrderly says |
| KycSafety.StepOrderly | accounts/models/user.py:302-420 | every step raises its user by at most one level with that level's evidence, never stores VERIFIED, and touches no other user |
| KycSafety.WidgetEditUniqueness | accounts/views/signup_widget_view.py:50-59 | the sign-up widget's edit keeps codes unique exactly when it is not offered, or the user is at level 1, or nobody of level 2 or more holds the code |
| KycSafety.StepUniqueness | accounts/models/user.py:308-315 | a step keeps codes unique among users of level 2 or more exactly when it is harmless: any step but the two code-writing forms, and these at level 1 or with a code that no such user holds |
| KycSafety.CodesStayUnique | accounts/models/user.py:308-315 | over a run codes are unique all the way exactly when every step of it is harmless where it stands |
| KycSafety.UniqueWithoutCodeEdits | accounts/models/user.py:308-315 | so no two users of level 2 or more share a code after any run in which neither form is used |
| KycSafety.LevelsNeverFall | accounts/models/user.py:302-420 | over every run nobody's level falls |
| KycSafety.LevelsAreEarned | accounts/models/user.py:305-326 | whoever is at level 2 or 3 was raised there by one step, with all level-2 evidence true and a free code, or from level 2 with selfie and phone true |
| KycSafety.CardsStayConstrained | financial/models/bank_card.py:76-92 | over every run whose outside card changes meet the three constraints the card table meets them |
| KycVerdicts.LevelTwoVerdict | accounts/models/user.py:356-372 | a step that raises to level 2 leaves the code confirmed exactly when it is the verification task, the payment redirect or a staff form that says so, or the code was confirmed before |
| KycCollision.LevelTwoUnconfirmed | accounts/views/basic_verify_user_view.py:91-112 | a run from the empty database in which a duplicate's second form takes it to level 2 with a new code that nobody has confirmed |
| KycCollision.WidgetCollides | accounts/views/signup_widget_view.py:50-59 | after a run without code edits, two such users stand at level 2 and the widget offers one of them the other's code: codes are unique before it and not after |
| KycCollision.WidgetCanCollide | accounts/views/signup_widget_view.py:50-59 | the same run with valid codes, card numbers and a name |

## Left out

- SettlementRuns.RetryEquivalence: rows are created in id order and windows do not move back, which is what clock and sequence give without concurrent transactions (RetryInWindow needs neither); every asset stays enabled or disabled.
- SettlementTask.RevenueTable.FillRevenueFilledPrices: decimal columns round to a fixed number of places when stored, amounts here are exact reals; the age limit arrives as a cutoff time; the reassignment of OTC accounts is not modelled.
- SettlementTask.TradeRevenue.SettleDirectly: the sums behind OTC-market rows and the answers for `mm-` and `tr-` rows are outside answers per row; an exception in such a branch is a run that stops at that row.
- ProviderIncomes.AccountingTables.FetchRepeatedly: the two other uses of the periodic fetcher, whose fetchers replace rows instead of inserting them, add no new protocol.
- ModEleven.CompanyNationalIdValidator: non-ASCII digits, which its pattern also accepts.
- KycTasks.GetKycBankCard: which of several matching cards a query returns first is an argument constrained by the query; within the constraints there is only one.
- Names.NameSimilarity: the similarity measure between two strings is an arbitrary function into the reals.
- Concurrent workers: each entry point is one atomic step, as the code assumes without enforcing it.
- Company acceptance, manual approval and direct edits of level or status in the administration pages: they set levels without the evidence checks.
- KycTasks.SaveStaffForm: who may edit which field is not modelled; any staff member may edit any of them.
- A phone change before verification is a step on values only; its reset of the code's verdict is never among the saved columns, so the row keeps the old verdict.
- Verification dates, archiving, images beyond an id, alerts and prizes are not columns of the model.
- Suspension, passwords, login activity, permissions and throttling of the user model.
- Random code generation, delivery of messages, titles, links and images of notifications.
- The CSV file of the balance report and its restriction to system accounts.
