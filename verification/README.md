# Verified model of the order ledger

The repository is a small shop back office: a Go server over PostgreSQL and a React front end. A seller
creates or imports orders, a customer opens a secret link, submits details with a payment receipt, the
seller moves the order through its statuses, and an order with a split payment collects a second receipt.

The centre of this project is that **order ledger** as a transition system (`Ledger.dfy`). Its state holds
the order rows, the append-only status history, the pilot events, the receipt directory, the row locks, any
number of requests in flight, and the responses already sent. Every handler is split into the steps the code
takes: unlocked lookup, receipt upload, locking read, rename, insert or conditional update, second lookup,
deferred discard and response. The steps of different requests interleave freely; shops, products and
access rights may change at any moment; a request may fail between any two steps before its commit; and the
process may crash. Row locks and conditional updates behave as at the Read Committed level of PostgreSQL 17
(section 13.2.1 of its documentation): a locking step waits until the row is free and then sees the current
row.

Around it stand smaller models with their own main results:

| file | what it models |
|---|---|
| `Text.dfy`, `Customers.dfy` | digit, mobile, card and IBAN normalisers of server and client; the customer's details |
| `Pricing.dfy`, `Intake.dfy` | duplicate detection, the checked 64-bit total, the request fingerprints |
| `Orders.dfy` | rows, history, events and every transaction on them |
| `Ledger*.dfy` | the transition system, its invariant, its preservation step by step, what follows for rows, files, responses, losers, authors and links, and the effect and answer of each step |
| `Edits.dfy`, `Retries.dfy` | the seller's edit from its request: accepted when, and leaving what; what repeating an edit or a payment step does |
| `Store.dfy` | the same transactions as an object whose tables the handlers change statement by statement |
| `Reports.dfy`, `OrderLists.dfy` | report aggregates and list counts, against the history and against the lists themselves |
| `Images.dfy`, `LogoRaces.dfy`, `ImageStore.dfy` | product pictures and shop logos replaced while their files stay consistent, and exactly which races leave litter |
| `Cards.dfy` | payment cards and the copy of the active one on the shop row |
| `Limiter.dfy`, `PilotEvents.dfy` | the login limiter and the caps on pilot events |
| `Paging.dfy` | the four sort orders, pages, and the browser's list under out-of-order responses |
| `CreateClient.dfy`, `ClientServer.dfy` | the browser half of order creation: session key, retries, lost and late messages, reloads, navigation; its server against the ledger |
| `Calendar.dfy`, `Template.dfy`, `Support.dfy` | working-day arithmetic, share-message templates, contact settings |

Code that changes things in place is a class or a loop with invariants; each such method is proved against a
function of the old state, and the laws are lemmas about that function. Protocols between several parties are
transition systems on values, because what matters there is every interleaving. `dafny verify dfyconfig.toml`
checks everything.

Conventions: a hash is an injective wrapper around what it hashes; random tokens and stored file names are
named after the request that drew them, hence distinct; times are integers. The field `origin` of an order is
not a column: it names the request that inserted the row.

Three places where code and expectation differ, proved as they are:

- The create page is meant to leave at most one order its seller has not seen. It does so exactly when the
  seller cannot navigate away from a pending request (`CreateClient.AtMostOneUnseenOrderIffHeld`). The page
  asks before a reload, but its link to the import form stays active and the browser's Back is not caught;
  the response of a form already left still clears the stored key. `CreateClient.LeavingHidesTwoOrders` is
  a run with two unseen orders, and `CreateClient.UnseenOrdersAreBounded` the bound that always holds.
- Two logo uploads for one shop can leave a file that nothing refers to (`Images.RacingLogosStrandAFile`),
  because the old path is read without a lock. `LogoRaces.LogoLittersIffOvertaken` says exactly which uploads
  do, `Images.QuietDirectoryIsExactIff` when the directory is clean, and `Images.ProductDirectoryIsExact` that
  product pictures never litter it.
- The normaliser of Iranian mobile numbers is not idempotent on every input
  (`Text.MobileNormaliserNotIdempotent`); `Text.MobileNormaliserIdempotentIff` gives the exact condition.
  On accepted numbers it is.

The defensive check after the customer's conditional update (`customer.go`, rows affected other than one)
cannot fire under the row lock: `LedgerSafety.LockedCommitSucceeds`.

## Model

| member | source | states |
|---|---|---|
| LedgerTheorems.OneOrderPerKey | orders.go:199-205 | in every run at most one order exists per create key, over both creation paths |
| LedgerTheorems.CreatedResponsesAgree | orders.go:135-149 | in every run each 201 response names an existing order with its request's key and fingerprint, and two of them name the same order exactly when their requests have the same key |
| LedgerTheorems.CreatedRequestsAgree | historical_orders.go:145-172 | two 201 responses for one key answered requests for the same order: both normal or both imports, with equal normalised fields up to item order |
| LedgerTheorems.AnsweredJobsWereChecked | orders.go:90-120 | in every run each answered request had passed its handler's own checks |
| LedgerTheorems.LosersLeaveNothing | historical_orders.go:237-252 | a request whose response does not name its own new order left no row, and no file that no row names |
| LedgerLosers.LosersWroteNothing | historical_orders.go:237-252 | in every run a request whose response does not report its own success, refused or answered with another request's order, never changed a row, an item, a history entry or an event |
| LedgerLosers.WritingSucceeds | orders.go:199-230 | a step of a request that changes the tables decides that request's success, for a creation with the row it inserted itself |
| LedgerTheorems.LoserIsAnswered | orders.go:221-230 | a request that lost the insert race is answered 201 with the winner's order exactly when its admin may see that order and the fingerprints agree, and 409 otherwise |
| LedgerTheorems.ReceiptsExist | customer.go:154-204 | at every moment of every run, crashes included, each initial or final receipt name in a row is an existing file, and no name occurs twice |
| LedgerTheorems.QuietDirectoryIsExact | images.go:79-92 | without crashes, once nothing is in flight, the receipt directory holds exactly the referenced files |
| LedgerTheorems.EvidenceLadder | orders.go:376-459 | in every reachable state: status, submission, valid details, receipt, request for the final payment (with a paid history entry), final receipt and confirmation rest on one another |
| LedgerTheorems.CreationPricing | orders.go:178-198 | the creation transaction loads exactly the requested products, refuses exactly when the exact total exceeds 64 bits, and stores the struck-through price exactly when the total exceeds the amount |
| LedgerTheorems.StepEvolves | installment_payments.go:147-170 | no step rewrites a fixed column or a payment snapshot, undoes a milestone, or drops a history entry or event |
| LedgerTheorems.MilestonesAreWriteOnce | installment_payments.go:22-64 | the same between any two moments of a run |
| LedgerTheorems.HistoryIsAPath | orders.go:428-452 | every history starts from nothing, chains without self-loops and ends in the row's status, with one creation event and one status event per later entry |
| LedgerTheorems.SweepNeverCancelsASubmittedOrder | orders.go:261-295 | racing anything, a sweep's commit cancels exactly the rows it marked, all unsubmitted, waiting and old enough, reports their number and changes no other row |
| LedgerSubmissions.AcceptedSubmissionIsOnRecord | customer.go:161-204 | in every run each 200 response to a customer's details or final receipt has filled that column of an order with its own file |
| LedgerSubmissions.AcceptedSubmissionsDiffer | installment_payments.go:116-136 | no two such responses filled the same column, so details and receipts are accepted once per order |
| LedgerSubmissions.OnlyCommitsAccept | installment_payments.go:106-136 | no step but the commit of a locked submission makes a request accepted |
| LedgerSubmissions.RunKeepsAccepted | customer.go:135-207 | every run keeps responses and receipts in correspondence, and answers no request twice |
| LedgerTheorems.CancelAllExact | orders.go:269-289 | the conditional updates cancel exactly the listed stale rows and add one history entry each |
| LedgerSafety.RunKeeps | orders.go:135-236 | every run keeps the ledger's invariant over tables, files, locks, requests and responses |
| LedgerSafety.StepKeeps | historical_orders.go:158-252 | each step of each handler, and a crash, keeps that invariant |
| LedgerSafety.LockedCommitSucceeds | customer.go:173-197 | under the row lock the condition repeated in the update still holds, so the submission commits and the row names its receipt |
| LedgerSafety.TryInsertKeeps | orders.go:199-205 | insert or lose: both outcomes of the conflicting insert keep the invariant |
| LedgerSafety.SubmitCommitKeeps | customer.go:161-201 | the committed submission keeps the invariant: one status step, one entry, one event, and the renamed file now referenced |
| LedgerSafety.FinalCommitKeeps | installment_payments.go:106-131 | the same for the final receipt |
| LedgerSteps.RenameKeeps | images.go:87-92 | renaming the upload inside the transaction keeps the account of every file |
| LedgerSteps.CloseKeeps | images.go:79-85 | the deferred discard removes what an unsuccessful request still owns and nothing else |
| LedgerSteps.CrashKeeps | images.go:18-92 | after a crash every referenced file exists and every other one is accounted for as stranded |
| LedgerInvariant.FrameRule | orders.go:135-236 | a step that gets its own request right and leaves the others' rows, locks, names and files alone keeps the whole invariant |
| LedgerCreation.CreateAnswers | orders.go:170-220 | the creation transaction, from the request as sent and the catalog of the moment: 404 without access to an active shop or with a product not on sale there, 402 when the shop is not writable, 400 when the sum of lines and prices exceeds 64 bits, a lost race when the key is in use, each leaving the tables alone; otherwise exactly one new row, entry and event, with every column stated |
| LedgerCreation.CreationDecided | orders.go:40-50 | the same for the transaction on its own, whatever the ledger around it |
| LedgerCreation.BeginAnswers | historical_orders.go:198-211 | the check in front of an import refuses on the same grounds, and otherwise goes on with the shop's payment columns of that moment and the rows of exactly the products asked for |
| LedgerCreation.ImportAnswers | historical_orders.go:174-235 | the import's insert loses when the key is in use by then, and otherwise adds one row with every column stated, status, details and receipt as the form has them, items and payment columns as the check saw them |
| LedgerCreation.ItemsAreAsked | orders.go:206-212 | the stored items are the lines of the request, each once, with its own quantity and the price just read |
| LedgerCreation.LoadedAll | orders.go:178-183 | as many rows as lines are loaded exactly when every product asked for is an active product of the shop |
| LedgerHistory.EveryOrderWasOffered | orders.go:170-212 | in every run each order was entered by a seller who at some moment had access to its active, writable shop, with that moment's payment columns and items on sale there at their prices |
| LedgerHistory.EveryEntryHasItsAuthor | orders.go:448-451 | in every run a history entry that names a seller was written by one with access to the shop at some moment, and one that names nobody leads from waiting for information to waiting for payment or to cancelled; so every paid, preparing or shipped entry names a seller |
| LedgerHistory.FinalPaymentFollowsApproval | installment_payments.go:40-50 | in every run an order whose final payment was requested has a paid entry by a seller with access to its shop |
| LedgerHistory.RunKeepsAuthors | historical_orders.go:198-235 | every run keeps entries authored, orders offered and pending imports checked |
| LedgerAnswers.DetailsCommitted | customer.go:161-201 | an accepted submission: status waiting for payment, exactly the submitted details, the moment and the receipt, every other column and row as before; one more entry, from waiting for information to waiting for payment, without a seller |
| LedgerAnswers.FinalReceiptCommitted | installment_payments.go:116-131 | an accepted final receipt fills its column and changes nothing else of the rows and the history |
| LedgerAnswers.LockAnswers | customer.go:154-167 | under the row lock a submission goes on exactly when the link still leads to the order and its details, or final receipt, are still due; 404 and 409 otherwise |
| LedgerAnswers.PublicLookupAnswers | orders.go:811-825 | a token no order has gives 404, details already submitted give 409, and otherwise the order of the token is opened |
| LedgerAnswers.FirstLookupAnswers | orders.go:142-149 | an order with the key answers a creation only to a seller with access to its shop: 201 for the same fingerprint, 409 for another; otherwise the request goes on |
| LedgerAnswers.EditAnswers | orders.go:376-459 | an edit writes exactly when the row is free, the seller has access, and no condition for 404, 409 or 400 holds; then every column is as asked |
| LedgerAnswers.FinalRequestAnswers | installment_payments.go:22-64 | the first request for the final payment stores the moment and the shop's payment columns of that moment, exactly when the seller sees the order and its first payment is submitted, approved and not undone; anything else changes nothing |
| LedgerAnswers.ConfirmationAnswers | installment_payments.go:147-170 | a confirmation stores the moment and the seller exactly when the final receipt of an order not cancelled is there and unconfirmed |
| LedgerAnswers.RotationAnswers | orders.go:764-792 | a new link replaces the token for a seller with access, and nothing else of the order |
| LedgerAnswers.SweepLists | orders.go:264-268 | the sweep's list holds exactly the orders waiting for information since before the cutoff |
| LedgerAnswers.SweepMarks | orders.go:269-276 | a listed row is marked exactly when it still matches as its lock is taken |
| LedgerAnswers.CloseAnswers | orders.go:231-236 | the reply decided is the reply sent, once, and the request takes its unreferenced file with it |
| LedgerAnswers.ArrivalStarts | orders.go:135-142 | a request that passed its checks starts with nothing looked up, written or uploaded |
| LedgerAnswers.EventAnswers | pilot_events.go:55-64 | an event is stored unless its key is taken under its name |
| LedgerLinks.LinksAreUnique | orders.go:811-825 | in every run a secret link leads to at most one order |
| LedgerLinks.ReplacedLinkStaysDead | orders.go:764-792 | a replaced link leads to no order at any later moment of any run |
| LedgerLinks.EventKeysAreUnique | pilot_events.go:55-64 | in every run no two events share a name and a key |
| LedgerProgress.NoDeadlock | main.go:84-106 | with at most one sweep in flight, as the server's single ticker runs it, in every run some request in flight can take its next step |
| LedgerProgress.NobodyIsStuck | customer.go:154-204 | in every run a request has a step of its own to take, or needs the row lock of another request that has one or is a sweep |
| LedgerProgress.EveryStepCounts | historical_orders.go:158-252 | in every run each step of a request brings it nearer to its response: seven at most for creations, imports and submissions, and for a sweep two more than the rows on its list |
| LedgerProgress.RunKeepsFit | images.go:18-92 | every run keeps uploads in step with the phases of their requests, and a sweep's remaining rows apart from its marked ones |
| Edits.EditIsDecided | orders.go:376-436 | the edit's outcome from its request: 404 without the order or access, 409 for customer fields before any were submitted, 400 exactly when a named field is invalid, 409 for a status without its evidence, and otherwise the edit as asked |
| Edits.EditLeaves | orders.go:385-459 | after an accepted edit each of the eleven named fields and the status holds its value in normal form, unnamed ones, other columns and other rows are unchanged, and entry and events record exactly what moved |
| Edits.MergeValidIff | orders.go:404-427 | an edit of valid details is valid exactly when every field it names is |
| Orders.InsertKeeps | orders.go:199-219 | inserting a fresh row under a new key keeps history, events, keys and evidence of all orders |
| Orders.CreationRecorded | orders.go:217-219 | the keyed creation event is never swallowed by the unique index |
| Orders.UpdateKeeps | orders.go:376-459 | every accepted edit keeps all table invariants, whatever status it names |
| Orders.SubmitKeeps | customer.go:161-201 | so does the customer's submission |
| Orders.RequestFinalKeeps | installment_payments.go:22-64 | so does the request for the final payment |
| Orders.SubmitFinalKeeps | installment_payments.go:106-131 | so does the final receipt |
| Orders.ConfirmFinalKeeps | installment_payments.go:147-170 | so does the confirmation |
| Orders.RotateKeeps | orders.go:775-792 | so does a new customer link |
| Orders.CancelAllKeeps | orders.go:261-295 | so does the whole sweep |
| Orders.RowUpdateKeeps | orders.go:428-452 | the common reason: one row rewritten, an entry and a status event exactly when the status moves |
| Retries.EditTwice | orders.go:376-459 | the same edit again is accepted and changes nothing, adding no entry and no event |
| Retries.EditKeepsTheRest | orders.go:385-424 | fields an edit does not name keep their values |
| Retries.RequestFinalTwice | installment_payments.go:34-36 | asking again keeps the first snapshot, whatever the shop's card is by then |
| Retries.ConfirmFinalTwice | installment_payments.go:156-158 | confirming again keeps the first confirmation |
| Store.SweepAlone | orders.go:261-295 | run alone the sweep cancels exactly the orders waiting for information since before the cutoff, adds one entry and one event each, counts them, changes nothing else, and a second run finds nothing |
| Store.ListsStaleMeans | orders.go:264-268 | a list is the sweep's exactly when it holds each order still waiting since before the cutoff, once, and nothing else |
| Store.ImportDecided | historical_orders.go:198-235 | the import's transaction as a whole, from the request as sent: its refusals and every column of its row |
| Store.CancelAllAppends | orders.go:277-286 | the sweep appends its entries and events in list order and rewrites none |
| Store.ImportHalvesCompose | historical_orders.go:199-236 | the two steps around the rename compose to the import transaction |
| Store.OrderStore.CancelStaleOrders | orders.go:261-295 | the loop equals its specification for any list of ids and returns the number of cancelled orders; given the stale ones it cancels exactly the orders waiting for information for three days or more, and leaves none |
| Store.OrderStore.CreateOrder | orders.go:170-220 | statement by statement, with the 64-bit loop, the transaction the ledger uses; its refusals and the new row are stated from the request and the catalog |
| Store.OrderStore.ImportOrder | historical_orders.go:198-236 | the same for an import |
| Store.OrderStore.InsertOrder | orders.go:199-219 | row, first entry and creation event together, unless the key is in use |
| Store.OrderStore.UpdateOrder | orders.go:376-459 | the same for an edit: each refusal exactly under its condition and without a trace, each named field stored, everything else kept |
| Store.OrderStore.SubmitCustomerDetails | customer.go:161-201 | the same for the customer's submission: accepted exactly when it is due, and then the row, entry and events are exactly the submission's |
| Store.OrderStore.RequestFinalPayment | installment_payments.go:22-64 | the same for the request of the final payment: the first one stores the payment columns it was given, exactly when the first payment is approved |
| Store.OrderStore.SubmitFinalReceipt | installment_payments.go:106-131 | the same for the final receipt, accepted exactly when it is due |
| Store.OrderStore.ConfirmFinalPayment | installment_payments.go:147-170 | the same for the confirmation, made exactly once and by the seller it names |
| Reports.ReportAgreesWithHistory | reports.go:48-56 | in every run, for every shop and status, the report's count equals arrivals minus departures in the history |
| Reports.StatusCountsConserved | reports.go:48-56 | the same for any tables whose histories are paths |
| Reports.StatusesPartition | reports.go:30-40 | the six counts sum to the order count, and the confirmed count is three of them |
| Reports.StatusCounts | reports.go:42-55 | the map filled by two loops holds the true count for every status, absent ones included |
| Reports.ListCounts | orders.go:524-534 | the two counters hold the archived orders and all others, together every order |
| Reports.AverageIsFloor | reports.go:70-73 | the average is the greatest whole amount whose multiple stays within the confirmed value |
| OrderLists.ListsHaveTheirCounts | orders.go:520-541 | without filter and search the archive list has as many rows as shipped and cancelled orders, both views together all orders, and a status filter over all gives that status's count |
| OrderLists.ListLength | orders.go:535-562 | any query's list holds each order asked for, once |
| OrderLists.ListOrders | orders.go:516-580 | the two counters are the lengths of the two views, and the page is the next rows of the query's list |
| Pricing.CheckLines | orders.go:103-111 | the validation loop accepts exactly the lists with quantities 1 to 99 and distinct nonzero products, and builds their quantity map |
| Pricing.QuantitiesExact | orders.go:103-111 | on accepted lists the map gives each product its own quantity and nothing else |
| Pricing.EqualCountsLoadEverything | orders.go:181-183 | equal counts mean exactly the requested products were loaded |
| Pricing.Total | orders.go:184-194 | in 64-bit arithmetic the guarded loop fails exactly when the exact sum does not fit, and returns it otherwise |
| Pricing.TotalIgnoresOrder | orders.go:184-194 | the sum does not depend on the order of the rows |
| Pricing.OverflowReachable | orders.go:184-194 | the overflow branch is reachable with fifty lines of ninety-nine at the highest price |
| Intake.NormalFingerprintIff | orders.go:79-133 | two normal requests have equal fingerprints exactly when their normalised fields agree up to item order, key and elapsed time ignored |
| Intake.HistoricalFingerprintIff | historical_orders.go:90-156 | the same for imports, key and receipt included |
| Intake.KindsNeverCoincide | historical_orders.go:151-156 | a normal and a historical fingerprint never coincide |
| Intake.SortLinesCorrect | orders.go:102 | sorting gives a sorted permutation |
| Intake.SameItemsIff | orders.go:102 | for distinct products, sorted lists agree exactly when the items agree up to order |
| Intake.AcceptedItemsDistinct | orders.go:102-111 | the duplicate check looks through the sorting |
| Intake.NormalAcceptedIff | orders.go:79-114 | exactly which requests of the create page are accepted, from the request as sent and whatever the order of its items |
| Intake.HistoricalAcceptedIff | historical_orders.go:90-142 | exactly which imports are accepted |
| Intake.ElapsedIsClamped | orders.go:115-120 | the time the seller took is kept between nothing and ten minutes |
| Customers.StoredDetailsReparse | customer.go:51-93 | accepted details are valid and in normal form: parsing the stored ones yields them again |
| Customers.DetailsAcceptedIff | customer.go:51-93 | exactly which details are accepted, and the normal form each field is stored in |
| Text.DigitNormalisersAgree | web/src/shared.ts:238-243 | on every string the client's passes compute what the server's single pass computes |
| Text.MobileNormalisersAgree | web/src/shared.ts:245-250 | so do the mobile normalisers |
| Text.MobileNormaliserIdempotentIff | customer.go:40-49 | the exact inputs on which normalising a mobile number twice changes nothing |
| Text.MobileNormaliserNotIdempotent | customer.go:40-49 | a concrete input that the second pass changes again |
| Text.SecondPassStripsAgain | customer.go:40-49 | the whole family: a country code behind a country code is stripped twice |
| Text.ValidMobileIdempotent | signup.go:19-25 | accepted mobile numbers are canonical and accepted unchanged |
| Text.WhatsAppRoundTrip | auth.go:242-249 | saving the number as the account page shows it stores the same number |
| Text.CardRoundTrip | payment_cards.go:36-44 | normalising a card number grouped by four gives it back |
| Text.IBANRoundTrip | payment_cards.go:46-78 | the same for IBANs and the empty value |
| Text.GroupingLosesNothing | web/src/pages/AccountPage.tsx:7-13 | the groups are the text cut after every fourth character, nothing lost or moved |
| Text.GroupingIsTransparent | web/src/pages/AccountPage.tsx:7-13 | both server normalisers read a grouped text as they read the text itself |
| Text.CardIdempotent | payment_cards.go:36-44 | an accepted card number is accepted unchanged |
| Text.IBANIdempotent | payment_cards.go:46-78 | an accepted IBAN is accepted unchanged |
| Text.BuildIBANLoop | payment_cards.go:50-66 | the builder loop with its early rejection equals its specification |
| Text.CardAcceptedIff | payment_cards.go:36-44 | a card number is accepted exactly when it has sixteen digits of any alphabet and otherwise only dashes and white space |
| Text.IBANAcceptedIff | payment_cards.go:46-78 | a blank IBAN is stored empty, and any other accepted exactly when it has only its characters and comes out as IR and twenty-four digits |
| Text.IBANByCharacter | payment_cards.go:50-66 | what each character of an IBAN contributes |
| Text.WhatsAppAcceptedIff | auth.go:242-249 | a WhatsApp form clears, stores 98 and the mobile number without its zero, or is refused |
| Text.TrimCutsTheEnds | customer.go:59-65 | trimming cuts white space off both ends, all of it and nothing else |
| Text.BytesCounted | orders.go:91 | a length in bytes exceeds the number of characters by what those beyond ASCII need |
| Support.SavingUntouchedChangesNothing | web/src/pages/AccountPage.tsx:38-41 | in every history of saves, saving what the account page shows is accepted and changes nothing |
| Support.SettingsAlwaysWork | auth.go:238-266 | in every history of saves the default channel names a valid contact and every message carries its link |
| Support.SaveOk | auth.go:225-280 | an accepted save stores a valid handle or none, a canonical number or none, a channel with its contact, and a trimmed template with the link |
| Support.SaveIsDecided | auth.go:238-269 | exactly which saves are accepted, and the four columns each stores |
| Support.HandleShape | auth.go:238-241 | a handle is one to thirty letters, digits, dots and underscores |
| Support.ShopRow.UpdateSupport | auth.go:225-280 | the handler stores exactly that, and nothing when it rejects |
| Cards.ShopShowsExactlyOneCard | payment_cards.go:164-221 | after any operations card numbers are distinct per shop, exactly one card has the shop's number, and the shop's IBAN and instructions are that card's |
| Cards.SwitchingBackRestores | payment_cards.go:206-221 | activation makes exactly that card active, and activating the former one restores the tables |
| Cards.UpdateCardKeeps | payment_cards.go:164-194 | an edit, with or without the IBAN field, revises the shop row exactly when it shows the card |
| Cards.CreateShopKeeps | signup.go:82-106 | a new shop starts with its one card shown |
| Cards.AddCardKeeps | payment_cards.go:109-118 | a second card with a number already used is refused, any other leaves the shown card alone |
| Cards.ActivateKeeps | payment_cards.go:206-221 | activation keeps the projection |
| Cards.CreateShopIsDecided | signup.go:70-106 | a new shop's refusals, each exactly under its condition, and otherwise one shop, one card and one access entry as the input describes them |
| Cards.AddCardIsDecided | payment_cards.go:95-118 | a card is stored as its input describes it, exactly when the input is good and the shop has no card of that number |
| Cards.UpdateCardIsDecided | payment_cards.go:149-197 | an edit stores the trimmed instructions and the IBAN it names on the card, and on the shop row exactly when that shows the card; numbers and other cards stay |
| Cards.CardTables.UpdatePaymentCard | payment_cards.go:134-200 | the handler computes that transaction and reports truthfully whether the card is the active one |
| Cards.CardTables.ActivatePaymentCard | payment_cards.go:202-227 | the handler computes that transaction |
| Cards.CardTables.CreateCard | payment_cards.go:80-119 | the handler computes that insertion, a taken number giving 409 |
| Cards.CardTables.CreateSelfServiceShop | signup.go:57-112 | the handler writes shop, access and card together or nothing |
| Images.NamedImagesExist | products.go:165-191 | at every moment of every run each picture or logo a column names is an existing file, named once |
| Images.RemovalIsSafe | products.go:186-190 | deleting a replaced file never hits a file some column names |
| Images.QuietDirectory | images.go:79-92 | with nothing in flight the directory is exactly the named files and the stranded ones |
| Images.ProductDirectoryIsExact | products.go:118-195 | without crashes and logo uploads it is exactly the named files |
| Images.QuietDirectoryIsExactIff | auth.go:301-311 | without crashes and with nothing in flight, the directory is exactly the named files if and only if every write replaced the path its request had read |
| Images.WritingOverLitters | auth.go:301-311 | a write over an unread path leaves a file nobody is about to delete |
| Images.LitterStays | products.go:225-233 | such a file, or another in its place, stays whatever happens next |
| Images.ProductsKnowWhatTheyReplace | products.go:171-183 | such a write is always a logo's: the picture read under the row lock is the one replaced |
| Images.RacingLogosStrandAFile | auth.go:282-314 | a concrete run of two logo uploads that leaves an unreferenced file |
| LogoRaces.LogoLittersIffOvertaken | auth.go:301-311 | a logo upload writes over a file it does not know of exactly when another upload for the same shop was written since it arrived |
| ImageStore.PictureTables.StoreImage | products.go:118-195 | one handler alone: on success one file replaces another and the directory stays exact, on any failure nothing has changed |
| ImageStore.NamedAfterWrite | products.go:176-191 | rewriting one column exchanges exactly its file among the named ones |
| Limiter.FailuresAreBounded | auth.go:50-82 | in every run an entry counts at most five failures and any half-open fifteen minutes hold at most eight, counted anew after each successful login |
| Limiter.FifthFailureLocksOut | auth.go:58-60 | after a fifth failure every attempt in the next fifteen minutes is refused and none is recorded |
| Limiter.RefusedOnlyAfterFive | auth.go:50-82 | behind every refusal stand five wrong passwords of that client since its last success, within fifteen minutes, the last of them less than fifteen minutes ago |
| Limiter.EighthFailureBlocks | auth.go:68-82 | the eighth failure within a window blocks |
| Limiter.EightIsReached | auth.go:68-82 | the bound of eight is attained |
| Limiter.LoginFits | auth.go:90-124 | one login keeps the relation between an entry and the failures it covers |
| Limiter.LoginLimiter.Allow | auth.go:50-66 | answers whether the key is blocked and drops an expired entry |
| Limiter.LoginLimiter.Fail | auth.go:68-82 | opens, extends or blocks the key's entry |
| Limiter.LoginLimiter.Serve | auth.go:90-124 | the limiter's part of the login handler |
| PilotEvents.FailuresAreCapped | pilot_events.go:147-168 | in every run any closed thirty minutes hold at most twenty failure rows of one order |
| PilotEvents.ViewsAreThinned | pilot_events.go:46-53 | and at most two rows per view name and subject |
| PilotEvents.BucketsAreExact | pilot_events.go:172-197 | a thirty-minute bucket has a row exactly when it had a view |
| PilotEvents.PublicStoresIff | pilot_events.go:137-168 | exactly when a public report adds a row: the first opening of an open form, or a failure of known reason under a new key with fewer than twenty of that order in the last thirty minutes |
| PilotEvents.PublicIsAnswered | pilot_events.go:137-168 | exactly when it is answered 404, 409 or 400 |
| PilotEvents.SameBucketIff | pilot_events.go:46-53 | two views share a bucket exactly when they fall into the same half hour of the clock |
| PilotEvents.PilotLog.RecordPublic | pilot_events.go:121-170 | the public endpoint's checks, cap and insertion; rows stay distinct by key and no interval within the cap leaves it |
| PilotEvents.PilotLog.ObserveView | pilot_events.go:172-197 | afterwards the view's bucket has exactly one row, and at most that row is new |
| Paging.SortIsStrictTotal | orders.go:563-572 | each of the four sort orders is a strict total order on rows with distinct ids |
| Paging.ListingIsUnique | orders.go:535-572 | a query has exactly one result list, whatever order the table is read in |
| Paging.ListingHolds | orders.go:535-562 | which rows it holds: for the active view those neither shipped nor cancelled, for the archive the others, of the filter's status only, and of the search's ids only |
| Paging.ListingIsSorted | orders.go:563-572 | and in which order: archived last and then by delivery date, or by change, amount or creation with the greatest first, ties by creation and id |
| Paging.PageContinues | orders.go:573-580 | a page is the next twenty rows, and hasMore tells whether any follow |
| Paging.FollowingPagesYieldsTheList | orders.go:573-580 | following hasMore ends after max(1, ceil(n/20)) requests with exactly the sorted, filtered list |
| Paging.DisplayIsAlwaysAPrefix | web/src/pages/OrdersPage.tsx:76-120 | under any order of renders, effects, clicks, responses and failures the shown list is a prefix of the list last asked for, which is the current query's once its effect has run, and complete when nothing more is offered |
| Paging.StepCoheres | web/src/pages/OrdersPage.tsx:76-120 | each event keeps the relation between screen, counter and requests in flight |
| Paging.OrdersPage.Render | web/src/pages/OrdersPage.tsx:68-76 | a new query is rendered over the old list, which stays a prefix of what was asked for |
| Paging.OrdersPage.Effect | web/src/pages/OrdersPage.tsx:76-101 | nothing of the old query is left on the screen, and no answer to an earlier request will be shown |
| Paging.OrdersPage.LoadMore | web/src/pages/OrdersPage.tsx:103-108 | the rows asked for are the next ones of the query's list, at least one, and no second request for them can be sent meanwhile |
| Paging.OrdersPage.Arrived | web/src/pages/OrdersPage.tsx:86-93 | an answer to an earlier request changes nothing on the screen; the current one leaves a longer prefix, or the whole list exactly when nothing more is offered |
| Paging.OrdersPage.Broke | web/src/pages/OrdersPage.tsx:94-99 | a failure of the current request ends its waiting and keeps the rows, so it can be tried again; others change nothing |
| CreateClient.UnseenOrdersAreBounded | web/src/pages/CreateOrderPage.tsx:167-199 | whatever is lost, delayed, retried, edited, reloaded or left, the tab creates at most one order more than it has shown or reported to forms already left |
| CreateClient.BoundIsAttained | web/src/pages/CreateOrderPage.tsx:184-186 | that bound is attained for every number of late responses, under any distinct keys the server accepts |
| CreateClient.AtMostOneUnseenOrderIffHeld | web/src/pages/CreateOrderPage.tsx:328-332 | at most one unseen order is guaranteed exactly when the seller cannot navigate away from a pending request |
| CreateClient.LeavingHidesTwoOrders | web/src/pages/CreateOrderPage.tsx:328-332 | the concrete run: two forms left too early, two orders, none shown |
| CreateClient.SuccessesNameDistinctOrders | web/src/pages/CreateOrderPage.tsx:223-245 | two successes never name the same order |
| CreateClient.ShownOrdersMatchTheirPayload | web/src/pages/CreateOrderPage.tsx:168-186 | each shown order was created from the payload that was sent |
| CreateClient.RetryFindsTheUnseenOrder | orders.go:135-149 | repeating the unseen order's payload is answered with that order and creates nothing; another payload is refused |
| ClientServer.LookupServes | orders.go:135-149 | the ledger's lookups answer a creation request as the page's one-step server does, or find no visible row |
| ClientServer.TransactionServes | orders.go:170-236 | the ledger's transaction refuses without a trace, inserts the very row of the one-step server, or loses a key that server knows too |
| CreateClient.RunKeeps | web/src/pages/CreateOrderPage.tsx:132-245 | every run keeps the relation between page, storage, messages and table |
| CreateClient.CreateOrderPage.constructor | web/src/pages/CreateOrderPage.tsx:8-15 | mounting takes up the key of an unfinished order if one is stored, and the form can be sent |
| CreateClient.CreateOrderPage.Submit | web/src/pages/CreateOrderPage.tsx:155-183 | no request is sent under a key whose order was shown, nor a second one while one is awaited |
| CreateClient.CreateOrderPage.End | web/src/pages/CreateOrderPage.tsx:184-199 | after a failure the form can be sent again under the same stored key; only an answered creation finishes the key |
| CreateClient.CreateOrderPage.Reset | web/src/pages/CreateOrderPage.tsx:223-245 | the next order gets another key, and a finished key is never taken up again |
| Calendar.AddWorkingDays | web/src/shared.ts:354-363 | for every finite holiday set the loop ends on the nth working day after the start, within 7 * ceil((n + H) / 5) days |
| Calendar.NthIsUnique | web/src/shared.ts:354-363 | that day is unique |
| Calendar.AddingTwice | web/src/shared.ts:354-363 | adding m and then n working days is adding m + n |
| Calendar.EarlierIfFewer | web/src/shared.ts:354-363 | fewer working days end strictly earlier |
| Calendar.LaterStart | web/src/shared.ts:354-363 | a later start never ends earlier, and ends later exactly when it skips a working day |
| Calendar.WithinBound | web/src/shared.ts:348-363 | the bound, from five weekdays a week less the holidays |
| Calendar.WorkingDayIff | web/src/shared.ts:348-352 | the working days are those that are no holiday and neither a Thursday nor a Friday, counted from the known Thursday 1970-01-01 |
| Template.EveryPlaceholderIsReplaced | web/src/shared.ts:291-304 | each placeholder occurrence is replaced wherever it stands, and substituted text is never scanned again |
| Template.RenderFillsHoles | web/src/shared.ts:291-304 | rendering fills the holes of a template cut at its placeholders and leaves the text between them unchanged |
| Template.EveryTemplateCuts | web/src/shared.ts:303 | every template can be cut that way |
| Template.AcceptedTemplatesCarryTheLink | auth.go:257-266 | every template the server accepts, or the default, renders to a message containing the order's link |
| Template.MessageUsesTheStoredTemplate | web/src/shared.ts:303 | a stored template is the one rendered, and only the empty one means the default |
| Template.PlaceholdersByName | web/src/shared.ts:296-303 | each of the five placeholders is replaced by its own value |

## Left out

- HTTP, JSON and multipart decoding, cookies, sessions, static files, SMS and SQL syntax: only decoded fields, rows, unique keys, locks and rollback are modelled.
- bcrypt, SHA-256 and randomness: hashes are injective, tokens and create keys fresh.
- The result of a commit is reported reliably, and file removals, whose errors the code ignores, succeed.
- Delivery-date parsing: whether a date is acceptable is decided outside the model; requests that fail it are refused.
- Subscription periods: a shop is writable or not, and that may change at any moment.
- The middleware's 402 in front of edits, payment steps and new links: it reads the shop without a lock before the transaction starts and only refuses, so the ledger's steps begin where it has let a request through.
- Share locks on shop and product rows: the creation transaction reads them in the step that inserts.
- Length and vocabulary checks of edited remarks: the model's edits carry checked values; the customer fields are checked in the transaction as in the code.
- OTP and password reset: their failure counters sit in a transaction that rolls back, and their use of the limiter is not guarded.
- Text search: the ids a search matches are a parameter of the query.
- Stable ties of the database's collation: delivery dates are compared as days.
- Top products and confirmed value of the report, public masking, orders' JSON views, link-copy and support-click telemetry: one-branch code.
- Jalali conversion, time zones, Intl formatting, image sniffing and React rendering: library behaviour; working days use day numbers and a finite holiday set.
- The rounding of half an order's amount on the create page: a one-line default the seller can edit.
- Several tabs and several shops at once on the create page: session storage is per tab and the stored key per shop.
- Copying the message after a success: the form stays disabled a moment longer, and stores nothing more.
- The moment in which a status filter becomes invalid before the browser removes it: a query is one value that changes as a whole.
- Ledger steps on values: the ledger, the image races, the list page and the creation protocol interleave several parties, so they are transition systems on values; the classes beside them hold the in-place code of one party.
- Image handlers one at a time: create, update and logo upload are one method there, since they differ only in the column and the moment the old path is read, which `Images.dfy` keeps apart.
