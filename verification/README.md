# A verified model of a bet-shop console

This project models, in Dafny, the in-browser core of a small betting-shop
application for the "jogo do bicho" style games *milhar* (four digits),
*centena* (three) and *dezena* (two). Sellers take bets at a number pad and
print a receipt. Administrators see the day's dashboard, list and cancel
bets, read period reports, and maintain sellers, games and per-type
settings.

The model covers these parts:

- **The bet ledger** (`BetsContext`): one list of bets, most recent first.
  `AddBet` prepends and `CancelBet` maps over the list. The queries by
  seller, by day, today's total and today's count are functions. The
  8-character receipt code is built by a loop over given random draws.
- **The bet-entry form** (`NewBetForm`): a digit buffer that never outgrows
  the selected type's digit count, the sanitiser of the hidden input, the
  validity predicate that gates submission, and the submission that hands a
  bet to the ledger.
- **The session** (`AuthContext`): a first-match credential lookup over a
  fixed roster, login, logout, and restoring a session from browser
  storage, which is modelled as abstract fields.
- **The read-side views**:
  - the administrator's filtered list and total (`BetsManagement`);
  - the dashboard (`AdminDashboard`);
  - the period report (`FinancialReports`);
  - the seller's own list (`MyBets`);
  - the receipt figures (`BetReceipt`).
- **The admin tables**: sellers (`SellersManagement`), games
  (`GamesManagement`) and the per-type settings (`GameSettings`).

Modelling choices:

- **Amounts** are exact `real`s.
- **Time.** A timestamp is an `Instant`, in milliseconds, local time. Two
  timestamps fall on the same day when `DayOf` agrees.
- **Outside inputs.** The clock, the `Date.now()` ids and the
  `Math.random()` draws are parameters.
- **Generic sequences.** `Filter`, `MapSeq` and the order-preserving
  subsequence relation live in `Seqs`. The search helpers (ASCII
  lower-casing, substring, digit filtering, white-space test) live in
  `Text`.

## Model

| member | source | states |
|---|---|---|
| Domain.TotalAppend | src/components/admin/FinancialReports.tsx:51-52 | The `valor` sum of a concatenation is the sum of the two parts' sums |
| Domain.TotalSplit | src/components/admin/FinancialReports.tsx:51-52 | A predicate and its negation split a list's `valor` sum into two sums that add back to it |
| Domain.TotalOfSubsequence | src/components/admin/BetsManagement.tsx:55-57 | With non-negative amounts, the sum over an order-preserving subsequence lies between 0 and the sum over the whole list |
| BetsContext.CodeAlphabetChars | src/contexts/BetsContext.tsx:18 | The code alphabet has 36 characters, all in `[A-Z0-9]` |
| BetsContext.GenerateCode | src/contexts/BetsContext.tsx:17-24 | Given eight draws in [0,36), the code has exactly 8 characters; the i-th is the alphabet letter of the i-th draw, so the code matches `[A-Z0-9]{8}` |
| BetsContext.BetsByVendedor | src/contexts/BetsContext.tsx:86-88 | Holds exactly the ledger's bets with that `vendedor_id`, as an order-preserving subsequence, each as many times as the ledger holds it |
| BetsContext.TodayBets | src/contexts/BetsContext.tsx:90-93 | Holds exactly the ledger's bets dated on the day of `now`, in ledger order, each as many times as the ledger holds it |
| BetsContext.TodayActive | src/contexts/BetsContext.tsx:95-99 | The bets today's total sums: dated today, `ativa`, and of the seller only when the seller id is truthy |
| BetsContext.TodayOf | src/contexts/BetsContext.tsx:103-108 | The bets today's count counts: dated today, any status, and of the seller only when the seller id is truthy |
| BetsContext.TodayTotal | src/contexts/BetsContext.tsx:95-101 | `getTodayTotal` is the `valor` sum over exactly the ledger's bets that are dated today, `ativa`, and of the seller when the seller id is truthy, taken as one filter of the ledger |
| BetsContext.TodayCount | src/contexts/BetsContext.tsx:103-108 | `getTodayCount` is the number of the ledger's bets, of any status, dated today and of the seller when the seller id is truthy, taken as one filter of the ledger; never more than the ledger's length |
| BetsContext.TotalWithinCount | src/contexts/BetsContext.tsx:95-108 | The bets in today's total are an order-preserving subsequence of the bets in today's count, so there are no more of them |
| BetsContext.Cancelled | src/contexts/BetsContext.tsx:78-84 | Same length and order; each bet differs from the old one at most in its status; the status is `cancelada` exactly where the id matches (whatever it was, `paga` included) and unchanged elsewhere |
| BetsContext.CancelIdempotent | src/contexts/BetsContext.tsx:78-84 | Cancelling twice is cancelling once |
| BetsContext.CancelUnknownId | src/contexts/BetsContext.tsx:78-84 | Cancelling an id no bet carries leaves the ledger unchanged |
| BetsContext.CancelKeepsTodayCount | src/contexts/BetsContext.tsx:78-84 | Cancelling never changes today's count, for any seller argument |
| BetsContext.CancelledActive | src/contexts/BetsContext.tsx:78-84 | After cancelling an id, the active bets are exactly those that were active and carry another id, in order |
| Seqs.FilterSubsequence | src/contexts/BetsContext.tsx:95-99 | Filtering keeps the order-preserving subsequence relation between two lists |
| BetsContext.CancelNeverRaisesTodayTotal | src/contexts/BetsContext.tsx:78-101 | With non-negative amounts, a cancellation never raises today's total, for any seller argument |
| BetsContext.AddedBetTodayCount | src/contexts/BetsContext.tsx:74 | Prepending a bet dated today raises today's count by one exactly when the seller filter admits it |
| BetsContext.AddedBetTodayTotal | src/contexts/BetsContext.tsx:74 | Prepending an active bet dated today raises today's total by its amount exactly when the seller filter admits it |
| BetsContext.InitialBets | src/contexts/BetsContext.tsx:26-62 | Three mock bets under distinct ids, all `ativa`, stamped with the load time, each with a well-formed code |
| BetsContext.InitialFigures | src/contexts/BetsContext.tsx:26-62 | On the load day the mock bets give a count of 3 and a total of 17 for all sellers |
| BetsContext.InitialSellerFigures | src/contexts/BetsContext.tsx:26-62 | On the load day seller "2"'s mock bets give a count of 2 and a total of 15 |
| BetsContext.Ledger.constructor | src/contexts/BetsContext.tsx:27-64 | The ledger starts with the three mock bets |
| BetsContext.Ledger.AddBet | src/contexts/BetsContext.tsx:66-76 | The returned bet carries the caller's seller id, seller name, type, number and amount verbatim, with the given id and time, status `ativa` and a well-formed code. It becomes the ledger's head over the unchanged old ledger. No check is made on the number or the amount |
| BetsContext.Ledger.CancelBet | src/contexts/BetsContext.tsx:78-84 | The ledger becomes `Cancelled(old ledger, id)` |
| NewBetForm.Digits | src/components/seller/NewBetForm.tsx:19-23 | milhar 4, centena 3 and dezena 2 digits, always between 2 and 4 |
| NewBetForm.IsNumberValid | src/components/seller/NewBetForm.tsx:40 | A number is valid exactly when it has the type's full digit count and the number-input sanitiser leaves it unchanged |
| NewBetForm.IsValueValid | src/components/seller/NewBetForm.tsx:41 | An amount that does not parse is never valid; a parsed amount is valid exactly when it is positive |
| NewBetForm.QuickValuesAreValid | src/components/seller/NewBetForm.tsx:25 | Each quick-amount button (1, 2, 5, 10, 20, 50) sets a valid amount |
| NewBetForm.CanSubmit | src/components/seller/NewBetForm.tsx:42 | Submission needs a parsed amount, and is allowed exactly when the bet it would place (this number, type and amount) is well formed |
| NewBetForm.Sanitise | src/components/seller/NewBetForm.tsx:217-220 | The result is the input's digits, in order, cut to the digit count: all digits, a prefix of the input's digits, and exactly as long as the shorter of the two |
| NewBetForm.SanitiseIdempotent | src/components/seller/NewBetForm.tsx:218 | Sanitising twice gives the same result as once |
| NewBetForm.SanitiseValid | src/components/seller/NewBetForm.tsx:39-42 | A valid number passes the sanitiser unchanged; a sanitised number is valid iff the input held at least the digit count of digits |
| NewBetForm.BetForm.constructor | src/components/seller/NewBetForm.tsx:31-35 | The form starts on milhar, with an empty number and amount and no receipt |
| NewBetForm.BetForm.HandleNumberInput | src/components/seller/NewBetForm.tsx:48-61 | The digit is appended only while the number is shorter than the digit count, so the buffer never outgrows it; nothing else changes |
| NewBetForm.BetForm.HandleDeleteDigit | src/components/seller/NewBetForm.tsx:63-65 | The last character is dropped, and an empty buffer stays empty |
| NewBetForm.BetForm.HandleClear | src/components/seller/NewBetForm.tsx:67-71 | Both the number and the amount become empty; the type is kept |
| NewBetForm.BetForm.HandleQuickValue | src/components/seller/NewBetForm.tsx:73-75 | The amount becomes the quick value; nothing else changes |
| NewBetForm.BetForm.SetValor | src/components/seller/NewBetForm.tsx:254 | The amount becomes what the typed text parses to; nothing else changes |
| NewBetForm.BetForm.SelectGame | src/components/seller/NewBetForm.tsx:131-134 | Choosing a type empties the number and keeps the amount |
| NewBetForm.BetForm.TypeNumber | src/components/seller/NewBetForm.tsx:217-220 | The number becomes the sanitised input |
| NewBetForm.BetForm.HandleSubmit | src/components/seller/NewBetForm.tsx:77-103 | A bet is placed iff `canSubmit` held and a user is logged in; otherwise the ledger and the form are unchanged. A placed bet carries the user's id and name, the selected type, the number and the amount; it heads the ledger and is well formed (full digit count, digits only, positive amount); the number and amount are emptied and the receipt shown |
| NewBetForm.BetForm.CloseReceipt | src/components/seller/NewBetForm.tsx:109 | The receipt is hidden; the form is kept |
| AuthContext.FindAccount | src/contexts/AuthContext.tsx:71-73 | Returns the index of the first entry matching user name, password and status `ativo`, or none exactly when no entry matches |
| AuthContext.MockUsers | src/contexts/AuthContext.tsx:14-48 | Three accounts with distinct ids and user names, all `ativo` and stamped with the load time; the first is the administrator `admin`, the other two are sellers with a bet limit |
| AuthContext.IsAdmin | src/contexts/AuthContext.tsx:92 | No user is not an admin; a user is an admin exactly when its profile is `admin` |
| AuthContext.RosterAdmins | src/contexts/AuthContext.tsx:71-92 | With the shipped roster, a successful login yields an admin exactly when the user name was `admin` |
| AuthContext.ShippedRoster | src/contexts/AuthContext.tsx:15-48 | With the shipped roster, `admin`/`admin123` finds the administrator (an admin), `joao`/`123456` finds a seller on 10%, and a wrong password finds nothing |
| AuthContext.BlockedNeverFound | src/contexts/AuthContext.tsx:71-73 | A user name whose entries are all blocked never logs in, whatever the password |
| AuthContext.Session.constructor | src/contexts/AuthContext.tsx:51-52 | The session starts with no user, loading, over the given storage |
| AuthContext.Session.RestoreSession | src/contexts/AuthContext.tsx:54-65 | A stored user that parses becomes the user, without a roster check; unparsable text is removed and the user kept; loading ends in every case |
| AuthContext.Session.Login | src/contexts/AuthContext.tsx:67-84 | Succeeds iff some roster entry matches. On success the first match, without its password, becomes the user and the stored user, and the login time is stored. On failure (wrong name, wrong password or blocked) nothing changes |
| AuthContext.Session.Logout | src/contexts/AuthContext.tsx:86-90 | No user, both storage entries removed, and no longer an admin |
| BetsManagement.FilteredBets | src/components/admin/BetsManagement.tsx:43-53 | A bet is shown iff it matches the search (raw term in the number, or lower-cased term in the lower-cased seller name, which must be present, or code), the type filter and the status filter; the result is an order-preserving subsequence of the ledger, and a shown bet appears as many times as in the ledger |
| BetsManagement.NoFilterShowsAll | src/components/admin/BetsManagement.tsx:43-53 | An empty search with both selects on "all" shows the whole ledger |
| BetsManagement.TotalValue | src/components/admin/BetsManagement.tsx:55-57 | The shown total plus the sum over the shown bets that are not active gives the sum over all shown bets; with no negative amounts it lies between 0 and that sum |
| BetsManagement.TotalValueBounded | src/components/admin/BetsManagement.tsx:55-57 | The shown total (active bets only) lies between 0 and the ledger's active total, and equals it with no filter |
| BetsManagement.OfferedCancelRetiresOneBet | src/components/admin/BetsManagement.tsx:181 | Cancelling through the button, which only an active bet shows, with unique ids, turns exactly that bet from `ativa` to `cancelada` and leaves every other bet unchanged |
| BetsManagement.CancelDialog.constructor | src/components/admin/BetsManagement.tsx:40-41 | The dialog starts closed with nothing selected |
| BetsManagement.CancelDialog.OpenFor | src/components/admin/BetsManagement.tsx:68-71 | The dialog opens on the chosen bet id |
| BetsManagement.CancelDialog.HandleCancelBet | src/components/admin/BetsManagement.tsx:59-66 | With a (truthy) bet id selected, that id is cancelled in the ledger and the dialog closes with the selection cleared; otherwise the ledger and the dialog are unchanged |
| AdminDashboard.SellerIds | src/components/admin/AdminDashboard.tsx:30 | Every bet's seller id is in the set and every id in it is some bet's; there are no more ids than bets, and none exactly when there are no bets |
| AdminDashboard.Finalizadas | src/components/admin/AdminDashboard.tsx:78-79 | For consistent counters (active plus cancelled at most the count), the card lies between 0 and the count and includes every cancelled bet |
| AdminDashboard.ComputeDashboard | src/components/admin/AdminDashboard.tsx:17-32 | The bet count and total are the ledger's today figures for all sellers. The active and cancelled counts are the numbers of today's bets with that status, together at most the count, and "Finalizadas" lies between 0 and the count. The seller count is the number of distinct seller ids among today's bets: at most the count, and 0 iff it is 0. The recent list is the first min(5, n) bets. The gross figure equals the total, and the net figure plus a tenth of the total gives the total |
| AdminDashboard.NewBetHeadsRecent | src/components/admin/AdminDashboard.tsx:32 | A bet just added heads the recent list |
| FinancialReports.PeriodBets | src/components/admin/FinancialReports.tsx:30-45 | Holds exactly the ledger's bets in the period, in ledger order, each as many times as the ledger holds it |
| FinancialReports.PeriodBetsSpecialCases | src/components/admin/FinancialReports.tsx:34-43 | The period "today" selects exactly the ledger's bets of today; an unrecognised period keeps every bet |
| FinancialReports.CancellationRate | src/components/admin/FinancialReports.tsx:200-202 | The rate lies in [0,100]; it is 0 for an empty period, and otherwise rate × registered = 100 × cancelled |
| FinancialReports.AverageTicket | src/components/admin/FinancialReports.tsx:208-213 | 0 with no active bet; otherwise ticket × active count = total |
| FinancialReports.ComputeReport | src/components/admin/FinancialReports.tsx:47-54 | The active and cancelled lists hold exactly the period's bets of that status, each as many times as the period holds it, as subsequences whose lengths add to at most the period's. The totals are their sums. The commission is a tenth of the total, and commission plus net gives the total. The rate is in [0,100] |
| FinancialReports.PartitionDisjoint | src/components/admin/FinancialReports.tsx:48-52 | No bet is both active and cancelled, a paid bet is in neither list, and active, cancelled and paid totals add up to the period's total |
| FinancialReports.TodayReportAgreesWithDashboard | src/components/admin/FinancialReports.tsx:35-36 | For "today" the report's count, active count, cancelled count, total and net figure equal the dashboard's |
| MyBets.SearchMyBets | src/components/seller/MyBets.tsx:31-34 | A bet is kept iff the raw term is in its number or the lower-cased term is in its lower-cased code; the result is an order-preserving subsequence, and a kept bet appears as many times as in the list |
| MyBets.EmptySearchKeepsAll | src/components/seller/MyBets.tsx:31-34 | An empty term keeps every bet |
| Text.IncludesAt | src/components/seller/MyBets.tsx:32-33 | `includes` holds exactly when the term occurs at some position of the text |
| Text.KeepDigits | src/components/seller/NewBetForm.tsx:218 | `replace(/\D/g, '')` keeps exactly the input's digits, in order: it is the input filtered by the digit test |
| MyBets.Commission | src/components/seller/MyBets.tsx:29 | commission × 100 = total × rate; it is 0 when the total or the rate is 0, and between 0 and the total for a rate in [0,100] |
| MyBets.ComputeMyBets | src/components/seller/MyBets.tsx:24-34 | Nothing is derived without a user. Otherwise the list holds exactly the user's bets in ledger order, each as many times as the ledger holds it. The day's total (active only) and count (all statuses) are the ledger's for the user's id, the commission is taken on that total, and the search result keeps each matching bet as many times as the list holds it, as a subsequence of the list and so of the ledger |
| MyBets.TodayFiguresFromOwnList | src/components/seller/MyBets.tsx:26-28 | For a non-empty id, the day's count counts the seller's own bets dated today (so it never exceeds the list), and the total sums their active ones |
| MyBets.StatusLabel | src/components/seller/MyBets.tsx:114-118 | "Ativa" iff the bet is `ativa`, "Cancelada" for every other status, `paga` included |
| BetReceipt.ReceiptBets | src/components/seller/BetReceipt.tsx:22 | The given list when present and non-empty, otherwise the single bet; never empty |
| BetReceipt.Multiplier | src/components/seller/BetReceipt.tsx:27-34 | milhar 4000, centena 600, dezena 60, any other spelling 1000 |
| BetReceipt.MultiplierOfKnownTypes | src/components/seller/BetReceipt.tsx:27-34 | The 1000 fallback never applies to one of the three game types |
| BetReceipt.ComputeReceipt | src/components/seller/BetReceipt.tsx:22-36 | The listed bets are never empty. The total is their sum, and the unit amount is the first one's. The count of numbers is the list's length. The prize is the total at the headline bet's multiplier only |
| BetReceipt.PrizeUsesHeadlineType | src/components/seller/BetReceipt.tsx:36 | When every listed bet has the headline bet's type, the headline prize equals the sum of each bet's prize at its own multiplier |
| BetReceipt.SingleBetReceipt | src/components/seller/BetReceipt.tsx:22-36 | A receipt of one bet lists it once, with its amount as unit and total, and the prize that bet pays |
| SellersManagement.FilteredSellers | src/components/admin/SellersManagement.tsx:81-84 | A seller is kept iff the lower-cased term is in the lower-cased name or user name; the result is an order-preserving subsequence, and a kept row appears as many times as in the list |
| SellersManagement.EmptySellerSearchKeepsAll | src/components/admin/SellersManagement.tsx:81-84 | An empty term keeps every seller |
| SellersManagement.EditEntry | src/components/admin/SellersManagement.tsx:92 | The form's name, user name, commission, limit and password replace the row's; the id, profile, status and creation time stay |
| SellersManagement.Edited | src/components/admin/SellersManagement.tsx:89-94 | Same length, same ids; exactly the rows with the edited id take the form, and the others are unchanged |
| SellersManagement.NewSeller | src/components/admin/SellersManagement.tsx:96-104 | The new seller has the given id and creation time, profile `vendedor`, status `ativo`, and the form's fields |
| SellersManagement.LimitShown | src/components/admin/SellersManagement.tsx:120 | An absent or zero limit shows as 5000; any other limit as itself |
| SellersManagement.FormFor | src/components/admin/SellersManagement.tsx:113-123 | Saving the edit form unchanged keeps the row except that the password becomes empty and an absent or zero limit becomes 5000. The edit form passes the browser's checks iff the seller's name, user name, commission and shown limit do, and never counts as a create form |
| SellersManagement.Toggled | src/components/admin/SellersManagement.tsx:125-132 | Same length; each row differs at most in its status, and the status changes exactly on the rows with that id |
| SellersManagement.ToggleTwice | src/components/admin/SellersManagement.tsx:125-132 | Toggling twice restores the list |
| SellersManagement.Deleted | src/components/admin/SellersManagement.tsx:134-137 | Exactly the rows with another id remain, in order, each as many times as before |
| SellersManagement.CreateThenDelete | src/components/admin/SellersManagement.tsx:96-137 | Creating under a fresh id and deleting that id gives the list back |
| SellersManagement.MockSellers | src/components/admin/SellersManagement.tsx:33-64 | Three sellers with distinct ids and user names, none carrying a password; the third is blocked |
| SellersManagement.EditForm | src/components/admin/SellersManagement.tsx:174-222 | An input's edit sets its own field of the form and keeps the other four |
| SellersManagement.EditFormLaws | src/components/admin/SellersManagement.tsx:174-222 | Typing a field's old value back undoes an edit; of two edits of one input the later wins; edits of different inputs commute |
| SellersManagement.FilledFormAccepted | src/components/admin/SellersManagement.tsx:170-225 | The blank form is refused by the browser; filling in a name, a user name and, when creating, a password makes it accepted |
| SellersManagement.SellersPage.constructor | src/components/admin/SellersManagement.tsx:33-79 | The page starts on the mock sellers with an empty search, a closed dialog and the default form |
| SellersManagement.SellersPage.SetSearchTerm | src/components/admin/SellersManagement.tsx:254 | The search term becomes the typed text; nothing else changes |
| SellersManagement.SellersPage.SetDialogOpen | src/components/admin/SellersManagement.tsx:150 | The dialog opens or closes; the form and the edited seller are kept |
| SellersManagement.SellersPage.SetFormField | src/components/admin/SellersManagement.tsx:174-222 | The form becomes `EditForm(old form, edit)`; nothing else changes |
| SellersManagement.SellersPage.Cancel | src/components/admin/SellersManagement.tsx:228-235 | The dialog closes and the edited seller is forgotten, but the form is kept |
| SellersManagement.SellersPage.HandleSubmit | src/components/admin/SellersManagement.tsx:86-111 | Saves iff the browser accepts the inputs (name, user name, password when creating, a whole commission in [0,100], a whole limit not negative); a refused form changes nothing. The edit is saved onto the edited id, or the new seller is appended after the unchanged list. Then the dialog closes, the edit target is cleared and the form returns to ('', '', '', 10, 5000) |
| SellersManagement.SellersPage.HandleEdit | src/components/admin/SellersManagement.tsx:113-123 | Opens the dialog on the seller, with its fields in the form and an empty password |
| SellersManagement.SellersPage.HandleToggleStatus | src/components/admin/SellersManagement.tsx:125-132 | The list becomes `Toggled(old list, id)`; the rest of the page is unchanged |
| SellersManagement.SellersPage.HandleDelete | src/components/admin/SellersManagement.tsx:134-137 | The list becomes `Deleted(old list, id)`; the rest of the page is unchanged |
| GamesManagement.KindMultiplier | src/components/admin/GamesManagement.tsx:157 | milhar 4000, centena 600 |
| GamesManagement.ShippedGames | src/components/admin/GamesManagement.tsx:37-80 | The shipped games have distinct ids, non-blank names, non-empty amount ranges and their kind's multiplier, and their forms pass the browser's checks; the blank form carries its kind's multiplier, passes those checks and needs only a non-blank name to be saved |
| GamesManagement.EditForm | src/components/admin/GamesManagement.tsx:192-297 | An input's edit sets its own field of the form and keeps every other field, the kind included |
| GamesManagement.EditFormLaws | src/components/admin/GamesManagement.tsx:192-297 | Typing a field's old value back undoes an edit; of two edits of one input the later wins; edits of different inputs commute |
| GamesManagement.WithForm | src/components/admin/GamesManagement.tsx:121-135 | The game built from a form under an id has that id, and its form is the given one |
| GamesManagement.FormRoundTrip | src/components/admin/GamesManagement.tsx:96-101 | The form `setFormData(game)` shows (`FormOf`), rebuilt under the game's own id, is the same game |
| GamesManagement.Edited | src/components/admin/GamesManagement.tsx:119-122 | Same length, same ids; the games with the edited id take the form, and the others are unchanged |
| GamesManagement.UnchangedEditIsIdentity | src/components/admin/GamesManagement.tsx:96-122 | Opening a game (with a unique id) and saving the form unchanged leaves the list as it was |
| GamesManagement.Toggled | src/components/admin/GamesManagement.tsx:143-146 | Same length; each game differs at most in `ativo`, which flips exactly on the games with that id |
| GamesManagement.ToggleTwice | src/components/admin/GamesManagement.tsx:143-146 | Switching twice restores the list |
| GamesManagement.Deleted | src/components/admin/GamesManagement.tsx:151-154 | Exactly the games with another id remain, in order, each as many times as before |
| GamesManagement.CreateThenDelete | src/components/admin/GamesManagement.tsx:124-154 | Creating under a fresh id and deleting that id gives the list back |
| GamesManagement.TipoChanged | src/components/admin/GamesManagement.tsx:156-159 | The kind and its multiplier are set; every other field of the form is kept |
| GamesManagement.GamesPage.constructor | src/components/admin/GamesManagement.tsx:68-80 | The page starts on the two shipped games with the dialog closed and the default form |
| GamesManagement.GamesPage.ResetForm | src/components/admin/GamesManagement.tsx:82-94 | The default form is restored and the edit target cleared; the list is unchanged |
| GamesManagement.GamesPage.HandleOpenDialog | src/components/admin/GamesManagement.tsx:96-104 | The dialog opens, on the game's form for an edit or on the default form otherwise |
| GamesManagement.GamesPage.HandleCloseDialog | src/components/admin/GamesManagement.tsx:106-109 | The dialog closes and the form is reset |
| GamesManagement.GamesPage.SetDialogOpen | src/components/admin/GamesManagement.tsx:172 | The dialog opens or closes; the form and the edited game are kept |
| GamesManagement.GamesPage.SetFormField | src/components/admin/GamesManagement.tsx:192-297 | The form becomes `EditForm(old form, edit)`; nothing else changes |
| GamesManagement.GamesPage.HandleSubmit | src/components/admin/GamesManagement.tsx:111-141 | Saves iff the browser accepts the number inputs (minimum at least 0.5 in steps of 0.5, maximum and multiplier whole and at least 1) and the name is not blank or white space only; otherwise nothing changes. The edit is merged into the edited id, or the new game is appended under the given id. Then the dialog closes with the form reset |
| GamesManagement.GamesPage.HandleToggleActive | src/components/admin/GamesManagement.tsx:143-149 | The list becomes `Toggled(old list, id)`; the form is unchanged |
| GamesManagement.GamesPage.HandleDelete | src/components/admin/GamesManagement.tsx:151-154 | The list becomes `Deleted(old list, id)`; the form is unchanged |
| GamesManagement.GamesPage.HandleTipoChange | src/components/admin/GamesManagement.tsx:156-159 | The form becomes `TipoChanged(old form, kind)`; the list is unchanged |
| GameSettings.WithField | src/components/admin/GameSettings.tsx:40 | The named field takes the value; the other two fields and the type are kept |
| GameSettings.WithFieldUndo | src/components/admin/GameSettings.tsx:33-42 | Writing a field's old value back undoes a change |
| GameSettings.DefaultsAgree | src/components/admin/GameSettings.tsx:11-15 | The defaults cover every type under its own key, each minimum is positive and at most its maximum, and the multipliers agree with the receipt's and the game catalogue's |
| GameSettings.SettingsPage.constructor | src/components/admin/GameSettings.tsx:24 | The page starts on the defaults |
| GameSettings.SettingsPage.HandleSettingChange | src/components/admin/GameSettings.tsx:33-42 | The type's setting takes the value in that field, with its other fields kept; every other type's setting is unchanged |
| GameSettings.SettingsPage.HandleSave | src/components/admin/GameSettings.tsx:44-46 | Saving changes no setting |

## Left out

- Rendering, styling, dialogs as markup, toasts, input focus and the `setTimeout` focus delays are not modelled; they carry no state the model needs.
- The 500 ms delay of `login` is left out; the model's `Login` is synchronous.
- Browser storage and `JSON.parse` are abstract. The stored user is absent, empty text, a serialised user or unparsable text. JSON that parses to something other than a user (such as `null`) is not distinguished.
- The clock (`new Date()`), the `Date.now()` ids and the `Math.random()` draws are parameters; nothing checks that ids are unique.
- Amounts are exact reals. JavaScript floating-point rounding is not modelled, and neither are `toFixed`, currency formatting or `parseFloat`. The amount field holds the parsed value instead of the text.
- `toLowerCase` folds ASCII letters only. `trim` knows the ASCII white-space characters only.
- `startOfWeek` and `startOfMonth` are given as instants (`PeriodBounds`); the date library's week rules are not modelled.
- The hard-coded closing history of the reports page is left out. So are the export buttons.
- The receipt's own code (`Date.now()` plus a random suffix), clipboard, print and share text are left out. That code is regenerated on each render and is not the bet's `codigo`.
- The opening hours and pause of the settings page (`horarios`) are left out; nothing reads them.
- `handleSettingChange` also accepts the `tipo_jogo` key in the source's types. The page's inputs only ever pass the three numeric fields, which are the ones modelled.
- The number inputs' text-to-number conversion (`Number(...)`) is not modelled: an edit carries the number. The `required` of the sellers page's number inputs always holds, since those inputs always show a number.
- The game form has no `id` field. The source's form carries the edited game's own id, and spreading it back changes nothing.
- The sellers page and the game catalogue are each page's own state, separate from the login roster and from the bets' game types; the model keeps them separate as well.
- `MyFinancial.tsx`, the view routing, the navigation layout, the login page wrapper and the presentational cards and badges are not part of this model.
