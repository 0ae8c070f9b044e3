/** The admin's delivery-staff wallet tab (`DeliveryStaffWalletTab`): each
    rider's wallet holds the cash collected from customers, the job earnings
    owed to the rider and the total settled so far. A payout moves job
    earnings to "settled"; a settlement moves collected cash to "settled".
    Both check the balance first and record an approved "settlement"
    transaction. The wallet store is a map from staff id to wallet; amounts
    are whole rupees. */
module DeliveryStaffWallet {
  import opened Common

  datatype Wallet = Wallet(id: string, collectedAmount: int, jobEarnings: int, totalSettled: int)

  datatype Transaction = Transaction(
    staffId: string,
    transactionType: string,
    amount: int,
    description: string,
    status: string)

  datatype WalletError = WalletNotFound | InsufficientJobEarnings | ExceedsCollectedBalance

  function ErrorMessage(e: WalletError): string {
    match e
    case WalletNotFound => "Wallet not found"
    case InsufficientJobEarnings => "Insufficient job earnings"
    case ExceedsCollectedBalance => "Amount exceeds collected balance"
  }

  datatype Outcome = Done(wallet: Wallet, tx: Transaction) | Failed(error: WalletError)

  predicate NonNegative(w: Wallet) {
    w.collectedAmount >= 0 && w.jobEarnings >= 0 && w.totalSettled >= 0
  }

  // ------------------------------------------------------ the two mutations

  /** `payoutMutation`: pay `amount` of the job earnings out to the rider. */
  function Payout(wallet: Option<Wallet>, staffId: string, amount: int): (o: Outcome)
    // the errors, in the order they are checked
    ensures wallet.None? <==> o == Failed(WalletNotFound)
    ensures wallet.Some? ==> (o == Failed(InsufficientJobEarnings) <==> wallet.value.jobEarnings < amount)
    // the only failures; a wallet with enough job earnings always pays out
    ensures o.Failed? ==> o.error == WalletNotFound || o.error == InsufficientJobEarnings
    ensures wallet.Some? ==> (o.Done? <==> amount <= wallet.value.jobEarnings)
    // a payout of everything that is owed is allowed
    ensures wallet.Some? && wallet.value.jobEarnings == amount ==> o.Done? && o.wallet.jobEarnings == 0
    // job earnings move to "settled"; the collected cash is untouched
    ensures o.Done? ==>
      && o.wallet.id == wallet.value.id
      && o.wallet.jobEarnings == wallet.value.jobEarnings - amount
      && o.wallet.totalSettled == wallet.value.totalSettled + amount
      && o.wallet.collectedAmount == wallet.value.collectedAmount
      && o.wallet.jobEarnings + o.wallet.totalSettled == wallet.value.jobEarnings + wallet.value.totalSettled
      && o.wallet.jobEarnings >= 0
    // the record: an approved settlement of +amount for this rider
    ensures o.Done? ==>
      && o.tx.staffId == staffId && o.tx.transactionType == "settlement"
      && o.tx.amount == amount && o.tx.status == "approved"
  {
    if wallet.None? then Failed(WalletNotFound)
    else if wallet.value.jobEarnings < amount then Failed(InsufficientJobEarnings)
    else
      var w := wallet.value;
      Done(w.(jobEarnings := w.jobEarnings - amount, totalSettled := w.totalSettled + amount),
           Transaction(staffId, "settlement", amount, "Job earnings payout of ₹" + IntToString(amount), "approved"))
  }

  /** `settlementMutation`: the admin takes `amount` of collected cash. */
  function Settlement(wallet: Option<Wallet>, staffId: string, amount: int): (o: Outcome)
    ensures wallet.None? <==> o == Failed(WalletNotFound)
    ensures wallet.Some? ==> (o == Failed(ExceedsCollectedBalance) <==> wallet.value.collectedAmount < amount)
    // the only failures; a wallet with enough collected cash always settles
    ensures o.Failed? ==> o.error == WalletNotFound || o.error == ExceedsCollectedBalance
    ensures wallet.Some? ==> (o.Done? <==> amount <= wallet.value.collectedAmount)
    ensures wallet.Some? && wallet.value.collectedAmount == amount ==> o.Done? && o.wallet.collectedAmount == 0
    // collected cash moves to "settled"; job earnings are untouched
    ensures o.Done? ==>
      && o.wallet.id == wallet.value.id
      && o.wallet.collectedAmount == wallet.value.collectedAmount - amount
      && o.wallet.totalSettled == wallet.value.totalSettled + amount
      && o.wallet.jobEarnings == wallet.value.jobEarnings
      && o.wallet.collectedAmount + o.wallet.totalSettled == wallet.value.collectedAmount + wallet.value.totalSettled
      && o.wallet.collectedAmount >= 0
    // the record is negative: cash leaves the rider
    ensures o.Done? ==>
      && o.tx.staffId == staffId && o.tx.transactionType == "settlement"
      && o.tx.amount == -amount && o.tx.status == "approved"
  {
    if wallet.None? then Failed(WalletNotFound)
    else if wallet.value.collectedAmount < amount then Failed(ExceedsCollectedBalance)
    else
      var w := wallet.value;
      Done(w.(collectedAmount := w.collectedAmount - amount, totalSettled := w.totalSettled + amount),
           Transaction(staffId, "settlement", -amount, "Cash settlement of ₹" + IntToString(amount) + " collected by admin", "approved"))
  }

  /** A non-negative amount keeps a non-negative wallet non-negative. */
  lemma {:induction false} MutationsKeepNonNegative(w: Wallet, staffId: string, amount: int)
    requires NonNegative(w) && amount >= 0
    ensures Payout(Some(w), staffId, amount).Done? ==> NonNegative(Payout(Some(w), staffId, amount).wallet)
    ensures Settlement(Some(w), staffId, amount).Done? ==> NonNegative(Settlement(Some(w), staffId, amount).wallet)
  {
  }

  /** A payout followed by a settlement ends where the settlement followed by
      the payout does (when both succeed either way). */
  lemma {:induction false} PayoutSettlementCommute(w: Wallet, staffId: string, pay: int, settle: int)
    requires w.jobEarnings >= pay && w.collectedAmount >= settle
    ensures
      var a := Payout(Some(w), staffId, pay).wallet;
      var b := Settlement(Some(w), staffId, settle).wallet;
      Settlement(Some(a), staffId, settle).wallet == Payout(Some(b), staffId, pay).wallet
  {
  }

  /** The wallets and the transaction log, updated the way the mutations
      update the database: read, check, overwrite balances, append a
      record. */
  class WalletStore {
    var wallets: map<string, Wallet>
    var transactions: seq<Transaction>

    constructor (initial: map<string, Wallet>)
      ensures wallets == initial && transactions == []
    {
      wallets := initial;
      transactions := [];
    }

    function WalletOf(staffId: string): (w: Option<Wallet>)
      reads this
      ensures w.Some? <==> staffId in wallets
      ensures w.Some? ==> w.value == wallets[staffId]
    {
      if staffId in wallets then Some(wallets[staffId]) else None
    }

    method ProcessPayout(staffId: string, amount: int) returns (result: Outcome)
      modifies this
      ensures result == Payout(old(WalletOf(staffId)), staffId, amount)
      ensures result.Done? ==>
        wallets == old(wallets)[staffId := result.wallet] && transactions == old(transactions) + [result.tx]
      ensures result.Failed? ==> wallets == old(wallets) && transactions == old(transactions)
      ensures amount >= 0 && (forall id :: id in old(wallets) ==> NonNegative(old(wallets)[id])) ==>
        forall id :: id in wallets ==> NonNegative(wallets[id])
    {
      if staffId !in wallets {
        return Failed(WalletNotFound);
      }
      var w := wallets[staffId];
      if w.jobEarnings < amount {
        return Failed(InsufficientJobEarnings);
      }
      var updated := w.(jobEarnings := w.jobEarnings - amount, totalSettled := w.totalSettled + amount);
      wallets := wallets[staffId := updated];
      var tx := Transaction(staffId, "settlement", amount, "Job earnings payout of ₹" + IntToString(amount), "approved");
      transactions := transactions + [tx];
      result := Done(updated, tx);
    }

    method ProcessSettlement(staffId: string, amount: int) returns (result: Outcome)
      modifies this
      ensures result == Settlement(old(WalletOf(staffId)), staffId, amount)
      ensures result.Done? ==>
        wallets == old(wallets)[staffId := result.wallet] && transactions == old(transactions) + [result.tx]
      ensures result.Failed? ==> wallets == old(wallets) && transactions == old(transactions)
      ensures amount >= 0 && (forall id :: id in old(wallets) ==> NonNegative(old(wallets)[id])) ==>
        forall id :: id in wallets ==> NonNegative(wallets[id])
    {
      if staffId !in wallets {
        return Failed(WalletNotFound);
      }
      var w := wallets[staffId];
      if w.collectedAmount < amount {
        return Failed(ExceedsCollectedBalance);
      }
      var updated := w.(collectedAmount := w.collectedAmount - amount, totalSettled := w.totalSettled + amount);
      wallets := wallets[staffId := updated];
      var tx := Transaction(staffId, "settlement", -amount, "Cash settlement of ₹" + IntToString(amount) + " collected by admin", "approved");
      transactions := transactions + [tx];
      result := Done(updated, tx);
    }
  }

  // --------------------------------------------------------------- the list

  datatype StaffRow = StaffRow(id: string, name: string, mobileNumber: string, staffType: string)

  datatype StaffWithWallet = StaffWithWallet(staff: StaffRow, wallet: Option<Wallet>)

  /** Each listed rider with the wallet stored under their id, if any. */
  function AttachWallets(staff: seq<StaffRow>, wallets: map<string, Wallet>): (r: seq<StaffWithWallet>)
    ensures |r| == |staff|
    ensures forall i :: 0 <= i < |staff| ==>
      && r[i].staff == staff[i]
      && (r[i].wallet.Some? <==> staff[i].id in wallets)
      && (r[i].wallet.Some? ==> r[i].wallet.value == wallets[staff[i].id])
  {
    seq(|staff|, i requires 0 <= i < |staff| =>
      StaffWithWallet(staff[i], if staff[i].id in wallets then Some(wallets[staff[i].id]) else None))
  }

  datatype Balance = Collected | JobEarnings | Settled

  function BalanceOf(w: Wallet, b: Balance): int {
    match b
    case Collected => w.collectedAmount
    case JobEarnings => w.jobEarnings
    case Settled => w.totalSettled
  }

  /** `(s.wallet?.<balance> || 0)`: a rider without a wallet counts 0. */
  function ShownBalance(s: StaffWithWallet, b: Balance): (v: int)
    ensures s.wallet.None? ==> v == 0
    ensures s.wallet.Some? ==> v == BalanceOf(s.wallet.value, b)
  {
    if s.wallet.Some? then BalanceOf(s.wallet.value, b) else 0
  }

  /** A summary card: the `reduce` of one balance over the list. */
  function Total(list: seq<StaffWithWallet>, b: Balance): int
    decreases |list|
  {
    if list == [] then 0 else Total(list[..|list| - 1], b) + ShownBalance(list[|list| - 1], b)
  }

  /** How often a staff id is listed. */
  function Occurrences(staff: seq<StaffRow>, id: string): (n: nat)
    ensures n <= |staff|
    decreases |staff|
  {
    if staff == [] then 0
    else Occurrences(staff[..|staff| - 1], id) + (if staff[|staff| - 1].id == id then 1 else 0)
  }

  /** Replacing one rider's wallet moves each summary total by the change in
      that balance, once per listing of the rider. */
  lemma {:induction false} TotalAfterUpdate(staff: seq<StaffRow>, wallets: map<string, Wallet>, id: string, w: Wallet, b: Balance)
    requires id in wallets
    ensures Total(AttachWallets(staff, wallets[id := w]), b) ==
      Total(AttachWallets(staff, wallets), b) + Occurrences(staff, id) * (BalanceOf(w, b) - BalanceOf(wallets[id], b))
    decreases |staff|
  {
    if staff != [] {
      var p := staff[..|staff| - 1];
      var before, after := AttachWallets(staff, wallets), AttachWallets(staff, wallets[id := w]);
      assert before[..|before| - 1] == AttachWallets(p, wallets);
      assert after[..|after| - 1] == AttachWallets(p, wallets[id := w]);
      TotalAfterUpdate(p, wallets, id, w, b);
      var d := BalanceOf(w, b) - BalanceOf(wallets[id], b);
      var last := |staff| - 1;
      var hit := staff[last].id == id;
      var s0, s1 := ShownBalance(before[last], b), ShownBalance(after[last], b);
      assert Total(before, b) == Total(AttachWallets(p, wallets), b) + s0;
      assert Total(after, b) == Total(AttachWallets(p, wallets[id := w]), b) + s1;
      assert hit ==> s1 == s0 + d;
      assert !hit ==> s1 == s0;
      ShiftByOccurrence(Total(AttachWallets(p, wallets), b), Total(AttachWallets(p, wallets[id := w]), b),
        s0, s1, Occurrences(p, id), d, hit);
    }
  }

  /** The arithmetic of one step: an extra listing adds one more change. */
  lemma ShiftByOccurrence(t0: int, t1: int, s0: int, s1: int, k: nat, d: int, hit: bool)
    requires t1 == t0 + k * d
    requires hit ==> s1 == s0 + d
    requires !hit ==> s1 == s0
    ensures t1 + s1 == t0 + s0 + (k + if hit then 1 else 0) * d
  {
    if hit {
      assert (k + 1) * d == k * d + d;
    }
  }

  /** A successful payout for a rider listed once lowers the job-earnings card
      by the amount, raises the settled card by it and leaves the
      collections card alone. */
  lemma {:induction false} TotalsAfterPayout(staff: seq<StaffRow>, wallets: map<string, Wallet>, id: string, amount: int)
    requires id in wallets && Occurrences(staff, id) == 1
    requires Payout(Some(wallets[id]), id, amount).Done?
    ensures
      var after := AttachWallets(staff, wallets[id := Payout(Some(wallets[id]), id, amount).wallet]);
      var before := AttachWallets(staff, wallets);
      && Total(after, JobEarnings) == Total(before, JobEarnings) - amount
      && Total(after, Settled) == Total(before, Settled) + amount
      && Total(after, Collected) == Total(before, Collected)
  {
    var w := Payout(Some(wallets[id]), id, amount).wallet;
    TotalAfterUpdate(staff, wallets, id, w, JobEarnings);
    TotalAfterUpdate(staff, wallets, id, w, Settled);
    TotalAfterUpdate(staff, wallets, id, w, Collected);
  }

  /** The same for a settlement, on the collections card. */
  lemma {:induction false} TotalsAfterSettlement(staff: seq<StaffRow>, wallets: map<string, Wallet>, id: string, amount: int)
    requires id in wallets && Occurrences(staff, id) == 1
    requires Settlement(Some(wallets[id]), id, amount).Done?
    ensures
      var after := AttachWallets(staff, wallets[id := Settlement(Some(wallets[id]), id, amount).wallet]);
      var before := AttachWallets(staff, wallets);
      && Total(after, Collected) == Total(before, Collected) - amount
      && Total(after, Settled) == Total(before, Settled) + amount
      && Total(after, JobEarnings) == Total(before, JobEarnings)
  {
    var w := Settlement(Some(wallets[id]), id, amount).wallet;
    TotalAfterUpdate(staff, wallets, id, w, JobEarnings);
    TotalAfterUpdate(staff, wallets, id, w, Settled);
    TotalAfterUpdate(staff, wallets, id, w, Collected);
  }

  /** The search: the lower-cased name contains the lower-cased query, or
      the mobile number contains the query as typed. */
  predicate MatchesSearch(s: StaffWithWallet, query: string) {
    Contains(ToLower(s.staff.name), ToLower(query)) || Contains(s.staff.mobileNumber, query)
  }

  /** `filteredStaff`. */
  function FilteredStaff(list: seq<StaffWithWallet>, query: string): (r: seq<StaffWithWallet>)
    ensures |r| <= |list|
    ensures forall s :: s in r <==> s in list && MatchesSearch(s, query)
    decreases |list|
  {
    if list == [] then []
    else
      var rest := FilteredStaff(list[..|list| - 1], query);
      var x := list[|list| - 1];
      assert forall s :: s in list <==> s in list[..|list| - 1] || s == x;
      if MatchesSearch(x, query) then rest + [x] else rest
  }

  /** The search works rider by rider: the riders it keeps stay in list
      order. */
  lemma {:induction false} FilteredStaffConcat(a: seq<StaffWithWallet>, b: seq<StaffWithWallet>, query: string)
    ensures FilteredStaff(a + b, query) == FilteredStaff(a, query) + FilteredStaff(b, query)
    decreases |b|
  {
    if b == [] {
      assert a + b == a;
    } else {
      assert (a + b)[..|a + b| - 1] == a + b[..|b| - 1];
      FilteredStaffConcat(a, b[..|b| - 1], query);
    }
  }

  /** An empty search shows everyone, in order. */
  lemma {:induction false} EmptySearchKeepsAll(list: seq<StaffWithWallet>)
    ensures FilteredStaff(list, "") == list
    decreases |list|
  {
    if list != [] {
      EmptySearchKeepsAll(list[..|list| - 1]);
      ContainsEmpty(list[|list| - 1].staff.mobileNumber);
      assert list == list[..|list| - 1] + [list[|list| - 1]];
    }
  }

  // ---------------------------------------------------------------- buttons

  /** "Payout" on a row: needs a wallet with positive job earnings. */
  predicate PayoutButtonEnabled(s: StaffWithWallet) {
    !(s.wallet.None? || s.wallet.value.jobEarnings == 0 || s.wallet.value.jobEarnings <= 0)
  }

  /** "Settle" on a row: needs a wallet with positive collections. */
  predicate SettleButtonEnabled(s: StaffWithWallet) {
    !(s.wallet.None? || s.wallet.value.collectedAmount == 0 || s.wallet.value.collectedAmount <= 0)
  }

  lemma {:induction false} RowButtonsNeedPositiveBalance(s: StaffWithWallet)
    ensures PayoutButtonEnabled(s) <==> s.wallet.Some? && s.wallet.value.jobEarnings > 0
    ensures SettleButtonEnabled(s) <==> s.wallet.Some? && s.wallet.value.collectedAmount > 0
  {
  }

  /** The amount the payout dialog opens with: the job earnings, or "0". */
  function DefaultPayoutText(s: StaffWithWallet): string {
    if s.wallet.Some? then IntToString(s.wallet.value.jobEarnings) else "0"
  }

  /** "Confirm": a non-empty amount that is positive, while no request is
      running. */
  predicate ConfirmEnabled(amountText: string, isPending: bool) {
    var amount := ParseInt(amountText);
    !(amountText == "" || (amount.Some? && amount.value <= 0) || amount.None? || isPending)
  }

  /** The amount a confirmed dialog sends. */
  function ConfirmedAmount(amountText: string): int
    requires ConfirmEnabled(amountText, false)
  {
    ParseInt(amountText).value
  }

  /** A confirmed amount is positive, so a mutation it starts keeps a
      non-negative wallet non-negative. */
  lemma {:induction false} ConfirmedMutationsKeepNonNegative(w: Wallet, staffId: string, amountText: string)
    requires NonNegative(w) && ConfirmEnabled(amountText, false)
    ensures ConfirmedAmount(amountText) > 0
    ensures Payout(Some(w), staffId, ConfirmedAmount(amountText)).Done? ==>
      NonNegative(Payout(Some(w), staffId, ConfirmedAmount(amountText)).wallet)
    ensures Settlement(Some(w), staffId, ConfirmedAmount(amountText)).Done? ==>
      NonNegative(Settlement(Some(w), staffId, ConfirmedAmount(amountText)).wallet)
  {
  }

  /** Opening the payout dialog on an enabled row and confirming the
      prefilled amount pays out all job earnings. */
  lemma {:induction false} DefaultPayoutEmptiesEarnings(s: StaffWithWallet)
    requires PayoutButtonEnabled(s)
    ensures ConfirmEnabled(DefaultPayoutText(s), false)
    ensures ConfirmedAmount(DefaultPayoutText(s)) == s.wallet.value.jobEarnings
    ensures Payout(s.wallet, s.staff.id, ConfirmedAmount(DefaultPayoutText(s))).Done?
    ensures Payout(s.wallet, s.staff.id, ConfirmedAmount(DefaultPayoutText(s))).wallet.jobEarnings == 0
  {
    ParseIntOfIntToString(s.wallet.value.jobEarnings);
  }
}
