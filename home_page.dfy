/**
 * The home page controller: the page's state hooks as fields of one object,
 * and its actions as methods. Every answer from the outside world (whether a
 * wallet is injected, the account list, a balance read, whether a transaction
 * is mined) arrives as a parameter; each asynchronous action is one atomic step.
 */
module Page {
  import opened Wrappers
  import opened SavingsPlanner
  import opened ReturnEstimator

  /** The address the contract handle is bound to. */
  const ContractAddress: string := "0x5FbDB2315678afecb367f032d93F642f64180aa3"

  /** The value attached to a memo transaction: 0.001 ether, in wei. */
  const MemoValueWei: nat := 1_000_000_000_000_000

  /** The amount every deposit and withdrawal asks the contract for. */
  const FixedQuantity: nat := 1

  /** A contract handle: which address it talks to. */
  datatype ContractRef = ContractRef(address: string)

  /** What the wallet answers to `eth_requestAccounts`: a list (possibly missing or empty), or a refusal. */
  datatype AccountsReply = Granted(accounts: Option<seq<string>>) | Refused

  /** A contract call that changes the chain. */
  datatype ContractCall = DepositCall(amount: nat) | WithdrawCall(amount: nat)

  /**
   * How a deposit or withdrawal ends: the send or `tx.wait()` fails, or the
   * transaction is mined and the follow-up balance read answers (or fails).
   */
  datatype WriteOutcome = Failed | Mined(balanceRead: Option<int>)

  /** What a memo transaction carries: the calculator's result (its text formatting is not modelled). */
  datatype Memo = SavingsMemo(monthly: Quotient) | ReturnMemo(projected: real)

  datatype Transaction = Transaction(to: Option<string>, valueWei: nat, data: Memo)

  /**
   * How `sendDummyTransaction` ends: the transaction is sent; the send fails
   * and the error is caught; or there is no wallet, so building the provider
   * throws before the `try` and the calculator's promise rejects.
   */
  datatype MemoOutcome = Sent(tx: Transaction) | FailureCaught | ProviderThrew

  /** The three things `initUser` can render. */
  datatype View = InstallPrompt | ConnectPrompt | AccountView(account: string, balance: Option<int>)

  /** JavaScript truthiness of an optional account string. */
  predicate HasAccount(account: Option<string>) {
    account.Some? && account.value != ""
  }

  class HomePage {
    var hasWallet: bool
    var account: Option<string>
    var atm: Option<ContractRef>
    var balance: Option<int>
    var monthlySavings: Quotient
    var calculatedReturn: real

    /**
     * What the page's code keeps true: a contract is bound only through a
     * wallet and only to the configured address, an account is only ever
     * captured from a wallet, and a balance is only read through a bound
     * contract. Note that a bound contract does not imply an account. It is
     * kept as a preserved invariant only; no functional postcondition depends
     * on it. It cannot say that an account implies a bound contract, although
     * the page only reaches such states, because `HandleAccount` on its own
     * sets an account without binding one.
     */
    ghost predicate Valid()
      reads this
    {
      && (atm.Some? ==> hasWallet && atm.value == ContractRef(ContractAddress))
      && (account.Some? ==> hasWallet)
      && (balance.Some? ==> atm.Some?)
    }

    /** The initial values of the state hooks. */
    constructor ()
      ensures Valid()
      ensures !hasWallet && account.None? && atm.None? && balance.None?
      ensures monthlySavings == Finite(0.0) && calculatedReturn == 0.0
    {
      hasWallet := false;
      account := None;
      atm := None;
      balance := None;
      monthlySavings := Finite(0.0);
      calculatedReturn := 0.0;
    }

    /** `getWallet`: records an injected wallet if there is one. */
    method GetWallet(injected: bool)
      requires Valid()
      modifies this`hasWallet
      ensures Valid()
      ensures hasWallet == (old(hasWallet) || injected)
    {
      if injected {
        hasWallet := true;
      }
    }

    /** `handleAccount`: the first account of a non-empty list becomes the account. */
    method HandleAccount(accounts: Option<seq<string>>)
      requires Valid() && hasWallet
      modifies this`account
      ensures Valid()
      ensures accounts.Some? && |accounts.value| > 0 ==> account == Some(accounts.value[0])
      ensures accounts.None? || |accounts.value| == 0 ==> account == old(account)
    {
      if accounts.Some? && |accounts.value| > 0 {
        account := Some(accounts.value[0]);
      }
    }

    /** `getATMContract`: binds the contract at the configured address through the wallet's signer. */
    method GetATMContract()
      requires Valid() && hasWallet
      modifies this`atm
      ensures Valid()
      ensures atm == Some(ContractRef(ContractAddress))
    {
      atm := Some(ContractRef(ContractAddress));
    }

    /**
     * `connectAccount`: without a wallet nothing changes; otherwise the
     * wallet is asked for accounts and, unless it refuses (the awaited
     * request throws), the answer is handled and the contract is bound
     * whatever the answer was.
     */
    method ConnectAccount(reply: AccountsReply)
      requires Valid()
      modifies this`account, this`atm
      ensures Valid()
      ensures !hasWallet || reply.Refused? ==> account == old(account) && atm == old(atm)
      ensures hasWallet && reply.Granted? ==> atm == Some(ContractRef(ContractAddress))
      ensures hasWallet && reply.Granted? ==>
                account == if reply.accounts.Some? && |reply.accounts.value| > 0
                           then Some(reply.accounts.value[0]) else old(account)
    {
      if !hasWallet {
        return;
      }
      if reply.Refused? {
        return;
      }
      HandleAccount(reply.accounts);
      GetATMContract();
    }

    /** `getBalance`: with a bound contract, a successful read replaces the balance. */
    method GetBalance(read: Option<int>)
      requires Valid()
      modifies this`balance
      ensures Valid()
      ensures balance == if atm.Some? && read.Some? then read else old(balance)
    {
      if atm.Some? && read.Some? {
        balance := read;
      }
    }

    /**
     * `deposit`: with a bound contract, asks it to deposit 1 and, once the
     * transaction is mined, refreshes the balance; without one it does nothing.
     */
    method Deposit(outcome: WriteOutcome) returns (call: Option<ContractCall>)
      requires Valid()
      modifies this`balance
      ensures Valid()
      ensures call == if atm.Some? then Some(DepositCall(FixedQuantity)) else None
      ensures balance == if atm.Some? && outcome.Mined? && outcome.balanceRead.Some?
                         then outcome.balanceRead else old(balance)
    {
      call := None;
      if atm.Some? {
        call := Some(DepositCall(FixedQuantity));
        if outcome.Mined? {
          GetBalance(outcome.balanceRead);
        }
      }
    }

    /**
     * `withdraw`: with a bound contract, asks it to withdraw 1 and, once the
     * transaction is mined, refreshes the balance; without one it does nothing.
     */
    method Withdraw(outcome: WriteOutcome) returns (call: Option<ContractCall>)
      requires Valid()
      modifies this`balance
      ensures Valid()
      ensures call == if atm.Some? then Some(WithdrawCall(FixedQuantity)) else None
      ensures balance == if atm.Some? && outcome.Mined? && outcome.balanceRead.Some?
                         then outcome.balanceRead else old(balance)
    {
      call := None;
      if atm.Some? {
        call := Some(WithdrawCall(FixedQuantity));
        if outcome.Mined? {
          GetBalance(outcome.balanceRead);
        }
      }
    }

    /**
     * The outcomes a memo send may have: it throws exactly when there is no
     * wallet, it is sent exactly when there is one and the send is delivered,
     * and what is sent is the memo, 0.001 ether, to the page's own account.
     */
    predicate MemoOutcomeOf(memo: Memo, delivered: bool, outcome: MemoOutcome)
      reads this
    {
      && (outcome.ProviderThrew? <==> !hasWallet)
      && (outcome.Sent? <==> hasWallet && delivered)
      && (outcome.Sent? ==> outcome.tx == Transaction(account, MemoValueWei, memo))
    }

    /**
     * `sendDummyTransaction`: a 0.001-ether transfer to the page's own account
     * carrying the memo. It changes no state; a failed send is caught.
     */
    method SendDummyTransaction(memo: Memo, delivered: bool) returns (outcome: MemoOutcome)
      ensures MemoOutcomeOf(memo, delivered, outcome)
    {
      if !hasWallet {
        outcome := ProviderThrew;
      } else if delivered {
        outcome := Sent(Transaction(account, MemoValueWei, memo));
      } else {
        outcome := FailureCaught;
      }
    }

    /**
     * `calculateMonthlySavings` at time `now`: a rejected form changes nothing
     * and sends nothing; otherwise the monthly amount is stored first and the
     * memo is sent after, so its outcome cannot affect what was stored.
     */
    method CalculateMonthlySavings(form: SavingsForm, now: int, delivered: bool)
      returns (memo: Option<MemoOutcome>)
      requires Valid()
      modifies this`monthlySavings
      ensures Valid()
      ensures PlanSavings(form, now).Rejected? ==> monthlySavings == old(monthlySavings) && memo.None?
      ensures PlanSavings(form, now).Planned? ==>
                monthlySavings == PlanSavings(form, now).monthly && memo.Some?
      ensures memo.Some? ==> MemoOutcomeOf(SavingsMemo(monthlySavings), delivered, memo.value)
    {
      var plan := PlanSavings(form, now);
      if plan.Rejected? {
        return None;
      }
      monthlySavings := plan.monthly;
      var outcome := SendDummyTransaction(SavingsMemo(monthlySavings), delivered);
      memo := Some(outcome);
    }

    /**
     * `calculateReturn`: an unknown investment type changes nothing and sends
     * nothing; otherwise the projected value is stored first and the memo is
     * sent after, so its outcome cannot affect what was stored.
     */
    method CalculateReturn(form: ReturnForm, delivered: bool) returns (memo: Option<MemoOutcome>)
      requires Valid()
      modifies this`calculatedReturn
      ensures Valid()
      ensures !KnownKind(form.kind) ==> calculatedReturn == old(calculatedReturn) && memo.None?
      ensures KnownKind(form.kind) ==>
                calculatedReturn == EstimateReturn(form).value && memo.Some?
      ensures memo.Some? ==> MemoOutcomeOf(ReturnMemo(calculatedReturn), delivered, memo.value)
    {
      var projected := EstimateReturn(form);
      if projected.None? {
        return None;
      }
      calculatedReturn := projected.value;
      var outcome := SendDummyTransaction(ReturnMemo(calculatedReturn), delivered);
      memo := Some(outcome);
    }

    /** The view `initUser` renders for the current state. */
    function Screen(): (v: View)
      reads this
      ensures v.InstallPrompt? <==> !hasWallet
      ensures v.ConnectPrompt? <==> hasWallet && !HasAccount(account)
      ensures v.AccountView? ==> account == Some(v.account) && v.balance == balance
    {
      if !hasWallet then InstallPrompt
      else if !HasAccount(account) then ConnectPrompt
      else AccountView(account.value, balance)
    }

    /**
     * `initUser`: renders the current view and, when it is the account view
     * and no balance is known yet, starts a balance read.
     */
    method InitUser(read: Option<int>) returns (v: View)
      requires Valid()
      modifies this`balance
      ensures Valid()
      ensures v == old(Screen())
      ensures v.AccountView? && old(balance).None? ==>
                balance == if atm.Some? && read.Some? then read else old(balance)
      ensures !(v.AccountView? && old(balance).None?) ==> balance == old(balance)
    {
      v := Screen();
      if v.AccountView? && balance.None? {
        GetBalance(read);
      }
    }
  }

  /**
   * A session whose wallet grants an empty account list: the contract is
   * bound, no account is captured, and the page still shows the connect button.
   */
  method EmptyAccountListScenario() returns (bound: bool, v: View)
    ensures bound && v == ConnectPrompt
  {
    var page := new HomePage();
    page.GetWallet(true);
    page.ConnectAccount(Granted(Some([])));
    bound := page.atm.Some?;
    v := page.Screen();
  }

  /**
   * A connected session that computes a return and whose memo send fails:
   * the projected value is stored all the same, and the memo failure is caught.
   */
  method FailedMemoScenario(account: string, amount: real)
    returns (v: View, stored: real, memo: Option<MemoOutcome>)
    requires account != ""
    ensures v == AccountView(account, None)
    ensures stored == amount * 1.1 * 1.1
    ensures memo == Some(FailureCaught)
  {
    var page := new HomePage();
    page.GetWallet(true);
    page.ConnectAccount(Granted(Some([account])));
    memo := page.CalculateReturn(ReturnForm(Stocks, amount, 0, 2, 10.0), false);
    KindsDistinct();
    stored := page.calculatedReturn;
    v := page.Screen();
  }
}
