# ATM page controller, modelled in Dafny

This project models the single page controller `pages/index.js` of a small
Ethereum "ATM" web page. The page connects to an injected wallet (MetaMask),
binds one contract that offers `getBalance`, `deposit` and `withdraw`, and runs
two calculators. The first is a monthly-savings planner and the second an
investment-return estimator. Each calculator stores its result and then
records it on-chain as a memo transaction.

Modules, one per component of the page:

- `Wrappers` (`wrappers.dfy`): `Option`, standing for JavaScript's `undefined`.
- `Compound` (`compound.dfy`): `Math.pow` with a whole exponent, over exact reals, with its algebra (exponents add and multiply, monotone in the base, Bernoulli's inequality).
- `SavingsPlanner` (`savings_planner.dfy`): the `calculateMonthlySavings` validator, the floor division into 30.44-day months (2,630,016,000 ms), and the division. Dividing by zero months yields Infinity, -Infinity or NaN, as in JavaScript. The `Quotient` datatype models these values.
- `ReturnEstimator` (`return_estimator.dfy`): the rate `switch` over the four investment-type labels and the compound-interest formulas. Mutual funds compound monthly over `duration` months; every other type compounds yearly over `timePeriod` years.
- `Page` (`home_page.dfy`): class `HomePage`. Its fields are the page's state hooks: wallet present, account, contract handle, balance, monthly savings and calculated return. Its methods are the page's actions. `Valid()` is the invariant the code keeps. It says that a contract is bound only through a wallet and only to the configured address, that an account only comes from a wallet, and that a balance is only read through a bound contract. It does not say that a bound contract has an account.

What the code does not do, and the model therefore does not do either:

- There is no rejection of a short interval. A target less than one average month ahead gives `months = 0`, and the division yields ±Infinity or NaN (`ShortHorizonIsNotRejected`).
- There is no rejection of a missing rate. Stocks and Gold use the entered rate, which defaults to 0 (`MissingRateMeansZero`).
- There is no in-progress guard, no balance staleness flag and no tie between `account` and the contract handle. The contract is bound even when the wallet returns an empty account list (`EmptyAccountListScenario`).

1000 in a mutual fund over 12 months gives 1000·(1213/1200)^12 ≈ 1138.03 (`MutualFundsExample`).

Inputs from outside the page are parameters of the methods:

- whether a wallet is injected;
- the wallet's answer to the account request;
- a balance read;
- whether a transaction is mined;
- whether a memo send succeeds;
- the current time, in milliseconds;
- the form fields, as `SavingsForm` and `ReturnForm`.

## Model

| member | source | states |
|---|---|---|
| `Compound.Pow` | pages/index.js:148-150 | a non-negative base gives a non-negative power; a base of at least 1 gives a power of at least 1 |
| `Compound.PowAdd` | pages/index.js:148-150 | b^(m+n) = b^m · b^n |
| `Compound.PowMul` | pages/index.js:148-150 | b^(m·n) = (b^m)^n |
| `Compound.PowMonotoneInBase` | pages/index.js:148-150 | 0 ≤ a ≤ b implies a^n ≤ b^n |
| `Compound.Bernoulli` | pages/index.js:148-150 | (1+h)^n ≥ 1 + n·h for h ≥ -1 |
| `SavingsPlanner.MsPerMonthIsAverageMonth` | pages/index.js:115 | 2,630,016,000 is exactly 1000·60·60·24·30.44 |
| `SavingsPlanner.Divide` | pages/index.js:117 | a positive divisor gives a finite quotient q with q·n = x; a zero divisor gives +Infinity for x > 0, -Infinity for x < 0, NaN for 0 |
| `SavingsPlanner.MonthsBetween` | pages/index.js:114-115 | the result is the floor: months·M ≤ target − now < (months+1)·M, and it is non-negative for a future target |
| `SavingsPlanner.PlanSavings` | pages/index.js:100-117 | rejects as incomplete exactly when the date is empty, goal ≤ 0 or current < 0; rejects as not in the future exactly when those pass and target ≤ now; otherwise months is the floor of the interval, and with months > 0 savings·months = goal − current, while months = 0 gives a non-finite result |
| `SavingsPlanner.SavingsSign` | pages/index.js:117 | with months > 0 the monthly amount is negative exactly when goal < current and zero exactly when they are equal |
| `SavingsPlanner.ShortHorizonIsNotRejected` | pages/index.js:114-117 | a valid form with a target less than one average month ahead is planned with months = 0 and ±Infinity or NaN, not rejected |
| `SavingsPlanner.MonthsMonotone` | pages/index.js:114-115 | a later target never gives fewer months |
| `ReturnEstimator.RateFor` | pages/index.js:125-143 | a rate exists exactly for the four known types; it is 13 for Equity Funds and Mutual Funds and the entered rate for Stocks and Gold |
| `ReturnEstimator.EstimateReturn` | pages/index.js:124-151 | a result exists exactly for the four known types |
| `ReturnEstimator.MutualFundsCompoundMonthly` | pages/index.js:147-148 | Mutual Funds give amount·(1 + 13/1200)^duration |
| `ReturnEstimator.OthersCompoundYearly` | pages/index.js:149-151 | every other known type gives amount·(1 + rate/100)^timePeriod, with rate 13 for Equity Funds and the entered rate for Stocks and Gold |
| `ReturnEstimator.FixedRateIgnoresEnteredRate` | pages/index.js:127-133 | for Equity Funds and Mutual Funds the entered rate does not change the result |
| `ReturnEstimator.MissingRateMeansZero` | pages/index.js:125-139 | Stocks or Gold with the rate left at 0 return the amount unchanged, and are not rejected |
| `ReturnEstimator.ZeroPeriodsYieldAmount` | pages/index.js:147-151 | a zero exponent (duration for Mutual Funds, time period otherwise) yields the amount |
| `ReturnEstimator.ZeroAmountYieldsZero` | pages/index.js:147-151 | a zero amount yields 0 for every known type |
| `ReturnEstimator.UnusedPeriodIgnored` | pages/index.js:147-151 | Mutual Funds ignore the time period; the other types ignore the duration |
| `ReturnEstimator.NoLossAtNonNegativeRate` | pages/index.js:145-151 | with a non-negative amount and rate the result is at least the amount |
| `ReturnEstimator.MonthlyAtLeastYearly` | pages/index.js:147-151 | at 13%, a mutual fund over 12·y months returns at least what an equity fund returns over y years |
| `ReturnEstimator.StocksExample` | pages/index.js:134-151 | 1000 in Stocks for 2 years at 10% gives exactly 1210 |
| `ReturnEstimator.MutualFundsExample` | pages/index.js:131-148 | 1000 in Mutual Funds for 12 months gives between 1138.03 and 1138.04 |
| `Page.HomePage.constructor` | pages/index.js:6-21 | every field starts undefined, and both calculator results start at 0 |
| `Page.HomePage.GetWallet` | pages/index.js:26-31 | an injected wallet is recorded; without one nothing changes |
| `Page.HomePage.HandleAccount` | pages/index.js:33-40 | a non-empty list sets the account to its first entry; an empty or missing list leaves the account unchanged |
| `Page.HomePage.GetATMContract` | pages/index.js:54-60 | the contract handle is bound to the configured address |
| `Page.HomePage.ConnectAccount` | pages/index.js:42-52 | without a wallet, or when the request is refused, nothing changes; otherwise the account is handled as in HandleAccount, and the contract is bound even for an empty list |
| `Page.HomePage.GetBalance` | pages/index.js:62-66 | the balance changes only with a bound contract and a successful read, and then becomes the value read |
| `Page.HomePage.Deposit` | pages/index.js:68-74 | with no contract there is no call and no change; with one it calls deposit(1), and once the transaction is mined the balance becomes the value read back |
| `Page.HomePage.Withdraw` | pages/index.js:76-82 | with no contract there is no call and no change; with one it calls withdraw(1), and once the transaction is mined the balance becomes the value read back |
| `Page.HomePage.SendDummyTransaction` | pages/index.js:84-98 | it throws exactly when there is no wallet, and is sent exactly when there is a wallet and delivery succeeds; a sent memo carries the memo and 0.001 ether to the page's own account |
| `Page.HomePage.CalculateMonthlySavings` | pages/index.js:100-122 | a rejected form changes nothing and sends no memo; otherwise `monthlySavings` becomes the planned amount whatever happens to the memo, which carries that amount |
| `Page.HomePage.CalculateReturn` | pages/index.js:124-156 | an unknown type changes nothing and sends no memo; otherwise `calculatedReturn` becomes the estimate whatever happens to the memo, which carries that value |
| `Page.HomePage.Screen` | pages/index.js:158-169 | the install prompt appears exactly when there is no wallet; the connect button exactly when there is a wallet but no truthy account; otherwise the account view shows the account and the balance |
| `Page.HomePage.InitUser` | pages/index.js:158-169 | it renders the current view; a balance read starts only from the account view with no balance yet |
| `Page.EmptyAccountListScenario` | pages/index.js:42-60 | after connecting with an empty account list, the contract is bound and the page still shows the connect button |
| `Page.FailedMemoScenario` | pages/index.js:93-97 | on a connected page showing the account view, a Stocks estimate at 10% over 2 years whose memo send fails still leaves amount·1.1·1.1 stored, and the failure is caught |

## Left out

- Wallet and ethers internals are not modelled: `window.ethereum` detection, `Web3Provider`, `getSigner`, `Contract` construction, the ABI, `parseEther` and the UTF-8 hex encoding of the memo. The wallet is a boolean, and the contract handle records only its address.
- Asynchrony is not modelled: `await`, `tx.wait()` and promise rejections are left out. Each action is one atomic step, and its outcome is a parameter. An unhandled rejection becomes "no further state change".
- The memo's text (`toFixed(2)` formatting) is not modelled; the memo carries the numeric result.
- Floating point is not modelled: amounts are exact reals and exponents are whole numbers. IEEE rounding, overflow and `Math.pow` with fractional or negative exponents are out.
- Form fields are strings in the page, coerced by JavaScript. Here they are typed values, and an empty date field is `None`.
- Date parsing and the clock are not modelled. The target date and the current time are whole milliseconds, passed in.
- Rendering is not modelled: the JSX markup, `alert` and `console` output, form handlers, `useEffect` and the CSS. `initUser` is kept only as its three-way view choice.
- `Page.HomePage.HandleAccount` and `Page.HomePage.GetATMContract` require a wallet. Their one call site in the page runs only after the wallet check, and building the provider without a wallet throws.
