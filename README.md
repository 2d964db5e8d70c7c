# Token ledger state machine

A Dafny model of the Metronome `Token` contract as its ERC compliance tests
drive it: a fungible-token ledger with a one-time `init`, an owner-settable
token porter, role-gated `mint` and `destroy`, plain and delegated
transfers, allowances, and the data-bearing variants of `transfer`,
`approve` and `transferFrom` that notify the recipient between two events.
The Solidity contract itself is not part of this model; its behaviour is
taken from the assertions of `test/erc-compliance.js`, and where the test is
silent, from the design of the contract (roles, error causes, check order).

Files:

- `ledger.dfy` (module `Ledger`): addresses (`Null` is 0x0), balance maps
  whose absent keys read as zero, the ghost `Sum` of all balances, and the
  three balance writes (`Credit`, `Debit`, `Move`) with what each does to
  that sum.
- `events.dfy` (module `TokenEvents`): the receipt log. `Transfer`,
  `TransferData`, `Approval`, `ApprovalData`, `Mint` and `Destroy` are the
  token's events; `HookRan` marks where in the receipt the recipient's
  `onTokenTransfer` / `onTokenApprove` hook ran. The hook receives the
  caller's `data` with the sender and amount; since `data` may itself encode
  the receiver's call, a hook may act on `data` alone.
- `token_spec.dfy` (module `TokenSpec`): the contract's storage as a value
  `State` (`BalanceOf`, `Allowance` and `totalSupply` are its read
  accessors) and one function per public call, each returning either the
  committed new state or the revert cause with nothing changed; `Step`/`Run`
  apply sequences of calls, and lemmas state what every reachable state
  keeps.
- `token.dfy` (module `TokenContract`): class `Token`, whose fields are the
  contract's storage. Each method updates them in place, undoes its writes
  when the recipient hook fails, and is proved to settle exactly as the
  matching `TokenSpec` function prescribes (`Settles`) while keeping the
  balances summing to the total supply (`Valid`).

The recipient hook is a parameter `hook: (State, Addr, HookCall) -> bool`:
it is given the token's state at the moment it is called, which is after
the balance or allowance change (checks, then effects, then the external
call), and it either returns normally or fails, in which case the whole
call reverts.

## Model

| member | source | states |
|---|---|---|
| `TokenSpec.Deployed` | test/erc-compliance.js:66 | The storage `Token.new` starts from before the constructor runs `init`: not yet initialised, no porter, an empty log, zero supply and every balance zero, satisfying the ledger invariant. |
| `TokenSpec.State.BalanceOf` | test/erc-compliance.js:136 | The `balanceOf` accessor: an absent key reads as zero, a present one as its stored balance. |
| `TokenSpec.State.Allowance` | test/erc-compliance.js:448-449 | The `allowance` accessor: a pair never approved (an absent key) reads as zero, a present one as its stored allowance. |
| `TokenSpec.Init` | test/erc-compliance.js:63-95 | `init` reverts with AlreadyInitialized exactly when the contract is already initialised; otherwise it records converter, minter and multiplier, raises the supply and the converter's balance by `initialSupply * decimalsMultiplier`, leaves every other balance, the owner, the porter, the allowances and the log alone, and keeps the invariant. |
| `TokenSpec.DeploymentCreditsConverter` | test/erc-compliance.js:63-74 | Deploying with supply S and multiplier M gives total supply S*M, all of it held by the converter, every other balance zero, the invariant holding, and a second `init` reverting. |
| `TokenSpec.ReinitAlwaysFails` | test/erc-compliance.js:83-99 | From an initialised valid state, after any sequence of calls, `init` reverts with AlreadyInitialized. |
| `TokenSpec.SetTokenPorter` | test/erc-compliance.js:76-125 | Succeeds exactly when the caller is the owner and the new porter is not 0x0, and then changes only the porter; otherwise reverts with Unauthorized (non-owner, e.g. alice) or InvalidAddress (0x0). |
| `TokenSpec.Mint` | test/erc-compliance.js:128-189 | Succeeds exactly when the caller is the minter or the porter (else Unauthorized); raises the recipient's balance and the total supply by exactly the amount, leaves other balances alone, and appends exactly `Mint(to, v)` then `Transfer(0x0, to, v)`. |
| `TokenSpec.Destroy` | test/erc-compliance.js:192-263 | From a valid state succeeds exactly when the caller is the converter or the porter and the holder has the amount (else Unauthorized / InsufficientBalance); lowers that balance and the supply by exactly the amount and appends exactly `Destroy(from, v)` then `Transfer(from, 0x0, v)`. |
| `TokenSpec.Transfer` | test/erc-compliance.js:282-356 | Succeeds exactly when the sender holds the amount and the recipient is neither the minter nor the contract (else InsufficientBalance / DisallowedRecipient); debits the sender and credits the recipient by the amount, leaves the supply and other balances alone, and appends exactly one `Transfer(from, to, v)`. |
| `TokenSpec.TransferWithData` | test/erc-compliance.js:375-435 | Succeeds exactly when the plain transfer does and the recipient's hook, called on the already-updated state, accepts; then has the plain transfer's effect and appends `Transfer`, the hook's place, and `TransferData` with the data, in that order; a failing hook reverts with CallbackFailed. |
| `TokenSpec.Approve` | test/erc-compliance.js:445-551 | Succeeds exactly when the spender is not the contract (else DisallowedSpender), for any value including 0; sets that allowance to the value whatever it was, leaves every other allowance and all balances alone, and appends exactly one `Approval(owner, spender, v)`. |
| `TokenSpec.ReapproveReplaces` | test/erc-compliance.js:476-492 | Approving a spender again without resetting to zero succeeds and leaves the allowance at the second value, independent of the first. |
| `TokenSpec.ApproveWithData` | test/erc-compliance.js:555-606 | Succeeds exactly when the plain approval does and the spender's hook accepts; then has the plain approval's effect and appends `Approval`, the hook's place, and `ApprovalData` with the data, in that order; a failing hook reverts with CallbackFailed. |
| `TokenSpec.TransferFrom` | test/erc-compliance.js:625-788 | Succeeds exactly when the amount is within both the caller's allowance from `from` and `from`'s balance (else InsufficientAllowance / InsufficientBalance, so a caller with no allowance, such as the contract or the minter, fails for any positive amount); moves the amount from `from` to `to`, lowers exactly that allowance by the amount, and appends one `Transfer`. |
| `TokenSpec.SpenderBalance` | test/erc-compliance.js:732-784 | After a delegated transfer by a spender other than `from`, the spender's balance is unchanged unless the spender is the recipient, in which case it grows by the amount. |
| `TokenSpec.TransferFromWithData` | test/erc-compliance.js:807-872 | Succeeds exactly when the plain delegated transfer does and the recipient's hook accepts; then has the plain effect and appends `Transfer`, the hook's place, and `TransferData`, in that order; a failing hook reverts with CallbackFailed. |
| `TokenSpec.StepKeepsLedger` | test/erc-compliance.js:165-169 | Any single call, committed or reverted, keeps the balances summing to the supply and never rewrites the log, the address, the owner or, once initialised, the identities set by `init`. |
| `TokenSpec.RunKeepsLedger` | test/erc-compliance.js:72-74 | Every state reachable from a valid one keeps the balances summing to the total supply, and extends rather than rewrites the earlier state's log and identities. |
| `Ledger.Credit` | test/erc-compliance.js:165-169 | Raises exactly one balance by the amount and the sum of balances by the same amount. |
| `Ledger.Debit` | test/erc-compliance.js:236-240 | Lowers exactly one balance by the amount and the sum of balances by the same amount. |
| `Ledger.Move` | test/erc-compliance.js:349-353 | Debits the sender and credits the recipient by the amount (no change when they coincide), touches no other balance, and keeps the sum. |
| `Ledger.SumBound` | test/erc-compliance.js:236-240 | No balance exceeds the sum of balances, so a destroy that the balance allows never underflows a valid supply. |
| `TokenContract.Token.constructor` | test/erc-compliance.js:63-74 | Deployment runs `init`: the new object is valid, initialised, and its storage is `Init` applied to a fresh deployment (supply S*M, all with the converter). |
| `TokenContract.Token.Init` | test/erc-compliance.js:83-99 | Settles as `TokenSpec.Init` and keeps the invariant. |
| `TokenContract.Token.SetTokenPorter` | test/erc-compliance.js:101-125 | Settles as `TokenSpec.SetTokenPorter` and keeps the invariant. |
| `TokenContract.Token.Mint` | test/erc-compliance.js:129-189 | Settles as `TokenSpec.Mint` and keeps the invariant. |
| `TokenContract.Token.Destroy` | test/erc-compliance.js:193-263 | Settles as `TokenSpec.Destroy` and keeps the invariant. |
| `TokenContract.Token.Transfer` | test/erc-compliance.js:282-356 | Settles as `TokenSpec.Transfer` and keeps the invariant. |
| `TokenContract.Token.TransferWithData` | test/erc-compliance.js:375-435 | Settles as `TokenSpec.TransferWithData`; on a failing hook the balances and log written so far are restored. |
| `TokenContract.Token.Approve` | test/erc-compliance.js:445-551 | Settles as `TokenSpec.Approve` and keeps the invariant. |
| `TokenContract.Token.ApproveWithData` | test/erc-compliance.js:555-606 | Settles as `TokenSpec.ApproveWithData`; on a failing hook the allowances and log are restored. |
| `TokenContract.Token.TransferFrom` | test/erc-compliance.js:625-788 | Settles as `TokenSpec.TransferFrom` and keeps the invariant. |
| `TokenContract.Token.TransferFromWithData` | test/erc-compliance.js:807-872 | Settles as `TokenSpec.TransferFromWithData`; on a failing hook the balances, allowances and log are restored. |
| `TokenContract.DelegatedTransferScenario` | test/erc-compliance.js:625-745 | With the porter minting five tokens (of 10^18 units) to alice and alice approving bob for one: bob moving two to charlie, which alice's balance covers, reverts with InsufficientAllowance, and moving exactly the allowance succeeds; afterwards alice has gained four tokens, charlie has gained the amount, bob's balance is unchanged, the allowance is zero, the supply has grown by the five minted tokens, and the invariant holds. |

## Left out

- Auctions and `mintInitialSupply` (test/erc-compliance.js:268-274): the founder-record encoding and share computation belong to another contract. In those tests the auction contract is the minter, so its seeding is a sequence of ordinary `Mint` calls; the lemmas about `Run` start from any valid state.
- ABI lookup and encoding (`findMethod`, `ethjs-abi`): transport, not ledger logic. The data-bearing calls are separate operations taking `data` as bytes.
- The receiver mock's own behaviour: a hook is an arbitrary function of the state, recipient and call; what it logs is reduced to one `HookRan` entry, and it cannot call back into the token (nested or reentrant calls are not modelled).
- The model always takes the hook step on a data-bearing call; a recipient without code is a hook that accepts.
- Gas, receipts other than the log, and the difference between a `.call` dry run and a sent transaction: the `.call` result is the returned `Status`.
- 256-bit amounts: balances and supply are unbounded `nat`, so `mint` and `init` cannot overflow. `Overflow` is kept only for the checked subtraction on the supply in `destroy`, which `TokenSpec.Destroy` shows cannot fire from a valid state.
- TokenSpec.Init: adds the initial supply to the existing supply and converter balance instead of overwriting them. From a fresh deployment, which is the only way `init` can succeed since the constructor runs it, the two agree (`DeploymentCreditsConverter`).
- Callers are plain addresses and may be 0x0 in the model. The host never sends from 0x0, so the case where an unset porter (0x0) matches the caller does not arise in practice.
- `init` checks no caller; the tests call it as the owner and observe only the re-initialisation failure.
- When two checks fail at once the revert cause follows the contract's design order (balance before recipient in `transfer`, allowance before balance in `transferFrom`). The tests only observe that the call throws.
- Events emitted by `setTokenPorter` or `init`, if any, are not modelled; the tests assert none.
