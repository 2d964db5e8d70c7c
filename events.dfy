/**
 What a call of the token contract leaves in its transaction receipt.
 */
module TokenEvents {
  import opened Ledger

  type Bytes = seq<bv8>

  /**
   The notification a data-bearing call sends to its recipient or spender:
   who caused it, the amount, and the caller's `data`. The `data` may itself
   be an encoded call for the receiver (an `onTokenTransfer(n)` whose `n` the
   receiver logs), so a hook is free to act on `data` alone.
   */
  datatype HookCall =
    | OnTokenTransfer(sender: Addr, value: nat, data: Bytes)
    | OnTokenApprove(owner: Addr, value: nat, data: Bytes)

  /**
   The log of a call's receipt. All cases but `HookRan` are the token's own
   events; `HookRan` marks the place in the receipt where the recipient's
   hook ran (what the hook itself logs is not modelled).
   */
  datatype Event =
    | Transfer(from: Addr, to: Addr, value: nat)
    | TransferData(from: Addr, to: Addr, value: nat, data: Bytes)
    | Approval(owner: Addr, spender: Addr, value: nat)
    | ApprovalData(owner: Addr, spender: Addr, value: nat, data: Bytes)
    | Mint(to: Addr, value: nat)
    | Destroy(from: Addr, value: nat)
    | HookRan(target: Addr, call: HookCall)
}
