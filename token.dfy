/**
 The token contract as an object: its storage is a set of fields that each
 public call updates in place, and a call that fails part-way (a failing
 recipient hook) puts back what it had already written. Every method is
 proved to do exactly what the matching function of `TokenSpec` prescribes,
 and to keep the balances summing to the total supply.
 */
module TokenContract {
  import opened Ledger
  import opened TokenEvents
  import opened TokenSpec

  /** What a call returns: success, or the cause of the revert. */
  datatype Status = Ok | Err(error: Error)

  /**
   A call that returned `r` and left storage `after` did what `outcome`
   prescribes for storage `before`: on success the new state, on a revert
   the old state untouched.
   */
  ghost predicate Settles(before: State, outcome: Outcome, r: Status, after: State) {
    match outcome
    case Done(t) => r == Ok && after == t
    case Reverted(e) => r == Err(e) && after == before
  }

  class Token {
    const address: Addr
    const owner: Addr
    var autonomousConverter: Addr
    var minter: Addr
    var decimalsMultiplier: nat
    var tokenPorter: Addr
    var initialized: bool
    var balances: map<Addr, nat>
    var totalSupply: nat
    var allowances: map<(Addr, Addr), nat>
    var events: seq<Event>

    /** The contract's storage as a value. */
    function View(): (s: State)
      reads this
    {
      State(address, owner, autonomousConverter, minter, decimalsMultiplier, tokenPorter,
            initialized, balances, totalSupply, allowances, events)
    }

    ghost predicate Valid()
      reads this
    {
      View().Valid()
    }

    /**
     Deployment by `owner` at `address`: the constructor runs `init`, so the
     new contract holds `initialSupply * decimalsMultiplier` tokens, all of
     them with the converter.
     */
    constructor (address: Addr, owner: Addr, autonomousConverter: Addr, minter: Addr,
                 initialSupply: nat, decimalsMultiplier: nat)
      ensures Valid()
      ensures TokenSpec.Init(Deployed(address, owner), autonomousConverter, minter, initialSupply, decimalsMultiplier) == Done(View())
      ensures initialized && this.minter == minter && this.autonomousConverter == autonomousConverter
      ensures totalSupply == initialSupply * decimalsMultiplier
      ensures Get(balances, autonomousConverter) == totalSupply
    {
      this.address, this.owner := address, owner;
      this.autonomousConverter, this.minter, this.decimalsMultiplier := Null, Null, 0;
      tokenPorter, initialized := Null, false;
      balances, totalSupply, allowances, events := map[], 0, map[], [];
      new;
      var r := Init(autonomousConverter, minter, initialSupply, decimalsMultiplier);
    }

    method Init(autonomousConverter: Addr, minter: Addr, initialSupply: nat, decimalsMultiplier: nat) returns (r: Status)
      requires Valid()
      modifies this
      ensures Valid()
      ensures Settles(old(View()), TokenSpec.Init(old(View()), autonomousConverter, minter, initialSupply, decimalsMultiplier), r, View())
    {
      ghost var spec := TokenSpec.Init(View(), autonomousConverter, minter, initialSupply, decimalsMultiplier);
      if initialized {
        return Err(AlreadyInitialized);
      }
      this.autonomousConverter := autonomousConverter;
      this.minter := minter;
      this.decimalsMultiplier := decimalsMultiplier;
      var supply := initialSupply * decimalsMultiplier;
      totalSupply := totalSupply + supply;
      balances := balances[autonomousConverter := Get(balances, autonomousConverter) + supply];
      initialized := true;
      assert View() == spec.state;
      r := Ok;
    }

    method SetTokenPorter(caller: Addr, newPorter: Addr) returns (r: Status)
      requires Valid()
      modifies this
      ensures Valid()
      ensures Settles(old(View()), TokenSpec.SetTokenPorter(old(View()), caller, newPorter), r, View())
    {
      if caller != owner {
        return Err(Unauthorized);
      }
      if newPorter == Null {
        return Err(InvalidAddress);
      }
      tokenPorter := newPorter;
      r := Ok;
    }

    method Mint(caller: Addr, to: Addr, value: nat) returns (r: Status)
      requires Valid()
      modifies this
      ensures Valid()
      ensures Settles(old(View()), TokenSpec.Mint(old(View()), caller, to, value), r, View())
    {
      ghost var spec := TokenSpec.Mint(View(), caller, to, value);
      if caller != minter && caller != tokenPorter {
        return Err(Unauthorized);
      }
      totalSupply := totalSupply + value;
      balances := balances[to := Get(balances, to) + value];
      events := events + [Event.Mint(to, value)];
      events := events + [Event.Transfer(Null, to, value)];
      assert View() == spec.state;
      r := Ok;
    }

    method Destroy(caller: Addr, from: Addr, value: nat) returns (r: Status)
      requires Valid()
      modifies this
      ensures Valid()
      ensures Settles(old(View()), TokenSpec.Destroy(old(View()), caller, from, value), r, View())
    {
      ghost var spec := TokenSpec.Destroy(View(), caller, from, value);
      if caller != autonomousConverter && caller != tokenPorter {
        return Err(Unauthorized);
      }
      if Get(balances, from) < value {
        return Err(InsufficientBalance);
      }
      if totalSupply < value {
        return Err(Overflow);
      }
      balances := balances[from := Get(balances, from) - value];
      totalSupply := totalSupply - value;
      events := events + [Event.Destroy(from, value)];
      events := events + [Event.Transfer(from, Null, value)];
      assert View() == spec.state;
      r := Ok;
    }

    method Transfer(caller: Addr, to: Addr, value: nat) returns (r: Status)
      requires Valid()
      modifies this
      ensures Valid()
      ensures Settles(old(View()), TokenSpec.Transfer(old(View()), caller, to, value), r, View())
    {
      ghost var spec := TokenSpec.Transfer(View(), caller, to, value);
      if Get(balances, caller) < value {
        return Err(InsufficientBalance);
      }
      if to == minter || to == address {
        return Err(DisallowedRecipient);
      }
      balances := balances[caller := Get(balances, caller) - value];
      balances := balances[to := Get(balances, to) + value];
      events := events + [Event.Transfer(caller, to, value)];
      assert View() == spec.state;
      r := Ok;
    }

    /**
     The plain transfer, then the recipient's hook on the updated storage,
     then the extended event; a failing hook restores balances and log.
     */
    method TransferWithData(caller: Addr, to: Addr, value: nat, data: Bytes, hook: Hook) returns (r: Status)
      requires Valid()
      modifies this
      ensures Valid()
      ensures Settles(old(View()), TokenSpec.TransferWithData(old(View()), caller, to, value, data, hook), r, View())
    {
      var savedBalances, savedEvents := balances, events;
      r := Transfer(caller, to, value);
      if r.Err? {
        return;
      }
      var call := OnTokenTransfer(caller, value, data);
      var accepted := hook(View(), to, call);
      events := events + [Event.HookRan(to, call)];
      if !accepted {
        balances, events := savedBalances, savedEvents;
        return Err(CallbackFailed);
      }
      events := events + [Event.TransferData(caller, to, value, data)];
    }

    method Approve(caller: Addr, spender: Addr, value: nat) returns (r: Status)
      requires Valid()
      modifies this
      ensures Valid()
      ensures Settles(old(View()), TokenSpec.Approve(old(View()), caller, spender, value), r, View())
    {
      if spender == address {
        return Err(DisallowedSpender);
      }
      allowances := allowances[(caller, spender) := value];
      events := events + [Event.Approval(caller, spender, value)];
      r := Ok;
    }

    /**
     The plain approval, then the spender's hook on the updated storage,
     then the extended event; a failing hook restores allowances and log.
     */
    method ApproveWithData(caller: Addr, spender: Addr, value: nat, data: Bytes, hook: Hook) returns (r: Status)
      requires Valid()
      modifies this
      ensures Valid()
      ensures Settles(old(View()), TokenSpec.ApproveWithData(old(View()), caller, spender, value, data, hook), r, View())
    {
      var savedAllowances, savedEvents := allowances, events;
      r := Approve(caller, spender, value);
      if r.Err? {
        return;
      }
      var call := OnTokenApprove(caller, value, data);
      var accepted := hook(View(), spender, call);
      events := events + [Event.HookRan(spender, call)];
      if !accepted {
        allowances, events := savedAllowances, savedEvents;
        return Err(CallbackFailed);
      }
      events := events + [Event.ApprovalData(caller, spender, value, data)];
    }

    method TransferFrom(caller: Addr, from: Addr, to: Addr, value: nat) returns (r: Status)
      requires Valid()
      modifies this
      ensures Valid()
      ensures Settles(old(View()), TokenSpec.TransferFrom(old(View()), caller, from, to, value), r, View())
    {
      ghost var spec := TokenSpec.TransferFrom(View(), caller, from, to, value);
      var allowed := Get(allowances, (from, caller));
      if allowed < value {
        return Err(InsufficientAllowance);
      }
      if Get(balances, from) < value {
        return Err(InsufficientBalance);
      }
      balances := balances[from := Get(balances, from) - value];
      balances := balances[to := Get(balances, to) + value];
      allowances := allowances[(from, caller) := allowed - value];
      events := events + [Event.Transfer(from, to, value)];
      assert View() == spec.state;
      r := Ok;
    }

    /**
     The plain delegated transfer, then the recipient's hook on the updated
     storage, then the extended event; a failing hook restores balances,
     allowances and log.
     */
    method TransferFromWithData(caller: Addr, from: Addr, to: Addr, value: nat, data: Bytes, hook: Hook) returns (r: Status)
      requires Valid()
      modifies this
      ensures Valid()
      ensures Settles(old(View()), TokenSpec.TransferFromWithData(old(View()), caller, from, to, value, data, hook), r, View())
    {
      var savedBalances, savedAllowances, savedEvents := balances, allowances, events;
      r := TransferFrom(caller, from, to, value);
      if r.Err? {
        return;
      }
      var call := OnTokenTransfer(from, value, data);
      var accepted := hook(View(), to, call);
      events := events + [Event.HookRan(to, call)];
      if !accepted {
        balances, allowances, events := savedBalances, savedAllowances, savedEvents;
        return Err(CallbackFailed);
      }
      events := events + [Event.TransferData(from, to, value, data)];
    }
  }

  /**
   A client run in the order of the delegated-transfer tests: the porter
   mints five tokens to alice, alice approves bob for one, then bob tries to
   move two (within alice's balance, so only the allowance is short, and it
   reverts) and then exactly the allowance to charlie, which uses it up
   without touching bob's balance.
   */
  method DelegatedTransferScenario(t: Token, alice: Addr, bob: Addr, charlie: Addr)
    returns (overspend: Status, spend: Status)
    requires t.Valid() && t.initialized && t.tokenPorter != Null
    requires alice != bob && alice != charlie && bob != charlie && t.address != bob
    modifies t
    ensures t.Valid()
    ensures overspend == Err(InsufficientAllowance) && spend == Ok
    ensures t.View().BalanceOf(alice) == old(t.View().BalanceOf(alice)) + 4 * 1_000_000_000_000_000_000
    ensures t.View().BalanceOf(charlie) == old(t.View().BalanceOf(charlie)) + 1_000_000_000_000_000_000
    ensures t.View().BalanceOf(bob) == old(t.View().BalanceOf(bob))
    ensures t.View().Allowance(alice, bob) == 0
    ensures t.totalSupply == old(t.totalSupply) + 5 * 1_000_000_000_000_000_000
  {
    var unit := 1_000_000_000_000_000_000;
    var r := t.Mint(t.tokenPorter, alice, 5 * unit);
    assert r == Ok;
    r := t.Approve(alice, bob, unit);
    assert r == Ok && t.View().Allowance(alice, bob) == unit;

    assert t.View().BalanceOf(alice) >= 2 * unit;
    overspend := t.TransferFrom(bob, alice, charlie, 2 * unit);
    spend := t.TransferFrom(bob, alice, charlie, unit);
  }
}
