/** The withdrawal lockup along whole runs: it cannot be shortened and it cannot be shed by
    moving the shares to another address. */
module Lockup {
  import opened FixedPoint
  import opened Types
  import opened RiskMath
  import opened Evaluations
  import opened VaultLedger
  import opened Settlement
  import opened Ledger

  function ExpiryIn(w: World, user: nat): nat {
    Expiry(w.funds, user)
  }

  // ----- Which calls touch a lockup -----

  predicate KeepsLockups(before: Funds, r: Result<Funds>) {
    r.Ok? ==> r.value.vault.lockups == before.vault.lockups
  }

  lemma SettlementKeepsLockups(f: Funds, trader: nat, pos: Position, sizeDelta: int, collateralDelta: int,
                               ev: Evaluation, kind: CloseKind, executor: Option<nat>, cfg: Config)
    ensures KeepsLockups(f, SettleFunds(f, trader, pos, sizeDelta, collateralDelta, ev, kind, executor, cfg))
  {
    hide SettleFunds, SettleWithVault, SettleCollateral, SettleEscrow, Route;
    var r := Route(ev, collateralDelta, kind, cfg);
    SettleFundsInTwo(f, trader, pos, sizeDelta, collateralDelta, ev, kind, executor, cfg);
    var collateral := SettleCollateral(f, trader, sizeDelta, r, executor, cfg);
    CollateralKeepsLockups(f, trader, sizeDelta, r, executor, cfg);
    if collateral.Ok? {
      EscrowKeepsLockups(collateral.value, trader, kind, pos.escrow, executor, sizeDelta < pos.size, cfg);
    }
  }

  lemma VaultSideKeepsLockups(f: Funds, trader: nat, sizeDelta: int, r: Routing)
    ensures KeepsLockups(f, SettleWithVault(f, trader, sizeDelta, r))
  {
    hide Balance, FreeLiquidity, TotalAssets;
  }

  lemma CollateralKeepsLockups(f: Funds, trader: nat, sizeDelta: int, r: Routing, executor: Option<nat>,
                               cfg: Config)
    ensures KeepsLockups(f, SettleCollateral(f, trader, sizeDelta, r, executor, cfg))
  {
    hide Balance, SettleWithVault, NonLpSlice, TotalAssets;
    VaultSideKeepsLockups(f, trader, sizeDelta, r);
  }

  lemma EscrowKeepsLockups(f: Funds, trader: nat, kind: CloseKind, escrow: int, executor: Option<nat>,
                           isPartial: bool, cfg: Config)
    ensures KeepsLockups(f, SettleEscrow(f, trader, kind, escrow, executor, isPartial, cfg))
  {
  }

  lemma OpeningKeepsLockups(f: Funds, trader: nat, collateral: int, openFee: int, escrowOwed: int, size: int,
                            cfg: Config)
    ensures KeepsLockups(f, OpenFunds(f, trader, collateral, openFee, escrowOwed, size, cfg))
  {
  }

  predicate TouchesLockups(a: Action) {
    a.DoDeposit? || a.DoTransferShares?
  }

  lemma ClosesKeepLockups(w: World, a: Action)
    requires a.DoDecrease? || a.DoLiquidate? || a.DoDeleverage? || a.DoExecuteOrder?
    ensures Step(w, a).funds.vault.lockups == w.funds.vault.lockups
  {
    hide SettleFunds, Evaluate, LiquidationThreshold, AccruedMarket, BillingStart, BillingEnd, CollateralSlice,
         MarketAfterClose, PositionsAfterClose, HistoryAfterClose, SlipsOnClose, MarketUnrealizedPnl;
    forall f: Funds, trader: nat, pos: Position, size: int, slice: int, ev: Evaluation, kind: CloseKind,
      executor: Option<nat>, cfg: Config
      ensures KeepsLockups(f, SettleFunds(f, trader, pos, size, slice, ev, kind, executor, cfg))
    {
      SettlementKeepsLockups(f, trader, pos, size, slice, ev, kind, executor, cfg);
    }
  }

  lemma OthersKeepLockups(w: World, a: Action)
    requires !TouchesLockups(a)
    ensures Step(w, a).funds.vault.lockups == w.funds.vault.lockups
  {
    if a.DoDecrease? || a.DoLiquidate? || a.DoDeleverage? || a.DoExecuteOrder? {
      hide Step;
      ClosesKeepLockups(w, a);
    } else {
      hide OpenFunds, AccruedMarket, BillingStart, BillingEnd, IncreasedPosition, MarketAfterOpen, Traded, EscrowOwed,
           MarketUnrealizedPnl;
      forall f: Funds, trader: nat, c: int, fee: int, escrow: int, size: int, cfg: Config
        ensures KeepsLockups(f, OpenFunds(f, trader, c, fee, escrow, size, cfg))
      {
        OpeningKeepsLockups(f, trader, c, fee, escrow, size, cfg);
      }
    }
  }

  // ----- One step -----

  lemma StepTime(w: World, a: Action)
    ensures Step(w, a).now == if a.DoAdvanceTime? then w.now + a.seconds else w.now
  {
    hide SettleFunds, OpenFunds, Evaluate, LiquidationThreshold, AccruedMarket, BillingStart, BillingEnd,
         MarketAfterClose, PositionsAfterClose, HistoryAfterClose, IncreasedPosition, MarketAfterOpen, Traded;
  }

  /** The lockup of `user` after one call: restarted by an own deposit, raised to the
      sender's running lockup by a share transfer, and otherwise untouched. */
  lemma LockupAfter(w: World, a: Action, user: nat)
    ensures ExpiryIn(Step(w, a), user) ==
              match a
              case DoDeposit(depositor, _, env) =>
                if depositor == user && Call(w, a).Ok? then w.now + env.cfg.cooldown else ExpiryIn(w, user)
              case DoTransferShares(from, to) =>
                if to == user && ExpiryIn(w, from) > w.now then Max(ExpiryIn(w, from), ExpiryIn(w, user))
                else ExpiryIn(w, user)
              case _ => ExpiryIn(w, user)
  {
    if !TouchesLockups(a) {
      OthersKeepLockups(w, a);
      hide Step;
    }
  }

  // ----- Lockups never shorten -----

  /** Deposit cooldowns never fall along the run, starting from `cooldown`. A fixed cooldown
      is the special case. */
  predicate CooldownsNeverFall(actions: seq<Action>, cooldown: nat)
    decreases |actions|
  {
    actions == [] ||
    (cooldown <= CooldownAfter(actions[0], cooldown)
     && CooldownsNeverFall(actions[1..], CooldownAfter(actions[0], cooldown)))
  }

  function CooldownAfter(a: Action, cooldown: nat): nat {
    if a.DoDeposit? then a.env.cfg.cooldown else cooldown
  }

  ghost predicate LockedWithin(w: World, cooldown: nat) {
    forall u: nat :: ExpiryIn(w, u) <= w.now + cooldown
  }

  lemma LockedWithinAfter(w: World, a: Action, cooldown: nat)
    requires LockedWithin(w, cooldown) && cooldown <= CooldownAfter(a, cooldown)
    ensures LockedWithin(Step(w, a), CooldownAfter(a, cooldown))
  {
    hide Step, ExpiryIn;
    StepTime(w, a);
    forall u: nat
      ensures ExpiryIn(Step(w, a), u) <= Step(w, a).now + CooldownAfter(a, cooldown)
    {
      LockupAfter(w, a, u);
      assert a.DoTransferShares? ==> ExpiryIn(w, a.from) <= w.now + cooldown;
    }
  }

  /** A deposit replaces the stored expiry, whatever it was. It shortens no lockup exactly
      when the stored one ends no later than the new one. */
  lemma DepositShortensIff(w: World, user: nat, assets: int, env: Env)
    requires Call(w, DoDeposit(user, assets, env)).Ok?
    ensures ExpiryIn(Step(w, DoDeposit(user, assets, env)), user) < ExpiryIn(w, user)
            <==> w.now + env.cfg.cooldown < ExpiryIn(w, user)
  {
    LockupAfter(w, DoDeposit(user, assets, env), user);
  }

  /** With a cooldown that was lowered in between, a second deposit does shorten it. */
  lemma LoweredCooldownShortens()
    returns (w: World, user: nat, first: Action, second: Action)
    ensures Initial(w) && first.Valid() && second.Valid()
    ensures first.DoDeposit? && second.DoDeposit? && first.user == second.user == user
    ensures ExpiryIn(Run(w, [first, second]), user) < ExpiryIn(Run(w, [first]), user)
  {
    var vault := VaultState(0, 0, 0, false, map[]);
    var pm := ManagerState(map[], map[], map[], 0, 0, false, 0, 0, map[], {});
    user := 0;
    w := World(0, Funds(map[User(0) := 2], vault), pm, EMPTY_HISTORY);
    var cfg := Config(0, 0, 0, 0, 0, 1, 100, 0, 1, 0, 5_000, 1, 0, 0, 0, 0, 1, 0);
    first := DoDeposit(0, 1, Env(cfg, None));
    second := DoDeposit(0, 1, Env(cfg.(cooldown := 0), None));
    var w1 := Step(w, first);
    var w2 := Step(w1, second);
    assert w1.funds.balances[User(0)] == 1 && ExpiryIn(w1, 0) == 100;
    assert ExpiryIn(w2, 0) == 0;
    assert Run(w, [first]) == Run(w1, [first][1..]) == w1;
    assert [first, second][1..] == [second];
    assert Run(w1, [second]) == Run(w2, [second][1..]) == w2;
  }

  /** No address's lockup is ever shortened while cooldowns do not fall. */
  lemma {:induction false} LockupNeverShortens(w: World, actions: seq<Action>, cooldown: nat, user: nat)
    requires CooldownsNeverFall(actions, cooldown) && LockedWithin(w, cooldown)
    ensures ExpiryIn(Run(w, actions), user) >= ExpiryIn(w, user)
    decreases |actions|
  {
    hide Step, ExpiryIn;
    if actions != [] {
      LockedWithinAfter(w, actions[0], cooldown);
      LockupAfter(w, actions[0], user);
      LockupNeverShortens(Step(w, actions[0]), actions[1..], CooldownAfter(actions[0], cooldown), user);
    }
  }

  // ----- Lockups cannot be shed -----

  /** The addresses the shares of `holders` flowed to: whoever received a share transfer
      from one of them, directly or along a chain, before `expiry`. */
  function Reached(w: World, holders: set<nat>, expiry: nat, actions: seq<Action>): set<nat>
    decreases |actions|
  {
    if actions == [] then
      holders
    else
      var a := actions[0];
      var next := if a.DoTransferShares? && a.from in holders && w.now < expiry then holders + {a.to} else holders;
      Reached(Step(w, a), next, expiry, actions[1..])
  }

  ghost predicate AllLocked(w: World, users: set<nat>, expiry: nat) {
    forall u :: u in users ==> ExpiryIn(w, u) >= expiry
  }

  /** Everyone the shares reach is locked as long as those they came from. */
  lemma {:induction false} ReachedStaysLocked(w: World, holders: set<nat>, expiry: nat, actions: seq<Action>,
                                              cooldown: nat)
    requires CooldownsNeverFall(actions, cooldown) && LockedWithin(w, cooldown)
    requires AllLocked(w, holders, expiry)
    ensures AllLocked(Run(w, actions), Reached(w, holders, expiry, actions), expiry)
    decreases |actions|
  {
    hide Step, ExpiryIn;
    if actions != [] {
      var a := actions[0];
      var next := if a.DoTransferShares? && a.from in holders && w.now < expiry then holders + {a.to} else holders;
      LockedWithinAfter(w, a, cooldown);
      forall u | u in next
        ensures ExpiryIn(Step(w, a), u) >= expiry
      {
        LockupAfter(w, a, u);
        assert u in holders ==> ExpiryIn(w, u) <= w.now + cooldown;
      }
      ReachedStaysLocked(Step(w, a), next, expiry, actions[1..], CooldownAfter(a, cooldown));
    }
  }

  /** Some deposit of the run locks until `expiry` or later and its shares reached `user`. */
  predicate LockedByDeposit(w: World, actions: seq<Action>, user: nat, expiry: nat)
    decreases |actions|
  {
    && actions != []
    && var a, w' := actions[0], Step(w, actions[0]);
       || LockedByDeposit(w', actions[1..], user, expiry)
       || (a.DoDeposit? && Call(w, a).Ok? && w.now + a.env.cfg.cooldown >= expiry
           && user in Reached(w', {a.user}, w.now + a.env.cfg.cooldown, actions[1..]))
  }

  lemma {:induction false} DepositLocks(w: World, actions: seq<Action>, cooldown: nat, user: nat, expiry: nat)
    requires CooldownsNeverFall(actions, cooldown) && LockedWithin(w, cooldown)
    requires LockedByDeposit(w, actions, user, expiry)
    ensures ExpiryIn(Run(w, actions), user) >= expiry
    decreases |actions|
  {
    hide Step, ExpiryIn, Reached, Call;
    var a, w' := actions[0], Step(w, actions[0]);
    LockedWithinAfter(w, a, cooldown);
    if LockedByDeposit(w', actions[1..], user, expiry) {
      DepositLocks(w', actions[1..], CooldownAfter(a, cooldown), user, expiry);
    } else {
      LockupAfter(w, a, a.user);
      ReachedStaysLocked(w', {a.user}, w.now + a.env.cfg.cooldown, actions[1..], a.env.cfg.cooldown);
    }
  }

  lemma {:induction false} ReachedMonotone(w: World, fewer: set<nat>, more: set<nat>, expiry: nat,
                                           actions: seq<Action>)
    requires fewer <= more
    ensures Reached(w, fewer, expiry, actions) <= Reached(w, more, expiry, actions)
    decreases |actions|
  {
    hide Step;
    if actions != [] {
      var a := actions[0];
      var passes := a.DoTransferShares? && w.now < expiry;
      ReachedMonotone(Step(w, a), if passes && a.from in fewer then fewer + {a.to} else fewer,
                      if passes && a.from in more then more + {a.to} else more, expiry, actions[1..]);
    }
  }

  /** Every lockup comes from somewhere: from an address that had it at the start, or from
      a deposit of the run, along a chain of transfers. */
  lemma {:induction false} LockupHasOrigin(w: World, actions: seq<Action>, user: nat)
    returns (fromDeposit: bool, holder: nat)
    ensures fromDeposit ==> LockedByDeposit(w, actions, user, ExpiryIn(Run(w, actions), user))
    ensures !fromDeposit ==>
              && ExpiryIn(w, holder) == ExpiryIn(Run(w, actions), user)
              && user in Reached(w, {holder}, ExpiryIn(w, holder), actions)
    decreases |actions|
  {
    hide Step, ExpiryIn, Call;
    if actions == [] {
      fromDeposit, holder := false, user;
    } else {
      var a, w', rest := actions[0], Step(w, actions[0]), actions[1..];
      var expiry := ExpiryIn(Run(w, actions), user);
      fromDeposit, holder := LockupHasOrigin(w', rest, user);
      if !fromDeposit {
        LockupAfter(w, a, holder);
        if a.DoDeposit? && a.user == holder && Call(w, a).Ok? {
          fromDeposit := true;
        } else if ExpiryIn(w, holder) == expiry {
          ReachedMonotone(w', {holder},
                          if a.DoTransferShares? && a.from == holder && w.now < expiry then {holder} + {a.to}
                          else {holder},
                          expiry, rest);
        } else {
          ReachedMonotone(w', {holder}, {a.from} + {a.to}, expiry, rest);
          holder := a.from;
        }
      }
    }
  }

  lemma {:induction false} LockedByDepositEarlier(w: World, actions: seq<Action>, user: nat, later: nat,
                                                  earlier: nat)
    requires earlier <= later && LockedByDeposit(w, actions, user, later)
    ensures LockedByDeposit(w, actions, user, earlier)
    decreases |actions|
  {
    hide Step, Reached, Call;
    if LockedByDeposit(Step(w, actions[0]), actions[1..], user, later) {
      LockedByDepositEarlier(Step(w, actions[0]), actions[1..], user, later, earlier);
    }
  }

  /** Starting without lockups, an address is locked until `expiry` exactly when a deposit
      with at least that expiry reached it: no chain of transfers sheds a lockup, and none
      invents one. */
  lemma LockedExactlyByDeposits(w: World, actions: seq<Action>, user: nat, expiry: nat)
    requires w.funds.vault.lockups == map[] && CooldownsNeverFall(actions, 0) && expiry > 0
    ensures ExpiryIn(Run(w, actions), user) >= expiry <==> LockedByDeposit(w, actions, user, expiry)
  {
    hide Step, Reached, Call, LockedByDeposit, Run;
    if LockedByDeposit(w, actions, user, expiry) {
      DepositLocks(w, actions, 0, user, expiry);
    }
    if ExpiryIn(Run(w, actions), user) >= expiry {
      var fromDeposit, _ := LockupHasOrigin(w, actions, user);
      assert fromDeposit;
      LockedByDepositEarlier(w, actions, user, ExpiryIn(Run(w, actions), user), expiry);
    }
  }

  /** While the vault runs, a withdrawal is refused for its lockup exactly when the shares of
      a deposit that is still locked reached the owner. */
  lemma WithdrawalLockedExactly(w: World, actions: seq<Action>, owner: nat, receiver: Address, assets: int)
    requires w.funds.vault.lockups == map[] && CooldownsNeverFall(actions, 0)
    requires !Run(w, actions).funds.vault.paused
    ensures Call(Run(w, actions), DoWithdraw(owner, receiver, assets)) == Err(CooldownNotElapsed)
            <==> LockedByDeposit(w, actions, owner, Run(w, actions).now + 1)
  {
    hide Step, Reached, LockedByDeposit, Run;
    LockedExactlyByDeposits(w, actions, owner, Run(w, actions).now + 1);
  }
}
