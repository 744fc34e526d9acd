/** Token, staking, oracle and dispute contracts as one system, and its runs. */
module System {
  import opened Common
  import opened Sums
  import T = Token
  import opened Staking
  import opened Oracle
  import opened Dispute

  datatype Sys = Sys(world: World, desk: Desk, court: Court)

  datatype Call =
    | TokenMint(to: Address, amount: nat)
    | TokenTransfer(to: Address, amount: nat)
    | TokenDelegate(delegatee: Address)
    | TokenDelegateBySig(signatory: Address, delegatee: Address, nonce: nat, expiry: nat)
    | TokenOwner(newOwner: Address)
    | TokenRenounce
    | StakeCall(amount: nat)
    | WithdrawCall(amount: nat)
    | MineCall(miner: Address)
    | MineAndStakeCall(miner: Address)
    | SetMinerReward(reward: nat)
    | SetMinimumStake(minimum: nat)
    | SetOracleContract(addr: Address)
    | SetDisputeContract(addr: Address)
    | StakingOwner(newOwner: Address)
    | StakingRenounce
    | SlashCall(accused: Address, recipients: seq<Address>)
    | RequestCall
    | CancelCall(id: nat)
    | SubmitCall(id: nat)
    | BeginCall(accused: Address, requestID: nat)
    | VoteCall(dispute: DisputeId, voteStatus: bool)
    | FinishCall(dispute: DisputeId)

  datatype Step = Step(sender: Address, block: nat, now: nat, call: Call)

  /** The three contracts make no calls of their own other than those inside the operations below. */
  predicate External(y: Sys, sender: Address) {
    sender != ZERO_ADDRESS && sender != y.world.pool.self && sender != y.desk.self && sender != y.court.self
  }

  function WithToken(y: Sys, t: Option<T.State>): Option<Sys> {
    match t case None => None case Some(token) => Some(y.(world := y.world.(token := token)))
  }

  function WithWorld(y: Sys, w: Option<World>): Option<Sys> {
    match w case None => None case Some(world) => Some(y.(world := world))
  }

  function WithPool(y: Sys, p: Option<Pool>): Option<Sys> {
    match p case None => None case Some(pool) => Some(y.(world := y.world.(pool := pool)))
  }

  function WithDesk(y: Sys, d: Option<Desk>): Option<Sys> {
    match d case None => None case Some(desk) => Some(y.(desk := desk))
  }

  function WithCourt(y: Sys, c: Option<Court>): Option<Sys> {
    match c case None => None case Some(court) => Some(y.(court := court))
  }

  function OwnerSets(y: Sys, sender: Address, valid: bool, pool: Pool): Option<Sys> {
    if sender != y.world.pool.owner || !valid then None else Some(y.(world := y.world.(pool := pool)))
  }

  function Exec(y: Sys, st: Step): Option<Sys> {
    var w, p, sender := y.world, y.world.pool, st.sender;
    if !External(y, sender) then None
    else match st.call
      case TokenMint(to, amount) => WithToken(y, T.Mint(w.token, sender, to, amount, st.block))
      case TokenTransfer(to, amount) => WithToken(y, T.Transfer(w.token, sender, to, amount))
      case TokenDelegate(delegatee) => WithToken(y, T.Delegate(w.token, sender, delegatee, st.block))
      case TokenDelegateBySig(signatory, delegatee, nonce, expiry) =>
        WithToken(y, T.DelegateBySig(w.token, signatory, delegatee, nonce, expiry, st.now, st.block))
      case TokenOwner(newOwner) => WithToken(y, if sender == w.token.owner && newOwner != ZERO_ADDRESS then Some(w.token.(owner := newOwner)) else None)
      case TokenRenounce => WithToken(y, if sender == w.token.owner then Some(w.token.(owner := ZERO_ADDRESS)) else None)
      case StakeCall(amount) => WithWorld(y, StakeTokens(w, sender, amount, st.block))
      case WithdrawCall(amount) => WithWorld(y, Withdraw(w, sender, amount))
      case MineCall(miner) => WithWorld(y, Mine(w, sender, miner, st.block))
      case MineAndStakeCall(miner) => WithWorld(y, MineAndStake(w, sender, miner, st.block))
      case SetMinerReward(reward) => OwnerSets(y, sender, reward > 0, p.(minerReward := reward))
      case SetMinimumStake(minimum) => OwnerSets(y, sender, minimum > 0, p.(minimumStake := minimum))
      case SetOracleContract(addr) => OwnerSets(y, sender, addr != ZERO_ADDRESS, p.(oracle := addr))
      case SetDisputeContract(addr) => OwnerSets(y, sender, addr != ZERO_ADDRESS, p.(dispute := addr))
      case StakingOwner(newOwner) => OwnerSets(y, sender, newOwner != ZERO_ADDRESS, p.(owner := newOwner))
      case StakingRenounce => OwnerSets(y, sender, true, p.(owner := ZERO_ADDRESS))
      case SlashCall(accused, recipients) => WithPool(y, SlashMiner(p, sender, accused, recipients))
      case RequestCall => WithDesk(y, RequestOracles(y.desk, sender, st.now))
      case CancelCall(id) => WithDesk(y, CancelOracleRequest(y.desk, sender, id))
      case SubmitCall(id) =>
        (match SubmitOracleRequest(y.desk, w, sender, id, st.now, st.block)
         case None => None
         case Some((desk, world)) => Some(y.(desk := desk, world := world)))
      case BeginCall(accused, requestID) => WithCourt(y, BeginDispute(y.court, p, sender, accused, requestID, st.now))
      case VoteCall(dispute, voteStatus) => WithCourt(y, Vote(y.court, p, sender, dispute, voteStatus))
      case FinishCall(dispute) =>
        (match FinishDispute(y.court, p, sender, dispute, st.now)
         case None => None
         case Some((court, pool)) => Some(y.(court := court, world := w.(pool := pool))))
  }

  function After(y: Sys, st: Step): Sys {
    match Exec(y, st) case Some(y') => y' case None => y
  }

  /** The system after the first t calls of a run. */
  function At(y: Sys, steps: seq<Step>, t: nat): Sys
    requires t <= |steps|
  {
    if t == 0 then y else After(At(y, steps, t - 1), steps[t - 1])
  }

  predicate Succeeds(y: Sys, steps: seq<Step>, i: nat)
    requires i < |steps|
  {
    Exec(At(y, steps, i), steps[i]).Some?
  }

  /** As deployed: no tokens, stakes, requests or disputes; owners and parameters are arbitrary. */
  predicate Deployed(y: Sys) {
    && y.world.token.balances == map[] && y.world.token.totalSupply == 0
    && y.world.pool.miners == map[] && y.world.pool.totalStake == 0
    && y.desk.counter == 0 && y.desk.pending == map[]
    && y.court.disputes == map[]
  }

  // ----- the stake ledger -----

  lemma DelegateKeepsFields(s: T.State, delegator: Address, delegatee: Address, block: nat)
    requires T.Delegate(s, delegator, delegatee, block).Some?
    ensures var s' := T.Delegate(s, delegator, delegatee, block).value;
            s'.owner == s.owner && s'.balances == s.balances && s'.totalSupply == s.totalSupply
  {
    hide T.MoveDelegates;
    T.MoveKeepsFields(s.(delegates := s.delegates[delegator := delegatee]), T.DelegateOf(s, delegator), delegatee,
                    Get(s.balances, delegator), block);
  }

  lemma MintBalances(s: T.State, sender: Address, to: Address, amount: nat, block: nat)
    requires T.Mint(s, sender, to, amount, block).Some?
    ensures var s' := T.Mint(s, sender, to, amount, block).value;
            && s'.balances == s.balances[to := Get(s.balances, to) + amount]
            && s'.totalSupply == s.totalSupply + amount <= MAX_UINT256
            && Sum(s'.balances) == Sum(s.balances) + amount
            && s'.owner == s.owner
  {
    hide T.MoveDelegates, Sum;
    T.MoveKeepsFields(s.(totalSupply := s.totalSupply + amount, balances := s.balances[to := Get(s.balances, to) + amount]),
                    ZERO_ADDRESS, T.DelegateOf(s, to), amount, block);
    SumUpdate(s.balances, to, Get(s.balances, to) + amount);
  }

  lemma TransferBalances(s: T.State, from: Address, to: Address, amount: nat)
    requires T.Transfer(s, from, to, amount).Some?
    ensures var s' := T.Transfer(s, from, to, amount).value;
            && Sum(s'.balances) == Sum(s.balances) && s'.totalSupply == s.totalSupply && s'.owner == s.owner
            && (from != to ==> Get(s'.balances, to) == Get(s.balances, to) + amount
                               && Get(s'.balances, from) == Get(s.balances, from) - amount)
            && (forall a :: a != from && a != to ==> Get(s'.balances, a) == Get(s.balances, a))
  {
    hide Sum;
    var debited := s.balances[from := Get(s.balances, from) - amount];
    SumUpdate(s.balances, from, Get(s.balances, from) - amount);
    SumUpdate(debited, to, Get(debited, to) + amount);
  }

  lemma RewardedKeeps(w: World, sender: Address, miner: Address, to: Address, block: nat)
    requires Ledger(w) && Rewarded(w, sender, miner, to, block).Some?
    ensures var w' := Rewarded(w, sender, miner, to, block).value;
            && Ledger(w') && w'.pool == w.pool.(miners := w'.pool.miners)
            && Amount(w'.pool.miners, miner) == Amount(w.pool.miners, miner)
            && Get(w'.token.balances, w.pool.self) == Get(w.token.balances, w.pool.self) + if to == w.pool.self then w.pool.minerReward else 0
  {
    hide T.Mint, Sum;
    MintBalances(w.token, w.pool.self, to, w.pool.minerReward, block);
    SumSameAmounts(w.pool.miners, miner, InfoOf(w.pool.miners, miner).(lastRewardBlock := block));
  }

  lemma StakedSum(p: Pool, miner: Address, amount: nat)
    requires p.totalStake == Sum(Amounts(p.miners)) && Staked(p, miner, amount).Some?
    ensures var p' := Staked(p, miner, amount).value;
            p'.totalStake == Sum(Amounts(p'.miners)) == p.totalStake + amount
  {
    hide Sum, WithAmount;
    SumWithAmount(p.miners, miner, Amount(p.miners, miner) + amount);
  }

  lemma MineAndStakeKeeps(w: World, sender: Address, miner: Address, block: nat)
    requires Ledger(w) && MineAndStake(w, sender, miner, block).Some?
    ensures var w' := MineAndStake(w, sender, miner, block).value;
            && Ledger(w') && w'.pool.totalStake == w.pool.totalStake + w.pool.minerReward
            && w'.pool == w.pool.(miners := w'.pool.miners, totalStake := w'.pool.totalStake)
  {
    hide Rewarded, Sum;
    RewardedKeeps(w, sender, miner, w.pool.self, block);
    var w1 := Rewarded(w, sender, miner, w.pool.self, block).value;
    StakedSum(w1.pool, miner, w1.pool.minerReward);
  }

  lemma StakeKeeps(w: World, sender: Address, amount: nat, block: nat)
    requires Ledger(w) && sender != w.pool.self && StakeTokens(w, sender, amount, block).Some?
    ensures var w' := StakeTokens(w, sender, amount, block).value;
            && Ledger(w') && w'.pool.totalStake == w.pool.totalStake + amount
            && w'.pool == w.pool.(miners := w'.pool.miners, totalStake := w'.pool.totalStake)
  {
    hide T.Transfer, Sum;
    TransferBalances(w.token, sender, w.pool.self, amount);
    StakedSum(w.pool, sender, amount);
    var pool := Staked(w.pool, sender, amount).value;
    SumSameAmounts(pool.miners, sender, pool.miners[sender].(firstStakeBlock := Max(block, pool.startBlock)));
  }

  lemma WithdrawKeeps(w: World, sender: Address, amount: nat)
    requires Ledger(w) && sender != w.pool.self && Withdraw(w, sender, amount).Some?
    ensures var w' := Withdraw(w, sender, amount).value;
            && Ledger(w') && w'.pool.totalStake + amount == w.pool.totalStake
            && w'.pool == w.pool.(miners := w'.pool.miners, totalStake := w'.pool.totalStake)
  {
    hide T.Transfer, Sum, WithAmount;
    TransferBalances(w.token, w.pool.self, sender, amount);
    SumWithAmount(w.pool.miners, sender, Amount(w.pool.miners, sender) - amount);
  }

  lemma TokenKeeps(w: World, t: T.State)
    requires Ledger(w) && Sum(t.balances) == t.totalSupply <= MAX_UINT256
    requires Get(t.balances, w.pool.self) >= Get(w.token.balances, w.pool.self)
    ensures Ledger(w.(token := t))
  {
  }

  lemma SlashKeeps(w: World, sender: Address, accused: Address, rs: seq<Address>)
    requires Ledger(w) && SlashMiner(w.pool, sender, accused, rs).Some?
    ensures var p' := SlashMiner(w.pool, sender, accused, rs).value;
            Ledger(w.(pool := p')) && p' == w.pool.(miners := p'.miners)
  {
    hide SlashMiner, Sum;
    assert Get(w.token.balances, w.pool.self) <= Sum(w.token.balances) by { SumAtLeast(w.token.balances, w.pool.self); }
    SlashMinerIff(w.pool, sender, accused, rs);
  }

  /** What the total stake should have changed by: deposits and staked rewards in, withdrawals out. */
  function StakeChange(y: Sys, st: Step): int {
    if Exec(y, st).None? then 0
    else match st.call
      case StakeCall(amount) => amount
      case WithdrawCall(amount) => 0 - amount
      case MineAndStakeCall(_) => y.world.pool.minerReward
      case SubmitCall(_) => y.world.pool.minerReward
      case _ => 0
  }

  /** Every call of the system keeps the stake ledger. */
  lemma StepKeepsLedger(y: Sys, st: Step)
    requires Ledger(y.world)
    ensures Ledger(After(y, st).world)
    ensures After(y, st).world.pool.totalStake == y.world.pool.totalStake + StakeChange(y, st)
    ensures After(y, st).world.pool.self == y.world.pool.self
  {
    hide Ledger, T.Mint, T.Transfer, T.Delegate, T.DelegateBySig, StakeTokens, Withdraw, Mine, MineAndStake, SlashMiner,
         RequestOracles, CancelOracleRequest, BeginDispute, Vote;
    var w := y.world;
    if Exec(y, st).Some? {
      match st.call
      case TokenMint(to, amount) => TokenStepKeeps(y, st);
      case TokenTransfer(to, amount) => TokenStepKeeps(y, st);
      case TokenDelegate(delegatee) => TokenStepKeeps(y, st);
      case TokenDelegateBySig(_, _, _, _) => TokenStepKeeps(y, st);
      case TokenOwner(newOwner) => TokenStepKeeps(y, st);
      case TokenRenounce => TokenStepKeeps(y, st);
      case StakeCall(amount) => StakeKeeps(w, st.sender, amount, st.block);
      case WithdrawCall(amount) => WithdrawKeeps(w, st.sender, amount);
      case MineCall(miner) => MineKeeps(w, st.sender, miner, st.block);
      case MineAndStakeCall(miner) => MineAndStakeKeeps(w, st.sender, miner, st.block);
      case SlashCall(accused, recipients) => SlashKeeps(w, st.sender, accused, recipients);
      case SubmitCall(id) => MineAndStakeKeeps(w, y.desk.self, st.sender, st.block);
      case FinishCall(id) =>
        var d := CaseOf(y.court, id);
        if d.sum > 0 { SlashKeeps(w, y.court.self, d.miner, d.voted + [st.sender]); }
      case SetMinerReward(_) => ParametersKeep(w, After(y, st).world.pool);
      case SetMinimumStake(_) => ParametersKeep(w, After(y, st).world.pool);
      case SetOracleContract(_) => ParametersKeep(w, After(y, st).world.pool);
      case SetDisputeContract(_) => ParametersKeep(w, After(y, st).world.pool);
      case StakingOwner(_) => ParametersKeep(w, After(y, st).world.pool);
      case StakingRenounce => ParametersKeep(w, After(y, st).world.pool);
      case _ =>
    }
  }

  lemma ParametersKeep(w: World, p: Pool)
    requires Ledger(w) && p.self == w.pool.self && p.miners == w.pool.miners && p.totalStake == w.pool.totalStake
    ensures Ledger(w.(pool := p))
  {
  }

  lemma MineKeeps(w: World, sender: Address, miner: Address, block: nat)
    requires Ledger(w) && Mine(w, sender, miner, block).Some?
    ensures var w' := Mine(w, sender, miner, block).value;
            Ledger(w') && w'.pool == w.pool.(miners := w'.pool.miners)
  {
    RewardedKeeps(w, sender, miner, miner, block);
  }

  lemma TokenStepKeeps(y: Sys, st: Step)
    requires Ledger(y.world) && Exec(y, st).Some?
    requires st.call.TokenMint? || st.call.TokenTransfer? || st.call.TokenDelegate? || st.call.TokenDelegateBySig?
             || st.call.TokenOwner? || st.call.TokenRenounce?
    ensures Ledger(After(y, st).world) && After(y, st).world.pool == y.world.pool
  {
    hide T.Mint, T.Transfer, T.MoveDelegates, Sum;
    var t := y.world.token;
    match st.call {
      case TokenMint(to, amount) => MintBalances(t, st.sender, to, amount, st.block);
      case TokenTransfer(to, amount) => TransferBalances(t, st.sender, to, amount);
      case TokenDelegate(delegatee) => DelegateKeepsFields(t, st.sender, delegatee, st.block);
      case TokenDelegateBySig(signatory, delegatee, nonce, _) =>
        DelegateKeepsFields(t.(nonces := t.nonces[signatory := nonce + 1]), signatory, delegatee, st.block);
      case TokenOwner(_) =>
      case TokenRenounce =>
    }
    TokenKeeps(y.world, After(y, st).world.token);
  }

  lemma DeployedLedger(y: Sys)
    requires Deployed(y)
    ensures Ledger(y.world)
  {
  }

  lemma {:induction false} LedgerAlways(y: Sys, steps: seq<Step>, t: nat)
    requires Deployed(y) && t <= |steps|
    ensures Ledger(At(y, steps, t).world)
    ensures At(y, steps, t).world.pool.self == y.world.pool.self
  {
    hide Exec, Ledger, Deployed;
    if t == 0 {
      DeployedLedger(y);
    } else {
      LedgerAlways(y, steps, t - 1);
      StepKeepsLedger(At(y, steps, t - 1), steps[t - 1]);
    }
  }

  // ----- the supply -----

  /** The tokens a call creates: by the token's owner, or as a reward. */
  function Minted(y: Sys, st: Step): nat {
    if Exec(y, st).None? then 0
    else match st.call
      case TokenMint(_, amount) => amount
      case MineCall(_) => y.world.pool.minerReward
      case MineAndStakeCall(_) => y.world.pool.minerReward
      case SubmitCall(_) => y.world.pool.minerReward
      case _ => 0
  }

  /** The supply grows by exactly what is minted, and only its owner gives the token away. */
  lemma SupplyStep(y: Sys, st: Step)
    ensures After(y, st).world.token.totalSupply == y.world.token.totalSupply + Minted(y, st)
    ensures After(y, st).world.token.owner == y.world.token.owner || st.sender == y.world.token.owner
  {
    hide T.Mint, T.Delegate, SlashMiner, WithAmount, BeginDispute, Vote, RequestOracles, CancelOracleRequest;
    var t, p := y.world.token, y.world.pool;
    if Exec(y, st).Some? {
      match st.call
      case TokenMint(to, amount) => MintBalances(t, st.sender, to, amount, st.block);
      case TokenDelegate(delegatee) => DelegateKeepsFields(t, st.sender, delegatee, st.block);
      case TokenDelegateBySig(signatory, delegatee, nonce, _) =>
        DelegateKeepsFields(t.(nonces := t.nonces[signatory := nonce + 1]), signatory, delegatee, st.block);
      case MineCall(miner) => MintBalances(t, p.self, miner, p.minerReward, st.block);
      case MineAndStakeCall(_) => MintBalances(t, p.self, p.self, p.minerReward, st.block);
      case SubmitCall(_) => MintBalances(t, p.self, p.self, p.minerReward, st.block);
      case _ =>
    }
  }

  lemma SelfStays(y: Sys, st: Step)
    ensures After(y, st).world.pool.self == y.world.pool.self
  {
    hide T.Mint, T.Delegate, T.Transfer, T.DelegateBySig, SlashRounds, WithAmount, BeginDispute, Vote, RequestOracles,
         CancelOracleRequest;
  }

  // ----- deposits, withdrawals and staked rewards of a run -----

  datatype Flow = Deposit | Withdrawal | Reward

  function FlowOf(y: Sys, st: Step, f: Flow): nat {
    if Exec(y, st).None? then 0
    else match (st.call, f)
      case (StakeCall(amount), Deposit) => amount
      case (WithdrawCall(amount), Withdrawal) => amount
      case (MineAndStakeCall(_), Reward) => y.world.pool.minerReward
      case (SubmitCall(_), Reward) => y.world.pool.minerReward
      case _ => 0
  }

  function TotalFlow(y: Sys, steps: seq<Step>, t: nat, f: Flow): nat
    requires t <= |steps|
  {
    if t == 0 then 0 else TotalFlow(y, steps, t - 1, f) + FlowOf(At(y, steps, t - 1), steps[t - 1], f)
  }

  /** In every reachable state the total stake is deposits minus withdrawals plus staked rewards, equals the sum
      of all stakes, is covered by the contract's token balance, and no single stake exceeds it. */
  lemma {:induction false} StakeLedger(y: Sys, steps: seq<Step>, t: nat, a: Address)
    requires Deployed(y) && t <= |steps|
    ensures var w := At(y, steps, t).world;
            && w.pool.totalStake + TotalFlow(y, steps, t, Withdrawal) == TotalFlow(y, steps, t, Deposit) + TotalFlow(y, steps, t, Reward)
            && w.pool.totalStake == Sum(Amounts(w.pool.miners))
            && w.pool.totalStake <= Get(w.token.balances, w.pool.self)
            && Amount(w.pool.miners, a) <= w.pool.totalStake
  {
    hide Exec, Sum;
    LedgerAlways(y, steps, t);
    AmountBelowSum(At(y, steps, t).world.pool.miners, a, a);
    if t > 0 {
      StakeLedger(y, steps, t - 1, a);
      LedgerAlways(y, steps, t - 1);
      StepKeepsLedger(At(y, steps, t - 1), steps[t - 1]);
    }
  }
}
