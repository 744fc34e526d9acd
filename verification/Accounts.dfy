/** Every account's stake and tokens: what each call does to them, and where they come from over whole runs. */
module Accounts {
  import opened Common
  import opened Sums
  import T = Token
  import opened Staking
  import opened Oracle
  import opened Dispute
  import opened System

  // ----- one call, any account -----

  lemma TransferExactly(s: T.State, from: Address, to: Address, amount: nat, a: Address)
    ensures T.Transfer(s, from, to, amount).Some? <==>
            from != ZERO_ADDRESS && to != ZERO_ADDRESS && amount <= Get(s.balances, from)
    ensures T.Transfer(s, from, to, amount).Some? ==>
            var s' := T.Transfer(s, from, to, amount).value;
            && s' == s.(balances := s'.balances)
            && Get(s'.balances, a) + (if a == from then amount else 0) == Get(s.balances, a) + if a == to then amount else 0
  {
  }

  /** A checkpoint for d can take `amount` more votes in this block. */
  predicate VotesFit(s: T.State, d: Address, amount: nat, block: nat) {
    || d == ZERO_ADDRESS || amount == 0
    || (&& T.CurrentVotes(s, d) + amount <= MAX_UINT256 && block < 0x1_0000_0000
        && var h := T.History(s, d);
           (h != [] && h[|h| - 1].fromBlock == block) || |h| + 1 < 0x1_0000_0000)
  }

  lemma MintExactly(s: T.State, sender: Address, to: Address, amount: nat, block: nat, a: Address)
    ensures T.Mint(s, sender, to, amount, block).Some? <==>
            && sender == s.owner && to != ZERO_ADDRESS && s.totalSupply + amount <= MAX_UINT256
            && VotesFit(s, T.DelegateOf(s, to), amount, block)
    ensures T.Mint(s, sender, to, amount, block).Some? ==>
            var s' := T.Mint(s, sender, to, amount, block).value;
            && s'.totalSupply == s.totalSupply + amount && s'.owner == s.owner
            && s'.delegates == s.delegates && s'.nonces == s.nonces
            && Get(s'.balances, a) == Get(s.balances, a) + if a == to then amount else 0
  {
  }

  lemma StakeExactly(w: World, sender: Address, amount: nat, block: nat, a: Address)
    ensures StakeTokens(w, sender, amount, block).Some? <==>
            && 0 < amount && w.pool.minimumStake <= amount
            && sender != ZERO_ADDRESS && w.pool.self != ZERO_ADDRESS && amount <= Get(w.token.balances, sender)
            && w.pool.totalStake + amount <= MAX_UINT256 && Amount(w.pool.miners, sender) + amount <= MAX_UINT256
    ensures StakeTokens(w, sender, amount, block).Some? ==>
            var w' := StakeTokens(w, sender, amount, block).value;
            var i, i' := InfoOf(w.pool.miners, a), InfoOf(w'.pool.miners, a);
            && i'.amount == i.amount + (if a == sender then amount else 0)
            && i'.firstStakeBlock == (if a == sender && i.firstStakeBlock == 0
                                      then (if block > w.pool.startBlock then block else w.pool.startBlock) else i.firstStakeBlock)
            && i'.lastRewardBlock == i.lastRewardBlock
            && Get(w'.token.balances, a) + (if a == sender then amount else 0)
               == Get(w.token.balances, a) + (if a == w.pool.self then amount else 0)
            && w'.token == w.token.(balances := w'.token.balances)
            && w'.pool == w.pool.(miners := w'.pool.miners, totalStake := w.pool.totalStake + amount)
  {
    hide T.Transfer;
    TransferExactly(w.token, sender, w.pool.self, amount, a);
  }

  lemma WithdrawExactly(w: World, sender: Address, amount: nat, a: Address)
    ensures Withdraw(w, sender, amount).Some? <==>
            && 0 < amount <= Amount(w.pool.miners, sender) && amount <= w.pool.totalStake
            && sender != ZERO_ADDRESS && w.pool.self != ZERO_ADDRESS && amount <= Get(w.token.balances, w.pool.self)
    ensures Withdraw(w, sender, amount).Some? ==>
            var w' := Withdraw(w, sender, amount).value;
            && Amount(w'.pool.miners, a) + (if a == sender then amount else 0) == Amount(w.pool.miners, a)
            && InfoOf(w'.pool.miners, a) == InfoOf(w.pool.miners, a).(amount := Amount(w'.pool.miners, a))
            && Get(w'.token.balances, a) + (if a == w.pool.self then amount else 0)
               == Get(w.token.balances, a) + (if a == sender then amount else 0)
            && w'.token == w.token.(balances := w'.token.balances)
            && w'.pool == w.pool.(miners := w'.pool.miners, totalStake := w.pool.totalStake - amount)
  {
    hide T.Transfer;
    TransferExactly(w.token, w.pool.self, sender, amount, a);
  }

  /** The reward goes to the miner as tokens. */
  lemma MineExactly(w: World, sender: Address, miner: Address, block: nat, a: Address)
    ensures Mine(w, sender, miner, block).Some? <==>
            && sender == w.pool.oracle && w.pool.self == w.token.owner && miner != ZERO_ADDRESS
            && w.token.totalSupply + w.pool.minerReward <= MAX_UINT256
            && VotesFit(w.token, T.DelegateOf(w.token, miner), w.pool.minerReward, block)
    ensures Mine(w, sender, miner, block).Some? ==>
            var w' := Mine(w, sender, miner, block).value;
            && Get(w'.token.balances, a) == Get(w.token.balances, a) + (if a == miner then w.pool.minerReward else 0)
            && InfoOf(w'.pool.miners, a) == (if a == miner then InfoOf(w.pool.miners, a).(lastRewardBlock := block) else InfoOf(w.pool.miners, a))
            && w'.pool == w.pool.(miners := w'.pool.miners)
  {
    hide T.Mint;
    MintExactly(w.token, w.pool.self, miner, w.pool.minerReward, block, a);
  }

  /** The reward goes to the staking contract as tokens, and to the miner as stake. */
  lemma MineAndStakeExactly(w: World, sender: Address, miner: Address, block: nat, a: Address)
    ensures MineAndStake(w, sender, miner, block).Some? <==>
            && sender == w.pool.oracle && w.pool.self == w.token.owner && w.pool.self != ZERO_ADDRESS
            && w.token.totalSupply + w.pool.minerReward <= MAX_UINT256
            && VotesFit(w.token, T.DelegateOf(w.token, w.pool.self), w.pool.minerReward, block)
            && w.pool.totalStake + w.pool.minerReward <= MAX_UINT256
            && Amount(w.pool.miners, miner) + w.pool.minerReward <= MAX_UINT256
    ensures MineAndStake(w, sender, miner, block).Some? ==>
            var w' := MineAndStake(w, sender, miner, block).value;
            var i, i' := InfoOf(w.pool.miners, a), InfoOf(w'.pool.miners, a);
            && i'.amount == i.amount + (if a == miner then w.pool.minerReward else 0)
            && i'.firstStakeBlock == i.firstStakeBlock && i'.lastRewardBlock == (if a == miner then block else i.lastRewardBlock)
            && Get(w'.token.balances, a) == Get(w.token.balances, a) + (if a == w.pool.self then w.pool.minerReward else 0)
            && w'.pool == w.pool.(miners := w'.pool.miners, totalStake := w.pool.totalStake + w.pool.minerReward)
  {
    hide T.Mint;
    MintExactly(w.token, w.pool.self, w.pool.self, w.pool.minerReward, block, a);
  }

  // ----- where stake comes from -----

  datatype StakeFlow = Deposited | Withdrawn | RewardStaked | SharesReceived | Slashed

  datatype Slashing = Slashing(accused: Address, recipients: seq<Address>)

  /** Whom a call slashes, and for whom. */
  function SlashingOf(y: Sys, st: Step): Option<Slashing> {
    match st.call
    case SlashCall(accused, recipients) => Some(Slashing(accused, recipients))
    case FinishCall(id) =>
      var d := CaseOf(y.court, id);
      if d.sum > 0 then Some(Slashing(d.miner, d.voted + [st.sender])) else None
    case _ => None
  }

  /** What one call that goes through moves into or out of the stake of a. */
  function StakeMoved(y: Sys, st: Step, f: StakeFlow, a: Address): nat {
    if Exec(y, st).None? then 0
    else match f
      case Deposited => if st.call.StakeCall? && st.sender == a then st.call.amount else 0
      case Withdrawn => if st.call.WithdrawCall? && st.sender == a then st.call.amount else 0
      case RewardStaked =>
        if (st.call.MineAndStakeCall? && st.call.miner == a) || (st.call.SubmitCall? && st.sender == a) then y.world.pool.minerReward else 0
      case SharesReceived => if SlashingOf(y, st).Some? then Gained(y.world.pool.miners, SlashingOf(y, st).value, a) else 0
      case Slashed => if SlashingOf(y, st).Some? then Lost(y.world.pool.miners, SlashingOf(y, st).value, a) else 0
  }

  /** One share for every place in the list of recipients. */
  function Gained(miners: map<Address, MinerInfo>, s: Slashing, a: Address): nat {
    if a == s.accused || s.recipients == [] then 0
    else Amount(miners, s.accused) / |s.recipients| * Occurrences(s.recipients, a)
  }

  /** All shares together; the remainder of the division stays. */
  function Lost(miners: map<Address, MinerInfo>, s: Slashing, a: Address): nat {
    if a != s.accused || s.recipients == [] then 0 else Amount(miners, a) - Amount(miners, a) % |s.recipients|
  }

  function StakeTotal(y: Sys, steps: seq<Step>, t: nat, f: StakeFlow, a: Address): nat
    requires t <= |steps|
  {
    if t == 0 then 0 else StakeTotal(y, steps, t - 1, f, a) + StakeMoved(At(y, steps, t - 1), steps[t - 1], f, a)
  }

  lemma SlashMoves(w: World, sender: Address, accused: Address, rs: seq<Address>, a: Address)
    requires Ledger(w) && SlashMiner(w.pool, sender, accused, rs).Some?
    ensures var m, m' := w.pool.miners, SlashMiner(w.pool, sender, accused, rs).value.miners;
            Amount(m', a) + Lost(m, Slashing(accused, rs), a) == Amount(m, a) + Gained(m, Slashing(accused, rs), a)
  {
    hide SlashMiner, Sum;
    SumAtLeast(w.token.balances, w.pool.self);
    SlashMinerIff(w.pool, sender, accused, rs);
  }

  lemma StakeStep(y: Sys, st: Step, a: Address)
    requires Ledger(y.world)
    ensures Amount(After(y, st).world.pool.miners, a) + StakeMoved(y, st, Withdrawn, a) + StakeMoved(y, st, Slashed, a)
            == Amount(y.world.pool.miners, a) + StakeMoved(y, st, Deposited, a) + StakeMoved(y, st, RewardStaked, a)
               + StakeMoved(y, st, SharesReceived, a)
  {
    hide Ledger, T.Mint, T.Transfer, T.Delegate, T.DelegateBySig, StakeTokens, Withdraw, Mine, MineAndStake, SlashMiner,
         RequestOracles, CancelOracleRequest, BeginDispute, Vote, Gained, Lost;
    var w := y.world;
    if Exec(y, st).Some? {
      match st.call
      case StakeCall(amount) => StakeExactly(w, st.sender, amount, st.block, a);
      case WithdrawCall(amount) => WithdrawExactly(w, st.sender, amount, a);
      case MineCall(miner) => MineExactly(w, st.sender, miner, st.block, a);
      case MineAndStakeCall(miner) => MineAndStakeExactly(w, st.sender, miner, st.block, a);
      case SubmitCall(id) => MineAndStakeExactly(w, y.desk.self, st.sender, st.block, a);
      case SlashCall(accused, recipients) => SlashMoves(w, st.sender, accused, recipients, a);
      case FinishCall(id) =>
        var d := CaseOf(y.court, id);
        if d.sum > 0 { SlashMoves(w, y.court.self, d.miner, d.voted + [st.sender], a); }
      case _ =>
    }
  }

  /** Over every run an account's stake is its own deposits, its own rewards staked and its shares of others' slashings,
      less its own withdrawals and what it was slashed. */
  lemma {:induction false} AccountStake(y: Sys, steps: seq<Step>, t: nat, a: Address)
    requires Deployed(y) && t <= |steps|
    ensures Amount(At(y, steps, t).world.pool.miners, a) + StakeTotal(y, steps, t, Withdrawn, a) + StakeTotal(y, steps, t, Slashed, a)
            == StakeTotal(y, steps, t, Deposited, a) + StakeTotal(y, steps, t, RewardStaked, a) + StakeTotal(y, steps, t, SharesReceived, a)
  {
    hide Exec, StakeMoved, Ledger;
    if t > 0 {
      AccountStake(y, steps, t - 1, a);
      LedgerAlways(y, steps, t - 1);
      StakeStep(At(y, steps, t - 1), steps[t - 1], a);
    }
  }

  // ----- where tokens come from -----

  function TokensIn(y: Sys, st: Step, a: Address): nat {
    if Exec(y, st).None? then 0
    else match st.call
      case TokenMint(to, amount) => if a == to then amount else 0
      case TokenTransfer(to, amount) => if a == to then amount else 0
      case StakeCall(amount) => if a == y.world.pool.self then amount else 0
      case WithdrawCall(amount) => if a == st.sender then amount else 0
      case MineCall(miner) => if a == miner then y.world.pool.minerReward else 0
      case MineAndStakeCall(_) => if a == y.world.pool.self then y.world.pool.minerReward else 0
      case SubmitCall(_) => if a == y.world.pool.self then y.world.pool.minerReward else 0
      case _ => 0
  }

  function TokensOut(y: Sys, st: Step, a: Address): nat {
    if Exec(y, st).None? then 0
    else match st.call
      case TokenTransfer(_, amount) => if a == st.sender then amount else 0
      case StakeCall(amount) => if a == st.sender then amount else 0
      case WithdrawCall(amount) => if a == y.world.pool.self then amount else 0
      case _ => 0
  }

  function TotalIn(y: Sys, steps: seq<Step>, t: nat, a: Address): nat
    requires t <= |steps|
  {
    if t == 0 then 0 else TotalIn(y, steps, t - 1, a) + TokensIn(At(y, steps, t - 1), steps[t - 1], a)
  }

  function TotalOut(y: Sys, steps: seq<Step>, t: nat, a: Address): nat
    requires t <= |steps|
  {
    if t == 0 then 0 else TotalOut(y, steps, t - 1, a) + TokensOut(At(y, steps, t - 1), steps[t - 1], a)
  }

  lemma TokenCallMoves(y: Sys, st: Step, a: Address)
    requires Exec(y, st).Some?
    requires st.call.TokenMint? || st.call.TokenTransfer? || st.call.TokenDelegate? || st.call.TokenDelegateBySig?
             || st.call.TokenOwner? || st.call.TokenRenounce?
    ensures Get(After(y, st).world.token.balances, a) + TokensOut(y, st, a) == Get(y.world.token.balances, a) + TokensIn(y, st, a)
  {
    hide T.Mint, T.Transfer, T.Delegate;
    var t := y.world.token;
    match st.call
    case TokenMint(to, amount) => MintExactly(t, st.sender, to, amount, st.block, a);
    case TokenTransfer(to, amount) => TransferExactly(t, st.sender, to, amount, a);
    case TokenDelegate(delegatee) => DelegateKeepsFields(t, st.sender, delegatee, st.block);
    case TokenDelegateBySig(signatory, delegatee, nonce, _) =>
      DelegateKeepsFields(t.(nonces := t.nonces[signatory := nonce + 1]), signatory, delegatee, st.block);
    case TokenOwner(_) =>
    case TokenRenounce =>
  }

  lemma TokenStep(y: Sys, st: Step, a: Address)
    ensures Get(After(y, st).world.token.balances, a) + TokensOut(y, st, a) == Get(y.world.token.balances, a) + TokensIn(y, st, a)
  {
    hide T.Mint, T.Transfer, T.Delegate, T.DelegateBySig, StakeTokens, Withdraw, Mine, MineAndStake, SlashMiner,
         RequestOracles, CancelOracleRequest, BeginDispute, Vote;
    var w := y.world;
    if Exec(y, st).Some? {
      match st.call
      case TokenMint(_, _) => TokenCallMoves(y, st, a);
      case TokenTransfer(_, _) => TokenCallMoves(y, st, a);
      case TokenDelegate(_) => TokenCallMoves(y, st, a);
      case TokenDelegateBySig(_, _, _, _) => TokenCallMoves(y, st, a);
      case StakeCall(amount) => StakeExactly(w, st.sender, amount, st.block, a);
      case WithdrawCall(amount) => WithdrawExactly(w, st.sender, amount, a);
      case MineCall(miner) => MineExactly(w, st.sender, miner, st.block, a);
      case MineAndStakeCall(miner) => MineAndStakeExactly(w, st.sender, miner, st.block, a);
      case SubmitCall(id) => MineAndStakeExactly(w, y.desk.self, st.sender, st.block, a);
      case _ =>
    }
  }

  /** Over every run an account's tokens are what was minted, transferred or paid out to it, less what it sent or deposited. */
  lemma {:induction false} AccountTokens(y: Sys, steps: seq<Step>, t: nat, a: Address)
    requires Deployed(y) && t <= |steps|
    ensures Get(At(y, steps, t).world.token.balances, a) + TotalOut(y, steps, t, a) == TotalIn(y, steps, t, a)
  {
    hide Exec, TokensIn, TokensOut;
    if t > 0 {
      AccountTokens(y, steps, t - 1, a);
      TokenStep(At(y, steps, t - 1), steps[t - 1], a);
    }
  }
}
