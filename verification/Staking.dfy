/** DioneStaking, together with the token it holds. A reverted call is None. */
module Staking {
  import opened Common
  import opened Sums
  import opened Token

  datatype MinerInfo = MinerInfo(amount: nat, firstStakeBlock: nat, lastRewardBlock: nat)

  datatype Pool = Pool(
    self: Address,
    owner: Address,
    oracle: Address,
    dispute: Address,
    minerReward: nat,
    startBlock: nat,
    minimumStake: nat,
    totalStake: nat,
    miners: map<Address, MinerInfo>)

  /** The token and the staking contract, which call each other. */
  datatype World = World(token: Token.State, pool: Pool)

  function InfoOf(miners: map<Address, MinerInfo>, a: Address): MinerInfo {
    if a in miners then miners[a] else MinerInfo(0, 0, 0)
  }

  function Amount(miners: map<Address, MinerInfo>, a: Address): nat {
    InfoOf(miners, a).amount
  }

  function WithAmount(miners: map<Address, MinerInfo>, a: Address, amount: nat): map<Address, MinerInfo> {
    miners[a := InfoOf(miners, a).(amount := amount)]
  }

  predicate IsMiner(miners: map<Address, MinerInfo>, minimumStake: nat, a: Address) {
    Amount(miners, a) >= minimumStake
  }

  ghost function Amounts(miners: map<Address, MinerInfo>): map<Address, nat> {
    map a | a in miners :: miners[a].amount
  }

  /** The stake ledger: the total is the sum of all stakes, and the contract holds at least that many tokens. */
  ghost predicate Ledger(w: World) {
    && w.pool.totalStake == Sum(Amounts(w.pool.miners))
    && w.pool.totalStake <= Get(w.token.balances, w.pool.self)
    && w.token.totalSupply == Sum(w.token.balances)
    && w.token.totalSupply <= MAX_UINT256
  }

  function Rewarded(w: World, sender: Address, miner: Address, to: Address, block: nat): Option<World> {
    if sender != w.pool.oracle then None
    else match Mint(w.token, w.pool.self, to, w.pool.minerReward, block)
      case None => None
      case Some(token) =>
        Some(World(token, w.pool.(miners := w.pool.miners[miner := InfoOf(w.pool.miners, miner).(lastRewardBlock := block)])))
  }

  function Mine(w: World, sender: Address, miner: Address, block: nat): Option<World> {
    Rewarded(w, sender, miner, miner, block)
  }

  function Staked(p: Pool, miner: Address, amount: nat): Option<Pool> {
    if p.totalStake + amount > MAX_UINT256 || Amount(p.miners, miner) + amount > MAX_UINT256 then None
    else Some(p.(totalStake := p.totalStake + amount,
                 miners := WithAmount(p.miners, miner, Amount(p.miners, miner) + amount)))
  }

  function MineAndStake(w: World, sender: Address, miner: Address, block: nat): Option<World> {
    match Rewarded(w, sender, miner, w.pool.self, block)
    case None => None
    case Some(w1) => match Staked(w1.pool, miner, w1.pool.minerReward)
      case None => None
      case Some(pool) => Some(World(w1.token, pool))
  }

  function Max(a: nat, b: nat): nat { if a > b then a else b }

  function StakeTokens(w: World, sender: Address, amount: nat, block: nat): Option<World> {
    if amount == 0 || amount < w.pool.minimumStake then None
    else match Transfer(w.token, sender, w.pool.self, amount)
      case None => None
      case Some(token) => match Staked(w.pool, sender, amount)
        case None => None
        case Some(pool) =>
          var info := pool.miners[sender];
          Some(World(token, if info.firstStakeBlock != 0 then pool
                            else pool.(miners := pool.miners[sender := info.(firstStakeBlock := Max(block, pool.startBlock))])))
  }

  function Withdraw(w: World, sender: Address, amount: nat): Option<World> {
    if Amount(w.pool.miners, sender) < amount || amount == 0 || w.pool.totalStake < amount then None
    else match Transfer(w.token, w.pool.self, sender, amount)
      case None => None
      case Some(token) =>
        Some(World(token, w.pool.(totalStake := w.pool.totalStake - amount,
                                  miners := WithAmount(w.pool.miners, sender, Amount(w.pool.miners, sender) - amount))))
  }

  // ----- slashing -----

  /** One round of the loop: move `share` from the accused to one recipient, or revert. */
  function SlashOne(miners: map<Address, MinerInfo>, minimumStake: nat, accused: Address, r: Address, share: nat): Option<map<Address, MinerInfo>> {
    if r == accused || !IsMiner(miners, minimumStake, r) || Amount(miners, accused) < share || Amount(miners, r) + share > MAX_UINT256 then None
    else
      var debited := WithAmount(miners, accused, Amount(miners, accused) - share);
      Some(WithAmount(debited, r, Amount(debited, r) + share))
  }

  /** The first n rounds. */
  function SlashRounds(miners: map<Address, MinerInfo>, minimumStake: nat, accused: Address, rs: seq<Address>, share: nat, n: nat): Option<map<Address, MinerInfo>>
    requires n <= |rs|
  {
    if n == 0 then Some(miners)
    else match SlashRounds(miners, minimumStake, accused, rs, share, n - 1)
      case None => None
      case Some(m) => SlashOne(m, minimumStake, accused, rs[n - 1], share)
  }

  /** The loop counter is a uint8, so with 256 recipients or more its last increment reverts. */
  function SlashMiner(p: Pool, sender: Address, accused: Address, rs: seq<Address>): Option<Pool> {
    if sender != p.dispute || accused == ZERO_ADDRESS || !IsMiner(p.miners, p.minimumStake, accused) || |rs| == 0 || |rs| > 255 then None
    else match SlashRounds(p.miners, p.minimumStake, accused, rs, Amount(p.miners, accused) / |rs|, |rs|)
      case None => None
      case Some(m) => Some(p.(miners := m))
  }

  function Occurrences(rs: seq<Address>, a: Address): nat {
    multiset(rs)[a]
  }

  lemma OccurrencesSnoc(rs: seq<Address>, n: nat, a: Address)
    requires n < |rs|
    ensures Occurrences(rs[..n + 1], a) == Occurrences(rs[..n], a) + if rs[n] == a then 1 else 0
  {
    assert rs[..n + 1] == rs[..n] + [rs[n]];
  }

  lemma AmountAfter(miners: map<Address, MinerInfo>, a: Address, v: nat, x: Address)
    ensures Amount(WithAmount(miners, a, v), x) == if x == a then v else Amount(miners, x)
  {
  }

  lemma SumWithAmount(miners: map<Address, MinerInfo>, a: Address, v: nat)
    ensures Sum(Amounts(WithAmount(miners, a, v))) + Amount(miners, a) == Sum(Amounts(miners)) + v
  {
    hide Sum;
    assert Amounts(WithAmount(miners, a, v)) == Amounts(miners)[a := v];
    assert Get(Amounts(miners), a) == Amount(miners, a);
    SumUpdate(Amounts(miners), a, v);
  }

  lemma SumSameAmounts(m: map<Address, MinerInfo>, a: Address, info: MinerInfo)
    requires info.amount == Amount(m, a)
    ensures Sum(Amounts(m[a := info])) == Sum(Amounts(m))
  {
    hide Sum;
    assert Amounts(m[a := info]) == Amounts(m)[a := info.amount];
    assert Get(Amounts(m), a) == Amount(m, a);
    SumUpdate(Amounts(m), a, info.amount);
  }

  lemma SlashOneConserves(miners: map<Address, MinerInfo>, minimumStake: nat, accused: Address, r: Address, share: nat)
    requires SlashOne(miners, minimumStake, accused, r, share).Some?
    ensures Sum(Amounts(SlashOne(miners, minimumStake, accused, r, share).value)) == Sum(Amounts(miners))
  {
    hide Sum, WithAmount;
    SumWithAmount(miners, accused, Amount(miners, accused) - share);
    var debited := WithAmount(miners, accused, Amount(miners, accused) - share);
    SumWithAmount(debited, r, Amount(debited, r) + share);
  }

  lemma {:induction false} SlashRoundsConserve(miners: map<Address, MinerInfo>, minimumStake: nat, accused: Address, rs: seq<Address>, share: nat, n: nat)
    requires n <= |rs| && SlashRounds(miners, minimumStake, accused, rs, share, n).Some?
    ensures Sum(Amounts(SlashRounds(miners, minimumStake, accused, rs, share, n).value)) == Sum(Amounts(miners))
  {
    hide SlashOne, Sum;
    if n > 0 {
      SlashRoundsConserve(miners, minimumStake, accused, rs, share, n - 1);
      SlashOneConserves(SlashRounds(miners, minimumStake, accused, rs, share, n - 1).value, minimumStake, accused, rs[n - 1], share);
    }
  }

  /** What the rounds so far have done to every account. */
  ghost predicate Shared(before: map<Address, MinerInfo>, after: map<Address, MinerInfo>, accused: Address, rs: seq<Address>, share: nat, n: nat)
    requires n <= |rs|
  {
    && Amount(after, accused) + n * share == Amount(before, accused)
    && forall a: Address {:trigger Amount(after, a)} :: a != accused ==> Amount(after, a) == Amount(before, a) + share * Occurrences(rs[..n], a)
  }

  ghost predicate EligibleRecipients(miners: map<Address, MinerInfo>, minimumStake: nat, accused: Address, rs: seq<Address>, n: nat)
    requires n <= |rs|
  {
    forall i :: 0 <= i < n ==> rs[i] != accused && IsMiner(miners, minimumStake, rs[i])
  }

  lemma AmountBelowSum(miners: map<Address, MinerInfo>, a: Address, b: Address)
    ensures Amount(miners, a) <= Sum(Amounts(miners))
    ensures a != b ==> Amount(miners, a) + Amount(miners, b) <= Sum(Amounts(miners))
  {
    assert Get(Amounts(miners), a) == Amount(miners, a) && Get(Amounts(miners), b) == Amount(miners, b);
    SumAtLeast(Amounts(miners), a);
    if a != b { SumAtLeastTwo(Amounts(miners), a, b); }
  }

  /** A round succeeds exactly on an eligible recipient: amounts of recipients only grow, so eligibility can be
      judged before the loop, and neither the subtraction nor the addition can fail. */
  lemma SlashOneIff(before: map<Address, MinerInfo>, m: map<Address, MinerInfo>, minimumStake: nat, accused: Address, rs: seq<Address>, share: nat, n: nat)
    requires n < |rs| && Shared(before, m, accused, rs, share, n)
    requires EligibleRecipients(before, minimumStake, accused, rs, n)
    requires share * |rs| <= Amount(before, accused) && Sum(Amounts(m)) <= MAX_UINT256
    ensures SlashOne(m, minimumStake, accused, rs[n], share).Some? <==> rs[n] != accused && IsMiner(before, minimumStake, rs[n])
    ensures SlashOne(m, minimumStake, accused, rs[n], share).Some? ==>
            Shared(before, SlashOne(m, minimumStake, accused, rs[n], share).value, accused, rs, share, n + 1)
  {
    hide Sum, WithAmount;
    var r := rs[n];
    RoundFits(share, n, |rs|, Amount(before, accused));
    AmountBelowSum(m, accused, r);
    if r != accused {
      assert Amount(m, r) == Amount(before, r) + share * Occurrences(rs[..n], r);
      EligibilityKept(before, minimumStake, accused, rs, share, n, r);
    }
    if SlashOne(m, minimumStake, accused, r, share).Some? {
      var debited := WithAmount(m, accused, Amount(m, accused) - share);
      var m' := SlashOne(m, minimumStake, accused, r, share).value;
      AmountAfter(m, accused, Amount(m, accused) - share, accused);
      AmountAfter(debited, r, Amount(debited, r) + share, accused);
      assert (n + 1) * share == n * share + share;
      forall a: Address | a != accused
        ensures Amount(m', a) == Amount(before, a) + share * Occurrences(rs[..n + 1], a)
      {
        AmountAfter(m, accused, Amount(m, accused) - share, a);
        AmountAfter(debited, r, Amount(debited, r) + share, a);
        OccurrencesSnoc(rs, n, a);
        assert Amount(m, a) == Amount(before, a) + share * Occurrences(rs[..n], a);
        assert share * (Occurrences(rs[..n], a) + 1) == share * Occurrences(rs[..n], a) + share;
      }
    }
  }

  lemma RoundFits(share: nat, n: nat, total: nat, amount: nat)
    requires n < total && share * total <= amount
    ensures n * share + share <= amount
  {
    assert share * (n + 1) <= share * total;
  }

  /** Someone who has received shares was eligible from the start; someone who has not holds what it held. */
  lemma EligibilityKept(before: map<Address, MinerInfo>, minimumStake: nat, accused: Address, rs: seq<Address>, share: nat, n: nat, r: Address)
    requires n < |rs| && EligibleRecipients(before, minimumStake, accused, rs, n) && r != accused
    ensures Amount(before, r) + share * Occurrences(rs[..n], r) >= minimumStake <==> IsMiner(before, minimumStake, r)
  {
    if Occurrences(rs[..n], r) > 0 {
      assert r in rs[..n];
    } else {
      assert share * 0 == 0;
    }
    assert share * Occurrences(rs[..n], r) >= 0;
  }

  lemma {:induction false} SlashRoundsIff(miners: map<Address, MinerInfo>, minimumStake: nat, accused: Address, rs: seq<Address>, share: nat, n: nat)
    requires n <= |rs| && share * |rs| <= Amount(miners, accused) && Sum(Amounts(miners)) <= MAX_UINT256
    ensures SlashRounds(miners, minimumStake, accused, rs, share, n).Some? <==> EligibleRecipients(miners, minimumStake, accused, rs, n)
    ensures SlashRounds(miners, minimumStake, accused, rs, share, n).Some? ==>
            Shared(miners, SlashRounds(miners, minimumStake, accused, rs, share, n).value, accused, rs, share, n)
  {
    hide SlashOne, Sum, Shared;
    if n == 0 {
      NothingShared(miners, accused, rs, share);
    } else {
      SlashRoundsIff(miners, minimumStake, accused, rs, share, n - 1);
      var before := SlashRounds(miners, minimumStake, accused, rs, share, n - 1);
      if before.Some? {
        SlashRoundsConserve(miners, minimumStake, accused, rs, share, n - 1);
        SlashOneIff(miners, before.value, minimumStake, accused, rs, share, n - 1);
      }
    }
  }

  lemma NothingShared(miners: map<Address, MinerInfo>, accused: Address, rs: seq<Address>, share: nat)
    ensures Shared(miners, miners, accused, rs, share, 0)
  {
    assert rs[..0] == [];
    forall a: Address
      ensures share * Occurrences(rs[..0], a) == 0
    {
      assert Occurrences(rs[..0], a) == 0;
    }
  }

  /** When slashing completes. */
  ghost predicate Slashable(p: Pool, sender: Address, accused: Address, rs: seq<Address>) {
    && sender == p.dispute && accused != ZERO_ADDRESS && Amount(p.miners, accused) >= p.minimumStake
    && 1 <= |rs| <= 255
    && forall i :: 0 <= i < |rs| ==> rs[i] != accused && Amount(p.miners, rs[i]) >= p.minimumStake
  }

  /** slashMiner completes exactly on a slashable call; then every account gains its share once per occurrence
      in the list, the accused keeps the remainder, and the sum of all stakes is unchanged. */
  lemma SlashMinerIff(p: Pool, sender: Address, accused: Address, rs: seq<Address>)
    requires Sum(Amounts(p.miners)) <= MAX_UINT256
    ensures SlashMiner(p, sender, accused, rs).Some? <==> Slashable(p, sender, accused, rs)
    ensures Slashable(p, sender, accused, rs) ==>
            var p', amount, n := SlashMiner(p, sender, accused, rs).value, Amount(p.miners, accused), |rs|;
            && p' == p.(miners := p'.miners)
            && Amount(p'.miners, accused) == amount % n
            && (forall a: Address {:trigger Amount(p'.miners, a)} :: a != accused ==>
                  Amount(p'.miners, a) == Amount(p.miners, a) + amount / n * Occurrences(rs, a))
            && Sum(Amounts(p'.miners)) == Sum(Amounts(p.miners))
  {
    hide SlashRounds, Sum;
    if 1 <= |rs| {
      var amount, n := Amount(p.miners, accused), |rs|;
      var share := amount / n;
      assert amount == share * n + amount % n;
      assert rs[..n] == rs;
      SlashRoundsIff(p.miners, p.minimumStake, accused, rs, share, n);
      if SlashMiner(p, sender, accused, rs).Some? {
        SlashRoundsConserve(p.miners, p.minimumStake, accused, rs, share, n);
      }
    }
  }

  class DioneStaking {
    const self: Address
    const dione: DioneToken
    var owner: Address
    var dioneOracleAddress: Address
    var disputeContractAddr: Address
    var minerReward: nat
    var startBlock: nat
    var minimumStake: nat
    var totalStake: nat
    var minerInfo: map<Address, MinerInfo>

    ghost function Model(): World
      reads this, dione
    {
      World(dione.Model(), Pool(self, owner, dioneOracleAddress, disputeContractAddr, minerReward, startBlock,
                                minimumStake, totalStake, minerInfo))
    }

    constructor (self: Address, owner: Address, dione: DioneToken, minerReward: nat, startBlock: nat, minimumStake: nat)
      ensures this.dione == dione
      ensures Model() == World(dione.Model(), Pool(self, owner, ZERO_ADDRESS, ZERO_ADDRESS, minerReward, startBlock, minimumStake, 0, map[]))
    {
      this.self, this.owner, this.dione := self, owner, dione;
      this.minerReward, this.startBlock, this.minimumStake := minerReward, startBlock, minimumStake;
      dioneOracleAddress, disputeContractAddr, totalStake, minerInfo := ZERO_ADDRESS, ZERO_ADDRESS, 0, map[];
    }

    method IsMinerNow(a: Address) returns (b: bool)
      ensures b <==> IsMiner(minerInfo, minimumStake, a)
    {
      b := (if a in minerInfo then minerInfo[a].amount else 0) >= minimumStake;
    }

    method MineReward(sender: Address, miner: Address, block: nat) returns (ok: bool)
      modifies this, dione
      ensures ok <==> Mine(old(Model()), sender, miner, block).Some?
      ensures Model() == if ok then Mine(old(Model()), sender, miner, block).value else old(Model())
    {
      hide Mint;
      if sender != dioneOracleAddress { return false; }
      ok := dione.MintTo(self, miner, minerReward, block);
      if ok {
        minerInfo := minerInfo[miner := InfoOf(minerInfo, miner).(lastRewardBlock := block)];
      }
    }

    method MineAndStakeReward(sender: Address, miner: Address, block: nat) returns (ok: bool)
      modifies this, dione
      ensures ok <==> MineAndStake(old(Model()), sender, miner, block).Some?
      ensures Model() == if ok then MineAndStake(old(Model()), sender, miner, block).value else old(Model())
    {
      hide Mint;
      if sender != dioneOracleAddress { return false; }
      if totalStake + minerReward > MAX_UINT256 || Amount(minerInfo, miner) + minerReward > MAX_UINT256 { return false; }
      ok := dione.MintTo(self, self, minerReward, block);
      if ok {
        totalStake := totalStake + minerReward;
        minerInfo := WithAmount(minerInfo, miner, Amount(minerInfo, miner) + minerReward);
        minerInfo := minerInfo[miner := minerInfo[miner].(lastRewardBlock := block)];
      }
    }

    method Stake(sender: Address, amount: nat, block: nat) returns (ok: bool)
      modifies this, dione
      ensures ok <==> StakeTokens(old(Model()), sender, amount, block).Some?
      ensures Model() == if ok then StakeTokens(old(Model()), sender, amount, block).value else old(Model())
    {
      hide Transfer;
      if amount == 0 || amount < minimumStake { return false; }
      if totalStake + amount > MAX_UINT256 || Amount(minerInfo, sender) + amount > MAX_UINT256 { return false; }
      ok := dione.TransferTokens(sender, self, amount);
      if ok {
        totalStake := totalStake + amount;
        minerInfo := WithAmount(minerInfo, sender, Amount(minerInfo, sender) + amount);
        if minerInfo[sender].firstStakeBlock == 0 {
          minerInfo := minerInfo[sender := minerInfo[sender].(firstStakeBlock := if block > startBlock then block else startBlock)];
        }
      }
    }

    method WithdrawTokens(sender: Address, amount: nat) returns (ok: bool)
      modifies this, dione
      ensures ok <==> Withdraw(old(Model()), sender, amount).Some?
      ensures Model() == if ok then Withdraw(old(Model()), sender, amount).value else old(Model())
    {
      hide Transfer;
      if Amount(minerInfo, sender) < amount || amount == 0 || totalStake < amount { return false; }
      ok := dione.TransferTokens(self, sender, amount);
      if ok {
        totalStake := totalStake - amount;
        minerInfo := WithAmount(minerInfo, sender, Amount(minerInfo, sender) - amount);
      }
    }

    method Slash(sender: Address, miner: Address, recipientMiners: seq<Address>) returns (ok: bool)
      modifies this`minerInfo
      ensures ok <==> SlashMiner(old(Model()).pool, sender, miner, recipientMiners).Some?
      ensures Model() == if ok then old(Model()).(pool := SlashMiner(old(Model()).pool, sender, miner, recipientMiners).value) else old(Model())
    {
      hide WithAmount, IsMiner, Amount, Histories;
      if sender != disputeContractAddr || miner == ZERO_ADDRESS { return false; }
      var accusedIsMiner := IsMinerNow(miner);
      if !accusedIsMiner || |recipientMiners| == 0 { return false; }
      var share := Amount(minerInfo, miner) / |recipientMiners|;
      var minerInfo0 := minerInfo;
      var i := 0;
      while i < |recipientMiners|
        invariant 0 <= i <= |recipientMiners| && i <= 255
        invariant SlashRounds(minerInfo0, minimumStake, miner, recipientMiners, share, i) == Some(minerInfo)
      {
        var r := recipientMiners[i];
        var recipientIsMiner := IsMinerNow(r);
        if r == miner || !recipientIsMiner || Amount(minerInfo, miner) < share || Amount(minerInfo, r) + share > MAX_UINT256 {
          SlashRoundsStop(minerInfo0, minimumStake, miner, recipientMiners, share, i + 1, |recipientMiners|);
          minerInfo := minerInfo0;
          return false;
        }
        minerInfo := WithAmount(minerInfo, miner, Amount(minerInfo, miner) - share);
        minerInfo := WithAmount(minerInfo, r, Amount(minerInfo, r) + share);
        if i == 255 {
          minerInfo := minerInfo0;
          return false;
        }
        i := i + 1;
      }
      ok := true;
    }
  }

  /** Once a round has reverted, so has the whole loop. */
  lemma {:induction false} SlashRoundsStop(miners: map<Address, MinerInfo>, minimumStake: nat, accused: Address, rs: seq<Address>, share: nat, n: nat, k: nat)
    requires n <= k <= |rs| && SlashRounds(miners, minimumStake, accused, rs, share, n).None?
    ensures SlashRounds(miners, minimumStake, accused, rs, share, k).None?
  {
    if n < k { SlashRoundsStop(miners, minimumStake, accused, rs, share, n, k - 1); }
  }
}
