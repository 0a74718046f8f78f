/** The global account: the blockhashes and the distribution data side by side (comptoken/src/global_data/mod.rs). */
module GlobalData {
  import opened Blockhashes
  import opened Bytes
  import opened Clock
  import opened DailyDistributionData
  import opened Distribution
  import opened Growth

  class GlobalDataAccount {
    const validBlockhashes: ValidBlockhashes
    const dailyDistributionData: DistributionAccount

    ghost predicate Valid()
      reads dailyDistributionData
    {
      dailyDistributionData.Valid()
    }

    constructor Initialize(now: int, slotHash: Hash, humans: nat)
      ensures Valid()
      ensures fresh(validBlockhashes) && fresh(dailyDistributionData)
      ensures fresh(dailyDistributionData.historicDistributions)
      ensures validBlockhashes.View() == Update(FRESH, now, slotHash)
      ensures dailyDistributionData.View()
              == DailyData(0, 0, NormalizeTime(now), humans, FreshHistory())
    {
      validBlockhashes := new ValidBlockhashes.Initialize(now, slotHash);
      dailyDistributionData := new DistributionAccount.Initialize(now, humans);
    }

    /** First the blockhashes, then the distribution. */
    method DailyDistributionEvent(supply: nat, futureBank: nat, slotHash: Hash, now: int, pow: PowerLaw)
      returns (values: Values)
      requires Valid() && dailyDistributionData.yesterdaySupply <= supply
      modifies validBlockhashes, dailyDistributionData, dailyDistributionData.historicDistributions
      ensures Valid()
      ensures validBlockhashes.View() == Update(old(validBlockhashes.View()), now, slotHash)
      ensures (dailyDistributionData.View(), values)
              == Distribute(old(dailyDistributionData.View()), supply, futureBank, now, pow)
    {
      validBlockhashes.UpdateHashes(now, slotHash);
      values := dailyDistributionData.DailyDistribution(supply, futureBank, now, pow);
    }
  }
}
