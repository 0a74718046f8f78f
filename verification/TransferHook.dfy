/** The guard on every transfer (comptoken-transfer-hook/src/comptoken-transfer-hook.rs). */
module TransferHook {
  import opened Bytes
  import opened Clock
  import opened Options
  import UserData

  /** A token account: one of the program's three banks, or anyone else's. */
  datatype Account = InterestBank | VerifiedHumanUbiBank | FutureUbiBank | Wallet(key: Hash)

  predicate IsBank(address: Account) {
    !address.Wallet?
  }

  /** is_current */
  predicate IsCurrent(data: UserData.Record, now: int) {
    data.lastPayout == NormalizeTime(now)
  }

  /** process_execute; user data that does not exist makes it fail. */
  predicate ExecuteAllowed(
    source: Account, sourceData: Option<UserData.Record>,
    destination: Account, destinationData: Option<UserData.Record>, now: int)
  {
    !IsBank(source) ==>
      && sourceData.Some? && IsCurrent(sourceData.value, now)
      && (!IsBank(destination) ==> destinationData.Some? && IsCurrent(destinationData.value, now))
  }
}
