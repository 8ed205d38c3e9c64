/**
 * The methods of the two contracts as typed values, in place of a method name
 * and JSON arguments. A receiver recognises its own methods and rejects the rest.
 */
module Calls {
  import opened Base

  /** A whitelist key: recipient and token contract; no token means native NEAR. */
  datatype WhitelistKey = WhitelistKey(account: AccountId, token: Option<AccountId>)

  datatype WhitelistEntry = WhitelistEntry(key: WhitelistKey, limit: U128)

  datatype LimitChange = LimitChange(key: WhitelistKey, amount: U128)

  datatype Call =
      // dao-timelock
    | Schedule(receiver: AccountId, actions: seq<FunctionCall>, predecessor: Option<U64>)
    | ScheduleProposal(description: string, kind: string, dao: AccountId, bond: U128,
                       addGas: U64, actGas: U64, predecessor: Option<U64>)
    | Execute(id: U64)
    | Cancel(id: U64)
    | SetDao(dao: AccountId)
    | SetGuardians(guardians: seq<AccountId>)
    | SetDelay(delay: U64)
      // both contracts
    | SetAdmin(admin: AccountId)
      // spending-account
    | Transfer(receiver: AccountId, amount: U128)
    | TransferFt(receiver: AccountId, token: AccountId, amount: U128)
    | AddToWhitelist(entries: seq<WhitelistEntry>)
    | RemoveFromWhitelist(keys: seq<WhitelistKey>)
    | SetLimit(entries: seq<WhitelistEntry>)
    | IncreaseLimit(changes: seq<LimitChange>)
    | DecreaseLimit(changes: seq<LimitChange>)
    | SetSpender(spender: AccountId)
    | SetManager(manager: AccountId)
      // Sputnik DAO
    | AddProposal(description: string, kind: string)
    | ActProposal(proposal: U64, kind: string)
      // anything else
    | Other(name: string, args: string)

  /** One function call of a batch, with the deposit and gas attached to it. */
  datatype FunctionCall = FunctionCall(call: Call, deposit: U128, gas: U64)
}
