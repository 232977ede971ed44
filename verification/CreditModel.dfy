/** The rows of the AI credit ledger and of the AI conversation tables. */
module CreditModel {

  datatype Option<+T> = None | Some(value: T)

  type Id = nat
  type Time = int

  /** A tenant and the digest of a client's idempotency key: the columns of the unique constraints. */
  datatype Key = Key(business: Id, digest: string)

  datatype EntryStatus = Reserved | Consumed | Released

  datatype ErrorCode =
    | SubscriptionRequired
    | SubscriptionInactive
    | EntitlementDenied
    | CreditLimitReached
    | ProviderConfiguration
    | ProviderTemporary
    | ProviderRejected
    | ProviderBlocked
    | ProviderIncomplete
    | ProviderInvalid
    | ResponseTooLarge
    | PersistenceFailure
    | ExecutionIntegrity

  /** An account is identified by the columns of its unique constraint. */
  datatype AccountKey = AccountKey(business: Id, subscription: Id, periodStart: Time, periodEnd: Time)

  /** `limit` is the materialised ceiling; None is an unlimited entitlement. */
  datatype Account = Account(limit: Option<int>, reserved: int, consumed: int) {
    function Used(): int { reserved + consumed }
  }

  datatype Entry = Entry(
    key: Key,
    account: AccountKey,
    status: EntryStatus,
    reservedAt: Time,
    consumedAt: Option<Time>,
    releasedAt: Option<Time>,
    reason: Option<ErrorCode>)

  datatype AdjustmentReason =
    SupportCredit | ServiceRecovery | BillingCorrection | AdministrativeCorrection | FraudReversal

  datatype Adjustment = Adjustment(
    key: Key,
    account: AccountKey,
    delta: int,
    reason: AdjustmentReason,
    base: int,
    before: int,
    after: int,
    reserved: int,
    consumed: int)

  /** What the subscription and entitlement services report when a transaction asks them. */
  datatype Access =
    | NoSubscription
    | Inactive
    | NoPeriod
    | Denied
    | Granted(subscription: Id, periodStart: Time, periodEnd: Time, base: Option<int>)
  {
    function AccountOf(business: Id): AccountKey
      requires Granted?
    {
      AccountKey(business, subscription, periodStart, periodEnd)
    }
  }
}
