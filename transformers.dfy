/** src/repository/_shared/transformers.ts: from stored rows to entities. Each transformer
    spreads the row and then replaces a few fields by a defaulting expression; `||` replaces
    every falsy value, `??` only a missing one. */
module Transformers {
  import opened Wrappers
  import opened Domain

  /** `dbUser.rpm || 60`: a missing rpm and an rpm of 0 both become 60. */
  function DefaultRpm(rpm: Option<int>): (r: int)
    ensures r != 0
    ensures rpm.Some? && rpm.value != 0 ==> r == rpm.value
    ensures rpm.None? || rpm.value == 0 ==> r == 60
  {
    if rpm.Some? && rpm.value != 0 then rpm.value else 60
  }

  /** `value || fallback` for a string column. */
  function OrString(value: Option<string>, fallback: string): (r: string)
    ensures value.Some? && value.value != [] ==> r == value.value
    ensures value.None? || value.value == [] ==> r == fallback
  {
    if value.Some? && value.value != [] then value.value else fallback
  }

  /** `toUser` */
  function ToUser(row: UserRow): (u: User)
    ensures u.id == row.id && u.name == row.name && u.deletedAt == row.deletedAt
    ensures u.createdAt == row.createdAt && u.updatedAt == row.updatedAt
    ensures u.description == OrString(row.description, "")
    ensures u.role == OrString(row.role, UserRole)
    ensures u.rpm == DefaultRpm(row.rpm)
    ensures u.dailyQuota == row.dailyQuota.GetOr(0.0)
  {
    User(row.id, row.name, OrString(row.description, ""), OrString(row.role, UserRole),
         DefaultRpm(row.rpm), if row.dailyQuota.Some? then row.dailyQuota.value else 0.0,
         row.createdAt, row.updatedAt, row.deletedAt)
  }

  /** `toKey`: `isEnabled ?? true` keeps an explicit `false`. */
  function ToKey(row: KeyRow): (k: Key)
    ensures k.isEnabled == (row.isEnabled != Some(false))
    ensures k.id == row.id && k.userId == row.userId && k.name == row.name && k.key == row.key
    ensures k.expiresAt == row.expiresAt && k.deletedAt == row.deletedAt
    ensures k.createdAt == row.createdAt && k.updatedAt == row.updatedAt
  {
    Key(row.id, row.userId, row.name, row.key, row.isEnabled.GetOr(true), row.expiresAt,
        row.createdAt, row.updatedAt, row.deletedAt)
  }

  /** `toProvider`: `isEnabled ?? true`, `weight ?? 1` (so a weight of 0 is kept), and the four
      limits `?? null`. */
  function ToProvider(row: ProviderRow): (p: Provider)
    ensures p.isEnabled == (row.isEnabled != Some(false))
    ensures row.weight.Some? ==> p.weight == row.weight.value
    ensures row.weight.None? ==> p.weight == 1
    ensures p.id == row.id && p.name == row.name && p.url == row.url && p.key == row.key
    ensures p.tpm == row.tpm && p.rpm == row.rpm && p.rpd == row.rpd && p.cc == row.cc
    ensures p.createdAt == row.createdAt && p.updatedAt == row.updatedAt && p.deletedAt == row.deletedAt
  {
    Provider(row.id, row.name, row.url, row.key, row.isEnabled.GetOr(true), row.weight.GetOr(1),
             row.tpm, row.rpm, row.rpd, row.cc, row.createdAt, row.updatedAt, row.deletedAt)
  }

  /** `toMessageRequest`: `costUsd` is undefined exactly when the column is null. */
  function ToMessageRequest(row: MessageRow): (m: MessageRequest)
    ensures m.costUsd.None? <==> row.costUsd.None?
    ensures m.costUsd == row.costUsd
    ensures m.id == row.id && m.providerId == row.providerId && m.userId == row.userId
    ensures m.key == row.key && m.message == row.message && m.durationMs == row.durationMs
    ensures m.createdAt == row.createdAt && m.updatedAt == row.updatedAt && m.deletedAt == row.deletedAt
  {
    MessageRequest(row.id, row.providerId, row.userId, row.key, row.message, row.durationMs,
                   match row.costUsd case Some(c) => Some(c) case None => None,
                   row.createdAt, row.updatedAt, row.deletedAt)
  }

  /** `toModelPrice`: every field is copied. */
  function ToModelPrice(row: PriceRow): (p: ModelPrice)
    ensures p.id == row.id && p.modelName == row.modelName && p.priceData == row.priceData
    ensures p.createdAt == row.createdAt && p.updatedAt == row.updatedAt
  {
    ModelPrice(row.id, row.modelName, row.priceData, row.createdAt, row.updatedAt)
  }

  /** Transforming is stable: a user entity written back as a row transforms to itself. */
  lemma ToUserIsStable(row: UserRow)
    ensures var u := ToUser(row);
      ToUser(UserRow(u.id, u.name, Some(u.description), Some(u.role), Some(u.rpm),
                     Some(u.dailyQuota), u.createdAt, u.updatedAt, u.deletedAt)) == u
  {
  }

  lemma ToProviderIsStable(row: ProviderRow)
    ensures var p := ToProvider(row);
      ToProvider(ProviderRow(p.id, p.name, p.url, p.key, Some(p.isEnabled), Some(p.weight),
                             p.tpm, p.rpm, p.rpd, p.cc, p.createdAt, p.updatedAt, p.deletedAt)) == p
  {
  }
}
