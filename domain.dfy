/** The stored rows of the five tables (as the database driver returns them, before the
    repository's transformers run) and the entities the rest of the system works with
    (the declarations under src/types). Times are milliseconds since the epoch; numeric columns are `real`. */
module Domain {
  import opened Wrappers
  import opened Json

  /** A member of a partial-update object: left out of the object, present as `undefined`,
      or present with a value. Only a present value is written; an object whose members are all
      left out is the empty patch (`Object.keys(data).length === 0`). */
  datatype Field<+T> = Omitted | Undefined | Given(value: T) {
    function Or<U>(current: U, f: T -> U): U {
      if Given? then f(value) else current
    }
  }

  // ---------------------------------------------------------------------------------------
  // Rows

  datatype UserRow = UserRow(
    id: int, name: string, description: Option<string>, role: Option<string>,
    rpm: Option<int>, dailyQuota: Option<real>,
    createdAt: int, updatedAt: int, deletedAt: Option<int>)

  datatype KeyRow = KeyRow(
    id: int, userId: int, name: string, key: string,
    isEnabled: Option<bool>, expiresAt: Option<int>,
    createdAt: int, updatedAt: int, deletedAt: Option<int>)

  datatype ProviderRow = ProviderRow(
    id: int, name: string, url: string, key: string,
    isEnabled: Option<bool>, weight: Option<int>,
    tpm: Option<int>, rpm: Option<int>, rpd: Option<int>, cc: Option<int>,
    createdAt: int, updatedAt: int, deletedAt: Option<int>)

  datatype MessageRow = MessageRow(
    id: int, providerId: int, userId: int, key: string, message: Json,
    durationMs: Option<int>, costUsd: Option<real>,
    createdAt: int, updatedAt: int, deletedAt: Option<int>)

  datatype PriceRow = PriceRow(
    id: int, modelName: string, priceData: Json, createdAt: int, updatedAt: int)

  // ---------------------------------------------------------------------------------------
  // Entities

  datatype User = User(
    id: int, name: string, description: string, role: string, rpm: int, dailyQuota: real,
    createdAt: int, updatedAt: int, deletedAt: Option<int>)

  datatype Key = Key(
    id: int, userId: int, name: string, key: string, isEnabled: bool, expiresAt: Option<int>,
    createdAt: int, updatedAt: int, deletedAt: Option<int>)

  datatype Provider = Provider(
    id: int, name: string, url: string, key: string, isEnabled: bool, weight: int,
    tpm: Option<int>, rpm: Option<int>, rpd: Option<int>, cc: Option<int>,
    createdAt: int, updatedAt: int, deletedAt: Option<int>)

  datatype MessageRequest = MessageRequest(
    id: int, providerId: int, userId: int, key: string, message: Json,
    durationMs: Option<int>, costUsd: Option<real>,
    createdAt: int, updatedAt: int, deletedAt: Option<int>)

  datatype ModelPrice = ModelPrice(
    id: int, modelName: string, priceData: Json, createdAt: int, updatedAt: int)

  const AdminRole := "admin"
  const UserRole := "user"
}
