/** src/lib/constants/provider.constants.ts and user.constants.ts: the bounds and defaults the
    schemas and forms share. */
module Constants {
  const WeightMin := 0
  const WeightMax := 100
  const TpmMin := 10000
  const TpmMax := 3000000
  const TpmStep := 1000
  const ProviderRpmMin := 1
  const ProviderRpmMax := 500
  const RpdMin := 1
  const RpdMax := 5000
  const CcMin := 1
  const CcMax := 200

  const DefaultProviderEnabled := false
  const DefaultWeight := 1

  const UserRpmMin := 1
  const UserRpmMax := 10000
  const DailyQuotaMin := 0.01
  const DailyQuotaMax := 1000.0
  const DefaultUserRpm := 100
  const DefaultDailyQuota := 100.0
}
