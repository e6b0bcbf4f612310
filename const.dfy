/** The integration's constants (const.py). */
module Const {
  const DefaultClientId: string := "R0PQyUdjO5B2tBaRnltgitVnnUmjGyld"
  const RedirectUri: string := "be.engie.smart://login-callback/nl"
  const OauthScopes: string := "openid profile roles offline_access"
  const OauthAudience: string := "customer"

  // Config entry keys
  const ConfUsername: string := "username"
  const ConfPassword: string := "password"
  const ConfCustomerNumber: string := "customer_number"
  const ConfMfaMethod: string := "mfa_method"
  const ConfClientId: string := "client_id"
  const ConfAccessToken: string := "access_token"
  const ConfRefreshToken: string := "refresh_token"

  const MfaMethodSms: string := "sms"
  const MfaMethodEmail: string := "email"

  const GasEanPrefix: string := "5414488600"
  const ElectricityEanPrefix: string := "5414488200"

  /** The access token lives about two minutes; it is refreshed every minute. */
  const TokenRefreshIntervalSeconds: nat := 60
}
