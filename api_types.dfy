/** The shapes declared in src/types/api.ts and src/types/auth.ts that the core uses. */
module ApiTypes {
  import opened Web

  /** The single error shape surfaced to callers. `message` is whatever the code put
      there: usually a string, but a server body's truthy non-string `message` is
      passed through as it is. `code` and `details` are None when undefined. */
  datatype ApiError = ApiError(message: Json, status: int, code: Option<Json>, details: Option<Json>)

  /** What a successful request resolves to: the parsed JSON or the raw text. */
  datatype Data = JsonData(json: Json) | TextData(text: string)

  datatype ApiResponse = ApiResponse(data: Data, success: bool, status: int)

  datatype User = User(id: string, name: string, email: string, mobile: string)

  datatype Risk = Low | Medium | High

  datatype Holding = Holding(symbol: string, name: string, weight: real, price: real, changePct: real)

  /** A basket; `riskLabel` is the record's `label` field (`label` is a Dafny keyword). */
  datatype Basket = Basket(id: string, name: string, risk: Risk, riskLabel: string,
                           oneDayChangePct: real, currentValue: real, description: string,
                           holdings: seq<Holding>)

  datatype Investment = Investment(userMobile: string, basketId: string, units: real, totalInvested: real)

  /** SendOtpResponse: `{status, code, data: [{otp}]}` */
  datatype SendOtpResponse = SendOtpResponse(status: string, code: int, otps: seq<string>)

  /** VerifyOtpResponse: `{status, code, data: [{accessToken}]}` */
  datatype VerifyOtpResponse = VerifyOtpResponse(status: string, code: int, accessTokens: seq<string>)
}
