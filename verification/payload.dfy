/** The claims carried by the two kinds of signed token (src/types/payload.ts).
    Issue and expiry times are checked by the token verifier, which is not
    modelled, so only the claims the core reads are kept. */
module Payload {
  /** A user's document id, opaque. */
  type UserId = string
  /** A refresh token's unique identifier (a random UUID). */
  type Jti = string

  datatype AccessClaims = AccessClaims(sub: UserId)
  datatype RefreshClaims = RefreshClaims(sub: UserId, jti: Jti)
}
