/** What parsing a signed access token can give. The signature check and the
    claims decoding are not modelled: a token is summed up by its outcome. */
module Jwt {
  import opened Strs

  /** `parseUserId` succeeding with the subject's user id, failing with an
      `ExpiredJwtException`, failing with any other `JwtException`, or
      throwing something that is not a `JwtException` at all: the
      `IllegalArgumentException` JJWT raises for a blank token, or the
      `NumberFormatException` of a subject that is not a number. */
  datatype JwtOutcome = Parsed(userId: int) | Expired | Invalid | Malformed {
    /** `isValid` and `isExpired` catch only `JwtException`, so for this
        outcome they throw instead of answering. */
    predicate Escapes() { Malformed? }
    /** `isValid`, when it answers: the token parses. */
    predicate IsValid() { Parsed? }
    /** `isExpired`, when it answers: the parse failed because the token expired. */
    predicate IsExpired() { Expired? }
  }

  /** JJWT checks that the compact string has text before anything else,
      and refuses a blank one with an `IllegalArgumentException`. */
  ghost predicate RefusesBlank(parse: string -> JwtOutcome) {
    forall token :: IsBlank(token) ==> parse(token) == Malformed
  }
}
