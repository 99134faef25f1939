/**
 * The wrapper's own error cases, and the errors that reach a caller's
 * completion: either one of those cases or an error raised by a library
 * (the OAuth2 client, the JSON decoder) that the wrapper passes through.
 */
module Errors {

  datatype OAuth2WrapperErrors =
    | MissingOAuth2AuthURL
    | MissingOAuth2TokenURL
    | MissingOAuth2ClientID
    | MissingOAuth2ClientSecret
    | MissingOAuth2Scope
    | KeychainError

  /** Swift's `Error`: the wrapper's enum, or an opaque error from a library. */
  datatype Error =
    | WrapperError(kind: OAuth2WrapperErrors)
    | ForeignError(description: string)
}
