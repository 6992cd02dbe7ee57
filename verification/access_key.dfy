/**
 * The access-key gate every handler runs first (`verify_access_key`, with
 * `validate_access_key`): when the stored configuration requires a key, the
 * request's `X-Access-Key` header must be non-empty and equal to the stored
 * key. The rejection is `abort(401)`, which raises inside the handler's
 * `try`; the handler's `except Exception` turns it into the generic 500
 * payload. The model keeps that behaviour as `VerifyAsWritten` and uses the
 * intended 401 answer, `Verify`, everywhere else.
 */
module AccessKey {
  import opened Wrappers

  /** The access-key columns of the stored configuration row. */
  datatype KeySettings = KeySettings(requireAccessKey: bool, accessKey: Option<string>)

  /** `validate_access_key(apikey)`: the caller's identity, given only when a key is required and it matches. */
  function ValidateAccessKey(config: Option<KeySettings>, apikey: Option<string>): Option<string>
  {
    if config.Some? && config.value.requireAccessKey && apikey.Some? && apikey.value != ""
       && apikey == config.value.accessKey
    then Some("zoom_api_user")
    else None
  }

  /** `verify_access_key` aborts: a key is required and the header does not validate. */
  predicate Rejects(config: Option<KeySettings>, header: Option<string>)
  {
    config.Some? && config.value.requireAccessKey && ValidateAccessKey(config, header).None?
  }

  /**
   * A request is turned away exactly when a key is required and the header
   * is absent, empty, or not the stored key; a stored key that is itself
   * absent turns every request away.
   */
  lemma RejectsExactly(config: Option<KeySettings>, header: Option<string>)
    ensures Rejects(config, header) <==>
      && config.Some? && config.value.requireAccessKey
      && (header.None? || header.value == "" || config.value.accessKey != header)
    ensures config.Some? && config.value.requireAccessKey && config.value.accessKey.None? ==> Rejects(config, header)
    ensures ValidateAccessKey(config, header).Some? ==> config.Some? && config.value.requireAccessKey
  {
  }

  /** What the gate makes of a request: it goes on, or it is answered 401, or with the 500 payload. */
  datatype GateOutcome = Pass | Unauthorized | InternalError

  /** The gate as the handlers run it: the 401 abort is caught by their catch-all and becomes the 500 payload. */
  function VerifyAsWritten(config: Option<KeySettings>, header: Option<string>): GateOutcome
  {
    if Rejects(config, header) then InternalError else Pass
  }

  /** The gate as intended: a rejected request is answered 401. */
  function Verify(config: Option<KeySettings>, header: Option<string>): GateOutcome
  {
    if Rejects(config, header) then Unauthorized else Pass
  }

  /**
   * As written, no request is ever answered 401: one with a wrong or missing
   * key, such as a request without the header when the key "secret" is
   * required, gets the 500 payload instead.
   */
  lemma AsWrittenNeverUnauthorized(config: Option<KeySettings>, header: Option<string>)
    ensures VerifyAsWritten(config, header) != Unauthorized
    ensures VerifyAsWritten(Some(KeySettings(true, Some("secret"))), None) == InternalError
  {
    assert Rejects(Some(KeySettings(true, Some("secret"))), None);
  }

  /** As intended, a request is answered 401 exactly when the gate rejects it, and otherwise passes. */
  lemma VerifyAnswersUnauthorized(config: Option<KeySettings>, header: Option<string>)
    ensures Verify(config, header) == Unauthorized <==> Rejects(config, header)
    ensures Verify(config, header) != InternalError
    ensures Verify(config, header) == Pass <==> VerifyAsWritten(config, header) == Pass
  {
  }
}
