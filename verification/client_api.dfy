/**
 * What the frontend sees of an API call: the response data on success, or an error
 * whose `response.data` may carry the backend's `error` string or `errors[].msg` list.
 * Both forms turn such an error into a toast message by the same precedence.
 */
module ClientApi {
  import opened Wrappers

  /** The user object the backend returns and the client keeps (`role` as its JSON string). */
  datatype ClientUser = ClientUser(id: string, fullName: string, email: string, role: string)

  /** `err.response.data`: the `error` string and the messages of the `errors` array, if present. */
  datatype ResponseData = ResponseData(error: Option<string>, errors: Option<seq<string>>)

  /** A rejected request; `data` is `None` when there was no response or it had no data. */
  datatype ClientError = ClientError(data: Option<ResponseData>)

  /** The settled promise of `api.post`. */
  datatype ApiResult<+T> = Done(value: T) | Failed(err: ClientError)

  /** A `toast.success` or `toast.error` notification. */
  datatype Toast = SuccessToast(text: string) | ErrorToast(text: string)

  /** `{ token, user }` of a successful login. */
  datatype LoginData = LoginData(token: string, user: ClientUser)

  /**
   * `err.response?.data?.error || err.response?.data?.errors?.[0]?.msg`: the first
   * truthy one, where the empty string counts as absent.
   */
  function ServerMessage(err: ClientError): (m: Option<string>)
    ensures m.Some? ==> m.value != ""
  {
    match err.data
    case None => None
    case Some(d) =>
      if d.error.Some? && d.error.value != "" then d.error
      else if d.errors.Some? && |d.errors.value| > 0 && d.errors.value[0] != "" then Some(d.errors.value[0])
      else None
  }

  /** The toast text for a failed request: the server's message, else the page's fallback. */
  function ErrorMessage(err: ClientError, fallback: string): string {
    match ServerMessage(err)
    case Some(m) => m
    case None => fallback
  }

  /**
   * The precedence: a non-empty `error` wins; otherwise a non-empty first `errors[].msg`;
   * otherwise the fallback.
   */
  lemma ErrorMessagePrecedence(err: ClientError, fallback: string)
    ensures err.data.Some? && err.data.value.error.Some? && err.data.value.error.value != "" ==>
      ErrorMessage(err, fallback) == err.data.value.error.value
    ensures err.data.Some? && (err.data.value.error.None? || err.data.value.error.value == "")
            && err.data.value.errors.Some? && |err.data.value.errors.value| > 0
            && err.data.value.errors.value[0] != "" ==>
      ErrorMessage(err, fallback) == err.data.value.errors.value[0]
    ensures ErrorMessage(err, fallback) == fallback <==> ServerMessage(err).None? || ServerMessage(err) == Some(fallback)
  {
  }

  /** The toast is never empty when the fallback is not. */
  lemma ErrorMessageNonEmpty(err: ClientError, fallback: string)
    requires fallback != ""
    ensures ErrorMessage(err, fallback) != ""
  {
  }

  /** Two pages with different fallbacks show the same text exactly when the server gave one. */
  lemma PagesShareServerMessage(err: ClientError, f1: string, f2: string)
    requires f1 != f2
    ensures ErrorMessage(err, f1) == ErrorMessage(err, f2) <==> ServerMessage(err).Some?
  {
  }
}
