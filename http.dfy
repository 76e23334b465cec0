/**
 * A response of the remote administration API, as the components see it once the
 * `fetch` promise has settled. Decoding the JSON body is left out: the body arrives
 * already decoded into its three fields.
 */
module Http {
  import opened Wrappers

  /** The decoded JSON body: `IsSuccess`, `Message` and the component-specific `payLoad` part. */
  datatype Body<P> = Body(isSuccess: bool, message: Option<string>, payload: Option<P>)

  datatype Reply<P> =
    /** `fetch` rejected, or the body was not JSON; `reason` is the thrown error's message. */
    | Rejected(reason: string)
    /** A response arrived; `ok` is `response.ok`, the body is read only by code that reads it. */
    | Received(ok: bool, status: nat, statusText: string, body: Body<P>)

  /** JavaScript truthiness of an optional string: present and not empty. */
  predicate Truthy(m: Option<string>) {
    m.Some? && m.value != ""
  }

  /** `m || fallback` on an optional string. */
  function OrElse(m: Option<string>, fallback: string): (r: string)
    ensures fallback != "" ==> r != ""
    ensures Truthy(m) ==> r == m.value
    ensures !Truthy(m) ==> r == fallback
  {
    if Truthy(m) then m.value else fallback
  }
}
