/** Optional values, outcomes, bytes and powers of two, shared by the models. */
module Common {

  datatype Option<+T> = None | Some(value: T)

  datatype Result<+T, +E> = Ok(value: T) | Err(error: E)

  type Byte = n: int | 0 <= n < 256

  /** JavaScript truthiness of an optional text: present and not empty. */
  predicate Given(text: Option<string>) {
    text.Some? && text.value != ""
  }

  /** The text, or the default when it is absent or empty (JavaScript's ||). */
  function Or(text: Option<string>, default: string): string {
    if Given(text) then text.value else default
  }

  function Power2(n: nat): (r: nat)
    ensures r >= 1
  {
    if n == 0 then 1 else 2 * Power2(n - 1)
  }
}
