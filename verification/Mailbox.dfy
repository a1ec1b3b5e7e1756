/** What selective receive does to a mailbox. */
module Mailbox {

  /** The mailbox without its k-th message; the others keep their order. */
  function Without<T>(s: seq<T>, k: nat): seq<T>
    requires k < |s|
  {
    s[..k] + s[k + 1..]
  }
}
