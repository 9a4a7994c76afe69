/** The start-up check on the listener flags. */
module Checker {

  import opened Wrappers

  const NO_LISTENER: string := "at least one of TCP or UDP must be enabled"

  /**
   * `check_flags`: the server refuses to start when neither a TCP nor a UDP
   * listener is enabled, and accepts every other combination.
   */
  function CheckFlags(tcp: bool, udp: bool): (r: Result<(), string>)
    ensures r.Err? <==> !tcp && !udp
    ensures r.Err? ==> r.error == NO_LISTENER
  {
    if !tcp && !udp then Err(NO_LISTENER) else Ok(())
  }
}
