/**
 * The token record behind `get_calendar_service` and `reauthenticate_user`:
 * a single persisted credential that is present or absent, and valid or not.
 */
module Credentials {
  import opened Wrappers

  /** A stored credential: opaque token material and whether it is valid when loaded. */
  datatype Credential = Credential(material: string, valid: bool)

  /** The status of a reauthentication: a token was deleted, or there was none. */
  datatype ReauthStatus = Success | Info

  /** The message that accompanies a reauthentication status. */
  function ReauthMessage(s: ReauthStatus): (m: string)
    ensures m != ""
  {
    match s
    case Success => "Token deleted. Please authenticate again to reauthorize or switch accounts."
    case Info => "No token found. Next operation will trigger OAuth flow."
  }

  /** A stored token is usable as it is: present and valid. */
  predicate Usable(token: Option<Credential>)
  {
    token.Some? && token.value.valid
  }

  /** The token file, `None` when it does not exist. */
  class TokenStore {
    var token: Option<Credential>

    constructor (initial: Option<Credential>)
      ensures token == initial
    {
      token := initial;
    }

    /**
     * Obtains the credential for a service handle. A present, valid token is
     * used as it is and the file is left alone. An absent or invalid token is
     * replaced by the credential of the interactive consent flow, `flow`, and
     * the file is rewritten; there is no refresh step in between. Either way
     * the returned credential is valid and is the one on file.
     */
    method GetCalendarService(flow: Credential) returns (creds: Credential, ranFlow: bool)
      requires flow.valid
      modifies this
      ensures ranFlow <==> !Usable(old(token))
      ensures !ranFlow ==> token == old(token) && creds == old(token).value
      ensures ranFlow ==> token == Some(flow) && creds == flow
      ensures creds.valid && token == Some(creds)
    {
      if token.None? || !token.value.valid {
        creds := flow;
        token := Some(creds);
        ranFlow := true;
      } else {
        creds := token.value;
        ranFlow := false;
      }
    }

    /**
     * Deletes the token file if it exists. Afterwards there is no token; the
     * status is `Success` exactly when one existed, `Info` otherwise, and the
     * payload's message is that status's message.
     */
    method Reauthenticate() returns (status: ReauthStatus, message: string)
      modifies this
      ensures token.None?
      ensures status == (if old(token).Some? then Success else Info)
      ensures message == ReauthMessage(status)
    {
      if token.Some? {
        token := None;
        status, message := Success, ReauthMessage(Success);
      } else {
        status, message := Info, ReauthMessage(Info);
      }
    }

    /**
     * The passage of time past the access token's expiry: the token on file,
     * if any, is no longer valid when it is next loaded.
     */
    method Expire()
      modifies this
      ensures token == if old(token).Some? then Some(old(token).value.(valid := false)) else None
    {
      if token.Some? {
        token := Some(token.value.(valid := false));
      }
    }
  }

  /** After a reauthentication the next service call always runs the consent flow. */
  method ReauthenticateThenConnect(store: TokenStore, flow: Credential) returns (ranFlow: bool)
    requires flow.valid
    modifies store
    ensures ranFlow && store.token == Some(flow)
  {
    var _, _ := store.Reauthenticate();
    var creds;
    creds, ranFlow := store.GetCalendarService(flow);
  }

  /**
   * A second service call right after a first, with no expiry in between,
   * never runs the flow again nor rewrites the token.
   */
  method ConnectTwice(store: TokenStore, flow1: Credential, flow2: Credential) returns (first: Credential, second: Credential, secondRanFlow: bool)
    requires flow1.valid && flow2.valid
    modifies store
    ensures !secondRanFlow && second == first && store.token == Some(first)
  {
    var firstRanFlow;
    first, firstRanFlow := store.GetCalendarService(flow1);
    second, secondRanFlow := store.GetCalendarService(flow2);
  }

  /** A service call after the token on file has expired always runs the consent flow. */
  method ExpireThenConnect(store: TokenStore, flow: Credential) returns (ranFlow: bool)
    requires flow.valid
    modifies store
    ensures ranFlow && store.token == Some(flow)
  {
    store.Expire();
    var creds;
    creds, ranFlow := store.GetCalendarService(flow);
  }

  /**
   * A token obtained by a service call and then expired is replaced on the
   * next call: expiry between two calls makes the second run the flow.
   */
  method ConnectExpireConnect(store: TokenStore, flow1: Credential, flow2: Credential) returns (secondRanFlow: bool)
    requires flow1.valid && flow2.valid
    modifies store
    ensures secondRanFlow && store.token == Some(flow2)
  {
    var first, firstRanFlow := store.GetCalendarService(flow1);
    store.Expire();
    var second;
    second, secondRanFlow := store.GetCalendarService(flow2);
  }
}
