/** The login page's submit handler: post the credentials, require a token
    in the reply, store it and go to the dashboard, or show an error. */
module Login {
  import opened Wrappers
  import opened Text
  import Auth
  import Api

  const NoTokenMessage: string := "No token received"
  const DefaultMessage: string := "Login failed. Please try again."
  const DashboardPath: string := "/dashboard"

  /** The part of a successful login reply the page reads: `res.data.token`. */
  datatype LoginReply = LoginReply(token: Option<string>)

  /** The error the handler throws itself when the reply has no token. */
  const NoTokenError: Api.HttpError := Api.HttpError(None, None, NoTokenMessage)

  /** `err.response?.data?.message || err.message || default`: the server's
      message first, then the error's own, then the fixed text. */
  function ErrorMessage(e: Api.HttpError): (m: string)
    ensures m != ""
    ensures Truthy(Api.ServerMessage(e)) ==> m == Api.ServerMessage(e).value
    ensures !Truthy(Api.ServerMessage(e)) && e.message != "" ==> m == e.message
    ensures !Truthy(Api.ServerMessage(e)) && e.message == "" ==> m == DefaultMessage
  {
    var c := [Api.ServerMessage(e), Some(e.message)];
    assert !Truthy(c[0]) ==> FirstTruthy(c, DefaultMessage) == FirstTruthy(c[1..], DefaultMessage);
    FirstTruthy(c, DefaultMessage)
  }

  class LoginPage {
    var error: string
    var loading: bool

    constructor ()
      ensures error == "" && !loading
    {
      error := "";
      loading := false;
    }

    /** `handleSubmit`, given how the login request ends at the server. The
        reply first goes through the client's response interceptor. A token
        is stored through `handleLogin` (which evicts it again if it cannot be
        decoded) and the page moves to the dashboard; a reply without a token
        shows "No token received" and touches neither the slot nor the
        address; a rejection shows its message. */
    method HandleSubmit(client: Api.Client, decode: Auth.Decoder, reply: Api.Settled<LoginReply>)
      modifies this, client.store, client.location
      ensures !loading
      ensures reply.Resolved? && Truthy(reply.value.token) ==>
        var t := reply.value.token.value;
        && error == ""
        && client.location.path == DashboardPath
        && client.store.token == (if decode(t).Some? then Some(t) else None)
      ensures reply.Resolved? && !Truthy(reply.value.token) ==>
        && error == NoTokenMessage
        && client.store.token == old(client.store.token)
        && client.location.path == old(client.location.path)
      ensures reply.Rejected? ==>
        && error == ErrorMessage(reply.error)
        && (Api.Unauthorized(reply.error) ==> client.store.token == None && client.location.path == Api.LoginPath)
        && (!Api.Unauthorized(reply.error) ==>
              client.store.token == old(client.store.token) && client.location.path == old(client.location.path))
    {
      loading := true;
      error := "";
      var settled := client.OnResponse(reply);
      match settled {
        case Resolved(data) =>
          if !Truthy(data.token) {
            error := ErrorMessage(NoTokenError);
          } else {
            var _ := client.store.HandleLogin(data.token.value, decode);
            client.location.Navigate(DashboardPath);
          }
        case Rejected(e) =>
          error := ErrorMessage(e);
      }
      loading := false;
    }
  }
}
