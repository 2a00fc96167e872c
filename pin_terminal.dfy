/** src/components/auth/PinTerminal.tsx: the PIN entry form. Its three pieces of React state
    are the fields of `PinTerminal`; the auth store it logs into is an `AuthStore.AuthState`.
    The reply of `/api/auth` is an input (`ClientApi.Reply`). */
module PinTerminal {
  import opened Wrappers
  import JsString
  import ClientApi
  import AuthStore
  import AuthApi
  import Http

  /** A PIN shorter than this is neither submitted nor submittable. */
  const MinPinLength := 4

  class PinTerminal {
    var pin: string
    var isLoading: bool
    var error: Option<string>

    /** The submit button is disabled exactly while the PIN is too short. */
    predicate SubmitDisabled()
      reads this
    {
      |pin| < MinPinLength
    }

    /** An empty form, not loading, with no error shown. */
    constructor ()
      ensures pin == "" && !isLoading && error == None
      ensures SubmitDisabled()
    {
      pin := "";
      isLoading := false;
      error := None;
    }

    /** The input's `onChange`: every non-digit of the typed value is dropped (`/\D/g`). */
    method OnChange(value: string)
      modifies this
      ensures pin == JsString.DigitsOnly(value)
      ensures forall i | 0 <= i < |pin| :: JsString.IsDigit(pin[i])
      ensures |pin| <= |value|
      ensures isLoading == old(isLoading) && error == old(error)
    {
      pin := JsString.DigitsOnly(value);
    }

    /** The synchronous part of `handleSubmit`: a short PIN does nothing and sends nothing;
        otherwise the form starts loading, clears the error and sends the PIN as it stands. */
    method BeginSubmit() returns (sent: Option<string>)
      modifies this
      ensures old(|pin|) < MinPinLength ==>
        sent == None && pin == old(pin) && isLoading == old(isLoading) && error == old(error)
      ensures old(|pin|) >= MinPinLength ==>
        sent == Some(old(pin)) && pin == old(pin) && isLoading && error == None
    {
      if |pin| < MinPinLength {
        return None;
      }
      isLoading := true;
      error := None;
      sent := Some(pin);
    }

    /** The part of `handleSubmit` after `verifyPin` settles. Success logs in with the
        returned token and label and keeps the PIN; failure shows the thrown message, clears
        the PIN and leaves the session alone. Loading ends either way (`finally`). */
    method FinishSubmit(reply: ClientApi.Reply<ClientApi.SessionBody>, auth: AuthStore.AuthState)
      modifies this, auth
      ensures !isLoading
      ensures ClientApi.VerifyPin(reply).Success? ==>
        && auth.isAuthenticated
        && auth.sessionToken == Some(ClientApi.VerifyPin(reply).value.token)
        && auth.userLabel == Some(ClientApi.VerifyPin(reply).value.userLabel)
        && pin == old(pin) && error == old(error)
      ensures ClientApi.VerifyPin(reply).Failure? ==>
        && error == Some(ClientApi.GetErrorMessage(ClientApi.VerifyPin(reply).error))
        && pin == ""
        && auth.isAuthenticated == old(auth.isAuthenticated)
        && auth.sessionToken == old(auth.sessionToken)
        && auth.userLabel == old(auth.userLabel)
      ensures old(auth.Consistent()) ==> auth.Consistent()
    {
      var outcome := ClientApi.VerifyPin(reply);
      if outcome.Success? {
        auth.Login(outcome.value.token, outcome.value.userLabel);
      } else {
        error := Some(ClientApi.GetErrorMessage(outcome.error));
        pin := "";
      }
      isLoading := false;
    }

    /** `handleSubmit` as a whole, with the server's reply to the PIN it sends. A short PIN
        changes nothing. A submitted PIN is at least four digits long when typed through
        `OnChange`; a rejection from the server always leaves a non-empty message. */
    method HandleSubmit(reply: ClientApi.Reply<ClientApi.SessionBody>, auth: AuthStore.AuthState)
      returns (sent: Option<string>)
      modifies this, auth
      ensures sent.None? <==> old(|pin|) < MinPinLength
      ensures sent.None? ==>
        && pin == old(pin) && isLoading == old(isLoading) && error == old(error)
        && auth.isAuthenticated == old(auth.isAuthenticated)
        && auth.sessionToken == old(auth.sessionToken)
        && auth.userLabel == old(auth.userLabel)
      ensures sent.Some? ==>
        && sent.value == old(pin) && |sent.value| >= MinPinLength && !isLoading
        && (ClientApi.VerifyPin(reply).Success? ==>
              && auth.isAuthenticated
              && auth.sessionToken == Some(ClientApi.VerifyPin(reply).value.token)
              && auth.userLabel == Some(ClientApi.VerifyPin(reply).value.userLabel)
              && pin == old(pin) && error == None)
        && (ClientApi.VerifyPin(reply).Failure? ==>
              && error == Some(ClientApi.GetErrorMessage(ClientApi.VerifyPin(reply).error))
              && pin == ""
              && auth.isAuthenticated == old(auth.isAuthenticated)
              && auth.sessionToken == old(auth.sessionToken)
              && auth.userLabel == old(auth.userLabel))
        && (reply.Rejected? ==> error.Some? && error.value != "")
      ensures old(auth.Consistent()) ==> auth.Consistent()
    {
      sent := BeginSubmit();
      if sent.Some? {
        ClientApi.RejectionMessageNonEmpty(if reply.Rejected? then reply.error else None);
        FinishSubmit(reply, auth);
      }
    }

    /** One submission end to end: the PIN the form sends is the body of a POST to
        `/api/auth`, and the handler's reply reaches the form through `verifyPin`. The form
        logs in exactly when the database is reachable and some row holds the PIN's hex
        digest, with the token signed for that row's label and a two-hour expiry; otherwise
        it shows the handler's own error text and the session is left alone. */
    method SubmitToServer(svc: AuthApi.Services, rows: seq<AuthApi.PinRow>, parseError: string, auth: AuthStore.AuthState)
      returns (sent: Option<string>)
      modifies this, auth
      ensures sent.None? <==> old(|pin|) < MinPinLength
      ensures sent.None? ==>
        && pin == old(pin) && isLoading == old(isLoading) && error == old(error)
        && auth.isAuthenticated == old(auth.isAuthenticated)
        && auth.sessionToken == old(auth.sessionToken)
        && auth.userLabel == old(auth.userLabel)
      ensures sent.Some? ==>
        var found := AuthApi.FirstWithHash(rows, AuthApi.PinKey(svc, old(pin)));
        && !isLoading
        && (svc.dbConnects && found.Some? ==>
              && auth.isAuthenticated
              && auth.sessionToken == Some(svc.sign(AuthApi.Claims(found.value.userLabel, svc.nowSeconds + AuthApi.SessionSeconds)))
              && auth.userLabel == Some(found.value.userLabel)
              && error == None)
        && (svc.dbConnects && found.Some? ==> pin == old(pin))
        && (!svc.dbConnects ==> error == Some("System Error"))
        && (svc.dbConnects && found.None? ==> error == Some("Invalid PIN"))
        && (!svc.dbConnects || found.None? ==>
              && pin == ""
              && auth.isAuthenticated == old(auth.isAuthenticated)
              && auth.sessionToken == old(auth.sessionToken)
              && auth.userLabel == old(auth.userLabel))
      ensures old(auth.Consistent()) ==> auth.Consistent()
    {
      sent := BeginSubmit();
      if sent.Some? {
        var req := AuthApi.AuthRequest("POST", Some(AuthApi.AuthBody(sent)));
        var resp, trace := AuthApi.Handle(req, svc, rows);
        assert !AuthApi.PinMissing(sent);
        var found := AuthApi.FirstWithHash(rows, AuthApi.PinKey(svc, sent.value));
        if !svc.dbConnects {
          assert resp == AuthApi.SystemError;
        } else if found.None? {
          assert resp.status != 200;
          assert resp == Http.Response(401, Http.ErrorJson("Invalid PIN"));
        } else {
          assert resp.status == 200;
        }
        var reply := ClientApi.SessionReply(resp, parseError);
        FinishSubmit(reply, auth);
      }
    }
  }
}
