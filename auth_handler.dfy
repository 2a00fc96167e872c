/** api/auth.ts: PIN login. The PIN is digested with SHA-256, written as lowercase hex and
    looked up in the `access_pins` table; a match yields an HS256-signed JWT (RFC 7519) whose
    only claims are the row's label and an expiry two hours ahead. SHA-256, the signer, the
    clock and the health of the database connection are inputs (`Services`). */
module AuthApi {
  import opened Wrappers
  import Crypto
  import Http

  /** Two hours, the lifetime of a session in seconds: `setExpirationTime('2h')`. */
  const SessionSeconds := 7200

  /** The destructured JSON body `{ pin }`; a missing pin is None. */
  datatype AuthBody = AuthBody(pin: Option<string>)

  /** The request: its method and its body, None when `req.json()` throws. */
  datatype AuthRequest = AuthRequest(httpMethod: string, body: Option<AuthBody>)

  datatype PinRow = PinRow(id: string, pinHash: string, userLabel: string, usageCount: int)

  /** The JWT claims set: the label and the expiry time, nothing else (no id, no secret). */
  datatype Claims = Claims(userLabel: string, exp: int)

  datatype Effect =
    | Digest(input: string)
    | Connect
    | SelectByPinHash(hash: string)
    | Sign(claims: Claims)
    | BumpUsage(id: string)

  datatype Services = Services(
    sha256: string -> seq<Crypto.Byte>,
    dbConnects: bool,
    sign: Claims -> string,
    nowSeconds: int)

  /** `!pin`: absent or empty. */
  predicate PinMissing(pin: Option<string>) {
    pin.None? || pin.value == ""
  }

  /** `SELECT * FROM access_pins WHERE pin_hash = h LIMIT 1`: the first matching row. */
  function FirstWithHash(rows: seq<PinRow>, h: string): (r: Option<PinRow>)
    ensures r.Some? <==> exists i | 0 <= i < |rows| :: rows[i].pinHash == h
    ensures r.Some? ==> r.value in rows && r.value.pinHash == h
  {
    if rows == [] then None
    else if rows[0].pinHash == h then Some(rows[0])
    else FirstWithHash(rows[1..], h)
  }

  /** The lookup key: the PIN's digest in the same lowercase hex as the content hash. */
  function PinKey(svc: Services, pin: string): string {
    Crypto.HashText(svc.sha256, pin)
  }

  /** Two PINs select the same row only if their digests agree: the hex key is a faithful
      stand-in for the digest. */
  lemma SameKeySameDigest(svc: Services, p: string, q: string)
    requires PinKey(svc, p) == PinKey(svc, q)
    ensures svc.sha256(p) == svc.sha256(q)
  {
    Crypto.HexInjective(svc.sha256(p), svc.sha256(q));
  }

  const SystemError := Http.Response(500, Http.ErrorJson("System Error"))

  /** The PIN matches a row and the database answered the lookup. */
  predicate Admitted(svc: Services, rows: seq<PinRow>, pin: string) {
    svc.dbConnects && FirstWithHash(rows, PinKey(svc, pin)).Some?
  }

  /** Lines 16-54, for a present PIN: the digest, the lookup, 401 without a match, otherwise
      the signed token and 200; a database failure is a 500. */
  method Process(pin: string, svc: Services, rows: seq<PinRow>)
    returns (resp: Http.Response, trace: seq<Effect>)
    ensures resp.status in {200, 401, 500}
    ensures !svc.dbConnects ==> resp == SystemError && trace == [Digest(pin), Connect]
    ensures resp.status == 500 ==> resp == SystemError
    ensures resp.status == 401 <==> svc.dbConnects && FirstWithHash(rows, PinKey(svc, pin)).None?
    ensures resp.status == 401 ==>
      && resp.body == Http.ErrorJson("Invalid PIN")
      && trace == [Digest(pin), Connect, SelectByPinHash(PinKey(svc, pin))]
    ensures resp.status == 200 <==> Admitted(svc, rows, pin)
    ensures resp.status == 200 ==>
      var h := PinKey(svc, pin);
      var user := FirstWithHash(rows, h).value;
      var claims := Claims(user.userLabel, svc.nowSeconds + SessionSeconds);
      && trace == [Digest(pin), Connect, SelectByPinHash(h), Sign(claims), BumpUsage(user.id)]
      && resp.body == Http.SessionJson(svc.sign(claims), user.userLabel, SessionSeconds)
      && claims.exp - svc.nowSeconds == resp.body.expiresIn
  {
    // 1. the PIN's hex digest, 2. the lookup
    var inputHash := PinKey(svc, pin);
    if !svc.dbConnects {
      return SystemError, [Digest(pin), Connect];
    }
    var found := FirstWithHash(rows, inputHash);
    if found.None? {
      return Http.Response(401, Http.ErrorJson("Invalid PIN")), [Digest(pin), Connect, SelectByPinHash(inputHash)];
    }
    var user := found.value;
    // 3. the session token, 4. the usage counter, not awaited
    var claims := Claims(user.userLabel, svc.nowSeconds + SessionSeconds);
    var token := svc.sign(claims);
    trace := [Digest(pin), Connect, SelectByPinHash(inputHash), Sign(claims), BumpUsage(user.id)];
    resp := Http.Response(200, Http.SessionJson(token, user.userLabel, SessionSeconds));
  }

  /** The handler: 405 for a non-POST request, 500 for an unreadable body, 400 for a missing
      PIN (before hashing or the lookup), then the steps of `Process`. The usage counter
      update is fired without waiting and has no bearing on the response. */
  method Handle(req: AuthRequest, svc: Services, rows: seq<PinRow>)
    returns (resp: Http.Response, trace: seq<Effect>)
    ensures resp.status in {200, 400, 401, 405, 500}
    ensures req.httpMethod != "POST" ==> resp == Http.MethodNotAllowed && trace == []
    ensures req.httpMethod == "POST" && req.body.None? ==> resp == SystemError && trace == []
    ensures req.httpMethod == "POST" && req.body.Some? && PinMissing(req.body.value.pin) ==>
      resp == Http.Response(400, Http.PlainText("PIN required")) && trace == []
    ensures req.httpMethod == "POST" && req.body.Some? && !PinMissing(req.body.value.pin) && !svc.dbConnects ==>
      resp == SystemError && trace == [Digest(req.body.value.pin.value), Connect]
    ensures resp.status == 401 <==>
      && req.httpMethod == "POST" && req.body.Some? && !PinMissing(req.body.value.pin)
      && svc.dbConnects && FirstWithHash(rows, PinKey(svc, req.body.value.pin.value)).None?
    ensures resp.status == 401 ==>
      && resp.body == Http.ErrorJson("Invalid PIN")
      && trace == [Digest(req.body.value.pin.value), Connect, SelectByPinHash(PinKey(svc, req.body.value.pin.value))]
    ensures resp.status == 200 <==>
      req.httpMethod == "POST" && req.body.Some? && !PinMissing(req.body.value.pin)
      && Admitted(svc, rows, req.body.value.pin.value)
    ensures resp.status == 200 ==>
      var pin := req.body.value.pin.value;
      var h := PinKey(svc, pin);
      var user := FirstWithHash(rows, h).value;
      var claims := Claims(user.userLabel, svc.nowSeconds + SessionSeconds);
      && trace == [Digest(pin), Connect, SelectByPinHash(h), Sign(claims), BumpUsage(user.id)]
      && resp.body == Http.SessionJson(svc.sign(claims), user.userLabel, SessionSeconds)
      && claims.exp - svc.nowSeconds == resp.body.expiresIn
  {
    trace := [];
    if req.httpMethod != "POST" {
      return Http.MethodNotAllowed, trace;
    }
    if req.body.None? {
      return SystemError, trace;
    }
    var pin := req.body.value.pin;
    if PinMissing(pin) {
      return Http.Response(400, Http.PlainText("PIN required")), trace;
    }
    resp, trace := Process(pin.value, svc, rows);
  }
}
