/** Access tokens at the level of their claims; the HS256 signature is abstracted away. */
module AccessTokens {
  import opened Options
  import opened Clock
  import opened SortedStrings
  import Decimals

  datatype Json = Text(text: string) | Number(n: int) | Boolean(b: bool) | List(items: seq<Json>) | OtherJson

  type Payload = map<string, Json>

  const REQUIRED: set<string> := {"sub", "exp", "iat", "jti", "roles", "perms"}

  /** What the issuer passed to the encoder, and the instant it read from the clock. */
  datatype Grant = Grant(user: nat, roles: set<string>, permissions: set<string>, at: int, jti: string)

  datatype Claims = Claims(
    subject: string,
    expiresAt: int,
    issuedAt: int,
    tokenId: string,
    roles: set<string>,
    permissions: set<string>)

  datatype TokenError = InvalidToken

  function Texts(values: seq<string>): (items: seq<Json>)
    ensures |items| == |values| && forall k :: 0 <= k < |items| ==> items[k] == Text(values[k])
  {
    seq(|values|, k requires 0 <= k < |values| => Text(values[k]))
  }

  /** The claims of `encode_access_token`; both instants are truncated to whole seconds. */
  function Encode(cfg: Settings, g: Grant): Payload {
    map[
      "sub" := Text(Decimals.Show(g.user)),
      "exp" := Number(FloorSeconds(g.at + cfg.accessSeconds * SECOND)),
      "iat" := Number(FloorSeconds(g.at)),
      "jti" := Text(g.jti),
      "roles" := List(Texts(Sorted(g.roles))),
      "perms" := List(Texts(Sorted(g.permissions)))
    ]
  }

  function ExpirySeconds(cfg: Settings, g: Grant): int {
    FloorSeconds(g.at) + cfg.accessSeconds
  }

  /** Python counts a boolean as an integer. */
  function AsInt(j: Json): Option<int> {
    match j
    case Number(n) => Some(n)
    case Boolean(b) => Some(if b then 1 else 0)
    case _ => None
  }

  function AsTexts(j: Json): Option<seq<string>> {
    if j.List? && forall k :: 0 <= k < |j.items| ==> j.items[k].Text? then
      Some(seq(|j.items|, k requires 0 <= k < |j.items| => j.items[k].text))
    else None
  }

  function ParseValues(subject: Json, tokenId: Json, roles: Json, permissions: Json, issued: Json, expires: Json)
      : Option<Claims>
  {
    if !subject.Text? || subject.text == "" then None
    else if !tokenId.Text? || tokenId.text == "" then None
    else if AsTexts(roles).None? || AsTexts(permissions).None? then None
    else if AsInt(issued).None? || AsInt(expires).None? then None
    else
      Some(Claims(
        subject.text,
        AsInt(expires).value * SECOND,
        AsInt(issued).value * SECOND,
        tokenId.text,
        set r | r in AsTexts(roles).value,
        set p | p in AsTexts(permissions).value))
  }

  function ParseClaims(payload: Payload): Option<Claims>
    requires REQUIRED <= payload.Keys
  {
    ParseValues(payload["sub"], payload["jti"], payload["roles"], payload["perms"], payload["iat"], payload["exp"])
  }

  /** A token is refused before its `iat`, and on or after its `exp`. */
  function Decode(payload: Payload, now: int): Result<Claims, TokenError> {
    if !(REQUIRED <= payload.Keys) then Err(InvalidToken)
    else match ParseClaims(payload)
      case None => Err(InvalidToken)
      case Some(claims) =>
        if now < claims.issuedAt || claims.expiresAt <= now then Err(InvalidToken) else Ok(claims)
  }

  /** The instant of the grant, truncated to whole seconds. */
  function IssuedAt(g: Grant): int {
    g.at - g.at % SECOND
  }

  /** `AccessTtl` is the access lifetime, and both instants of a token are whole seconds one lifetime apart. */
  lemma TokenInstants(cfg: Settings, g: Grant)
    ensures AccessTtl(cfg) == cfg.accessSeconds
    ensures FloorSeconds(g.at) * SECOND == IssuedAt(g)
    ensures ExpirySeconds(cfg, g) * SECOND == IssuedAt(g) + cfg.accessSeconds * SECOND
    ensures IssuedAt(g) <= g.at < IssuedAt(g) + SECOND
  {
  }

  /**
   * Encoding and decoding is the identity on the granted roles and permissions and on the whole seconds
   * of the instants, and the token decodes exactly until one access lifetime after its truncated issue time.
   */
  lemma DecodeEncode(cfg: Settings, g: Grant, now: int)
    requires g.jti != "" && g.at <= now
    ensures
      var expiry := IssuedAt(g) + cfg.accessSeconds * SECOND;
      Decode(Encode(cfg, g), now) ==
        if now < expiry then
          Ok(Claims(Decimals.Show(g.user), expiry, IssuedAt(g), g.jti, g.roles, g.permissions))
        else Err(InvalidToken)
  {
    TokenInstants(cfg, g);
    EncodeHasClaims(cfg, g);
    ParseEncode(cfg, g);
  }

  /** A claim that is a list of texts. */
  predicate TextList(j: Json) {
    j.List? && forall k :: 0 <= k < |j.items| ==> j.items[k].Text?
  }

  /** A claim that Python takes for an integer, and its value. */
  predicate IntClaim(j: Json, n: int) {
    j == Number(n) || (j == Boolean(true) && n == 1) || (j == Boolean(false) && n == 0)
  }

  /**
   * Exactly which payloads decode: the six claims are there and of the right types, the texts are not
   * empty, and the instant lies from the issue time up to the expiry.
   */
  lemma DecodesIff(payload: Payload, now: int)
    ensures Decode(payload, now).Ok? <==>
      && "sub" in payload && payload["sub"].Text? && payload["sub"].text != ""
      && "jti" in payload && payload["jti"].Text? && payload["jti"].text != ""
      && "roles" in payload && TextList(payload["roles"])
      && "perms" in payload && TextList(payload["perms"])
      && "iat" in payload && "exp" in payload
      && exists issued, expires ::
           IntClaim(payload["iat"], issued) && IntClaim(payload["exp"], expires)
           && issued * SECOND <= now < expires * SECOND
  {
    if REQUIRED <= payload.Keys {
      var iat, exp := AsInt(payload["iat"]), AsInt(payload["exp"]);
      assert iat.Some? ==> IntClaim(payload["iat"], iat.value);
      assert exp.Some? ==> IntClaim(payload["exp"], exp.value);
    }
  }

  lemma EncodeHasClaims(cfg: Settings, g: Grant)
    ensures
      var payload := Encode(cfg, g);
      && payload.Keys == REQUIRED
      && payload["sub"] == Text(Decimals.Show(g.user)) && payload["jti"] == Text(g.jti)
      && payload["exp"] == Number(ExpirySeconds(cfg, g)) && payload["iat"] == Number(FloorSeconds(g.at))
      && payload["roles"] == List(Texts(Sorted(g.roles))) && payload["perms"] == List(Texts(Sorted(g.permissions)))
  {
  }

  lemma ParseEncode(cfg: Settings, g: Grant)
    requires g.jti != ""
    ensures
      ParseValues(Text(Decimals.Show(g.user)), Text(g.jti),
                  List(Texts(Sorted(g.roles))), List(Texts(Sorted(g.permissions))),
                  Number(FloorSeconds(g.at)), Number(ExpirySeconds(cfg, g))) ==
        Some(Claims(Decimals.Show(g.user), ExpirySeconds(cfg, g) * SECOND, FloorSeconds(g.at) * SECOND,
                    g.jti, g.roles, g.permissions))
  {
    TextsRoundTrip(g.roles);
    TextsRoundTrip(g.permissions);
  }

  lemma TextsRoundTrip(s: set<string>)
    ensures
      var list := AsTexts(List(Texts(Sorted(s))));
      list.Some? && (set x | x in list.value) == s
  {
    var list := AsTexts(List(Texts(Sorted(s)))).value;
    assert list == Sorted(s);
  }
}
