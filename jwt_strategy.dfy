/**
 * The passport JWT strategy (jwt.strategy.ts): configuration at construction and the
 * projection of a verified payload into `request.user`.
 */
module JwtStrategy {
  import opened Wrappers
  import opened Errors
  import opened Jwt

  /** `request.user` as `validate` builds it. */
  datatype User = User(id: Option<int>, correo: Option<string>, rol: Option<string>)

  /** A constructed strategy: the secret it checks signatures with. */
  datatype Strategy = Strategy(secret: string)

  const MissingSecret: string := "JWT_SECRET no está definido en el archivo .env"

  /** The constructor: an undefined or empty JWT_SECRET is fatal. */
  function New(secret: Option<string>): (r: Result<Strategy, Error>)
    ensures r.Ok? <==> secret.Some? && secret.value != ""
    ensures r.Ok? ==> r.value.secret == secret.value
    ensures r.Err? ==> r.error == Config(MissingSecret)
  {
    if secret.None? || secret.value == "" then Err(Config(MissingSecret))
    else Ok(Strategy(secret.value))
  }

  /** validate: the payload's id, correo and rol, taken from the payload alone. */
  function Validate(payload: Claims): (u: User)
    ensures u.id == payload.id && u.correo == payload.correo && u.rol == payload.rol
  {
    User(payload.id, payload.correo, payload.rol)
  }

  /**
   * What the JWT guard attaches to the request: the token must carry a signature made with the
   * strategy's secret, and then `validate` projects its payload; otherwise the request is rejected.
   */
  function Authenticate(s: Strategy, t: Token): (r: Option<User>)
    ensures r.Some? <==> t.key == s.secret
    ensures r.Some? ==> r.value == Validate(t.claims)
  {
    match Decode(t, s.secret)
    case Some(payload) => Some(Validate(payload))
    case None => None
  }
}
