/** The two configuration checks the analytics and publishing endpoints share: the
    dashboard password and the store credentials. */
module Access {
  import opened Wrappers
  import opened Text

  /** `authorization?.replace('Bearer ', '')`: the first occurrence of "Bearer " is removed. */
  function BearerToken(header: Option<string>): Option<string> {
    if header.Some? then Some(ReplaceFirst(header.value, "Bearer ", "")) else None
  }

  /** A request passes when no password is configured or its token equals the password. */
  predicate Authorized(header: Option<string>, password: Option<string>) {
    !Truthy(password) || BearerToken(header) == password
  }

  /** The header `Bearer <password>` is accepted, and a configured password rejects a request
      without the header. */
  lemma BearerAccepted(password: string)
    ensures Authorized(Some("Bearer " + password), Some(password))
    ensures password != "" ==> !Authorized(None, Some(password))
  {
    ReplaceFirstPrefix("Bearer ", password, "");
    assert "" + password == password;
  }

  /** The store environment: the Vercel KV names and the Upstash names. */
  datatype StoreEnv = StoreEnv(
    kvUrl: Option<string>, upstashUrl: Option<string>,
    kvToken: Option<string>, upstashToken: Option<string>)

  /** Both the URL and the token are set, each under either name (`KV_… || UPSTASH_…`). */
  predicate StoreConfigured(e: StoreEnv) {
    Truthy(OrElse(e.kvUrl, e.upstashUrl)) && Truthy(OrElse(e.kvToken, e.upstashToken))
  }

  lemma StoreConfiguredEither(e: StoreEnv)
    ensures StoreConfigured(e) <==>
              (Truthy(e.kvUrl) || Truthy(e.upstashUrl)) && (Truthy(e.kvToken) || Truthy(e.upstashToken))
  {
  }
}
