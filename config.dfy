/** Application settings (`Settings` in src/config.py): the defaults and the CORS origin list. */
module Config {
  import opened Text

  const JwtAlgorithm: string := "HS256"
  const AccessTokenExpireMinutes: int := 15
  const RefreshTokenExpireDays: int := 7
  const DefaultCorsOrigins: string := "http://localhost:3000,http://localhost:3001"

  /** Life times in seconds, as the token issuers use them. */
  const AccessTokenLifetime: int := AccessTokenExpireMinutes * 60
  const RefreshTokenLifetime: int := RefreshTokenExpireDays * 24 * 60 * 60

  /** `cors_origins_list`: every comma-separated piece of the setting, stripped, empty pieces kept. */
  function CorsOriginsList(cors: string): (r: seq<string>)
    ensures |r| == CountChar(cors, ',') + 1
    ensures forall i :: 0 <= i < |r| ==> ',' !in r[i] && Stripped(r[i])
    ensures forall i :: 0 <= i < |r| ==> r[i] == Strip(Split(cors, ',')[i])
  {
    var pieces := Split(cors, ',');
    seq(|pieces|, i requires 0 <= i < |pieces| => Strip(pieces[i]))
  }

  /** Origins written out comma-separated are read back in order, unchanged. */
  lemma CorsOriginsListOfJoin(origins: seq<string>)
    requires |origins| >= 1
    requires forall i :: 0 <= i < |origins| ==> ',' !in origins[i] && Stripped(origins[i])
    ensures CorsOriginsList(Join(",", origins)) == origins
  {
    SplitJoin(origins, ',');
    forall i | 0 <= i < |origins|
      ensures Strip(origins[i]) == origins[i]
    {
      StripNoop(origins[i]);
    }
  }

  /** The default setting allows the two local front-end origins. */
  lemma DefaultCorsOriginsList()
    ensures CorsOriginsList(DefaultCorsOrigins) == ["http://localhost:3000", "http://localhost:3001"]
  {
    var origins := ["http://localhost:3000", "http://localhost:3001"];
    assert Join(",", origins) == DefaultCorsOrigins;
    CorsOriginsListOfJoin(origins);
  }
}
