/** The application settings (`backend/app/core/config.py`): their defaults,
    the comma-separated CORS origin list, and the memoised accessor. Reading
    the environment and the `.env` file is not modelled: the settings such a
    read yields are a parameter of the accessor. */
module Config {
  import opened Text
  import opened Wrappers

  /** The fields of `Settings`, with the numeric ones as whole numbers. */
  datatype Settings = Settings(
    regoloApiKey: string,
    regoloBaseUrl: string,
    regoloModel: string,
    regoloEmbeddingModel: string,
    qdrantUrl: string,
    qdrantCollectionName: string,
    backendPort: int,
    backendHost: string,
    corsOriginsRaw: string,
    maxFileSize: int,
    uploadDir: string,
    chunkSize: int,
    chunkOverlap: int,
    topKResults: int,
    googleCredentialsPath: string,
    googleApiKey: string)

  /** The default CORS origins, in the order the default string lists them. */
  const DefaultOrigins: seq<string> := [
    "http://localhost:8000", "http://127.0.0.1:8000", "http://localhost:5173",
    "http://localhost:3000", "http://localhost:5500"]

  /** The default of `_cors_origins`: the default origins separated by commas. */
  const DefaultCorsOrigins: string := Join(DefaultOrigins, ",")

  const MaxFileSize: int := 10485760
  const ChunkSize: int := 1000
  const ChunkOverlap: int := 200
  const TopKResults: int := 5

  /** The settings with every default applied; only the API key has none. */
  function Defaults(apiKey: string): (r: Settings)
    ensures r.maxFileSize == 10 * 1024 * 1024
    ensures r.chunkOverlap < r.chunkSize
    ensures r.chunkSize == 1000 && r.chunkOverlap == 200 && r.topKResults == 5
    ensures r.corsOriginsRaw == Join(DefaultOrigins, ",")
    ensures r.regoloApiKey == apiKey
  {
    Settings(apiKey, "https://api.regolo.ai/v1", "gpt-oss-120b", "qwen3-embedding-8b",
             "http://localhost:7333", "documents", 8000, "0.0.0.0", DefaultCorsOrigins,
             MaxFileSize, "./uploads", ChunkSize, ChunkOverlap, TopKResults, "", "")
  }

  /** The `cors_origins` property: the raw string split at every comma, each
      piece stripped. */
  function CorsOrigins(raw: string): (r: seq<string>)
    ensures |r| == Count(raw, ',') + 1
  {
    var pieces := Split(raw, ',');
    seq(|pieces|, k requires 0 <= k < |pieces| => PyStrip(pieces[k]))
  }

  /** An origin that survives the round trip through the raw string: no comma
      inside and no white space at its ends. */
  predicate PlainOrigin(o: string) {
    ',' !in o && (o == [] || (!IsPySpace(o[0]) && !IsPySpace(o[|o| - 1])))
  }

  /** Each entry of `cors_origins` is the stripped text between two commas (or
      an end of the string): it has no comma and no white space at its ends. */
  lemma CorsOriginsEntries(raw: string)
    ensures forall k | 0 <= k < |CorsOrigins(raw)| :: PlainOrigin(CorsOrigins(raw)[k])
  {
    var pieces := Split(raw, ',');
    var r := CorsOrigins(raw);
    forall k | 0 <= k < |r| ensures PlainOrigin(r[k]) {
      StripSpec(pieces[k], IsPySpace);
      assert r[k] == PyStrip(pieces[k]);
    }
  }

  lemma PlainStrip(o: string)
    requires PlainOrigin(o)
    ensures PyStrip(o) == o
  {
    StripSpec(o, IsPySpace);
  }

  /** Writing plain origins separated by commas and reading `cors_origins`
      back gives the same origins, in order. */
  lemma CorsOriginsRoundTrip(origins: seq<string>)
    requires |origins| >= 1
    requires forall k | 0 <= k < |origins| :: PlainOrigin(origins[k])
    ensures CorsOrigins(Join(origins, ",")) == origins
  {
    JoinSplit(origins, ',');
    var r := CorsOrigins(Join(origins, ","));
    forall k | 0 <= k < |origins| ensures r[k] == origins[k] {
      PlainStrip(origins[k]);
    }
  }

  /** The characters of the default origins: lower-case letters, digits, '.', '/' and ':'. */
  predicate UrlChar(c: char) {
    ('a' <= c <= 'z') || ('.' <= c <= ':')
  }

  lemma UrlPlain(o: string)
    requires forall i | 0 <= i < |o| :: UrlChar(o[i])
    ensures PlainOrigin(o)
  {
  }

  lemma DefaultOriginsPlain()
    ensures forall k | 0 <= k < |DefaultOrigins| :: PlainOrigin(DefaultOrigins[k])
  {
    forall k | 0 <= k < |DefaultOrigins| ensures PlainOrigin(DefaultOrigins[k]) {
      UrlPlain(DefaultOrigins[k]);
    }
  }

  /** The default string yields exactly the five default origins. */
  lemma DefaultCorsOriginsList()
    ensures CorsOrigins(DefaultCorsOrigins) == DefaultOrigins
    ensures |CorsOrigins(DefaultCorsOrigins)| == 5
  {
    DefaultOriginsPlain();
    CorsOriginsRoundTrip(DefaultOrigins);
  }

  /** `get_settings`, memoised by `lru_cache`: the first call builds the
      settings, every later call returns the settings built then. */
  class SettingsCache {
    var cached: Option<Settings>
    /** How many times the settings have been built. */
    var builds: nat

    constructor()
      ensures cached.None? && builds == 0
    {
      cached := None;
      builds := 0;
    }

    /** `built` is what `Settings()` would yield were it run now. */
    method GetSettings(built: Settings) returns (s: Settings)
      modifies this
      ensures old(cached).Some? ==> s == old(cached).value && builds == old(builds)
      ensures old(cached).None? ==> s == built && builds == old(builds) + 1
      ensures cached == Some(s)
    {
      if cached.Some? {
        s := cached.value;
      } else {
        s := built;
        cached := Some(s);
        builds := builds + 1;
      }
    }
  }

  /** Two calls of `get_settings` return the same settings, built once, even
      when the environment changed between them. */
  method GetSettingsTwice(first: Settings, second: Settings) returns (s1: Settings, s2: Settings, builds: nat)
    ensures s1 == first && s2 == first && builds == 1
  {
    var cache := new SettingsCache();
    s1 := cache.GetSettings(first);
    s2 := cache.GetSettings(second);
    builds := cache.builds;
  }
}
