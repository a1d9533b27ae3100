/** `getSupabaseEnv` of src/lib/supabase/config.ts: the two environment variables the
    storefront needs, checked URL first, then key. A thrown error is a `Failed` result. */
module SupabaseEnv {
  import opened Common

  datatype Env = Env(url: string, key: string)

  /** The two errors the function throws. */
  datatype EnvError = InvalidUrl | InvalidKey

  datatype EnvResult = Loaded(env: Env) | Failed(error: EnvError)

  /** The key `.env.example` ships with. */
  const PlaceholderKey: string := "your-anon-key"

  /** The URL is refused when it is unset, empty, or does not begin with `http`. */
  predicate BadUrl(url: Option<string>)
  {
    url.None? || url.value == "" || !StartsWith(url.value, "http")
  }

  /** The key is refused when it is unset, empty, or still the placeholder. */
  predicate BadKey(key: Option<string>)
  {
    key.None? || key.value == "" || key.value == PlaceholderKey
  }

  function GetSupabaseEnv(url: Option<string>, key: Option<string>): (r: EnvResult)
    ensures r == Failed(InvalidUrl) <==> BadUrl(url)
    ensures r == Failed(InvalidKey) <==> !BadUrl(url) && BadKey(key)
    ensures r.Loaded? <==> !BadUrl(url) && !BadKey(key)
    ensures r.Loaded? ==> url.Some? && key.Some? && r.env == Env(url.value, key.value)
  {
    if BadUrl(url) then Failed(InvalidUrl)
    else if BadKey(key) then Failed(InvalidKey)
    else Loaded(Env(url.value, key.value))
  }

  /** Named cases: a bad URL is reported even when the key is bad too; the placeholder key
      is refused; a real pair is handed back as given. */
  lemma EnvExamples()
    ensures GetSupabaseEnv(None, None) == Failed(InvalidUrl)
    ensures GetSupabaseEnv(Some("ftp://db.example"), Some(PlaceholderKey)) == Failed(InvalidUrl)
    ensures GetSupabaseEnv(Some("https://db.example"), Some("your-anon-key")) == Failed(InvalidKey)
    ensures GetSupabaseEnv(Some("https://db.example"), Some("")) == Failed(InvalidKey)
    ensures GetSupabaseEnv(Some("https://db.example"), Some("k1")) == Loaded(Env("https://db.example", "k1"))
  {
    assert "https://db.example"[..4] == "http";
    assert "ftp://db.example"[..4][0] != "http"[0];
  }
}
