/**
 * The on-device credential store (`useApiKeysStore`). Its definition lives
 * outside the modelled files; what the screens rely on is one nullable string
 * per service, read by field and written by one setter per service.
 */
module ApiKeys {
  import opened Opt

  datatype Service = GitHub | Wakatime | Spotify

  /** The stored credentials, one per service. */
  datatype Keys = Keys(githubApiKey: Option<string>, wakatimeApiKey: Option<string>, spotifyAccessToken: Option<string>) {

    function Get(s: Service): Option<string> {
      match s
      case GitHub => githubApiKey
      case Wakatime => wakatimeApiKey
      case Spotify => spotifyAccessToken
    }

    /** The keys after `set<Service>ApiKey(v)`. */
    function Set(s: Service, v: Option<string>): (k: Keys)
      ensures k.Get(s) == v
      ensures forall o :: o != s ==> k.Get(o) == Get(o)
    {
      match s
      case GitHub => this.(githubApiKey := v)
      case Wakatime => this.(wakatimeApiKey := v)
      case Spotify => this.(spotifyAccessToken := v)
    }
  }

  /** Keys are determined by what `Get` returns for every service. */
  lemma KeysExtensional(a: Keys, b: Keys)
    requires forall s :: a.Get(s) == b.Get(s)
    ensures a == b
  {
    assert a.Get(GitHub) == b.Get(GitHub);
    assert a.Get(Wakatime) == b.Get(Wakatime);
    assert a.Get(Spotify) == b.Get(Spotify);
  }

  /** Writing a key and reading it back gives what was written; the last write wins. */
  lemma SetGetRoundTrip(k: Keys, s: Service, v: Option<string>, w: Option<string>)
    ensures k.Set(s, v).Get(s) == v
    ensures k.Set(s, v).Set(s, w) == k.Set(s, w)
  {
    var a, b := k.Set(s, v).Set(s, w), k.Set(s, w);
    forall o ensures a.Get(o) == b.Get(o) {
    }
    KeysExtensional(a, b);
  }

  /** Writes to different services commute. */
  lemma SetsCommute(k: Keys, s: Service, v: Option<string>, t: Service, w: Option<string>)
    requires s != t
    ensures k.Set(s, v).Set(t, w) == k.Set(t, w).Set(s, v)
  {
    var a, b := k.Set(s, v).Set(t, w), k.Set(t, w).Set(s, v);
    forall o ensures a.Get(o) == b.Get(o) {
    }
    KeysExtensional(a, b);
  }

  /** The process-wide store instance that the screens share. */
  class ApiKeysStore {
    var keys: Keys

    constructor (initial: Keys)
      ensures keys == initial
    {
      keys := initial;
    }

    function Get(s: Service): Option<string>
      reads this
    {
      keys.Get(s)
    }

    method Set(s: Service, v: Option<string>)
      modifies this
      ensures keys == old(keys).Set(s, v)
      ensures Get(s) == v
      ensures forall o :: o != s ==> Get(o) == old(Get(o))
    {
      keys := keys.Set(s, v);
    }
  }
}
