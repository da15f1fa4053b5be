/** The server URL normalisation of `POST /validateSettings` (backend/routes/api.js): the address
    typed by the user becomes the URL of the media server's `/system/configuration` endpoint. */
module ApiUrl {
  import opened Wrappers

  /** The home-page tail a browser address bar shows, removed when it ends the address. */
  const HomePage := "/web/index.html#!/home.html"
  const ConfigPath := "/system/configuration"
  const DefaultScheme := "http://"

  predicate EndsWith(s: string, suffix: string)
  {
    |suffix| <= |s| && s[|s| - |suffix|..] == suffix
  }

  /** `s.replace(/suffix$/, "")`: the suffix is removed once when it ends the string. */
  function StripSuffix(s: string, suffix: string): (r: string)
    ensures EndsWith(s, suffix) ==> r + suffix == s
    ensures !EndsWith(s, suffix) ==> r == s
  {
    if EndsWith(s, suffix) then s[..|s| - |suffix|] else s
  }

  /** ASCII lower case, the case folding of the `i` flag for the letters of "http". */
  function Lower(c: char): char
  {
    if 'A' <= c <= 'Z' then (c as int + 32) as char else c
  }

  /** `s` begins with the lower-case `prefix`, ignoring case. */
  predicate StartsWithFolded(s: string, prefix: string)
  {
    |prefix| <= |s| && forall i :: 0 <= i < |prefix| ==> Lower(s[i]) == prefix[i]
  }

  /** `/^https?:\/\//i.test(url)`. */
  predicate HasScheme(url: string)
  {
    StartsWithFolded(url, "http://") || StartsWithFolded(url, "https://")
  }

  /** The address the configuration path is appended to as written: the home-page tail is
      removed from an address with a scheme, while a scheme-less one gets "http://" in front of the
      address as typed. */
  function TypedBase(url: string): string
  {
    if HasScheme(url) then StripSuffix(url, HomePage) else DefaultScheme + url
  }

  /** The normalisation as written: the scheme test and the `"http://"` prefix both use the
      address as typed, so for a scheme-less address the home-page strip is thrown away. The
      result is the configuration URL after one trailing "/" is dropped from `TypedBase`. */
  function NormalizeAsWritten(url: string): (r: string)
    ensures EndsWith(r, ConfigPath)
    ensures var w := TypedBase(url);
            var base := r[..|r| - |ConfigPath|];
            (base == w && !EndsWith(w, "/")) || (base + "/" == w)
  {
    var stripped := StripSuffix(url, HomePage);
    var prefixed := if !HasScheme(url) then DefaultScheme + url else stripped;
    StripSuffix(prefixed, "/") + ConfigPath
  }

  /** The address with the home-page tail removed and a scheme supplied when it has none. */
  function WithScheme(url: string): string
  {
    var stripped := StripSuffix(url, HomePage);
    if HasScheme(url) then stripped else DefaultScheme + stripped
  }

  /** The normalisation with the prefix applied to the stripped address: the configuration URL,
      after one trailing "/" is dropped from the address. */
  function Normalize(url: string): (r: string)
    ensures EndsWith(r, ConfigPath)
    ensures var w := WithScheme(url);
            var base := r[..|r| - |ConfigPath|];
            (base == w && !EndsWith(w, "/")) || (base + "/" == w)
  {
    StripSuffix(WithScheme(url), "/") + ConfigPath
  }

  /** A scheme-less address gets "http://", an address with a scheme keeps its own. */
  lemma NormalizeScheme(url: string)
    ensures !HasScheme(url) && StripSuffix(url, HomePage) != "" ==> Normalize(url)[..7] == DefaultScheme
    ensures HasScheme(url) && !EndsWith(url, HomePage) && |url| >= 8 ==> Normalize(url)[..7] == url[..7]
  {
    var w := WithScheme(url);
    var r := Normalize(url);
    if !HasScheme(url) && StripSuffix(url, HomePage) != "" {
      assert w[..7] == DefaultScheme;
      assert r[..7] == StripSuffix(w, "/")[..7] == w[..7];
    } else if HasScheme(url) && !EndsWith(url, HomePage) && |url| >= 8 {
      assert w == url;
      assert r[..7] == StripSuffix(w, "/")[..7] == w[..7];
    }
  }

  /** The two versions differ exactly on a scheme-less address ending in the home-page tail. */
  lemma NormalizeAsWrittenDiffers(url: string)
    ensures NormalizeAsWritten(url) != Normalize(url) <==> !HasScheme(url) && EndsWith(url, HomePage)
  {
    if !HasScheme(url) && EndsWith(url, HomePage) {
      var typed := DefaultScheme + url;
      assert EndsWith(typed, HomePage) by {
        assert typed[|typed| - |HomePage|..] == url[|url| - |HomePage|..];
      }
      assert !EndsWith(typed, "/") by {
        assert typed[|typed| - 1] == HomePage[|HomePage| - 1];
      }
      assert |NormalizeAsWritten(url)| > |Normalize(url)|;
    }
  }

  /** The home-page address of a server typed without a scheme (say "jf.lan" followed by the
      home-page tail) keeps the tail as written, and loses it once the prefix goes on the
      stripped address. */
  lemma NormalizeHomePageKept(host: string)
    requires host != [] && Lower(host[0]) != 'h' && host[|host| - 1] != '/'
    ensures NormalizeAsWritten(host + HomePage) == DefaultScheme + host + HomePage + ConfigPath
    ensures Normalize(host + HomePage) == DefaultScheme + host + ConfigPath
  {
    var url := host + HomePage;
    assert url[0] == host[0];
    assert !HasScheme(url);
    assert EndsWith(url, HomePage);
    assert StripSuffix(url, HomePage) == host;
    var typed := DefaultScheme + url;
    assert typed[|typed| - 1] == HomePage[|HomePage| - 1];
    assert !EndsWith(typed, "/");
    var base := DefaultScheme + host;
    assert base[|base| - 1] == host[|host| - 1];
    assert !EndsWith(base, "/");
  }

  /** `POST /validateSettings` up to the call to the media server: a missing address or key is
      answered 400, otherwise the endpoint URL the code as written builds is produced. It agrees
      with the intended `Normalize` except on a scheme-less address ending in the home-page tail. */
  function ValidateSettingsUrl(url: Option<string>, apiKey: Option<string>): (r: Result<string, int>)
    ensures r.Err? <==> url.None? || apiKey.None?
    ensures r.Err? ==> r.error == 400
    ensures r.Ok? ==> EndsWith(r.value, ConfigPath) && r.value == NormalizeAsWritten(url.value)
    ensures r.Ok? ==> (r.value == Normalize(url.value) <==> !(!HasScheme(url.value) && EndsWith(url.value, HomePage)))
  {
    if url.None? || apiKey.None? then Err(400)
    else
      NormalizeAsWrittenDiffers(url.value);
      Ok(NormalizeAsWritten(url.value))
  }
}
