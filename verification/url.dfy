/** The environment URL accepted by the client: an absolute `scheme://host...`
    string. Full URL syntax is not modelled; the shape below is the one the
    construction tests distinguish (a local path, `https//...` and `http//...`
    are not absolute URLs, `https://host/` is). */
module Url {
  import opened Text

  predicate IsAlpha(c: char) {
    'a' <= c <= 'z' || 'A' <= c <= 'Z'
  }

  predicate IsDigit(c: char) {
    '0' <= c <= '9'
  }

  /** Scheme syntax of section 3.1 of RFC 3986:
      ALPHA *( ALPHA / DIGIT / "+" / "-" / "." ). */
  predicate IsScheme(s: string) {
    && |s| > 0
    && IsAlpha(s[0])
    && forall k | 0 <= k < |s| :: IsAlpha(s[k]) || IsDigit(s[k]) || s[k] in "+-."
  }

  /** The reference definition: some non-empty scheme is followed by `://`
      and a non-empty authority (the next character is not another `/`). */
  ghost predicate HasAbsoluteShape(url: string) {
    exists i | 0 < i && i + 3 < |url| :: SchemeEndsAt(url, i)
  }

  /** `url[..i]` is a scheme, then `://`, then a host character. */
  predicate SchemeEndsAt(url: string, i: int)
    requires 0 < i && i + 3 < |url|
  {
    IsScheme(url[..i]) && url[i..i + 3] == "://" && url[i + 3] != '/'
  }

  /** Position of the first ':' of `s`, or |s| when there is none. */
  function FirstColon(s: string): (i: nat)
    ensures i <= |s|
    ensures i < |s| ==> s[i] == ':'
    ensures forall k | 0 <= k < i :: s[k] != ':'
  {
    if |s| == 0 then 0
    else if s[0] == ':' then 0
    else 1 + FirstColon(s[1..])
  }

  /** The executable check: the scheme can only end at the first ':'. */
  predicate IsValidUrl(url: string) {
    var i := FirstColon(url);
    0 < i && i + 3 < |url| && SchemeEndsAt(url, i)
  }

  /** The executable check accepts exactly the absolute-shaped strings. */
  lemma ValidUrlIffAbsoluteShape(url: string)
    ensures IsValidUrl(url) <==> HasAbsoluteShape(url)
  {
    var c := FirstColon(url);
    if HasAbsoluteShape(url) {
      var i :| 0 < i && i + 3 < |url| && SchemeEndsAt(url, i);
      // no scheme character is ':', so the scheme ends at the first colon
      assert url[i] == ':';
      assert c == i;
    }
  }

  /** Go's strings.TrimSuffix(url, "/"): at most one trailing slash goes. */
  function TrimTrailingSlash(url: string): (r: string)
    ensures EndsWith(url, '/') ==> r + "/" == url
    ensures !EndsWith(url, '/') ==> r == url
  {
    if EndsWith(url, '/') then url[..|url| - 1] else url
  }

  /** Trimming keeps a valid URL valid: the host character after `://` is
      never the trailing slash that is removed. */
  lemma TrimKeepsValid(url: string)
    requires IsValidUrl(url)
    ensures IsValidUrl(TrimTrailingSlash(url))
  {
  }

  /** The first colon is the colon with no colon before it. */
  lemma FirstColonUnique(s: string, i: nat)
    requires i < |s| && s[i] == ':'
    requires forall k | 0 <= k < i :: s[k] != ':'
    ensures FirstColon(s) == i
  {
  }

  /** Without a colon there is no scheme, so no valid URL. */
  lemma NoColonIsInvalid(url: string)
    requires ':' !in url
    ensures !IsValidUrl(url)
  {
  }

  /** A scheme, `://` and a host that does not start with `/` make a valid
      URL. */
  lemma SchemeAndHostIsValid(scheme: string, rest: string)
    requires IsScheme(scheme) && |rest| > 0 && rest[0] != '/'
    ensures IsValidUrl(scheme + "://" + rest)
  {
    var url := scheme + "://" + rest;
    assert url[|scheme|] == ':';
    assert url[..|scheme|] == scheme;
    forall k | 0 <= k < |scheme| ensures url[k] != ':' {
      assert url[k] == scheme[k];
    }
    FirstColonUnique(url, |scheme|);
    assert url[|scheme|..|scheme| + 3] == "://";
  }
}
