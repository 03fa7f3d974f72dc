/**
 * The URL clean-up `generate_qr_code` performs before encoding: strip the
 * field's text, refuse what is left empty, and prefix `https://` unless the
 * text already starts with `http://` or `https://` (case-sensitively).
 */
module Url {
  import opened Text

  const Plain: string := "http://"
  const Secure: string := "https://"

  predicate HasScheme(u: string) {
    StartsWith(u, Plain) || StartsWith(u, Secure)
  }

  /**
   * The outcome of cleaning the field's text: `Blank` when nothing is left
   * after stripping ("Please enter a URL"), otherwise the URL handed to the
   * encoder and whether `https://` was put in front (the only case in which
   * the field itself is rewritten).
   */
  datatype Normalized = Blank | Cleaned(url: string, prefixed: bool)

  function Normalize(text: string): (r: Normalized)
    ensures r.Blank? <==> AllSpace(text)
    ensures r.Cleaned? ==> HasScheme(r.url) && Tight(r.url)
    ensures r.Cleaned? ==> (r.prefixed <==> !HasScheme(Strip(text)))
    ensures r.Cleaned? ==> r.url == if r.prefixed then Secure + Strip(text) else Strip(text)
  {
    var u := Strip(text);
    if u == [] then Blank
    else if HasScheme(u) then Cleaned(u, false)
    else
      PrefixKeepsTight(u);
      Cleaned(Secure + u, true)
  }

  lemma PrefixKeepsTight(u: string)
    requires u != [] && Tight(u)
    ensures HasScheme(Secure + u) && Tight(Secure + u)
  {
    var v := Secure + u;
    assert v[..|Secure|] == Secure;
    assert v[0] == 'h' && v[|v| - 1] == u[|u| - 1];
    assert !IsSpace('h');
  }

  /** A tight URL that already carries a scheme is left exactly as it is. */
  lemma NormalizeFixed(u: string)
    requires HasScheme(u) && Tight(u)
    ensures Normalize(u) == Cleaned(u, false)
  {
    StripTight(u);
    assert u != [] by { assert |Plain| <= |u| || |Secure| <= |u|; }
  }

  /** A normalised URL is a fixed point: normalising it again changes nothing. */
  lemma NormalizeIdempotent(text: string)
    requires Normalize(text).Cleaned?
    ensures Normalize(Normalize(text).url) == Cleaned(Normalize(text).url, false)
  {
    NormalizeFixed(Normalize(text).url);
  }

  /** Only the stripped text matters: padding the field with whitespace changes nothing. */
  lemma NormalizeIgnoresPadding(p: string, text: string, q: string)
    requires AllSpace(p) && AllSpace(q)
    ensures Normalize(p + text + q) == Normalize(text)
  {
    StripIgnoresPadding(p, text, q);
  }

  /**
   * Nothing of the field's text is lost: the text is the stripped text `t`
   * between whitespace `p` and `q`, and the cleaned URL is `t` itself or `t`
   * after `https://`, so it always ends with `t`.
   */
  lemma NormalizeKeepsText(text: string) returns (p: string, q: string)
    requires Normalize(text).Cleaned?
    ensures var u, t := Normalize(text).url, Strip(text);
      && Trims(text, p, t, q)
      && (u == t || u == Secure + t)
      && u[|u| - |t|..] == t
  {
    p, q := StripSplits(text);
    var u := Normalize(text).url;
    var t := Strip(text);
    if u != t {
      assert u[|Secure|..] == t;
    }
  }

  /** A text that does not begin with `h` carries no scheme. */
  lemma NoSchemeWithoutH(u: string)
    requires u != [] && u[0] != 'h'
    ensures !HasScheme(u)
  {
    assert !StartsWith(u, Plain) by { if |Plain| <= |u| { assert u[..|Plain|][0] != Plain[0]; } }
    assert !StartsWith(u, Secure) by { if |Secure| <= |u| { assert u[..|Secure|][0] != Secure[0]; } }
  }

  /**
   * A padded host name without a scheme (`example.com`, but also `httpbin.org`):
   * the padding goes, `https://` comes.
   */
  lemma NormalizePaddedHost(p: string, host: string, q: string)
    requires AllSpace(p) && AllSpace(q) && Tight(host)
    requires host != [] && !HasScheme(host)
    ensures Normalize(p + host + q) == Cleaned(Secure + host, true)
  {
    StripUnique(p + host + q, p, host, q);
  }

  /** A tight, non-empty text without a scheme just gets `https://` in front. */
  lemma NormalizeBareHost(host: string)
    requires Tight(host) && host != [] && !HasScheme(host)
    ensures Normalize(host) == Cleaned(Secure + host, true)
  {
    assert host == [] + host + [];
    NormalizePaddedHost([], host, []);
  }

  lemma TightExampleText(e: string)
    requires e == "example.com" || e == "HTTP://a.b"
    ensures Tight(e) && e != [] && e[0] != 'h'
  {
    if e == "example.com" {
      assert e[0] == 'e' && e[|e| - 1] == 'm';
      assert !IsSpace('e') && !IsSpace('m');
    } else {
      assert e[0] == 'H' && e[|e| - 1] == 'b';
      assert !IsSpace('H') && !IsSpace('b');
    }
  }

  /** The scenario of a bare host name typed into the field. */
  lemma BareHostExample()
    ensures Normalize("example.com") == Cleaned("https://example.com", true)
  {
    TightExampleText("example.com");
    NoSchemeWithoutH("example.com");
    NormalizeBareHost("example.com");
    assert Secure + "example.com" == "https://example.com";
  }

  /** Scheme detection is case-sensitive: an upper-case scheme gets a second one. */
  lemma UpperCaseSchemeExample()
    ensures Normalize("HTTP://a.b") == Cleaned("https://HTTP://a.b", true)
  {
    TightExampleText("HTTP://a.b");
    NoSchemeWithoutH("HTTP://a.b");
    NormalizeBareHost("HTTP://a.b");
    assert Secure + "HTTP://a.b" == "https://HTTP://a.b";
  }

  /** A blank field yields no URL. */
  lemma BlankExample()
    ensures Normalize(" \t ") == Blank
  {
    assert AllSpace(" \t ") by { assert IsSpace(' ') && IsSpace('\t'); }
  }
}
