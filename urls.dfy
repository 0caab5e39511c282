/**
 * URL handling of the analyser: `_normalize_url` (backend/seo_analyzer.py),
 * the keyword extraction from a URL path, and the path measures used by the
 * URL-structure metric. URL parsing itself (urlparse) is not modelled: where
 * the source parses, the parsed component (path, host) is an input.
 */
module Urls {
  import opened Text

  const Http: string := "http://"
  const Https: string := "https://"

  lemma ProtocolLiterals()
    ensures Lower(Http) == Http && Lower(Https) == Https
    ensures Http[0] == 'h' && Https[0] == 'h'
  {
  }

  /** A string without upper-case ASCII letters is its own lower-case form. */
  lemma LowerIdentity(s: string)
    requires forall i :: 0 <= i < |s| ==> !('A' <= s[i] <= 'Z')
    ensures Lower(s) == s
  {
  }

  /** `url.lower().startswith('https://')` */
  predicate HasHttpsPrefix(s: string)
  {
    |s| >= 8 && Lower(s[..8]) == Https
  }

  /** `url.lower().startswith('http://')` */
  predicate HasHttpPrefix(s: string)
  {
    |s| >= 7 && Lower(s[..7]) == Http
  }

  predicate HasProtocolPrefix(s: string)
  {
    HasHttpsPrefix(s) || HasHttpPrefix(s)
  }

  /** `url.lower().count('http://') + url.lower().count('https://')` */
  function ProtocolCount(s: string): nat
  {
    CountOf(Lower(s), Http) + CountOf(Lower(s), Https)
  }

  /**
   * `re.sub(r'(?i)https?://', '', s)`: one left-to-right pass deleting every
   * protocol occurrence in any letter case; text that comes together after a
   * deletion is not searched again.
   */
  function RemoveProtocols(s: string): (r: string)
    ensures |r| <= |s|
    decreases |s|
  {
    if HasHttpsPrefix(s) then RemoveProtocols(s[8..])
    else if HasHttpPrefix(s) then RemoveProtocols(s[7..])
    else if s == [] then []
    else [s[0]] + RemoveProtocols(s[1..])
  }

  /**
   * `_normalize_url`: strip surrounding whitespace, then normalise the
   * protocol of what is left.
   */
  function NormalizeUrl(url: string): (r: string)
    ensures StartsWith(r, Http) || StartsWith(r, Https)
  {
    NormalizeStripped(Strip(url))
  }

  /**
   * The protocol rules of `_normalize_url` on an already stripped URL: when
   * the protocol occurs more than once anywhere, delete every occurrence and
   * put one `https://` in front; otherwise add `https://` when no protocol
   * starts the URL, or lower-case the protocol that does.
   */
  function NormalizeStripped(u: string): (r: string)
    ensures StartsWith(r, Http) || StartsWith(r, Https)
  {
    if ProtocolCount(u) > 1 then Https + RemoveProtocols(u)
    else if !HasProtocolPrefix(u) then Https + u
    else if HasHttpsPrefix(u) then Https + u[8..]
    else Http + u[7..]
  }

  // ---------------------------------------------------------------------------
  // Counting facts about the two protocol strings

  /** Characters other than 'h'/'H' cannot start a protocol, so they pass through the removal. */
  lemma {:induction false} RemoveKeepsPlainText(x: string, rest: string)
    requires forall i :: 0 <= i < |x| ==> LowerChar(x[i]) != 'h'
    ensures RemoveProtocols(x + rest) == x + RemoveProtocols(rest)
    decreases |x|
  {
    if x == [] {
      assert x + rest == rest;
    } else {
      var t := RemoveProtocols(rest);
      RemovePlainStep(x, rest);
      assert forall i :: 0 <= i < |x[1..]| ==> x[1..][i] == x[i + 1];
      RemoveKeepsPlainText(x[1..], rest);
      assert [x[0]] + (x[1..] + t) == x + t by {
        assert [x[0]] + x[1..] == x;
      }
    }
  }

  lemma RemovePlainStep(x: string, rest: string)
    requires x != [] && LowerChar(x[0]) != 'h'
    ensures RemoveProtocols(x + rest) == [x[0]] + RemoveProtocols(x[1..] + rest)
  {
    var s := x + rest;
    assert s[0] == x[0];
    RemovePlainFirst(s);
    assert s[1..] == x[1..] + rest;
  }

  /** A first character other than 'h'/'H' is kept and the removal goes on after it. */
  lemma RemovePlainFirst(s: string)
    requires s != [] && LowerChar(s[0]) != 'h'
    ensures RemoveProtocols(s) == [s[0]] + RemoveProtocols(s[1..])
  {
    assert !HasHttpsPrefix(s) by { if |s| >= 8 { assert Lower(s[..8])[0] == LowerChar(s[0]); } }
    assert !HasHttpPrefix(s) by { if |s| >= 7 { assert Lower(s[..7])[0] == LowerChar(s[0]); } }
  }

  lemma RemoveAfterHttps(x: string)
    ensures RemoveProtocols(Https + x) == RemoveProtocols(x)
  {
    ProtocolLiterals();
    assert (Https + x)[..8] == Https;
    assert (Https + x)[8..] == x;
  }

  lemma RemoveAfterHttp(x: string)
    ensures RemoveProtocols(Http + x) == RemoveProtocols(x)
  {
    ProtocolLiterals();
    var s := Http + x;
    assert s[..7] == Http;
    assert s[7..] == x;
    if |s| >= 8 {
      assert Lower(s[..8])[4] == LowerChar(':');
    }
  }

  /** The pattern at the front is counted once and skipped. */
  lemma CountAfterPattern(p: string, x: string)
    requires |p| > 0
    ensures CountOf(p + x, p) == 1 + CountOf(x, p)
  {
    assert (p + x)[..|p|] == p;
    assert (p + x)[|p|..] == x;
  }

  /** Text containing no 'h' adds nothing to a count of a pattern starting with 'h'. */
  lemma CountSkipsPlainText(x: string, rest: string, p: string)
    requires |p| > 0 && forall i :: 0 <= i < |x| ==> x[i] != p[0]
    ensures CountOf(x + rest, p) == CountOf(rest, p)
  {
    CountSkip(x + rest, p, |x|);
    assert (x + rest)[|x|..] == rest;
  }

  /** "https://" at the front contributes no "http://". */
  lemma HttpCountAfterHttps(x: string)
    ensures CountOf(Https + x, Http) == CountOf(x, Http)
  {
    var s := Https + x;
    assert s[..7] != Http by { assert s[..7][4] == 's'; }
    assert s[1..] == "ttps://" + x;
    CountSkipsPlainText("ttps://", x, Http);
  }

  /** "http://" at the front contributes no "https://". */
  lemma HttpsCountAfterHttp(x: string)
    ensures CountOf(Http + x, Https) == CountOf(x, Https)
  {
    var s := Http + x;
    if |s| >= 8 {
      assert s[..8] != Https by { assert s[..8][4] == ':'; }
    }
    assert s[1..] == "ttp://" + x;
    CountSkipsPlainText("ttp://", x, Https);
    if |s| < 8 {
      assert CountOf(x, Https) == 0;
    }
  }

  lemma ProtocolCountAfterHttps(x: string)
    ensures ProtocolCount(Https + x) == 1 + ProtocolCount(x)
  {
    ProtocolLiterals();
    LowerAppend(Https, x);
    CountAfterPattern(Https, Lower(x));
    HttpCountAfterHttps(Lower(x));
  }

  /** A URL that starts with a protocol has that protocol counted. */
  lemma PrefixIsCounted(u: string)
    ensures HasHttpsPrefix(u) ==> CountOf(Lower(u), Https) >= 1
    ensures HasHttpPrefix(u) ==> CountOf(Lower(u), Http) >= 1
  {
    if |u| >= 8 { LowerSlice(u, 0, 8); }
    if |u| >= 7 { LowerSlice(u, 0, 7); }
  }

  /** Lower-casing the protocol leaves the rest of the URL and hence the count alone. */
  lemma LowerAfterScheme(u: string, k: nat, scheme: string)
    requires k <= |u| && |scheme| == k && Lower(u[..k]) == scheme
    ensures Lower(scheme + u[k..]) == Lower(u)
  {
    assert u == u[..k] + u[k..];
    LowerAppend(u[..k], u[k..]);
    LowerAppend(scheme, u[k..]);
    LowerIdentity(scheme) by {
      forall i | 0 <= i < |scheme| ensures !('A' <= scheme[i] <= 'Z') {
        assert scheme[i] == LowerChar(u[..k][i]);
      }
    }
  }

  /** Both counts after a leading `https://`. */
  lemma CountsAfterHttpsPrefix(s: string)
    requires HasHttpsPrefix(s)
    ensures CountOf(Lower(s), Https) == 1 + CountOf(Lower(s[8..]), Https)
    ensures CountOf(Lower(s), Http) == CountOf(Lower(s[8..]), Http)
  {
    var L := Lower(s);
    var T := Lower(s[8..]);
    assert L[..8] == Lower(s[..8]);
    assert L[8..] == T;
    assert L == Https + T;
    CountAfterPattern(Https, T);
    HttpCountAfterHttps(T);
  }

  /** Both counts after a leading `http://`. */
  lemma CountsAfterHttpPrefix(s: string)
    requires HasHttpPrefix(s)
    ensures CountOf(Lower(s), Http) == 1 + CountOf(Lower(s[7..]), Http)
    ensures CountOf(Lower(s), Https) == CountOf(Lower(s[7..]), Https)
  {
    var L := Lower(s);
    var T := Lower(s[7..]);
    assert L[..7] == Lower(s[..7]);
    assert L[7..] == T;
    assert L == Http + T;
    CountAfterPattern(Http, T);
    HttpsCountAfterHttp(T);
  }

  /** A first character that starts no protocol adds to neither count. */
  lemma CountsAfterPlainChar(s: string)
    requires s != [] && !HasProtocolPrefix(s)
    ensures CountOf(Lower(s), Http) == CountOf(Lower(s[1..]), Http)
    ensures CountOf(Lower(s), Https) == CountOf(Lower(s[1..]), Https)
  {
    var L := Lower(s);
    assert L[1..] == Lower(s[1..]);
    if |s| >= 7 { assert L[..7] == Lower(s[..7]); }
    if |s| >= 8 { assert L[..8] == Lower(s[..8]); }
  }

  /**
   * The removal deletes exactly the protocol text: what is left is the input
   * less seven characters per `http://` and eight per `https://`.
   */
  lemma {:induction false} RemoveProtocolsLength(s: string)
    ensures |RemoveProtocols(s)| == |s| - 7 * CountOf(Lower(s), Http) - 8 * CountOf(Lower(s), Https)
    decreases |s|
  {
    if HasHttpsPrefix(s) {
      CountsAfterHttpsPrefix(s);
      RemoveProtocolsLength(s[8..]);
    } else if HasHttpPrefix(s) {
      CountsAfterHttpPrefix(s);
      RemoveProtocolsLength(s[7..]);
    } else if s != [] {
      CountsAfterPlainChar(s);
      RemoveProtocolsLength(s[1..]);
    }
  }

  /** The removal only ever deletes characters, so an output as long as the input is the input. */
  lemma {:induction false} RemoveKeepsFullLength(s: string)
    ensures |RemoveProtocols(s)| == |s| ==> RemoveProtocols(s) == s
    decreases |s|
  {
    if HasHttpsPrefix(s) {
    } else if HasHttpPrefix(s) {
    } else if s != [] {
      RemoveKeepsFullLength(s[1..]);
    }
  }

  /** With no protocol anywhere, the removal changes nothing. */
  lemma RemoveWithoutProtocols(s: string)
    requires ProtocolCount(s) == 0
    ensures RemoveProtocols(s) == s
  {
    RemoveProtocolsLength(s);
    RemoveKeepsFullLength(s);
  }

  // ---------------------------------------------------------------------------
  // Properties of _normalize_url as written

  /** A stripped URL with a lower-case `https://` and no other protocol is returned unchanged. */
  lemma NormalizeKeepsHttpsUrl(url: string)
    requires ProtocolCount(Strip(url)) <= 1 && StartsWith(Strip(url), Https)
    ensures NormalizeUrl(url) == Strip(url)
  {
    var u := Strip(url);
    ProtocolLiterals();
    assert u[..8] == Https;
    assert Https + u[8..] == u;
  }

  /** A repeated protocol collapses to one `https://` and the input loses all its protocol text. */
  lemma NormalizeCollapsesRepeatedProtocols(url: string)
    requires ProtocolCount(Strip(url)) > 1
    ensures NormalizeUrl(url) == Https + RemoveProtocols(Strip(url))
    ensures |NormalizeUrl(url)| == 8 + |Strip(url)|
              - 7 * CountOf(Lower(Strip(url)), Http) - 8 * CountOf(Lower(Strip(url)), Https)
  {
    RemoveProtocolsLength(Strip(url));
  }

  /** Without any protocol the URL gets `https://` in front and is otherwise kept. */
  lemma NormalizeAddsHttps(url: string)
    requires ProtocolCount(Strip(url)) == 0
    ensures NormalizeUrl(url) == Https + Strip(url)
  {
    PrefixIsCounted(Strip(url));
  }

  /** A stripped URL starting with lower-case `https://` and holding no other protocol is kept as it is. */
  lemma HttpsFixedPoint(r: string)
    requires HasHttpsPrefix(r) && StartsWith(r, Https) && ProtocolCount(r) == 1
    ensures NormalizeStripped(r) == r
  {
    assert Https + r[8..] == r;
  }

  /** A stripped URL starting with lower-case `http://` and holding no other protocol is kept as it is. */
  lemma HttpFixedPoint(r: string)
    requires HasHttpPrefix(r) && StartsWith(r, Http) && ProtocolCount(r) == 1
    ensures NormalizeStripped(r) == r
  {
    assert !HasHttpsPrefix(r) by {
      if |r| >= 8 { assert Lower(r[..8])[4] == ':'; }
    }
    assert Http + r[7..] == r;
  }

  /** A URL that starts with a protocol and ends in a non-space is its own strip. */
  lemma SchemeUrlIsStripped(r: string)
    requires StartsWith(r, Http) || StartsWith(r, Https)
    requires !IsSpace(r[|r| - 1])
    ensures Strip(r) == r
  {
    assert r[0] == 'h';
    StripUnchanged(r);
  }

  /** Whatever follows a protocol in front of a stripped URL, the whole ends in a non-space. */
  lemma SchemeThenSuffixEndsPlain(scheme: string, u: string, k: nat)
    requires scheme == Http || scheme == Https
    requires u == [] || !IsSpace(u[|u| - 1])
    requires k <= |u|
    ensures !IsSpace((scheme + u[k..])[|scheme + u[k..]| - 1])
  {
    ProtocolLiterals();
    if k < |u| {
      assert (scheme + u[k..])[|scheme + u[k..]| - 1] == u[|u| - 1];
    } else {
      assert (scheme + u[k..])[|scheme + u[k..]| - 1] == '/';
    }
  }

  /** A protocol followed by the tail of a stripped URL is left alone by the strip. */
  lemma SchemeSuffixStripped(scheme: string, u: string, k: nat)
    requires scheme == Http || scheme == Https
    requires u == [] || !IsSpace(u[|u| - 1])
    requires k <= |u|
    ensures StartsWith(scheme + u[k..], scheme)
    ensures Strip(scheme + u[k..]) == scheme + u[k..]
  {
    ProtocolLiterals();
    assert (scheme + u[k..])[..|scheme|] == scheme;
    SchemeThenSuffixEndsPlain(scheme, u, k);
    SchemeUrlIsStripped(scheme + u[k..]);
  }

  /** `https://` in front of a stripped URL without protocols is a normal form. */
  lemma HttpsPlainIsNormal(u: string)
    requires Stripped(u) && ProtocolCount(u) == 0
    ensures NormalizeUrl(Https + u) == Https + u
  {
    assert u[0..] == u;
    SchemeSuffixStripped(Https, u, 0);
    ProtocolCountAfterHttps(u);
    ProtocolLiterals();
    assert (Https + u)[..8] == Https;
    HttpsFixedPoint(Https + u);
  }

  /** Normalising a stripped URL that holds no protocol twice gives the same as once. */
  lemma IdempotentWithoutProtocol(u: string)
    requires Stripped(u) && ProtocolCount(u) == 0
    ensures NormalizeUrl(NormalizeStripped(u)) == NormalizeStripped(u)
  {
    PrefixIsCounted(u);
    assert NormalizeStripped(u) == Https + u;
    HttpsPlainIsNormal(u);
  }

  /** Normalising a stripped URL whose one protocol is a leading `https://` twice gives the same as once. */
  lemma IdempotentWithLeadingHttps(u: string)
    requires Stripped(u) && ProtocolCount(u) == 1 && HasHttpsPrefix(u)
    ensures NormalizeUrl(NormalizeStripped(u)) == NormalizeStripped(u)
  {
    var r := Https + u[8..];
    assert NormalizeStripped(u) == r;
    LowerAfterScheme(u, 8, Https);
    SchemeSuffixStripped(Https, u, 8);
    HttpsFixedPoint(r);
  }

  /** Normalising a stripped URL whose one protocol is a leading `http://` twice gives the same as once. */
  lemma IdempotentWithLeadingHttp(u: string)
    requires Stripped(u) && ProtocolCount(u) == 1 && HasHttpPrefix(u) && !HasHttpsPrefix(u)
    ensures NormalizeUrl(NormalizeStripped(u)) == NormalizeStripped(u)
  {
    var r := Http + u[7..];
    assert NormalizeStripped(u) == r;
    LowerAfterScheme(u, 7, Http);
    SchemeSuffixStripped(Http, u, 7);
    HttpFixedPoint(r);
  }

  /** The normalised form of a URL whose only protocol starts it, or that has none, is a fixed point. */
  lemma NormalizeIdempotent(url: string)
    requires ProtocolCount(Strip(url)) == 0 || (ProtocolCount(Strip(url)) == 1 && HasProtocolPrefix(Strip(url)))
    ensures NormalizeUrl(NormalizeUrl(url)) == NormalizeUrl(url)
  {
    var u := Strip(url);
    if ProtocolCount(u) == 0 {
      IdempotentWithoutProtocol(u);
    } else if HasHttpsPrefix(u) {
      IdempotentWithLeadingHttps(u);
    } else {
      IdempotentWithLeadingHttp(u);
    }
  }

  /** The counts of `a?u=http://b`, written as the concatenation it is. */
  lemma EmbeddedCounts()
    ensures CountOf(Lower("a?u=" + Http + "b"), Http) == 1
    ensures CountOf(Lower("a?u=" + Http + "b"), Https) == 0
    ensures Lower("a?u=" + Http + "b") == "a?u=" + Http + "b"
  {
    var x, y := "a?u=", Http + "b";
    var u := x + y;
    assert u == "a?u=" + Http + "b";
    ProtocolLiterals();
    LowerIdentity(u);
    CountSkipsPlainText(x, y, Http);
    CountAfterPattern(Http, "b");
    CountSkipsPlainText(x, y, Https);
    HttpsCountAfterHttp("b");
  }

  /** `a?u=http://b` starts with no protocol. */
  lemma EmbeddedHasNoPrefix()
    ensures !HasProtocolPrefix("a?u=" + Http + "b")
  {
    var u := "a?u=" + Http + "b";
    assert Lower(u[..7])[0] == 'a';
    assert Lower(u[..8])[0] == 'a';
  }

  /** Removing the protocols of `https://a?u=http://b` leaves `a?u=b`. */
  lemma EmbeddedRemoval()
    ensures RemoveProtocols(Https + ("a?u=" + Http + "b")) == "a?u=b"
  {
    var x, y := "a?u=", Http + "b";
    assert x + y == "a?u=" + Http + "b";
    RemoveAfterHttps(x + y);
    RemoveKeepsPlainText(x, y);
    RemoveAfterHttp("b");
    assert RemoveProtocols("b") == "b" by {
      assert !HasProtocolPrefix("b");
      assert "b"[1..] == [];
    }
    assert x + "b" == "a?u=b";
  }

  /**
   * `https://a?u=http://b`, a URL carrying another URL in its query: the
   * embedded protocol is deleted together with the leading one.
   */
  lemma EmbeddedProtocolDeleted()
    ensures NormalizeStripped(Https + ("a?u=" + Http + "b")) == Https + "a?u=b"
  {
    var u := "a?u=" + Http + "b";
    EmbeddedCounts();
    ProtocolCountAfterHttps(u);
    assert ProtocolCount(Https + u) == 2;
    EmbeddedRemoval();
  }

  /**
   * Normalising twice can differ from normalising once (`a?u=http://b`): a
   * URL with an embedded protocol but none in front first gains `https://`,
   * and a second pass then sees two protocols and deletes the embedded one.
   */
  lemma NormalizeNotIdempotent()
    ensures NormalizeUrl("a?u=" + Http + "b") == Https + ("a?u=" + Http + "b")
    ensures NormalizeUrl(NormalizeUrl("a?u=" + Http + "b")) == Https + "a?u=b"
  {
    var u := "a?u=" + Http + "b";
    ProtocolLiterals();
    assert Stripped(u);
    StripUnchanged(u);
    EmbeddedCounts();
    EmbeddedHasNoPrefix();
    var r := Https + u;
    assert NormalizeStripped(u) == r;
    assert Stripped(r);
    StripUnchanged(r);
    EmbeddedProtocolDeleted();
  }

  // ---------------------------------------------------------------------------
  // Corrected normalisation: only protocols repeated at the front are collapsed

  /** How many protocols follow one another at the start of u. */
  function LeadingProtocols(u: string): nat
    decreases |u|
  {
    if HasHttpsPrefix(u) then 1 + LeadingProtocols(u[8..])
    else if HasHttpPrefix(u) then 1 + LeadingProtocols(u[7..])
    else 0
  }

  /** u without the protocols repeated at its start. */
  function DropLeadingProtocols(u: string): (r: string)
    ensures |r| <= |u| && r == u[|u| - |r|..]
    ensures !HasProtocolPrefix(r)
    ensures LeadingProtocols(u) == 0 ==> r == u
    decreases |u|
  {
    if HasHttpsPrefix(u) then DropLeadingProtocols(u[8..])
    else if HasHttpPrefix(u) then DropLeadingProtocols(u[7..])
    else u
  }

  /**
   * `_normalize_url` as evidently intended: a URL keeps its own text after
   * its leading protocols. One leading protocol keeps its kind (lower-cased),
   * none or a repeated one becomes `https://`.
   */
  function NormalizeUrlCorrected(url: string): (r: string)
    ensures StartsWith(r, Http) || StartsWith(r, Https)
    ensures EndsWith(r, DropLeadingProtocols(Strip(url)))
    ensures |r| - |DropLeadingProtocols(Strip(url))| in {7, 8}
  {
    NormalizeStrippedCorrected(Strip(url))
  }

  function NormalizeStrippedCorrected(u: string): (r: string)
    ensures StartsWith(r, Http) || StartsWith(r, Https)
    ensures EndsWith(r, DropLeadingProtocols(u))
    ensures |r| - |DropLeadingProtocols(u)| in {7, 8}
  {
    if LeadingProtocols(u) == 1 && !HasHttpsPrefix(u) then Http + DropLeadingProtocols(u)
    else Https + DropLeadingProtocols(u)
  }

  /** Every leading protocol is also counted by ProtocolCount. */
  lemma {:induction false} LeadingAreCounted(u: string)
    ensures LeadingProtocols(u) <= ProtocolCount(u)
    decreases |u|
  {
    if HasHttpsPrefix(u) {
      CountsAfterHttpsPrefix(u);
      LeadingAreCounted(u[8..]);
    } else if HasHttpPrefix(u) {
      CountsAfterHttpPrefix(u);
      LeadingAreCounted(u[7..]);
    }
  }

  /** Wherever the source keeps the URL's text (at most one protocol), the correction agrees with it. */
  lemma CorrectedAgreesWhenSingleProtocol(url: string)
    requires ProtocolCount(Strip(url)) <= 1
    ensures NormalizeUrlCorrected(url) == NormalizeUrl(url)
  {
    var u := Strip(url);
    LeadingAreCounted(u);
    if HasHttpsPrefix(u) {
      assert LeadingProtocols(u[8..]) == 0;
    } else if HasHttpPrefix(u) {
      assert LeadingProtocols(u[7..]) == 0;
    }
  }

  /** The corrected result has exactly one protocol in front, followed by no other. */
  lemma CorrectedShape(u: string)
    ensures var r := NormalizeStrippedCorrected(u);
            (HasHttpsPrefix(r) && r[8..] == DropLeadingProtocols(u) && r[..8] == Https)
            || (!HasHttpsPrefix(r) && HasHttpPrefix(r) && r[7..] == DropLeadingProtocols(u) && r[..7] == Http)
  {
    ProtocolLiterals();
    var rest := DropLeadingProtocols(u);
    var r := NormalizeStrippedCorrected(u);
    if LeadingProtocols(u) == 1 && !HasHttpsPrefix(u) {
      assert r[..7] == Http && r[7..] == rest;
      if |r| >= 8 { assert Lower(r[..8])[4] == ':'; }
    } else {
      assert r[..8] == Https && r[8..] == rest;
    }
  }

  /** A URL made of one protocol and a rest that starts with none is its own corrected form. */
  lemma CorrectedFixedPoint(r: string, scheme: string, rest: string)
    requires scheme == Https || scheme == Http
    requires r == scheme + rest && !HasProtocolPrefix(rest)
    requires scheme == Https ==> HasHttpsPrefix(r)
    requires scheme == Http ==> !HasHttpsPrefix(r) && HasHttpPrefix(r)
    requires rest == [] || !IsSpace(rest[|rest| - 1])
    ensures NormalizeUrlCorrected(r) == r
  {
    ProtocolLiterals();
    assert r[0] == 'h';
    assert !IsSpace(r[|r| - 1]) by {
      if rest == [] { assert r[|r| - 1] == '/'; } else { assert r[|r| - 1] == rest[|rest| - 1]; }
    }
    StripUnchanged(r);
    assert r[|scheme|..] == rest;
    assert LeadingProtocols(r) == 1;
    assert DropLeadingProtocols(r) == rest;
  }

  /** Normalising with the correction twice gives the same as once, for every input. */
  lemma CorrectedIdempotent(url: string)
    ensures NormalizeUrlCorrected(NormalizeUrlCorrected(url)) == NormalizeUrlCorrected(url)
  {
    var u := Strip(url);
    var rest := DropLeadingProtocols(u);
    var r := NormalizeStrippedCorrected(u);
    CorrectedShape(u);
    assert rest == [] || !IsSpace(rest[|rest| - 1]) by {
      if rest != [] { assert rest[|rest| - 1] == u[|u| - 1]; }
    }
    if HasHttpsPrefix(r) {
      assert r == Https + rest;
      CorrectedFixedPoint(r, Https, rest);
    } else {
      assert r == Http + rest;
      CorrectedFixedPoint(r, Http, rest);
    }
  }

  /** On `https://a?u=http://b` the correction keeps the embedded URL that the source deletes. */
  lemma CorrectedKeepsEmbeddedUrl()
    ensures NormalizeStrippedCorrected(Https + "a?u=" + Http + "b") == Https + "a?u=" + Http + "b"
  {
    var u := "a?u=" + Http + "b";
    var s := Https + u;
    ProtocolLiterals();
    assert s[..8] == Https && s[8..] == u;
    assert !HasProtocolPrefix(u) by {
      assert Lower(u[..7])[0] == 'a';
      assert Lower(u[..8])[0] == 'a';
    }
    assert s == Https + "a?u=" + Http + "b";
  }

  // ---------------------------------------------------------------------------
  // Keywords and measures of a URL path

  /** `re.sub(r'\.(html|php|asp|jsp|htm)$', '', path)`: one page extension at the very end is removed. */
  function StripPageExtension(path: string): (r: string)
    ensures StartsWith(path, r)
    ensures |path| - |r| in {0, 4, 5}
  {
    if EndsWith(path, ".html") then path[..|path| - 5]
    else if EndsWith(path, ".php") || EndsWith(path, ".asp") || EndsWith(path, ".jsp") || EndsWith(path, ".htm")
    then path[..|path| - 4]
    else path
  }

  const PathDelimiters: set<char> := {'/', '-', '_'}

  /** str.isdigit on the ASCII digits: non-empty and all characters digits. */
  predicate IsDigits(s: string)
  {
    |s| > 0 && forall i :: 0 <= i < |s| ==> '0' <= s[i] <= '9'
  }

  /** A path piece is kept as a keyword when it is longer than two characters and not a number. */
  predicate IsKeywordPiece(k: string)
  {
    |k| > 2 && !IsDigits(k)
  }

  /** The qualifying pieces, lower-cased, in order. */
  function KeywordPieces(pieces: seq<string>): (r: seq<string>)
    ensures |r| <= |pieces|
    ensures forall k :: 0 <= k < |r| ==> |r[k]| > 2
  {
    if pieces == [] then []
    else (if IsKeywordPiece(pieces[0]) then [Lower(pieces[0])] else []) + KeywordPieces(pieces[1..])
  }

  /** `_extract_keywords_from_url` on the path component of the URL. */
  function ExtractKeywordsFromPath(path: string): (r: seq<string>)
    ensures forall k :: 0 <= k < |r| ==> |r[k]| > 2
  {
    KeywordPieces(SplitOn(StripPageExtension(path), PathDelimiters))
  }

  /** Every kept keyword is a lower-cased qualifying piece, and every qualifying piece is kept. */
  lemma {:induction false} KeywordPiecesMembers(pieces: seq<string>)
    ensures forall w :: w in KeywordPieces(pieces) <==> exists p :: p in pieces && IsKeywordPiece(p) && w == Lower(p)
  {
    if pieces != [] {
      KeywordPiecesMembers(pieces[1..]);
      var head := if IsKeywordPiece(pieces[0]) then [Lower(pieces[0])] else [];
      assert KeywordPieces(pieces) == head + KeywordPieces(pieces[1..]);
      forall w ensures w in KeywordPieces(pieces) <==> exists p :: p in pieces && IsKeywordPiece(p) && w == Lower(p) {
        if w in KeywordPieces(pieces) && !(w in head) {
          var p :| p in pieces[1..] && IsKeywordPiece(p) && w == Lower(p);
          assert p in pieces;
        }
        if w in head {
          assert pieces[0] in pieces;
        }
        if exists p :: p in pieces && IsKeywordPiece(p) && w == Lower(p) {
          var p :| p in pieces && IsKeywordPiece(p) && w == Lower(p);
          if p != pieces[0] {
            assert p in pieces[1..];
          }
        }
      }
    }
  }

  /**
   * The keywords of a path are exactly the lower-cased pieces between `/`, `-`
   * and `_`, after the page extension is removed, that are longer than two
   * characters and not numbers; none of them holds a delimiter.
   */
  lemma KeywordsOfPath(path: string, w: string)
    ensures w in ExtractKeywordsFromPath(path) <==>
            exists p :: p in SplitOn(StripPageExtension(path), PathDelimiters) && IsKeywordPiece(p) && w == Lower(p)
    ensures w in ExtractKeywordsFromPath(path) ==> forall c :: c in w ==> c !in PathDelimiters
  {
    var pieces := SplitOn(StripPageExtension(path), PathDelimiters);
    KeywordPiecesMembers(pieces);
    if w in ExtractKeywordsFromPath(path) {
      var p :| p in pieces && IsKeywordPiece(p) && w == Lower(p);
      forall c | c in w ensures c !in PathDelimiters {
        var i :| 0 <= i < |w| && w[i] == c;
        assert p[i] in p;
      }
    }
  }

  /** `len([p for p in path.split('/') if p])`: the number of non-empty path segments. */
  function PathDepth(path: string): nat
  {
    NonEmptyPieces(SplitOn(path, {'/'}))
  }

  function NonEmptyPieces(pieces: seq<string>): nat
  {
    if pieces == [] then 0 else (if pieces[0] != "" then 1 else 0) + NonEmptyPieces(pieces[1..])
  }

  /** Only empty pieces glue together to nothing. */
  lemma {:induction false} NonEmptyPiecesZero(pieces: seq<string>)
    ensures NonEmptyPieces(pieces) == 0 <==> Concat(pieces) == ""
  {
    if pieces != [] {
      NonEmptyPiecesZero(pieces[1..]);
      assert |Concat(pieces)| == |pieces[0]| + |Concat(pieces[1..])|;
    }
  }

  /**
   * The depth is at most one more than the number of slashes, and it is zero
   * exactly when the path consists of slashes only.
   */
  lemma PathDepthBounds(path: string)
    ensures PathDepth(path) <= DelimiterCount(path, {'/'}) + 1
    ensures PathDepth(path) == 0 <==> Without(path, {'/'}) == ""
  {
    var pieces := SplitOn(path, {'/'});
    SplitOnRoundTrip(path, {'/'});
    NonEmptyPiecesAtMost(pieces);
    NonEmptyPiecesZero(pieces);
  }

  lemma NonEmptyPiecesAtMost(pieces: seq<string>)
    ensures NonEmptyPieces(pieces) <= |pieces|
  {
  }

  /** The characters `[a-zA-Z0-9\-_/]` a path may use without counting as special. */
  predicate IsPlainPathChar(c: char)
  {
    ('a' <= c <= 'z') || ('A' <= c <= 'Z') || ('0' <= c <= '9') || c == '-' || c == '_' || c == '/'
  }

  /** `len(re.findall(r'[^a-zA-Z0-9\-_/]', path)) > 0` */
  predicate HasSpecialChars(path: string)
  {
    exists i :: 0 <= i < |path| && !IsPlainPathChar(path[i])
  }

  /** `any(keyword in url.lower() for keyword in ['seo', 'optimization', 'marketing'])` */
  predicate HasSeoKeyword(url: string)
  {
    Contains(Lower(url), "seo") || Contains(Lower(url), "optimization") || Contains(Lower(url), "marketing")
  }
}
