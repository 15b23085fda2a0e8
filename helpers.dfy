/** The two classification helpers of the SDK: mobile user agents and external links. */
module Helpers {
  import opened Wrappers
  import opened Js

  /** The alternatives of the mobile pattern, in the order the pattern lists them. */
  const MobileTokens: seq<string> :=
    ["Android", "webOS", "iPhone", "iPad", "iPod", "BlackBerry", "IEMobile", "Opera Mini"]

  /** ASCII case folding. The pattern's `i` flag folds case without ever mapping a
      non-ASCII character onto an ASCII one, and every token is ASCII, so folding
      ASCII letters alone decides the same matches. */
  function Fold(c: char): char {
    if 'A' <= c <= 'Z' then (c as int + 32) as char else c
  }

  function FoldAll(s: string): string {
    seq(|s|, i requires 0 <= i < |s| => Fold(s[i]))
  }

  /** Folding a concatenation folds each part. */
  lemma FoldAllConcat(a: string, b: string)
    ensures FoldAll(a + b) == FoldAll(a) + FoldAll(b)
  {
  }

  /** `t` occurs in `s` at position `i`, ignoring case. */
  ghost predicate OccursAt(s: string, t: string, i: int) {
    0 <= i && i + |t| <= |s| && FoldAll(s[i..i + |t|]) == FoldAll(t)
  }

  /** What the mobile pattern promises: some token occurs somewhere in the user agent. */
  ghost predicate MobileUserAgent(ua: string) {
    exists t, i :: t in MobileTokens && OccursAt(ua, t, i)
  }

  /** Case-insensitive substring search, scanning the start positions left to right. */
  function ContainsFolded(s: string, t: string): bool
    decreases |s|
  {
    if |s| < |t| then false
    else FoldAll(s[..|t|]) == FoldAll(t) || ContainsFolded(s[1..], t)
  }

  /** The scan finds `t` exactly when it occurs somewhere in `s`. */
  lemma {:induction false} ContainsFoldedIff(s: string, t: string)
    ensures ContainsFolded(s, t) <==> exists i :: OccursAt(s, t, i)
    decreases |s|
  {
    if |s| >= |t| {
      assert s[..|t|] == s[0..0 + |t|];
      if FoldAll(s[..|t|]) == FoldAll(t) {
        assert OccursAt(s, t, 0);
      } else {
        ContainsFoldedIff(s[1..], t);
        forall i | 0 <= i && i + |t| <= |s| - 1
          ensures OccursAt(s[1..], t, i) <==> OccursAt(s, t, i + 1)
        {
          assert s[1..][i..i + |t|] == s[i + 1..i + 1 + |t|];
        }
        if exists i :: OccursAt(s, t, i) {
          var i :| OccursAt(s, t, i);
          assert OccursAt(s[1..], t, i - 1);
        }
      }
    }
  }

  /** The alternation: some token of the list occurs somewhere in the user agent. */
  function AnyTokenIn(ua: string, tokens: seq<string>): (r: bool)
    ensures r <==> exists t, i :: t in tokens && OccursAt(ua, t, i)
  {
    if tokens == [] then false
    else
      ContainsFoldedIff(ua, tokens[0]);
      ContainsFolded(ua, tokens[0]) || AnyTokenIn(ua, tokens[1..])
  }

  /** `Helpers.isMobile`: the user agent matches the mobile pattern. */
  function IsMobile(ua: string): (r: bool)
    ensures r <==> MobileUserAgent(ua)
  {
    AnyTokenIn(ua, MobileTokens)
  }

  /** Folding commutes with slicing. */
  lemma FoldAllSlice(s: string, i: int, j: int)
    requires 0 <= i <= j <= |s|
    ensures FoldAll(s)[i..j] == FoldAll(s[i..j])
  {
  }

  /** The classification ignores case: user agents that agree up to case agree on it. */
  lemma IsMobileIgnoresCase(ua: string, ua': string)
    requires FoldAll(ua) == FoldAll(ua')
    ensures IsMobile(ua) == IsMobile(ua')
  {
    forall t, i | 0 <= i && i + |t| <= |ua|
      ensures OccursAt(ua, t, i) <==> OccursAt(ua', t, i)
    {
      FoldAllSlice(ua, i, i + |t|);
      FoldAllSlice(ua', i, i + |t|);
    }
  }

  /** Any user agent that contains one of the tokens verbatim is mobile, whatever surrounds it. */
  lemma TokenMakesMobile(prefix: string, t: string, suffix: string)
    requires t in MobileTokens
    ensures IsMobile(prefix + t + suffix)
  {
    var ua := prefix + t + suffix;
    assert ua[|prefix|..|prefix| + |t|] == t;
    assert OccursAt(ua, t, |prefix|);
  }

  /** An Android user agent in capitals is still classified as mobile. */
  lemma UpperCaseAndroidIsMobile()
    ensures IsMobile("Mozilla/5.0 (Linux; ANDROID 14)")
  {
    var ua := "Mozilla/5.0 (Linux; ANDROID 14)";
    TokenMakesMobile("Mozilla/5.0 (Linux; ", "Android", " 14)");
    FoldAllConcat("Mozilla/5.0 (Linux; ", "Android");
    FoldAllConcat("Mozilla/5.0 (Linux; " + "Android", " 14)");
    FoldAllConcat("Mozilla/5.0 (Linux; ", "ANDROID");
    FoldAllConcat("Mozilla/5.0 (Linux; " + "ANDROID", " 14)");
    assert FoldAll("Android") == FoldAll("ANDROID");
    assert ua == "Mozilla/5.0 (Linux; " + "ANDROID" + " 14)";
    IsMobileIgnoresCase("Mozilla/5.0 (Linux; " + "Android" + " 14)", ua);
  }

  /** An anchor element as far as the helper reads it. */
  datatype Anchor = Anchor(href: string, host: string)

  /** The anchor as a JavaScript value; a missing link is `null`. */
  function AnchorValue(link: Option<Anchor>): Value {
    match link
    case None => Null
    case Some(a) => Obj(map["href" := Str(a.href), "host" := Str(a.host)])
  }

  /** The value of `link && link.href && link.host && link.host !== location.host`. */
  function ExternalLinkChain(link: Option<Anchor>, currentHost: string): Value {
    var v := AnchorValue(link);
    And(And(And(v, Prop(v, "href")), Prop(v, "host")), Bool(Prop(v, "host") != Str(currentHost)))
  }

  /** `Helpers.isExternalLink`, where `currentHost` is `location.host` at call time and
      `None` is a missing link: the truthiness of the source's `&&` chain, which holds
      exactly when the link has an address and a host other than the page's. */
  function IsExternalLink(link: Option<Anchor>, currentHost: string): (r: bool)
    ensures r == Truthy(ExternalLinkChain(link, currentHost))
    ensures r <==> link.Some? && link.value.href != "" && link.value.host != ""
                   && link.value.host != currentHost
  {
    match link
    case None => false
    case Some(a) => a.href != "" && a.host != "" && a.host != currentHost
  }

  /** The value the source returns: `true` for an external link, and otherwise the first
      falsy operand of the chain (`null` for a missing link, `""` for an empty address or
      host, `false` for a link to the page's own host). */
  lemma ExternalLinkChainValue(link: Option<Anchor>, currentHost: string)
    ensures IsExternalLink(link, currentHost) ==> ExternalLinkChain(link, currentHost) == Bool(true)
    ensures link.None? ==> ExternalLinkChain(link, currentHost) == Null
    ensures link.Some? && (link.value.href == "" || link.value.host == "") ==>
              ExternalLinkChain(link, currentHost) == Str("")
    ensures link.Some? && link.value.href != "" && link.value.host != "" && link.value.host == currentHost ==>
              ExternalLinkChain(link, currentHost) == Bool(false)
  {
  }

  /** A link with an address and a host is external to every page host but its own. */
  lemma ExternalExactlyOffItsHost(a: Anchor, currentHost: string)
    requires a.href != "" && a.host != ""
    ensures IsExternalLink(Some(a), currentHost) <==> currentHost != a.host
  {
  }
}
