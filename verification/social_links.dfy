/** The social-link normaliser of the profile page: how a stored social handle
    or URL becomes the `href` of an icon link, and when that link is rendered.
    Normalisation happens only at render time; the stored value is never changed. */
module SocialLinks {
  import opened Wrappers

  datatype Platform = Telegram | Discord | Twitter | LinkedIn

  /** The optional social fields of a profile. */
  datatype Socials = Socials(
    telegram: Option<string>,
    discord: Option<string>,
    twitter: Option<string>,
    linkedin: Option<string>)

  const HttpPrefix: string := "http"
  const TelegramBase: string := "https://t.me/"
  const DiscordBase: string := "discord://-/users/"
  const TwitterBase: string := "https://twitter.com/"

  /** JavaScript's `s.startsWith(prefix)`. */
  predicate StartsWith(s: string, prefix: string)
  {
    |prefix| <= |s| && s[..|prefix|] == prefix
  }

  /** JavaScript's `s.indexOf(c)` for a one-character pattern: the first
      position of `c`, or -1 when there is none. */
  function IndexOf(s: string, c: char): (i: int)
    ensures -1 <= i < |s|
    ensures i == -1 <==> c !in s
    ensures 0 <= i ==> s[i] == c && c !in s[..i]
  {
    if s == [] then -1
    else if s[0] == c then 0
    else
      var j := IndexOf(s[1..], c);
      if j == -1 then -1
      else
        assert s[..j + 1] == [s[0]] + s[1..][..j];
        j + 1
  }

  /** JavaScript's `s.replace(c, "")` with a one-character string pattern:
      only the FIRST occurrence of `c`, wherever it is, is removed. */
  function RemoveFirst(s: string, c: char): string
  {
    var i := IndexOf(s, c);
    if i < 0 then s else s[..i] + s[i + 1..]
  }

  /** The `href` the page builds for a non-empty stored value. */
  function Href(p: Platform, v: string): string
  {
    match p
    case Telegram => if StartsWith(v, HttpPrefix) then v else TelegramBase + v
    case Discord => if StartsWith(v, HttpPrefix) then v else DiscordBase + v
    case Twitter => if StartsWith(v, HttpPrefix) then v else TwitterBase + RemoveFirst(v, '@')
    case LinkedIn => v
  }

  function Value(s: Socials, p: Platform): Option<string>
  {
    match p
    case Telegram => s.telegram
    case Discord => s.discord
    case Twitter => s.twitter
    case LinkedIn => s.linkedin
  }

  /** The icon link of one platform: rendered only when the stored value is
      truthy, i.e. present and non-empty (whitespace counts as content). */
  function Anchor(s: Socials, p: Platform): (a: Option<string>)
    ensures a.Some? <==> Truthy(Value(s, p))
    ensures a.Some? ==> a.value == Href(p, Value(s, p).value)
  {
    var v := Value(s, p);
    if v.Some? && v.value != "" then Some(Href(p, v.value)) else None
  }

  /** Whether the "Social Links" block is shown: some social value is truthy. */
  predicate SectionShown(s: Socials)
  {
    Truthy(s.telegram) || Truthy(s.discord) || Truthy(s.twitter) || Truthy(s.linkedin)
  }

  function AnchorList(a: Option<string>): seq<string>
  {
    if a.Some? then [a.value] else []
  }

  /** The hrefs of the icon links, in page order. */
  function RenderedHrefs(s: Socials): seq<string>
  {
    AnchorList(Anchor(s, Telegram)) + AnchorList(Anchor(s, Discord))
    + AnchorList(Anchor(s, Twitter)) + AnchorList(Anchor(s, LinkedIn))
  }

  // ---------------------------------------------------------------------
  // Properties of the normaliser

  /** A value already starting with "http" is used as the link unchanged, on
      every platform; LinkedIn values are always used unchanged. */
  lemma HttpValuesPassThrough(p: Platform, v: string)
    ensures StartsWith(v, HttpPrefix) || p == LinkedIn ==> Href(p, v) == v
  {
  }

  /** A bare handle is prefixed with the platform's base; Twitter first drops
      the first '@' of the handle. */
  lemma HandlesArePrefixed(p: Platform, v: string)
    requires !StartsWith(v, HttpPrefix)
    ensures p == Telegram ==> Href(p, v) == TelegramBase + v
    ensures p == Discord ==> Href(p, v) == DiscordBase + v
    ensures p == Twitter ==> Href(p, v) == TwitterBase + RemoveFirst(v, '@')
  {
  }

  /** Removing the first occurrence takes exactly one `c` out of the string,
      keeps every other character, and changes nothing when `c` is absent. */
  lemma RemoveFirstDropsOne(s: string, c: char)
    ensures c !in s ==> RemoveFirst(s, c) == s
    ensures c in s ==> |RemoveFirst(s, c)| == |s| - 1
    ensures c in s ==> multiset(RemoveFirst(s, c)) == multiset(s) - multiset{c}
  {
    var i := IndexOf(s, c);
    if 0 <= i {
      assert s == s[..i] + [s[i]] + s[i + 1..];
      assert multiset(s) == multiset(s[..i]) + multiset{c} + multiset(s[i + 1..]);
    }
  }

  /** The first occurrence of `c` is found right after a prefix free of `c`. */
  lemma {:induction false} IndexOfAfterPrefix(pre: string, post: string, c: char)
    requires c !in pre
    ensures IndexOf(pre + [c] + post, c) == |pre|
  {
    var s := pre + [c] + post;
    if pre != [] {
      assert s[0] == pre[0];
      assert s[1..] == pre[1..] + [c] + post;
      IndexOfAfterPrefix(pre[1..], post, c);
    }
  }

  /** Only the first occurrence is removed: the part before it is kept
      verbatim and the rest, including any later occurrence, follows it
      unchanged. */
  lemma RemoveFirstSplitsAtFirst(pre: string, post: string, c: char)
    requires c !in pre
    ensures RemoveFirst(pre + [c] + post, c) == pre + post
  {
    var s := pre + [c] + post;
    IndexOfAfterPrefix(pre, post, c);
    assert s[..|pre|] == pre;
    assert s[|pre| + 1..] == post;
  }

  /** A Twitter handle written with its leading '@' gets the same link as
      without it, e.g. "@alice" and "alice" both give
      "https://twitter.com/alice". */
  lemma TwitterAtSignIsDropped(handle: string)
    requires '@' !in handle
    requires !StartsWith(handle, HttpPrefix)
    ensures Href(Twitter, "@" + handle) == TwitterBase + handle
    ensures Href(Twitter, handle) == TwitterBase + handle
  {
    assert !StartsWith("@" + handle, HttpPrefix) by {
      assert ("@" + handle)[0] == '@';
    }
    RemoveFirstSplitsAtFirst([], handle, '@');
    assert [] + ['@'] + handle == "@" + handle;
    RemoveFirstDropsOne(handle, '@');
  }

  /** Telegram and Twitter links always start with "http", whatever was stored. */
  lemma WebLinksStartWithHttp(p: Platform, v: string)
    requires p == Telegram || p == Twitter
    ensures StartsWith(Href(p, v), HttpPrefix)
  {
  }

  /** Normalising an already-normalised Telegram or Twitter link changes
      nothing. */
  lemma WebHrefIdempotent(p: Platform, v: string)
    requires p == Telegram || p == Twitter
    ensures Href(p, Href(p, v)) == Href(p, v)
  {
  }

  /** A Discord deep link is not "http"-prefixed, so normalising it again
      wraps it a second time. */
  lemma DiscordHrefNotIdempotent(v: string)
    requires !StartsWith(v, HttpPrefix)
    ensures Href(Discord, Href(Discord, v)) == DiscordBase + DiscordBase + v
    ensures Href(Discord, Href(Discord, v)) != Href(Discord, v)
  {
    var once := Href(Discord, v);
    assert !StartsWith(once, HttpPrefix) by { assert once[0] == 'd'; }
    assert |Href(Discord, once)| != |once|;
  }

  /** A Discord link starts with "http" exactly when the stored value does. */
  lemma DiscordKeepsScheme(v: string)
    ensures StartsWith(Href(Discord, v), HttpPrefix) <==> StartsWith(v, HttpPrefix)
  {
    if !StartsWith(v, HttpPrefix) {
      assert Href(Discord, v)[0] == 'd';
    }
  }

  /** Distinct stored Discord values always give distinct links. */
  lemma DiscordHrefInjective(v: string, w: string)
    requires Href(Discord, v) == Href(Discord, w)
    ensures v == w
  {
    var h := Href(Discord, v);
    DiscordKeepsScheme(v);
    DiscordKeepsScheme(w);
    if !StartsWith(v, HttpPrefix) {
      assert v == h[|DiscordBase|..];
      assert w == h[|DiscordBase|..];
    }
  }

  /** Telegram links are not injective: every bare handle gives the same
      link as the full t.me URL built from it. */
  lemma TelegramHrefCollides(v: string)
    requires !StartsWith(v, HttpPrefix)
    ensures v != TelegramBase + v
    ensures Href(Telegram, v) == Href(Telegram, TelegramBase + v)
  {
    assert StartsWith(TelegramBase + v, HttpPrefix) by {
      assert (TelegramBase + v)[..4] == TelegramBase[..4];
    }
  }

  /** A string made of spaces, tabs and line breaks only. */
  predicate AllWhitespace(v: string)
  {
    forall k :: 0 <= k < |v| ==> v[k] in " \t\n\r"
  }

  /** Only the empty string suppresses an icon: a stored value made of
      whitespace alone still renders one. */
  lemma GuardIsEmptinessOnly(s: Socials, p: Platform)
    ensures Value(s, p) == Some("") ==> Anchor(s, p) == None
    ensures Value(s, p).Some? && Value(s, p).value != "" && AllWhitespace(Value(s, p).value) ==>
      Anchor(s, p) == Some(Href(p, Value(s, p).value))
  {
  }

  /** The number of truthy social values. */
  function TruthyCount(s: Socials): nat
  {
    (if Truthy(s.telegram) then 1 else 0) + (if Truthy(s.discord) then 1 else 0)
    + (if Truthy(s.twitter) then 1 else 0) + (if Truthy(s.linkedin) then 1 else 0)
  }

  /** The "Social Links" block is shown iff at least one icon link is rendered,
      and there is one link per truthy value. */
  lemma SectionShownIffSomeIcon(s: Socials)
    ensures SectionShown(s) <==> RenderedHrefs(s) != []
    ensures |RenderedHrefs(s)| == TruthyCount(s) <= 4
    ensures forall p :: Truthy(Value(s, p)) ==> Href(p, Value(s, p).value) in RenderedHrefs(s)
    ensures forall h :: h in RenderedHrefs(s) ==>
      exists p :: Truthy(Value(s, p)) && h == Href(p, Value(s, p).value)
  {
  }
}
