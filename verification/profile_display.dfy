/** What the read-only profile view shows: the avatar, name and bio with their
    fallbacks, and which of the links are rendered. */
module ProfileDisplay {
  import opened Wrappers
  import opened SocialLinks
  import opened ProfileModel

  const Placeholder: string := "/placeholder.jpg"
  const NoBio: string := "No bio yet"

  /** `profile.profileImage || user?.imageUrl || "/placeholder.jpg"`; the user's
      image is None when there is no user or it has no image url. */
  function AvatarSrc(profileImage: string, userImage: Option<string>): (src: string)
    ensures src != ""
    ensures profileImage != "" ==> src == profileImage
    ensures profileImage == "" && Truthy(userImage) ==> src == userImage.value
    ensures profileImage == "" && !Truthy(userImage) ==> src == Placeholder
  {
    if profileImage != "" then profileImage
    else if userImage.Some? && userImage.value != "" then userImage.value
    else Placeholder
  }

  /** The heading: `profile.name || user?.firstName`; None renders nothing. */
  function DisplayName(name: string, userFirstName: Option<string>): (shown: Option<string>)
    ensures name != "" ==> shown == Some(name)
    ensures name == "" ==> shown == userFirstName
  {
    if name != "" then Some(name) else userFirstName
  }

  /** The bio paragraph: `profile.bio || "No bio yet"`. */
  function BioText(bio: string): (text: string)
    ensures text != ""
    ensures bio != "" ==> text == bio
    ensures bio == "" ==> text == NoBio
  {
    if bio != "" then bio else NoBio
  }

  predicate HasUrl(l: Link)
  {
    l.url != ""
  }

  /** A custom link is rendered only when it has both a name and a url. */
  predicate IsComplete(l: Link)
  {
    l.name != "" && l.url != ""
  }

  /** The links of `links` for which `keep` holds, in order. */
  function Keep(links: seq<Link>, keep: Link -> bool): (kept: seq<Link>)
    ensures |kept| <= |links|
    ensures forall l :: l in kept <==> l in links && keep(l)
  {
    if links == [] then []
    else (if keep(links[0]) then [links[0]] else []) + Keep(links[1..], keep)
  }

  /** Filtering a concatenation filters each part in turn: the rendered
      links keep their list order and multiplicity. */
  lemma {:induction false} KeepDistributes(a: seq<Link>, b: seq<Link>, keep: Link -> bool)
    ensures Keep(a + b, keep) == Keep(a, keep) + Keep(b, keep)
  {
    if a == [] {
      assert a + b == b;
    } else {
      assert (a + b)[0] == a[0];
      assert (a + b)[1..] == a[1..] + b;
      KeepDistributes(a[1..], b, keep);
    }
  }

  /** A link is kept once for each position at which it occurs with its
      guard true: nothing is merged or duplicated. */
  lemma {:induction false} KeepCountsOccurrences(links: seq<Link>, keep: Link -> bool, l: Link)
    ensures multiset(Keep(links, keep))[l] == if keep(l) then multiset(links)[l] else 0
  {
    if links != [] {
      assert links == [links[0]] + links[1..];
      KeepCountsOccurrences(links[1..], keep, l);
    }
  }

  function Min(a: int, b: int): int
  {
    if a <= b then a else b
  }

  /** `links.slice(0, 2)` rendered when the url is non-empty. */
  function VisibleDefaultLinks(links: seq<Link>): seq<Link>
  {
    Keep(links[..Min(2, |links|)], HasUrl)
  }

  /** `links.slice(2)` rendered when both name and url are non-empty. */
  function VisibleCustomLinks(links: seq<Link>): seq<Link>
  {
    Keep(links[Min(2, |links|)..], IsComplete)
  }

  /** `links.slice(2).some(link => link.name && link.url)`: whether the
      "Other Links" block is shown. */
  predicate CustomSectionShown(links: seq<Link>)
  {
    exists i :: 2 <= i < |links| && IsComplete(links[i])
  }

  // ---------------------------------------------------------------------
  // Properties of the view

  /** A default slot is shown iff its url is non-empty; a custom link is shown
      iff both its name and url are non-empty. */
  lemma LinkVisibility(links: seq<Link>, i: int)
    requires 0 <= i < |links|
    ensures i < 2 ==> (links[i] in VisibleDefaultLinks(links) <==> HasUrl(links[i]))
    ensures 2 <= i ==> (links[i] in VisibleCustomLinks(links) <==> IsComplete(links[i]))
  {
  }

  /** Only default slots appear among the shown default links, at most two. */
  lemma DefaultLinksComeFromSlots(links: seq<Link>)
    ensures |VisibleDefaultLinks(links)| <= 2
    ensures forall l :: l in VisibleDefaultLinks(links) ==> l.url != "" && l in links[..Min(2, |links|)]
  {
  }

  /** The "Other Links" block is shown iff it has at least one link to show. */
  lemma CustomSectionShownIffNonEmpty(links: seq<Link>)
    ensures CustomSectionShown(links) <==> VisibleCustomLinks(links) != []
  {
    var tail := links[Min(2, |links|)..];
    if CustomSectionShown(links) {
      var i :| 2 <= i < |links| && IsComplete(links[i]);
      assert tail[i - 2] == links[i];
      assert links[i] in VisibleCustomLinks(links);
    }
    if VisibleCustomLinks(links) != [] {
      var l := VisibleCustomLinks(links)[0];
      assert l in tail;
      var k :| 0 <= k < |tail| && tail[k] == l;
      assert links[k + 2] == l;
    }
  }

  /** A freshly seeded profile shows the user's first name and image, and no
      link or social icon at all. */
  lemma SeedView(u: User)
    ensures DisplayName(Seed(u).name, u.firstName) == u.firstName
    ensures AvatarSrc(Seed(u).profileImage, u.imageUrl) == (if Truthy(u.imageUrl) then u.imageUrl.value else Placeholder)
    ensures BioText(Seed(u).bio) == NoBio
    ensures VisibleDefaultLinks(Seed(u).links) == [] && !CustomSectionShown(Seed(u).links)
    ensures !SectionShown(Seed(u).socials)
  {
    var links := Seed(u).links;
    assert links[..Min(2, |links|)] == links;
  }
}
