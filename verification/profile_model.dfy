/** The profile document edited on the profile page, its seed value, and the
    edit operations the page's controls apply to it. Each edit is a value
    update: the page replaces its `profile` state with the updated copy. */
module ProfileModel {
  import opened Wrappers
  import opened SocialLinks

  /** A builder-category tag. The enumeration itself is defined in app/types,
      which is not part of this model; a role is represented by its value. */
  type Role = string

  datatype Link = Link(name: string, url: string)

  datatype Profile = Profile(
    name: string,
    bio: string,
    links: seq<Link>,
    socials: Socials,
    profileImage: string,
    roles: Option<seq<Role>>)

  /** The signed-in user as the identity provider reports it. */
  datatype User = User(id: string, firstName: Option<string>, imageUrl: Option<string>)

  /** The two default link slots, "Site" and "GitHub", both without a url. */
  const DefaultLinks: seq<Link> := [Link("Site", ""), Link("GitHub", "")]

  const EmptySocials: Socials := Socials(Some(""), Some(""), Some(""), Some(""))

  const DefaultProfile: Profile := Profile("", "", DefaultLinks, EmptySocials, "", Some([]))

  /** JavaScript's `v || ""` on an optional string. */
  function OrEmpty(v: Option<string>): (r: string)
    ensures Truthy(v) ==> r == v.value
    ensures !Truthy(v) ==> r == ""
  {
    if v.Some? then v.value else ""
  }

  /** The document created for a user seen for the first time: the default
      profile with the user's first name and avatar url. */
  function Seed(u: User): (p: Profile)
    ensures p.links == DefaultLinks && p.socials == EmptySocials && p.roles == Some([])
    ensures p.name == OrEmpty(u.firstName) && p.profileImage == OrEmpty(u.imageUrl)
    ensures p.bio == ""
  {
    DefaultProfile.(name := OrEmpty(u.firstName), profileImage := OrEmpty(u.imageUrl))
  }

  // ---------------------------------------------------------------------
  // Roles

  /** `profile.roles || []`. */
  function RolesOrEmpty(roles: Option<seq<Role>>): seq<Role>
  {
    if roles.Some? then roles.value else []
  }

  /** `rs.filter(r => r !== role)`. */
  function Without(rs: seq<Role>, role: Role): (r: seq<Role>)
    ensures role !in r
    ensures forall x :: x != role ==> (x in r <==> x in rs)
    ensures |r| <= |rs|
  {
    if rs == [] then []
    else if rs[0] == role then Without(rs[1..], role)
    else [rs[0]] + Without(rs[1..], role)
  }

  /** Clicking a role tag: removes every occurrence of a selected role,
      appends an unselected one at the end. */
  function ToggleRole(roles: Option<seq<Role>>, role: Role): seq<Role>
  {
    var rs := RolesOrEmpty(roles);
    if role in rs then Without(rs, role) else rs + [role]
  }

  predicate NoDuplicates(rs: seq<Role>)
  {
    forall i, j :: 0 <= i < j < |rs| ==> rs[i] != rs[j]
  }

  // ---------------------------------------------------------------------
  // Links

  /** `links.filter((_, i) => i !== index)`: drops the entry at `index`, if
      there is one. */
  function RemoveAt(links: seq<Link>, index: int): seq<Link>
  {
    if links == [] then []
    else (if index == 0 then [] else [links[0]]) + RemoveAt(links[1..], index - 1)
  }

  /** `[...links, { name: "", url: "" }]`. */
  function AddLink(links: seq<Link>): seq<Link>
  {
    links + [Link("", "")]
  }

  /** Typing into the name field of link `index`. An index with no entry makes
      the page's handler throw before it updates anything. */
  function SetLinkName(links: seq<Link>, index: int, v: string): seq<Link>
  {
    if 0 <= index < |links| then links[index := links[index].(name := v)] else links
  }

  /** Typing into the url field of link `index`. */
  function SetLinkUrl(links: seq<Link>, index: int, v: string): seq<Link>
  {
    if 0 <= index < |links| then links[index := links[index].(url := v)] else links
  }

  // ---------------------------------------------------------------------
  // Edits

  /** Every change the edit form can make to the profile. */
  datatype Edit =
    | SetName(name: string)
    | SetBio(bio: string)
    | SetSocial(platform: Platform, value: string)
    | ClickRole(role: Role)
    | AppendLink
    | DeleteLink(index: int)
    | RenameLink(index: int, name: string)
    | ChangeLinkUrl(index: int, url: string)

  function WithSocial(s: Socials, p: Platform, v: string): Socials
  {
    match p
    case Telegram => s.(telegram := Some(v))
    case Discord => s.(discord := Some(v))
    case Twitter => s.(twitter := Some(v))
    case LinkedIn => s.(linkedin := Some(v))
  }

  function Apply(p: Profile, e: Edit): Profile
  {
    match e
    case SetName(v) => p.(name := v)
    case SetBio(v) => p.(bio := v)
    case SetSocial(pl, v) => p.(socials := WithSocial(p.socials, pl, v))
    case ClickRole(r) => p.(roles := Some(ToggleRole(p.roles, r)))
    case AppendLink => p.(links := AddLink(p.links))
    case DeleteLink(i) => p.(links := RemoveAt(p.links, i))
    case RenameLink(i, v) => p.(links := SetLinkName(p.links, i, v))
    case ChangeLinkUrl(i, v) => p.(links := SetLinkUrl(p.links, i, v))
  }

  function ApplyAll(p: Profile, es: seq<Edit>): Profile
    decreases es
  {
    if es == [] then p else ApplyAll(Apply(p, es[0]), es[1..])
  }

  /** The page offers the delete button only for links after the two
      default slots. */
  predicate Offered(e: Edit)
  {
    e.DeleteLink? ==> e.index >= |DefaultLinks|
  }

  /** The parts of a profile that edits change independently. */
  datatype Field = NameField | BioField | SocialField(platform: Platform) | RolesField | LinksField

  function FieldOf(e: Edit): Field
  {
    match e
    case SetName(_) => NameField
    case SetBio(_) => BioField
    case SetSocial(pl, _) => SocialField(pl)
    case ClickRole(_) => RolesField
    case AppendLink => LinksField
    case DeleteLink(_) => LinksField
    case RenameLink(_, _) => LinksField
    case ChangeLinkUrl(_, _) => LinksField
  }

  /** `p` and `q` agree on every field other than `f`. */
  predicate SameExcept(p: Profile, q: Profile, f: Field)
  {
    && (f != NameField ==> q.name == p.name)
    && (f != BioField ==> q.bio == p.bio)
    && (f != RolesField ==> q.roles == p.roles)
    && (f != LinksField ==> q.links == p.links)
    && q.profileImage == p.profileImage
    && (forall pl :: f != SocialField(pl) ==> Value(q.socials, pl) == Value(p.socials, pl))
  }

  // ---------------------------------------------------------------------
  // Properties of the roles

  /** Filtering a concatenation filters each part: the kept roles keep their
      relative order. */
  lemma {:induction false} WithoutDistributes(a: seq<Role>, b: seq<Role>, role: Role)
    ensures Without(a + b, role) == Without(a, role) + Without(b, role)
  {
    if a != [] {
      assert (a + b)[0] == a[0];
      assert (a + b)[1..] == a[1..] + b;
      WithoutDistributes(a[1..], b, role);
      if a[0] != role {
        assert [a[0]] + (Without(a[1..], role) + Without(b, role))
            == ([a[0]] + Without(a[1..], role)) + Without(b, role);
      }
    } else {
      assert a + b == b;
    }
  }

  /** Filtering out a role that does not occur changes nothing. */
  lemma {:induction false} WithoutAbsent(rs: seq<Role>, role: Role)
    requires role !in rs
    ensures Without(rs, role) == rs
  {
    if rs != [] {
      WithoutAbsent(rs[1..], role);
    }
  }

  /** Filtering keeps a duplicate-free list duplicate-free. */
  lemma {:induction false} WithoutKeepsNoDuplicates(rs: seq<Role>, role: Role)
    requires NoDuplicates(rs)
    ensures NoDuplicates(Without(rs, role))
  {
    if rs != [] {
      var tail := rs[1..];
      assert NoDuplicates(tail) by {
        forall i, j | 0 <= i < j < |tail| ensures tail[i] != tail[j] {
          assert tail[i] == rs[i + 1] && tail[j] == rs[j + 1];
        }
      }
      WithoutKeepsNoDuplicates(tail, role);
      if rs[0] != role {
        var w := Without(tail, role);
        assert rs[0] !in tail by {
          forall k | 0 <= k < |tail| ensures tail[k] != rs[0] {
            assert tail[k] == rs[k + 1];
          }
        }
        var r := [rs[0]] + w;
        forall i, j | 0 <= i < j < |r| ensures r[i] != r[j] {
          if i == 0 {
            assert r[j] == w[j - 1];
            assert r[j] in w;
          } else {
            assert r[i] == w[i - 1] && r[j] == w[j - 1];
          }
        }
      }
    }
  }

  /** Toggling flips the membership of the clicked role and leaves every
      other role's membership as it was. */
  lemma ToggleFlipsMembership(roles: Option<seq<Role>>, role: Role)
    ensures role in ToggleRole(roles, role) <==> role !in RolesOrEmpty(roles)
    ensures forall x :: x != role ==> (x in ToggleRole(roles, role) <==> x in RolesOrEmpty(roles))
  {
  }

  /** A selected role is removed everywhere and the rest keep their order;
      an unselected one is appended after all the others. */
  lemma ToggleShape(roles: Option<seq<Role>>, role: Role)
    ensures role in RolesOrEmpty(roles) ==> role !in ToggleRole(roles, role)
    ensures role !in RolesOrEmpty(roles) ==> ToggleRole(roles, role) == RolesOrEmpty(roles) + [role]
    ensures roles.None? ==> ToggleRole(roles, role) == [role]
  {
  }

  /** Selecting an unselected role and clicking it again gives back the
      original list, order included. */
  lemma ToggleTwiceRestores(roles: Option<seq<Role>>, role: Role)
    requires role !in RolesOrEmpty(roles)
    ensures ToggleRole(Some(ToggleRole(roles, role)), role) == RolesOrEmpty(roles)
  {
    var rs := RolesOrEmpty(roles);
    WithoutDistributes(rs, [role], role);
    WithoutAbsent(rs, role);
    assert Without([role], role) == [];
  }

  /** Clicking a role twice, whether or not it was selected, restores which
      roles are selected. */
  lemma ToggleTwiceRestoresMembership(roles: Option<seq<Role>>, role: Role)
    ensures forall x :: x in ToggleRole(Some(ToggleRole(roles, role)), role) <==> x in RolesOrEmpty(roles)
  {
    ToggleFlipsMembership(roles, role);
    ToggleFlipsMembership(Some(ToggleRole(roles, role)), role);
  }

  /** Toggling never introduces a duplicate into a duplicate-free list. */
  lemma ToggleKeepsNoDuplicates(roles: Option<seq<Role>>, role: Role)
    requires NoDuplicates(RolesOrEmpty(roles))
    ensures NoDuplicates(ToggleRole(roles, role))
  {
    var rs := RolesOrEmpty(roles);
    if role in rs {
      WithoutKeepsNoDuplicates(rs, role);
    } else {
      var r := rs + [role];
      forall i, j | 0 <= i < j < |r| ensures r[i] != r[j] {
        if j == |rs| {
          assert r[i] == rs[i];
        } else {
          assert r[i] == rs[i] && r[j] == rs[j];
        }
      }
    }
  }

  // ---------------------------------------------------------------------
  // Properties of the link list

  /** Removing an existing index drops exactly that entry and keeps the
      others in order; any other index leaves the list unchanged. */
  lemma {:induction false} RemoveAtSpec(links: seq<Link>, index: int)
    ensures 0 <= index < |links| ==> RemoveAt(links, index) == links[..index] + links[index + 1..]
    ensures !(0 <= index < |links|) ==> RemoveAt(links, index) == links
  {
    if links != [] {
      RemoveAtSpec(links[1..], index - 1);
      if 0 < index < |links| {
        assert links[1..][..index - 1] == links[1..index];
        assert links[1..][index..] == links[index + 1..];
        assert [links[0]] + links[1..index] == links[..index];
      }
    }
  }

  /** Removal through the page's delete button (index at least 2) never
      touches the two default slots and keeps at least two links. */
  lemma RemoveAfterDefaultsKeepsDefaults(links: seq<Link>, index: int)
    requires |links| >= 2 && index >= 2
    ensures |RemoveAt(links, index)| >= 2
    ensures RemoveAt(links, index)[..2] == links[..2]
    ensures index < |links| ==> |RemoveAt(links, index)| == |links| - 1
  {
    RemoveAtSpec(links, index);
  }

  /** Adding a link appends exactly one empty entry. */
  lemma AddLinkAppendsEmpty(links: seq<Link>)
    ensures |AddLink(links)| == |links| + 1
    ensures AddLink(links)[..|links|] == links
    ensures AddLink(links)[|links|] == Link("", "")
  {
  }

  /** Editing one field of one link changes that field of that entry only. */
  lemma LinkEditTouchesOnlyItsEntry(links: seq<Link>, index: int, v: string)
    requires 0 <= index < |links|
    ensures |SetLinkName(links, index, v)| == |links| && |SetLinkUrl(links, index, v)| == |links|
    ensures SetLinkName(links, index, v)[index] == Link(v, links[index].url)
    ensures SetLinkUrl(links, index, v)[index] == Link(links[index].name, v)
    ensures forall k :: 0 <= k < |links| && k != index ==>
      SetLinkName(links, index, v)[k] == links[k] && SetLinkUrl(links, index, v)[k] == links[k]
  {
  }

  // ---------------------------------------------------------------------
  // Properties of edits

  /** Every edit changes only the field it is about. */
  lemma EditTouchesOnlyItsField(p: Profile, e: Edit)
    ensures SameExcept(p, Apply(p, e), FieldOf(e))
  {
  }

  /** Every edit other than adding or deleting a link keeps the number of
      links. */
  lemma EditKeepsLinkCount(p: Profile, e: Edit)
    requires e.RenameLink? || e.ChangeLinkUrl? || FieldOf(e) != LinksField
    ensures |Apply(p, e).links| == |p.links|
  {
  }

  /** Any sequence of edits the page offers keeps at least two links. */
  lemma {:induction false} OfferedEditsKeepTwoLinks(p: Profile, es: seq<Edit>)
    requires |p.links| >= 2
    requires forall k :: 0 <= k < |es| ==> Offered(es[k])
    ensures |ApplyAll(p, es).links| >= 2
    decreases es
  {
    if es != [] {
      var q := Apply(p, es[0]);
      if es[0].DeleteLink? {
        RemoveAfterDefaultsKeepsDefaults(p.links, es[0].index);
      }
      OfferedEditsKeepTwoLinks(q, es[1..]);
    }
  }

  /** Offered edits keep a duplicate-free role list duplicate-free. */
  lemma {:induction false} EditsKeepRolesDuplicateFree(p: Profile, es: seq<Edit>)
    requires NoDuplicates(RolesOrEmpty(p.roles))
    ensures NoDuplicates(RolesOrEmpty(ApplyAll(p, es).roles))
    decreases es
  {
    if es != [] {
      var q := Apply(p, es[0]);
      if es[0].ClickRole? {
        ToggleKeepsNoDuplicates(p.roles, es[0].role);
      }
      EditsKeepRolesDuplicateFree(q, es[1..]);
    }
  }

  /** The seed satisfies the profile invariants, so every session that starts
      from it keeps two links and duplicate-free roles. */
  lemma SeedInvariants(u: User, es: seq<Edit>)
    requires forall k :: 0 <= k < |es| ==> Offered(es[k])
    ensures |ApplyAll(Seed(u), es).links| >= 2
    ensures NoDuplicates(RolesOrEmpty(ApplyAll(Seed(u), es).roles))
  {
    OfferedEditsKeepTwoLinks(Seed(u), es);
    EditsKeepRolesDuplicateFree(Seed(u), es);
  }
}
