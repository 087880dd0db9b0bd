/**
 * The link editor of the "Customize your links" page: a list of link
 * records, the URL drafts the user types (kept apart from the records and
 * keyed by position), the open/closed state of each platform dropdown and
 * the empty-state placeholder, with the operations the page performs on
 * them. Calls to the document store are abstracted: a delete is given its
 * outcome, a save returns the create/update operations it would issue, and
 * a fetch is given the records the store returned.
 */
module CustomizeLinks {
  import opened Wrappers
  import opened Strings
  import opened UrlValidator
  import MainLayout

  /** The signed-in user's identifier. */
  type UserId = string
  /** A stored document's identifier. */
  type DocId = string

  /**
   * A link record: the chosen platform (`""` until one is chosen), the URL
   * last stored, the document identifier once stored, and the creation time
   * in milliseconds.
   */
  datatype Link = Link(platform: string, url: string, id: Option<DocId>, createdAt: Option<int>)

  /** `link.id` is truthy: present and not empty. */
  predicate HasId(link: Link) {
    link.id.Some? && link.id.value != ""
  }

  /** The platforms offered in each row's dropdown. */
  const Platforms: seq<string> := ["GitHub", "LinkedIn", "YouTube"]

  /** The example URL shown for each offered platform while its draft is empty. */
  const PlatformDefaultUrls: map<string, string> :=
    map["GitHub" := "https://github.com/username",
        "LinkedIn" := "https://linkedin.com/in/username",
        "YouTube" := "https://youtube.com/channel/username"]

  /** `urls[index] || ''`: the draft at a position, empty when there is none. */
  function Draft(urls: map<int, string>, index: int): string {
    if index in urls then urls[index] else ""
  }

  /** `links.some((link, index) => !urls[index])` */
  predicate SomeDraftEmpty(links: seq<Link>, urls: map<int, string>) {
    exists i :: 0 <= i < |links| && Draft(urls, i) == ""
  }

  /** `allUrlsValid`: every row's draft is accepted for the row's platform. */
  predicate AllUrlsValid(links: seq<Link>, urls: map<int, string>) {
    forall i :: 0 <= i < |links| ==> IsValidUrl(links[i].platform, Draft(urls, i))
  }

  /** `links.filter((_, i) => i !== index)`: the list without one position, later elements moved down by one. */
  function Without<T>(s: seq<T>, index: nat): (rest: seq<T>)
    requires index < |s|
    ensures |rest| == |s| - 1
    ensures forall j :: 0 <= j < |rest| ==> rest[j] == s[if j < index then j else j + 1]
  {
    s[..index] + s[index + 1..]
  }

  /** `delete newUrls[index]`: the draft at `index` is dropped and no other key moves. */
  function DropDraft(urls: map<int, string>, index: int): map<int, string> {
    urls - {index}
  }

  /** The drafts rebuilt from fetched records: position `i` holds record `i`'s URL. */
  function FetchedDrafts(fetched: seq<Link>): (urls: map<int, string>)
    ensures forall i :: i in urls <==> 0 <= i < |fetched|
    ensures forall i :: 0 <= i < |fetched| ==> Draft(urls, i) == fetched[i].url
  {
    map i | 0 <= i < |fetched| :: fetched[i].url
  }

  /** Why a save was refused, in the order the checks are made. */
  datatype SaveError =
    | LinksEmpty      // "Links can't be empty"
    | NotSignedIn     // "You must be logged in to save links."
    | LinksInvalid    // "One or more links are invalid. ..."

  /** A write the save issues to the document store. */
  datatype Op =
    | UpdateDoc(docId: DocId, data: Link)
    | AddDoc(data: Link, userId: UserId)

  /** The write for one row: its record with the draft as URL, as an update when stored, else as a create. */
  function OpFor(link: Link, draft: string, user: UserId): Op {
    var data := link.(url := draft);
    if HasId(link) then UpdateDoc(link.id.value, data) else AddDoc(data, user)
  }

  /**
   * `saveLinks` up to the writes: a save is refused when a draft is empty,
   * when nobody is signed in, or when a draft does not suit its platform,
   * checked in that order; otherwise it issues one write per row, in order,
   * carrying that row's draft.
   */
  function PlanSave(links: seq<Link>, urls: map<int, string>, user: Option<UserId>): (r: Result<seq<Op>, SaveError>)
    ensures r == Failure(LinksEmpty) <==> SomeDraftEmpty(links, urls)
    ensures r == Failure(NotSignedIn) <==> !SomeDraftEmpty(links, urls) && user.None?
    ensures r == Failure(LinksInvalid) <==>
      !SomeDraftEmpty(links, urls) && user.Some? && !AllUrlsValid(links, urls)
    ensures r.Success? ==> user.Some? && |r.value| == |links|
    ensures r.Success? ==> forall i :: 0 <= i < |links| ==>
      i in urls && urls[i] != "" &&
      r.value[i].data == links[i].(url := urls[i]) &&
      (r.value[i].UpdateDoc? <==> HasId(links[i])) &&
      (r.value[i].UpdateDoc? ==> r.value[i].docId == links[i].id.value) &&
      (r.value[i].AddDoc? ==> r.value[i].userId == user.value)
    ensures r.Success? ==> forall i :: 0 <= i < |links| ==>
      IsValidUrl(r.value[i].data.platform, r.value[i].data.url)
  {
    if SomeDraftEmpty(links, urls) then Failure(LinksEmpty)
    else if user.None? then Failure(NotSignedIn)
    else if !AllUrlsValid(links, urls) then Failure(LinksInvalid)
    else
      var ops := seq(|links|, i requires 0 <= i < |links| => OpFor(links[i], Draft(urls, i), user.value));
      assert forall i :: 0 <= i < |links| ==> Draft(urls, i) != "" && i in urls;
      assert forall i :: 0 <= i < |links| ==>
        ops[i].data.platform == links[i].platform && ops[i].data.url == Draft(urls, i);
      assert forall i :: 0 <= i < |links| ==> IsValidUrl(ops[i].data.platform, ops[i].data.url);
      assert forall i :: 0 <= i < |links| ==> ops[i].data == links[i].(url := urls[i]);
      assert forall i :: 0 <= i < |links| ==> (ops[i].UpdateDoc? <==> HasId(links[i]));
      assert forall i :: 0 <= i < |links| ==> (ops[i].UpdateDoc? ==> ops[i].docId == links[i].id.value);
      assert forall i :: 0 <= i < |links| ==> (ops[i].AddDoc? ==> ops[i].userId == user.value);
      Success(ops)
  }

  /** Every URL a save writes is an `https://` URL, whatever the rows held. */
  lemma SavedUrlsAreHttps(links: seq<Link>, urls: map<int, string>, user: Option<UserId>)
    requires PlanSave(links, urls, user).Success?
    ensures forall op :: op in PlanSave(links, urls, user).value ==>
      StartsWith(op.data.url, "https://") && op.data.platform in PatternPlatforms
  {
    var ops := PlanSave(links, urls, user).value;
    forall op | op in ops
      ensures StartsWith(op.data.url, "https://") && op.data.platform in PatternPlatforms
    {
      var i :| 0 <= i < |ops| && ops[i] == op;
      AcceptedUrlShape(op.data.platform, op.data.url);
    }
  }

  /**
   * Saving straight after a fetch of stored records whose URLs suit their
   * platforms rewrites each record with itself: one update per record, in
   * order, and no create.
   */
  lemma SaveAfterFetchRewritesRecords(fetched: seq<Link>, user: UserId)
    requires forall i :: 0 <= i < |fetched| ==> HasId(fetched[i])
    requires forall i :: 0 <= i < |fetched| ==> IsValidUrl(fetched[i].platform, fetched[i].url)
    ensures var r := PlanSave(fetched, FetchedDrafts(fetched), Some(user));
      r.Success? && |r.value| == |fetched| &&
      forall i :: 0 <= i < |fetched| ==> r.value[i] == UpdateDoc(fetched[i].id.value, fetched[i])
  {
    var urls := FetchedDrafts(fetched);
    forall i | 0 <= i < |fetched| ensures Draft(urls, i) != "" {
      EmptyUrlRejected(fetched[i].platform);
    }
    var r := PlanSave(fetched, urls, Some(user));
    assert r.Success?;
    forall i | 0 <= i < |fetched| ensures r.value[i] == UpdateDoc(fetched[i].id.value, fetched[i]) {
      assert fetched[i].(url := fetched[i].url) == fetched[i];
    }
  }

  /** Every offered platform's example URL is accepted for that platform. */
  lemma DefaultUrlsAccepted(platform: string)
    requires platform in Platforms
    ensures platform in PlatformDefaultUrls && IsValidUrl(platform, PlatformDefaultUrls[platform])
  {
    if platform == "GitHub" {
      var prefix := "https://github.com/";
      assert prefix + "username" == PlatformDefaultUrls[platform];
      StartsWithAppend(prefix, "username");
      assert (prefix + "username")[|prefix|] == 'u';
      GitHubUrls(prefix + "username");
    } else if platform == "LinkedIn" {
      var prefix := "https://linkedin.com/in/";
      assert prefix + "username" == PlatformDefaultUrls[platform];
      StartsWithAppend(prefix, "username");
      assert (prefix + "username")[|prefix|] == 'u';
      LinkedInUrls(prefix + "username");
    } else {
      var prefix := "https://youtube.com/channel/";
      assert prefix + "username" == PlatformDefaultUrls[platform];
      StartsWithAppend(prefix, "username");
      assert (prefix + "username")[|prefix|] == 'u';
      YouTubeUrls(prefix + "username");
    }
  }

  /**
   * The entries handed to the phone preview: each row's platform, with its
   * draft as URL, or the platform's example URL while the draft is empty.
   */
  function PreviewEntries(links: seq<Link>, urls: map<int, string>): (entries: seq<MainLayout.Entry>)
    ensures |entries| == |links|
    ensures forall i :: 0 <= i < |links| ==> entries[i].platform == links[i].platform
    ensures forall i :: 0 <= i < |links| && Draft(urls, i) != "" ==> entries[i].url == Draft(urls, i)
    ensures forall i :: 0 <= i < |links| && Draft(urls, i) == "" && links[i].platform in Platforms ==>
      links[i].platform in PlatformDefaultUrls && entries[i].url == PlatformDefaultUrls[links[i].platform] &&
      IsValidUrl(entries[i].platform, entries[i].url)
    ensures forall i :: 0 <= i < |links| && Draft(urls, i) == "" && links[i].platform !in Platforms ==>
      entries[i].url == ""
  {
    forall p | p in Platforms ensures p in PlatformDefaultUrls && IsValidUrl(p, PlatformDefaultUrls[p]) {
      DefaultUrlsAccepted(p);
    }
    seq(|links|, i requires 0 <= i < |links| =>
      MainLayout.Entry(links[i].platform,
        if Draft(urls, i) != "" then Draft(urls, i)
        else if links[i].platform in PlatformDefaultUrls then PlatformDefaultUrls[links[i].platform]
        else ""))
  }

  /** A freshly added row, with no platform yet, leaves the phone preview as it was. */
  lemma AddedRowNotPreviewed(links: seq<Link>, urls: map<int, string>, now: int)
    ensures MainLayout.ValidLinks(PreviewEntries(links + [Link("", "", None, Some(now))], urls)) ==
            MainLayout.ValidLinks(PreviewEntries(links, urls))
  {
    var added := links + [Link("", "", None, Some(now))];
    var tail := PreviewEntries(added, urls)[|links|];
    assert PreviewEntries(added, urls) == PreviewEntries(links, urls) + [tail];
    MainLayout.ValidLinksAppend(PreviewEntries(links, urls), [tail]);
    assert MainLayout.ValidLinks([tail]) == [];
  }

  /** When every row has an offered platform, the preview shows the rows in order, the first five of them in boxes. */
  lemma ChosenPlatformsAllPreviewed(links: seq<Link>, urls: map<int, string>)
    requires forall i :: 0 <= i < |links| ==> links[i].platform in Platforms
    ensures MainLayout.ValidLinks(PreviewEntries(links, urls)) == PreviewEntries(links, urls)
  {
    MainLayout.ValidLinksKeepsAll(PreviewEntries(links, urls));
  }

  /**
   * The drafts after a removal with the later keys moved down by one, so
   * that each remaining row keeps its own draft.
   */
  function ShiftDrafts(urls: map<int, string>, index: int): map<int, string>
  {
    var keys := set k | k in urls && k != index :: if k < index then k else k - 1;
    map j | j in keys && (if j < index then j in urls else j + 1 in urls) ::
      if j < index then urls[j] else urls[j + 1]
  }

  /** After `ShiftDrafts`, position `j` holds the draft of the row that moved there. */
  lemma ShiftDraftsAligned(urls: map<int, string>, index: int, j: int)
    ensures Draft(ShiftDrafts(urls, index), j) == Draft(urls, if j < index then j else j + 1)
  {
    var k := if j < index then j else j + 1;
    if k in urls {
      assert k != index && (if k < index then k else k - 1) == j;
    }
  }

  /**
   * With drafts moved down on removal, a list that could be saved can still
   * be saved after any stored row is removed, and the save issues the same
   * writes minus the removed row's.
   */
  lemma RemovalWithShiftKeepsSave(links: seq<Link>, urls: map<int, string>, index: nat, user: UserId)
    requires index < |links|
    requires PlanSave(links, urls, Some(user)).Success?
    ensures PlanSave(Without(links, index), ShiftDrafts(urls, index), Some(user)).Success?
    ensures PlanSave(Without(links, index), ShiftDrafts(urls, index), Some(user)).value ==
      Without(PlanSave(links, urls, Some(user)).value, index)
  {
    var rest, shifted := Without(links, index), ShiftDrafts(urls, index);
    forall j | 0 <= j < |rest|
      ensures Draft(shifted, j) == Draft(urls, if j < index then j else j + 1)
    {
      ShiftDraftsAligned(urls, index, j);
    }
    var before := PlanSave(links, urls, Some(user)).value;
    var after := PlanSave(rest, shifted, Some(user));
    assert !SomeDraftEmpty(rest, shifted);
    assert AllUrlsValid(rest, shifted);
    assert after.Success?;
    var expected := Without(before, index);
    forall j | 0 <= j < |rest| ensures after.value[j] == expected[j] {
      var k := if j < index then j else j + 1;
      assert after.value[j] == OpFor(rest[j], Draft(shifted, j), user);
      assert before[k] == OpFor(links[k], Draft(urls, k), user);
    }
  }

  /**
   * The removal as written strands drafts: with two stored rows and their
   * drafts at keys 0 and 1, removing row 0 leaves the remaining row at
   * position 0 with no draft, so a save that was possible is now refused as
   * empty, although the remaining row's URL is valid.
   */
  lemma RemovalStrandsLaterDrafts()
    ensures var a := Link("GitHub", "https://github.com/a", Some("d1"), None);
            var b := Link("GitHub", "https://github.com/b", Some("d2"), None);
            var urls := map[0 := a.url, 1 := b.url];
            PlanSave([a, b], urls, Some("u")).Success? &&
            PlanSave(Without([a, b], 0), DropDraft(urls, 0), Some("u")) == Failure(LinksEmpty)
  {
    var a := Link("GitHub", "https://github.com/a", Some("d1"), None);
    var b := Link("GitHub", "https://github.com/b", Some("d2"), None);
    var urls := map[0 := a.url, 1 := b.url];
    GitHubUrls(a.url);
    GitHubUrls(b.url);
    assert "https://github.com/" + "a" == a.url && "https://github.com/" + "b" == b.url;
    StartsWithAppend("https://github.com/", "a");
    StartsWithAppend("https://github.com/", "b");
    assert a.url[19] == 'a' && b.url[19] == 'b';
    assert AllUrlsValid([a, b], urls);
    assert !SomeDraftEmpty([a, b], urls);
    assert Without([a, b], 0) == [b];
    assert Draft(DropDraft(urls, 0), 0) == "";
    assert SomeDraftEmpty([b], DropDraft(urls, 0));
  }

  /** Result of `removeLink`: what was skipped, or which delete was issued and how it ended. */
  datatype RemoveOutcome =
    | NoUser                     // nobody signed in: nothing happens
    | NotStored                  // the row has no identifier: nothing happens
    | Deleted(docId: DocId)      // the delete succeeded and the row is gone
    | DeleteFailed(docId: DocId) // the delete failed and nothing changed

  /** The editor's state: the component's `useState` variables. */
  class LinkEditor {
    var links: seq<Link>
    var urls: map<int, string>
    var dropdownOpen: map<int, bool>
    var showPlaceholder: bool
    var validationPerformed: bool

    constructor ()
      ensures links == [] && urls == map[] && dropdownOpen == map[]
      ensures showPlaceholder && !validationPerformed
      ensures Valid()
    {
      links := [];
      urls := map[];
      dropdownOpen := map[];
      showPlaceholder := true;
      validationPerformed := false;
    }

    /** The empty-state placeholder is only ever shown over an empty list. */
    predicate Valid()
      reads this
    {
      showPlaceholder ==> links == []
    }

    /** Every row's draft is the URL stored for it, as right after a fetch. */
    predicate DraftsMatchStored()
      reads this
    {
      forall i :: 0 <= i < |links| ==> Draft(urls, i) == links[i].url
    }

    /** `addLink`: a new row with no platform, no URL and no identifier, stamped `now`. */
    method AddLink(now: int)
      requires Valid()
      modifies this
      ensures Valid()
      ensures links == old(links) + [Link("", "", None, Some(now))]
      ensures urls == old(urls) && dropdownOpen == old(dropdownOpen)
      ensures !showPlaceholder && validationPerformed == old(validationPerformed)
    {
      links := links + [Link("", "", None, Some(now))];
      showPlaceholder := false;
    }

    /**
     * `removeLink`: with a user and a stored row, the delete is issued; only
     * when it succeeds is the row removed, its draft key dropped (later keys
     * stay where they are) and the placeholder shown again if the list had
     * one row.
     */
    method RemoveLink(index: int, user: Option<UserId>, deleteSucceeds: bool) returns (outcome: RemoveOutcome)
      requires user.Some? ==> 0 <= index < |links|
      requires Valid()
      modifies this
      ensures Valid()
      ensures user.None? ==> outcome == NoUser
      ensures user.Some? && !HasId(old(links)[index]) ==> outcome == NotStored
      ensures user.Some? && HasId(old(links)[index]) ==>
        outcome == (if deleteSucceeds then Deleted(old(links)[index].id.value)
                    else DeleteFailed(old(links)[index].id.value))
      ensures outcome.Deleted? ==>
        links == Without(old(links), index) && urls == DropDraft(old(urls), index) &&
        showPlaceholder == (|old(links)| == 1)
      ensures !outcome.Deleted? ==>
        links == old(links) && urls == old(urls) && showPlaceholder == old(showPlaceholder)
      ensures dropdownOpen == old(dropdownOpen) && validationPerformed == old(validationPerformed)
    {
      if user.None? {
        return NoUser;
      }
      var linkToDelete := links[index];
      if !HasId(linkToDelete) {
        return NotStored;
      }
      if !deleteSucceeds {
        return DeleteFailed(linkToDelete.id.value);
      }
      var wasSingle := |links| == 1;
      links := Without(links, index);
      urls := DropDraft(urls, index);
      if wasSingle {
        showPlaceholder := true;
      }
      outcome := Deleted(linkToDelete.id.value);
    }

    /** `handlePlatformChange`: the row takes the platform and loses its draft; nothing else changes. */
    method HandlePlatformChange(index: int, platform: string)
      requires 0 <= index < |links|
      requires Valid()
      modifies this
      ensures Valid()
      ensures links == old(links)[index := old(links)[index].(platform := platform)]
      ensures urls == DropDraft(old(urls), index)
      ensures dropdownOpen == old(dropdownOpen) && showPlaceholder == old(showPlaceholder)
      ensures validationPerformed == old(validationPerformed)
    {
      links := links[index := links[index].(platform := platform)];
      urls := DropDraft(urls, index);
    }

    /** `handleUrlChange`: the draft at `index` becomes `value`; nothing else changes. */
    method HandleUrlChange(index: int, value: string)
      requires Valid()
      modifies this
      ensures Valid()
      ensures urls == old(urls)[index := value]
      ensures links == old(links) && dropdownOpen == old(dropdownOpen)
      ensures showPlaceholder == old(showPlaceholder) && validationPerformed == old(validationPerformed)
    {
      urls := urls[index := value];
    }

    /** `toggleDropdown`: the dropdown at `index` flips, a never-opened one opens. */
    method ToggleDropdown(index: int)
      requires Valid()
      modifies this
      ensures Valid()
      ensures dropdownOpen == old(dropdownOpen)[index := !(index in old(dropdownOpen) && old(dropdownOpen)[index])]
      ensures links == old(links) && urls == old(urls)
      ensures showPlaceholder == old(showPlaceholder) && validationPerformed == old(validationPerformed)
    {
      var wasOpen := index in dropdownOpen && dropdownOpen[index];
      dropdownOpen := dropdownOpen[index := !wasOpen];
    }

    /** `selectPlatform`: the platform change, then the row's dropdown closes. */
    method SelectPlatform(index: int, platform: string)
      requires 0 <= index < |links|
      requires Valid()
      modifies this
      ensures Valid()
      ensures links == old(links)[index := old(links)[index].(platform := platform)]
      ensures urls == DropDraft(old(urls), index)
      ensures dropdownOpen == old(dropdownOpen)[index := false]
      ensures showPlaceholder == old(showPlaceholder) && validationPerformed == old(validationPerformed)
    {
      HandlePlatformChange(index, platform);
      dropdownOpen := dropdownOpen[index := false];
    }

    /** `saveLinks`: marks validation as performed and returns the writes the save issues, or why it refused. */
    method SaveLinks(user: Option<UserId>) returns (r: Result<seq<Op>, SaveError>)
      requires Valid()
      modifies this
      ensures Valid()
      ensures r == PlanSave(old(links), old(urls), user)
      ensures validationPerformed
      ensures links == old(links) && urls == old(urls) && dropdownOpen == old(dropdownOpen)
      ensures showPlaceholder == old(showPlaceholder)
    {
      validationPerformed := true;
      r := PlanSave(links, urls, user);
    }

    /**
     * `fetchLinks`: with a user and an answer from the store, the list is
     * replaced by the fetched records, the drafts are rebuilt from their
     * URLs and the placeholder shows exactly when nothing came back.
     * Without a user, or when the fetch fails, nothing changes.
     */
    method FetchLinks(user: Option<UserId>, response: Option<seq<Link>>)
      requires Valid()
      modifies this
      ensures Valid()
      ensures user.Some? && response.Some? ==>
        links == response.value && urls == FetchedDrafts(response.value) &&
        showPlaceholder == (|response.value| == 0) && DraftsMatchStored()
      ensures user.None? || response.None? ==>
        links == old(links) && urls == old(urls) && showPlaceholder == old(showPlaceholder)
      ensures dropdownOpen == old(dropdownOpen) && validationPerformed == old(validationPerformed)
    {
      if user.None? || response.None? {
        return;
      }
      var fetched := response.value;
      var urlMap: map<int, string> := map[];
      var i := 0;
      while i < |fetched|
        invariant 0 <= i <= |fetched|
        invariant forall k :: k in urlMap <==> 0 <= k < i
        invariant forall k :: 0 <= k < i ==> urlMap[k] == fetched[k].url
      {
        urlMap := urlMap[i := fetched[i].url];
        i := i + 1;
      }
      links := fetched;
      urls := urlMap;
      showPlaceholder := |fetched| == 0;
    }
  }
}
