/**
 * The phone preview beside the link editor: the links whose platform has a
 * preview icon are laid out, in order, into five fixed boxes, each coloured
 * by its link's platform.
 */
module MainLayout {
  import opened Wrappers

  /** One element of the `links` property: a platform name and the URL to open. */
  datatype Entry = Entry(platform: string, url: string)

  /** The platforms with a preview icon (the keys of `platformImages`). */
  const PlatformImages: set<string> := {"GitHub", "LinkedIn", "YouTube"}

  /** The filter's condition: a platform is chosen and it has an icon. */
  predicate HasPreviewIcon(e: Entry) {
    e.platform != "" && e.platform in PlatformImages
  }

  /** `validLinks`: the entries that pass the filter, in their original order. */
  function ValidLinks(links: seq<Entry>): (valid: seq<Entry>)
    ensures |valid| <= |links|
    ensures forall e :: e in valid ==> e in links && HasPreviewIcon(e)
  {
    if links == [] then []
    else (if HasPreviewIcon(links[0]) then [links[0]] else []) + ValidLinks(links[1..])
  }

  /** `a` can be obtained from `b` by deleting elements. */
  predicate IsSubsequence(a: seq<Entry>, b: seq<Entry>)
    decreases |b|
  {
    a == [] ||
    (b != [] && if a[0] == b[0] then IsSubsequence(a[1..], b[1..]) else IsSubsequence(a, b[1..]))
  }

  /** Exactly the entries with an icon survive the filter. */
  lemma {:induction false} ValidLinksMembership(links: seq<Entry>, e: Entry)
    ensures e in ValidLinks(links) <==> e in links && HasPreviewIcon(e)
  {
    if links != [] {
      ValidLinksMembership(links[1..], e);
      assert links == [links[0]] + links[1..];
    }
  }

  /** The filter keeps the surviving entries in their original order. */
  lemma {:induction false} ValidLinksSubsequence(links: seq<Entry>)
    ensures IsSubsequence(ValidLinks(links), links)
  {
    if links != [] {
      ValidLinksSubsequence(links[1..]);
      var rest := ValidLinks(links[1..]);
      if HasPreviewIcon(links[0]) {
        assert ValidLinks(links) == [links[0]] + rest;
      } else {
        assert ValidLinks(links) == rest;
        if rest != [] {
          assert rest[0] in rest;
          assert rest[0] != links[0];
        }
      }
    }
  }

  /** Filtering a concatenation filters each part. */
  lemma {:induction false} ValidLinksAppend(a: seq<Entry>, b: seq<Entry>)
    ensures ValidLinks(a + b) == ValidLinks(a) + ValidLinks(b)
  {
    if a != [] {
      ValidLinksAppend(a[1..], b);
      assert (a + b)[1..] == a[1..] + b;
    } else {
      assert a + b == b;
    }
  }

  /** A list whose every entry has an icon passes the filter unchanged. */
  lemma {:induction false} ValidLinksKeepsAll(links: seq<Entry>)
    requires forall i :: 0 <= i < |links| ==> HasPreviewIcon(links[i])
    ensures ValidLinks(links) == links
  {
    if links != [] {
      ValidLinksKeepsAll(links[1..]);
      assert links == [links[0]] + links[1..];
    }
  }

  /** Filtering twice is filtering once. */
  lemma ValidLinksIdempotent(links: seq<Entry>)
    ensures ValidLinks(ValidLinks(links)) == ValidLinks(links)
  {
    var valid := ValidLinks(links);
    forall i | 0 <= i < |valid| ensures HasPreviewIcon(valid[i]) {
      assert valid[i] in valid;
    }
    ValidLinksKeepsAll(valid);
  }

  /** The number of boxes, `new Array(5)`. */
  const BoxCount: nat := 5

  /** The background of a box showing each platform, and of an empty box. */
  const PlatformColours: map<string, string> :=
    map["GitHub" := "bg-black", "LinkedIn" := "bg-[#2D68FF]", "YouTube" := "bg-red"]
  const EmptyColour: string := "bg-dark"

  /** The link inside a box: its target and its text (the platform name). */
  datatype Anchor = Anchor(href: string, text: string)

  /** A box of the preview: its background class and the link it shows, if any. */
  datatype Box = Box(colour: string, anchor: Option<Anchor>)

  /**
   * The class chosen by the nested conditional for box `index`: for filtered
   * entries, the platform's colour in the table, and the empty colour past
   * the last entry.
   */
  function BoxColour(valid: seq<Entry>, index: nat): (colour: string)
    requires forall i :: 0 <= i < |valid| ==> HasPreviewIcon(valid[i])
    ensures index < |valid| ==>
      valid[index].platform in PlatformColours && colour == PlatformColours[valid[index].platform]
    ensures index >= |valid| ==> colour == EmptyColour
    ensures colour == EmptyColour <==> index >= |valid|
  {
    assert index < |valid| ==> HasPreviewIcon(valid[index]);
    if index < |valid| && valid[index].platform == "GitHub" then "bg-black"
    else if index < |valid| && valid[index].platform == "LinkedIn" then "bg-[#2D68FF]"
    else if index < |valid| && valid[index].platform == "YouTube" then "bg-red"
    else "bg-dark"
  }

  function BoxAt(valid: seq<Entry>, index: nat): Box
    requires forall i :: 0 <= i < |valid| ==> HasPreviewIcon(valid[i])
  {
    Box(BoxColour(valid, index),
        if index < |valid| then Some(Anchor(valid[index].url, valid[index].platform)) else None)
  }

  /**
   * `boxes.map(...)`: five boxes whatever the number of links; box `i` shows
   * the `i`-th surviving entry when there is one, coloured by its platform,
   * and is an empty dark box otherwise.
   */
  function Boxes(links: seq<Entry>): (boxes: seq<Box>)
    ensures |boxes| == BoxCount
    ensures forall i :: 0 <= i < BoxCount ==>
      (boxes[i].anchor.Some? <==> i < |ValidLinks(links)|)
    ensures forall i :: 0 <= i < BoxCount && i < |ValidLinks(links)| ==>
      boxes[i].anchor == Some(Anchor(ValidLinks(links)[i].url, ValidLinks(links)[i].platform))
    ensures forall i :: 0 <= i < BoxCount && i < |ValidLinks(links)| ==>
      ValidLinks(links)[i].platform in PlatformColours &&
      boxes[i].colour == PlatformColours[ValidLinks(links)[i].platform]
    ensures forall i :: 0 <= i < BoxCount ==>
      (boxes[i].colour == EmptyColour <==> boxes[i].anchor.None?)
  {
    var valid := ValidLinks(links);
    assert forall i :: 0 <= i < |valid| ==> valid[i] in valid && HasPreviewIcon(valid[i]);
    seq(BoxCount, i requires 0 <= i < BoxCount => BoxAt(valid, i))
  }
}
