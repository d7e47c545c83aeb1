/**
 * The breadcrumb trail shown above every dashboard page: the URL path is
 * split on `/`, empty and `dashboard` segments are dropped, and one item per
 * remaining segment follows the fixed "Dashboard" item. Every item but the
 * last links to the page made of the segments up to it.
 */
module Breadcrumb {
  import opened Common
  import opened Text

  datatype Item = Item(name: string, href: Option<string>)

  /** The display names of the known routes. */
  const RouteNames: map<string, string> := map[
    "dashboard" := "Dashboard",
    "investments" := "Investments",
    "transactions" := "Transactions",
    "returns" := "Returns",
    "reports" := "Reports"
  ]

  /** The first item of every trail. */
  const Home: Item := Item("Dashboard", Some("/dashboard"))

  /** `s.split(sep)`: the pieces between separators, empty pieces included. */
  function Split(s: string, sep: char): (parts: seq<string>)
    ensures |parts| >= 1
    ensures forall i :: 0 <= i < |parts| ==> sep !in parts[i]
  {
    if s == [] then [""]
    else if s[0] == sep then [""] + Split(s[1..], sep)
    else
      var rest := Split(s[1..], sep);
      [[s[0]] + rest[0]] + rest[1..]
  }

  /** `xs.filter(keep)`: the elements that satisfy `keep`, in their order. */
  function Filter(xs: seq<string>, keep: string -> bool): (r: seq<string>)
    ensures |r| <= |xs|
    ensures forall i :: 0 <= i < |r| ==> keep(r[i]) && r[i] in xs
    ensures forall i :: 0 <= i < |xs| && keep(xs[i]) ==> xs[i] in r
  {
    if xs == [] then []
    else if keep(xs[0]) then [xs[0]] + Filter(xs[1..], keep)
    else Filter(xs[1..], keep)
  }

  predicate NonEmpty(s: string) { s != "" }

  predicate NotDashboard(s: string) { s != "dashboard" }

  /** `pathname.split('/').filter(Boolean)`. */
  function PathSegments(path: string): seq<string>
  {
    Filter(Split(path, '/'), NonEmpty)
  }

  /** The segments that get an item: no empty piece, no `dashboard`, none holding a `/`. */
  function CleanSegments(path: string): (clean: seq<string>)
    ensures forall i :: 0 <= i < |clean| ==> clean[i] != "" && clean[i] != "dashboard" && '/' !in clean[i]
    ensures forall s :: s in Split(path, '/') && s != "" && s != "dashboard" ==> s in clean
  {
    Filter(PathSegments(path), NotDashboard)
  }

  /** `routeNames[segment] || segment.charAt(0).toUpperCase() + segment.slice(1)`. */
  function SegmentName(segment: string): (name: string)
    ensures segment in RouteNames ==> name == RouteNames[segment]
    ensures segment !in RouteNames ==> |name| == |segment|
    ensures segment !in RouteNames && segment != "" ==> name[0] == ToUpper(segment[0]) && name[1..] == segment[1..]
  {
    if segment in RouteNames then RouteNames[segment]
    else if segment == "" then ""
    else [ToUpper(segment[0])] + segment[1..]
  }

  /** `xs.join('/')`. */
  function Join(xs: seq<string>): string
  {
    if |xs| == 0 then ""
    else if |xs| == 1 then xs[0]
    else Join(xs[..|xs| - 1]) + "/" + xs[|xs| - 1]
  }

  /** The link of the item for clean segment `k`. */
  function Href(clean: seq<string>, k: nat): string
    requires k < |clean|
  {
    "/dashboard/" + Join(clean[..k + 1])
  }

  /** The item for clean segment `k`: the last one is not a link. */
  function ItemAt(clean: seq<string>, k: nat): Item
    requires k < |clean|
  {
    Item(SegmentName(clean[k]), if k == |clean| - 1 then None else Some(Href(clean, k)))
  }

  /** The whole trail for a list of clean segments. */
  function ItemsFor(clean: seq<string>): seq<Item>
  {
    [Home] + seq(|clean|, k requires 0 <= k < |clean| => ItemAt(clean, k))
  }

  /** The `forEach` loop that pushes one item per clean segment after the first item. */
  method BuildItems(clean: seq<string>) returns (items: seq<Item>)
    ensures items == ItemsFor(clean)
  {
    items := [Home];
    var index := 0;
    while index < |clean|
      invariant 0 <= index <= |clean|
      invariant |items| == index + 1 && items[0] == Home
      invariant forall k :: 0 <= k < index ==> items[k + 1] == ItemAt(clean, k)
    {
      var name := SegmentName(clean[index]);
      var href := if index == |clean| - 1 then None else Some("/dashboard/" + Join(clean[..index + 1]));
      items := items + [Item(name, href)];
      index := index + 1;
    }
  }

  /** The component: `None` stands for rendering nothing. */
  method Render(pathname: string) returns (r: Option<seq<Item>>)
    ensures r.None? <==> CleanSegments(pathname) == []
    ensures r.Some? ==> r.value == ItemsFor(CleanSegments(pathname))
  {
    var clean := Filter(Filter(Split(pathname, '/'), NonEmpty), NotDashboard);
    var items := BuildItems(clean);
    if |items| <= 1 {
      r := None;
    } else {
      r := Some(items);
    }
  }

  /** The trail is the first item followed by one item per clean segment, in path order. */
  lemma ItemsShape(clean: seq<string>)
    ensures |ItemsFor(clean)| == |clean| + 1
    ensures ItemsFor(clean)[0] == Home
    ensures forall k :: 0 <= k < |clean| ==> ItemsFor(clean)[k + 1].name == SegmentName(clean[k])
  {
  }

  /** With at least one clean segment, the last item is the only one without a link. */
  lemma OnlyLastUnlinked(clean: seq<string>)
    requires clean != []
    ensures var items := ItemsFor(clean);
      && items[|items| - 1].href.None?
      && forall k :: 0 <= k < |items| - 1 ==> items[k].href.Some?
  {
  }

  /** Each link extends the previous one by one segment, so it is a prefix of the next. */
  lemma HrefExtends(clean: seq<string>, k: nat)
    requires k + 1 < |clean|
    ensures Href(clean, k + 1) == Href(clean, k) + "/" + clean[k + 1]
    ensures Href(clean, k) <= Href(clean, k + 1)
  {
    assert clean[..k + 2][..k + 1] == clean[..k + 1];
  }

  /** Splitting around one separator splits both sides independently. */
  lemma {:induction false} SplitAround(a: string, sep: char, b: string)
    ensures Split(a + [sep] + b, sep) == Split(a, sep) + Split(b, sep)
    decreases |a|
  {
    if a == [] {
      assert a + [sep] + b == [sep] + b;
      assert ([sep] + b)[1..] == b;
    } else {
      assert (a + [sep] + b)[1..] == a[1..] + [sep] + b;
      SplitAround(a[1..], sep, b);
    }
  }

  lemma {:induction false} SplitNoSeparator(s: string, sep: char)
    requires sep !in s
    ensures Split(s, sep) == [s]
    decreases |s|
  {
    if s != [] {
      SplitNoSeparator(s[1..], sep);
      assert [s[0]] + s[1..] == s;
    }
  }

  lemma {:induction false} FilterAppend(xs: seq<string>, ys: seq<string>, keep: string -> bool)
    ensures Filter(xs + ys, keep) == Filter(xs, keep) + Filter(ys, keep)
    decreases |xs|
  {
    if xs == [] {
      assert xs + ys == ys;
    } else {
      assert (xs + ys)[1..] == xs[1..] + ys;
      FilterAppend(xs[1..], ys, keep);
    }
  }

  /** The segments on either side of a `/` are found independently. */
  lemma SegmentsAround(a: string, b: string)
    ensures PathSegments(a + "/" + b) == PathSegments(a) + PathSegments(b)
  {
    SplitAround(a, '/', b);
    FilterAppend(Split(a, '/'), Split(b, '/'), NonEmpty);
  }

  /** A doubled `/` gives the same segments as a single one. */
  lemma DoubledSlash(a: string, b: string)
    ensures PathSegments(a + "//" + b) == PathSegments(a + "/" + b)
  {
    assert a + "//" + b == a + "/" + ("/" + b);
    SegmentsAround(a, "/" + b);
    assert "/" + b == "" + "/" + b;
    SegmentsAround("", b);
    SegmentsAround(a, b);
    assert PathSegments("") == [];
  }

  /** A trailing `/` adds no segment. */
  lemma TrailingSlash(a: string)
    ensures PathSegments(a + "/") == PathSegments(a)
  {
    assert a + "/" == a + "/" + "";
    SegmentsAround(a, "");
    assert PathSegments("") == [];
  }

  /** A leading `/` adds no segment. */
  lemma LeadingSlash(b: string)
    ensures PathSegments("/" + b) == PathSegments(b)
  {
    assert "/" + b == "" + "/" + b;
    SegmentsAround("", b);
    assert PathSegments("") == [];
  }

  /** `/dashboard/investments/` and `/dashboard//investments` produce the same trail. */
  lemma SameTrailForSlashVariants()
    ensures CleanSegments("/dashboard/investments/") == CleanSegments("/dashboard//investments")
  {
    assert "/dashboard/investments/" == "/dashboard" + "/" + "investments" + "/";
    TrailingSlash("/dashboard" + "/" + "investments");
    assert "/dashboard//investments" == "/dashboard" + "//" + "investments";
    DoubledSlash("/dashboard", "investments");
  }

  /** Segments that hold no `/` and are not empty come back unchanged from their join. */
  lemma {:induction false} SegmentsOfJoin(xs: seq<string>)
    requires forall i :: 0 <= i < |xs| ==> xs[i] != "" && '/' !in xs[i]
    ensures PathSegments(Join(xs)) == xs
    decreases |xs|
  {
    if |xs| == 0 {
    } else if |xs| == 1 {
      SplitNoSeparator(xs[0], '/');
    } else {
      var init := xs[..|xs| - 1];
      SegmentsOfJoin(init);
      SegmentsAround(Join(init), xs[|xs| - 1]);
      SplitNoSeparator(xs[|xs| - 1], '/');
      assert init + [xs[|xs| - 1]] == xs;
    }
  }

  lemma {:induction false} NoDashboardKept(xs: seq<string>)
    requires forall i :: 0 <= i < |xs| ==> xs[i] != "dashboard"
    ensures Filter(xs, NotDashboard) == xs
    decreases |xs|
  {
    if xs != [] {
      NoDashboardKept(xs[1..]);
    }
  }

  /** The link of item `k` splits into `dashboard` and the first `k + 1` segments. */
  lemma SegmentsOfHref(clean: seq<string>, k: nat)
    requires k < |clean|
    requires forall i :: 0 <= i < |clean| ==> clean[i] != "" && '/' !in clean[i]
    ensures PathSegments(Href(clean, k)) == ["dashboard"] + clean[..k + 1]
  {
    var joined := Join(clean[..k + 1]);
    SegmentsOfJoin(clean[..k + 1]);
    assert Href(clean, k) == "" + "/" + ("dashboard" + "/" + joined);
    SegmentsAround("", "dashboard" + "/" + joined);
    SegmentsAround("dashboard", joined);
    SplitNoSeparator("dashboard", '/');
    assert PathSegments("") == [];
  }

  /**
   * Following the link of item `k` leads to a path whose trail is made of
   * the first `k + 1` clean segments: the link and the trail agree.
   */
  lemma HrefRoundTrip(path: string, k: nat)
    requires k < |CleanSegments(path)|
    ensures CleanSegments(Href(CleanSegments(path), k)) == CleanSegments(path)[..k + 1]
  {
    var clean := CleanSegments(path);
    var prefix := clean[..k + 1];
    SegmentsOfHref(clean, k);
    NoDashboardKept(prefix);
    FilterAppend(["dashboard"], prefix, NotDashboard);
  }
}
