/** The site catalog: listing the descriptor files of the websites folder
    (credmap.py `list_sites`) and choosing the targets of a run from the
    `--only` and `--exclude` options. */
module Catalog {
  import opened Wrappers
  import opened Text

  /** One entry of the websites folder, as `listdir` names it, and whether
      the entry is a regular file (`isfile`). */
  datatype DirEntry = DirEntry(name: string, isFile: bool)

  /** The identifier under which a file is listed: its name, or with the
      `extension` flag unset, its name with ".xml" removed. */
  function Identifier(name: string, extension: bool): string {
    if extension then name else StripXml(name)
  }

  /** `list_sites(extension)`: the identifiers of the regular files, in
      listing order. */
  function ListSites(entries: seq<DirEntry>, extension: bool): seq<string>
    decreases |entries|
  {
    if entries == [] then []
    else
      (if entries[0].isFile then [Identifier(entries[0].name, extension)] else [])
      + ListSites(entries[1..], extension)
  }

  /** Listing a folder enumerated in two parts yields the two listings one
      after the other: listing order is enumeration order. */
  lemma {:induction false} ListSitesAppend(a: seq<DirEntry>, b: seq<DirEntry>, extension: bool)
    ensures ListSites(a + b, extension) == ListSites(a, extension) + ListSites(b, extension)
    decreases |a|
  {
    if a == [] {
      assert a + b == b;
    } else {
      assert (a + b)[0] == a[0];
      assert (a + b)[1..] == a[1..] + b;
      ListSitesAppend(a[1..], b, extension);
    }
  }

  /** One identifier per regular file: the listing is as long as the
      folder's regular files, so none is listed twice or left out. */
  lemma {:induction false} ListSitesLength(entries: seq<DirEntry>, extension: bool)
    ensures |ListSites(entries, extension)| == |Filter(entries, (e: DirEntry) => e.isFile)|
    decreases |entries|
  {
    if entries != [] {
      ListSitesLength(entries[1..], extension);
    }
  }

  /** An identifier is listed exactly when some regular file carries it. */
  lemma {:induction false} ListSitesMembership(entries: seq<DirEntry>, extension: bool, id: string)
    ensures id in ListSites(entries, extension) <==>
            exists k :: 0 <= k < |entries| && entries[k].isFile && Identifier(entries[k].name, extension) == id
    decreases |entries|
  {
    if entries != [] {
      ListSitesMembership(entries[1..], extension, id);
      if exists k :: 0 <= k < |entries| && entries[k].isFile && Identifier(entries[k].name, extension) == id {
        var k :| 0 <= k < |entries| && entries[k].isFile && Identifier(entries[k].name, extension) == id;
        if k > 0 {
          assert entries[1..][k - 1] == entries[k];
        }
      }
      if id in ListSites(entries[1..], extension) {
        var k :| 0 <= k < |entries[1..]| && entries[1..][k].isFile && Identifier(entries[1..][k].name, extension) == id;
        assert entries[k + 1] == entries[1..][k];
      }
    }
  }

  /** A regular file `n.xml` is listed as `n`, the identifier under which
      the site's descriptor is read back as `n + ".xml"`, provided ".xml"
      does not occur in `n` itself. */
  lemma ListedIdentifierNamesItsFile(entries: seq<DirEntry>, k: nat, n: string)
    requires k < |entries| && entries[k] == DirEntry(n + Xml, true)
    requires !Contains(n, Xml)
    ensures n in ListSites(entries, false)
  {
    StripXmlRoundTrip(n);
    ListSitesMembership(entries, false, n);
  }

  /** A list comprehension with a condition: the elements of `s` that `p`
      accepts, in order. */
  function Filter<T>(s: seq<T>, p: T -> bool): seq<T>
    decreases |s|
  {
    if s == [] then []
    else (if p(s[0]) then [s[0]] else []) + Filter(s[1..], p)
  }

  /** `r` is obtained from `s` by deleting elements. */
  ghost predicate IsSubsequence<T>(r: seq<T>, s: seq<T>)
    decreases |s|
  {
    r == [] || (s != [] && ((r[0] == s[0] && IsSubsequence(r[1..], s[1..])) || IsSubsequence(r, s[1..])))
  }

  /** The comprehension keeps exactly the accepted elements, each as often
      as it occurs in `s` (two files `a` and `a.xml` both list as `a`), in
      the order of `s`. */
  lemma {:induction false} FilterSpec<T>(s: seq<T>, p: T -> bool)
    ensures forall x :: x in Filter(s, p) <==> x in s && p(x)
    ensures forall x :: multiset(Filter(s, p))[x] == (if p(x) then multiset(s)[x] else 0)
    ensures IsSubsequence(Filter(s, p), s)
    decreases |s|
  {
    if s != [] {
      FilterSpec(s[1..], p);
      var r := Filter(s, p);
      assert s == [s[0]] + s[1..];
      assert multiset(s) == multiset([s[0]]) + multiset(s[1..]);
      assert multiset(r) == multiset(if p(s[0]) then [s[0]] else []) + multiset(Filter(s[1..], p));
      if p(s[0]) {
        assert r[0] == s[0] && r[1..] == Filter(s[1..], p);
        assert IsSubsequence(r[1..], s[1..]);
      } else {
        assert r == Filter(s[1..], p);
        assert IsSubsequence(r, s[1..]);
      }
      forall x ensures x in s <==> x == s[0] || x in s[1..] {
        assert s == [s[0]] + s[1..];
      }
    }
  }

  /** A command-line option is set when it is given and not empty. */
  predicate Truthy(o: Option<string>) {
    o.Some? && o.value != ""
  }

  /** The targets of a run (credmap.py lines 464-467). With `--only`, the
      sites whose identifier occurs in the option string; otherwise, with
      `--exclude`, the sites whose identifier does not occur in it; otherwise
      every site. The test is Python's `in` on the raw option string. */
  function SelectSites(sites: seq<string>, only: Option<string>, exclude: Option<string>): seq<string> {
    if Truthy(only) then Filter(sites, (s: string) => Contains(only.value, s))
    else if Truthy(exclude) then Filter(sites, (s: string) => !Contains(exclude.value, s))
    else sites
  }

  /** Whether the options keep the site `s`: with `--only`, when `s` occurs
      in the option string; otherwise, with `--exclude`, when it does not
      occur in it; otherwise always. */
  predicate Wanted(only: Option<string>, exclude: Option<string>, s: string) {
    if Truthy(only) then Contains(only.value, s)
    else if Truthy(exclude) then !Contains(exclude.value, s)
    else true
  }

  /** The membership rule of `SelectSites`, in both directions: `--only` wins
      over `--exclude`, the selection keeps listing order, and a kept
      identifier is kept as many times as it is listed. */
  lemma SelectSitesSpec(sites: seq<string>, only: Option<string>, exclude: Option<string>)
    ensures IsSubsequence(SelectSites(sites, only, exclude), sites)
    ensures forall s :: s in SelectSites(sites, only, exclude) <==> s in sites && Wanted(only, exclude, s)
    ensures forall s ::
              multiset(SelectSites(sites, only, exclude))[s] == if Wanted(only, exclude, s) then multiset(sites)[s] else 0
  {
    if Truthy(only) {
      FilterSpec(sites, (s: string) => Contains(only.value, s));
    } else if Truthy(exclude) {
      FilterSpec(sites, (s: string) => !Contains(exclude.value, s));
    } else {
      SubsequenceReflexive(sites);
    }
  }

  lemma {:induction false} SubsequenceReflexive<T>(s: seq<T>)
    ensures IsSubsequence(s, s)
    decreases |s|
  {
    if s != [] {
      SubsequenceReflexive(s[1..]);
    }
  }

  /** The option is matched by substring, not by exact identifier: a site
      "github" is excluded by `--exclude github.com`, and `--only
      facebook.com` also selects a site "book.com". */
  lemma SelectionIsBySubstring()
    ensures SelectSites(["github"], None, Some("github.com")) == []
    ensures SelectSites(["book.com"], Some("facebook.com"), None) == ["book.com"]
  {
    var facebook := "facebook.com";
    assert StartsWith(facebook[4..], "book.com");
    assert Contains(facebook[3..], "book.com") by { assert facebook[3..][1..] == facebook[4..]; }
    assert Contains(facebook[2..], "book.com") by { assert facebook[2..][1..] == facebook[3..]; }
    assert Contains(facebook[1..], "book.com") by { assert facebook[1..][1..] == facebook[2..]; }
    assert Contains(facebook, "book.com");
    SingletonFilter("book.com", (s: string) => Contains(facebook, s));
    assert StartsWith("github.com", "github");
    SingletonFilter("github", (s: string) => !Contains("github.com", s));
  }

  lemma SingletonFilter<T>(x: T, p: T -> bool)
    ensures Filter([x], p) == if p(x) then [x] else []
  {
    assert [x][1..] == [];
  }
}
