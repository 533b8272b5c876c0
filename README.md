# credmap: a verified model of the credential-reuse test driver

credmap tries one set of credentials against many websites. Each website is
described by an XML file in the `websites` folder. This project models the
decision logic of `credmap.py` that sits between those files and the login
attempts:

- **Listing the catalog** (`list_sites`) and **choosing the targets** with
  `--only` / `--exclude` (module `Catalog`).
- **Building a site descriptor** from a parsed document (`populate_site`)
  (module `SiteDescriptor`). The children of the root fill an `AttribDict`
  property bag, the `param` elements replace the `multiple_params` flag, and
  three validations run in order:
  1. the login URL must have a readable scheme;
  2. under `--safe-urls` that scheme must be HTTPS;
  3. both login parameters must be present.

  The method `PopulateSite` keeps the two loops of `populate_site` and is proved equal
  to the function `Populate`.
- **Choosing the transport** from `--ignore-proxy` and `--proxy` (module
  `Transport`). The `re.search` for `type://address:port` is modelled as a
  scan over start offsets, and proved to return the leftmost well-formed
  occurrence.
- **The test loop and the report** (module `Orchestrator`). The class
  `Tester` holds the lists `login_sucessful` and `login_failed` and appends
  to them in a `while` loop. It is proved against `RunFrom`, and `RunFrom`
  against an independent account (`Testable`, `NamesWhere`) of which targets
  are tried and where their names go.

`Text` holds the Python string operations that credmap.py relies on:
- `in` between strings;
- `str.replace(".xml", "")`;
- ASCII `upper()`;
- the scans behind the two regular expressions.

`Wrappers` holds `Option` and `Result`.

Inputs that come from I/O are parameters:
- the directory listing, as a sequence of `(name, isFile)`;
- the parsed document of each site, as a function from identifier to an
  optional element tree, where None means the parse failed;
- the option values;
- the sampled user agent;
- the login executor. It is a function from an `Attempt` to a verdict. An
  `Attempt` carries the transport, the credentials, the targets tried
  before (standing for the shared cookie jar) and the target itself.

Exceptions that escape `populate_site` end the whole run. `main` catches
nothing, and the `__main__` block around it (credmap.py:517-521) catches only
`KeyboardInterrupt`. They are the `KeyError` of a special element
missing an attribute, and the `TypeError` of `re.match` on a missing
`login_url`. In the model they are the `Raised` outcome and the `Aborted` /
`Crashed` states.

## Behaviour that may surprise

- **Target filter.** The filter tests `site in args.only` on the raw option
  string. That is substring containment, not exact identifier match:
  `--only facebook.com` also selects a site `book.com`. See
  `Catalog.SelectionIsBySubstring`.
- **Rate denominator.** The percentage is
  `100 * len(login_sucessful) / len(sites)` over the selected sites, not
  over the sites actually tried. See `Orchestrator.RateUsesSelectedSites`.
- **Unknown proxy scheme.** A well-formed proxy with a scheme other than
  HTTP, HTTPS, SOCKS4 or SOCKS5 is not an error. It configures nothing. See
  `Transport.UnknownSchemeIsNotFatal`.
- **Malformed targets.** A malformed special element or a missing
  `login_url` raises an exception that aborts the batch. It does not just
  skip that target. See `SiteDescriptor.PopulateRaisesIff` for when
  `populate_site` raises, and `Orchestrator.RunAbortsAtFirstRaise`.
- **Nameless targets.** A descriptor without a `name` element is accepted.
  If the login succeeds, None joins the success list, and the final
  `", ".join` raises TypeError instead of naming the sites. See
  `Orchestrator.NamelessSuccessBreaksReport`.

## Model

| member | source | states |
|---|---|---|
| Text.Contains | credmap.py:465-467 | definition of Python `in` between two strings; properties in `ContainsSpec` |
| Text.ContainsSpec | credmap.py:465-467 | `needle in haystack` holds exactly when `needle` stands at some offset of `haystack`: substring containment |
| Text.Upper | credmap.py:373 | definition of ASCII `upper()`, also used at credmap.py:429, 439 and 443; properties in `UnsafeSchemeSkippedFirst`, `ProxySelection` |
| Text.DecimalValue | credmap.py:440-446 | definition of `int(port)` on a string of decimal digits; used in `ProxySelection` |
| Text.StripXml | credmap.py:318 | definition of `replace(".xml", "")`; properties in `StripXmlKeepsPlainName`, `StripXmlRoundTrip` |
| Text.StripXmlKeepsPlainName | credmap.py:318 | a listed name in which ".xml" does not occur is left unchanged by `replace(".xml", "")` |
| Text.StripXmlRoundTrip | credmap.py:318 | removing ".xml" from `n + ".xml"` gives back `n` when ".xml" does not occur in `n` |
| Catalog.ListSitesAppend | credmap.py:318-319 | the listing of a folder enumerated in two parts is the two listings concatenated, so the listing keeps enumeration order |
| Catalog.ListSitesMembership | credmap.py:318-319 | an identifier is listed if and only if some regular-file entry has that identifier; directories never contribute |
| Catalog.ListedIdentifierNamesItsFile | credmap.py:318-319 | a regular file `n.xml` is listed as `n`, provided ".xml" does not occur in `n` |
| Catalog.ListSites | credmap.py:318-319 | definition of `list_sites`; properties in `ListSitesAppend`, `ListSitesLength`, `ListSitesMembership`, `ListedIdentifierNamesItsFile` |
| Catalog.ListSitesLength | credmap.py:318-319 | the listing has exactly one identifier per regular file: its length is the number of regular-file entries |
| Catalog.FilterSpec | credmap.py:465-467 | a list comprehension with a condition keeps exactly the accepted elements, each as many times as it occurs, as a subsequence of its input |
| Catalog.Truthy | credmap.py:464-466 | definition of the truthiness of `args.only` / `args.exclude`; properties in `SelectSitesSpec` |
| Catalog.SelectSites | credmap.py:464-467 | definition of the `--only` / `--exclude` filter; properties in `SelectSitesSpec`, `SelectionIsBySubstring` |
| Catalog.SelectSitesSpec | credmap.py:464-467 | the targets are a subsequence of the listing; with `--only` a site is kept iff its identifier occurs in the option string, and `--exclude` is then ignored; with only `--exclude` a site is kept iff its identifier does not occur in it; with neither every site is kept; a kept identifier is kept as many times as it is listed (files `a` and `a.xml` both list as `a`) |
| Catalog.SelectionIsBySubstring | credmap.py:464-467 | selection is by substring: `--exclude github.com` drops a site `github`, and `--only facebook.com` keeps a site `book.com` |
| SiteDescriptor.IsTruthy | credmap.py:358 | definition of Python truthiness of a bag entry, also used at credmap.py:379-380 and 490; properties in `DescriptorIsValid`, `WithUserAgent` |
| SiteDescriptor.Get | credmap.py:103-111 | definition of `AttribDict.__getattr__`, where a missing key reads as None; properties in `MissingLoginUrlRaises`, `DescriptorIsValid` |
| SiteDescriptor.ApplyElement | credmap.py:337-356 | definition of one pass of the loop over the root's children; properties in `ApplyElementWrites` |
| SiteDescriptor.Collect | credmap.py:336-356 | definition of the loop over the root's children; properties in `CollectRaisesIffMalformed`, `CollectKeys`, `CollectLastWriter`, `CollectWellShaped` |
| SiteDescriptor.ApplyElementWrites | credmap.py:336-356 | one child element raises a `KeyError` for the first missing attribute exactly when it is a special element lacking a required attribute; otherwise its entries are added to the bag, overriding earlier values |
| SiteDescriptor.SpecialElementsWriteNoTypeKey | credmap.py:337-352 | the four special tags never create a key ending in `_type` |
| SiteDescriptor.CollectRaisesIffMalformed | credmap.py:336-352 | the element loop raises if and only if some child is malformed, and the error is that of the first malformed child |
| SiteDescriptor.CollectKeys | credmap.py:336-356 | after the element loop, a key is in the bag if and only if some child writes it |
| SiteDescriptor.CollectLastWriter | credmap.py:336-356 | the value under a key is the one written by the last child that writes it: a later element with the same tag overwrites an earlier one |
| SiteDescriptor.CollectWellShaped | credmap.py:337-356 | `multiple_params` holds the flag True, the other special tags hold a dictionary whose keys are exactly their two required attributes, and every other key holds an attribute string |
| SiteDescriptor.Iter | credmap.py:360 | definition of `iter(tag)` in document order (preorder); properties in `IterTags` |
| SiteDescriptor.ParamElements | credmap.py:360 | definition of `xml_tree.iter('param')`; properties in `IterTags`, `MultipleParamsReplaced` |
| SiteDescriptor.IterTags | credmap.py:360 | every element `iter(tag)` yields carries that tag, and the root comes first when it carries it |
| SiteDescriptor.NonEmptyValues | credmap.py:361 | definition of `{k: v ... if v}`; properties in `KeptParamsSpec` |
| SiteDescriptor.KeptParams | credmap.py:358-363 | definition of the `param` list; properties in `KeptParamsSpec`, `KeptParamsAppend` |
| SiteDescriptor.KeptParamsSpec | credmap.py:360-363 | the kept `param` maps number at most the `param` elements; each is non-empty, has only non-empty values, and is some element's attributes with the empty values dropped; every element whose filtered map is non-empty contributes it |
| SiteDescriptor.KeptParamsAppend | credmap.py:359-363 | the maps come in document order: two consecutive stretches of `param` elements give the first stretch's maps, then the second's |
| SiteDescriptor.LoginUrlScheme | credmap.py:365-368 | definition of the `re.match` on the login URL; properties in `LoginUrlSchemeSpec` |
| SiteDescriptor.LoginUrlSchemeSpec | credmap.py:365-368 | `re.match` on the login URL succeeds with scheme `t` if and only if the URL is `t`, then "://", then a character other than '.', with `t` non-empty and free of ':' |
| SiteDescriptor.Validate | credmap.py:365-385 | definition of the three checks after the loops; properties in `DescriptorIsValid`, `ValidDocumentIsAccepted`, `UnsafeSchemeSkippedFirst`, `SafeUrlsOnlyAddsSchemeSkips`, `MissingLoginUrlRaises` |
| SiteDescriptor.WithParams | credmap.py:358-363 | definition of replacing the `multiple_params` flag by the `param` list; properties in `MultipleParamsReplaced`, `NoMultipleParamsAbsent` |
| SiteDescriptor.Populate | credmap.py:322-385 | definition of `populate_site` on the parsed document; properties in `PopulateRaisesIff`, `PopulateUnreadableIff`, `DescriptorIsValid`, `ValidDocumentIsAccepted`, `MultipleParamsReplaced`, `NoMultipleParamsAbsent` and the lemmas above |
| SiteDescriptor.PopulateSite | credmap.py:322-385 | the imperative builder returns exactly what `Populate` specifies: the loop's exception, the `param` list replacing the flag, then the three checks in order |
| SiteDescriptor.FillProperties | credmap.py:336-356 | the loop over the root's children, with its early `KeyError` exits, computes `Collect` |
| SiteDescriptor.CollectParams | credmap.py:359-363 | the loop over the `param` elements, appending each non-empty filtered map, computes `KeptParams` |
| SiteDescriptor.DescriptorIsValid | credmap.py:365-385 | a returned descriptor has a string `login_url` with a readable scheme, HTTPS under `--safe-urls`, and non-empty `login_parameter` and `password_parameter` |
| SiteDescriptor.ValidDocumentIsAccepted | credmap.py:358-385 | conversely, a document whose loop succeeds and whose bag passes the three checks yields that bag, with its `param` list, as the descriptor |
| SiteDescriptor.UnsafeSchemeSkippedFirst | credmap.py:373-377 | under `--safe-urls`, a readable URL whose upper-cased scheme is not HTTPS is skipped for its scheme, whatever the login parameters are |
| SiteDescriptor.SafeUrlsOnlyAddsSchemeSkips | credmap.py:373-377 | without `--safe-urls` no site is skipped for its scheme; turning it on changes an outcome only into an unsafe-scheme skip |
| SiteDescriptor.PopulateRaisesIff | credmap.py:336-366 | `populate_site` raises exactly when some child is a special element missing a required attribute, or no child sets `login_url` |
| SiteDescriptor.PopulateUnreadableIff | credmap.py:365-371 | a site is skipped for its login URL exactly when the children are read without an exception, `login_url` is a string, and no scheme reads from it |
| SiteDescriptor.MissingLoginUrlRaises | credmap.py:365-366 | a document with no `login_url` raises `TypeError` in `re.match`, because the missing key reads as None |
| SiteDescriptor.MultipleParamsReplaced | credmap.py:358-363 | when a `multiple_params` element occurs, the descriptor's `multiple_params` is the document-order list of kept `param` maps |
| SiteDescriptor.NoMultipleParamsAbsent | credmap.py:358 | without a `multiple_params` element the descriptor has no `multiple_params` entry |
| Transport.MatchAt | credmap.py:426-427 | a match tried at one offset has a non-empty colon-free scheme and address and a non-empty all-digit port |
| Transport.MatchAtIff | credmap.py:426-427 | the pattern matches at an offset exactly where `scheme://address:port` stands with well-formed parts and the port not followed by a digit |
| Transport.SearchIff | credmap.py:426-427 | `re.search` returns a match if and only if that match stands at some offset and no match stands at any earlier offset |
| Transport.Search | credmap.py:426-427 | a match `re.search` returns has a non-empty colon-free scheme and address and an all-digit port |
| Transport.SearchNone | credmap.py:426-428 | the search finds nothing exactly when the pattern matches at no offset |
| Transport.SearchFindsNothingIff | credmap.py:426-428 | the search finds nothing exactly when no well-formed `type://address:port` stands anywhere in the string |
| Transport.ConfigureTransport | credmap.py:419-455 | definition of the proxy branch; properties in `IgnoreProxyWins`, `BadProxyFormatIff`, `ProxySelection`, `UnknownSchemeIsNotFatal`, `ForwardProxyKeepsCase` |
| Transport.IgnoreProxyWins | credmap.py:419-455 | `--ignore-proxy` selects the empty proxy handler whatever `--proxy` says; with neither option the default opener is used |
| Transport.BadProxyFormatIff | credmap.py:425-450 | a non-empty proxy string is rejected, ending the run, if and only if no well-formed `type://address:port` stands anywhere in it |
| Transport.ProxySelection | credmap.py:428-446 | for the match found, HTTP/HTTPS in any case gives a forward proxy keyed by the scheme as written; SOCKS4/SOCKS5 gives a SOCKS proxy on `int(port)`; any other scheme configures nothing, each in both directions |
| Transport.WholeStringProxy | credmap.py:426-427 | a proxy string that is exactly `scheme://address:port` is matched as those three parts |
| Transport.UnknownSchemeIsNotFatal | credmap.py:437-446 | a well-formed proxy with another scheme is accepted without error and configures nothing |
| Transport.ForwardProxyKeepsCase | credmap.py:429-430 | a proxy string that is one HTTP or HTTPS address in any letter case selects the forward proxy keyed by the scheme exactly as written, with the whole string as its URL |
| Orchestrator.WithUserAgent | credmap.py:490-491 | the target's user agent becomes the run's sampled one exactly when it had none, and nothing else changes |
| Orchestrator.LacksIdentifier | credmap.py:480-481 | definition of the missing e-mail / username test; properties in `SkippedTargetAddsNothing` |
| Orchestrator.TestSite | credmap.py:475-496 | definition of one pass of the loop body, starting from `populate_site(site, args)`; properties in `OneSiteAtMostOneName`, `RunMatchesReference` |
| Orchestrator.Advance | credmap.py:493-496 | definition of the appends to `login_sucessful` / `login_failed`; properties in `RunFromCounts`, `OneSiteAtMostOneName` |
| Orchestrator.Consider | credmap.py:475-496 | definition of one pass of the loop body after `populate_site`; properties in `SkippedTargetAddsNothing`, `InvalidDescriptorAddsNothing`, `OneSiteAtMostOneName` |
| Orchestrator.RunFrom | credmap.py:474-496 | definition of the loop over the sites; properties in `RunFromCounts`, `RunMatchesReference`, `RunAbortsAtFirstRaise`, `AbortedIffSomeRaises` |
| Orchestrator.Tester.TestSites | credmap.py:474-496 | the loop over the sites, appending to the two lists, ends in the state `RunFrom` gives, and returns the exception that aborted it, if one did |
| Orchestrator.Tester.TestOne | credmap.py:475-496 | one pass of the loop body: an escaping exception is returned, a skipped or inapplicable site changes nothing, and otherwise the user agent is defaulted and the name appended to the success or the failure list by the executor's verdict, as `TestSite` and `Advance` specify |
| Orchestrator.AbortPersists | credmap.py:474-475 | once an exception has escaped `populate_site`, later sites change nothing |
| Orchestrator.RunFromCounts | credmap.py:493-496 | the lists only grow; the names added match the targets tried one for one, and number at most the sites |
| Orchestrator.RunCounts | credmap.py:474-501 | the number of successes plus failures equals the number of targets tried and is at most `len(sites)` |
| Orchestrator.OneSiteAtMostOneName | credmap.py:474-496 | one more site leaves the lists unchanged or appends one name to exactly one of them |
| Orchestrator.SkippedTargetAddsNothing | credmap.py:480-486 | a target needing an e-mail the run lacks, or a username it lacks, adds nothing |
| Orchestrator.InvalidDescriptorAddsNothing | credmap.py:475-477 | a site that `populate_site` skips adds nothing |
| Orchestrator.RunMatchesReference | credmap.py:474-496 | a run that nothing aborts tries exactly the testable targets in site order, and its success and failure lists are the names of the targets the executor accepted and refused, each in processing order |
| Orchestrator.RunAbortsAtFirstRaise | credmap.py:474-475 | the first site whose descriptor raises ends the run with that exception, the lists as the earlier sites left them |
| Orchestrator.AbortedIffSomeRaises | credmap.py:474-475 | a run is aborted if and only if some selected site's descriptor raises |
| Orchestrator.SuccessRate | credmap.py:505-507 | definition of the percentage; properties in `RateBounds`, `RateUsesSelectedSites` |
| Orchestrator.RateBounds | credmap.py:505-507 | for at least one selected site and no more successes than sites, the rate is the floor of `100 * succeeded / len(sites)`, characterised by two inequalities, and lies in 0..100; that a printed rate never divides by zero is stated by `ReportOfRun` |
| Orchestrator.MakeReport | credmap.py:501-512 | definition of the report; properties in `ReportOfRun`, `NamelessSuccessBreaksReport` |
| Orchestrator.JoinNames | credmap.py:512 | definition of `", ".join` of the success names; properties in `JoinNamesSpec` |
| Orchestrator.JoinNamesSpec | credmap.py:511-512 | `", ".join` of the success names succeeds exactly when every name is a string, giving those strings in order, and otherwise raises TypeError |
| Orchestrator.ReportOfRun | credmap.py:501-512 | the totals line prints exactly when something was tried, with the right counts; the rate line prints exactly then too, and is the floor of `100 * succeeded / len(sites)` over the selected sites, a percentage in 0..100; the worked-on line is absent exactly when nothing worked, raises TypeError exactly when some success name is not a string, and otherwise lists the success names in order |
| Orchestrator.NamelessSuccessBreaksReport | credmap.py:493-512 | a target the executor accepts whose descriptor has no `name` entry appends None to the success list, so the final join raises TypeError |
| Orchestrator.RateUsesSelectedSites | credmap.py:501-507 | for a report of 3 successes and 2 failures, the printed rate is 60 when 5 sites were selected and 30 when 10 were: the denominator is the selected-site count, not the number tried |
| Orchestrator.Session | credmap.py:409-512 | definition of `main` after option parsing; properties in `BadProxyStopsBeforeTesting`, `CompletedSessionReport` |
| Orchestrator.RunSession | credmap.py:409-512 | `main` after option parsing (list, proxy, selection, loop, report) ends as `Session` specifies |
| Orchestrator.BadProxyStopsBeforeTesting | credmap.py:447-450 | a proxy string with no well-formed match ends the session before any site is tried |
| Orchestrator.CompletedSessionReport | credmap.py:462-507 | a completed session tests a subsequence of the listing, adds at most one name per selected site, and prints a rate in 0..100 |

## Left out

- Reading and parsing the XML files (credmap.py:327-332). The parsed tree is
  an input, and a parse failure is the input None.
- Directory enumeration and `isfile` (credmap.py:318-319). The listing is an
  input sequence of `(name, isFile)`.
- `Website`, `perform_login` and `cookie_handler`. `lib/website.py` and
  `lib/common.py` are not part of this model.
  - The login is an uninterpreted executor.
  - The cookie jar is represented by the history of earlier attempts.
  - `target.name`, `target.username_or_email` and `target.user_agent` are
    read from the descriptor's entries, and assigning the user agent updates
    that entry.
  - Exceptions raised inside `lib.website` are not modelled.
- `install_opener`, `build_opener` and `socks.setdefaultproxy`. These global
  side effects are represented only by the chosen `Transport` value.
- `get_revision`, `check_revision` and `update` (credmap.py:114-244). They
  are git subprocesses and interactive prompts. `--update` is not an option
  of `Options`.
- `parse_args` (credmap.py:247-309). `Options` holds its results, and the
  check that some of username, email, `--update` and `--list` was given is
  not modelled.
- Presentation:
  - the banner, `color`, every `print` and `strftime`;
  - `getpass` for the password, and the random user-agent sample from
    `agents.txt` (the password and user agent are inputs);
  - `--verbose`. Within `credmap.py` it only selects what is printed. It is
    also passed to `Website` (credmap.py:478), and what `Website` does with
    it is not part of this model;
  - the text formatting of the report.

  `MakeReport` keeps the counts, the rate and the joined names, or the
  TypeError that `", ".join` raises on a name that is not a string.
- `KeyboardInterrupt` handling (credmap.py:518-521).
- Non-ASCII `upper()`. The model upper-cases ASCII letters only, as
  Python 2 `str.upper()` does in the C locale. Two cases differ:
  - `str.upper()` in another locale may also change other bytes;
  - ElementTree returns `unicode` for a non-ASCII attribute value, and
    `unicode.upper()` maps further letters, such as 'ſ' to 'S'. A login URL
    with the scheme "httpſ" therefore passes `--safe-urls` in `credmap.py`,
    but `Validate` skips it as an unsafe scheme.

  The proxy string comes from the command line, so it is a byte `str`.
  Only the locale case applies to the scheme check in `ConfigureTransport`.
- The `re.I` flag of both regular expressions is ignored. It cannot change
  a match, because the patterns' only letters are in group names and the
  `\d` / `\w` classes.
- The `(\.\w+)*` tail of the login-URL pattern is left out. It is optional,
  so it cannot change whether `re.match` succeeds or which scheme it
  reports.
