/** The test loop of `main` (credmap.py lines 457-512): every selected site
    is turned into a descriptor, the applicable ones are tried against the
    login executor, and the outcomes are gathered into the success and
    failure lists from which the report is printed. */
module Orchestrator {
  import opened Wrappers
  import opened Text
  import opened Catalog
  import opened SiteDescriptor
  import opened Transport

  /** The credentials dictionary built once per run. */
  datatype Credentials = Credentials(username: Option<string>, email: Option<string>, password: string)

  /** `target.name`: the descriptor's `name` entry, None when it has none. */
  type Name = Option<Value>

  /** What the login executor (`Website.perform_login`) is given: the
      installed transport, the credentials, the targets tried before this
      one (which stand for the shared cookie jar they have filled) and the
      target itself. */
  datatype Attempt = Attempt(transport: Transport, creds: Credentials, previous: seq<Bag>, target: Bag)

  /** Everything the loop reads: the parsed document of each site (None when
      it cannot be parsed), `--safe-urls`, the credentials, the sampled user
      agent, the transport and the login executor. */
  datatype Context = Context(
    trees: string -> Option<Element>,
    safeUrls: bool,
    creds: Credentials,
    userAgent: string,
    transport: Transport,
    login: Attempt -> bool)

  /** The lists `login_sucessful` and `login_failed`, and the targets tried
      so far. */
  datatype Tally = Tally(succeeded: seq<Name>, failed: seq<Name>, tested: seq<Bag>)

  /** The loop is still running, or an exception from `populate_site` has
      ended the run with the lists as they were. */
  datatype Progress = Running(tally: Tally) | Aborted(error: Exception, tally: Tally)

  /** What one site contributes. */
  datatype SiteOutcome = Crash(error: Exception) | Dropped | Tested(name: Name, success: bool, target: Bag)

  /** The target needs an e-mail address or a username the run was not
      given. */
  predicate LacksIdentifier(b: Bag, creds: Credentials) {
    var kind := Get(b, "username_or_email");
    (kind == Some(Text("email")) && !Truthy(creds.email)) ||
    (kind == Some(Text("username")) && !Truthy(creds.username))
  }

  /** The target with the run's sampled user agent filled in when its own
      is missing or empty; a target that names one keeps it. */
  function WithUserAgent(b: Bag, ua: string): (r: Bag)
    ensures Get(r, "user_agent") == if IsTruthy(Get(b, "user_agent")) then Get(b, "user_agent") else Some(Text(ua))
    ensures forall k :: k != "user_agent" ==> Get(r, k) == Get(b, k)
  {
    if IsTruthy(Get(b, "user_agent")) then b else b["user_agent" := Text(ua)]
  }

  /** One pass of the loop body for `site`, after the targets `previous`. */
  function TestSite(site: string, ctx: Context, previous: seq<Bag>): SiteOutcome {
    Consider(Populate(ctx.trees(site), ctx.safeUrls), ctx, previous)
  }

  /** What the loop body does with the outcome of `populate_site`. */
  function Consider(d: Populated, ctx: Context, previous: seq<Bag>): SiteOutcome {
    match d
    case Raised(e) => Crash(e)
    case Skipped(_) => Dropped
    case Descriptor(b) =>
      if LacksIdentifier(b, ctx.creds) then Dropped
      else
        var target := WithUserAgent(b, ctx.userAgent);
        Tested(Get(target, "name"), ctx.login(Attempt(ctx.transport, ctx.creds, previous, target)), target)
  }

  function Advance(t: Tally, o: SiteOutcome): Progress {
    match o
    case Crash(e) => Aborted(e, t)
    case Dropped => Running(t)
    case Tested(name, ok, target) =>
      if ok then Running(Tally(t.succeeded + [name], t.failed, t.tested + [target]))
      else Running(Tally(t.succeeded, t.failed + [name], t.tested + [target]))
  }

  /** The loop over `sites`, started from the lists `t0`. */
  function RunFrom(t0: Tally, sites: seq<string>, ctx: Context): Progress
    decreases |sites|
  {
    if sites == [] then Running(t0)
    else
      match RunFrom(t0, sites[..|sites| - 1], ctx)
      case Aborted(e, t) => Aborted(e, t)
      case Running(t) => Advance(t, TestSite(sites[|sites| - 1], ctx, t.tested))
  }

  const Empty := Tally([], [], [])

  /** The loop of `main`, which starts from two empty lists. */
  function Run(sites: seq<string>, ctx: Context): Progress {
    RunFrom(Empty, sites, ctx)
  }

  /** The test loop as `main` writes it: an object holding the two
      lists, which the loop appends to. */
  class Tester {
    var loginSuccessful: seq<Name>
    var loginFailed: seq<Name>
    var tested: seq<Bag>

    function Current(): Tally
      reads this
    {
      Tally(loginSuccessful, loginFailed, tested)
    }

    constructor()
      ensures Current() == Empty
    {
      loginSuccessful := [];
      loginFailed := [];
      tested := [];
    }

    /** Runs the loop over `sites`; `crash` is the exception that ended it,
        if any. */
    method TestSites(sites: seq<string>, ctx: Context) returns (crash: Option<Exception>)
      modifies this
      ensures RunFrom(old(Current()), sites, ctx) ==
        if crash.Some? then Aborted(crash.value, Current()) else Running(Current())
    {
      ghost var t0 := Current();
      var i := 0;
      while i < |sites|
        invariant 0 <= i <= |sites|
        invariant RunFrom(t0, sites[..i], ctx) == Running(Current())
      {
        RunStep(t0, sites, i, ctx, Current());
        var stop := TestOne(sites[i], ctx);
        if stop.Some? {
          AbortPersists(t0, sites, i + 1, ctx);
          return stop;
        }
        i := i + 1;
      }
      assert sites[..i] == sites;
      return None;
    }

    /** One pass of the loop body for `site`: `stop` is the exception that
        escaped `populate_site`, if any. */
    method TestOne(site: string, ctx: Context) returns (stop: Option<Exception>)
      modifies this
      ensures Advance(old(Current()), TestSite(site, ctx, old(tested))) ==
        if stop.Some? then Aborted(stop.value, Current()) else Running(Current())
    {
      var d := PopulateSite(ctx.trees(site), ctx.safeUrls);
      if d.Raised? {
        return Some(d.error);
      }
      if d.Skipped? || LacksIdentifier(d.props, ctx.creds) {
        return None;
      }
      var target := d.props;
      if !IsTruthy(Get(target, "user_agent")) {
        target := target["user_agent" := Text(ctx.userAgent)];
      }
      assert target == WithUserAgent(d.props, ctx.userAgent);
      if ctx.login(Attempt(ctx.transport, ctx.creds, tested, target)) {
        loginSuccessful := loginSuccessful + [Get(target, "name")];
      } else {
        loginFailed := loginFailed + [Get(target, "name")];
      }
      tested := tested + [target];
      return None;
    }
  }

  /** One more site moves a running loop by `TestSite`. */
  lemma RunStep(t0: Tally, sites: seq<string>, i: nat, ctx: Context, t: Tally)
    requires i < |sites| && RunFrom(t0, sites[..i], ctx) == Running(t)
    ensures RunFrom(t0, sites[..i + 1], ctx) == Advance(t, TestSite(sites[i], ctx, t.tested))
  {
    assert sites[..i + 1][..i] == sites[..i];
  }

  /** Once the run is aborted, later sites change nothing. */
  lemma {:induction false} AbortPersists(t0: Tally, sites: seq<string>, k: nat, ctx: Context)
    requires k <= |sites| && RunFrom(t0, sites[..k], ctx).Aborted?
    ensures RunFrom(t0, sites, ctx) == RunFrom(t0, sites[..k], ctx)
    decreases |sites| - k
  {
    if k < |sites| {
      assert sites[..k + 1][..k] == sites[..k];
      AbortPersists(t0, sites, k + 1, ctx);
    } else {
      assert sites[..k] == sites;
    }
  }

  /** The lists only grow, each site adds at most one name, to one list,
      and the targets tried are exactly the names added, one each: so
      `|succeeded| + |failed|` never exceeds the number of sites. */
  lemma {:induction false} RunFromCounts(t0: Tally, sites: seq<string>, ctx: Context)
    ensures var t := RunFrom(t0, sites, ctx).tally;
      && t0.succeeded <= t.succeeded && t0.failed <= t.failed && t0.tested <= t.tested
      && |t.succeeded| - |t0.succeeded| + |t.failed| - |t0.failed| == |t.tested| - |t0.tested| <= |sites|
    decreases |sites|
  {
    if sites != [] {
      RunFromCounts(t0, sites[..|sites| - 1], ctx);
      var p := RunFrom(t0, sites[..|sites| - 1], ctx);
      if p.Running? {
        AdvanceCounts(p.tally, TestSite(sites[|sites| - 1], ctx, p.tally.tested));
      }
    }
  }

  lemma AdvanceCounts(t: Tally, o: SiteOutcome)
    ensures var u := Advance(t, o).tally;
      && t.succeeded <= u.succeeded && t.failed <= u.failed && t.tested <= u.tested
      && |u.succeeded| - |t.succeeded| + |u.failed| - |t.failed| == |u.tested| - |t.tested| <= 1
  {
  }

  /** The loop's own totals: both lists empty at the start, so the number
      of names is at most the number of selected sites. */
  lemma RunCounts(sites: seq<string>, ctx: Context)
    ensures var t := Run(sites, ctx).tally;
      |t.succeeded| + |t.failed| == |t.tested| <= |sites|
  {
    RunFromCounts(Empty, sites, ctx);
  }

  /** One more site leaves a running loop's lists as they were, or appends
      one name to exactly one of them and records its target. */
  lemma OneSiteAtMostOneName(t0: Tally, sites: seq<string>, site: string, ctx: Context)
    requires RunFrom(t0, sites + [site], ctx).Running?
    ensures RunFrom(t0, sites, ctx).Running?
    ensures var t := RunFrom(t0, sites, ctx).tally; var u := RunFrom(t0, sites + [site], ctx).tally;
      || u == t
      || (exists n :: u == Tally(t.succeeded + [n], t.failed, t.tested + [u.tested[|u.tested| - 1]]))
      || (exists n :: u == Tally(t.succeeded, t.failed + [n], t.tested + [u.tested[|u.tested| - 1]]))
  {
    assert (sites + [site])[..|sites|] == sites;
  }

  /** A site whose descriptor needs an e-mail address or a username the run
      lacks adds nothing, wherever it stands. */
  lemma SkippedTargetAddsNothing(t0: Tally, sites: seq<string>, site: string, ctx: Context)
    requires Populate(ctx.trees(site), ctx.safeUrls).Descriptor?
    requires var b := Populate(ctx.trees(site), ctx.safeUrls).props;
      (Get(b, "username_or_email") == Some(Text("email")) && !Truthy(ctx.creds.email)) ||
      (Get(b, "username_or_email") == Some(Text("username")) && !Truthy(ctx.creds.username))
    ensures RunFrom(t0, sites + [site], ctx) == RunFrom(t0, sites, ctx)
  {
    assert (sites + [site])[..|sites|] == sites;
  }

  /** A site that `populate_site` skips adds nothing. */
  lemma InvalidDescriptorAddsNothing(t0: Tally, sites: seq<string>, site: string, ctx: Context)
    requires Populate(ctx.trees(site), ctx.safeUrls).Skipped?
    ensures RunFrom(t0, sites + [site], ctx) == RunFrom(t0, sites, ctx)
  {
    assert (sites + [site])[..|sites|] == sites;
  }

  // An independent account of a run that no exception ends: which targets
  // are tried, and how their names divide between the two lists.

  /** The targets the run tries, in the order of `sites`: the valid
      descriptors the credentials can serve, with the run's user agent where
      they have none. */
  function Testable(sites: seq<string>, ctx: Context): seq<Bag>
    decreases |sites|
  {
    if sites == [] then []
    else Testable(sites[..|sites| - 1], ctx) + Tried(Populate(ctx.trees(sites[|sites| - 1]), ctx.safeUrls), ctx)
  }

  /** The target one site's outcome adds to the login attempts: none when it
      is skipped or raises, or when its descriptor lacks the identifier. */
  function Tried(d: Populated, ctx: Context): seq<Bag> {
    match d
    case Descriptor(b) => if LacksIdentifier(b, ctx.creds) then [] else [WithUserAgent(b, ctx.userAgent)]
    case _ => []
  }

  /** The login executor's verdict on the `k`-th target tried. */
  function Verdict(ctx: Context, tried: seq<Bag>, k: nat): bool
    requires k < |tried|
  {
    ctx.login(Attempt(ctx.transport, ctx.creds, tried[..k], tried[k]))
  }

  /** The names of the targets whose verdict is `outcome`, in the order
      they were tried. */
  function NamesWhere(ctx: Context, tried: seq<Bag>, outcome: bool): seq<Name>
    decreases |tried|
  {
    if tried == [] then []
    else
      var rest := NamesWhere(ctx, tried[..|tried| - 1], outcome);
      if Verdict(ctx, tried, |tried| - 1) == outcome then rest + [Get(tried[|tried| - 1], "name")] else rest
  }

  /** No site's descriptor raises an exception. */
  predicate NoneRaises(sites: seq<string>, ctx: Context) {
    forall k :: 0 <= k < |sites| ==> !Populate(ctx.trees(sites[k]), ctx.safeUrls).Raised?
  }

  /** The lists the reference account gives for `sites`. */
  function Reference(sites: seq<string>, ctx: Context): Tally {
    Tallied(Testable(sites, ctx), ctx)
  }

  /** The lists that the attempts `tried` leave, split by the executor's verdict. */
  function Tallied(tried: seq<Bag>, ctx: Context): Tally {
    Tally(NamesWhere(ctx, tried, true), NamesWhere(ctx, tried, false), tried)
  }

  /** A run that nothing ends early tries exactly the testable targets, in
      order, and its success and failure lists hold the names of the targets
      the executor accepted and refused, in order. */
  lemma {:induction false} RunMatchesReference(sites: seq<string>, ctx: Context)
    requires NoneRaises(sites, ctx)
    ensures Run(sites, ctx) == Running(Reference(sites, ctx))
    decreases |sites|
  {
    if sites != [] {
      var init := sites[..|sites| - 1];
      assert NoneRaises(init, ctx) by {
        forall k | 0 <= k < |init| ensures !Populate(ctx.trees(init[k]), ctx.safeUrls).Raised? {
          assert init[k] == sites[k];
        }
      }
      RunMatchesReference(init, ctx);
      ReferenceStep(init, sites[|sites| - 1], ctx);
      assert init + [sites[|sites| - 1]] == sites;
    }
  }

  /** One more site that does not raise moves the run and the reference
      account alike. */
  lemma ReferenceStep(init: seq<string>, site: string, ctx: Context)
    requires Run(init, ctx) == Running(Reference(init, ctx))
    requires !Populate(ctx.trees(site), ctx.safeUrls).Raised?
    ensures Run(init + [site], ctx) == Running(Reference(init + [site], ctx))
  {
    var sites := init + [site];
    assert sites[..|sites| - 1] == init && sites[|sites| - 1] == site;
    var before := Testable(init, ctx);
    var d := Populate(ctx.trees(site), ctx.safeUrls);
    assert Run(sites, ctx) == Advance(Tallied(before, ctx), Consider(d, ctx, before));
    assert Testable(sites, ctx) == before + Tried(d, ctx);
    ConsiderMatches(before, d, ctx);
  }

  /** Handling one outcome that raises nothing extends the lists exactly as
      adding its target to the attempts does. */
  lemma ConsiderMatches(before: seq<Bag>, d: Populated, ctx: Context)
    requires !d.Raised?
    ensures Advance(Tallied(before, ctx), Consider(d, ctx, before)) == Running(Tallied(before + Tried(d, ctx), ctx))
  {
    match d
    case Descriptor(b) =>
      if !LacksIdentifier(b, ctx.creds) {
        var target := WithUserAgent(b, ctx.userAgent);
        NamesWhereAppend(ctx, before, target, true);
        NamesWhereAppend(ctx, before, target, false);
      } else {
        assert before + Tried(d, ctx) == before;
      }
    case Skipped(_) =>
      assert before + Tried(d, ctx) == before;
  }

  lemma NamesWhereAppend(ctx: Context, before: seq<Bag>, target: Bag, outcome: bool)
    ensures NamesWhere(ctx, before + [target], outcome) ==
      NamesWhere(ctx, before, outcome) +
      (if ctx.login(Attempt(ctx.transport, ctx.creds, before, target)) == outcome then [Get(target, "name")] else [])
  {
    var tried := before + [target];
    assert tried[..|tried| - 1] == before;
  }

  /** The first site (at index `k`) whose descriptor raises an exception
      ends the run with that exception and the lists as the sites before it
      left them. */
  lemma RunAbortsAtFirstRaise(sites: seq<string>, k: nat, ctx: Context)
    requires k < |sites| && Populate(ctx.trees(sites[k]), ctx.safeUrls).Raised?
    requires NoneRaises(sites[..k], ctx)
    ensures Run(sites, ctx) == Aborted(Populate(ctx.trees(sites[k]), ctx.safeUrls).error, Run(sites[..k], ctx).tally)
  {
    RunMatchesReference(sites[..k], ctx);
    assert sites[..k + 1][..k] == sites[..k];
    AbortPersists(Empty, sites, k + 1, ctx);
  }

  /** A run that no exception ends is never reported as aborted, and an
      aborted run is one in which some descriptor raised. */
  lemma {:induction false} AbortedIffSomeRaises(sites: seq<string>, ctx: Context)
    ensures Run(sites, ctx).Aborted? <==> !NoneRaises(sites, ctx)
    decreases |sites|
  {
    if NoneRaises(sites, ctx) {
      RunMatchesReference(sites, ctx);
    } else {
      var k :| 0 <= k < |sites| && Populate(ctx.trees(sites[k]), ctx.safeUrls).Raised?;
      var first := FirstRaise(sites, ctx, k);
      RunAbortsAtFirstRaise(sites, first, ctx);
    }
  }

  /** The smallest index at or below `k` whose descriptor raises. */
  lemma {:induction false} FirstRaise(sites: seq<string>, ctx: Context, k: nat) returns (first: nat)
    requires k < |sites| && Populate(ctx.trees(sites[k]), ctx.safeUrls).Raised?
    ensures first <= k && Populate(ctx.trees(sites[first]), ctx.safeUrls).Raised?
    ensures NoneRaises(sites[..first], ctx)
    decreases k
  {
    if NoneRaises(sites[..k], ctx) {
      first := k;
    } else {
      var j :| 0 <= j < k && Populate(ctx.trees(sites[..k][j]), ctx.safeUrls).Raised?;
      assert sites[..k][j] == sites[j];
      first := FirstRaise(sites, ctx, j);
    }
  }

  // The report printed after the loop.

  /** The percentage line: Python 2's `100 * len(login_sucessful) /
      len(sites)`, a floor division, which raises ZeroDivisionError on an
      empty site list. */
  datatype RateLine = Rate(percent: int) | ZeroDivision

  function SuccessRate(succeeded: nat, siteCount: nat): RateLine {
    if siteCount == 0 then ZeroDivision else Rate(100 * succeeded / siteCount)
  }

  /** The line naming the sites the credentials worked on: absent when
      none did; otherwise `", ".join` of the names, which raises TypeError,
      ending `main` there, when a name is not a string (a target without a
      `name` entry reads as None). */
  datatype WorkedLine = NoneWorked | WorkedOn(names: seq<string>) | JoinRaised(error: Exception)

  /** A name that `", ".join` accepts. */
  predicate IsTextName(n: Name) {
    n.Some? && n.value.Text?
  }

  /** `", ".join(names)`, keeping the joined strings apart: the TypeError of
      the first name that is not a string, or the strings. */
  function JoinNames(ns: seq<Name>): Result<seq<string>, Exception>
    decreases |ns|
  {
    if ns == [] then Ok([])
    else if !IsTextName(ns[0]) then Err(TypeError)
    else
      match JoinNames(ns[1..])
      case Err(e) => Err(e)
      case Ok(rest) => Ok([ns[0].value.text] + rest)
  }

  /** The join succeeds exactly when every name is a string, and then
      yields those strings in order; otherwise it raises TypeError. */
  lemma {:induction false} JoinNamesSpec(ns: seq<Name>)
    ensures JoinNames(ns).Ok? <==> forall k :: 0 <= k < |ns| ==> IsTextName(ns[k])
    ensures JoinNames(ns).Err? ==> JoinNames(ns).error == TypeError
    ensures JoinNames(ns).Ok? ==>
      |JoinNames(ns).value| == |ns| && forall k :: 0 <= k < |ns| ==> ns[k] == Some(Text(JoinNames(ns).value[k]))
    decreases |ns|
  {
    if ns != [] {
      JoinNamesSpec(ns[1..]);
      assert forall k :: 1 <= k < |ns| ==> ns[k] == ns[1..][k - 1];
      if IsTextName(ns[0]) && JoinNames(ns[1..]).Ok? {
        var r := JoinNames(ns).value;
        assert forall k :: 1 <= k < |ns| ==> r[k] == JoinNames(ns[1..]).value[k - 1];
      }
    }
  }

  /** The two totals lines, printed only when something was tried, and the
      line naming the sites the credentials worked on. */
  datatype Report = Report(totals: Option<(nat, nat)>, rate: Option<RateLine>, worked: WorkedLine)

  function MakeReport(t: Tally, siteCount: nat): Report {
    var tried := |t.succeeded| + |t.failed|;
    var worked :=
      if t.succeeded == [] then NoneWorked
      else match JoinNames(t.succeeded)
        case Ok(names) => WorkedOn(names)
        case Err(e) => JoinRaised(e);
    if tried > 0 then Report(Some((|t.succeeded|, tried)), Some(SuccessRate(|t.succeeded|, siteCount)), worked)
    else Report(None, None, worked)
  }

  /** The percentage is never a division by zero and lies between 0 and
      100 when at least `succeeded` sites were selected. */
  lemma RateBounds(succeeded: nat, siteCount: nat)
    requires succeeded <= siteCount && siteCount > 0
    ensures SuccessRate(succeeded, siteCount).Rate?
    ensures 0 <= SuccessRate(succeeded, siteCount).percent <= 100
    ensures SuccessRate(succeeded, siteCount).percent * siteCount <= 100 * succeeded
    ensures 100 * succeeded < (SuccessRate(succeeded, siteCount).percent + 1) * siteCount
  {
    var p := 100 * succeeded / siteCount;
    assert p * siteCount <= 100 * succeeded < (p + 1) * siteCount;
  }

  /** The report of a run: the totals add up to the sites tried; the rate
      is printed exactly when something was tried, and is then the floor of
      `100 * succeeded / len(sites)`, over all the selected sites, a
      percentage in 0..100; and
      the worked-on line is absent when nothing worked, lists the success
      names in order when all are strings, and raises TypeError when one is
      not. */
  lemma ReportOfRun(sites: seq<string>, ctx: Context)
    requires Run(sites, ctx).Running?
    ensures var t := Run(sites, ctx).tally; var r := MakeReport(t, |sites|);
      && (r.totals.Some? <==> |t.tested| > 0)
      && (r.totals.Some? ==> r.totals.value == (|t.succeeded|, |t.tested|))
      && (r.rate.Some? <==> |t.tested| > 0)
      && (r.rate.Some? ==> r.rate.value.Rate? && 0 <= r.rate.value.percent <= 100)
      && (r.rate.Some? ==>
            r.rate.value.percent * |sites| <= 100 * |t.succeeded| < (r.rate.value.percent + 1) * |sites|)
      && (r.worked == NoneWorked <==> t.succeeded == [])
      && (r.worked.JoinRaised? <==> exists k :: 0 <= k < |t.succeeded| && !IsTextName(t.succeeded[k]))
      && (r.worked.JoinRaised? ==> r.worked.error == TypeError)
      && (r.worked.WorkedOn? ==>
            |r.worked.names| == |t.succeeded| &&
            forall k :: 0 <= k < |t.succeeded| ==> t.succeeded[k] == Some(Text(r.worked.names[k])))
  {
    var t := Run(sites, ctx).tally;
    RunCounts(sites, ctx);
    JoinNamesSpec(t.succeeded);
    if |t.tested| > 0 {
      RateBounds(|t.succeeded|, |sites|);
    }
  }

  /** A target that the executor accepts but whose descriptor has no `name`
      entry puts None on the success list, so in a run that nothing ends
      early the final join raises TypeError instead of naming the sites. */
  lemma NamelessSuccessBreaksReport(sites: seq<string>, ctx: Context, k: nat)
    requires NoneRaises(sites, ctx)
    requires k < |Testable(sites, ctx)| && Verdict(ctx, Testable(sites, ctx), k)
    requires "name" !in Testable(sites, ctx)[k]
    ensures MakeReport(Run(sites, ctx).tally, |sites|).worked == JoinRaised(TypeError)
  {
    var tried := Testable(sites, ctx);
    RunMatchesReference(sites, ctx);
    NoneAmongAccepted(ctx, tried, k);
    var j :| 0 <= j < |NamesWhere(ctx, tried, true)| && NamesWhere(ctx, tried, true)[j] == None;
    JoinNamesSpec(NamesWhere(ctx, tried, true));
  }

  /** The success names include the `k`-th target's name when the executor
      accepts it. */
  lemma {:induction false} NoneAmongAccepted(ctx: Context, tried: seq<Bag>, k: nat)
    requires k < |tried| && Verdict(ctx, tried, k) && "name" !in tried[k]
    ensures exists j :: 0 <= j < |NamesWhere(ctx, tried, true)| && NamesWhere(ctx, tried, true)[j] == None
    decreases |tried|
  {
    var init := tried[..|tried| - 1];
    var rest := NamesWhere(ctx, init, true);
    if k == |tried| - 1 {
      assert NamesWhere(ctx, tried, true) == rest + [None];
      assert NamesWhere(ctx, tried, true)[|rest|] == None;
    } else {
      assert init[..k] == tried[..k] && init[k] == tried[k];
      assert Verdict(ctx, init, k);
      NoneAmongAccepted(ctx, init, k);
      var j :| 0 <= j < |rest| && rest[j] == None;
      assert NamesWhere(ctx, tried, true)[j] == rest[j];
    }
  }

  /** The printed rate is taken over the selected sites, not over the sites
      tried: a run with 3 successes and 2 failures reports 60 when 5 sites
      were selected, but 30 when 10 were, 5 of them dropped before any
      login. */
  lemma RateUsesSelectedSites(t: Tally)
    requires |t.succeeded| == 3 && |t.failed| == 2
    ensures MakeReport(t, 5).rate == Some(Rate(60))
    ensures MakeReport(t, 10).rate == Some(Rate(30))
  {
  }

  // The session as a whole.

  /** The options `main` reads. */
  datatype Options = Options(
    list: bool,
    ignoreProxy: bool,
    proxy: Option<string>,
    only: Option<string>,
    exclude: Option<string>,
    safeUrls: bool,
    creds: Credentials,
    userAgent: string)

  /** How `main` ends: listing the sites, rejecting the proxy string, with
      an exception escaping the loop, or with a report. */
  datatype SessionOutcome =
    | Listed(sites: seq<string>)
    | ProxyRejected
    | Crashed(error: Exception, tally: Tally)
    | Completed(selected: seq<string>, tally: Tally, report: Report)

  function Session(opts: Options, entries: seq<DirEntry>, trees: string -> Option<Element>, login: Attempt -> bool): SessionOutcome {
    if opts.list then Listed(ListSites(entries, false))
    else
      var transport := ConfigureTransport(opts.ignoreProxy, opts.proxy);
      if transport == BadProxyFormat then ProxyRejected
      else
        var sites := SelectSites(ListSites(entries, false), opts.only, opts.exclude);
        var ctx := Context(trees, opts.safeUrls, opts.creds, opts.userAgent, transport, login);
        match Run(sites, ctx)
        case Aborted(e, t) => Crashed(e, t)
        case Running(t) => Completed(sites, t, MakeReport(t, |sites|))
  }

  /** `main` after option parsing: the steps in the order credmap.py takes
      them. */
  method RunSession(opts: Options, entries: seq<DirEntry>, trees: string -> Option<Element>, login: Attempt -> bool)
    returns (outcome: SessionOutcome)
    ensures outcome == Session(opts, entries, trees, login)
  {
    if opts.list {
      return Listed(ListSites(entries, false));
    }
    var transport := ConfigureTransport(opts.ignoreProxy, opts.proxy);
    if transport == BadProxyFormat {
      return ProxyRejected;
    }
    var sites := SelectSites(ListSites(entries, false), opts.only, opts.exclude);
    var ctx := Context(trees, opts.safeUrls, opts.creds, opts.userAgent, transport, login);
    var tester := new Tester();
    var crash := tester.TestSites(sites, ctx);
    if crash.Some? {
      return Crashed(crash.value, tester.Current());
    }
    outcome := Completed(sites, tester.Current(), MakeReport(tester.Current(), |sites|));
  }

  /** A proxy string with no `scheme://address:port` text in it ends the
      run before any site is tried, whatever the sites are. */
  lemma BadProxyStopsBeforeTesting(opts: Options, entries: seq<DirEntry>, trees: string -> Option<Element>, login: Attempt -> bool)
    requires !opts.list && !opts.ignoreProxy && opts.proxy.Some? && opts.proxy.value != ""
    requires forall k: nat, pm :: !StandsAt(opts.proxy.value, k, pm)
    ensures Session(opts, entries, trees, login) == ProxyRejected
  {
    BadProxyFormatIff(opts.proxy.value);
  }

  /** A completed session only ever tries the selected sites' targets, and
      its report is sound. */
  lemma CompletedSessionReport(opts: Options, entries: seq<DirEntry>, trees: string -> Option<Element>, login: Attempt -> bool)
    requires Session(opts, entries, trees, login).Completed?
    ensures var s := Session(opts, entries, trees, login);
      && IsSubsequence(s.selected, ListSites(entries, false))
      && |s.tally.succeeded| + |s.tally.failed| <= |s.selected|
      && (s.report.rate.Some? ==> s.report.rate.value.Rate? && 0 <= s.report.rate.value.percent <= 100)
  {
    var transport := ConfigureTransport(opts.ignoreProxy, opts.proxy);
    var sites := SelectSites(ListSites(entries, false), opts.only, opts.exclude);
    var ctx := Context(trees, opts.safeUrls, opts.creds, opts.userAgent, transport, login);
    SelectSitesSpec(ListSites(entries, false), opts.only, opts.exclude);
    RunCounts(sites, ctx);
    ReportOfRun(sites, ctx);
  }
}
