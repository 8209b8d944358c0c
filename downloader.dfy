/** The downloader of modules/downloader.py: routing a shared link to the
    marketplace flow that matches it, the two browser flows (log in, open the
    asset, find the download trigger, save the file) and the browser session's
    lifetime around them.

    The browser is an oracle.  A `Page` says which elements each locator
    matches and whether each is visible, which file name the browser suggests
    for the download, and at which positions of the session's action log an
    action raises.  `Session` is the live browser: it records every action in
    `log`.  Pure functions (`FreepikSpec`, `EnvatoSpec`, `DownloadSpec`) give
    the behaviour of each operation as a value; the methods of `Downloader`
    are proved to behave exactly as those functions say. */
module Downloader {
  import opened Common

  // ---------------------------------------------------------------------------
  // Routing by URL substring
  // ---------------------------------------------------------------------------

  const FreepikDomain: string := "freepik.com"
  const EnvatoDomain: string := "elements.envato.com"

  datatype Site = Freepik | Envato | Unsupported

  /** Python's `sub in s` on strings, computed by scanning. */
  predicate Contains(s: string, sub: string)
    decreases |s|
  {
    |sub| <= |s| && (s[..|sub|] == sub || Contains(s[1..], sub))
  }

  /** Reference meaning of a substring test: `sub` sits in `s` at offset `i`. */
  ghost predicate OccursAt(s: string, sub: string, i: int)
  {
    0 <= i && i + |sub| <= |s| && s[i..i + |sub|] == sub
  }

  lemma {:induction false} OccursImpliesContains(s: string, sub: string, i: int)
    requires OccursAt(s, sub, i)
    ensures Contains(s, sub)
    decreases i
  {
    if i > 0 {
      assert s[1..][i - 1..i - 1 + |sub|] == s[i..i + |sub|];
      OccursImpliesContains(s[1..], sub, i - 1);
    }
  }

  lemma {:induction false} ContainsImpliesOccurs(s: string, sub: string) returns (i: int)
    requires Contains(s, sub)
    ensures OccursAt(s, sub, i)
    decreases |s|
  {
    if s[..|sub|] == sub {
      i := 0;
    } else {
      var j := ContainsImpliesOccurs(s[1..], sub);
      assert s[1..][j..j + |sub|] == s[j + 1..j + 1 + |sub|];
      i := j + 1;
    }
  }

  /** The scanning test agrees with the reference meaning. */
  lemma ContainsIffOccurs(s: string, sub: string)
    ensures Contains(s, sub) <==> exists i :: OccursAt(s, sub, i)
  {
    if Contains(s, sub) {
      var i := ContainsImpliesOccurs(s, sub);
    }
    forall i | OccursAt(s, sub, i) ensures Contains(s, sub) {
      OccursImpliesContains(s, sub, i);
    }
  }

  /** The dispatch of `download_file`: the Freepik test comes first, so a link
      that mentions both domains goes to Freepik. */
  function Route(url: string): (r: Site)
    ensures r == Freepik <==> exists i :: OccursAt(url, FreepikDomain, i)
    ensures r == Envato <==>
      (forall i :: !OccursAt(url, FreepikDomain, i)) && exists i :: OccursAt(url, EnvatoDomain, i)
    ensures r == Unsupported <==>
      (forall i :: !OccursAt(url, FreepikDomain, i)) && (forall i :: !OccursAt(url, EnvatoDomain, i))
  {
    ContainsIffOccurs(url, FreepikDomain);
    ContainsIffOccurs(url, EnvatoDomain);
    if Contains(url, FreepikDomain) then Freepik
    else if Contains(url, EnvatoDomain) then Envato
    else Unsupported
  }

  /** A link that names both marketplaces is still a Freepik job. */
  lemma FreepikBeforeEnvato(url: string)
    requires exists i :: OccursAt(url, FreepikDomain, i)
    requires exists i :: OccursAt(url, EnvatoDomain, i)
    ensures Route(url) == Freepik
  {
  }

  /** For instance, an asset page whose query mentions Envato. */
  lemma MixedLinkExample()
    ensures Route("https://www." + FreepikDomain + "/item/123?ref=" + EnvatoDomain) == Freepik
  {
    var url := "https://www." + FreepikDomain + "/item/123?ref=" + EnvatoDomain;
    assert url[12..12 + |FreepikDomain|] == FreepikDomain;
    assert url[37..37 + |EnvatoDomain|] == EnvatoDomain;
    assert OccursAt(url, FreepikDomain, 12) && OccursAt(url, EnvatoDomain, 37);
    FreepikBeforeEnvato(url);
  }

  // ---------------------------------------------------------------------------
  // os.path.join
  // ---------------------------------------------------------------------------

  /** POSIX `os.path.join(dir, name)` for two components. */
  function Join(dir: string, name: string): string
  {
    if |name| > 0 && name[0] == '/' then name
    else if dir == [] || dir[|dir| - 1] == '/' then dir + name
    else dir + "/" + name
  }

  /** A joined path ends with the file name; unless the name is absolute it
      starts with the directory, and a separator is inserted only when the
      directory does not already end with one. */
  lemma JoinShape(dir: string, name: string)
    ensures var r := Join(dir, name);
      && |r| >= |name| && r[|r| - |name|..] == name
      && (|name| > 0 && name[0] == '/' ==> r == name)
      && (!(|name| > 0 && name[0] == '/') ==> |dir| <= |r| && r[..|dir|] == dir)
      && (dir != [] && dir[|dir| - 1] != '/' && !(|name| > 0 && name[0] == '/') ==>
            |r| == |dir| + 1 + |name| && r[|dir|] == '/')
  {
  }

  // ---------------------------------------------------------------------------
  // The browser as an oracle
  // ---------------------------------------------------------------------------

  /** The page elements the flows address; `Css` gives each one's selector. */
  datatype Locator =
    | CookieBanner | FreepikEmail | FreepikPassword | SubmitButton
    | FreepikDownloadButton | FreepikDownloadFile | FreepikDownloadLink | FreepikDownloadText
    | EnvatoUsername | EnvatoPassword | EnvatoDownload | EnvatoConfirm

  function Css(l: Locator): string
  {
    match l
    case CookieBanner => "#onetrust-accept-btn-handler"
    case FreepikEmail => "input[name=\"email\"]"
    case FreepikPassword => "input[name=\"password\"]"
    case SubmitButton => "button[type=\"submit\"]"
    case FreepikDownloadButton => "button.download-button"
    case FreepikDownloadFile => "button#download-file"
    case FreepikDownloadLink => "a.download-button"
    case FreepikDownloadText => "text=Download"
    case EnvatoUsername => "#username"
    case EnvatoPassword => "#password"
    case EnvatoDownload => "button:has-text(\"Download\")"
    case EnvatoConfirm => "button:has-text(\"Add & Download\"), button:has-text(\"Download\")"
  }

  /** Distinct locators stand for distinct selectors, so the oracle's answers
      per locator are answers per selector of the source. */
  lemma CssInjective(a: Locator, b: Locator)
    ensures Css(a) == Css(b) ==> a == b
  {
  }

  /** A page the flows navigate to: a marketplace's sign-in page
      (https://www.freepik.com/login, https://elements.envato.com/sign-in)
      or the asset link itself. */
  datatype Address = LoginPage(site: Site) | AssetPage(url: string)

  /** What an action addresses: a plain selector (`page.click(sel)`), or the
      first or the last element a locator matches (`.first`, `.last`). */
  datatype Target = Selector(sel: Locator) | FirstOf(locator: Locator) | LastOf(locator: Locator)

  /** One browser interaction. `Launch` stands for launching Chromium and opening
      its context and page; `ClickForDownload` is a click inside
      `expect_download` together with the wait for the download event. */
  datatype Action =
    | Launch
    | Goto(address: Address)
    | Click(target: Target)
    | Fill(field: Locator, value: Option<string>)
    | WaitIdle
    | Probe(target: Target)
    | ClickForDownload(target: Target)
    | SaveAs(path: string)
    | Close

  /** The page oracle: for each locator, the visibility of the elements it
      matches in document order; the browser-suggested file name; and the
      positions in the session's action log whose action raises (a timeout, a
      navigation or login error). */
  datatype Page = Page(matches: map<Locator, seq<bool>>, suggested: string, faults: set<nat>)

  /** `is_visible()` of a target; a locator that matches nothing is not visible. */
  predicate Visible(p: Page, t: Target)
  {
    match t
    case Selector(s) => s in p.matches && |p.matches[s]| > 0 && p.matches[s][0]
    case FirstOf(l) => l in p.matches && |p.matches[l]| > 0 && p.matches[l][0]
    case LastOf(l) => l in p.matches && |p.matches[l]| > 0 && p.matches[l][|p.matches[l]| - 1]
  }

  /** Whether action `a`, issued at log position `pos`, raises: an oracle fault,
      or a `fill` with a missing credential (Playwright wants a string).
      Closing the browser never raises. */
  predicate RaisesAt(p: Page, pos: nat, a: Action)
  {
    !a.Close? && (pos in p.faults || (a.Fill? && a.value.None?))
  }

  /** Actions a site flow may issue (it never launches or closes the browser). */
  predicate InFlow(a: Action)
  {
    !a.Launch? && !a.Close?
  }

  /** Email and password of one marketplace, as configured (either may be absent). */
  datatype Credentials = Credentials(email: Option<string>, password: Option<string>)

  /** A `fill` types only one of the given marketplace's credentials. */
  predicate OwnFill(a: Action, c: Credentials)
  {
    a.Fill? ==> a.value == c.email || a.value == c.password
  }

  /** The live browser session of one `download_file` call. */
  class Session {
    const page: Page
    var open: bool
    var log: seq<Action>

    constructor (page: Page)
      ensures this.page == page && !open && log == []
    {
      this.page := page;
      open := false;
      log := [];
    }

    method Launch() returns (ok: bool)
      requires !open
      modifies this
      ensures log == old(log) + [Action.Launch]
      ensures ok == !RaisesAt(page, |old(log)|, Action.Launch) && open == ok
    {
      ok := !RaisesAt(page, |log|, Action.Launch);
      log := log + [Action.Launch];
      open := ok;
    }

    /** Issues one page action; `ok` is false when it raised. */
    method Perform(a: Action) returns (ok: bool)
      requires open && InFlow(a)
      modifies this
      ensures open && log == old(log) + [a]
      ensures ok == !RaisesAt(page, |old(log)|, a)
    {
      ok := !RaisesAt(page, |log|, a);
      log := log + [a];
    }

    /** `is_visible()` of a target; `ok` is false when the probe raised. */
    method IsVisible(t: Target) returns (ok: bool, visible: bool)
      requires open
      modifies this
      ensures open && log == old(log) + [Probe(t)]
      ensures ok == !RaisesAt(page, |old(log)|, Probe(t))
      ensures visible == Visible(page, t)
    {
      ok := !RaisesAt(page, |log|, Probe(t));
      visible := Visible(page, t);
      log := log + [Probe(t)];
    }

    method Close()
      requires open
      modifies this
      ensures !open && log == old(log) + [Action.Close]
    {
      log := log + [Action.Close];
      open := false;
    }
  }

  // ---------------------------------------------------------------------------
  // Site flows as functions
  // ---------------------------------------------------------------------------

  /** The Freepik download triggers, in the order they are tried. */
  const FreepikSelectors: seq<Locator> :=
    [FreepikDownloadButton, FreepikDownloadFile, FreepikDownloadLink, FreepikDownloadText]

  const LaunchError: string := "browser launch failed"

  /** How a site flow ends: it returns a saved path, returns `None`, or raises. */
  datatype FlowOut = Saved(path: string) | Missing | Faulted

  /** A flow's ending with the actions it issued. The flows are evaluated at a
      `base` position of the session log, so that the action `acts[i]` sits at
      log position `base + i`. */
  datatype Run = Run(out: FlowOut, acts: seq<Action>)

  /** A straight-line run of awaited actions: `ok` turns false at the first raise. */
  datatype Trace = Trace(ok: bool, acts: seq<Action>)

  function Do(p: Page, base: nat, t: Trace, a: Action): Trace
  {
    if !t.ok then t else Trace(!RaisesAt(p, base + |t.acts|, a), t.acts + [a])
  }

  /** The last issued action raised. */
  predicate LastRaised(p: Page, base: nat, acts: seq<Action>)
  {
    acts != [] && RaisesAt(p, base + |acts| - 1, acts[|acts| - 1])
  }

  /** A raise at the end of a run stays the last action once earlier actions are
      put in front of it. */
  lemma LastRaisedShift(p: Page, base: nat, pre: seq<Action>, acts: seq<Action>)
    requires LastRaised(p, base + |pre|, acts)
    ensures LastRaised(p, base, pre + acts)
  {
    assert (pre + acts)[|pre + acts| - 1] == acts[|acts| - 1];
  }

  /** The actions a Freepik login issues when nothing raises. */
  function FreepikLoginActions(c: Credentials, url: string): seq<Action>
  {
    [Goto(LoginPage(Freepik)), Click(Selector(CookieBanner)),
     Fill(FreepikEmail, c.email), Fill(FreepikPassword, c.password),
     Click(Selector(SubmitButton)), WaitIdle, Goto(AssetPage(url))]
  }

  /** Log in to Freepik and open the asset page; the click on the cookie banner
      may raise without ending the flow. */
  function FreepikLogin(p: Page, c: Credentials, url: string, base: nat): Trace
  {
    var t1 := Do(p, base, Trace(true, []), Goto(LoginPage(Freepik)));
    var t2 := if t1.ok then Trace(true, t1.acts + [Click(Selector(CookieBanner))]) else t1;
    var t3 := Do(p, base, t2, Fill(FreepikEmail, c.email));
    var t4 := Do(p, base, t3, Fill(FreepikPassword, c.password));
    var t5 := Do(p, base, t4, Click(Selector(SubmitButton)));
    var t6 := Do(p, base, t5, WaitIdle);
    Do(p, base, t6, Goto(AssetPage(url)))
  }

  /** The Freepik login issues a prefix of its intended actions, all of them
      exactly when the sign-in page, both fills (so both credentials must be
      present), the submit, the wait and the asset page succeed (a raise of the
      cookie-banner click does not matter), and otherwise stops right after the
      action that raised. */
  lemma FreepikLoginFacts(p: Page, c: Credentials, url: string, base: nat)
    ensures var r := FreepikLogin(p, c, url, base);
      && r.acts <= FreepikLoginActions(c, url)
      && (r.ok ==> r.acts == FreepikLoginActions(c, url))
      && (!r.ok ==> LastRaised(p, base, r.acts))
      // nothing before the last action raised, except the swallowed cookie click
      && (forall j :: 0 <= j < |r.acts| - 1 && j != 1 ==> !RaisesAt(p, base + j, r.acts[j]))
      && (r.ok <==>
            base !in p.faults && (forall i :: base + 2 <= i < base + 7 ==> i !in p.faults)
            && c.email.Some? && c.password.Some?)
  {
    FreepikLoginPrefix(p, c, url, base);
    FreepikLoginOk(p, c, url, base);
  }

  lemma FreepikLoginPrefix(p: Page, c: Credentials, url: string, base: nat)
    ensures var r := FreepikLogin(p, c, url, base);
      && r.acts <= FreepikLoginActions(c, url)
      && (r.ok ==> r.acts == FreepikLoginActions(c, url))
      && (!r.ok ==> LastRaised(p, base, r.acts))
      && (forall j :: 0 <= j < |r.acts| - 1 && j != 1 ==> !RaisesAt(p, base + j, r.acts[j]))
  {
  }

  lemma FreepikLoginOk(p: Page, c: Credentials, url: string, base: nat)
    ensures FreepikLogin(p, c, url, base).ok <==>
      base !in p.faults && (forall i :: base + 2 <= i < base + 7 ==> i !in p.faults)
      && c.email.Some? && c.password.Some?
  {
  }

  /** Reference definition of the probe: the index of the first visible
      trigger, or `|sels|` when none is visible. */
  function FirstVisible(p: Page, sels: seq<Locator>): (k: nat)
    ensures k <= |sels|
    ensures forall j :: 0 <= j < k ==> !Visible(p, FirstOf(sels[j]))
    ensures k < |sels| ==> Visible(p, FirstOf(sels[k]))
  {
    if sels == [] then 0
    else if Visible(p, FirstOf(sels[0])) then 0
    else 1 + FirstVisible(p, sels[1..])
  }

  /** The visibility probes of `sels`, in list order. */
  function Probes(sels: seq<Locator>): (r: seq<Action>)
    ensures |r| == |sels|
    ensures forall i :: 0 <= i < |sels| ==> r[i] == Probe(FirstOf(sels[i]))
  {
    seq(|sels|, i requires 0 <= i < |sels| => Probe(FirstOf(sels[i])))
  }

  /** The actions of a download trigger hit: the click that starts the
      download, and saving it under the suggested name in `dir`. */
  function FetchActions(p: Page, dir: string, t: Target): seq<Action>
  {
    [ClickForDownload(t), SaveAs(Join(dir, p.suggested))]
  }

  /** The actions of a fault-free probe of `sels`, defined from `FirstVisible`:
      every trigger up to the first visible one is probed, and only that one is
      clicked. */
  function IdealProbe(p: Page, dir: string, sels: seq<Locator>): seq<Action>
  {
    var k := FirstVisible(p, sels);
    if k < |sels| then Probes(sels[..k + 1]) + FetchActions(p, dir, FirstOf(sels[k]))
    else Probes(sels)
  }

  /** The result of a fault-free probe of `sels`. */
  function IdealOut(p: Page, dir: string, sels: seq<Locator>): FlowOut
  {
    if FirstVisible(p, sels) < |sels| then Saved(Join(dir, p.suggested)) else Missing
  }

  /** Unfolding `IdealProbe` by one trigger. */
  lemma IdealProbeStep(p: Page, dir: string, sels: seq<Locator>)
    requires sels != []
    ensures IdealProbe(p, dir, sels) ==
      [Probe(FirstOf(sels[0]))] +
      (if Visible(p, FirstOf(sels[0])) then FetchActions(p, dir, FirstOf(sels[0]))
       else IdealProbe(p, dir, sels[1..]))
  {
    var k := FirstVisible(p, sels);
    if !Visible(p, FirstOf(sels[0])) {
      var k' := FirstVisible(p, sels[1..]);
      assert k == k' + 1;
      if k < |sels| {
        assert sels[..k + 1] == [sels[0]] + sels[1..][..k' + 1];
        assert Probes(sels[..k + 1]) == [Probe(FirstOf(sels[0]))] + Probes(sels[1..][..k' + 1]);
      } else {
        assert Probes(sels) == [Probe(FirstOf(sels[0]))] + Probes(sels[1..]);
      }
    } else {
      assert Probes(sels[..1]) == [Probe(FirstOf(sels[0]))];
    }
  }

  /** The fault-free probe issues only page actions and no `fill`. */
  lemma IdealProbeActs(p: Page, dir: string, sels: seq<Locator>)
    ensures forall a :: a in IdealProbe(p, dir, sels) ==> InFlow(a) && !a.Fill?
    ensures |IdealProbe(p, dir, sels)| <= |sels| + 2
  {
    var k := FirstVisible(p, sels);
    var ideal := IdealProbe(p, dir, sels);
    forall a | a in ideal ensures InFlow(a) && !a.Fill? {
      if k < |sels| {
        var pr := Probes(sels[..k + 1]);
        if a in pr {
          var i :| 0 <= i < |pr| && pr[i] == a;
        }
      } else {
        var i :| 0 <= i < |sels| && Probes(sels)[i] == a;
      }
    }
  }

  /** The index of the first action of `acts`, issued from log position
      `base` on, that raises; `|acts|` when none does. */
  function FirstRaise(p: Page, base: nat, acts: seq<Action>): (k: nat)
    ensures k <= |acts|
    ensures forall j :: 0 <= j < k ==> !RaisesAt(p, base + j, acts[j])
    ensures k < |acts| ==> RaisesAt(p, base + k, acts[k])
    decreases |acts|
  {
    if acts == [] then 0
    else if RaisesAt(p, base, acts[0]) then 0
    else 1 + FirstRaise(p, base + 1, acts[1..])
  }

  /** Running the intended actions `ideal` from log position `base`: the run
      stops right after the first action that raises, and otherwise ends with
      `out`. */
  function Settle(p: Page, base: nat, ideal: seq<Action>, out: FlowOut): Run
  {
    var k := FirstRaise(p, base, ideal);
    if k < |ideal| then Run(Faulted, ideal[..k + 1]) else Run(out, ideal)
  }

  /** What a settled run promises: its actions are a prefix of the intended
      ones, all of them with the intended result unless an action raised, and
      a raise comes from the last action it issued. */
  lemma SettleFacts(p: Page, base: nat, ideal: seq<Action>, out: FlowOut)
    requires out != Faulted
    ensures var r := Settle(p, base, ideal, out);
      && r.acts <= ideal
      && (r.out != Faulted ==> r.out == out && r.acts == ideal)
      && (r.out == Faulted <==> FirstRaise(p, base, ideal) < |ideal|)
      && (r.out == Faulted ==> LastRaised(p, base, r.acts))
  {
  }

  lemma SettleCons(p: Page, base: nat, a: Action, ideal: seq<Action>, out: FlowOut)
    ensures Settle(p, base, [a] + ideal, out) ==
      if RaisesAt(p, base, a) then Run(Faulted, [a])
      else var r := Settle(p, base + 1, ideal, out); Run(r.out, [a] + r.acts)
  {
    var s := [a] + ideal;
    assert s[1..] == ideal;
    if RaisesAt(p, base, a) {
      assert s[..1] == [a];
    } else {
      var k := FirstRaise(p, base + 1, ideal);
      if k < |ideal| {
        assert s[..k + 2] == [a] + ideal[..k + 1];
      }
    }
  }

  /** Click the trigger and save the download (the lines both flows share). */
  function Fetch(p: Page, dir: string, base: nat, t: Target): Run
  {
    var path := Join(dir, p.suggested);
    if base in p.faults then Run(Faulted, [ClickForDownload(t)])
    else if base + 1 in p.faults then Run(Faulted, [ClickForDownload(t), SaveAs(path)])
    else Run(Saved(path), [ClickForDownload(t), SaveAs(path)])
  }

  lemma FetchSettles(p: Page, dir: string, base: nat, t: Target)
    ensures Fetch(p, dir, base, t) == Settle(p, base, FetchActions(p, dir, t), Saved(Join(dir, p.suggested)))
  {
    var path := Join(dir, p.suggested);
    SettleCons(p, base, ClickForDownload(t), [SaveAs(path)], Saved(path));
    SettleCons(p, base + 1, SaveAs(path), [], Saved(path));
  }

  /** The Freepik trigger loop: probe each selector in order, click only the
      first visible one. */
  function FreepikProbe(p: Page, dir: string, base: nat, sels: seq<Locator>): Run
    decreases |sels|
  {
    if sels == [] then Run(Missing, [])
    else
      var t := FirstOf(sels[0]);
      if base in p.faults then Run(Faulted, [Probe(t)])
      else
        var rest := if Visible(p, t) then Fetch(p, dir, base + 1, t)
                    else FreepikProbe(p, dir, base + 1, sels[1..]);
        Run(rest.out, [Probe(t)] + rest.acts)
  }

  /** The trigger loop performs exactly the fault-free probe defined by
      `FirstVisible` (every selector up to the first visible one, in list
      order, then only that one clicked), cut short right after the first
      action that raises. */
  lemma {:induction false} ProbeSettles(p: Page, dir: string, base: nat, sels: seq<Locator>)
    ensures FreepikProbe(p, dir, base, sels) ==
      Settle(p, base, IdealProbe(p, dir, sels), IdealOut(p, dir, sels))
    decreases |sels|
  {
    if sels == [] {
      assert IdealProbe(p, dir, sels) == [];
    } else {
      IdealProbeStep(p, dir, sels);
      var t := FirstOf(sels[0]);
      if Visible(p, t) {
        FetchSettles(p, dir, base + 1, t);
        SettleCons(p, base, Probe(t), FetchActions(p, dir, t), IdealOut(p, dir, sels));
      } else {
        ProbeSettles(p, dir, base + 1, sels[1..]);
        SettleCons(p, base, Probe(t), IdealProbe(p, dir, sels[1..]), IdealOut(p, dir, sels));
        assert IdealOut(p, dir, sels) == IdealOut(p, dir, sels[1..]);
      }
    }
  }

  /** The probe of `sels` from `base` has issued `done` and continues as the
      probe of the remaining selectors. */
  predicate Resumes(p: Page, dir: string, base: nat, sels: seq<Locator>, done: seq<Action>)
  {
    |done| <= |sels| &&
    var rest := FreepikProbe(p, dir, base + |done|, sels[|done|..]);
    FreepikProbe(p, dir, base, sels) == Run(rest.out, done + rest.acts)
  }

  lemma ProbeFaultExit(p: Page, dir: string, base: nat, sels: seq<Locator>, done: seq<Action>)
    requires Resumes(p, dir, base, sels, done) && |done| < |sels|
    requires base + |done| in p.faults
    ensures FreepikProbe(p, dir, base, sels) == Run(Faulted, done + [Probe(FirstOf(sels[|done|]))])
  {
  }

  lemma ProbeHitExit(p: Page, dir: string, base: nat, sels: seq<Locator>, done: seq<Action>)
    requires Resumes(p, dir, base, sels, done) && |done| < |sels|
    requires base + |done| !in p.faults && Visible(p, FirstOf(sels[|done|]))
    ensures var f := Fetch(p, dir, base + |done| + 1, FirstOf(sels[|done|]));
      FreepikProbe(p, dir, base, sels) == Run(f.out, done + [Probe(FirstOf(sels[|done|]))] + f.acts)
  {
  }

  lemma ProbeMissStep(p: Page, dir: string, base: nat, sels: seq<Locator>, done: seq<Action>)
    requires Resumes(p, dir, base, sels, done) && |done| < |sels|
    requires base + |done| !in p.faults && !Visible(p, FirstOf(sels[|done|]))
    ensures Resumes(p, dir, base, sels, done + [Probe(FirstOf(sels[|done|]))])
  {
    assert sels[|done|..][1..] == sels[|done| + 1..];
  }

  lemma ProbeEndExit(p: Page, dir: string, base: nat, sels: seq<Locator>, done: seq<Action>)
    requires Resumes(p, dir, base, sels, done) && |done| == |sels|
    ensures FreepikProbe(p, dir, base, sels) == Run(Missing, done)
  {
    assert sels[|done|..] == [];
  }

  /** Every member of a prefix is a member of the whole. */
  lemma PrefixMembers<T>(a: seq<T>, b: seq<T>)
    requires a <= b
    ensures forall x :: x in a ==> x in b
  {
    forall x | x in a ensures x in b {
      var i :| 0 <= i < |a| && a[i] == x;
      assert b[i] == x;
    }
  }

  /** A flow's actions are page actions and fill only the given credentials. */
  predicate FlowActs(acts: seq<Action>, c: Credentials)
  {
    forall a :: a in acts ==> InFlow(a) && OwnFill(a, c)
  }

  /** The whole Freepik flow (`_download_freepik`). */
  function FreepikSpec(p: Page, c: Credentials, dir: string, url: string, base: nat): Run
  {
    var t := FreepikLogin(p, c, url, base);
    if !t.ok then Run(Faulted, t.acts)
    else
      var r := FreepikProbe(p, dir, base + |t.acts|, FreepikSelectors);
      Run(r.out, t.acts + r.acts)
  }

  /** The trigger loop issues only page actions and never types anything. */
  lemma ProbeActs(p: Page, dir: string, base: nat, sels: seq<Locator>)
    ensures forall a :: a in FreepikProbe(p, dir, base, sels).acts ==> InFlow(a) && !a.Fill?
  {
    var ideal := IdealProbe(p, dir, sels);
    ProbeSettles(p, dir, base, sels);
    SettleFacts(p, base, ideal, IdealOut(p, dir, sels));
    PrefixMembers(FreepikProbe(p, dir, base, sels).acts, ideal);
    IdealProbeActs(p, dir, sels);
  }

  /** The Freepik flow issues only page actions and types only Freepik's
      credentials. */
  lemma FreepikActs(p: Page, c: Credentials, dir: string, url: string, base: nat)
    ensures FlowActs(FreepikSpec(p, c, dir, url, base).acts, c)
  {
    var t := FreepikLogin(p, c, url, base);
    FreepikLoginFacts(p, c, url, base);
    FreepikLoginActs(c, url);
    FlowActsPrefix(t.acts, FreepikLoginActions(c, url), c);
    if t.ok {
      var r := FreepikProbe(p, dir, base + |t.acts|, FreepikSelectors);
      ProbeActs(p, dir, base + |t.acts|, FreepikSelectors);
      FlowActsJoin(t.acts, r.acts, c);
    }
  }

  /** A prefix of a run that keeps to the flow keeps to it. */
  lemma FlowActsPrefix(a: seq<Action>, b: seq<Action>, c: Credentials)
    requires a <= b && FlowActs(b, c)
    ensures FlowActs(a, c)
  {
    PrefixMembers(a, b);
  }

  /** The Freepik login's intended actions keep to the flow. */
  lemma FreepikLoginActs(c: Credentials, url: string)
    ensures FlowActs(FreepikLoginActions(c, url), c)
  {
  }

  /** The Envato login's intended actions keep to the flow. */
  lemma EnvatoLoginActs(c: Credentials, url: string)
    ensures FlowActs(EnvatoLoginActions(c, url), c)
  {
  }

  /** Two runs that each keep to the flow keep to it one after the other. */
  lemma FlowActsJoin(a: seq<Action>, b: seq<Action>, c: Credentials)
    requires FlowActs(a, c) && FlowActs(b, c)
    ensures FlowActs(a + b, c)
  {
  }

  /** The Freepik flow raises only because its last action raised; a saved
      path is the suggested name in the download directory and needs a
      visible trigger; `None` means no trigger was visible. */
  lemma FreepikOutcome(p: Page, c: Credentials, dir: string, url: string, base: nat)
    ensures var r := FreepikSpec(p, c, dir, url, base);
      && (r.out == Faulted ==> LastRaised(p, base, r.acts))
      && (r.out.Saved? ==>
            r.out.path == Join(dir, p.suggested) && FirstVisible(p, FreepikSelectors) < |FreepikSelectors|)
      && (r.out == Missing ==>
            forall j :: 0 <= j < |FreepikSelectors| ==> !Visible(p, FirstOf(FreepikSelectors[j])))
  {
    var t := FreepikLogin(p, c, url, base);
    FreepikLoginFacts(p, c, url, base);
    if t.ok {
      var r := FreepikProbe(p, dir, base + 7, FreepikSelectors);
      ProbeSettles(p, dir, base + 7, FreepikSelectors);
      SettleFacts(p, base + 7, IdealProbe(p, dir, FreepikSelectors), IdealOut(p, dir, FreepikSelectors));
      if r.out == Faulted {
        LastRaisedShift(p, base, t.acts, r.acts);
      }
    }
  }

  /** With both credentials present and no fault in the flow's window, the
      Freepik flow ends with the result of the fault-free probe: the path under
      the suggested name when some trigger is visible, `None` otherwise. */
  lemma FreepikFaultFree(p: Page, c: Credentials, dir: string, url: string, base: nat)
    requires c.email.Some? && c.password.Some?
    requires forall i :: base <= i < base + 13 ==> i !in p.faults
    ensures FreepikSpec(p, c, dir, url, base).out == IdealOut(p, dir, FreepikSelectors)
  {
    var t := FreepikLogin(p, c, url, base);
    FreepikLoginFacts(p, c, url, base);
    assert base !in p.faults && forall i :: base + 2 <= i < base + 7 ==> i !in p.faults;
    assert t.ok && |t.acts| == 7;
    ProbeFaultFree(p, dir, base + 7, FreepikSelectors);
  }

  /** With no fault in its window the probe ends with its fault-free result. */
  lemma ProbeFaultFree(p: Page, dir: string, base: nat, sels: seq<Locator>)
    requires forall i :: base <= i < base + |sels| + 2 ==> i !in p.faults
    ensures FreepikProbe(p, dir, base, sels).out == IdealOut(p, dir, sels)
  {
    var ideal := IdealProbe(p, dir, sels);
    ProbeSettles(p, dir, base, sels);
    IdealProbeActs(p, dir, sels);
    forall j | 0 <= j < |ideal| ensures !RaisesAt(p, base + j, ideal[j]) {
      assert ideal[j] in ideal;
    }
    SettleClean(p, base, ideal, IdealOut(p, dir, sels));
  }

  /** Intended actions none of which raises all run, with the intended result. */
  lemma SettleClean(p: Page, base: nat, ideal: seq<Action>, out: FlowOut)
    requires forall j :: 0 <= j < |ideal| ==> !RaisesAt(p, base + j, ideal[j])
    ensures Settle(p, base, ideal, out) == Run(out, ideal)
  {
  }

  /** The actions an Envato login issues when nothing raises. */
  function EnvatoLoginActions(c: Credentials, url: string): seq<Action>
  {
    [Goto(LoginPage(Envato)), Fill(EnvatoUsername, c.email), Fill(EnvatoPassword, c.password),
     Click(Selector(SubmitButton)), WaitIdle, Goto(AssetPage(url))]
  }

  /** Log in to Envato Elements and open the asset page. */
  function EnvatoLogin(p: Page, c: Credentials, url: string, base: nat): Trace
  {
    var t1 := Do(p, base, Trace(true, []), Goto(LoginPage(Envato)));
    var t2 := Do(p, base, t1, Fill(EnvatoUsername, c.email));
    var t3 := Do(p, base, t2, Fill(EnvatoPassword, c.password));
    var t4 := Do(p, base, t3, Click(Selector(SubmitButton)));
    var t5 := Do(p, base, t4, WaitIdle);
    Do(p, base, t5, Goto(AssetPage(url)))
  }

  /** The Envato login issues a prefix of its intended actions, all of them
      exactly when none of the six raises (so both credentials are present),
      and otherwise stops right after the action that raised. */
  lemma EnvatoLoginFacts(p: Page, c: Credentials, url: string, base: nat)
    ensures var r := EnvatoLogin(p, c, url, base);
      && r.acts <= EnvatoLoginActions(c, url)
      && (r.ok ==> r.acts == EnvatoLoginActions(c, url))
      && (!r.ok ==> LastRaised(p, base, r.acts))
      // nothing before the last action raised
      && (forall j :: 0 <= j < |r.acts| - 1 ==> !RaisesAt(p, base + j, r.acts[j]))
      && (r.ok <==>
            (forall i :: base <= i < base + 6 ==> i !in p.faults) && c.email.Some? && c.password.Some?)
  {
    EnvatoLoginPrefix(p, c, url, base);
    EnvatoLoginOk(p, c, url, base);
  }

  lemma EnvatoLoginPrefix(p: Page, c: Credentials, url: string, base: nat)
    ensures var r := EnvatoLogin(p, c, url, base);
      && r.acts <= EnvatoLoginActions(c, url)
      && (r.ok ==> r.acts == EnvatoLoginActions(c, url))
      && (!r.ok ==> LastRaised(p, base, r.acts))
      && (forall j :: 0 <= j < |r.acts| - 1 ==> !RaisesAt(p, base + j, r.acts[j]))
  {
  }

  lemma EnvatoLoginOk(p: Page, c: Credentials, url: string, base: nat)
    ensures EnvatoLogin(p, c, url, base).ok <==>
      (forall i :: base <= i < base + 6 ==> i !in p.faults) && c.email.Some? && c.password.Some?
  {
  }

  /** The trigger actions of the Envato flow after login: probe the first
      "Download" button, click it, probe the last confirmation button, then
      fetch through it. */
  function EnvatoTrigger(p: Page, dir: string, base: nat): Run
  {
    var first := FirstOf(EnvatoDownload);
    var confirm := LastOf(EnvatoConfirm);
    if base in p.faults then Run(Faulted, [Probe(first)])
    else if !Visible(p, first) then Run(Missing, [Probe(first)])
    else if base + 1 in p.faults then Run(Faulted, [Probe(first), Click(first)])
    else if base + 2 in p.faults then Run(Faulted, [Probe(first), Click(first), Probe(confirm)])
    else if !Visible(p, confirm) then Run(Missing, [Probe(first), Click(first), Probe(confirm)])
    else
      var f := Fetch(p, dir, base + 3, confirm);
      Run(f.out, [Probe(first), Click(first), Probe(confirm)] + f.acts)
  }

  /** The Envato trigger steps save a file exactly when both buttons are
      visible and none of their five actions raises, under the suggested name;
      `None` means one of the buttons was not visible. */
  lemma EnvatoTriggerFacts(p: Page, dir: string, base: nat)
    ensures var r := EnvatoTrigger(p, dir, base);
      && (forall a :: a in r.acts ==> InFlow(a) && !a.Fill?)
      && (r.out == Faulted ==> LastRaised(p, base, r.acts))
      && (r.out.Saved? <==>
            Visible(p, FirstOf(EnvatoDownload)) && Visible(p, LastOf(EnvatoConfirm))
            && (forall i :: base <= i < base + 5 ==> i !in p.faults))
      && (r.out.Saved? ==> r.out.path == Join(dir, p.suggested))
      && (r.out == Missing ==>
            !Visible(p, FirstOf(EnvatoDownload)) || !Visible(p, LastOf(EnvatoConfirm)))
  {
  }

  /** The whole Envato flow (`_download_envato`). */
  function EnvatoSpec(p: Page, c: Credentials, dir: string, url: string, base: nat): Run
  {
    var t := EnvatoLogin(p, c, url, base);
    if !t.ok then Run(Faulted, t.acts)
    else
      var r := EnvatoTrigger(p, dir, base + |t.acts|);
      Run(r.out, t.acts + r.acts)
  }

  /** The Envato flow issues only page actions and types only Envato's
      credentials; it raises only because its last action raised; it saves a
      file exactly when both credentials are present, no action in its
      eleven-step window raises and both buttons are visible, under the
      suggested name; `None` means a button was not visible. */
  lemma EnvatoFacts(p: Page, c: Credentials, dir: string, url: string, base: nat)
    ensures var r := EnvatoSpec(p, c, dir, url, base);
      && FlowActs(r.acts, c)
      && (r.out == Faulted ==> LastRaised(p, base, r.acts))
      && (r.out.Saved? <==>
            c.email.Some? && c.password.Some? && (forall i :: base <= i < base + 11 ==> i !in p.faults)
            && Visible(p, FirstOf(EnvatoDownload)) && Visible(p, LastOf(EnvatoConfirm)))
      && (r.out.Saved? ==> r.out.path == Join(dir, p.suggested))
      && (r.out == Missing ==>
            !Visible(p, FirstOf(EnvatoDownload)) || !Visible(p, LastOf(EnvatoConfirm)))
  {
    var t := EnvatoLogin(p, c, url, base);
    EnvatoLoginFacts(p, c, url, base);
    EnvatoLoginActs(c, url);
    FlowActsPrefix(t.acts, EnvatoLoginActions(c, url), c);
    if t.ok {
      assert |t.acts| == 6;
      var r := EnvatoTrigger(p, dir, base + 6);
      EnvatoTriggerFacts(p, dir, base + 6);
      assert FlowActs(r.acts, c);
      FlowActsJoin(t.acts, r.acts, c);
      if r.out == Faulted {
        LastRaisedShift(p, base, t.acts, r.acts);
      }
    }
  }

  /** The result of `download_file` with the session log it leaves. */
  datatype Download = Download(result: Call<Option<string>>, log: seq<Action>)

  /** The flow `download_file` dispatches to, evaluated right after the launch. */
  function RoutedRun(freepik: Credentials, envato: Credentials, dir: string, url: string, p: Page): Run
  {
    match Route(url)
    case Freepik => FreepikSpec(p, freepik, dir, url, 1)
    case Envato => EnvatoSpec(p, envato, dir, url, 1)
    case Unsupported => Run(Missing, [])
  }

  /** `download_file`: launch the browser (outside the `try`, so a launch fault
      propagates), dispatch on the URL, turn any flow exception into `None`, and
      close the browser on every path out of the `try`. */
  function DownloadSpec(freepik: Credentials, envato: Credentials, dir: string, url: string, p: Page)
    : Download
  {
    if RaisesAt(p, 0, Launch) then Download(Raised(LaunchError), [Launch])
    else
      var run := RoutedRun(freepik, envato, dir, url, p);
      var result := if run.out.Saved? then Returned(Some(run.out.path)) else Returned(None);
      Download(result, [Launch] + run.acts + [Close])
  }

  /** The routed flow issues only page actions and types only the credentials
      of the marketplace it was routed to. */
  lemma RoutedActs(freepik: Credentials, envato: Credentials, dir: string, url: string, p: Page)
    ensures var run := RoutedRun(freepik, envato, dir, url, p);
      && (forall a :: a in run.acts ==> InFlow(a))
      && (Route(url) == Freepik ==> FlowActs(run.acts, freepik))
      && (Route(url) == Envato ==> FlowActs(run.acts, envato))
  {
    match Route(url)
    case Freepik => FreepikActs(p, freepik, dir, url, 1);
    case Envato => EnvatoFacts(p, envato, dir, url, 1);
    case Unsupported =>
  }

  /** `download_file` raises exactly when the launch raises, and then the
      session holds the launch alone; otherwise the browser is launched first,
      closed last, and neither launched nor closed anywhere in between. */
  lemma DownloadLifetime(freepik: Credentials, envato: Credentials, dir: string, url: string, p: Page)
    ensures var r := DownloadSpec(freepik, envato, dir, url, p);
      && (r.result.Raised? <==> 0 in p.faults)
      && (r.result.Raised? ==> r.log == [Launch])
      && (r.result.Returned? ==>
            |r.log| >= 2 && r.log[0] == Launch && r.log[|r.log| - 1] == Close
            && Launch !in r.log[1..] && Close !in r.log[..|r.log| - 1])
  {
    if 0 !in p.faults {
      var run := RoutedRun(freepik, envato, dir, url, p);
      RoutedActs(freepik, envato, dir, url, p);
      Bracketed(run.acts);
    }
  }

  /** Page actions put between a launch and a close: the log starts with the
      launch, ends with the close, and holds neither anywhere else. */
  lemma Bracketed(acts: seq<Action>)
    requires forall a :: a in acts ==> InFlow(a)
    ensures var log := [Launch] + acts + [Close];
      |log| >= 2 && log[0] == Launch && log[|log| - 1] == Close
      && Launch !in log[1..] && Close !in log[..|log| - 1]
  {
    var log := [Launch] + acts + [Close];
    assert log[1..] == acts + [Close];
    assert log[..|log| - 1] == [Launch] + acts;
  }

  /** Once the browser is up, `download_file` returns and never raises: a path
      exactly when the routed flow saved one, and `None` when the flow raised
      or found no trigger. */
  lemma DownloadFaultIsNone(freepik: Credentials, envato: Credentials, dir: string, url: string, p: Page)
    requires 0 !in p.faults
    ensures var r := DownloadSpec(freepik, envato, dir, url, p);
      var run := RoutedRun(freepik, envato, dir, url, p);
      && r.result.Returned?
      && (run.out.Saved? ==> r.result.value == Some(run.out.path))
      && (!run.out.Saved? ==> r.result.value == None)
  {
  }

  /** In a `download_file` call the only credentials typed are those of the
      marketplace the link was routed to, and a link of neither marketplace
      opens and closes the browser and returns `None`. */
  lemma DownloadCredentials(freepik: Credentials, envato: Credentials, dir: string, url: string, p: Page)
    ensures var r := DownloadSpec(freepik, envato, dir, url, p);
      && (Route(url) == Freepik ==> forall a :: a in r.log ==> OwnFill(a, freepik))
      && (Route(url) == Envato ==> forall a :: a in r.log ==> OwnFill(a, envato))
      && (Route(url) == Unsupported && r.result.Returned? ==>
            r == Download(Returned(None), [Launch, Close]))
  {
    RoutedActs(freepik, envato, dir, url, p);
  }

  /** A path returned by `download_file` is the browser-suggested file name in
      the download directory, and a trigger of the routed marketplace was
      visible. */
  lemma DownloadSavedPath(freepik: Credentials, envato: Credentials, dir: string, url: string, p: Page)
    ensures var r := DownloadSpec(freepik, envato, dir, url, p);
      r.result.Returned? && r.result.value.Some? ==>
        && r.result.value.value == Join(dir, p.suggested)
        && (Route(url) == Freepik ==> FirstVisible(p, FreepikSelectors) < |FreepikSelectors|)
        && (Route(url) == Envato ==> Visible(p, FirstOf(EnvatoDownload)) && Visible(p, LastOf(EnvatoConfirm)))
  {
    match Route(url)
    case Freepik => FreepikOutcome(p, freepik, dir, url, 1);
    case Envato => EnvatoFacts(p, envato, dir, url, 1);
    case Unsupported =>
  }

  /** A Freepik link with both credentials configured and a browser that never
      raises yields the suggested file when one of the triggers is visible,
      and `None` when none is. */
  lemma FreepikHappyPath(freepik: Credentials, envato: Credentials, dir: string, url: string, p: Page)
    requires Route(url) == Freepik
    requires freepik.email.Some? && freepik.password.Some?
    requires forall i :: 0 <= i < 14 ==> i !in p.faults
    ensures DownloadSpec(freepik, envato, dir, url, p).result ==
      if FirstVisible(p, FreepikSelectors) < |FreepikSelectors| then Returned(Some(Join(dir, p.suggested)))
      else Returned(None)
  {
    FreepikFaultFree(p, freepik, dir, url, 1);
  }

  // ---------------------------------------------------------------------------
  // The Downloader object
  // ---------------------------------------------------------------------------

  class Downloader {
    const freepikCreds: Credentials
    const envatoCreds: Credentials
    const downloadPath: string

    constructor (freepikCreds: Credentials, envatoCreds: Credentials, downloadPath: string)
      ensures this.freepikCreds == freepikCreds && this.envatoCreds == envatoCreds
      ensures this.downloadPath == downloadPath
    {
      this.freepikCreds := freepikCreds;
      this.envatoCreds := envatoCreds;
      this.downloadPath := downloadPath;
    }

    /** `download_file(url)` on a session that has not been launched yet. */
    method DownloadFile(url: string, s: Session) returns (r: Call<Option<string>>)
      requires !s.open && s.log == []
      modifies s
      ensures !s.open
      ensures Download(r, s.log) == DownloadSpec(freepikCreds, envatoCreds, downloadPath, url, s.page)
    {
      var ok := s.Launch();
      if !ok {
        r := Raised(LaunchError);
        return;
      }
      var out: FlowOut;
      match Route(url) {
        case Freepik => out := DownloadFreepik(s, url);
        case Envato => out := DownloadEnvato(s, url);
        case Unsupported => out := Missing;
      }
      ghost var run := RoutedRun(freepikCreds, envatoCreds, downloadPath, url, s.page);
      assert out == run.out && s.log == [Launch] + run.acts;
      s.Close();
      r := if out.Saved? then Returned(Some(out.path)) else Returned(None);
    }

    /** The login steps of `_download_freepik`: every awaited step runs only
        while the previous ones succeeded, and the cookie-banner click may
        raise without stopping the login. */
    method SignInFreepik(s: Session, url: string) returns (ok: bool)
      requires s.open
      modifies s
      ensures s.open
      ensures var t := FreepikLogin(s.page, freepikCreds, url, |old(s.log)|);
        ok == t.ok && s.log == old(s.log) + t.acts
    {
      ghost var log0 := s.log;
      ghost var base := |s.log|;
      ok := s.Perform(Goto(LoginPage(Freepik)));
      ghost var t := Do(s.page, base, Trace(true, []), Goto(LoginPage(Freepik)));
      if ok {
        var dismissed := s.Perform(Click(Selector(CookieBanner)));
        t := Trace(true, t.acts + [Click(Selector(CookieBanner))]);
      }
      assert ok == t.ok && s.log == log0 + t.acts;
      if ok { ok := s.Perform(Fill(FreepikEmail, freepikCreds.email)); }
      t := Do(s.page, base, t, Fill(FreepikEmail, freepikCreds.email));
      assert ok == t.ok && s.log == log0 + t.acts;
      if ok { ok := s.Perform(Fill(FreepikPassword, freepikCreds.password)); }
      t := Do(s.page, base, t, Fill(FreepikPassword, freepikCreds.password));
      assert ok == t.ok && s.log == log0 + t.acts;
      if ok { ok := s.Perform(Click(Selector(SubmitButton))); }
      t := Do(s.page, base, t, Click(Selector(SubmitButton)));
      assert ok == t.ok && s.log == log0 + t.acts;
      if ok { ok := s.Perform(WaitIdle); }
      t := Do(s.page, base, t, WaitIdle);
      assert ok == t.ok && s.log == log0 + t.acts;
      if ok { ok := s.Perform(Goto(AssetPage(url))); }
      t := Do(s.page, base, t, Goto(AssetPage(url)));
      assert ok == t.ok && s.log == log0 + t.acts;
    }

    /** `_download_freepik`. */
    method DownloadFreepik(s: Session, url: string) returns (out: FlowOut)
      requires s.open
      modifies s
      ensures s.open
      ensures var run := FreepikSpec(s.page, freepikCreds, downloadPath, url, |old(s.log)|);
        out == run.out && s.log == old(s.log) + run.acts
    {
      ghost var t := FreepikLogin(s.page, freepikCreds, url, |s.log|);
      var ok := SignInFreepik(s, url);
      if !ok { return Faulted; }
      ghost var mid := s.log;
      out := ProbeFreepik(s, FreepikSelectors);
      ghost var r := FreepikProbe(s.page, downloadPath, |mid|, FreepikSelectors);
      AppendAssoc(old(s.log), t.acts, r.acts);
    }

    /** The trigger loop of `_download_freepik`: try each selector in order and
        download through the first visible one. */
    method ProbeFreepik(s: Session, sels: seq<Locator>) returns (out: FlowOut)
      requires s.open
      modifies s
      ensures s.open
      ensures var run := FreepikProbe(s.page, downloadPath, |old(s.log)|, sels);
        out == run.out && s.log == old(s.log) + run.acts
    {
      ghost var log0 := s.log;
      ghost var done: seq<Action> := [];
      var i := 0;
      while i < |sels|
        invariant 0 <= i <= |sels| && s.open
        invariant s.log == log0 + done && |done| == i
        invariant Resumes(s.page, downloadPath, |log0|, sels, done)
      {
        var target := FirstOf(sels[i]);
        var probed, visible := s.IsVisible(target);
        if !probed {
          ProbeFaultExit(s.page, downloadPath, |log0|, sels, done);
          AppendAssoc(log0, done, [Probe(target)]);
          return Faulted;
        }
        if visible {
          ghost var mid := s.log;
          out := SaveDownload(s, target);
          ProbeHitExit(s.page, downloadPath, |log0|, sels, done);
          ghost var f := Fetch(s.page, downloadPath, |mid|, target);
          AppendAssoc(log0, done + [Probe(target)], f.acts);
          AppendAssoc(log0, done, [Probe(target)]);
          return;
        }
        ProbeMissStep(s.page, downloadPath, |log0|, sels, done);
        AppendAssoc(log0, done, [Probe(target)]);
        done := done + [Probe(target)];
        i := i + 1;
      }
      ProbeEndExit(s.page, downloadPath, |log0|, sels, done);
      return Missing;
    }

    /** The login steps of `_download_envato`: every awaited step runs only
        while the previous ones succeeded. */
    method SignInEnvato(s: Session, url: string) returns (ok: bool)
      requires s.open
      modifies s
      ensures s.open
      ensures var t := EnvatoLogin(s.page, envatoCreds, url, |old(s.log)|);
        ok == t.ok && s.log == old(s.log) + t.acts
    {
      ghost var log0 := s.log;
      ghost var base := |s.log|;
      ok := s.Perform(Goto(LoginPage(Envato)));
      ghost var t := Do(s.page, base, Trace(true, []), Goto(LoginPage(Envato)));
      assert ok == t.ok && s.log == log0 + t.acts;
      if ok { ok := s.Perform(Fill(EnvatoUsername, envatoCreds.email)); }
      t := Do(s.page, base, t, Fill(EnvatoUsername, envatoCreds.email));
      assert ok == t.ok && s.log == log0 + t.acts;
      if ok { ok := s.Perform(Fill(EnvatoPassword, envatoCreds.password)); }
      t := Do(s.page, base, t, Fill(EnvatoPassword, envatoCreds.password));
      assert ok == t.ok && s.log == log0 + t.acts;
      if ok { ok := s.Perform(Click(Selector(SubmitButton))); }
      t := Do(s.page, base, t, Click(Selector(SubmitButton)));
      assert ok == t.ok && s.log == log0 + t.acts;
      if ok { ok := s.Perform(WaitIdle); }
      t := Do(s.page, base, t, WaitIdle);
      assert ok == t.ok && s.log == log0 + t.acts;
      if ok { ok := s.Perform(Goto(AssetPage(url))); }
      t := Do(s.page, base, t, Goto(AssetPage(url)));
      assert ok == t.ok && s.log == log0 + t.acts;
    }

    /** `_download_envato`. */
    method DownloadEnvato(s: Session, url: string) returns (out: FlowOut)
      requires s.open
      modifies s
      ensures s.open
      ensures var run := EnvatoSpec(s.page, envatoCreds, downloadPath, url, |old(s.log)|);
        out == run.out && s.log == old(s.log) + run.acts
    {
      var ok := SignInEnvato(s, url);
      if !ok { return Faulted; }
      out := ClickThroughEnvato(s);
    }

    /** The download steps of `_download_envato` after the asset page is open. */
    method ClickThroughEnvato(s: Session) returns (out: FlowOut)
      requires s.open
      modifies s
      ensures s.open
      ensures var run := EnvatoTrigger(s.page, downloadPath, |old(s.log)|);
        out == run.out && s.log == old(s.log) + run.acts
    {
      var first := FirstOf(EnvatoDownload);
      var probed, visible := s.IsVisible(first);
      if !probed { return Faulted; }
      if !visible { return Missing; }
      var ok := s.Perform(Click(first));
      if !ok { return Faulted; }
      var confirm := LastOf(EnvatoConfirm);
      probed, visible := s.IsVisible(confirm);
      if !probed { return Faulted; }
      if !visible { return Missing; }
      out := SaveDownload(s, confirm);
    }

    /** Click a trigger inside `expect_download`, then save the download under
        the suggested name in the download directory. */
    method SaveDownload(s: Session, t: Target) returns (out: FlowOut)
      requires s.open
      modifies s
      ensures s.open
      ensures var f := Fetch(s.page, downloadPath, |old(s.log)|, t);
        out == f.out && s.log == old(s.log) + f.acts
    {
      var ok := s.Perform(ClickForDownload(t));
      if !ok { return Faulted; }
      var path := Join(downloadPath, s.page.suggested);
      ok := s.Perform(SaveAs(path));
      if !ok { return Faulted; }
      return Saved(path);
    }
  }
}
