/**
 What normalizing keeps of the settings it is given, field by field, said of its result: flags,
 numbers, texts, hooks, shortcuts, providers and models that are given and valid are kept, and
 each other one is replaced by its default or its nearest bound.
 */
module SettingsKept {
  import opened Options
  import opened Text
  import opened Settings

  // ---- one field ----

  /** The value given, or the default when there is none. */
  predicate IsGiven<T(==)>(given: Option<T>, absent: T, kept: T) {
    (given.Some? ==> kept == given.value) && (given == None ==> kept == absent)
  }

  /** The nearest whole number within the bounds, halves upwards; the least for what is no finite number. */
  predicate IsNearest(given: Option<Number>, absent: int, least: int, most: int, kept: int) {
    && least <= kept <= most
    && (given == None ==> kept == absent)
    && (given.Some? && !given.value.Finite? ==> kept == least)
    && (given.Some? && given.value.Finite? ==> IsClosest(given.value.value, least, most, kept))
  }

  predicate IsClosest(x: real, least: int, most: int, kept: int) {
    if x <= least as real then kept == least
    else if x >= most as real then kept == most
    else -0.5 < kept as real - x <= 0.5
  }

  lemma WholeIsNearest(given: Option<Number>, absent: int, least: int, most: int)
    requires least <= absent <= most
    ensures IsNearest(given, absent, least, most, Whole(Or(given, Finite(absent as real)), least, most))
  {
    assert (absent as real).Floor == absent;
    if given.Some? && given.value.Finite? {
      var x := given.value.value;
      if x <= least as real { assert (x + 0.5).Floor <= least; }
      if x >= most as real { assert (x + 0.5).Floor >= most; }
    }
  }

  /** A text that is one of the choices, or the fallback. */
  predicate IsChoice(given: Option<string>, choice: Choice, kept: string) {
    if given.Some? && given.value in choice.values then kept == given.value else kept == choice.fallback
  }

  // ---- general, display, notifications ----

  lemma KeepsGeneral(platform: Platform, input: Input)
    ensures var s, g := Normalized(platform, input).general, input.general;
      IsChoice(g.theme, platform.choices.theme, s.theme) && IsChoice(g.translation, platform.choices.translation, s.translation)
      && IsGiven(g.language, "en-US", s.language) && (g.rest.Some? ==> s.rest == g.rest.value)
  {
    hide HooksOf, ProvidersOf, SelectedOf, PreferredOf, ActiveOf, Discovered, ShortcutsOf, DisplayOf, NotificationsOf;
  }

  lemma KeepsDisplay(platform: Platform, input: Input)
    ensures var s, d := Normalized(platform, input).display, input.display;
      IsChoice(d.density, platform.choices.density, s.density) && IsChoice(d.font, platform.choices.font, s.font)
      && IsChoice(d.lineHeight, platform.choices.lineHeight, s.lineHeight)
      && IsNearest(d.fontSize, 13, 12, 18, s.fontSize) && IsZoom(d.zoom, s.zoom)
      && IsGiven(d.reduceMotion, false, s.reduceMotion) && IsGiven(d.toolbar, false, s.toolbar)
  {
    hide HooksOf, ProvidersOf, SelectedOf, PreferredOf, ActiveOf, Discovered, ShortcutsOf, NotificationsOf, GeneralOf,
      Zoom, Whole;
    WholeIsNearest(input.display.fontSize, 13, 12, 18);
    ZoomIsNearest(input.display.zoom);
  }

  /** A whole number of twentieths from 0.85 to 1.5: the nearest one to what is given. */
  predicate IsZoom(given: Option<Number>, kept: real) {
    && (given == None ==> kept == 1.0)
    && (given.Some? && !given.value.Finite? ==> kept == 0.85)
    && (given.Some? && given.value.Finite? ==> IsClosest(given.value.value * 20.0, 17, 30, (kept * 20.0).Floor))
    && (kept * 20.0).Floor as real == kept * 20.0
  }

  lemma ZoomIsNearest(given: Option<Number>)
    ensures IsZoom(given, Zoom(Or(given, Finite(1.0))))
  {
    if given.Some? && given.value.Finite? {
      var x := given.value.value * 20.0;
      var twentieths := Clamped(Rounded(x), 17, 30);
      assert Zoom(given.value) == twentieths as real / 20.0;
      assert (twentieths as real / 20.0) * 20.0 == twentieths as real;
      assert (twentieths as real).Floor == twentieths;
      if x <= 17.0 { assert (x + 0.5).Floor <= 17; }
      if x >= 30.0 { assert (x + 0.5).Floor >= 30; }
    } else if given == None {
      assert (1.0 * 20.0 + 0.5).Floor == 20;
    }
  }

  /** The policy given is the policy kept. */
  lemma KeepsNotifications(platform: Platform, input: Input)
    ensures var s, n := Normalized(platform, input).notifications, input.notifications;
      IsGiven(n.system, true, s.system) && IsGiven(n.completed, true, s.completed) && IsGiven(n.failed, true, s.failed)
      && IsGiven(n.inputNeeded, true, s.inputNeeded) && IsNearest(n.threshold, 0, 0, 3600, s.threshold)
  {
    hide HooksOf, ProvidersOf, SelectedOf, PreferredOf, ActiveOf, Discovered, ShortcutsOf, DisplayOf, GeneralOf, Whole;
    WholeIsNearest(input.notifications.threshold, 0, 0, 3600);
  }

  // ---- hooks ----

  /** An object with an id that is more than blanks. */
  function HookIn(hook: Option<HookInput>): seq<HookInput> {
    if hook.Some? && !Blank(hook.value.id) then [hook.value] else []
  }

  /** The hooks with an id, in order. */
  function WithId(hooks: seq<Option<HookInput>>): seq<HookInput> {
    if hooks == [] then [] else HookIn(hooks[0]) + WithId(hooks[1..])
  }

  /** The first characters of a text, as many as are allowed. */
  predicate IsCut(given: string, most: nat, kept: string) {
    kept <= given && |kept| == if |given| < most then |given| else most
  }

  predicate IsGivenText(given: Option<string>, kept: Option<string>) {
    kept == if given.Some? && given.value != "" then given else None
  }

  ghost predicate IsHook(events: Choice, given: HookInput, kept: Hook) {
    && TrimsTo(given.id, kept.id) && IsCut(given.name, 60, kept.name) && IsGiven(given.enabled, true, kept.enabled)
    && IsChoice(given.event, events, kept.event) && IsCut(given.command, 1024, kept.command)
    && IsCut(given.workdir, 1024, kept.workdir)
    && IsNearest(given.timeout, 30, 1, 300, kept.timeout)
    && (given.matcher.Some? && given.matcher.value != "" <==> kept.matcher.Some?)
    && (kept.matcher.Some? ==> IsCut(given.matcher.value, 256, kept.matcher.value))
    && IsGivenText(given.lastRunAt, kept.lastRunAt) && kept.lastExitCode == given.lastExitCode
  }

  lemma HookIsKept(events: Choice, given: HookInput)
    ensures IsHook(events, given, HookOf(events, given))
  {
    hide Trim, Whole, TrimsTo;
    TrimIs(given.id);
    WholeIsNearest(given.timeout, 30, 1, 300);
  }

  lemma {:induction false} WithIdAppend(hooks: seq<Option<HookInput>>, last: Option<HookInput>)
    ensures WithId(hooks + [last]) == WithId(hooks) + HookIn(last)
  {
    hide HookIn;
    var all := hooks + [last];
    if hooks == [] {
      assert all == [last] && [last][1..] == [];
      assert WithId(all) == HookIn(last) + WithId([]);
    } else {
      WithIdAppend(hooks[1..], last);
      assert all[1..] == hooks[1..] + [last] && all[0] == hooks[0];
      assert WithId(all) == HookIn(hooks[0]) + WithId(hooks[1..] + [last]);
      assert WithId(hooks) == HookIn(hooks[0]) + WithId(hooks[1..]);
    }
  }

  lemma BlankTrims(s: string)
    ensures Trim(s) == "" <==> Blank(s)
  {
    hide Trim, Blank;
    if Blank(s) {
      NothingIsBlank();
      assert s == s + "" + "" && Trimmed("");
      TrimIsOnly(s, "");
    } else {
      TrimIs(s);
      var before, after :| Blank(before) && Blank(after) && s == before + Trim(s) + after;
      BlankBoth(before, after);
      assert Trim(s) == "" ==> s == before + after;
    }
  }

  lemma NothingIsBlank()
    ensures Blank("")
  {
  }

  lemma BlankBoth(a: string, b: string)
    requires Blank(a) && Blank(b)
    ensures Blank(a + b)
  {
  }

  lemma {:induction false} HooksAreWithId(events: Choice, hooks: seq<Option<HookInput>>)
    ensures var kept, given := HooksOf(events, hooks), WithId(hooks);
      |kept| == |given| && forall i :: 0 <= i < |kept| ==> IsHook(events, given[i], kept[i])
  {
    hide Trim, HookOf, IsHook, Blank;
    if hooks != [] {
      var n := |hooks| - 1;
      HooksAreWithId(events, hooks[..n]);
      assert hooks == hooks[..n] + [hooks[n]];
      WithIdAppend(hooks[..n], hooks[n]);
      if hooks[n].Some? {
        BlankTrims(hooks[n].value.id);
        HookIsKept(events, hooks[n].value);
      }
    }
  }

  /** Every hook with an id is kept, in order, and each of its fields. */
  lemma KeepsHooks(platform: Platform, input: Input)
    ensures var kept, given := Normalized(platform, input).hooks, WithId(input.hooks);
      |kept| == |given| && forall i :: 0 <= i < |kept| ==> IsHook(platform.choices.event, given[i], kept[i])
  {
    hide HooksOf, ProvidersOf, SelectedOf, PreferredOf, ActiveOf, Discovered, ShortcutsOf, DisplayOf, NotificationsOf,
      GeneralOf, IsHook;
    HooksAreWithId(platform.choices.event, input.hooks);
  }

  // ---- shortcuts ----

  /** The last shortcut given under the id of a default, or the default. */
  predicate IsLastGiven(given: seq<Shortcut>, absent: Shortcut, kept: Shortcut) {
    if exists i :: 0 <= i < |given| && given[i].id == absent.id
    then exists i :: 0 <= i < |given| && given[i] == kept && kept.id == absent.id && forall j :: i < j < |given| ==> given[j].id != absent.id
    else kept == absent
  }

  lemma {:induction false} LastOfIsLast(given: seq<Shortcut>, id: string) returns (i: int)
    ensures LastOf(given, id) == None ==> forall j :: 0 <= j < |given| ==> given[j].id != id
    ensures LastOf(given, id).Some? ==>
      0 <= i < |given| && LastOf(given, id).value == given[i] && given[i].id == id && forall j :: i < j < |given| ==> given[j].id != id
  {
    i := |given| - 1;
    if given != [] && given[i].id != id { i := LastOfIsLast(given[..|given| - 1], id); }
  }

  lemma KeepsShortcuts(platform: Platform, input: Input)
    ensures var kept, defaults := Normalized(platform, input).shortcuts, platform.shortcuts;
      |kept| == |defaults| && forall k :: 0 <= k < |kept| ==> IsLastGiven(input.shortcuts, defaults[k], kept[k])
  {
    hide HooksOf, ProvidersOf, SelectedOf, PreferredOf, ActiveOf, Discovered, DisplayOf, NotificationsOf, GeneralOf,
      LastOf;
    var kept, defaults := Normalized(platform, input).shortcuts, platform.shortcuts;
    forall k | 0 <= k < |kept| ensures IsLastGiven(input.shortcuts, defaults[k], kept[k]) {
      var i := LastOfIsLast(input.shortcuts, defaults[k].id);
    }
  }

  // ---- providers ----

  predicate IsGivenOr(given: Option<string>, absent: string, kept: string) {
    kept == if given.Some? && given.value != "" then given.value else absent
  }

  /** What is given for a provider, if anything is. */
  function GivenFor(input: Input, kind: Kind): (r: ProviderInput)
    ensures kind in input.providers ==> r == input.providers[kind]
    ensures kind !in input.providers ==> r == ProviderInput(None, None, None, None, None, None, None)
  {
    if kind in input.providers then input.providers[kind] else ProviderInput(None, None, None, None, None, None, None)
  }

  /** One slash at the end goes. */
  predicate IsWithoutSlash(text: string, kept: string) {
    text == kept + "/" || (text == kept && (text == "" || text[|text| - 1] != '/'))
  }

  /** The path a provider's bare URLs get, if they get one. */
  predicate GetsPath(kind: Kind, path: string) {
    (kind == DeepSeek && path == "/anthropic") || (kind in {OpenAI, Kimi, Custom} && path == "/v1")
  }

  ghost predicate IsBaseUrl(url: Url, kind: Kind, given: string, kept: string) {
    exists raw :: TrimsTo(given, raw) && IsBaseOf(url, kind, raw, kept)
  }

  ghost predicate IsBaseOf(url: Url, kind: Kind, raw: string, kept: string) {
    if raw == "" || url.path(raw) == None then kept == raw
    else if url.path(raw).value in {"", "/"} && kind in {DeepSeek, OpenAI, Kimi, Custom}
    then exists path :: GetsPath(kind, path) && IsWithoutSlash(if url.opaquePath(raw) then url.printed(raw) else url.repath(raw, path), kept)
    else IsWithoutSlash(raw, kept)
  }

  lemma BaseUrlIs(url: Url, kind: Kind, given: string)
    ensures IsBaseUrl(url, kind, given, BaseUrl(url, kind, given))
  {
    hide Trim, TrimsTo;
    TrimIs(given);
    var raw, kept := Trim(given), BaseUrl(url, kind, given);
    SlashGoes(raw);
    if AppendedPath(kind).Some? {
      var path := AppendedPath(kind).value;
      assert GetsPath(kind, path);
      SlashGoes(if url.opaquePath(raw) then url.printed(raw) else url.repath(raw, path));
    }
    assert IsBaseOf(url, kind, raw, kept);
  }

  lemma SlashGoes(text: string)
    ensures IsWithoutSlash(text, DropSlash(text))
  {
  }

  /** A text is given, with or without blanks around it. */
  ghost predicate IsNamed(given: seq<string>, name: string) {
    name != "" && exists k :: NamedAt(given, name, k)
  }

  ghost predicate NamedAt(given: seq<string>, name: string, k: int) { 0 <= k < |given| && TrimsTo(given[k], name) }

  /** The cloud's models are just those of the earlier release. */
  ghost predicate AllEarlier(c: Cloud, given: seq<string>) { forall m :: IsNamed(given, m) <==> m in c.legacy }

  /**
   The models named are kept, each once, but for the cloud those it no longer serves, and all when
   they are the earlier release's.
   */
  ghost predicate AreDiscovered(c: Cloud, kind: Kind, given: seq<string>, kept: seq<string>) {
    && AllDifferent(kept)
    && forall m :: m in kept <==> IsNamed(given, m) && (kind == KitionConsole ==> m !in c.retired && !AllEarlier(c, given))
  }

  lemma NamedMore(given: seq<string>, last: string, m: string)
    ensures IsNamed(given + [last], m) <==> IsNamed(given, m) || (m != "" && m == Trim(last))
  {
    hide Trim, TrimsTo;
    var all := given + [last];
    TrimIs(last);
    if IsNamed(all, m) {
      var k :| NamedAt(all, m, k);
      if k == |given| { TrimIsOnly(last, m); } else { assert NamedAt(given, m, k); }
    }
    if IsNamed(given, m) {
      var k :| NamedAt(given, m, k);
      assert NamedAt(all, m, k);
    }
    if m != "" && m == Trim(last) { assert NamedAt(all, m, |given|); }
  }

  /** The last one given is a new name, or adds none. */
  lemma NamesMore(given: seq<string>)
    requires given != []
    ensures var n := |given| - 1;
      var before, name := Names(given[..n]), Trim(given[n]);
      Names(given) == if name == "" || name in before then before else before + [name]
  {
    hide Trim, Trimmed;
  }

  lemma EndsWithLast<T>(s: seq<T>)
    requires s != []
    ensures s == s[..|s| - 1] + [s[|s| - 1]]
  {
  }

  lemma {:induction false} NamesAreNamed(given: seq<string>, m: string)
    ensures m in Names(given) <==> IsNamed(given, m)
  {
    if given != [] {
      hide Trim, IsNamed, Names;
      var n := |given| - 1;
      NamesMore(given);
      EndsWithLast(given);
      NamesAreNamed(given[..n], m);
      NamedMore(given[..n], given[n], m);
      NamesAre(given[..n]);
    }
  }

  lemma DiscoveredAreGiven(c: Cloud, kind: Kind, models: Option<seq<string>>)
    ensures AreDiscovered(c, kind, Or(models, []), Discovered(c, kind, models))
  {
    hide Trim, TrimsTo, Names, Unretired, IsNamed;
    var given := Or(models, []);
    var names := Names(given);
    assert models == None ==> names == [] by { NoNames(); }
    NamesAre(given);
    UnretiredAre(c, names);
    forall m ensures m in names <==> IsNamed(given, m) { NamesAreNamed(given, m); }
    if forall m :: m in names <==> m in c.legacy { EarlierAreLegacy(c, names); }
    if IsLegacy(c, names) {
      DistinctCount(names);
      SameSize((set m | m in names), c.legacy);
      assert forall m :: m in names <==> m in (set m | m in names);
    }
  }

  lemma EarlierAreLegacy(c: Cloud, names: seq<string>)
    requires AllDifferent(names) && forall m :: m in names <==> m in c.legacy
    ensures IsLegacy(c, names)
  {
    DistinctCount(names);
    assert (set m | m in names) == c.legacy;
  }

  lemma NoNames()
    ensures Names([]) == []
  {
  }

  /** The models that are kept stand in the order in which they were first given. */
  ghost predicate InGivenOrder(given: seq<string>, kept: seq<string>) {
    forall i, j :: 0 <= i < j < |kept| ==> GivenBefore(given, kept[i], kept[j])
  }

  /** Wherever the second is given, the first was given before. */
  ghost predicate GivenBefore(given: seq<string>, first: string, second: string) {
    forall b :: NamedAt(given, second, b) ==> exists a :: a < b && NamedAt(given, first, a)
  }

  lemma GivenBeforeMore(given: seq<string>, last: string, first: string, second: string)
    requires GivenBefore(given, first, second) && IsNamed(given, first)
    ensures GivenBefore(given + [last], first, second)
  {
    hide TrimsTo;
    var all := given + [last];
    var a0 :| NamedAt(given, first, a0);
    forall b | NamedAt(all, second, b) ensures exists a :: a < b && NamedAt(all, first, a) {
      if b < |given| {
        assert NamedAt(given, second, b);
        var a :| a < b && NamedAt(given, first, a);
        assert NamedAt(all, first, a);
      } else {
        assert NamedAt(all, first, a0);
      }
    }
  }

  lemma NamedEarlier(given: seq<string>, last: string, m: string, b: int)
    requires NamedAt(given + [last], m, b) && b < |given|
    ensures NamedAt(given, m, b)
  {
    hide TrimsTo;
  }

  lemma NewIsAfter(given: seq<string>, last: string, first: string, second: string)
    requires IsNamed(given, first) && second != "" && !IsNamed(given, second)
    ensures GivenBefore(given + [last], first, second)
  {
    hide TrimsTo;
    var all := given + [last];
    var a :| NamedAt(given, first, a);
    assert NamedAt(all, first, a);
    forall b | NamedAt(all, second, b) ensures b == |given| {
      if b < |given| { NamedEarlier(given, last, second, b); }
    }
  }

  lemma {:induction false} NamesInOrder(given: seq<string>)
    ensures InGivenOrder(given, Names(given))
  {
    if given != [] {
      hide Trim, IsNamed, Names, GivenBefore;
      var n := |given| - 1;
      var names, before := Names(given), Names(given[..n]);
      NamesInOrder(given[..n]);
      NamesMore(given);
      EndsWithLast(given);
      NamesAre(given[..n]);
      forall i, j | 0 <= i < j < |names| ensures GivenBefore(given, names[i], names[j]) {
        assert names[i] == before[i] && before[i] in before;
        NamesAreNamed(given[..n], names[i]);
        if j < |before| {
          assert GivenBefore(given[..n], before[i], before[j]);
          GivenBeforeMore(given[..n], given[n], names[i], names[j]);
        } else {
          NamesAreNamed(given[..n], names[j]);
          NewIsAfter(given[..n], given[n], names[i], names[j]);
        }
      }
    }
  }

  lemma {:induction false} UnretiredInOrder(c: Cloud, given: seq<string>, names: seq<string>)
    requires InGivenOrder(given, names)
    ensures InGivenOrder(given, Unretired(c, names))
  {
    hide GivenBefore;
    if names != [] {
      var n := |names| - 1;
      UnretiredInOrder(c, given, names[..n]);
      UnretiredAre(c, names[..n]);
      var kept, before := Unretired(c, names), Unretired(c, names[..n]);
      forall i, j | 0 <= i < j < |kept| ensures GivenBefore(given, kept[i], kept[j]) {
        if j == |before| {
          assert kept[i] == before[i] && before[i] in before;
          var k :| 0 <= k < n && names[k] == before[i];
          assert GivenBefore(given, names[k], names[n]);
        }
      }
    }
  }

  lemma DiscoveredInOrder(c: Cloud, kind: Kind, models: Option<seq<string>>)
    ensures InGivenOrder(Or(models, []), Discovered(c, kind, models))
  {
    hide Names, Unretired, GivenBefore;
    NoNames();
    NamesInOrder(Or(models, []));
    UnretiredInOrder(c, Or(models, []), Names(Or(models, [])));
  }

  /** Every provider of the catalog has each of its fields as given, or as the catalog has it. */
  lemma KeepsProviders(platform: Platform, input: Input, kind: Kind)
    ensures var s, given, entry := Normalized(platform, input), GivenFor(input, kind), platform.catalog(kind);
      kind in s.providers
      && var kept := s.providers[kind];
      (if kind == KitionConsole && s.models.active == KitionConsole then kept.enabled else IsGiven(given.enabled, false, kept.enabled))
      && IsGivenOr(given.title, entry.title, kept.title) && IsGiven(given.modelsPath, entry.modelsPath, kept.modelsPath)
      && IsGiven(given.secrets, Secrets("", "", ""), kept.secrets) && IsGiven(given.rest, entry.rest, kept.rest)
      && IsBaseUrl(platform.url, kind, if given.baseUrl.Some? then given.baseUrl.value else entry.baseUrl, kept.baseUrl)
      && AreDiscovered(platform.cloud, kind, if given.discovered.Some? then given.discovered.value else [], kept.discovered)
      && InGivenOrder(if given.discovered.Some? then given.discovered.value else [], kept.discovered)
  {
    hide HooksOf, SelectedOf, PreferredOf, ActiveOf, Discovered, ShortcutsOf, DisplayOf, NotificationsOf, GeneralOf,
      BaseUrl;
    hide IsBaseUrl, AreDiscovered, InGivenOrder;
    var given, entry := GivenFor(input, kind), platform.catalog(kind);
    CatalogIsAll(kind);
    BaseUrlIs(platform.url, kind, Or(given.baseUrl, entry.baseUrl));
    DiscoveredAreGiven(platform.cloud, kind, given.discovered);
    DiscoveredInOrder(platform.cloud, kind, given.discovered);
  }

  // ---- the chosen models ----

  /** The provider of the given name, or the cloud when there is none of that name. */
  ghost predicate IsActive(platform: Platform, given: string, kept: Kind) {
    if exists kind :: TrimsTo(given, platform.catalog(kind).name) then TrimsTo(given, platform.catalog(kept).name)
    else kept == KitionConsole
  }

  ghost predicate IsGone(c: Cloud, model: string) { exists m :: m in c.retired && TrimsTo(model, m) }

  lemma GoneIsRetired(c: Cloud, model: string)
    ensures IsGone(c, model) <==> IsRetired(c, model)
  {
    hide Trim, TrimsTo;
    TrimIs(model);
    if IsGone(c, model) {
      var m :| m in c.retired && TrimsTo(model, m);
      TrimIsOnly(model, m);
    }
  }

  lemma KeepsActive(platform: Platform, input: Input)
    ensures IsActive(platform, if input.models.active.Some? then input.models.active.value else "", Normalized(platform, input).models.active)
  {
    hide HooksOf, SelectedOf, PreferredOf, ProvidersOf, Discovered, ShortcutsOf, DisplayOf, NotificationsOf, GeneralOf,
      KindNamed, Trim, TrimsTo;
    var given := Or(input.models.active, "");
    TrimIs(given);
    forall kind ensures kind in CATALOG { CatalogIsAll(kind); }
    if exists kind :: TrimsTo(given, platform.catalog(kind).name) {
      var kind :| TrimsTo(given, platform.catalog(kind).name);
      TrimIsOnly(given, platform.catalog(kind).name);
      assert kind in CATALOG;
    }
  }

  ghost predicate IsPreferred(c: Cloud, active: Kind, given: Option<string>, kept: string) {
    if active == KitionConsole && given.Some? && IsGone(c, given.value) then kept == c.instead
    else IsGiven(given, "", kept)
  }

  lemma KeepsPreferred(platform: Platform, input: Input)
    ensures var s, m := Normalized(platform, input).models, input.models;
      IsPreferred(platform.cloud, s.active, m.preferredDefault, s.preferredDefault)
      && IsPreferred(platform.cloud, s.active, m.preferredChat, s.preferredChat)
      && IsPreferred(platform.cloud, s.active, m.preferredWriting, s.preferredWriting)
  {
    hide HooksOf, SelectedOf, ActiveOf, ProvidersOf, Discovered, ShortcutsOf, DisplayOf, NotificationsOf, GeneralOf,
      IsRetired, IsGone;
    forall model ensures IsGone(platform.cloud, model) <==> IsRetired(platform.cloud, model) { GoneIsRetired(platform.cloud, model); }
  }

  /** What is chosen for the cloud, before its offer is looked at: a model it no longer serves is replaced. */
  ghost function ServedFor(c: Cloud, given: Option<string>): Option<string> {
    if given.Some? && IsGone(c, given.value) then Some(c.instead) else given
  }

  ghost predicate IsFirstLikely(likely: string -> bool, offer: seq<string>, model: string) {
    exists k :: 0 <= k < |offer| && offer[k] == model && likely(model) && forall j :: 0 <= j < k ==> !likely(offer[j])
  }

  lemma {:induction false} FindIsFirst(likely: string -> bool, offer: seq<string>)
    ensures var found := FindLikely(likely, offer);
      (found == None ==> forall k :: 0 <= k < |offer| ==> !likely(offer[k])) && (found.Some? ==> IsFirstLikely(likely, offer, found.value))
  {
    if offer != [] && !likely(offer[0]) {
      FindIsFirst(likely, offer[1..]);
      var found := FindLikely(likely, offer[1..]);
      if found.Some? {
        var k :| 0 <= k < |offer[1..]| && offer[1..][k] == found.value && forall j :: 0 <= j < k ==> !likely(offer[1..][j]);
        assert offer[k + 1] == found.value;
        forall j | 0 <= j < k + 1 ensures !likely(offer[j]) { if j > 0 { assert offer[j] == offer[1..][j - 1]; } }
      }
    }
  }

  /**
   With the cloud active, the model chosen for it is one it offers, or the first it offers that is
   likely to write text.
   */
  ghost predicate IsOffered(likely: string -> bool, offer: seq<string>, served: Option<string>, kept: Option<string>) {
    if served.Some? && served.value != "" && served.value in offer then kept == served
    else if exists k :: 0 <= k < |offer| && likely(offer[k]) then kept.Some? && IsFirstLikely(likely, offer, kept.value)
    else kept == if served == Some("") then served else None
  }

  function At(selected: map<string, string>, name: string): Option<string> {
    if name in selected then Some(selected[name]) else None
  }

  /**
   The models chosen are kept for every other provider; for the cloud one that it serves, and offers
   when it is active.
   */
  lemma KeepsSelected(platform: Platform, input: Input, name: string)
    ensures var s, given := Normalized(platform, input), At(input.models.selected, name);
      var kept, served := At(s.models.selected, name), ServedFor(platform.cloud, given);
      KitionConsole in s.providers
      && if name != "kition_console" then kept == given
         else if s.models.active == KitionConsole then
           IsOffered(platform.likely, s.providers[KitionConsole].discovered, served, kept)
         else kept == served
  {
    hide HooksOf, PreferredOf, ActiveOf, Discovered, ShortcutsOf, DisplayOf, NotificationsOf, GeneralOf, IsRetired,
      IsGone, BaseUrl, FindLikely;
    var s, given := Normalized(platform, input), At(input.models.selected, name);
    CatalogIsAll(KitionConsole);
    FindIsFirst(platform.likely, s.providers[KitionConsole].discovered);
    if given.Some? { GoneIsRetired(platform.cloud, given.value); }
    if name == "kition_console" {
      assert At(Unretire(platform.cloud, input.models.selected), name) == ServedFor(platform.cloud, given);
    }
  }

  // ---- the build ----

  /** The texts of the build. */
  lemma BuildTexts(platform: Platform, input: Input)
    requires platform.choices == CHOICES
    ensures var s, d := Normalized(platform, input), input.display;
      (s.display.density == if d.density.Some? && d.density.value in {"compact", "normal", "relaxed"} then d.density.value else "normal")
      && (s.display.lineHeight == if d.lineHeight.Some? && d.lineHeight.value in {"tight", "normal", "loose"} then d.lineHeight.value else "normal")
      && (s.general.theme == if input.general.theme.Some? && input.general.theme.value in {"dark", "light"} then input.general.theme.value else "auto")
  {
    hide HooksOf, SelectedOf, PreferredOf, ActiveOf, ProvidersOf, Discovered, ShortcutsOf, NotificationsOf, Whole, Zoom;
  }

  // ---- secrets ----

  function FieldOf(secrets: Secrets, field: Field): string {
    match field
    case ApiKey => secrets.apiKey
    case AccessToken => secrets.accessToken
    case RefreshToken => secrets.refreshToken
  }

  /** The secret given for a provider, empty when there is none. */
  function SecretGiven(input: Input, kind: Kind, field: Field): string {
    if GivenFor(input, kind).secrets.Some? then FieldOf(GivenFor(input, kind).secrets.value, field) else ""
  }

  /** The secret stored for a provider, empty when there is none. */
  function SecretStored(secure: Secure, kind: Kind, field: Field): string {
    if (kind, field) in secure then secure[(kind, field)] else ""
  }

  /**
   A save keeps the secret given, and without one the stored one, unless that is to be cleared; a
   load prefers the stored one.
   */
  lemma KeepsSecrets(platform: Platform, secure: Secure, input: Input, clear: set<Kind>, kind: Kind, field: Field)
    ensures var saved, loaded := Saved(platform, secure, input, clear), Loaded(platform, secure, input);
      var given, stored := SecretGiven(input, kind, field), SecretStored(secure, kind, field);
      kind in saved.providers && kind in loaded.providers
      && FieldOf(saved.providers[kind].secrets, field) == (if given != "" then given else if kind in clear then "" else stored)
      && FieldOf(loaded.providers[kind].secrets, field) == if stored != "" then stored else given
  {
    hide Normalized, GivenFor;
    NormalizedSecret(platform, input, kind, field);
  }

  lemma NormalizedSecret(platform: Platform, input: Input, kind: Kind, field: Field)
    ensures var s := Normalized(platform, input);
      kind in s.providers && SecretIn(s, kind, field) == SecretGiven(input, kind, field)
  {
    hide Normalized, IsBaseUrl, AreDiscovered, InGivenOrder, GivenFor;
    KeepsProviders(platform, input, kind);
  }
}
