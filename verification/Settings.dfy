/**
 The desktop settings (`src/services/desktopSettings.ts`): what is stored is normalized when it
 is loaded and before it is saved, and provider secrets live in a secure store of their own.
 A missing field is `None`. Numbers are exact reals, so rounding in binary is left out; reading
 the settings from JSON gives back what was printed; secure-store operations succeed.
 */
module Settings {
  import opened Options
  import opened Text

  // ---- the providers ----

  datatype Kind = KitionConsole | OpenAI | Anthropic | DeepSeek | Kimi | Custom

  const CATALOG: seq<Kind> := [KitionConsole, OpenAI, Anthropic, DeepSeek, Kimi, Custom]

  /** What the catalog says of a provider; `rest`: the fields that are copied as they are. */
  datatype Descriptor = Descriptor(name: string, title: string, baseUrl: string, modelsPath: string, rest: string)

  function Described(kind: Kind): Descriptor {
    match kind
    case KitionConsole => Descriptor("kition_console", "Kition Cloud", "", "/models", "")
    case OpenAI => Descriptor("openai", "OpenAI", "https://api.openai.com/v1", "/models", "")
    case Anthropic => Descriptor("anthropic", "Anthropic", "https://api.anthropic.com", "/v1/models", "")
    case DeepSeek => Descriptor("deepseek", "DeepSeek", "https://api.deepseek.com/anthropic", "/models", "")
    case Kimi => Descriptor("kimi", "Kimi", "https://api.moonshot.cn/v1", "/models", "")
    case Custom => Descriptor("custom", "Custom", "", "/models", "")
  }

  /** Names have no blanks around them, and no two providers have one name. */
  ghost predicate Named(catalog: Kind -> Descriptor) {
    (forall kind :: Trimmed(catalog(kind).name)) && forall k, l :: catalog(k).name == catalog(l).name ==> k == l
  }

  lemma DescribedIsNamed()
    ensures Named(Described)
  {
  }

  // ---- base URLs ----

  /**
   The platform's URL parser: the path of a URL, `None` for text that is none; whether that
   path is opaque, as in `localhost:`, where no host follows the scheme; the URL printed as
   it is, and printed with another path.
   */
  datatype Url = Url(path: string -> Option<string>, opaquePath: string -> bool, printed: string -> string,
                     repath: (string, string) -> string)

  predicate Bare(path: string) { path == "" || path == "/" }

  function AppendedPath(kind: Kind): Option<string> {
    match kind
    case DeepSeek => Some("/anthropic")
    case OpenAI => Some("/v1")
    case Kimi => Some("/v1")
    case Custom => Some("/v1")
    case _ => None
  }

  predicate EndsSlash(s: string) { s != "" && s[|s| - 1] == '/' }

  /** `replace(/\/$/, '')`: one slash at the end. */
  function DropSlash(s: string): string { if EndsSlash(s) then s[..|s| - 1] else s }

  /** The URL printed after its path is set, which does nothing to an opaque one. */
  function Repathed(url: Url, raw: string, path: string): string {
    if url.opaquePath(raw) then url.printed(raw) else url.repath(raw, path)
  }

  /** What is taken of the parser, for URLs without a path of their own and the paths that are set. */
  ghost predicate Prints(url: Url) {
    forall raw, path :: url.path(raw).Some? && Bare(url.path(raw).value) && path in {"/anthropic", "/v1"} ==>
      PrintsWell(url, raw, path)
  }

  predicate PrintsWell(url: Url, raw: string, path: string) {
    if url.opaquePath(raw) then PrintsItself(url, raw) else PrintsPath(url, raw, path)
  }

  /** A path that was set is printed: no blanks around the text, and the same path, also without its last slash. */
  predicate PrintsPath(url: Url, raw: string, path: string) {
    var printed := DropSlash(url.repath(raw, path));
    printed != "" && Trimmed(printed) && url.path(printed) == Some(path)
  }

  /**
   A URL with an empty opaque path prints without blanks as a URL of that kind, which prints
   as itself, also without its last slash; and a slash behind that gives it no other path.
   */
  predicate PrintsItself(url: Url, raw: string) {
    var printed := DropSlash(url.printed(raw));
    printed != "" && Trimmed(printed) && url.path(printed).Some? && Bare(url.path(printed).value)
    && url.opaquePath(printed) && url.printed(printed) == printed
    && url.path(printed + "/").Some? && Bare(url.path(printed + "/").value)
  }

  /** A parser that takes every text for a path, except for one URL with an empty opaque path. */
  function SampleUrl(): Url {
    Url(s => if s == "mailto:" then Some("") else if s == "mailto:/" then Some("/") else Some(s),
        s => s == "mailto:", s => s, (raw, path) => path)
  }

  /** There are such parsers, with URLs of both kinds. */
  lemma SomeUrlPrints()
    ensures Prints(SampleUrl()) && SampleUrl().opaquePath("mailto:") && !SampleUrl().opaquePath("/")
  {
    var url := SampleUrl();
    assert "mailto:" + "/" == "mailto:/";
    forall raw, path | url.path(raw).Some? && Bare(url.path(raw).value) && path in {"/anthropic", "/v1"}
      ensures PrintsWell(url, raw, path)
    {
      assert DropSlash(path) == path && DropSlash("mailto:") == "mailto:";
    }
  }

  predicate Appends(url: Url, kind: Kind, raw: string) {
    url.path(raw).Some? && Bare(url.path(raw).value) && AppendedPath(kind).Some?
  }

  /** `normalizeProviderBaseURL`. */
  function BaseUrl(url: Url, kind: Kind, baseUrl: string): string {
    var raw := Trim(baseUrl);
    if raw == "" || url.path(raw) == None then raw
    else if Appends(url, kind, raw) then DropSlash(Repathed(url, raw, AppendedPath(kind).value))
    else DropSlash(raw)
  }

  /**
   One slash is dropped, and what is left is not looked at again. It stays as it is when it
   has no slash and no blank at its end and, for a provider whose bare URLs get a path, is no
   bare URL, or one whose path could not be set; or when it is no URL any more.
   */
  predicate Steady(url: Url, kind: Kind, raw: string) {
    if raw == "" || url.path(raw) == None then true
    else if Appends(url, kind, raw) then !EndsSlash(DropSlash(Repathed(url, raw, AppendedPath(kind).value)))
    else if !EndsSlash(raw) then true
    else
      var rest := raw[..|raw| - 1];
      Trimmed(rest) && (rest == "" || url.path(rest) == None || (!EndsSlash(rest) && !Appends(url, kind, rest)))
  }

  /**
   A provider's path is appended exactly to the bare URLs that can have one: an opaque one, like
   `localhost:`, stays bare.
   */
  lemma PathIsAppended(url: Url, kind: Kind, raw: string)
    requires Prints(url) && Trimmed(raw) && raw != "" && Appends(url, kind, raw)
    ensures var base := url.path(BaseUrl(url, kind, raw));
      base.Some? && (base.value == AppendedPath(kind).value <==> !url.opaquePath(raw)) && (Bare(base.value) <==> url.opaquePath(raw))
  {
    hide Trim;
    TrimChanges(raw);
    assert PrintsWell(url, raw, AppendedPath(kind).value);
  }

  /** Two slashes behind a host whose provider gets no path go one by one. */
  lemma SlashesGoOneByOne(url: Url, raw: string)
    requires raw == "https://h//" && url.path(raw).Some? && url.path("https://h/").Some?
    ensures BaseUrl(url, Anthropic, raw) == "https://h/" && BaseUrl(url, Anthropic, "https://h/") == "https://h"
  {
    hide Trim;
    TrimChanges(raw);
    TrimChanges("https://h/");
  }

  /** Normalizing twice is normalizing once, exactly for the base URLs that are steady. */
  lemma BaseUrlTwice(url: Url, kind: Kind, baseUrl: string)
    requires Prints(url)
    ensures BaseUrl(url, kind, BaseUrl(url, kind, baseUrl)) == BaseUrl(url, kind, baseUrl)
      <==> Steady(url, kind, Trim(baseUrl))
  {
    hide Trim;
    var raw := Trim(baseUrl);
    TrimChanges(baseUrl);
    TrimChanges(BaseUrl(url, kind, baseUrl));
    if raw != "" && url.path(raw).Some? {
      if Appends(url, kind, raw) {
        assert PrintsWell(url, raw, AppendedPath(kind).value);
      } else if EndsSlash(raw) {
        RestTwice(url, kind, raw);
      }
    }
  }

  lemma RestTwice(url: Url, kind: Kind, raw: string)
    requires Prints(url) && EndsSlash(raw) && url.path(raw).Some? && !Appends(url, kind, raw)
    ensures var rest := raw[..|raw| - 1]; BaseUrl(url, kind, rest) == rest <==> Steady(url, kind, raw)
  {
    hide Trim;
    var rest := raw[..|raw| - 1];
    BlankIsTaken(url, kind, rest);
    TrimChanges(rest);
    if Trimmed(rest) && rest != "" && url.path(rest).Some? && Appends(url, kind, rest) {
      assert PrintsWell(url, rest, AppendedPath(kind).value);
      assert rest + "/" == raw;
    }
  }

  /** A blank at an end never stays. */
  lemma BlankIsTaken(url: Url, kind: Kind, raw: string)
    requires Prints(url)
    ensures !Trimmed(raw) ==> BaseUrl(url, kind, raw) != raw
  {
    hide Trim;
    var t := Trim(raw);
    TrimChanges(raw);
    if t != "" && url.path(t).Some? && Appends(url, kind, t) {
      assert PrintsWell(url, t, AppendedPath(kind).value);
    }
  }

  // ---- models ----

  /** The cloud's models of an earlier release, those it no longer serves, and the one chosen instead. */
  datatype Cloud = Cloud(legacy: set<string>, retired: set<string>, instead: string)

  const CLOUD := Cloud({"gpt-5.5", "gpt-image-1", "dall-e-3"}, {"gpt-5.5", "gpt-5.4-mini"}, "gpt-5.6-sol")

  /** One of the earlier models is retired, and the one chosen instead is not. */
  predicate SoundCloud(c: Cloud) {
    (exists m :: m in c.legacy && m in c.retired) && c.instead !in c.retired && Trimmed(c.instead) && "" !in c.retired
  }

  lemma CloudIsSound()
    ensures SoundCloud(CLOUD)
  {
    assert "gpt-5.5" in CLOUD.legacy && "gpt-5.5" in CLOUD.retired;
  }

  predicate AllDifferent(models: seq<string>) { forall i, j :: 0 <= i < j < |models| ==> models[i] != models[j] }

  predicate AllGiven(models: seq<string>) { forall m :: m in models ==> m != "" && Trimmed(m) }

  /** `Array.from(new Set(…))` of the names that are not blank, trimmed. */
  function Names(models: seq<string>): seq<string> {
    if models == [] then []
    else
      var before, name := Names(models[..|models| - 1]), Trim(models[|models| - 1]);
      if name == "" || name in before then before else before + [name]
  }

  lemma {:induction false} NamesAre(models: seq<string>)
    ensures AllGiven(Names(models)) && AllDifferent(Names(models))
  {
    hide Trim;
    if models != [] {
      NamesAre(models[..|models| - 1]);
      TrimChanges(models[|models| - 1]);
    }
  }

  function Unretired(c: Cloud, models: seq<string>): seq<string> {
    if models == [] then []
    else
      var before := Unretired(c, models[..|models| - 1]);
      if models[|models| - 1] in c.retired then before else before + [models[|models| - 1]]
  }

  lemma {:induction false} UnretiredAre(c: Cloud, models: seq<string>)
    ensures forall m :: m in Unretired(c, models) <==> m in models && m !in c.retired
    ensures AllDifferent(models) ==> AllDifferent(Unretired(c, models))
  {
    if models != [] {
      var n := |models| - 1;
      UnretiredAre(c, models[..n]);
      assert models == models[..n] + [models[n]];
      if AllDifferent(models) { assert models[n] !in models[..n]; }
    }
  }

  predicate IsLegacy(c: Cloud, models: seq<string>) { |models| == |c.legacy| && forall m :: m in models ==> m in c.legacy }

  function Discovered(c: Cloud, kind: Kind, models: Option<seq<string>>): seq<string> {
    var names := if models == None then [] else Names(models.value);
    if kind != KitionConsole then names else if IsLegacy(c, names) then [] else Unretired(c, names)
  }

  lemma {:induction false} NamesTwice(names: seq<string>)
    requires AllGiven(names) && AllDifferent(names)
    ensures Names(names) == names
  {
    hide Trim, Trimmed;
    if names != [] {
      var n := |names| - 1;
      assert names == names[..n] + [names[n]];
      forall m | m in names[..n] ensures m != "" && Trimmed(m) { assert m in names; }
      NamesTwice(names[..n]);
      assert names[n] in names;
      TrimChanges(names[n]);
      assert forall i :: 0 <= i < n ==> names[..n][i] != names[n];
    }
  }

  lemma {:induction false} UnretiredTwice(c: Cloud, models: seq<string>)
    requires forall m :: m in models ==> m !in c.retired
    ensures Unretired(c, models) == models
  {
    if models != [] {
      var n := |models| - 1;
      assert models == models[..n] + [models[n]];
      assert models[n] in models;
      UnretiredTwice(c, models[..n]);
    }
  }

  lemma {:induction false} DistinctCount(names: seq<string>)
    requires AllDifferent(names)
    ensures |set m | m in names| == |names|
  {
    if names != [] {
      var n := |names| - 1;
      DistinctCount(names[..n]);
      assert names == names[..n] + [names[n]];
      assert (set m | m in names) == (set m | m in names[..n]) + {names[n]};
    }
  }

  /** As many different names as there are legacy ones, all legacy, are all of them: a retired one is among them. */
  lemma LegacyHasRetired(c: Cloud, names: seq<string>)
    requires AllDifferent(names) && IsLegacy(c, names) && SoundCloud(c)
    ensures exists m :: m in names && m in c.retired
  {
    var all := set m | m in names;
    DistinctCount(names);
    SameSize(all, c.legacy);
    var m :| m in c.legacy && m in c.retired;
    assert m in all;
  }

  lemma SameSize(a: set<string>, b: set<string>)
    requires a <= b && |a| == |b|
    ensures a == b
  {
    if a != b {
      var x :| x in b && x !in a;
      assert |b - {x}| == |b| - 1;
      Smaller(a, b - {x});
    }
  }

  lemma {:induction false} Smaller(a: set<string>, b: set<string>)
    requires a <= b
    ensures |a| <= |b|
    decreases a
  {
    if a != {} {
      var x :| x in a;
      Smaller(a - {x}, b - {x});
    }
  }

  /** What one pass leaves: different, given names, and for the cloud none that is retired. */
  lemma DiscoveredAre(c: Cloud, kind: Kind, models: Option<seq<string>>)
    ensures var once := Discovered(c, kind, models);
      AllGiven(once) && AllDifferent(once) && (kind == KitionConsole ==> forall m :: m in once ==> m !in c.retired)
  {
    hide Names, Unretired, Trimmed;
    if models.Some? {
      NamesAre(models.value);
      UnretiredAre(c, Names(models.value));
    } else {
      UnretiredAre(c, []);
    }
  }

  /** The test for the legacy set cannot fire on what a first pass left. */
  lemma DiscoveredTwice(c: Cloud, kind: Kind, models: Option<seq<string>>)
    requires SoundCloud(c)
    ensures Discovered(c, kind, Some(Discovered(c, kind, models))) == Discovered(c, kind, models)
  {
    var once := Discovered(c, kind, models);
    DiscoveredAre(c, kind, models);
    hide Names, AllGiven, AllDifferent, Unretired;
    NamesTwice(once);
    if kind == KitionConsole {
      if IsLegacy(c, once) { LegacyHasRetired(c, once); }
      UnretiredTwice(c, once);
    }
  }

  // ---- one provider ----

  /**
   What settings are normalized with: the URL parser, which model names are likely to write text, and
   the defaults of the build.
   */
  datatype Platform = Platform(url: Url, likely: string -> bool, shortcuts: seq<Shortcut>, catalog: Kind -> Descriptor,
                               choices: Choices, cloud: Cloud)

  /**
   What normalizing takes of them: a parser that prints paths, different names and ids, and a default
   model that is served.
   */
  ghost predicate Sound(platform: Platform) {
    Prints(platform.url) && IdsDiffer(platform.shortcuts) && Named(platform.catalog) && SoundCloud(platform.cloud)
  }

  datatype Secrets = Secrets(apiKey: string, accessToken: string, refreshToken: string)

  /** `rest`: the fields that are copied as they are. */
  datatype Provider = Provider(enabled: bool, title: string, baseUrl: string, modelsPath: string, secrets: Secrets,
                               discovered: seq<string>, rest: string)
  datatype ProviderInput = ProviderInput(enabled: Option<bool>, title: Option<string>, baseUrl: Option<string>,
                                         modelsPath: Option<string>,
                                         secrets: Option<Secrets>, discovered: Option<seq<string>>, rest: Option<string>)

  function Or<T>(o: Option<T>, fallback: T): T { if o == None then fallback else o.value }

  const ABSENT := ProviderInput(None, None, None, None, None, None, None)

  function ProviderOf(platform: Platform, kind: Kind, input: ProviderInput): Provider {
    Provider(Or(input.enabled, false),
             if Or(input.title, "") == "" then platform.catalog(kind).title else input.title.value,
             BaseUrl(platform.url, kind, Or(input.baseUrl, platform.catalog(kind).baseUrl)),
             Or(input.modelsPath, platform.catalog(kind).modelsPath),
             Or(input.secrets, Secrets("", "", "")),
             Discovered(platform.cloud, kind, input.discovered),
             Or(input.rest, platform.catalog(kind).rest))
  }

  function ProviderAgain(p: Provider): ProviderInput {
    ProviderInput(Some(p.enabled), Some(p.title), Some(p.baseUrl), Some(p.modelsPath), Some(p.secrets), Some(p.discovered), Some(p.rest))
  }

  /** A provider is normalized once for all, when its base URL is steady. */
  lemma ProviderTwice(platform: Platform, kind: Kind, input: ProviderInput, enabled: bool, secrets: Secrets)
    requires Prints(platform.url) && SoundCloud(platform.cloud)
    ensures var p := ProviderOf(platform, kind, input).(enabled := enabled, secrets := secrets);
      ProviderOf(platform, kind, ProviderAgain(p)) == p <==> Steady(platform.url, kind, Trim(Or(input.baseUrl, platform.catalog(kind).baseUrl)))
  {
    hide BaseUrl, Discovered, Steady, Trim;
    DiscoveredTwice(platform.cloud, kind, input.discovered);
    BaseUrlTwice(platform.url, kind, Or(input.baseUrl, platform.catalog(kind).baseUrl));
  }

  // ---- display, notifications, hooks ----

  /** A JavaScript number, exact. */
  datatype Number = NaN | PositiveInfinity | NegativeInfinity | Finite(value: real)

  /** `Math.round`: halves go up. */
  function Rounded(x: real): int { (x + 0.5).Floor }

  function Clamped(x: int, least: int, most: int): (r: int)
    requires least <= most
    ensures least <= r <= most
    ensures least <= x <= most ==> r == x
  {
    if x < least then least else if x > most then most else x
  }

  /** A whole number between two bounds; the least for a number that is not finite. */
  function Whole(n: Number, least: int, most: int): (r: int)
    requires least <= most
    ensures least <= r <= most
    ensures n.Finite? && n.value.Floor as real == n.value && least <= n.value.Floor <= most ==> r == n.value.Floor
  {
    if n.Finite? then Clamped(Rounded(n.value), least, most) else least
  }

  /** The zoom in twentieths, from 0.85 to 1.50. */
  function Zoom(n: Number): (r: real)
    ensures 0.85 <= r <= 1.5
    ensures (r * 20.0).Floor as real == r * 20.0
    ensures n.Finite? && 0.85 <= n.value <= 1.5 && (n.value * 20.0).Floor as real == n.value * 20.0 ==> r == n.value
  {
    var twentieths := if n.Finite? then Clamped(Rounded(n.value * 20.0), 17, 30) else 17;
    assert (twentieths as real).Floor == twentieths;
    twentieths as real / 20.0
  }

  datatype Display = Display(zoom: real, density: string, font: string, fontSize: int, reduceMotion: bool,
                             lineHeight: string, toolbar: bool)
  datatype DisplayInput = DisplayInput(zoom: Option<Number>, density: Option<string>, font: Option<string>,
                                       fontSize: Option<Number>,
                                       reduceMotion: Option<bool>, lineHeight: Option<string>, toolbar: Option<bool>)

  /** The texts a setting may have, and the one it has otherwise. */
  datatype Choice = Choice(values: set<string>, fallback: string)
  datatype Choices = Choices(density: Choice, font: Choice, lineHeight: Choice, event: Choice, theme: Choice,
                             translation: Choice)

  const CHOICES := Choices(
    Choice({"compact", "normal", "relaxed"}, "normal"),
    Choice({"JetBrains Mono", "Fira Code", "Menlo", "Consolas", "system-ui"}, "JetBrains Mono"),
    Choice({"tight", "normal", "loose"}, "normal"),
    Choice({"session_started", "task_started", "task_completed", "task_failed", "tool_called", "on_quit"}, "task_completed"),
    Choice({"dark", "light"}, "auto"),
    Choice({"en", "zh-Hans", "zh-Hant", "ja", "ko", "es", "fr", "de", "it", "pt-BR", "ru", "ar"}, "auto"))

  function OneOf(value: Option<string>, choice: Choice): (r: string)
    ensures r in choice.values || r == choice.fallback
    ensures value.Some? && (value.value in choice.values || value.value == choice.fallback) ==> r == value.value
  {
    if value.Some? && value.value in choice.values then value.value else choice.fallback
  }

  function DisplayOf(choices: Choices, input: DisplayInput): Display {
    Display(Zoom(Or(input.zoom, Finite(1.0))), OneOf(input.density, choices.density), OneOf(input.font, choices.font),
            Whole(Or(input.fontSize, Finite(13.0)), 12, 18), Or(input.reduceMotion, false),
            OneOf(input.lineHeight, choices.lineHeight), Or(input.toolbar, false))
  }

  function DisplayAgain(d: Display): DisplayInput {
    DisplayInput(Some(Finite(d.zoom)), Some(d.density), Some(d.font), Some(Finite(d.fontSize as real)), Some(d.reduceMotion), Some(d.lineHeight), Some(d.toolbar))
  }

  lemma DisplayTwice(choices: Choices, input: DisplayInput)
    ensures DisplayOf(choices, DisplayAgain(DisplayOf(choices, input))) == DisplayOf(choices, input)
  {
    hide Zoom, Whole, OneOf;
    var d := DisplayOf(choices, input);
    assert (d.fontSize as real).Floor == d.fontSize;
  }

  datatype Notifications = Notifications(system: bool, completed: bool, failed: bool, inputNeeded: bool, threshold: int)
  datatype NotificationsInput = NotificationsInput(system: Option<bool>, completed: Option<bool>, failed: Option<bool>, inputNeeded: Option<bool>,
                                                   threshold: Option<Number>)

  function NotificationsOf(input: NotificationsInput): Notifications {
    Notifications(Or(input.system, true), Or(input.completed, true), Or(input.failed, true), Or(input.inputNeeded, true),
                  Whole(Or(input.threshold, Finite(0.0)), 0, 3600))
  }

  function NotificationsAgain(n: Notifications): NotificationsInput {
    NotificationsInput(Some(n.system), Some(n.completed), Some(n.failed), Some(n.inputNeeded), Some(Finite(n.threshold as real)))
  }

  lemma NotificationsTwice(input: NotificationsInput)
    ensures NotificationsOf(NotificationsAgain(NotificationsOf(input))) == NotificationsOf(input)
  {
    hide Whole;
    var n := NotificationsOf(input);
    assert (n.threshold as real).Floor == n.threshold;
  }

  datatype Hook = Hook(id: string, name: string, enabled: bool, event: string, command: string, workdir: string,
                       timeout: int,
                       matcher: Option<string>, lastRunAt: Option<string>, lastExitCode: Option<int>)
  datatype HookInput = HookInput(id: string, name: string, enabled: Option<bool>, event: Option<string>,
                                 command: string, workdir: string,
                                 timeout: Option<Number>, matcher: Option<string>, lastRunAt: Option<string>, lastExitCode: Option<int>)

  function Slice(s: string, most: nat): (r: string)
    ensures |r| <= most && r <= s && (|s| <= most ==> r == s)
  {
    if |s| > most then s[..most] else s
  }

  /** A missing or empty text is left out. */
  function Given(s: Option<string>): Option<string> { if s == Some("") then None else s }

  function SliceGiven(s: Option<string>, most: nat): (r: Option<string>)
    requires most > 0
    ensures SliceGivenTwice(r, most)
  {
    if Given(s) == None then None else Some(Slice(s.value, most))
  }

  predicate SliceGivenTwice(r: Option<string>, most: nat) { r.Some? ==> r.value != "" && |r.value| <= most }

  function HookOf(events: Choice, h: HookInput): Hook {
    Hook(Trim(h.id), Slice(h.name, 60), Or(h.enabled, true), OneOf(h.event, events), Slice(h.command, 1024),
         Slice(h.workdir, 1024), Whole(Or(h.timeout, Finite(30.0)), 1, 300), SliceGiven(h.matcher, 256), Given(h.lastRunAt), h.lastExitCode)
  }

  function HookAgain(h: Hook): HookInput {
    HookInput(h.id, h.name, Some(h.enabled), Some(h.event), h.command, h.workdir, Some(Finite(h.timeout as real)), h.matcher, h.lastRunAt, h.lastExitCode)
  }

  /** Entries that are no objects, and hooks without an id, are dropped. */
  function HooksOf(events: Choice, hooks: seq<Option<HookInput>>): seq<Hook> {
    if hooks == [] then []
    else
      var before, last := HooksOf(events, hooks[..|hooks| - 1]), hooks[|hooks| - 1];
      if last == None || Trim(last.value.id) == "" then before else before + [HookOf(events, last.value)]
  }

  function HooksAgain(hooks: seq<Hook>): (r: seq<Option<HookInput>>)
    ensures |r| == |hooks| && forall i :: 0 <= i < |r| ==> r[i] == Some(HookAgain(hooks[i]))
  {
    seq(|hooks|, i requires 0 <= i < |hooks| => Some(HookAgain(hooks[i])))
  }

  /** `normalizeDesktopHooks`. */
  method NormalizeHooks(events: Choice, input: seq<Option<HookInput>>) returns (result: seq<Hook>)
    ensures result == HooksOf(events, input)
  {
    hide HookOf, Trim;
    result := [];
    for i := 0 to |input|
      invariant result == HooksOf(events, input[..i])
    {
      assert input[..i + 1][..i] == input[..i];
      if input[i] == None { continue; }
      var raw := input[i].value;
      if Trim(raw.id) == "" { continue; }
      result := result + [HookOf(events, raw)];
    }
    assert input[..|input|] == input;
  }

  lemma HookTwice(events: Choice, h: HookInput)
    ensures HookOf(events, HookAgain(HookOf(events, h))) == HookOf(events, h)
  {
    hide Trim, Whole, OneOf, Slice;
    TrimChanges(h.id);
    TrimChanges(Trim(h.id));
    var hook := HookOf(events, h);
    assert (hook.timeout as real).Floor == hook.timeout;
    assert SliceGivenTwice(hook.matcher, 256);
  }

  predicate HookKept(events: Choice, h: Hook) { h.id != "" && Trim(h.id) == h.id && HookOf(events, HookAgain(h)) == h }

  lemma {:induction false} HooksAreKept(events: Choice, hooks: seq<Option<HookInput>>)
    ensures forall h :: h in HooksOf(events, hooks) ==> HookKept(events, h)
  {
    hide HookOf, Trim, HookAgain;
    if hooks != [] {
      HooksAreKept(events, hooks[..|hooks| - 1]);
      var last := hooks[|hooks| - 1];
      if last.Some? {
        HookTwice(events, last.value);
        TrimChanges(last.value.id);
        TrimChanges(Trim(last.value.id));
        HookId(events, last.value);
      }
    }
  }

  lemma HookId(events: Choice, h: HookInput)
    ensures HookOf(events, h).id == Trim(h.id)
  {
  }

  lemma {:induction false} HooksTwice(events: Choice, hooks: seq<Hook>)
    requires forall h :: h in hooks ==> HookKept(events, h)
    ensures HooksOf(events, HooksAgain(hooks)) == hooks
  {
    hide HookOf, Trim, HookAgain;
    if hooks != [] {
      var n := |hooks| - 1;
      assert HooksAgain(hooks)[..n] == HooksAgain(hooks[..n]);
      assert forall h :: h in hooks[..n] ==> h in hooks;
      HooksTwice(events, hooks[..n]);
      assert hooks[n] in hooks && hooks == hooks[..n] + [hooks[n]];
      HookAgainId(hooks[n]);
    }
  }

  lemma HookAgainId(h: Hook)
    ensures HookAgain(h).id == h.id
  {
  }

  // ---- shortcuts ----

  datatype Shortcut = Shortcut(id: string, title: string, combo: string, enabled: bool, description: string)

  const SHORTCUTS: seq<Shortcut> := [
    Shortcut("open_settings", "Open settings", "Cmd+,", true, "Open the desktop settings page."),
    Shortcut("open_help", "Open help", "Shift+/", true, "View help and runtime directories."),
    Shortcut("new_creation", "New document", "Cmd+N", true, "Jump to the local document library."),
    Shortcut("toggle_fullscreen", "Toggle fullscreen", "F11", true, "Toggle the current window fullscreen state."),
    Shortcut("reload_window", "Reload window", "Cmd+R", true, "Reload the current desktop window.")]

  /** What a map of the input by id holds: the last one of an id. */
  function LastOf(input: seq<Shortcut>, id: string): (r: Option<Shortcut>)
    ensures r.Some? ==> r.value in input && r.value.id == id
    ensures r == None ==> forall s :: s in input ==> s.id != id
  {
    if input == [] then None
    else if input[|input| - 1].id == id then Some(input[|input| - 1])
    else
      assert input == input[..|input| - 1] + [input[|input| - 1]];
      LastOf(input[..|input| - 1], id)
  }

  function ShortcutsOf(defaults: seq<Shortcut>, input: seq<Shortcut>): (r: seq<Shortcut>)
    ensures |r| == |defaults| && forall i :: 0 <= i < |r| ==> r[i] == Or(LastOf(input, defaults[i].id), defaults[i])
  {
    seq(|defaults|, i requires 0 <= i < |defaults| => Or(LastOf(input, defaults[i].id), defaults[i]))
  }

  predicate IdsDiffer(shortcuts: seq<Shortcut>) { forall i, j :: 0 <= i < j < |shortcuts| ==> shortcuts[i].id != shortcuts[j].id }

  lemma ShortcutsTwice(defaults: seq<Shortcut>, input: seq<Shortcut>)
    requires IdsDiffer(defaults)
    ensures ShortcutsOf(defaults, ShortcutsOf(defaults, input)) == ShortcutsOf(defaults, input)
  {
    hide LastOf;
    var once := ShortcutsOf(defaults, input);
    forall i | 0 <= i < |once| ensures once[i].id == defaults[i].id { }
    forall i | 0 <= i < |once| ensures LastOf(once, defaults[i].id) == Some(once[i]) {
      assert once[i] in once;
      var found := LastOf(once, defaults[i].id).value;
      var j :| 0 <= j < |once| && once[j] == found;
      assert defaults[j].id == defaults[i].id;
    }
  }

  // ---- the chosen models ----

  datatype Models = Models(active: Kind, selected: map<string, string>, preferredDefault: string, preferredChat: string,
                           preferredWriting: string)
  datatype ModelsInput = ModelsInput(active: Option<string>, selected: map<string, string>,
                                     preferredDefault: Option<string>, preferredChat: Option<string>, preferredWriting: Option<string>)

  /** The provider of the catalog with this name. */
  function KindNamed(catalog: Kind -> Descriptor, kinds: seq<Kind>, name: string): (r: Option<Kind>)
    ensures r.Some? ==> r.value in kinds && catalog(r.value).name == name
    ensures r == None ==> forall kind :: kind in kinds ==> catalog(kind).name != name
  {
    if kinds == [] then None
    else if catalog(kinds[0]).name == name then Some(kinds[0])
    else KindNamed(catalog, kinds[1..], name)
  }

  function ActiveOf(catalog: Kind -> Descriptor, active: Option<string>): Kind {
    Or(KindNamed(catalog, CATALOG, Trim(Or(active, ""))), KitionConsole)
  }

  lemma ActiveTwice(catalog: Kind -> Descriptor, kind: Kind)
    requires Named(catalog)
    ensures ActiveOf(catalog, Some(catalog(kind).name)) == kind
  {
    hide Trim, Trimmed, KindNamed;
    TrimChanges(catalog(kind).name);
    assert kind in CATALOG;
  }

  predicate IsRetired(c: Cloud, model: string) { Trim(model) in c.retired }

  function PreferredOf(c: Cloud, active: Kind, model: Option<string>): string {
    if active == KitionConsole && model.Some? && IsRetired(c, model.value) then c.instead else Or(model, "")
  }

  lemma DefaultIsNotRetired(c: Cloud)
    requires SoundCloud(c)
    ensures !IsRetired(c, c.instead)
  {
    hide Trim;
    TrimChanges(c.instead);
  }

  lemma PreferredTwice(c: Cloud, active: Kind, model: Option<string>)
    requires SoundCloud(c)
    ensures PreferredOf(c, active, Some(PreferredOf(c, active, model))) == PreferredOf(c, active, model)
  {
    hide IsRetired;
    DefaultIsNotRetired(c);
    EmptyIsNotRetired(c);
  }

  function FindLikely(likely: string -> bool, models: seq<string>): (r: Option<string>)
    ensures r.Some? ==> r.value in models
  {
    if models == [] then None else if likely(models[0]) then Some(models[0]) else FindLikely(likely, models[1..])
  }

  const CLOUD_NAME := "kition_console"

  function Unretire(c: Cloud, selected: map<string, string>): map<string, string> {
    if CLOUD_NAME in selected && IsRetired(c, selected[CLOUD_NAME]) then selected[CLOUD_NAME := c.instead] else selected
  }

  /** With the cloud active, its model is one it offers; without one chosen, the first likely to write text. */
  function CloudSelected(likely: string -> bool, selected: map<string, string>,
                         cloud: seq<string>): map<string, string> {
    var offered := if CLOUD_NAME in selected && selected[CLOUD_NAME] != "" && selected[CLOUD_NAME] !in cloud then selected - {CLOUD_NAME} else selected;
    if CLOUD_NAME in offered && offered[CLOUD_NAME] != "" then offered
    else
      var found := FindLikely(likely, cloud);
      if found == None then offered else offered[CLOUD_NAME := found.value]
  }

  function SelectedOf(c: Cloud, likely: string -> bool, active: Kind, selected: map<string, string>,
                      cloud: seq<string>): map<string, string> {
    if active == KitionConsole then CloudSelected(likely, Unretire(c, selected), cloud) else Unretire(c, selected)
  }

  lemma SelectedTwice(c: Cloud, likely: string -> bool, active: Kind, selected: map<string, string>, cloud: seq<string>)
    requires SoundCloud(c) && forall m :: m in cloud ==> m != "" && !IsRetired(c, m)
    ensures var once := SelectedOf(c, likely, active, selected, cloud); SelectedOf(c, likely, active, once, cloud) == once
  {
    hide IsRetired;
    DefaultIsNotRetired(c);
    EmptyIsNotRetired(c);
    var once := SelectedOf(c, likely, active, selected, cloud);
    assert Unretire(c, once) == once;
  }

  lemma EmptyIsNotRetired(c: Cloud)
    requires SoundCloud(c)
    ensures !IsRetired(c, "")
  {
  }

  lemma DiscoveredIsNotRetired(c: Cloud, models: Option<seq<string>>)
    ensures forall m :: m in Discovered(c, KitionConsole, models) ==> m != "" && !IsRetired(c, m)
  {
    hide Trim, Discovered;
    DiscoveredAre(c, KitionConsole, models);
    forall m | m in Discovered(c, KitionConsole, models) ensures m != "" && !IsRetired(c, m) { TrimChanges(m); }
  }

  // ---- all settings ----

  datatype General = General(theme: string, translation: string, language: string, rest: string)
  datatype GeneralInput = GeneralInput(theme: Option<string>, translation: Option<string>, language: Option<string>,
                                       rest: Option<string>)

  datatype State = State(general: General, display: Display, notifications: Notifications, hooks: seq<Hook>,
                         shortcuts: seq<Shortcut>,
                         providers: map<Kind, Provider>, models: Models)
  datatype Input = Input(general: GeneralInput, display: DisplayInput, notifications: NotificationsInput,
                         hooks: seq<Option<HookInput>>,
                         shortcuts: seq<Shortcut>, providers: map<Kind, ProviderInput>, models: ModelsInput)

  function GeneralOf(choices: Choices, g: GeneralInput): General {
    General(OneOf(g.theme, choices.theme), OneOf(g.translation, choices.translation), Or(g.language, "en-US"), Or(g.rest, "rest of general"))
  }

  function InputFor(input: Input, kind: Kind): ProviderInput {
    if kind in input.providers then input.providers[kind] else ABSENT
  }

  function ProvidersOf(platform: Platform, input: Input, active: Kind): (r: map<Kind, Provider>)
    ensures r.Keys == (set kind | kind in CATALOG)
  {
    map kind | kind in CATALOG ::
      var p := ProviderOf(platform, kind, InputFor(input, kind));
      if kind == KitionConsole && active == KitionConsole then p.(enabled := true) else p
  }

  /** `normalizeDesktopSettings`. */
  function Normalized(platform: Platform, input: Input): State {
    var active := ActiveOf(platform.catalog, input.models.active);
    var cloud := Discovered(platform.cloud, KitionConsole, InputFor(input, KitionConsole).discovered);
    State(GeneralOf(platform.choices, input.general), DisplayOf(platform.choices, input.display), NotificationsOf(input.notifications),
          HooksOf(platform.choices.event, input.hooks),
          ShortcutsOf(platform.shortcuts, input.shortcuts), ProvidersOf(platform, input, active),
          Models(active, SelectedOf(platform.cloud, platform.likely, active, input.models.selected, cloud), PreferredOf(platform.cloud, active, input.models.preferredDefault),
                 PreferredOf(platform.cloud, active, input.models.preferredChat), PreferredOf(platform.cloud, active, input.models.preferredWriting)))
  }

  function ProvidersAgain(providers: map<Kind, Provider>): map<Kind, ProviderInput> {
    map kind | kind in providers :: ProviderAgain(providers[kind])
  }

  /** Settings given as input again, as when they are loaded. */
  function Again(platform: Platform, s: State): Input {
    Input(GeneralInput(Some(s.general.theme), Some(s.general.translation), Some(s.general.language), Some(s.general.rest)),
          DisplayAgain(s.display), NotificationsAgain(s.notifications), HooksAgain(s.hooks), s.shortcuts,
          ProvidersAgain(s.providers),
          ModelsInput(Some(platform.catalog(s.models.active).name), s.models.selected, Some(s.models.preferredDefault), Some(s.models.preferredChat),
                      Some(s.models.preferredWriting)))
  }

  datatype Field = ApiKey | AccessToken | RefreshToken
  type SecretsOf = (Kind, Field) -> string

  function ProvidersWith(providers: map<Kind, Provider>, secrets: SecretsOf): map<Kind, Provider> {
    map kind | kind in providers ::
      providers[kind].(secrets := Secrets(secrets(kind, ApiKey), secrets(kind, AccessToken), secrets(kind, RefreshToken)))
  }

  function WithSecrets(s: State, secrets: SecretsOf): State { s.(providers := ProvidersWith(s.providers, secrets)) }

  predicate AllSteady(platform: Platform, input: Input) {
    forall kind :: kind in CATALOG ==> Steady(platform.url, kind, Trim(Or(InputFor(input, kind).baseUrl, platform.catalog(kind).baseUrl)))
  }

  lemma ProvidersTwice(platform: Platform, input: Input, active: Kind, again: Input, secrets: SecretsOf)
    requires Prints(platform.url) && SoundCloud(platform.cloud)
    requires again.providers == ProvidersAgain(ProvidersWith(ProvidersOf(platform, input, active), secrets))
    ensures ProvidersOf(platform, again, active) == ProvidersWith(ProvidersOf(platform, input, active), secrets)
      <==> AllSteady(platform, input)
  {
    hide ProviderOf, ProviderAgain, Steady, Trim;
    var once, twice := ProvidersOf(platform, input, active), ProvidersOf(platform, again, active);
    var s := ProvidersWith(once, secrets);
    forall kind | kind in CATALOG
      ensures twice[kind] == s[kind]
        <==> Steady(platform.url, kind, Trim(Or(InputFor(input, kind).baseUrl, platform.catalog(kind).baseUrl)))
    {
      ProviderTwice(platform, kind, InputFor(input, kind), once[kind].enabled, s[kind].secrets);
      assert s[kind] == ProviderOf(platform, kind, InputFor(input, kind)).(enabled := once[kind].enabled, secrets := s[kind].secrets);
      EnabledAgain(platform, kind, s[kind]);
    }
    if AllSteady(platform, input) { assert twice == s; }
  }

  /** What is enabled stays enabled. */
  lemma EnabledAgain(platform: Platform, kind: Kind, p: Provider)
    ensures ProviderOf(platform, kind, ProviderAgain(p)).enabled == p.enabled
  {
  }

  lemma ShortcutIdsDiffer()
    ensures IdsDiffer(SHORTCUTS)
  {
  }

  /** The defaults of the build are such values. */
  lemma BuildIsSound(url: Url, likely: string -> bool)
    requires Prints(url)
    ensures Sound(Platform(url, likely, SHORTCUTS, Described, CHOICES, CLOUD))
  {
    hide Prints, IdsDiffer, Named, SoundCloud;
    ShortcutIdsDiffer();
    DescribedIsNamed();
    CloudIsSound();
  }

  lemma CloudAgain(platform: Platform, input: Input, active: Kind, secrets: SecretsOf)
    requires SoundCloud(platform.cloud)
    ensures var again := ProvidersAgain(ProvidersWith(ProvidersOf(platform, input, active), secrets));
      KitionConsole in again && Discovered(platform.cloud, KitionConsole, again[KitionConsole].discovered) == Discovered(platform.cloud, KitionConsole, InputFor(input, KitionConsole).discovered)
  {
    hide Discovered, BaseUrl, Trim;
    assert CATALOG[0] == KitionConsole;
    DiscoveredTwice(platform.cloud, KitionConsole, InputFor(input, KitionConsole).discovered);
  }

  /**
   Normalizing what was normalized, whatever its secrets, changes nothing, exactly when every
   base URL is steady.
   */
  lemma NormalizedTwice(platform: Platform, input: Input, secrets: SecretsOf)
    requires Sound(platform)
    ensures var s := WithSecrets(Normalized(platform, input), secrets);
      Normalized(platform, Again(platform, s)) == s <==> AllSteady(platform, input)
  {
    hide ProvidersOf, ProvidersWith, ProvidersAgain, AllSteady, Discovered, SelectedOf, PreferredOf, ActiveOf, OneOf,
      DisplayOf, DisplayAgain, NotificationsOf, NotificationsAgain, HooksOf, HooksAgain, ShortcutsOf;
    var once := Normalized(platform, input);
    var s := WithSecrets(once, secrets);
    var again, active := Again(platform, s), once.models.active;
    ActiveTwice(platform.catalog, active);
    DisplayTwice(platform.choices, input.display);
    NotificationsTwice(input.notifications);
    HooksAreKept(platform.choices.event, input.hooks);
    HooksTwice(platform.choices.event, once.hooks);
    ShortcutsTwice(platform.shortcuts, input.shortcuts);
    PreferredTwice(platform.cloud, active, input.models.preferredDefault);
    PreferredTwice(platform.cloud, active, input.models.preferredChat);
    PreferredTwice(platform.cloud, active, input.models.preferredWriting);
    CloudAgain(platform, input, active, secrets);
    DiscoveredIsNotRetired(platform.cloud, InputFor(input, KitionConsole).discovered);
    SelectedTwice(platform.cloud, platform.likely, active, input.models.selected, Discovered(platform.cloud, KitionConsole, InputFor(input, KitionConsole).discovered));
    ProvidersTwice(platform, input, active, again, secrets);
  }

  // ---- the secure store ----

  /** The secrets stored, by the provider and the field that make up their key. */
  type Secure = map<(Kind, Field), string>

  function Persisted(secure: Secure, kind: Kind, field: Field): string {
    if (kind, field) in secure then secure[(kind, field)] else ""
  }

  function SecretIn(s: State, kind: Kind, field: Field): string {
    if kind !in s.providers then ""
    else
      match field
      case ApiKey => s.providers[kind].secrets.apiKey
      case AccessToken => s.providers[kind].secrets.accessToken
      case RefreshToken => s.providers[kind].secrets.refreshToken
  }

  /** A stored secret wins over one in the settings. */
  function Resolved(secure: Secure, s: State): SecretsOf {
    (kind: Kind, field: Field) => if Persisted(secure, kind, field) != "" then Persisted(secure, kind, field) else SecretIn(s, kind, field)
  }

  /** After a save: the secret of the settings, or none where one is to be cleared, or the one already stored. */
  function Chosen(secure: Secure, s: State, clear: set<Kind>): SecretsOf {
    (kind: Kind, field: Field) =>
      if SecretIn(s, kind, field) != "" then SecretIn(s, kind, field) else if kind in clear then "" else Persisted(secure, kind, field)
  }

  function Redacted(s: State): State { WithSecrets(s, (kind: Kind, field: Field) => "") }

  function Saved(platform: Platform, secure: Secure, input: Input, clear: set<Kind>): State {
    var s := Normalized(platform, input);
    WithSecrets(s, Chosen(secure, s, clear))
  }

  function Loaded(platform: Platform, secure: Secure, stored: Input): State {
    var s := Normalized(platform, stored);
    WithSecrets(s, Resolved(secure, s))
  }

  /** The store holds exactly these secrets of the providers of the catalog. */
  predicate HoldsSecrets(secure: Secure, secrets: SecretsOf) {
    forall kind, field :: kind in CATALOG ==> Persisted(secure, kind, field) == secrets(kind, field)
  }

  /** What is saved holds no secret. */
  lemma RedactedHoldsNone(s: State, kind: Kind, field: Field)
    ensures SecretIn(Redacted(s), kind, field) == ""
  {
  }

  lemma SecretsReplaced(s: State, first: SecretsOf, second: SecretsOf)
    ensures WithSecrets(WithSecrets(s, first), second) == WithSecrets(s, second)
  {
  }

  lemma SameSecrets(s: State, first: SecretsOf, second: SecretsOf)
    requires forall kind, field :: kind in s.providers ==> first(kind, field) == second(kind, field)
    ensures WithSecrets(s, first) == WithSecrets(s, second)
  {
    assert ProvidersWith(s.providers, first) == ProvidersWith(s.providers, second);
  }

  /** Loading after a save gives exactly what the save answered, if and only if every base URL is steady. */
  lemma LoadAfterSave(platform: Platform, secure: Secure, secure': Secure, input: Input, clear: set<Kind>)
    requires Sound(platform)
    requires HoldsSecrets(secure', Chosen(secure, Normalized(platform, input), clear))
    ensures var saved := Saved(platform, secure, input, clear);
      Loaded(platform, secure', Again(platform, Redacted(saved))) == saved <==> AllSteady(platform, input)
  {
    hide AllSteady, Again, WithSecrets, Normalized;
    var s := Normalized(platform, input);
    var none: SecretsOf := (kind: Kind, field: Field) => "";
    var chosen := Chosen(secure, s, clear);
    var saved := Saved(platform, secure, input, clear);
    SecretsReplaced(s, chosen, none);
    NormalizedTwice(platform, input, none);
    var stored := Redacted(saved);
    assert stored == WithSecrets(s, none) by { SameSecrets(saved, (kind: Kind, field: Field) => "", none); }
    var loaded := Normalized(platform, Again(platform, stored));
    NormalizedKinds(platform, input);
    if loaded == stored {
      LoadedSecrets(secure', stored, s, none, chosen);
    } else {
      NoSecretsStay(platform, s, none);
      LoadedDiffers(loaded, Resolved(secure', loaded), s, chosen, none);
    }
  }

  lemma NormalizedKinds(platform: Platform, input: Input)
    ensures Normalized(platform, input).providers.Keys == set kind | kind in CATALOG
  {
  }

  lemma SecretsAgain(platform: Platform, kind: Kind, p: Provider)
    ensures ProviderOf(platform, kind, ProviderAgain(p)).secrets == p.secrets
  {
    hide BaseUrl, Discovered;
  }

  lemma NoSecretsIn(platform: Platform, again: Input, active: Kind, providers: map<Kind, Provider>, none: SecretsOf)
    requires (forall kind, field :: none(kind, field) == "") && providers.Keys == set kind | kind in CATALOG
    requires again.providers == ProvidersAgain(ProvidersWith(providers, none))
    ensures ProvidersWith(ProvidersOf(platform, again, active), none) == ProvidersOf(platform, again, active)
  {
    hide ProviderOf, ProviderAgain;
    var once := ProvidersOf(platform, again, active);
    forall kind | kind in once ensures once[kind].secrets == Secrets("", "", "") {
      assert kind in providers;
      SecretsAgain(platform, kind, ProvidersWith(providers, none)[kind]);
    }
  }

  /** Normalizing adds no secret. */
  lemma NoSecretsStay(platform: Platform, s: State, none: SecretsOf)
    requires (forall kind, field :: none(kind, field) == "") && s.providers.Keys == set kind | kind in CATALOG
    ensures var loaded := Normalized(platform, Again(platform, WithSecrets(s, none))); WithSecrets(loaded, none) == loaded
  {
    hide ProvidersOf, ProvidersWith, ProvidersAgain, Discovered, SelectedOf, PreferredOf, ActiveOf, OneOf,
      DisplayOf, DisplayAgain, NotificationsOf, NotificationsAgain, HooksOf, HooksAgain, ShortcutsOf;
    var again := Again(platform, WithSecrets(s, none));
    NoSecretsIn(platform, again, ActiveOf(platform.catalog, again.models.active), s.providers, none);
  }

  lemma LoadedSecrets(secure: Secure, stored: State, s: State, none: SecretsOf, chosen: SecretsOf)
    requires stored == WithSecrets(s, none) && (forall kind, field :: none(kind, field) == "")
    requires HoldsSecrets(secure, chosen)
    requires forall kind :: kind in s.providers ==> kind in CATALOG
    ensures WithSecrets(stored, Resolved(secure, stored)) == WithSecrets(s, chosen)
  {
    SecretsReplaced(s, none, Resolved(secure, stored));
    forall kind, field | kind in s.providers ensures Resolved(secure, stored)(kind, field) == chosen(kind, field) {
      assert SecretIn(stored, kind, field) == "";
    }
    SameSecrets(s, Resolved(secure, stored), chosen);
  }

  /** Settings that differ without their secrets differ with them. */
  lemma LoadedDiffers(loaded: State, found: SecretsOf, s: State, chosen: SecretsOf, none: SecretsOf)
    requires loaded != WithSecrets(s, none)
    requires WithSecrets(loaded, none) == loaded
    ensures WithSecrets(loaded, found) != WithSecrets(s, chosen)
  {
    SecretsReplaced(loaded, found, none);
    SecretsReplaced(s, chosen, none);
  }

  // ---- load and save, one secret at a time ----

  const FIELDS: seq<Field> := [ApiKey, AccessToken, RefreshToken]

  function KindAt(kind: Kind): nat {
    match kind case KitionConsole => 0 case OpenAI => 1 case Anthropic => 2 case DeepSeek => 3 case Kimi => 4 case Custom => 5
  }

  function FieldAt(field: Field): nat {
    match field case ApiKey => 0 case AccessToken => 1 case RefreshToken => 2
  }

  /** Whether a secret comes before the `n`th of all kinds and their fields. */
  predicate Before(kind: Kind, field: Field, n: nat) { 3 * KindAt(kind) + FieldAt(field) < n }

  lemma CatalogIsAll(kind: Kind)
    ensures kind in CATALOG && CATALOG[KindAt(kind)] == kind
  {
  }

  lemma BeforeNext(n: nat, kind: Kind, field: Field)
    requires n < 18
    ensures Before(kind, field, n + 1) <==> Before(kind, field, n) || (kind, field) == (CATALOG[n / 3], FIELDS[n % 3])
  {
    CatalogIsAll(kind);
  }

  /** The same settings but for secrets. */
  predicate SameBut(t: State, s: State) {
    t == s.(providers := t.providers) && t.providers.Keys == s.providers.Keys
    && forall kind :: kind in s.providers ==> t.providers[kind] == s.providers[kind].(secrets := t.providers[kind].secrets)
  }

  lemma SameButIs(t: State, s: State, secrets: SecretsOf)
    requires SameBut(t, s)
    requires forall kind, field :: kind in s.providers ==> SecretIn(t, kind, field) == secrets(kind, field)
    ensures t == WithSecrets(s, secrets)
  {
    forall kind | kind in s.providers
      ensures t.providers[kind].secrets
        == Secrets(secrets(kind, ApiKey), secrets(kind, AccessToken), secrets(kind, RefreshToken))
    {
      assert SecretIn(t, kind, ApiKey) == secrets(kind, ApiKey) && SecretIn(t, kind, AccessToken) == secrets(kind, AccessToken)
        && SecretIn(t, kind, RefreshToken) == secrets(kind, RefreshToken);
    }
    assert t.providers == ProvidersWith(s.providers, secrets);
  }

  function PutSecret(s: State, kind: Kind, field: Field, value: string): (r: State)
    requires kind in s.providers
    ensures SameBut(r, s)
    ensures forall k, f :: SecretIn(r, k, f) == if (k, f) == (kind, field) then value else SecretIn(s, k, f)
  {
    var p := s.providers[kind];
    var secrets := match field
      case ApiKey => p.secrets.(apiKey := value)
      case AccessToken => p.secrets.(accessToken := value)
      case RefreshToken => p.secrets.(refreshToken := value);
    s.(providers := s.providers[kind := p.(secrets := secrets)])
  }

  /** `t` is `s` with the secrets before the `n`th as in `found`. */
  predicate Upto(t: State, n: nat, found: SecretsOf, s: State) {
    SameBut(t, s) && forall k, f :: k in s.providers ==> SecretIn(t, k, f) == if Before(k, f, n) then found(k, f) else SecretIn(s, k, f)
  }

  predicate StoreUpto(secure: Secure, n: nat, found: SecretsOf, before: Secure) {
    forall k, f :: Persisted(secure, k, f) == if Before(k, f, n) then found(k, f) else Persisted(before, k, f)
  }

  /** One key has this value, the others what they had. */
  predicate OnePut(secure': Secure, secure: Secure, kind: Kind, field: Field, value: string) {
    forall k, f :: Persisted(secure', k, f) == if (k, f) == (kind, field) then value else Persisted(secure, k, f)
  }

  function KeyAt(n: nat): (Kind, Field)
    requires n < 18
  {
    (CATALOG[n / 3], FIELDS[n % 3])
  }

  lemma UptoStart(found: SecretsOf, s: State, secure: Secure)
    ensures Upto(s, 0, found, s) && StoreUpto(secure, 0, found, secure)
  {
  }

  lemma UptoNext(t: State, n: nat, found: SecretsOf, s: State)
    requires Upto(t, n, found, s) && n < 18 && s.providers.Keys == set kind | kind in CATALOG
    ensures var (kind, field) := KeyAt(n);
      kind in t.providers && SecretIn(t, kind, field) == SecretIn(s, kind, field) && Upto(PutSecret(t, kind, field, found(kind, field)), n + 1, found, s)
  {
    hide SecretIn, PutSecret;
    var (kind, field) := KeyAt(n);
    CatalogIsAll(kind);
    assert !Before(kind, field, n);
    hide Before, KindAt, FieldAt;
    var put := PutSecret(t, kind, field, found(kind, field));
    forall k, f | k in s.providers ensures SecretIn(put, k, f) == if Before(k, f, n + 1) then found(k, f) else SecretIn(s, k, f) {
      BeforeNext(n, k, f);
    }
  }

  lemma StoreUptoNext(secure: Secure, secure': Secure, n: nat, found: SecretsOf, before: Secure)
    requires StoreUpto(secure, n, found, before) && n < 18
    requires OnePut(secure', secure, KeyAt(n).0, KeyAt(n).1, found(KeyAt(n).0, KeyAt(n).1))
    ensures StoreUpto(secure', n + 1, found, before)
  {
    hide Persisted;
    forall k, f ensures Persisted(secure', k, f) == if Before(k, f, n + 1) then found(k, f) else Persisted(before, k, f) { BeforeNext(n, k, f); }
  }

  lemma NotYet(secure: Secure, n: nat, found: SecretsOf, before: Secure)
    requires StoreUpto(secure, n, found, before) && n < 18
    ensures Persisted(secure, KeyAt(n).0, KeyAt(n).1) == Persisted(before, KeyAt(n).0, KeyAt(n).1)
  {
    hide Persisted;
    assert !Before(KeyAt(n).0, KeyAt(n).1, n);
  }

  lemma UptoAll(t: State, found: SecretsOf, s: State, secure: Secure, before: Secure)
    requires Upto(t, 18, found, s) && StoreUpto(secure, 18, found, before)
    ensures t == WithSecrets(s, found) && HoldsSecrets(secure, found)
  {
    hide SecretIn, Persisted, SameBut, WithSecrets;
    AllBefore();
    SameButIs(t, s, found);
  }

  lemma RedactedAll(t: State, none: SecretsOf, s: State)
    requires Upto(t, 18, none, s) && forall kind, field :: none(kind, field) == ""
    ensures t == Redacted(s)
  {
    hide SecretIn, SameBut, WithSecrets;
    AllBefore();
    SameButIs(t, s, (kind: Kind, field: Field) => "");
  }

  lemma AllBefore()
    ensures forall kind, field :: Before(kind, field, 18)
  {
  }

  lemma PutSame(s: State, kind: Kind, field: Field)
    requires kind in s.providers
    ensures PutSecret(s, kind, field, SecretIn(s, kind, field)) == s
  {
  }

  lemma WithShows(s: State, secrets: SecretsOf)
    ensures var t := WithSecrets(s, secrets);
      SameBut(t, s) && forall k, f :: k in s.providers ==> SecretIn(t, k, f) == secrets(k, f)
  {
  }

  class SettingsStore {
    const platform: Platform
    var secure: Secure
    var stored: Option<State>
    var backup: Option<State>

    constructor (platform: Platform)
      ensures this.platform == platform && secure == map[] && stored == None && backup == None
    {
      this.platform, secure, stored, backup := platform, map[], None, None;
    }

    /** One secret: the stored one wins, and one that is only in the settings is stored. */
    method HydrateOne(next: State, kind: Kind, field: Field) returns (next': State)
      requires kind in next.providers
      modifies this`secure
      ensures var stored_ := Persisted(old(secure), kind, field);
        var value := if stored_ != "" then stored_ else SecretIn(next, kind, field);
        next' == PutSecret(next, kind, field, value) && OnePut(secure, old(secure), kind, field, value)
    {
      hide PutSecret, SecretIn;
      var persisted, inline := Persisted(secure, kind, field), SecretIn(next, kind, field);
      var resolved := if persisted != "" then persisted else inline;
      next' := PutSecret(next, kind, field, resolved);
      if resolved != "" && persisted == "" && inline != "" { secure := secure[(kind, field) := resolved]; }
    }

    /** `hydrateDesktopProviderSecrets`. */
    method Hydrate(s: State) returns (next: State)
      requires s.providers.Keys == set kind | kind in CATALOG
      modifies this`secure
      ensures next == WithSecrets(s, Resolved(old(secure), s)) && HoldsSecrets(secure, Resolved(old(secure), s))
    {
      hide Upto, StoreUpto, OnePut, WithSecrets, HoldsSecrets, PutSecret, SecretIn, Persisted;
      next := s;
      ghost var found := Resolved(secure, s);
      UptoStart(found, s, secure);
      for n := 0 to 18
        invariant Upto(next, n, found, s) && StoreUpto(secure, n, found, old(secure))
      {
        var (kind, field) := KeyAt(n);
        UptoNext(next, n, found, s);
        NotYet(secure, n, found, old(secure));
        ghost var now := secure;
        next := HydrateOne(next, kind, field);
        StoreUptoNext(now, secure, n, found, old(secure));
      }
      UptoAll(next, found, s, secure, old(secure));
    }

    /** One secret: that of the settings, or none where it is cleared, or the one stored. */
    method PersistOne(requested: string, cleared: bool, provided: State, kind: Kind,
                      field: Field) returns (provided': State)
      requires kind in provided.providers
      requires requested == "" ==> SecretIn(provided, kind, field) == Persisted(secure, kind, field)
      modifies this`secure
      ensures var chosen := if requested != "" then requested else if cleared then "" else Persisted(old(secure), kind, field);
        provided' == PutSecret(provided, kind, field, chosen) && OnePut(secure, old(secure), kind, field, chosen)
    {
      hide PutSecret, SecretIn;
      var persisted := Persisted(secure, kind, field);
      PutSame(provided, kind, field);
      provided' := provided;
      if requested != "" {
        secure := secure[(kind, field) := requested];
        provided' := PutSecret(provided, kind, field, requested);
      } else if cleared {
        secure := secure - {(kind, field)};
        provided' := PutSecret(provided, kind, field, "");
      } else if persisted != "" {
        provided' := PutSecret(provided, kind, field, persisted);
      }
    }

    /** `persistDesktopProviderSecrets`: no secret is left in what is saved. */
    method PersistSecrets(normalized: State, hydrated: State,
                          clear: set<Kind>) returns (provided: State, redacted: State)
      requires hydrated.providers.Keys == set kind | kind in CATALOG
      requires forall k, f :: k in CATALOG && SecretIn(normalized, k, f) == "" ==>
        SecretIn(hydrated, k, f) == Persisted(secure, k, f)
      modifies this`secure
      ensures provided == WithSecrets(hydrated, Chosen(old(secure), normalized, clear))
      ensures redacted == Redacted(hydrated)
      ensures HoldsSecrets(secure, Chosen(old(secure), normalized, clear))
    {
      hide Upto, StoreUpto, OnePut, WithSecrets, HoldsSecrets, PutSecret, SecretIn, Persisted;
      provided, redacted := hydrated, hydrated;
      ghost var chosen: SecretsOf, none: SecretsOf := Chosen(secure, normalized, clear), (kind: Kind, field: Field) => "";
      UptoStart(chosen, hydrated, secure);
      UptoStart(none, hydrated, map[]);
      for n := 0 to 18
        invariant Upto(provided, n, chosen, hydrated) && StoreUpto(secure, n, chosen, old(secure))
        invariant Upto(redacted, n, none, hydrated)
      {
        var (kind, field) := KeyAt(n);
        CatalogIsAll(kind);
        UptoNext(provided, n, chosen, hydrated);
        UptoNext(redacted, n, none, hydrated);
        NotYet(secure, n, chosen, old(secure));
        ghost var now := secure;
        provided := PersistOne(SecretIn(normalized, kind, field), kind in clear, provided, kind, field);
        redacted := PutSecret(redacted, kind, field, "");
        StoreUptoNext(now, secure, n, chosen, old(secure));
      }
      UptoAll(provided, chosen, hydrated, secure, old(secure));
      RedactedAll(redacted, none, hydrated);
    }

    /** `saveDesktopSettings`. */
    method Save(input: Input, clear: set<Kind>) returns (saved: State)
      modifies this
      ensures saved == Saved(platform, old(secure), input, clear)
      ensures stored == Some(Redacted(saved)) && backup == Some(Redacted(saved))
      ensures HoldsSecrets(secure, Chosen(old(secure), Normalized(platform, input), clear))
    {
      hide Normalized, WithSecrets, SameBut, SecretIn, Persisted;
      var normalized := Normalized(platform, input);
      NormalizedKinds(platform, input);
      ghost var before := secure;
      var hydrated := Hydrate(normalized);
      ghost var between := secure;
      HydratedShows(before, between, normalized);
      var redacted;
      saved, redacted := PersistSecrets(normalized, hydrated, clear);
      SavedIs(before, between, normalized, clear);
      stored, backup := Some(redacted), Some(redacted);
    }

    /**
     `loadDesktopSettings`; without stored settings the backup serves, and without one the defaults,
     which an empty input gives.
     */
    method Load(defaults: Input) returns (loaded: State)
      modifies this
      ensures loaded
        == Loaded(platform, old(secure), if old(stored).Some? then Again(platform, old(stored).value) else if old(backup).Some? then Again(platform, old(backup).value) else defaults)
      ensures stored == old(stored)
    {
      hide Normalized, Again;
      var input := if stored.Some? then Again(platform, stored.value) else if backup.Some? then Again(platform, backup.value) else defaults;
      var next := Normalized(platform, input);
      NormalizedKinds(platform, input);
      backup := Some(next);
      loaded := Hydrate(next);
    }

    /** A save and a load after it: the same settings back, exactly when every base URL is steady. */
    method SaveAndLoad(input: Input, clear: set<Kind>, defaults: Input) returns (saved: State, loaded: State)
      requires Sound(platform)
      modifies this
      ensures loaded == saved <==> AllSteady(platform, input)
      ensures stored.Some? && forall kind, field :: SecretIn(stored.value, kind, field) == ""
    {
      hide Normalized, Again, AllSteady;
      ghost var before := secure;
      saved := Save(input, clear);
      forall kind, field ensures SecretIn(stored.value, kind, field) == "" { RedactedHoldsNone(saved, kind, field); }
      LoadAfterSave(platform, before, secure, input, clear);
      loaded := Load(defaults);
    }
  }

  /** What is hydrated shows the secrets of the store wherever the settings had none. */
  lemma HydratedShows(before: Secure, between: Secure, s: State)
    requires HoldsSecrets(between, Resolved(before, s)) && s.providers.Keys == set kind | kind in CATALOG
    ensures var t := WithSecrets(s, Resolved(before, s));
      t.providers.Keys == s.providers.Keys && forall k, f :: k in CATALOG ==> SecretIn(t, k, f) == Persisted(between, k, f)
  {
    hide SecretIn, Persisted;
    WithShows(s, Resolved(before, s));
  }

  /** What a hydration stores does not change what is chosen. */
  lemma SavedIs(before: Secure, between: Secure, s: State, clear: set<Kind>)
    requires HoldsSecrets(between, Resolved(before, s)) && s.providers.Keys == set kind | kind in CATALOG
    ensures var hydrated := WithSecrets(s, Resolved(before, s));
      WithSecrets(hydrated, Chosen(between, s, clear)) == WithSecrets(s, Chosen(before, s, clear))
      && Redacted(hydrated) == Redacted(WithSecrets(s, Chosen(before, s, clear)))
    ensures forall secure :: HoldsSecrets(secure, Chosen(between, s, clear)) ==>
      HoldsSecrets(secure, Chosen(before, s, clear))
  {
    hide WithSecrets, Persisted;
    var none: SecretsOf := (kind: Kind, field: Field) => "";
    SecretsReplaced(s, Resolved(before, s), Chosen(between, s, clear));
    SameSecrets(s, Chosen(between, s, clear), Chosen(before, s, clear));
    SecretsReplaced(s, Resolved(before, s), none);
    SecretsReplaced(s, Chosen(before, s, clear), none);
    RedactedIs(WithSecrets(s, Resolved(before, s)), none);
    RedactedIs(WithSecrets(s, Chosen(before, s, clear)), none);
  }

  lemma RedactedIs(s: State, none: SecretsOf)
    requires forall kind, field :: none(kind, field) == ""
    ensures Redacted(s) == WithSecrets(s, none)
  {
    SameSecrets(s, (kind: Kind, field: Field) => "", none);
  }
}
