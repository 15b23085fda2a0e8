/** The `DingolyticsSDK` class: options resolution, the event template, the user
    identity kept in it, and the assembly of events from it. */
module Dingolytics {
  import opened Wrappers
  import opened Js
  import Helpers

  /** Options as the caller passes them; `None` is a key the caller leaves out. */
  datatype Options = Options(
    app: string,
    dsn: string,
    debug: Option<bool>,
    autoTrackPageViews: Option<bool>,
    autoTrackLinks: Option<bool>,
    autoTrackDownloads: Option<bool>,
    autoTrackForms: Option<bool>)

  /** Options after the defaults are filled in. */
  datatype Config = Config(
    app: string,
    dsn: string,
    debug: bool,
    autoTrackPageViews: bool,
    autoTrackLinks: bool,
    autoTrackDownloads: bool,
    autoTrackForms: bool)

  /** The caller's options laid over the defaults: debugging off, page views and links
      tracked, downloads and forms not. */
  function Resolve(o: Options): (c: Config)
    ensures c.app == o.app && c.dsn == o.dsn
    ensures o.debug.Some? ==> c.debug == o.debug.value
    ensures o.debug.None? ==> !c.debug
    ensures o.autoTrackPageViews.Some? ==> c.autoTrackPageViews == o.autoTrackPageViews.value
    ensures o.autoTrackPageViews.None? ==> c.autoTrackPageViews
    ensures o.autoTrackLinks.Some? ==> c.autoTrackLinks == o.autoTrackLinks.value
    ensures o.autoTrackLinks.None? ==> c.autoTrackLinks
    ensures o.autoTrackDownloads.Some? ==> c.autoTrackDownloads == o.autoTrackDownloads.value
    ensures o.autoTrackDownloads.None? ==> !c.autoTrackDownloads
    ensures o.autoTrackForms.Some? ==> c.autoTrackForms == o.autoTrackForms.value
    ensures o.autoTrackForms.None? ==> !c.autoTrackForms
  {
    Config(
      o.app,
      o.dsn,
      o.debug.GetOr(false),
      o.autoTrackPageViews.GetOr(true),
      o.autoTrackLinks.GetOr(true),
      o.autoTrackDownloads.GetOr(false),
      o.autoTrackForms.GetOr(false))
  }

  /** The defaults object the constructor spreads the options over. */
  const DefaultsObject: JsObject := map[
    "debug" := Bool(false),
    "autoTrackPageViews" := Bool(true),
    "autoTrackLinks" := Bool(true),
    "autoTrackDownloads" := Bool(false),
    "autoTrackForms" := Bool(false)]

  function Flag(key: string, value: Option<bool>): JsObject {
    match value
    case Some(b) => map[key := Bool(b)]
    case None => map[]
  }

  /** The caller's options as an object: only the keys the caller supplies. */
  function OptionsObject(o: Options): JsObject {
    map["app" := Str(o.app), "dsn" := Str(o.dsn)]
      + Flag("debug", o.debug)
      + Flag("autoTrackPageViews", o.autoTrackPageViews)
      + Flag("autoTrackLinks", o.autoTrackLinks)
      + Flag("autoTrackDownloads", o.autoTrackDownloads)
      + Flag("autoTrackForms", o.autoTrackForms)
  }

  function ConfigObject(c: Config): JsObject {
    map[
      "app" := Str(c.app),
      "dsn" := Str(c.dsn),
      "debug" := Bool(c.debug),
      "autoTrackPageViews" := Bool(c.autoTrackPageViews),
      "autoTrackLinks" := Bool(c.autoTrackLinks),
      "autoTrackDownloads" := Bool(c.autoTrackDownloads),
      "autoTrackForms" := Bool(c.autoTrackForms)]
  }

  /** The field-by-field resolution is exactly the object spread `{...defaults, ...options}`. */
  lemma ResolveIsSpread(o: Options)
    ensures ConfigObject(Resolve(o)) == Merge(DefaultsObject, OptionsObject(o))
  {
    SpreadRequired(o);
    SpreadFlags(DefaultsObject["app" := Str(o.app)]["dsn" := Str(o.dsn)], o);
    FlagsAsUpdates(o);
  }

  /** The spread regrouped: the required keys first, then each flag the caller supplies. */
  lemma SpreadRequired(o: Options)
    ensures Merge(DefaultsObject, OptionsObject(o))
         == DefaultsObject["app" := Str(o.app)]["dsn" := Str(o.dsn)]
            + Flag("debug", o.debug) + Flag("autoTrackPageViews", o.autoTrackPageViews)
            + Flag("autoTrackLinks", o.autoTrackLinks) + Flag("autoTrackDownloads", o.autoTrackDownloads)
            + Flag("autoTrackForms", o.autoTrackForms)
  {
    var r0 := map["app" := Str(o.app), "dsn" := Str(o.dsn)];
    var r1 := r0 + Flag("debug", o.debug);
    var r2 := r1 + Flag("autoTrackPageViews", o.autoTrackPageViews);
    var r3 := r2 + Flag("autoTrackLinks", o.autoTrackLinks);
    var r4 := r3 + Flag("autoTrackDownloads", o.autoTrackDownloads);
    MergeAssociative(DefaultsObject, r4, Flag("autoTrackForms", o.autoTrackForms));
    MergeAssociative(DefaultsObject, r3, Flag("autoTrackDownloads", o.autoTrackDownloads));
    MergeAssociative(DefaultsObject, r2, Flag("autoTrackLinks", o.autoTrackLinks));
    MergeAssociative(DefaultsObject, r1, Flag("autoTrackPageViews", o.autoTrackPageViews));
    MergeAssociative(DefaultsObject, r0, Flag("debug", o.debug));
    RequiredOver(o);
  }

  /** The required keys are not among the defaults, so spreading them adds them. */
  lemma RequiredOver(o: Options)
    ensures DefaultsObject + map["app" := Str(o.app), "dsn" := Str(o.dsn)]
         == DefaultsObject["app" := Str(o.app)]["dsn" := Str(o.dsn)]
  {
  }

  /** Each flag spread either replaces its default or leaves it. */
  lemma SpreadFlags(m0: JsObject, o: Options)
    requires m0 == DefaultsObject["app" := Str(o.app)]["dsn" := Str(o.dsn)]
    ensures m0 + Flag("debug", o.debug) + Flag("autoTrackPageViews", o.autoTrackPageViews)
            + Flag("autoTrackLinks", o.autoTrackLinks) + Flag("autoTrackDownloads", o.autoTrackDownloads)
            + Flag("autoTrackForms", o.autoTrackForms)
         == m0["debug" := Bool(o.debug.GetOr(false))]
              ["autoTrackPageViews" := Bool(o.autoTrackPageViews.GetOr(true))]
              ["autoTrackLinks" := Bool(o.autoTrackLinks.GetOr(true))]
              ["autoTrackDownloads" := Bool(o.autoTrackDownloads.GetOr(false))]
              ["autoTrackForms" := Bool(o.autoTrackForms.GetOr(false))]
  {
    FlagSpread(m0, "debug", o.debug, false);
    var m1 := m0["debug" := Bool(o.debug.GetOr(false))];
    FlagSpread(m1, "autoTrackPageViews", o.autoTrackPageViews, true);
    var m2 := m1["autoTrackPageViews" := Bool(o.autoTrackPageViews.GetOr(true))];
    FlagSpread(m2, "autoTrackLinks", o.autoTrackLinks, true);
    var m3 := m2["autoTrackLinks" := Bool(o.autoTrackLinks.GetOr(true))];
    FlagSpread(m3, "autoTrackDownloads", o.autoTrackDownloads, false);
    var m4 := m3["autoTrackDownloads" := Bool(o.autoTrackDownloads.GetOr(false))];
    FlagSpread(m4, "autoTrackForms", o.autoTrackForms, false);
  }

  /** The resolved configuration as the defaults updated key by key. */
  lemma FlagsAsUpdates(o: Options)
    ensures ConfigObject(Resolve(o))
         == DefaultsObject["app" := Str(o.app)]["dsn" := Str(o.dsn)]
              ["debug" := Bool(o.debug.GetOr(false))]
              ["autoTrackPageViews" := Bool(o.autoTrackPageViews.GetOr(true))]
              ["autoTrackLinks" := Bool(o.autoTrackLinks.GetOr(true))]
              ["autoTrackDownloads" := Bool(o.autoTrackDownloads.GetOr(false))]
              ["autoTrackForms" := Bool(o.autoTrackForms.GetOr(false))]
  {
  }

  /** Spreading a flag the caller may leave out over an object that holds its default. */
  lemma FlagSpread(m: JsObject, key: string, value: Option<bool>, default: bool)
    requires key in m && m[key] == Bool(default)
    ensures m + Flag(key, value) == m[key := Bool(value.GetOr(default))]
  {
  }

  /** The event record (the template and every event assembled from it). */
  datatype Event = Event(
    app: string,
    name: string,
    path: string,
    props: JsObject,
    user_id: Option<string>,
    user_props: JsObject,
    browser_agent: string,
    browser_name: string,
    browser_version: string,
    is_mobile: bool,
    os_name: string,
    os_version: string,
    referrer: string)

  const EventKeys: set<string> := {
    "app", "name", "path", "props", "user_id", "user_props",
    "browser_agent", "browser_name", "browser_version", "is_mobile",
    "os_name", "os_version", "referrer"}

  /** The event as a plain object; a missing user id is `null`. */
  function EventObject(e: Event): JsObject {
    map[
      "app" := Str(e.app),
      "name" := Str(e.name),
      "path" := Str(e.path),
      "props" := Obj(e.props),
      "user_id" := if e.user_id.Some? then Str(e.user_id.value) else Null,
      "user_props" := Obj(e.user_props),
      "browser_agent" := Str(e.browser_agent),
      "browser_name" := Str(e.browser_name),
      "browser_version" := Str(e.browser_version),
      "is_mobile" := Bool(e.is_mobile),
      "os_name" := Str(e.os_name),
      "os_version" := Str(e.os_version),
      "referrer" := Str(e.referrer)]
  }

  /** What the `platform` library reports about the operating system. */
  datatype Os = Os(family: Option<string>, version: Option<string>)

  /** What the `platform` library reports about the browser; `os` may be missing. */
  datatype Platform = Platform(
    name: Option<string>,
    ua: Option<string>,
    version: Option<string>,
    os: Option<Os>)

  /** The browser facts the constructor reads: `location.href`, `document.referrer`,
      `navigator.userAgent` and the `platform` library's report. */
  datatype Browser = Browser(
    href: string,
    referrer: Option<string>,
    userAgent: string,
    platform: Platform)

  /** An optional string as a JavaScript value; a missing one is `null`. */
  function OptStr(s: Option<string>): Value {
    if s.Some? then Str(s.value) else Null
  }

  /** An optional object as a JavaScript value; a missing one is `null`. */
  function OptObj(o: Option<JsObject>): Value {
    if o.Some? then Obj(o.value) else Null
  }

  /** `x || ""` for an optional string: the value if present, otherwise empty. */
  function OrEmpty(s: Option<string>): (r: string)
    ensures Str(r) == Or(OptStr(s), Str(""))
    ensures s.Some? ==> r == s.value
    ensures s.None? ==> r == ""
  {
    s.GetOr("")
  }

  function OsFamily(b: Browser): Option<string> {
    if b.platform.os.Some? then b.platform.os.value.family else None
  }

  function OsVersion(b: Browser): Option<string> {
    if b.platform.os.Some? then b.platform.os.value.version else None
  }

  /** `userId ? userId : null`: only a non-empty user id is kept. */
  function UserId(userId: Option<string>): (r: Option<string>)
    ensures OptStr(r) == Cond(OptStr(userId), OptStr(userId), Null)
    ensures r.Some? <==> userId.Some? && userId.value != ""
    ensures r.Some? ==> r == userId
  {
    if userId.Some? && userId.value != "" then userId else None
  }

  /** `userProps ? userProps : {}`: an object is always truthy, so any given object is kept. */
  function UserProps(userProps: Option<JsObject>): (r: JsObject)
    ensures Obj(r) == Cond(OptObj(userProps), OptObj(userProps), Obj(map[]))
    ensures userProps.Some? ==> r == userProps.value
    ensures userProps.None? ==> r == map[]
  {
    userProps.GetOr(map[])
  }

  /** The data `trackPageView` hands to `_track`. */
  function PageViewData(path: string): JsObject {
    map["name" := Str("page_view"), "path" := Str(path)]
  }

  /** Merging page-view data over an event's object is the record update of its name and path. */
  lemma PageViewIsRecordUpdate(t: Event, path: string)
    ensures Merge(EventObject(t), PageViewData(path))
         == EventObject(t.(name := "page_view", path := path))
  {
    MergePair(EventObject(t), "name", Str("page_view"), "path", Str(path));
  }

  /** An event's object has exactly the record's fields. */
  lemma EventObjectKeys(e: Event)
    ensures EventObject(e).Keys == EventKeys
  {
  }

  /** Setting the user id of an event changes its `user_id` key and no other. */
  lemma UserIdField(e: Event, userId: string)
    ensures EventObject(e.(user_id := Some(userId))) == EventObject(e)["user_id" := Str(userId)]
  {
  }

  /** Whatever the per-call data, an assembled event carries every field of the template,
      and a field the data does not name keeps the template's value. */
  lemma AssembledEventComplete(t: Event, data: JsObject)
    ensures EventKeys <= Merge(EventObject(t), data).Keys
    ensures forall k :: k in EventKeys && k !in data ==> Merge(EventObject(t), data)[k] == EventObject(t)[k]
  {
  }

  class SDK {
    var options: Config
    var template: Event

    /** Resolves the options and builds the template from the browser facts. */
    constructor (options: Options, browser: Browser)
      ensures this.options == Resolve(options)
      ensures template.app == options.app
      ensures template.name == "" && template.path == browser.href
      ensures template.props == map[] && template.user_id == None && template.user_props == map[]
      ensures template.browser_name == OrEmpty(browser.platform.name)
      ensures template.browser_agent == OrEmpty(browser.platform.ua)
      ensures template.browser_version == OrEmpty(browser.platform.version)
      ensures template.is_mobile == Helpers.IsMobile(browser.userAgent)
      ensures template.os_name == OrEmpty(OsFamily(browser))
      ensures template.os_version == OrEmpty(OsVersion(browser))
      ensures template.referrer == OrEmpty(browser.referrer)
    {
      var config := Resolve(options);
      this.options := config;
      template := Event(
        config.app,
        "",
        browser.href,
        map[],
        None,
        map[],
        OrEmpty(browser.platform.ua),
        OrEmpty(browser.platform.name),
        OrEmpty(browser.platform.version),
        Helpers.IsMobile(browser.userAgent),
        OrEmpty(OsFamily(browser)),
        OrEmpty(OsVersion(browser)),
        OrEmpty(browser.referrer));
    }

    /** Fires the initial page view for `pathname` (`location.pathname` at call time)
        when page views are tracked; returns the events assembled. */
    method Init(pathname: string) returns (events: seq<JsObject>)
      ensures options.autoTrackPageViews ==>
                events == [EventObject(template.(name := "page_view", path := pathname))]
      ensures !options.autoTrackPageViews ==> events == []
    {
      events := [];
      if options.autoTrackPageViews {
        var event := TrackPageView(pathname);
        events := [event];
      }
    }

    /** Sets the identity every later event carries; nothing else in the template changes. */
    method SetUser(userId: Option<string>, userProps: Option<JsObject>)
      modifies this
      ensures options == old(options)
      ensures template == old(template).(user_id := UserId(userId), user_props := UserProps(userProps))
    {
      template := template.(user_id := UserId(userId), user_props := UserProps(userProps));
    }

    /** Only writes to the debug log: neither the options nor the template change. */
    method TrackEvent(event: string, data: Value)
      ensures options == old(options) && template == old(template)
    {
    }

    /** Assembles a page-view event for `path`. */
    method TrackPageView(path: string) returns (event: JsObject)
      ensures event == EventObject(template.(name := "page_view", path := path))
    {
      event := Track(PageViewData(path));
      PageViewIsRecordUpdate(template, path);
    }

    /** Assembles an event: the template with the per-call data spread over it. */
    method Track(data: JsObject) returns (event: JsObject)
      ensures event == Merge(EventObject(template), data)
      ensures forall k :: k in data ==> k in event && event[k] == data[k]
      ensures forall k :: k in EventKeys && k !in data ==> k in event && event[k] == EventObject(template)[k]
    {
      event := EventObject(template) + data;
      MergeLaw(EventObject(template), data);
      EventObjectKeys(template);
    }
  }

  /** After `setUser`, later events carry the new user id, and an event assembled before
      the call keeps the old one. */
  method IdentityScoping(options: Options, browser: Browser, userId: string, path: string)
    returns (before: JsObject, after: JsObject)
    requires userId != ""
    ensures "user_id" in before && before["user_id"] == Null
    ensures after == before["user_id" := Str(userId)]
  {
    var sdk := new SDK(options, browser);
    before := sdk.TrackPageView(path);
    ghost var viewed := sdk.template.(name := "page_view", path := path);
    sdk.SetUser(Some(userId), None);
    after := sdk.TrackPageView(path);
    assert sdk.template.(name := "page_view", path := path) == viewed.(user_id := Some(userId));
    UserIdField(viewed, userId);
    EventObjectKeys(viewed);
  }
}
