/**
 * What the recorder and each hook handler leave in the two options, as
 * functions of the options before the call, and the two display decisions the
 * admin hooks make from the options. The class in module Compat is proved to
 * follow these functions; the lemmas here state what they promise.
 */
module Lifecycle {
  import opened Attribution
  import opened BlockOptions

  /**
   * The options after `_using_block_function`: nothing in mode 1; otherwise
   * the theme state for a theme caller, insert-if-absent of the plugin's
   * basename for a plugin caller, and nothing when nobody is identified.
   * `basename` stands for the host's `plugin_basename`.
   */
  function AfterRecord(mode: int, self: string, basename: string -> string, o: Options, site: CallSite): (r: Options)
    ensures o.plugins <= r.plugins && |r.plugins| <= |o.plugins| + 1
    ensures r.plugins == o.plugins || r.theme == o.theme
    ensures r.theme == o.theme || r.theme == One || r.theme == Two
  {
    if mode == 1 then o
    else
      match Attribute(site, self)
      case CurrentTheme => o.(theme := One)
      case ParentTheme => o.(theme := Two)
      case Plugin(file) => o.(plugins := InsertIfAbsent(o.plugins, basename(file)))
      case Nobody => o
  }

  /** The options after `_update_who_uses_blocks` for one `upgrader_process_complete` event. */
  function AfterUpgrade(o: Options, action: string, kind: string, updated: seq<string>): (r: Options)
    ensures r.theme == o.theme || r.theme == False
    ensures r.plugins == o.plugins || r.theme == o.theme
    ensures forall k :: k in r.plugins ==> k in o.plugins
    ensures |r.plugins| <= |o.plugins|
  {
    if action != "update" then o
    else if kind == "theme" then o.(theme := False)
    else if kind != "plugin" then o
    else o.(plugins := Without(o.plugins, updated))
  }

  /** The options after `_delete_who_uses_blocks` for one deleted plugin. */
  function AfterDelete(o: Options, pluginFile: string): (r: Options)
    ensures r.theme == o.theme
    ensures forall k :: k in r.plugins <==> k in o.plugins && k != pluginFile
  {
    o.(plugins := Without(o.plugins, [pluginFile]))
  }

  /** The options after `_delete_theme_uses_blocks`. */
  function AfterThemeSwitch(o: Options): (r: Options)
    ensures r.plugins == o.plugins
    ensures forall pagenow :: ThemeNotice(pagenow, r) == NoOutput
  {
    o.(theme := Zero)
  }

  /** What an admin hook shows; the HTML and its wording are not modelled. */
  datatype Output = NoOutput | PluginRowWarning(pluginFile: string) | CurrentThemeNotice | ParentThemeNotice

  /** The `after_plugin_row` decision: warn below a plugin's row iff its file is a recorded key. */
  function RowWarning(pluginFile: string, o: Options): (out: Output)
    ensures out == PluginRowWarning(pluginFile) <==> pluginFile in o.plugins
    ensures out == NoOutput <==> pluginFile !in o.plugins
  {
    if pluginFile !in o.plugins then NoOutput else PluginRowWarning(pluginFile)
  }

  /**
   * The `admin_notices` decision: on the themes page only, and only for a
   * stored state strictly '1' (current-theme wording) or '2' (parent-theme
   * wording).
   */
  function ThemeNotice(pagenow: string, o: Options): (out: Output)
    ensures out == CurrentThemeNotice <==> pagenow == "themes.php" && o.theme == One
    ensures out == ParentThemeNotice <==> pagenow == "themes.php" && o.theme == Two
    ensures out == NoOutput <==> pagenow != "themes.php" || o.theme.Absent? || o.theme.Zero? || o.theme.False?
  {
    if pagenow != "themes.php" then NoOutput
    else if !(o.theme == One || o.theme == Two) then NoOutput
    else if o.theme == One then CurrentThemeNotice
    else ParentThemeNotice
  }

  /** In mode 1 the recorder changes neither option, whatever the call site. */
  lemma RecorderIdleInModeOne(self: string, basename: string -> string, o: Options, site: CallSite)
    ensures AfterRecord(1, self, basename, o, site) == o
  {
  }

  /**
   * A frame-1 file that starts with the stylesheet directory string sets the
   * theme state to '1', whatever it was, and leaves the plugin registry alone;
   * failing that, one that starts with the template directory string sets it
   * to '2'.
   */
  lemma ThemeCallerSetsThemeState(mode: int, self: string, basename: string -> string, o: Options, site: CallSite)
    requires mode != 1
    ensures StartsWith(CallerFile(site.trace), site.stylesheetDir) ==>
      AfterRecord(mode, self, basename, o, site) == Options(o.plugins, One)
    ensures !StartsWith(CallerFile(site.trace), site.stylesheetDir) && StartsWith(CallerFile(site.trace), site.templateDir) ==>
      AfterRecord(mode, self, basename, o, site) == Options(o.plugins, Two)
  {
  }

  /**
   * When frame 1's file starts with neither theme directory string, the theme
   * state is untouched, and the registry changes exactly when a plugin frame
   * remains after the self-removal and that plugin's basename is not yet a
   * key; then it gains that key at the end.
   */
  lemma PluginCallerInsertsOnce(mode: int, self: string, basename: string -> string, o: Options, site: CallSite)
    requires mode != 1
    requires !StartsWith(CallerFile(site.trace), site.stylesheetDir)
    requires !StartsWith(CallerFile(site.trace), site.templateDir)
    ensures AfterRecord(mode, self, basename, o, site).theme == o.theme
    ensures var chosen := ChosenFrame(site.trace, site.activePlugins, self);
      AfterRecord(mode, self, basename, o, site) != o <==>
        chosen.Some? && basename(site.trace[chosen.value]) !in o.plugins
    ensures var chosen := ChosenFrame(site.trace, site.activePlugins, self);
      chosen.Some? && basename(site.trace[chosen.value]) !in o.plugins ==>
        AfterRecord(mode, self, basename, o, site).plugins == o.plugins + [basename(site.trace[chosen.value])]
  {
    var chosen := ChosenFrame(site.trace, site.activePlugins, self);
    if chosen.Some? {
      var key := basename(site.trace[chosen.value]);
      assert key in InsertIfAbsent(o.plugins, key);
    }
  }

  /** Recording the same call site again changes nothing more. */
  lemma RecordIdempotent(mode: int, self: string, basename: string -> string, o: Options, site: CallSite)
    ensures var once := AfterRecord(mode, self, basename, o, site);
      AfterRecord(mode, self, basename, once, site) == once
  {
    if mode != 1 && Attribute(site, self).Plugin? {
      InsertIfAbsentIdempotent(o.plugins, basename(Attribute(site, self).file));
    }
  }

  /** After recording a plugin caller, that plugin's row carries the warning. */
  lemma RecordedPluginIsWarned(mode: int, self: string, basename: string -> string, o: Options, site: CallSite)
    requires mode != 1 && Attribute(site, self).Plugin?
    ensures RowWarning(basename(Attribute(site, self).file), AfterRecord(mode, self, basename, o, site)) != NoOutput
  {
  }

  /** Every operation keeps the registry's keys unique. */
  lemma OperationsKeepKeysDistinct(mode: int, self: string, basename: string -> string, o: Options, site: CallSite,
                                   action: string, kind: string, updated: seq<string>, pluginFile: string)
    requires Distinct(o.plugins)
    ensures Distinct(AfterRecord(mode, self, basename, o, site).plugins)
    ensures Distinct(AfterUpgrade(o, action, kind, updated).plugins)
    ensures Distinct(AfterDelete(o, pluginFile).plugins)
    ensures Distinct(AfterThemeSwitch(o).plugins)
  {
    WithoutDistinct(o.plugins, updated);
    WithoutDistinct(o.plugins, [pluginFile]);
  }

  /**
   * The upgrade handler: only an 'update' action of type 'theme' or 'plugin'
   * changes anything; a theme update resets the theme state to false and
   * keeps the registry; a plugin update removes every listed key, keeps every
   * other key, and keeps the theme state (the kept keys keep their order, as
   * WithoutSplits shows).
   */
  lemma UpgradeHandlerEffect(o: Options, action: string, kind: string, updated: seq<string>)
    ensures action != "update" || (kind != "theme" && kind != "plugin") ==> AfterUpgrade(o, action, kind, updated) == o
    ensures action == "update" && kind == "theme" ==> AfterUpgrade(o, action, kind, updated) == Options(o.plugins, False)
    ensures action == "update" && kind == "plugin" ==>
      var after := AfterUpgrade(o, action, kind, updated);
      && after.theme == o.theme
      && (forall p :: p in updated ==> p !in after.plugins)
      && (forall k :: k in o.plugins && k !in updated ==> k in after.plugins)
      && (forall k :: k in after.plugins ==> k in o.plugins)
      && ((forall k :: k in o.plugins ==> k !in updated) ==> after.plugins == o.plugins)
  {
    if forall k :: k in o.plugins ==> k !in updated {
      WithoutNothingListed(o.plugins, updated);
    }
  }

  /** Delivering the same upgrade event twice leaves what delivering it once leaves. */
  lemma UpgradeIdempotent(o: Options, action: string, kind: string, updated: seq<string>)
    ensures var once := AfterUpgrade(o, action, kind, updated);
      AfterUpgrade(once, action, kind, updated) == once
  {
    WithoutIdempotent(o.plugins, updated);
  }

  /**
   * The delete handler: afterwards the key is absent, every other key is
   * kept in its order, the theme state is untouched, and deleting twice is
   * deleting once.
   */
  lemma DeleteHandlerEffect(o: Options, pluginFile: string)
    ensures pluginFile !in AfterDelete(o, pluginFile).plugins
    ensures forall k :: k in o.plugins && k != pluginFile ==> k in AfterDelete(o, pluginFile).plugins
    ensures AfterDelete(o, pluginFile).theme == o.theme
    ensures pluginFile !in o.plugins ==> AfterDelete(o, pluginFile) == o
    ensures AfterDelete(AfterDelete(o, pluginFile), pluginFile) == AfterDelete(o, pluginFile)
    ensures RowWarning(pluginFile, AfterDelete(o, pluginFile)) == NoOutput
  {
    WithoutIdempotent(o.plugins, [pluginFile]);
    if pluginFile !in o.plugins {
      WithoutNothingListed(o.plugins, [pluginFile]);
    }
  }

  /** A delete event and an upgrade event give the same options in either order. */
  lemma DeleteAndUpgradeCommute(o: Options, pluginFile: string, action: string, kind: string, updated: seq<string>)
    ensures AfterUpgrade(AfterDelete(o, pluginFile), action, kind, updated)
         == AfterDelete(AfterUpgrade(o, action, kind, updated), pluginFile)
  {
    WithoutCommutes(o.plugins, [pluginFile], updated);
  }

  /**
   * The theme switch sets the state to '0' whatever it was, so no theme
   * notice follows it, nor a theme update, in either order.
   */
  lemma ThemeResetsSilenceNotice(o: Options, pagenow: string, updated: seq<string>)
    ensures AfterThemeSwitch(o) == Options(o.plugins, Zero)
    ensures ThemeNotice(pagenow, AfterThemeSwitch(o)) == NoOutput
    ensures ThemeNotice(pagenow, AfterUpgrade(o, "update", "theme", updated)) == NoOutput
    ensures ThemeNotice(pagenow, AfterThemeSwitch(AfterUpgrade(o, "update", "theme", updated))) == NoOutput
    ensures ThemeNotice(pagenow, AfterUpgrade(AfterThemeSwitch(o), "update", "theme", updated)) == NoOutput
  {
  }

  /**
   * End to end: a plugin file that starts with neither theme directory string
   * and calls a polyfill directly gets its basename recorded when recording
   * is on, and the theme state is untouched.
   */
  lemma DirectPluginCallIsRecorded(mode: int, self: string, basename: string -> string, o: Options,
                                   file: string, stylesheetDir: string, templateDir: string, active: seq<string>)
    requires mode != 1
    requires file in active && file != self
    requires !StartsWith(file, stylesheetDir) && !StartsWith(file, templateDir)
    ensures AfterRecord(mode, self, basename, o, CallSite([self, file], stylesheetDir, templateDir, active))
         == Options(InsertIfAbsent(o.plugins, basename(file)), o.theme)
  {
    DirectPluginCallerIsAttributed(self, file, stylesheetDir, templateDir, active);
  }
}
