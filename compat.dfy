/**
 * The plugin as loaded into one request: its operation mode, the polyfills it
 * defines, the hooks it registers, and the two options it reads and writes.
 * The options are fields here; the host's option storage, stack inspection and
 * directory lookups are not modelled and reach the methods as values.
 */
module Compat {
  import opened Attribution
  import opened BlockOptions
  import opened Lifecycle

  /** The watched functions this file may define. */
  datatype Polyfill =
    | RegisterBlockType
    | RegisterBlockTypeFromMetadata
    | RegisterBlockPattern
    | IsBlockEditor  // the WP_Screen method added through runkit7

  /** The actions hooked in mode 2, with the arguments the host passes. */
  datatype Hook =
    | AfterPluginRow(pluginFile: string)
    | UpgraderProcessComplete(action: string, kind: string, updated: seq<string>)
    | DeletePlugin(pluginFile: string)
    | AdminNotices(pagenow: string)
    | AfterSwitchTheme

  /**
   * What a call to a watched function gives: this file did not define it, the
   * body ran and returned a value, or PHP threw `ArgumentCountError` before
   * the body ran because too few arguments were passed.
   */
  datatype CallOutcome = Undefined | Returned(value: bool) | TooFewArguments

  /**
   * The arguments each polyfill's signature requires, as written: the
   * register_* polyfills take `...$args`, while the is_block_editor closure
   * declares `$set` without a default.
   */
  function RequiredArgs(p: Polyfill): (n: nat)
    ensures n == 0 <==> p != IsBlockEditor
  {
    if p == IsBlockEditor then 1 else 0
  }

  /**
   * The signatures with the closure's parameter declared `$set = null`, as the
   * host's own `WP_Screen::is_block_editor` declares it.
   */
  function IntendedRequiredArgs(p: Polyfill): (n: nat)
    ensures n == 0
  {
    0
  }

  /**
   * A defined polyfill called with `argCount` arguments: too few throw before
   * the body runs; otherwise the body records the call and returns false.
   */
  function Outcome(required: nat, argCount: nat): (r: CallOutcome)
    ensures r == TooFewArguments <==> argCount < required
    ensures r == Returned(false) <==> required <= argCount
  {
    if argCount < required then TooFewArguments else Returned(false)
  }

  /** As written, the getter form `$screen->is_block_editor()` throws before the closure's body runs. */
  lemma GetterFormFailsAsWritten()
    ensures Outcome(RequiredArgs(IsBlockEditor), 0) == TooFewArguments
  {
  }

  /** With `$set = null`, every defined polyfill records and returns false, whatever the number of arguments. */
  lemma IntendedCallAlwaysReturns(p: Polyfill, argCount: nat)
    ensures Outcome(IntendedRequiredArgs(p), argCount) == Returned(false)
  {
  }

  /** The signature as written and the intended one differ only on the getter form of is_block_editor. */
  lemma SignaturesDifferOnlyOnGetter(p: Polyfill, argCount: nat)
    ensures Outcome(RequiredArgs(p), argCount) != Outcome(IntendedRequiredArgs(p), argCount)
        <==> p == IsBlockEditor && argCount == 0
  {
  }

  class CompatPlugin {
    /** WP_COMPATIBILITY_MODE: 0 disabled, 1 polyfills only, 2 polyfills, recording and warnings. */
    const mode: int
    /** `__FILE__`, this plugin's own file. */
    const thisFile: string
    /** The host's `plugin_basename`. */
    const basename: string -> string
    /**
     * The watched functions the host already has when this file loads. For
     * `IsBlockEditor` this means `runkit7_method_add` cannot add the method:
     * `WP_Screen` is not declared yet, or it already has `is_block_editor`.
     */
    const hostFunctions: set<Polyfill>
    /** Whether `runkit7_method_add` exists when this file loads. */
    const runkitLoaded: bool

    /** Option `plugins_using_blocks`: its keys in insertion order (each maps to true). */
    var pluginsUsingBlocks: seq<string>
    /** Option `theme_using_blocks`. */
    var themeUsingBlocks: ThemeOption

    ghost predicate Valid()
      reads this
    {
      Distinct(pluginsUsingBlocks)
    }

    function Stored(): Options
      reads this
    {
      Options(pluginsUsingBlocks, themeUsingBlocks)
    }

    /** Loads the file in a request that finds `stored` in the two options. */
    constructor (mode: int, thisFile: string, basename: string -> string, hostFunctions: set<Polyfill>,
                 runkitLoaded: bool, stored: Options)
      requires Distinct(stored.plugins)
      ensures Valid()
      ensures this.mode == mode && this.thisFile == thisFile && this.basename == basename
      ensures this.hostFunctions == hostFunctions && this.runkitLoaded == runkitLoaded
      ensures Stored() == stored
    {
      this.mode := mode;
      this.thisFile := thisFile;
      this.basename := basename;
      this.hostFunctions := hostFunctions;
      this.runkitLoaded := runkitLoaded;
      pluginsUsingBlocks := stored.plugins;
      themeUsingBlocks := stored.theme;
    }

    /**
     * Whether loading this file defined polyfill `p`: no polyfill in mode 0; a
     * register_* function only when the host lacks it; the is_block_editor
     * method only when runkit7 is loaded and can add it.
     */
    predicate Defines(p: Polyfill): (b: bool)
      ensures mode == 0 ==> !b
      ensures mode != 0 && p == IsBlockEditor ==> (b <==> runkitLoaded && p !in hostFunctions)
      ensures mode != 0 && p != IsBlockEditor ==> (b <==> p !in hostFunctions)
    {
      mode != 0 && p !in hostFunctions && (p == IsBlockEditor ==> runkitLoaded)
    }

    /** The hook functions exist and are added only in mode 2. */
    predicate HooksRegistered() {
      mode == 2
    }

    /**
     * `_using_block_function`: returns at once in mode 1; otherwise records
     * the attributed theme or plugin. It is declared in every mode, but in
     * mode 0 nothing in the file calls it.
     */
    method UsingBlockFunction(site: CallSite)
      requires Valid()
      modifies this
      ensures Valid()
      ensures Stored() == AfterRecord(mode, thisFile, basename, old(Stored()), site)
    {
      if mode == 1 {
        return;
      }
      match Attribute(site, thisFile) {
        case CurrentTheme =>
          themeUsingBlocks := One;
        case ParentTheme =>
          themeUsingBlocks := Two;
        case Plugin(file) =>
          var key := basename(file);
          if key !in pluginsUsingBlocks {
            pluginsUsingBlocks := pluginsUsingBlocks + [key];
          }
        case Nobody =>
      }
    }

    /**
     * `_update_who_uses_blocks`: after an update, a theme update resets the
     * theme state to false and a plugin update unsets every updated plugin's
     * key, one at a time.
     */
    method UpdateWhoUsesBlocks(action: string, kind: string, updated: seq<string>)
      requires Valid() && HooksRegistered()
      modifies this
      ensures Valid()
      ensures Stored() == AfterUpgrade(old(Stored()), action, kind, updated)
    {
      if action != "update" {
        return;
      }
      if kind == "theme" {
        themeUsingBlocks := False;
        return;
      }
      if kind != "plugin" {
        return;
      }
      var registry := pluginsUsingBlocks;
      // Nothing is unset yet: this gives the invariant for i == 0.
      WithoutNothingListed(registry, []);
      for i := 0 to |updated|
        // The loop works on the local copy only; no field changes until the store below.
        modifies {}
        invariant registry == Without(old(pluginsUsingBlocks), updated[..i])
      {
        var plugin := updated[i];
        assert updated[..i + 1] == updated[..i] + [plugin];
        UnsetStep(old(pluginsUsingBlocks), updated[..i], plugin);
        if plugin in registry {
          registry := Without(registry, [plugin]);
        }
      }
      assert updated[..|updated|] == updated;
      WithoutDistinct(old(pluginsUsingBlocks), updated);
      pluginsUsingBlocks := registry;
    }

    /** `_delete_who_uses_blocks`: unsets the deleted plugin's key if present. */
    method DeleteWhoUsesBlocks(pluginFile: string)
      requires Valid() && HooksRegistered()
      modifies this
      ensures Valid()
      ensures Stored() == AfterDelete(old(Stored()), pluginFile)
    {
      WithoutDistinct(pluginsUsingBlocks, [pluginFile]);
      if pluginFile in pluginsUsingBlocks {
        pluginsUsingBlocks := Without(pluginsUsingBlocks, [pluginFile]);
      } else {
        WithoutNothingListed(pluginsUsingBlocks, [pluginFile]);
      }
    }

    /** `_delete_theme_uses_blocks`: the theme state becomes '0'. */
    method DeleteThemeUsesBlocks()
      requires Valid() && HooksRegistered()
      modifies this
      ensures Valid()
      ensures Stored() == AfterThemeSwitch(old(Stored()))
    {
      themeUsingBlocks := Zero;
    }

    /**
     * The host firing one of the hooked actions: nothing happens unless the
     * hooks were registered (mode 2); the display hooks only read the options.
     */
    method Fire(hook: Hook) returns (out: Output)
      requires Valid()
      modifies this
      ensures Valid()
      ensures !HooksRegistered() ==> out == NoOutput && Stored() == old(Stored())
      ensures HooksRegistered() ==>
        match hook
        case AfterPluginRow(file) => out == RowWarning(file, old(Stored())) && Stored() == old(Stored())
        case UpgraderProcessComplete(action, kind, updated) =>
          out == NoOutput && Stored() == AfterUpgrade(old(Stored()), action, kind, updated)
        case DeletePlugin(file) => out == NoOutput && Stored() == AfterDelete(old(Stored()), file)
        case AdminNotices(pagenow) => out == ThemeNotice(pagenow, old(Stored())) && Stored() == old(Stored())
        case AfterSwitchTheme => out == NoOutput && Stored() == AfterThemeSwitch(old(Stored()))
    {
      out := NoOutput;
      if !HooksRegistered() {
        return;
      }
      match hook {
        case AfterPluginRow(file) =>
          out := RowWarning(file, Stored());
        case UpgraderProcessComplete(action, kind, updated) =>
          UpdateWhoUsesBlocks(action, kind, updated);
        case DeletePlugin(file) =>
          DeleteWhoUsesBlocks(file);
        case AdminNotices(pagenow) =>
          out := ThemeNotice(pagenow, Stored());
        case AfterSwitchTheme =>
          DeleteThemeUsesBlocks();
      }
    }

    /**
     * A call to a watched function with `argCount` arguments. When this file
     * defined it and enough arguments are passed, it runs the recorder and
     * returns false; the getter form of is_block_editor throws first and
     * records nothing. When this file did not define it, this file supplies
     * nothing and the options are untouched.
     */
    method CallPolyfill(p: Polyfill, argCount: nat, site: CallSite) returns (result: CallOutcome)
      requires Valid()
      modifies this
      ensures Valid()
      ensures !Defines(p) ==> result == Undefined && Stored() == old(Stored())
      ensures Defines(p) ==> result == Outcome(RequiredArgs(p), argCount)
      ensures Defines(p) && p == IsBlockEditor && argCount == 0 ==> result == TooFewArguments
      ensures result == TooFewArguments ==> Stored() == old(Stored())
      ensures result == Returned(false) ==> Stored() == AfterRecord(mode, thisFile, basename, old(Stored()), site)
    {
      if !Defines(p) {
        return Undefined;
      }
      result := Outcome(RequiredArgs(p), argCount);
      if result == TooFewArguments {
        return;
      }
      UsingBlockFunction(site);
    }
  }
}
