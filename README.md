# Compat: block-function caller attribution, modelled in Dafny

The Compat plugin (`xsx-compat.php`) polyfills the block-editor functions
`register_block_type`, `register_block_type_from_metadata` and
`register_block_pattern`, plus the `WP_Screen::is_block_editor` method when
runkit7 is loaded and can add it, for a host that lacks them. Every polyfill
returns `false`, except that the `is_block_editor` closure requires an
argument (see "## Findings").
Depending on `WP_COMPATIBILITY_MODE`, the polyfills also record who called
them:

- mode 0 defines no polyfill and registers no hook; `_using_block_function`
  is still declared, but nothing in the file calls it;
- mode 1 defines the polyfills, but the recorder returns at once;
- mode 2 records the caller and registers the admin hooks.

The recorder keeps two options:

- `theme_using_blocks` becomes `'1'` when the current theme made the call and
  `'2'` when the parent theme did;
- `plugins_using_blocks` is an insertion-ordered array from plugin basename to
  `true`, with one key per calling plugin.

Lifecycle hooks prune these options:

- a plugin update unsets the updated plugins' keys;
- a theme update sets the theme state to `false`;
- a plugin deletion unsets that plugin's key;
- a theme switch sets the theme state to `'0'`.

Two admin hooks read the options:

- a warning below a plugin's row when its file is a key;
- a notice on `themes.php` when the theme state is `'1'` or `'2'`.

Files:

- `attribution.dfy` (module `Attribution`): the attribution as a pure
  function of the frame files, the two theme directories, the active plugin
  files and the plugin's own file. It includes PHP's array semantics: the
  keys `array_intersect` preserves, the first match `array_search` finds, and
  `false` used as key 0 by `unset`.
- `options.dfy` (module `BlockOptions`): the option values, insert-if-absent,
  and unsetting a list of keys (`Without`), with their lemmas.
- `lifecycle.dfy` (module `Lifecycle`): the options each operation leaves
  behind, as functions of the options before it. It also holds the two
  display decisions and the lemmas the handlers promise: idempotence,
  commutation and reset.
- `compat.dfy` (module `Compat`): class `CompatPlugin`. The two options are
  fields, and the mode and host facts are constants. The recorder and the
  handlers are methods, each proved to follow the `Lifecycle` function. The
  upgrade handler keeps the source's `foreach` loop. `Fire` dispatches the
  hooks, and `CallPolyfill` is the polyfills' entry point.

Behaviour of the code worth knowing, which the model follows:

- Plugins are matched by exact equality of a frame's file with an active
  plugin file (xsx-compat.php:55), not by directory prefix.
- The registry maps each plugin's basename to `true` (xsx-compat.php:64-65);
  display names are not stored.
- Every theme call overwrites the theme state (xsx-compat.php:47-52), so the
  last theme caller wins.
- Mode 1 records nothing: the recorder returns at once (xsx-compat.php:42-44).
- A theme update stores `false` (xsx-compat.php:128), and a theme switch
  stores `'0'` (xsx-compat.php:201).
- A trace without frame 1 is not treated as a special case
  (xsx-compat.php:47-56). Its frame-1 file reads as the empty string, and the
  plugin search then runs over the frames that exist.

## Model

| member | source | states |
|---|---|---|
| `Attribution.MatchKeys` | xsx-compat.php:55 | the kept keys are exactly the indices of frames whose file is an active plugin file, strictly increasing (trace order) |
| `Attribution.StartsWith` | xsx-compat.php:47-50 | `strpos(...) === 0` holds iff the needle fits in the haystack and equals its prefix of the needle's length |
| `Attribution.CallerFile` | xsx-compat.php:47 | the file of frame 1 when the trace has one; otherwise a value that starts with no directory string except the empty one |
| `Attribution.SearchPos` | xsx-compat.php:56 | finds nothing iff no match is the searched file; otherwise the position found holds that file and no earlier match does |
| `Attribution.UnsetKey` | xsx-compat.php:56 | the key `unset` removes is either 0 (`false` as array key) or a frame in the plugin's own file, with that file active |
| `Attribution.Drop` | xsx-compat.php:56 | `unset` leaves exactly the other keys, still in increasing order |
| `Attribution.ChosenFrame` | xsx-compat.php:55-61 | `array_pop` yields an active-plugin frame other than the unset key, with every later matching frame being the unset key; it yields nothing iff every match is the unset key |
| `Attribution.Attribute` | xsx-compat.php:46-61 | current theme iff frame 1's file starts with the stylesheet directory string; parent theme iff it does not but starts with the template directory string; a plugin result is an active plugin file and exactly the file of the frame `ChosenFrame` picks; nobody iff neither theme test holds and every active-plugin frame is the unset key |
| `Attribution.UnsetKeyIsFirstOwnFrame` | xsx-compat.php:56 | the unset key is the first frame in the plugin's own file when that file is active and in the trace; otherwise it is 0 (`false` as array key) |
| `Attribution.FrameZeroDroppedWithoutOwnMatch` | xsx-compat.php:56 | when the own file is not among the matches, frame 0 is never the chosen plugin frame |
| `Attribution.NeverAttributesItself` | xsx-compat.php:55-57 | if the own file occurs at most once in the trace, the call is never attributed to this plugin |
| `Attribution.SecondOwnFrameIsAttributed` | xsx-compat.php:55-57 | the self-removal takes out one match only: a trace [own, caller, own] is attributed to this plugin |
| `Attribution.OwnFrameAloneIsNobody` | xsx-compat.php:46-61 | a one-frame trace holding only the own file is attributed to nobody (theme directories non-empty) |
| `Attribution.DirectPluginCallerIsAttributed` | xsx-compat.php:46-61 | an active plugin file that starts with neither theme directory string and calls directly is the plugin attributed |
| `BlockOptions.InsertIfAbsent` | xsx-compat.php:63-67 | existing keys stay as a prefix in their order, the key is present afterwards, nothing else is added, and keys stay unique |
| `BlockOptions.InsertIfAbsentIdempotent` | xsx-compat.php:63-67 | inserting the same key twice equals inserting it once |
| `BlockOptions.Without` | xsx-compat.php:137-141 | a key remains iff it was present and is not listed |
| `BlockOptions.WithoutDistinct` | xsx-compat.php:137-141 | unsetting keys keeps the remaining keys unique |
| `BlockOptions.WithoutSplits` | xsx-compat.php:137-141 | unsetting distributes over concatenation, so the kept keys keep their relative order |
| `BlockOptions.WithoutNothingListed` | xsx-compat.php:152-158 | when no listed key is present, nothing changes |
| `BlockOptions.WithoutIdempotent` | xsx-compat.php:152-158 | unsetting the same keys twice equals unsetting them once |
| `BlockOptions.WithoutStep` | xsx-compat.php:137-141 | unsetting the keys done so far and then one more is unsetting the extended list |
| `BlockOptions.WithoutCommutes` | xsx-compat.php:137-158 | unsetting two lists of keys gives the same registry in either order |
| `BlockOptions.UnsetStep` | xsx-compat.php:137-141 | one loop pass (unset when `array_key_exists`, else nothing) extends the removed list by that plugin |
| `Lifecycle.AfterRecord` | xsx-compat.php:41-69 | the recorder only appends to the registry, at most one key; it changes at most one of the two options; the theme state is either kept or set to `'1'` or `'2'` |
| `Lifecycle.AfterUpgrade` | xsx-compat.php:122-143 | the upgrade handler never adds a registry key and never grows the registry; it changes at most one option; the theme state is either kept or set to `false` |
| `Lifecycle.AfterDelete` | xsx-compat.php:152-158 | the delete handler keeps the theme state, and a key remains iff it was present and is not the deleted plugin's file |
| `Lifecycle.AfterThemeSwitch` | xsx-compat.php:200-202 | the theme switch keeps the registry, and afterwards no theme notice is shown on any page |
| `Lifecycle.RowWarning` | xsx-compat.php:88-91 | the plugin-row warning is shown iff the plugin file is a key of the registry |
| `Lifecycle.ThemeNotice` | xsx-compat.php:167-176 | current-theme notice iff page is `themes.php` and state is `'1'`; parent notice iff `themes.php` and `'2'`; none for absent, `'0'` or `false` |
| `Lifecycle.RecorderIdleInModeOne` | xsx-compat.php:42-44 | in mode 1 the recorder changes neither option, whatever the trace |
| `Lifecycle.ThemeCallerSetsThemeState` | xsx-compat.php:47-52 | a frame-1 file that starts with the stylesheet directory string sets the state to `'1'` whatever it was; failing that, one that starts with the template directory string sets `'2'`; the registry is untouched |
| `Lifecycle.PluginCallerInsertsOnce` | xsx-compat.php:53-67 | when frame 1's file starts with neither theme directory string, the theme state is untouched; the options change iff a plugin frame remains and its basename is not yet a key, and then that key is appended |
| `Lifecycle.RecordIdempotent` | xsx-compat.php:63-67 | recording the same call again changes nothing |
| `Lifecycle.RecordedPluginIsWarned` | xsx-compat.php:63-91 | after a plugin caller is recorded, its row carries the warning |
| `Lifecycle.OperationsKeepKeysDistinct` | xsx-compat.php:63-158 | recorder, upgrade, delete and theme-switch all keep the registry keys unique |
| `Lifecycle.UpgradeHandlerEffect` | xsx-compat.php:122-143 | non-`update` actions and other types change nothing; `theme` sets the state to `false` and keeps the registry; `plugin` leaves every listed key absent, keeps every unlisted key and the theme state |
| `Lifecycle.UpgradeIdempotent` | xsx-compat.php:122-143 | delivering the same upgrade event twice equals delivering it once |
| `Lifecycle.DeleteHandlerEffect` | xsx-compat.php:152-158 | after delete the key is absent, every other key and the theme state are kept, an absent key changes nothing, deleting twice equals once, and the row shows no warning |
| `Lifecycle.DeleteAndUpgradeCommute` | xsx-compat.php:122-158 | a delete event and an upgrade event give the same options in either order |
| `Lifecycle.ThemeResetsSilenceNotice` | xsx-compat.php:166-202 | theme switch sets the state to `'0'` unconditionally; after a switch or a theme update, in either order, no theme notice is shown |
| `Lifecycle.DirectPluginCallIsRecorded` | xsx-compat.php:46-67 | a direct caller from an active plugin file that starts with neither theme directory string gets its basename inserted; the theme state is untouched |
| `Compat.RequiredArgs` | xsx-compat.php:208-238 | only the is_block_editor closure requires an argument; the register_* polyfills take `...$args` |
| `Compat.Outcome` | xsx-compat.php:208-240 | a defined polyfill throws before its body iff fewer arguments than required are passed, and otherwise returns `false` |
| `Compat.GetterFormFailsAsWritten` | xsx-compat.php:238 | as written, `is_block_editor()` with no argument throws instead of recording |
| `Compat.IntendedCallAlwaysReturns` | xsx-compat.php:238-240 | with `$set = null`, every defined polyfill returns `false` for any number of arguments |
| `Compat.SignaturesDifferOnlyOnGetter` | xsx-compat.php:238 | the signature as written and the intended one differ exactly on `is_block_editor` called with no argument |
| `Compat.CompatPlugin.constructor` | xsx-compat.php:16-33 | the mode and host facts are fixed at load, and the options are what the request finds stored |
| `Compat.CompatPlugin.Defines` | xsx-compat.php:206-245 | no polyfill is defined in mode 0, where the file returns before the conditional definitions (lines 31-33); otherwise a register_* polyfill is defined iff the host lacks that function, and the is_block_editor method iff runkit7 is loaded and can add it (`WP_Screen` declared without that method) |
| `Compat.CompatPlugin.UsingBlockFunction` | xsx-compat.php:41-69 | in every mode, including mode 0 where it is declared but not called, the recorder leaves exactly the options `AfterRecord` describes and keeps keys unique |
| `Compat.CompatPlugin.UpdateWhoUsesBlocks` | xsx-compat.php:122-143 | the loop of unsets leaves exactly `AfterUpgrade` of the old options |
| `Compat.CompatPlugin.DeleteWhoUsesBlocks` | xsx-compat.php:152-158 | leaves exactly `AfterDelete` of the old options |
| `Compat.CompatPlugin.DeleteThemeUsesBlocks` | xsx-compat.php:200-202 | leaves exactly `AfterThemeSwitch` of the old options |
| `Compat.CompatPlugin.Fire` | xsx-compat.php:72-78 | outside mode 2 (`HooksRegistered`, the `=== 2` gate) no hook runs (no output, options unchanged); in mode 2 each action runs its handler or display decision |
| `Compat.CompatPlugin.CallPolyfill` | xsx-compat.php:206-247 | a polyfill this file defined records the call and returns `false` when given the arguments its signature requires; `is_block_editor()` with no argument throws `ArgumentCountError` and leaves the options alone; one this file did not define (mode 0, host already has it, no runkit7) leaves the options alone |

## Findings

| source | as written | input that shows it | evidently intended | confidence | as-written member | corrected member |
|---|---|---|---|---|---|---|
| xsx-compat.php:238 | the `is_block_editor` closure declares `$set` with no default | `$screen->is_block_editor()`, the getter form, with no argument: PHP 7.1 and later throw `ArgumentCountError` before the body runs, so nothing is recorded and `false` is not returned | `$set = null`, as the host's own `WP_Screen::is_block_editor` declares it, so every call records and returns `false` | medium, not executed | `Compat.GetterFormFailsAsWritten` | `Compat.IntendedCallAlwaysReturns` |

`CallPolyfill` follows the signature as written (`RequiredArgs`), since that is
what a host runs. `IntendedRequiredArgs` is the corrected signature, and
`SignaturesDifferOnlyOnGetter` shows the two agree on every other call.

## Left out

- HTML and JavaScript output, translation (`esc_html__`, `printf`), plugin and
  theme display names, the list table's column count and `is_plugin_active`
  are not modelled. Only the show/which-notice decisions are kept.
- `debug_backtrace`, `get_stylesheet_directory`, `get_template_directory` and
  `wp_get_active_and_valid_plugins` are host calls. Their results are the
  fields of `CallSite`.
- `plugin_basename` is an uninterpreted function, `basename`.
- `get_option` and `update_option` are the two class fields. Whether a write
  happens (the unconditional writes at lines 142 and 157) is not observable
  here. A failing store is not modelled.
- Races between concurrent requests' load-modify-store are not modelled. The
  code has no locking.
- The `ABSPATH` guard and the `define` of the mode are not modelled. The
  mode is a constructor argument; the source's default is 1. A non-integer
  mode such as the string `'2'` fails all three `===` tests. It behaves like
  an integer mode other than 0, 1 or 2: calls are recorded and no hooks are
  registered.
- Frames without a `file` entry are not modelled. `array_column` skips them
  and renumbers the keys; the model assumes every frame has a file.
- `array_search` compares loosely (`==`). The model uses string equality.
  They differ only for numeric strings, which absolute file paths are not.
  PHP's conversion of integer-like string keys to integers is not modelled
  either.
- The prefix test follows PHP 8's `strpos`, where an empty needle matches
  at 0. PHP 7.4 instead returns `false` with a warning. This matters only
  for an empty theme directory.
- Missing keys in the upgrader's options array are not modelled. A missing
  `action` or `type` reads as null and fails the `===` tests, like any other
  string. A missing `plugins` list is an empty list.
- `runkit7_method_add`'s class, visibility and return-type arguments are not
  modelled. Whether it can add the method is a host fact (`IsBlockEditor` in
  `hostFunctions` means it cannot). Its closure is kept with its required
  parameter. The values of the polyfills' arguments are not modelled, only
  their number.
