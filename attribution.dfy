/**
 * Caller attribution for the block-function polyfills: given the file of every
 * frame of the call trace, decide whether the current theme, the parent theme,
 * a specific active plugin, or nobody identifiable called the polyfill.
 *
 * Frame 0 is the polyfill's own call into the recorder (always in this plugin's
 * own file); frame 1 is whoever called the polyfill; higher indices are the
 * outer callers.
 */
module Attribution {

  datatype Option<T> = None | Some(value: T)

  /** The caller a call into a watched function is attributed to. */
  datatype Caller = CurrentTheme | ParentTheme | Plugin(file: string) | Nobody

  /**
   * What the host tells the recorder at one call: the files of the call
   * trace's frames, the stylesheet (current theme) and template (parent theme)
   * directories, and the files of the active and valid plugins.
   */
  datatype CallSite = CallSite(
    trace: seq<string>,
    stylesheetDir: string,
    templateDir: string,
    activePlugins: seq<string>)

  /** `strpos(haystack, needle) === 0`: the needle occurs at offset 0. */
  predicate StartsWith(haystack: string, needle: string): (b: bool)
    ensures b <==> |needle| <= |haystack| && haystack[..|needle|] == needle
  {
    needle <= haystack
  }

  /**
   * The file of frame 1. A trace without a frame 1 yields null there, which
   * the string functions read as the empty string.
   */
  function CallerFile(files: seq<string>): (r: string)
    ensures |files| >= 2 ==> r == files[1]
    ensures |files| < 2 ==> forall dir :: StartsWith(r, dir) <==> dir == ""
  {
    if |files| >= 2 then files[1] else ""
  }

  ghost predicate Increasing(ks: seq<nat>) {
    forall a, b :: 0 <= a < b < |ks| ==> ks[a] < ks[b]
  }

  /**
   * The keys of `array_intersect(array_column($trace, 'file'), $active)`:
   * the indices of the frames whose file is exactly an active plugin file,
   * in trace order.
   */
  function MatchKeys(files: seq<string>, active: seq<string>): (ks: seq<nat>)
    ensures Increasing(ks)
    ensures forall p :: 0 <= p < |ks| ==> ks[p] < |files| && files[ks[p]] in active
    ensures forall i :: 0 <= i < |files| && files[i] in active ==> i in ks
    decreases |files|
  {
    if files == [] then []
    else
      var n := |files| - 1;
      var front := MatchKeys(files[..n], active);
      assert forall i :: 0 <= i < n ==> files[..n][i] == files[i];
      front + (if files[n] in active then [n] else [])
  }

  /**
   * `array_search(needle, $plugins)`: the position, in array order, of the
   * first match whose file is `needle`, or nothing when there is none.
   */
  function SearchPos(files: seq<string>, ks: seq<nat>, needle: string): (r: Option<nat>)
    requires forall p :: 0 <= p < |ks| ==> ks[p] < |files|
    ensures r.None? <==> forall p :: 0 <= p < |ks| ==> files[ks[p]] != needle
    ensures r.Some? ==> r.value < |ks| && files[ks[r.value]] == needle
    ensures r.Some? ==> forall q :: 0 <= q < r.value ==> files[ks[q]] != needle
  {
    if ks == [] then None
    else if files[ks[0]] == needle then Some(0)
    else
      match SearchPos(files, ks[1..], needle)
      case None => None
      case Some(p) => Some(p + 1)
  }

  /**
   * The key that `unset($plugins[array_search(__FILE__, $plugins)])` removes:
   * the key of the first match that is this plugin's own file, or, when there
   * is none, key 0, because `array_search` then returns `false` and `false`
   * used as an array key is 0.
   */
  function UnsetKey(files: seq<string>, active: seq<string>, self: string): (key: nat)
    ensures key == 0 || (key < |files| && files[key] == self && self in active)
  {
    var ks := MatchKeys(files, active);
    match SearchPos(files, ks, self)
    case Some(p) => ks[p]
    case None => 0
  }

  /** The keys left after `unset`, in their order. */
  function Drop(ks: seq<nat>, key: nat): (r: seq<nat>)
    ensures forall x :: x in r <==> x in ks && x != key
    ensures Increasing(ks) ==> Increasing(r)
  {
    if ks == [] then []
    else
      var rest := Drop(ks[1..], key);
      var r := (if ks[0] == key then [] else [ks[0]]) + rest;
      assert Increasing(ks) ==> Increasing(r) by {
        if Increasing(ks) {
          assert Increasing(ks[1..]);
          assert Increasing(rest);
          forall x | x in rest
            ensures ks[0] < x
          {
            var p :| 0 <= p < |ks[1..]| && ks[1..][p] == x;
            assert ks[p + 1] == x;
          }
          forall a, b | 0 <= a < b < |r|
            ensures r[a] < r[b]
          {
            if ks[0] == key {
              assert r[a] == rest[a] && r[b] == rest[b];
            } else if a == 0 {
              assert r[b] == rest[b - 1] && rest[b - 1] in rest;
            } else {
              assert r[a] == rest[a - 1] && r[b] == rest[b - 1];
            }
          }
        }
      }
      r
  }

  lemma LastIsLargest(ks: seq<nat>, x: nat)
    requires Increasing(ks) && x in ks
    ensures x <= ks[|ks| - 1]
  {
    var p :| 0 <= p < |ks| && ks[p] == x;
    if p < |ks| - 1 {
      assert ks[p] < ks[|ks| - 1];
    }
  }

  /**
   * The frame `array_pop` takes from what is left after the self-removal:
   * the match with the largest trace index, or nothing when none is left.
   */
  function ChosenFrame(files: seq<string>, active: seq<string>, self: string): (r: Option<nat>)
    ensures r.Some? ==> r.value < |files| && files[r.value] in active
    ensures r.Some? ==> r.value != UnsetKey(files, active, self)
    ensures r.Some? ==> forall j :: r.value < j < |files| && files[j] in active ==> j == UnsetKey(files, active, self)
    ensures r.None? <==> forall j :: 0 <= j < |files| && files[j] in active ==> j == UnsetKey(files, active, self)
  {
    var ks := MatchKeys(files, active);
    var key := UnsetKey(files, active, self);
    var rem := Drop(ks, key);
    if rem == [] then None
    else
      var last := rem[|rem| - 1];
      assert last in rem;
      forall j | last < j < |files| && files[j] in active
        ensures j == key
      {
        if j != key {
          LastIsLargest(rem, j);
        }
      }
      Some(last)
  }

  /**
   * The attribution the recorder makes. The theme tests look at frame 1 only
   * and the current theme wins over the parent theme; otherwise the chosen
   * plugin frame, if any, names the plugin.
   */
  function Attribute(site: CallSite, self: string): (c: Caller)
    ensures c == CurrentTheme <==> StartsWith(CallerFile(site.trace), site.stylesheetDir)
    ensures c == ParentTheme <==>
      !StartsWith(CallerFile(site.trace), site.stylesheetDir) && StartsWith(CallerFile(site.trace), site.templateDir)
    ensures c.Plugin? ==> c.file in site.trace && c.file in site.activePlugins
    ensures c.Plugin? ==>
      var chosen := ChosenFrame(site.trace, site.activePlugins, self);
      chosen.Some? && c.file == site.trace[chosen.value]
    ensures c == Nobody <==>
      && !StartsWith(CallerFile(site.trace), site.stylesheetDir)
      && !StartsWith(CallerFile(site.trace), site.templateDir)
      && forall j :: 0 <= j < |site.trace| && site.trace[j] in site.activePlugins ==>
           j == UnsetKey(site.trace, site.activePlugins, self)
  {
    var caller := CallerFile(site.trace);
    if StartsWith(caller, site.stylesheetDir) then CurrentTheme
    else if StartsWith(caller, site.templateDir) then ParentTheme
    else
      match ChosenFrame(site.trace, site.activePlugins, self)
      case None => Nobody
      case Some(i) => Plugin(site.trace[i])
  }

  /**
   * The key removed as "ourself" is the first frame whose file is this
   * plugin's own file, when that file is an active plugin file and occurs in
   * the trace; otherwise it is key 0, whatever frame 0 holds.
   */
  lemma UnsetKeyIsFirstOwnFrame(files: seq<string>, active: seq<string>, self: string)
    ensures self in active && self in files ==>
      && UnsetKey(files, active, self) < |files|
      && files[UnsetKey(files, active, self)] == self
      && forall j :: 0 <= j < UnsetKey(files, active, self) ==> files[j] != self
    ensures !(self in active && self in files) ==> UnsetKey(files, active, self) == 0
  {
    var ks := MatchKeys(files, active);
    var key := UnsetKey(files, active, self);
    if self in active && self in files {
      var i :| 0 <= i < |files| && files[i] == self;
      assert i in ks;
      var p :| 0 <= p < |ks| && ks[p] == i;
      var r := SearchPos(files, ks, self);
      assert r.Some?;
      assert key == ks[r.value];
      assert forall j :: 0 <= j < key ==> files[j] != self;
    } else {
      assert forall p :: 0 <= p < |ks| ==> files[ks[p]] != self;
    }
  }

  /**
   * Frame 0 is dropped by the `false`-as-key-0 quirk: when this plugin's own
   * file is not among the matches, an active plugin in frame 0 is never the
   * one chosen.
   */
  lemma FrameZeroDroppedWithoutOwnMatch(files: seq<string>, active: seq<string>, self: string)
    requires !(self in active && self in files)
    ensures ChosenFrame(files, active, self) != Some(0)
  {
    UnsetKeyIsFirstOwnFrame(files, active, self);
  }

  /**
   * The attribution never names this plugin's own file, as long as that file
   * occurs at most once in the trace.
   */
  lemma NeverAttributesItself(site: CallSite, self: string)
    requires forall i, j :: 0 <= i < j < |site.trace| && site.trace[i] == self ==> site.trace[j] != self
    ensures Attribute(site, self) != Plugin(self)
  {
    UnsetKeyIsFirstOwnFrame(site.trace, site.activePlugins, self);
  }

  /**
   * The self-removal takes out one match only: a second frame in this
   * plugin's own file is attributed to this plugin.
   */
  lemma SecondOwnFrameIsAttributed(self: string, caller: string, stylesheetDir: string, templateDir: string, active: seq<string>)
    requires self in active
    requires !StartsWith(caller, stylesheetDir) && !StartsWith(caller, templateDir)
    ensures Attribute(CallSite([self, caller, self], stylesheetDir, templateDir, active), self) == Plugin(self)
  {
    var files := [self, caller, self];
    assert files[0] == self && self in files;
    UnsetKeyIsFirstOwnFrame(files, active, self);
    assert UnsetKey(files, active, self) == 0;
    assert files[2] in active;
  }

  /**
   * A trace holding only this plugin's own frame is attributed to nobody,
   * provided neither theme directory is empty.
   */
  lemma OwnFrameAloneIsNobody(self: string, stylesheetDir: string, templateDir: string, active: seq<string>)
    requires stylesheetDir != [] && templateDir != []
    ensures Attribute(CallSite([self], stylesheetDir, templateDir, active), self) == Nobody
  {
    var files := [self];
    UnsetKeyIsFirstOwnFrame(files, active, self);
  }

  /**
   * A plugin that calls the polyfill directly from an active plugin file
   * that starts with neither theme directory string is the one attributed.
   */
  lemma DirectPluginCallerIsAttributed(self: string, file: string, stylesheetDir: string, templateDir: string, active: seq<string>)
    requires file in active && file != self
    requires !StartsWith(file, stylesheetDir) && !StartsWith(file, templateDir)
    ensures Attribute(CallSite([self, file], stylesheetDir, templateDir, active), self) == Plugin(file)
  {
    var files := [self, file];
    UnsetKeyIsFirstOwnFrame(files, active, self);
    assert UnsetKey(files, active, self) == 0;
    assert files[1] in active;
  }
}
