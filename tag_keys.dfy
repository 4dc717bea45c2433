/**
 * The tag keys the processors read (lib/processors/base.py): every key is the
 * processor's tag prefix, a colon and a fixed name; the local time of one
 * scheduled action adds a colon and the action's name.
 */
module TagKeys {

  /** The base processor: it only remembers the tag prefix it was built with. */
  datatype ResourceProcessor = ResourceProcessor(tagPrefix: string) {
    /** `_get_enabled_tag`. */
    function EnabledTag(): string { tagPrefix + ":" + "enabled" }
    /** `_get_local_timezone_tag`. */
    function LocalTimezoneTag(): string { tagPrefix + ":" + "local-timezone" }
    /** `_get_local_time_tag`. */
    function LocalTimeTag(): string { tagPrefix + ":" + "local-time" }
  }

  /** The keys an Auto Scaling group processor looks up. */
  datatype AsgTagKeys = AsgTagKeys(enabled: string, timezone: string, localTimePrefix: string) {
    /** The key holding the local time of the scheduled action `name`. */
    function ActionTimeKey(name: string): string { localTimePrefix + name }
  }

  /** The keys of the prefixed processor: the local-time key, a colon, then the action name. */
  function KeysFor(p: ResourceProcessor): AsgTagKeys {
    AsgTagKeys(p.EnabledTag(), p.LocalTimezoneTag(), p.LocalTimeTag() + ":")
  }

  /** The prefix both older processors hard-code. */
  const DefaultPrefix: string := "scheduled-event-adjuster"

  // ----- Lemmas -----

  /**
   * All three keys are the prefix, a colon and their own name, and they are
   * pairwise distinct.
   */
  lemma KeysArePrefixedAndDistinct(p: ResourceProcessor)
    ensures var n := |p.tagPrefix| + 1;
      && |p.EnabledTag()| > n && p.EnabledTag()[..n] == p.tagPrefix + ":"
      && |p.LocalTimezoneTag()| > n && p.LocalTimezoneTag()[..n] == p.tagPrefix + ":"
      && |p.LocalTimeTag()| > n && p.LocalTimeTag()[..n] == p.tagPrefix + ":"
    ensures var n := |p.tagPrefix| + 1;
      && p.EnabledTag()[n..] == "enabled"
      && p.LocalTimezoneTag()[n..] == "local-timezone"
      && p.LocalTimeTag()[n..] == "local-time"
    ensures p.EnabledTag() != p.LocalTimezoneTag()
    ensures p.EnabledTag() != p.LocalTimeTag()
    ensures p.LocalTimezoneTag() != p.LocalTimeTag()
  {
    var n := |p.tagPrefix| + 1;
    assert p.EnabledTag()[n] == 'e';
    assert p.LocalTimezoneTag()[n] == 'l' && p.LocalTimeTag()[n] == 'l';
    assert |p.LocalTimezoneTag()| != |p.LocalTimeTag()|;
  }

  /** Two processors that share one base key of the same kind have the same prefix. */
  lemma PrefixDeterminesKeys(p: ResourceProcessor, q: ResourceProcessor)
    requires p.EnabledTag() == q.EnabledTag() || p.LocalTimezoneTag() == q.LocalTimezoneTag()
          || p.LocalTimeTag() == q.LocalTimeTag()
    ensures p == q
  {
    var a, b := p.tagPrefix, q.tagPrefix;
    assert p.EnabledTag() == q.EnabledTag() ==> a == b by {
      if p.EnabledTag() == q.EnabledTag() {
        assert p.EnabledTag() == a + ":enabled" && q.EnabledTag() == b + ":enabled";
        SuffixCancels(a, b, ":enabled");
      }
    }
    assert p.LocalTimezoneTag() == q.LocalTimezoneTag() ==> a == b by {
      if p.LocalTimezoneTag() == q.LocalTimezoneTag() {
        assert p.LocalTimezoneTag() == a + ":local-timezone" && q.LocalTimezoneTag() == b + ":local-timezone";
        SuffixCancels(a, b, ":local-timezone");
      }
    }
    assert p.LocalTimeTag() == q.LocalTimeTag() ==> a == b by {
      if p.LocalTimeTag() == q.LocalTimeTag() {
        assert p.LocalTimeTag() == a + ":local-time" && q.LocalTimeTag() == b + ":local-time";
        SuffixCancels(a, b, ":local-time");
      }
    }
  }

  /**
   * A base key of one kind never equals a base key of another kind, whatever
   * the two prefixes: the names end differently.
   */
  lemma CrossKindKeysDiffer(p: ResourceProcessor, q: ResourceProcessor)
    ensures p.EnabledTag() != q.LocalTimezoneTag()
    ensures p.EnabledTag() != q.LocalTimeTag()
    ensures p.LocalTimezoneTag() != q.LocalTimeTag()
  {
    var e, z, t := p.EnabledTag(), q.LocalTimezoneTag(), q.LocalTimeTag();
    var z' := p.LocalTimezoneTag();
    assert e[|e| - 1] == 'd' && z[|z| - 1] == 'e' && t[|t| - 1] == 'e';
    assert z'[|z'| - 2] == 'n' && t[|t| - 2] == 'm';
  }

  /**
   * The local-time key of an action can coincide with a base key of a
   * processor with another prefix: prefix `x` and action `foo:enabled` give
   * the enabled key of prefix `x:local-time:foo`.
   */
  lemma ActionKeyMeetsOtherPrefix()
    ensures KeysFor(ResourceProcessor("x")).ActionTimeKey("foo:enabled")
         == ResourceProcessor("x:local-time:foo").EnabledTag()
  {
  }

  lemma SuffixCancels(a: string, b: string, suffix: string)
    requires a + suffix == b + suffix
    ensures a == b
  {
    assert |a| == |b|;
    assert a == (a + suffix)[..|a|] == (b + suffix)[..|b|] == b;
  }

  /**
   * The local-time key of an action never equals the enabled or the timezone
   * key, and different actions have different local-time keys.
   */
  lemma ActionTimeKeysAreSeparate(p: ResourceProcessor, name: string, other: string)
    ensures KeysFor(p).ActionTimeKey(name) != KeysFor(p).enabled
    ensures KeysFor(p).ActionTimeKey(name) != KeysFor(p).timezone
    ensures KeysFor(p).ActionTimeKey(name) == KeysFor(p).ActionTimeKey(other) ==> name == other
  {
    var n := |p.tagPrefix|;
    var k := KeysFor(p).ActionTimeKey(name);
    assert k == p.tagPrefix + ":local-time:" + name;
    assert k[n + 1] == 'l' && KeysFor(p).enabled[n + 1] == 'e';
    if |k| == |KeysFor(p).timezone| {
      assert k[n + 11] == ':' && KeysFor(p).timezone[n + 11] == 'z';
    }
    var k' := KeysFor(p).ActionTimeKey(other);
    if k == k' {
      var m := |KeysFor(p).localTimePrefix|;
      assert name == k[m..] == k'[m..] == other;
    }
  }
}
