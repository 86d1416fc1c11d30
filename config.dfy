/** The optional-value datatype used for optional sub-keys of a preset entry. */
module Wrappers {
  datatype Option<+T> = None | Some(value: T)
}

/**
 * The preset-and-editability layer shared by every module configuration
 * object: the base class Config and its nested builder Config::ApplyPresets
 * (src/libcalamares/modulesystem/Config.h).
 *
 * The file has two layers. The value layer describes what one `apply` and a
 * chain of `apply` calls do to the observable state of a Config (its named
 * properties and its editability store), together with an independent,
 * declarative description of the result and the lemmas that connect the two.
 * The object layer has the two classes whose methods update that state in
 * place and are proved against the value layer.
 */
module ModuleSystem {
  import opened Wrappers

  /** The top-level key of a configuration map that holds the presets. */
  const PresetsKey := "presets"
  /** The sub-key of a structured preset entry holding the preset value. */
  const ValueKey := "value"
  /** The sub-key of a structured preset entry holding the editable flag. */
  const EditableKey := "editable"

  /**
   * A configuration value (a QVariant), reduced to what preset handling
   * distinguishes: a nested map, a boolean, and any other scalar, which is
   * kept opaque as its textual form.
   */
  datatype Variant =
    | Scalar(text: string)
    | Flag(flag: bool)
    | Tree(entries: map<string, Variant>)

  /** A module's whole configuration map (a QVariantMap). */
  type ConfigurationMap = map<string, Variant>

  /**
   * One entry of the presets section: either a bare value, or a structured
   * entry with a value and an optional editable flag.
   */
  datatype PresetEntry =
    | Bare(value: Variant)
    | Entry(value: Variant, editable: Option<bool>)

  /**
   * The observable state of a Config: its named properties (the keys are the
   * property names the object knows) and its editability store.
   */
  datatype Snapshot = Snapshot(properties: map<string, Variant>, editable: map<string, bool>)

  /** One preset accepted by a builder: the field and the editability recorded for it. */
  datatype Registration = Registration(field: string, editable: bool)

  // ---------------------------------------------------------------------------
  // Reading the presets section

  /**
   * The presets section of a configuration map: the map under "presets", or
   * no presets at all when that key is missing or does not hold a map.
   */
  function PresetsSection(configurationMap: ConfigurationMap): (presets: map<string, Variant>)
    ensures PresetsKey !in configurationMap ==> presets == map[]
    ensures PresetsKey in configurationMap && !configurationMap[PresetsKey].Tree? ==> presets == map[]
  {
    if PresetsKey in configurationMap && configurationMap[PresetsKey].Tree?
    then configurationMap[PresetsKey].entries
    else map[]
  }

  /** Reads one entry of the presets section as a bare or a structured entry. */
  function Decode(v: Variant): PresetEntry
  {
    match v
    case Tree(m) =>
      if ValueKey in m then
        Entry(m[ValueKey], if EditableKey in m && m[EditableKey].Flag? then Some(m[EditableKey].flag) else None)
      else
        Bare(v)
    case _ => Bare(v)
  }

  /** The editability a preset entry asks for: editable unless it says otherwise. */
  function EditableFlag(e: PresetEntry): bool
  {
    match e
    case Bare(_) => true
    case Entry(_, Some(flag)) => flag
    case Entry(_, None) => true
  }

  /** A preset that locks its field: a structured entry whose editable flag is false. */
  predicate IsLockedEntry(v: Variant)
  {
    v.Tree? && ValueKey in v.entries && EditableKey in v.entries && v.entries[EditableKey] == Flag(false)
  }

  /** The answer isEditable gives from an editability store: true unless the store says false. */
  function Editable(store: map<string, bool>, fieldName: string): bool
  {
    if fieldName in store then store[fieldName] else true
  }

  // ---------------------------------------------------------------------------
  // What `apply` does, as a function on the observable state

  /** `apply(fieldName)` takes effect: the field is a preset and a property of the object. */
  predicate Accepts(presets: map<string, Variant>, s: Snapshot, fieldName: string)
  {
    fieldName in presets && fieldName in s.properties
  }

  /** The observable state after one `apply(fieldName)` against the given presets section. */
  function Step(presets: map<string, Variant>, s: Snapshot, fieldName: string): Snapshot
  {
    if Accepts(presets, s, fieldName) then
      var e := Decode(presets[fieldName]);
      Snapshot(s.properties[fieldName := e.value], s.editable[fieldName := EditableFlag(e)])
    else
      s
  }

  /** The observable state after the chain `apply(fields[0]).apply(fields[1])...`. */
  function Run(presets: map<string, Variant>, s: Snapshot, fields: seq<string>): Snapshot
    decreases |fields|
  {
    if fields == [] then s
    else Step(presets, Run(presets, s, fields[..|fields| - 1]), fields[|fields| - 1])
  }

  /** The presets that take effect when `fields` are applied to state `s`, decoded. */
  function Taken(presets: map<string, Variant>, s: Snapshot, fields: set<string>): map<string, PresetEntry>
  {
    map k | k in fields && Accepts(presets, s, k) :: Decode(presets[k])
  }

  /**
   * Independent description of the outcome of applying a set of fields: the
   * old properties and store, overridden by the value and the editability of
   * every preset that takes effect.
   */
  function Overlay(presets: map<string, Variant>, s: Snapshot, fields: set<string>): Snapshot
  {
    var taken := Taken(presets, s, fields);
    Snapshot(s.properties + ValuesOf(taken), s.editable + FlagsOf(taken))
  }

  /** The value each taken preset writes. */
  function ValuesOf(taken: map<string, PresetEntry>): map<string, Variant>
  {
    map k | k in taken :: taken[k].value
  }

  /** The editability each taken preset records. */
  function FlagsOf(taken: map<string, PresetEntry>): map<string, bool>
  {
    map k | k in taken :: EditableFlag(taken[k])
  }

  // ---------------------------------------------------------------------------
  // The editability store as the record of accepted presets

  /** The editability store that a sequence of accepted presets leaves behind. */
  function StoreOf(accepted: seq<Registration>): map<string, bool>
    decreases |accepted|
  {
    if accepted == [] then map[]
    else
      var last := accepted[|accepted| - 1];
      StoreOf(accepted[..|accepted| - 1])[last.field := last.editable]
  }

  /** The editability recorded by the most recent accepted preset for `fieldName`, if any. */
  function LastFlag(accepted: seq<Registration>, fieldName: string): Option<bool>
    decreases |accepted|
  {
    if accepted == [] then None
    else if accepted[|accepted| - 1].field == fieldName then Some(accepted[|accepted| - 1].editable)
    else LastFlag(accepted[..|accepted| - 1], fieldName)
  }

  // ---------------------------------------------------------------------------
  // Lemmas

  /** Only the "presets" key of a configuration map matters for preset application. */
  lemma PresetsSectionReadsOnlyPresetsKey(m1: ConfigurationMap, m2: ConfigurationMap)
    requires PresetsKey in m1 <==> PresetsKey in m2
    requires PresetsKey in m1 ==> m1[PresetsKey] == m2[PresetsKey]
    ensures PresetsSection(m1) == PresetsSection(m2)
  {
  }

  /** An entry asks for "not editable" exactly when it is a structured entry with editable set to false. */
  lemma LockedEntryIff(v: Variant)
    ensures !EditableFlag(Decode(v)) <==> IsLockedEntry(v)
  {
  }

  /** The store built from the accepted presets holds, per field, the latest editability accepted for it. */
  lemma {:induction false} StoreOfIsLastFlag(accepted: seq<Registration>, fieldName: string)
    ensures fieldName in StoreOf(accepted) <==> LastFlag(accepted, fieldName).Some?
    ensures fieldName in StoreOf(accepted) ==> StoreOf(accepted)[fieldName] == LastFlag(accepted, fieldName).value
    ensures !Editable(StoreOf(accepted), fieldName) <==> LastFlag(accepted, fieldName) == Some(false)
    decreases |accepted|
  {
    if accepted != [] {
      StoreOfIsLastFlag(accepted[..|accepted| - 1], fieldName);
    }
  }

  /**
   * One `apply` never adds or removes a property, changes nothing at all when
   * the field is not a preset or not a property, and leaves every other
   * field's value and store entry as they were.
   */
  lemma StepFrame(presets: map<string, Variant>, s: Snapshot, fieldName: string, other: string)
    requires other != fieldName
    ensures Step(presets, s, fieldName).properties.Keys == s.properties.Keys
    ensures !Accepts(presets, s, fieldName) ==> Step(presets, s, fieldName) == s
    ensures other in s.properties ==> Step(presets, s, fieldName).properties[other] == s.properties[other]
    ensures other in Step(presets, s, fieldName).editable <==> other in s.editable
    ensures other in s.editable ==> Step(presets, s, fieldName).editable[other] == s.editable[other]
  {
  }

  /** Applying no field at all is the identity overlay. */
  lemma OverlayOfNothing(presets: map<string, Variant>, s: Snapshot)
    ensures Overlay(presets, s, {}) == s
  {
    assert Taken(presets, s, {}) == map[];
    var o := Overlay(presets, s, {});
    assert o.properties == s.properties;
    assert o.editable == s.editable;
  }

  /** Overriding a map and then updating one key is overriding with the updated map. */
  lemma OverrideUpdate<V>(base: map<string, V>, over: map<string, V>, k: string, v: V)
    ensures (base + over)[k := v] == base + over[k := v]
  {
  }

  /** Overriding twice with the same map is overriding once. */
  lemma OverrideTwice<V>(base: map<string, V>, over: map<string, V>)
    ensures base + over + over == base + over
  {
  }

  /** Taking one more preset updates the written values and recorded flags at that field. */
  lemma TakenUpdate(taken: map<string, PresetEntry>, fieldName: string, e: PresetEntry)
    ensures ValuesOf(taken[fieldName := e]) == ValuesOf(taken)[fieldName := e.value]
    ensures FlagsOf(taken[fieldName := e]) == FlagsOf(taken)[fieldName := EditableFlag(e)]
  {
    assert ValuesOf(taken[fieldName := e]).Keys == ValuesOf(taken)[fieldName := e.value].Keys;
    assert FlagsOf(taken[fieldName := e]).Keys == FlagsOf(taken)[fieldName := EditableFlag(e)].Keys;
  }

  /** One more `apply` on top of an overlay is the overlay with that field added. */
  lemma StepOverlay(presets: map<string, Variant>, s: Snapshot, fields: set<string>, fieldName: string)
    ensures Step(presets, Overlay(presets, s, fields), fieldName) == Overlay(presets, s, fields + {fieldName})
  {
    var taken := Taken(presets, s, fields);
    assert Overlay(presets, s, fields).properties.Keys == s.properties.Keys;
    if Accepts(presets, s, fieldName) {
      var e := Decode(presets[fieldName]);
      assert Taken(presets, s, fields + {fieldName}) == taken[fieldName := e];
      TakenUpdate(taken, fieldName, e);
      OverrideUpdate(s.properties, ValuesOf(taken), fieldName, e.value);
      OverrideUpdate(s.editable, FlagsOf(taken), fieldName, EditableFlag(e));
    } else {
      assert Taken(presets, s, fields + {fieldName}) == taken;
    }
  }

  /** A chain of `apply` calls produces exactly the declarative overlay of the fields applied. */
  lemma {:induction false} RunIsOverlay(presets: map<string, Variant>, s: Snapshot, fields: seq<string>)
    ensures Run(presets, s, fields) == Overlay(presets, s, set f | f in fields)
    decreases |fields|
  {
    if fields == [] {
      assert (set f | f in fields) == {};
      OverlayOfNothing(presets, s);
    } else {
      var init, last := fields[..|fields| - 1], fields[|fields| - 1];
      RunIsOverlay(presets, s, init);
      StepOverlay(presets, s, (set f | f in init), last);
      assert (set f | f in fields) == (set f | f in init) + {last} by {
        assert fields == init + [last];
      }
    }
  }

  /** Overlaying the same fields again changes nothing. */
  lemma OverlayIdempotent(presets: map<string, Variant>, s: Snapshot, fields: set<string>)
    ensures Overlay(presets, Overlay(presets, s, fields), fields) == Overlay(presets, s, fields)
  {
    var o := Overlay(presets, s, fields);
    var taken := Taken(presets, s, fields);
    assert o.properties.Keys == s.properties.Keys;
    assert Taken(presets, o, fields) == taken;
    OverrideTwice(s.properties, ValuesOf(taken));
    OverrideTwice(s.editable, FlagsOf(taken));
  }

  /**
   * Two successive builders applying the same fields with the same presets
   * leave the same properties and editability store as one builder does.
   */
  lemma RunIdempotent(presets: map<string, Variant>, s: Snapshot, fields: seq<string>)
    ensures Run(presets, Run(presets, s, fields), fields) == Run(presets, s, fields)
  {
    RunIsOverlay(presets, s, fields);
    RunIsOverlay(presets, Run(presets, s, fields), fields);
    OverlayIdempotent(presets, s, (set f | f in fields));
  }

  /**
   * What a chain of `apply` calls does to one field: a field that was applied,
   * is a preset and is a property of the object takes the preset's value and
   * editability; every other field keeps its value and its store entry (or
   * its absence from the store).
   */
  lemma RunFieldEffect(presets: map<string, Variant>, s: Snapshot, fields: seq<string>, fieldName: string)
    ensures Run(presets, s, fields).properties.Keys == s.properties.Keys
    ensures var t := Run(presets, s, fields);
      if fieldName in fields && Accepts(presets, s, fieldName) then
        && t.properties[fieldName] == Decode(presets[fieldName]).value
        && fieldName in t.editable
        && t.editable[fieldName] == EditableFlag(Decode(presets[fieldName]))
      else
        && (fieldName in s.properties ==> t.properties[fieldName] == s.properties[fieldName])
        && (fieldName in t.editable <==> fieldName in s.editable)
        && (fieldName in s.editable ==> t.editable[fieldName] == s.editable[fieldName])
  {
    RunIsOverlay(presets, s, fields);
  }

  /**
   * isEditable after a builder has run on a Config with no presets yet:
   * false exactly when the field was applied, is a property of the object and
   * its preset is a structured entry with editable set to false; true in every
   * other case, including fields never applied.
   */
  lemma EditableAfterPresets(configurationMap: ConfigurationMap, properties: map<string, Variant>, fields: seq<string>, fieldName: string)
    ensures var presets := PresetsSection(configurationMap);
      !Editable(Run(presets, Snapshot(properties, map[]), fields).editable, fieldName)
      <==> fieldName in fields && fieldName in properties && fieldName in presets && IsLockedEntry(presets[fieldName])
  {
    var presets := PresetsSection(configurationMap);
    RunFieldEffect(presets, Snapshot(properties, map[]), fields, fieldName);
    if fieldName in presets {
      LockedEntryIff(presets[fieldName]);
    }
  }

  // ---------------------------------------------------------------------------
  // The objects

  /**
   * Base class for module configuration objects. `properties` stands for the
   * object's named (QObject) properties, `editable` for the private
   * editability store behind `d`, and `unlocked` for the guard flag
   * `m_unlocked`. The ghost `accepted` is the record of the presets accepted
   * so far, of which the store is the summary.
   */
  class Config {
    var properties: map<string, Variant>
    var editable: map<string, bool>
    var unlocked: bool
    ghost var accepted: seq<Registration>

    ghost predicate Valid()
      reads this
    {
      editable == StoreOf(accepted)
    }

    /** A new configuration object: no presets recorded, guard locked. */
    constructor (properties: map<string, Variant>)
      ensures Valid()
      ensures this.properties == properties && editable == map[] && accepted == []
      ensures !unlocked
    {
      this.properties := properties;
      editable := map[];
      accepted := [];
      unlocked := false;
    }

    function State(): Snapshot
      reads this
    {
      Snapshot(properties, editable)
    }

    /**
     * Whether a field may still be edited: false exactly when the latest
     * preset accepted for it set it not-editable, true otherwise, including
     * for a field no preset was ever accepted for.
     */
    function IsEditable(fieldName: string): (r: bool)
      reads this
      requires Valid()
      ensures !r <==> LastFlag(accepted, fieldName) == Some(false)
      ensures LastFlag(accepted, fieldName) == None ==> r
    {
      StoreOfIsLastFlag(accepted, fieldName);
      Editable(editable, fieldName)
    }

    /**
     * The named-property write: succeeds and updates the property when the
     * object has a property of that name, fails and changes nothing otherwise.
     */
    method SetProperty(name: string, value: Variant) returns (ok: bool)
      modifies this`properties
      ensures ok <==> name in old(properties)
      ensures properties == if ok then old(properties)[name := value] else old(properties)
    {
      ok := name in properties;
      if ok {
        properties := properties[name := value];
      }
    }
  }

  /**
   * The scoped preset builder. It is bound to one Config (`config`, the
   * reference `m_c`) and one copy of a configuration map (`configuration`,
   * `m_map`) for its whole life; `bogus` is `m_bogus`. The ghost `live` is
   * false once the destructor (`Finish`) has run, and `start` is the number
   * of presets the Config had accepted when the builder was made.
   */
  class ApplyPresets {
    const config: Config
    const configuration: ConfigurationMap
    var bogus: bool
    ghost var live: bool
    ghost const start: nat

    ghost predicate Valid()
      reads this, config
    {
      live ==>
        && config.unlocked
        && config.Valid()
        && start <= |config.accepted|
        && (bogus <==> |config.accepted| == start)
    }

    /** The presets section of the bound configuration map. */
    function Presets(): map<string, Variant>
    {
      PresetsSection(configuration)
    }

    /** Binds the builder and unlocks the Config; nothing is accepted yet. */
    constructor (c: Config, configurationMap: ConfigurationMap)
      requires c.Valid() && !c.unlocked
      modifies c
      ensures Valid() && live
      ensures config == c && configuration == configurationMap
      ensures bogus
      ensures c.unlocked
      ensures c.properties == old(c.properties) && c.editable == old(c.editable) && c.accepted == old(c.accepted)
    {
      config := c;
      configuration := configurationMap;
      bogus := true;
      live := true;
      start := |c.accepted|;
      new;
      c.unlocked := true;
    }

    /**
     * Applies the preset for `fieldName`, if the presets section has one:
     * writes its value onto the named property and, when that write succeeds,
     * records the field's editability. Returns this same builder so that
     * calls can be chained.
     */
    method Apply(fieldName: string) returns (self: ApplyPresets)
      requires Valid() && live
      modifies this`bogus, config
      ensures self == this
      ensures Valid() && live
      ensures config.State() == Step(Presets(), old(config.State()), fieldName)
      ensures config.accepted == old(config.accepted) +
        if Accepts(Presets(), old(config.State()), fieldName)
        then [Registration(fieldName, EditableFlag(Decode(Presets()[fieldName])))]
        else []
      ensures bogus == (old(bogus) && !Accepts(Presets(), old(config.State()), fieldName))
    {
      var presets := PresetsSection(configuration);
      ghost var s0 := config.State();
      if fieldName in presets {
        var entry := Decode(presets[fieldName]);
        var written := config.SetProperty(fieldName, entry.value);
        if written {
          var flag := EditableFlag(entry);
          ghost var before := config.accepted;
          config.editable := config.editable[fieldName := flag];
          config.accepted := config.accepted + [Registration(fieldName, flag)];
          assert config.accepted[..|config.accepted| - 1] == before;
          bogus := false;
          assert Accepts(presets, s0, fieldName);
          assert config.State() == Snapshot(s0.properties[fieldName := entry.value], s0.editable[fieldName := flag]);
        } else {
          assert !Accepts(presets, s0, fieldName);
        }
      } else {
        assert !Accepts(presets, s0, fieldName);
      }
      self := this;
    }

    /**
     * The destructor, run once at the end of the builder's life: always leaves
     * the bound Config locked, whatever `apply` calls came before, and changes
     * nothing else.
     */
    method Finish()
      requires live
      modifies this`live, config`unlocked
      ensures !live && !config.unlocked
      ensures Valid()
      ensures config.State() == old(config.State()) && config.accepted == old(config.accepted)
    {
      config.unlocked := false;
      live := false;
    }
  }

  /**
   * The builder's whole scope as a module uses it: `apply` each field in
   * turn on a live builder, then end the builder. The Config ends locked and
   * its state is the chain of those `apply` calls.
   */
  method ApplyFields(b: ApplyPresets, fields: seq<string>)
    requires b.Valid() && b.live
    modifies b, b.config
    ensures !b.live && !b.config.unlocked && b.config.Valid()
    ensures b.config.State() == Run(b.Presets(), old(b.config.State()), fields)
  {
    ghost var s0 := b.config.State();
    var i := 0;
    while i < |fields|
      invariant 0 <= i <= |fields|
      invariant b.Valid() && b.live
      invariant b.config.State() == Run(b.Presets(), s0, fields[..i])
    {
      var same := b.Apply(fields[i]);
      assert fields[..i + 1][..i] == fields[..i];
      i := i + 1;
    }
    assert fields[..|fields|] == fields;
    b.Finish();
  }

  /**
   * A module configuration with the properties hostname, locale and timezone,
   * whose presets lock hostname to "node1" and set locale to "en_US", applies
   * hostname and then locale: both take the preset values, only hostname is
   * locked, and timezone keeps its value and stays editable.
   */
  lemma HostnameLocaleExample()
    ensures var hostname := Tree(map[ValueKey := Scalar("node1"), EditableKey := Flag(false)]);
      var configurationMap := map[PresetsKey := Tree(map["hostname" := hostname, "locale" := Scalar("en_US")])];
      var initial := Snapshot(map["hostname" := Scalar(""), "locale" := Scalar("C"), "timezone" := Scalar("UTC")], map[]);
      var t := Run(PresetsSection(configurationMap), initial, ["hostname", "locale"]);
      && t.properties == map["hostname" := Scalar("node1"), "locale" := Scalar("en_US"), "timezone" := Scalar("UTC")]
      && !Editable(t.editable, "hostname") && Editable(t.editable, "locale") && Editable(t.editable, "timezone")
  {
    var hostname := Tree(map[ValueKey := Scalar("node1"), EditableKey := Flag(false)]);
    var presets := map["hostname" := hostname, "locale" := Scalar("en_US")];
    var initial := Snapshot(map["hostname" := Scalar(""), "locale" := Scalar("C"), "timezone" := Scalar("UTC")], map[]);
    assert PresetsSection(map[PresetsKey := Tree(presets)]) == presets;
    assert Decode(hostname) == Entry(Scalar("node1"), Some(false));
    var fields := ["hostname", "locale"];
    assert fields[..1] == ["hostname"] && fields[..0] == [];
    assert Run(presets, initial, fields[..0]) == initial;
    var t1 := Snapshot(initial.properties["hostname" := Scalar("node1")], map["hostname" := false]);
    assert Run(presets, initial, fields[..1]) == Step(presets, initial, "hostname") == t1;
    assert Run(presets, initial, fields) == Step(presets, t1, "locale");
  }

  /**
   * The same example on the objects: a Config with the properties hostname,
   * locale and timezone runs one builder over hostname and locale; afterwards
   * it is locked, hostname is "node1" and not editable, locale is "en_US" and
   * editable, and timezone is untouched and editable.
   */
  method HostnameLocaleSession() returns (c: Config)
    ensures c.Valid() && !c.unlocked
    ensures c.properties == map["hostname" := Scalar("node1"), "locale" := Scalar("en_US"), "timezone" := Scalar("UTC")]
    ensures !c.IsEditable("hostname") && c.IsEditable("locale") && c.IsEditable("timezone")
  {
    c := new Config(map["hostname" := Scalar(""), "locale" := Scalar("C"), "timezone" := Scalar("UTC")]);
    var hostname := Tree(map[ValueKey := Scalar("node1"), EditableKey := Flag(false)]);
    var configurationMap := map[PresetsKey := Tree(map["hostname" := hostname, "locale" := Scalar("en_US")])];
    var builder := new ApplyPresets(c, configurationMap);
    ApplyFields(builder, ["hostname", "locale"]);
    HostnameLocaleExample();
  }
}
