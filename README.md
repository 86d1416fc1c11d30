# Presets and editability for Calamares module configurations

This project models, in Dafny, the preset layer that every Calamares module
configuration object shares (`Calamares::ModuleSystem::Config` and its nested
builder `Config::ApplyPresets`, declared in
`src/libcalamares/modulesystem/Config.h`).

A module's configuration map may carry a `"presets"` key. Under it, each field
name maps either to a bare value or to a structured entry with a `"value"` and
an optional `"editable"` flag. A module's `setConfigurationMap` creates an
`ApplyPresets` builder over itself and that map. The builder unlocks the
object's guard flag `m_unlocked`. The module then chains `apply(fieldName)`
calls. Each call writes the preset value onto the named property and records
the field's editability in the private store behind `d`. The builder's
destructor locks the guard again. Afterwards `isEditable(fieldName)` is false
only for a field whose preset was set not-editable.

`config.dfy` holds two modules:

- `Wrappers`: an `Option` datatype.
- `ModuleSystem`: the model, in two layers.
  - The value layer. `Variant` stands for a configuration value, `PresetEntry`
    for one preset and `Snapshot` for the observable state of a `Config`
    (its named properties and its editability store). `Step` is one `apply`
    and `Run` is a chain of them. `Overlay` is an independent, declarative
    description of what a chain of `apply` calls leaves behind. `StoreOf` and
    `LastFlag` describe the store as the record of accepted presets.
  - The object layer. The class `Config` has the fields `properties`,
    `editable` (the store behind `d`) and `unlocked` (`m_unlocked`), plus a
    ghost record `accepted` of the presets accepted so far. The class
    `ApplyPresets` has `config` (`m_c`), `configuration` (`m_map`) and
    `bogus` (`m_bogus`). `Apply` is `apply` and `Finish` is the destructor.
    `Apply`'s contract gives the new state as one `Step` of the old one.
    `Finish`'s contract locks the guard and keeps everything else as it was.
    `ApplyFields` runs a builder's whole scope and ties the result to `Run`.

The bodies of the `Config` constructor, of the
`ApplyPresets` constructor, of `apply` and of `isEditable` are in
`Config.cpp`, which is not part of this model. Their behaviour is taken from
the declarations and doc comments and kept as simple as those allow:

- A structured entry is a map that holds a `"value"` key. Any other value
  under a field name is a bare preset.
- The `"editable"` sub-key counts only when it holds a boolean. Otherwise the
  field is editable.
- `apply` records editability only when the property write succeeds. A write
  succeeds when the object has a property of that name.
- `m_bogus` starts true and is cleared by the first `apply` that takes effect.

## Model

| member | source | states |
|---|---|---|
| `ModuleSystem.PresetsSection` | src/libcalamares/modulesystem/Config.h:45-46 | a map with no `"presets"` key, or one that does not hold a map there, yields no presets |
| `ModuleSystem.PresetsSectionReadsOnlyPresetsKey` | src/libcalamares/modulesystem/Config.h:45-46 | two configuration maps that agree on `"presets"` yield the same presets: only that key is consulted |
| `ModuleSystem.LockedEntryIff` | src/libcalamares/modulesystem/Config.h:53-54 | a preset asks for "not editable" exactly when it is a structured entry whose editable flag is false |
| `ModuleSystem.StepFrame` | src/libcalamares/modulesystem/Config.h:62-68 | one `apply` never adds or removes a property, changes nothing when the field is not a preset or not a property, and leaves every other field's value and store entry as they were |
| `ModuleSystem.StoreOfIsLastFlag` | src/libcalamares/modulesystem/Config.h:51-57 | the store holds, per field, the latest editability accepted for it; its answer is false exactly when that latest flag is false, and fields never accepted have no entry |
| `ModuleSystem.OverlayOfNothing` | src/libcalamares/modulesystem/Config.h:62-68 | the declarative outcome of an empty chain of `apply` calls is the unchanged state |
| `ModuleSystem.StepOverlay` | src/libcalamares/modulesystem/Config.h:76 | one more chained `apply` adds exactly that field to the declarative outcome |
| `ModuleSystem.RunIsOverlay` | src/libcalamares/modulesystem/Config.h:62-68 | a chain of `apply` calls equals the declarative outcome: applied preset fields that are properties take the preset value and editability, everything else is unchanged |
| `ModuleSystem.OverlayIdempotent` | src/libcalamares/modulesystem/Config.h:62-68 | overlaying the same presets twice equals overlaying them once |
| `ModuleSystem.RunIdempotent` | src/libcalamares/modulesystem/Config.h:62-68 | two successive builders applying the same fields with the same presets leave the same properties and store as one builder |
| `ModuleSystem.RunFieldEffect` | src/libcalamares/modulesystem/Config.h:62-68 | after a chain, an applied, accepted field has the preset value and editability; any other field keeps its value and its store entry or absence |
| `ModuleSystem.EditableAfterPresets` | src/libcalamares/modulesystem/Config.h:51-58 | on a fresh object, `isEditable` is false exactly when the field was applied, is a property and its preset sets editable false; true otherwise, including fields never applied |
| `ModuleSystem.Config.constructor` | src/libcalamares/modulesystem/Config.h:84-87 | a new object has an empty store, has accepted no preset, and its guard is locked |
| `ModuleSystem.Config.IsEditable` | src/libcalamares/modulesystem/Config.h:51-58 | false exactly when the latest preset accepted for the field set it not-editable; true for a field with no accepted preset; reads only, so it adds no entry |
| `ModuleSystem.Config.SetProperty` | src/libcalamares/modulesystem/Config.h:62-68 | writing a named property succeeds exactly when the object has that property, and a failed write changes nothing |
| `ModuleSystem.ApplyPresets.constructor` | src/libcalamares/modulesystem/Config.h:73 | binds the builder to one object and one map copy, unlocks the guard, starts with nothing accepted (`bogus`), and leaves properties and store unchanged |
| `ModuleSystem.ApplyPresets.Apply` | src/libcalamares/modulesystem/Config.h:76-81 | returns this same builder; the new state is one `Step` under the bound map's presets; a registration is recorded only when the field is a preset and the write succeeds; `bogus` is cleared exactly then; the guard stays unlocked |
| `ModuleSystem.ApplyPresets.Finish` | src/libcalamares/modulesystem/Config.h:74 | the destructor requires only that the builder has not ended; it always leaves the bound object locked, after any number of `apply` calls, and changes nothing else |
| `ModuleSystem.ApplyFields` | src/libcalamares/modulesystem/Config.h:62-68 | a live builder that applies each field in turn and then ends leaves the object locked, with the state of the chain of those `apply` calls |
| `ModuleSystem.HostnameLocaleSession` | src/libcalamares/modulesystem/Config.h:51-68 | on the objects: after one builder applies a locked `hostname` preset and a bare `locale` preset, the object is locked, both values are set, `isEditable` is false only for `hostname`, and `timezone` is untouched and editable |
| `ModuleSystem.HostnameLocaleExample` | src/libcalamares/modulesystem/Config.h:62-68 | applying a locked `hostname` preset and then a bare `locale` preset sets both values, locks only `hostname`, and leaves `timezone` untouched and editable |

## Left out

- The Qt machinery is not modelled: the `QObject` base, the parent pointer, `Q_OBJECT`, slots, signals and `DLLEXPORT`.
- `setConfigurationMap` is pure virtual here and has no body. The module subclasses that implement it are not modelled.
- The destructor `~Config` is not modelled: the header gives it no behaviour beyond owning the private data behind `d`.
- Values are opaque. `QVariant` type conversion is not modelled, so an `"editable"` value that is not a boolean counts as absent.
- `Config.SetProperty`: models `QObject::setProperty` as a write that fails only for an unknown name. Type-mismatch failures are not modelled. Qt's dynamic properties are not modelled either: in the model, a write to an unknown name changes nothing.
- `Config.IsEditable`: the warning printed for an unknown field is not modelled. Only the returned value is.
- `ApplyPresets.Apply`: a field whose property write fails is skipped silently. The source's logging is not modelled.
- `ApplyPresets.constructor`: requires the object to be locked. So at most one builder is live per object, and nested builders are not modelled. The source does not prevent nesting; an inner destructor would relock early.
- `ApplyPresets.Finish`: the destructor is an explicit call that a client makes once. The compiler's automatic destructor call on every exit path, early returns and exceptions included, is not modelled.
- The i18n note (`Config.h:33`) has no code behind it.
