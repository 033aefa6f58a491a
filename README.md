# Typed configuration lookup of seismoBat (`ConfigFile.py`)

This project models the configuration layer of seismoBat's common code.
That layer holds three pieces:

- `ConfigObj`, the typed getters over a flat string-to-string mapping:
  `String`, `Int`, `UInt`, `Float`, `UFloat`, `Bool`, `IntRange`,
  `FloatRange`, and their error helpers.
- The domain accessor objects `OriginCfg` and `SynthCfg`. Each of their
  accessors is a fixed-key call into one getter.
- `readConf`, which flattens the sections of an INI file into one mapping.

Every getter is a function that returns an `Outcome`:

- `Ok(v)`: the getter returned `v`.
- `Abort(msg)`: `msg` was logged and the process was aborted.
- `TypeErr`: a Python `TypeError` was raised.
- `AssertErr`: a Python `AssertionError` was raised.

Which failure kind a getter produces depends on the object's file name.
`_error` builds its message as `fileName + ',' + key + ...`. With a file
name set, the message is logged and the process aborts. Without one, the
concatenation raises a `TypeError` first. Every `OriginCfg` and `SynthCfg`
is built without a file name. So their failures are always `TypeError`s.
This is what the `except TypeError` soft defaults of `SynthCfg` catch.
`rangeError2` is the exception: it goes straight to `_error0`, so it
aborts even without a file name.

Some primitives are used here but defined elsewhere:

- `Basic.isNumber` and `Basic.isInt`.
- Python's `int()`, `float()` and `str()` of a float.

They are passed to every getter as a record of total functions
(`Builtins.Builtins`). The predicate `Builtins.Sound` says what is known
about them on values that are already numbers. A getter's argument or
default is a `Value`: a string read from the file, an int or a float.

The source itself points two ways, and the model follows the code in both:

- `_error` hands every message to `_error0`, which logs it and then calls
  `Logfile.abort` (`src/common/ConfigFile.py:114-120`). So a failed lookup
  looks meant to end the process. The code raises `TypeError` instead
  whenever the file name is None. `UInt` and `UFloat` can also fail with
  an `AssertionError` on a negative default (`:57`, `:73`).
- The `SynthCfg` accessors with a literal fallback (`:195-244`) catch
  `TypeError` around a `Float` call. That reads as a default for a missing
  key. But `Float` raises `TypeError` for every failure here, so a stored
  non-numeric value is replaced by the fallback too.

Modules:

- `Outcomes`: `Option` and `Outcome`.
- `Builtins`: `Value`, `Builtins` and `Sound`.
- `PyText`: Python's `str()` of an int, with its inverse.
- `ConfigObject` and `ConfigFacts`: the getters, and the facts about them
  that need `Sound`.
- `DomainCfg` and `DomainFacts`: the accessor objects and their key tables.
- `ReadConf`: the flattening loop and its specification.

## Model

| member | source | states |
|---|---|---|
| `ConfigObject.ConfigObj.SetDict` | src/common/ConfigFile.py:24 | the mapping is replaced and the file name is kept |
| `ConfigObject.ConfigObj.Error0` | src/common/ConfigFile.py:114-117 | always an abort that carries exactly the given message |
| `ConfigObject.ConfigObj.Error` | src/common/ConfigFile.py:114-120 | `TypeError` exactly when there is no file name; otherwise an abort with the message `fileName,key: msg` |
| `ConfigObject.ConfigObj.KeyMissing` | src/common/ConfigFile.py:137-138 | always a failure; `TypeError` without a file name, else an abort with `fileName,key: Key missing` |
| `ConfigObject.ConfigObj.RangeError` | src/common/ConfigFile.py:140-141 | the `Value outside [a,b]` failure, `TypeError` exactly when there is no file name |
| `ConfigObject.ConfigObj.RangeError2` | src/common/ConfigFile.py:143-144 | always an abort with `Range error: key1 > key2`, whatever the file name |
| `ConfigObject.ConfigObj.CheckFloatNumber` | src/common/ConfigFile.py:122-126 | succeeds exactly for numbers, giving `float(v)`; otherwise the `Key is not a number` failure |
| `ConfigObject.ConfigObj.CheckIntNumber` | src/common/ConfigFile.py:128-135 | succeeds exactly for integer numbers, giving `int(v)`; the number test comes first, so a non-number reports `Key is not a number` |
| `ConfigObject.ConfigObj.String` | src/common/ConfigFile.py:28-43 | succeeds exactly when the key is present or a default is given; a present key gives the stored text, an absent one the default, and with no default the missing-key failure |
| `ConfigObject.ConfigObj.IntDefault` | src/common/ConfigFile.py:47-50 | no default gives nothing; a given default succeeds exactly when it is an integer number, giving `int(default)`; otherwise `Key is not a number` or, for a non-integer number, `Key is not integer number`, present key or not |
| `ConfigObject.ConfigObj.FloatDefault` | src/common/ConfigFile.py:63-66 | no default gives nothing; a given default succeeds exactly when it is a number, giving `float(default)`; otherwise the `Key is not a number` failure |
| `ConfigObject.ConfigObj.Int` | src/common/ConfigFile.py:45-53 | a malformed default fails with its own check's failure even when the key is present; with a good default, a present key gives exactly `_checkIntNumber` of the stored text: `int(text)`, `Key is not a number` or `Key is not integer number`; a failure is an abort exactly when there is a file name, else a `TypeError` |
| `ConfigFacts.IntAbsentKeyGivesDefault` | src/common/ConfigFile.py:45-53 | an absent key with an integer default gives `int(default)` |
| `ConfigObject.CheckDefaultNotNegative` | src/common/ConfigFile.py:57 | the assertion passes for no default or a non-negative number; a string default raises `TypeError`, a negative one `AssertionError` |
| `ConfigObject.ConfigObj.UInt` | src/common/ConfigFile.py:55-59 | with an admissible default it is exactly `Int`, whatever `maxVal` is; otherwise it fails as the assertion does |
| `ConfigFacts.UIntAcceptsOutOfRange` | src/common/ConfigFile.py:55-59 | a stored integer below 0 or above `maxVal` is returned by `UInt` and refused by `UIntChecked` |
| `ConfigObject.ConfigObj.UIntChecked` | src/common/ConfigFile.py:55-59 | every value it returns lies in `[0, maxVal]`; it succeeds exactly when `UInt` does with such a value |
| `ConfigObject.ConfigObj.Float` | src/common/ConfigFile.py:61-69 | a malformed default fails with its own check's failure even when the key is present; with a good default, a present key gives exactly `_checkFloatNumber` of the stored text: `float(text)` or `Key is not a number`; a failure is an abort exactly when there is a file name, else a `TypeError` |
| `ConfigFacts.FloatAbsentKeyGivesDefault` | src/common/ConfigFile.py:61-69 | an absent key with a numeric default gives `float(default)` |
| `ConfigObject.ConfigObj.UFloat` | src/common/ConfigFile.py:71-81 | every value it returns is `Float`'s value and lies in `[0, maxVal]`; it succeeds exactly then; a negative value gives the `< 0.0` failure and a value above `maxVal` the `> maxVal` failure; a string default raises `TypeError` and a negative one `AssertionError`; with an admissible default, a failure of `Float` passes through unchanged, and a failure is an abort exactly when there is a file name |
| `ConfigObject.ConfigObj.Bool` | src/common/ConfigFile.py:83-92 | succeeds exactly when `Int` gives 0 or 1, with false for 0 and true for 1; any other integer gives `Value outside [0,1]`; a failure of `Int` passes through unchanged; a failure is an abort exactly when there is a file name |
| `ConfigObject.ConfigObj.IntRange` | src/common/ConfigFile.py:94-102 | returns both `Int`s exactly when both succeed and the first is not above the second; a first above the second aborts with `Range error`; otherwise the first failing `Int` passes through unchanged; with a file name every failure is an abort |
| `ConfigObject.ConfigObj.FloatRange` | src/common/ConfigFile.py:104-112 | returns both `Float`s exactly when both succeed and the first is not above the second; a first above the second aborts with `Range error`; otherwise the first failing `Float` passes through unchanged; with a file name every failure is an abort |
| `DomainCfg.Accessor` | src/common/ConfigFile.py:185-187 | a domain accessor object has the given mapping and no file name |
| `DomainCfg.CatchTypeError` | src/common/ConfigFile.py:195-199 | a `TypeError` becomes the fallback value; a value or any other failure passes through |
| `DomainCfg.IndexedKey` | src/common/ConfigFile.py:366-409 | the key of segment `i` is the stem, then `_`, then exactly `str(i)` |
| `DomainCfg.OriginCfg.Angle` | src/common/ConfigFile.py:163-170 | `strike`/`dip`/`rake`: fails only with `TypeError`; a malformed default fails even when the key is present; a present key succeeds exactly when the default is good and the text is a number, giving `float(text)`; an absent key with a default succeeds exactly when the converted default passes the number check again, giving it back; an absent key without a default fails |
| `DomainFacts.AngleAbsentKeyGivesDefault` | src/common/ConfigFile.py:163-170 | without a stored angle, a numeric caller default is returned as `float(def1)` |
| `DomainCfg.OriginCfg.Place` | src/common/ConfigFile.py:172-179 | `lat`/`lon`/`depth` succeed exactly when the key holds a number, giving `float(text)`; otherwise `TypeError` |
| `DomainCfg.OriginCfg.Time` | src/common/ConfigFile.py:181-182 | the stored `time` text when present, otherwise `TypeError` |
| `DomainCfg.SynthCfg.Param` | src/common/ConfigFile.py:189-340 | the fixed-key float accessors give `float(text)` for a numeric stored value; otherwise the soft default (0 or 3500) where the source has one, else `TypeError` |
| `DomainCfg.SynthCfg.Anchor` | src/common/ConfigFile.py:246-250 | never fails: a numeric stored anchor as a float, anything else (absent or textual) as `'top'` |
| `DomainCfg.SynthCfg.AnchorIntended` | src/common/ConfigFile.py:246-250 | never fails: the stored anchor text, `'top'` when absent |
| `DomainFacts.AnchorDropsText` | src/common/ConfigFile.py:246-250 | a stored textual anchor other than `top` is returned as `'top'` by `anchor()` |
| `DomainCfg.SynthCfg.Text` | src/common/ConfigFile.py:342-364 | `time_0`, `store_superdirs`, `store`, `source`, `stf`: the stored text when present, otherwise `TypeError` |
| `DomainCfg.SynthCfg.UseSpecificStf` | src/common/ConfigFile.py:357-358 | succeeds exactly when the key holds the integer 0 or 1, giving true for 1 |
| `DomainCfg.SynthCfg.NSources` | src/common/ConfigFile.py:360-361 | succeeds exactly when the key holds an integer number, giving `int(text)` |
| `DomainCfg.SynthCfg.Segment` | src/common/ConfigFile.py:366-406 | `<name>_1(i)` succeeds exactly when `<stem>_<str(i)>` holds a number; there is no soft default |
| `DomainCfg.SynthCfg.Time1` | src/common/ConfigFile.py:408-409 | the stored text of `time_<str(i)>` when present, otherwise `TypeError` |
| `DomainFacts.StemInjective` | src/common/ConfigFile.py:366-406 | the per-segment accessors have pairwise different key stems |
| `DomainFacts.IndexedKeyInjective` | src/common/ConfigFile.py:366-406 | two different (accessor, segment) pairs never read the same key |
| `DomainFacts.SegmentZeroKey` | src/common/ConfigFile.py:366-406 | segment 0 of each per-segment accessor reads the key of the matching `_0` accessor |
| `DomainFacts.SegmentZeroAgrees` | src/common/ConfigFile.py:195-244 | segment 0 and the `_0` accessor agree whenever segment 0 gives a value; they differ only where the `_0` accessor replaces a `TypeError` by its soft default |
| `DomainFacts.TimeZeroAgrees` | src/common/ConfigFile.py:408-409 | `time_1(0)` and `time_0()` read the same key |
| `PyText.NatStr` | src/common/ConfigFile.py:366-367 | the decimal text of a natural number is non-empty, all digits, with no leading zero |
| `PyText.IntStr` | src/common/ConfigFile.py:366-367 | `str(i)` is non-empty, holds only digits and `-`, and starts with `-` exactly for negative `i` |
| `PyText.ParseNatStr` | src/common/ConfigFile.py:366-367 | reading back the decimal text of `n` gives `n` |
| `PyText.IntStrInjective` | src/common/ConfigFile.py:366-367 | different integers give different `str()` texts |
| `ReadConf.ReadConf` | src/common/ConfigFile.py:450-480 | a missing file gives None and no log; otherwise the mapping is the in-order fold of all items of all sections, and the log is the file header, one echo line per non-redacted item and a blank line, or nothing for a client |
| `ReadConf.FlattenKeys` | src/common/ConfigFile.py:467-469 | a name is in the result exactly when some item of some section carries it |
| `ReadConf.FlattenLastWins` | src/common/ConfigFile.py:467-469 | a name maps to the value of its last occurrence |
| `ReadConf.FlattenConcat` | src/common/ConfigFile.py:467-469 | reading two runs of items is reading the first and letting the second overwrite it |
| `ReadConf.LaterSectionOverwrites` | src/common/ConfigFile.py:467-469 | each section read overwrites the names it holds and keeps every other name |
| `ReadConf.EchoShowsOnlyPublicItems` | src/common/ConfigFile.py:471-473 | every echo line is `name = value` of an item whose name is neither `mail` nor `pwd` |
| `ReadConf.EchoShowsEveryPublicItem` | src/common/ConfigFile.py:471-473 | every item whose name is neither `mail` nor `pwd` is echoed |

## Left out

- `SetDict`: a `ConfigObj` is modelled as a value. `setDict` returns the updated value instead of updating the object in place, so aliasing is not captured. Nothing in this file calls it.
- `__getitem__` (a plain dictionary read that may raise `KeyError`), `getDict` and `getFileName` are the fields of the datatype and are not modelled separately. `Str` is the same operation as `String` and is modelled by it.
- The constructor default `dict=None` is not modelled; the mapping is always a map.
- The debug `print` in `String` is left out. `_debug` is set to False and never changed.
- `Basic.isNumber`, `Basic.isInt`, `int()`, `float()` and `str()` of a float are abstract functions. Only what `Sound` says is known about them. Floats are mathematical reals: rounding, infinities and NaN are not modelled.
- `UFloat`: `maxVal` is a real, and its message text is built with `str()` of a float even when the caller passes an int.
- `UInt` and `UFloat` assume Python runs with assertions enabled. A string default is compared as Python 3 does, by raising `TypeError`.
- `Logfile.error` and `Logfile.abort` are not modelled beyond the `Abort` outcome. The model assumes `abort` ends the process.
- `FilterCfg` and `filterName` are left out: `filterName` calls a method that does not exist.
- `GlobalConfigObj`, `readGlobalConf` and `GlobCfg` are left out. They hold a process-wide singleton, join paths with `'..'` and read files.
- `checkKeys` is left out. Its outcome depends on `Basic.check*`, on whether directories exist under `Globals.EventDir()`, and on the return value of `Logfile.error`. None of these is part of this model.
- The constant-string accessors `velocites`, `slips` and `ellipse_*` return literals and read no key.
- `stf` is defined twice with the same body; it is modelled once.
- `readConf`: the INI parser is not part of this model. Its output (sections in order, items in order) is an input, and so are the file's existence and `Globals.isClient`. The `Logfile.setVisible` and `Logfile.setErrorLog` toggles are left out.
- The per-segment accessors take an `int` index. Other Python values formatted with `%s` are not modelled.

## Findings

Nothing in this file calls `anchor` or `UInt`, so no other part of the model uses the corrected members.

| source | as written | input that shows it | evidently intended | confidence | as-written member | corrected member |
|---|---|---|---|---|---|---|
| src/common/ConfigFile.py:246-250 | `anchor()` reads the key with `Float`. A textual value raises `TypeError`, and the handler returns `'top'` | `anchor = bottom` gives `'top'` | return the stored anchor text, and `'top'` only when the key is absent | medium, not executed | `DomainFacts.AnchorDropsText` | `DomainCfg.SynthCfg.AnchorIntended` |
| src/common/ConfigFile.py:55-59 | `UInt` takes `maxVal` but never uses it, and never checks the sign of the resolved value | stored `-3`, or `20` with `maxVal` 10, is returned unchanged | refuse values outside `[0, maxVal]`, as `UFloat` does | medium, not executed | `ConfigFacts.UIntAcceptsOutOfRange` | `ConfigObject.ConfigObj.UIntChecked` |
