# Template humidifier, modelled in Dafny

This project models the `TemplateHumidifier` entity of the `humidifier_template`
custom component for Home Assistant. The entity is a humidifier with five
attributes:
- the on/off state;
- the target humidity;
- the current humidity;
- the mode;
- the action.

Each attribute is computed by rendering a user-supplied template. The four
controls are turn on, turn off, set humidity and set mode. Each one either runs
a user-supplied script or writes the requested value optimistically.

Files:

- `wrappers.dfy` (module `Wrappers`): `Option` and `Result`.
- `template_values.dfy` (module `TemplateValues`) has three parts.
  - A parsed template result, `Value`: bool, int, float, str, None, or another object such as a list, a dict or bytes.
  - The Python built-ins the entity applies to a `Value`: `==` against the
    literal tokens, `bool()`, `float()`, `str()` and `str.strip()` over
    Python's 29 white-space code points.
  - The on/off coercion of the state template, `IsOn`.
- `humidifier.dfy` (module `Humidifier`) has three parts.
  - The configuration. `Config` records which of the five templates and which
    of the four scripts are present.
  - The attributes and the pure refresh function `Refresh`. It updates every
    attribute in its own error-isolated step.
  - The class `TemplateHumidifier`.
    - Its fields are the state, the two humidities, the mode and the action.
    - Its constructor, `UpdateState` and the four controls update those fields
      in place.
    - `TemplateEntities` collects the referenced entity ids.

Inputs from outside the entity:
- Each template render is an input `Result<Value, TemplateError>`.
- The entity ids a template references are an input `Result<set<EntityId>, TemplateError>`.
- Python's parsing of a numeric string is an input function `string -> Option<real>`.

A control does not run a script or publish state. Instead it returns an
`Effect`:
- `RunScript(script, variables)`, with the variables the script is called with;
- or `WriteState`, for the optimistic write that is then published.

One case is not handled: `float()` raises `TypeError` when a humidity
template renders None or a list, and no `except` clause catches it. `RefreshAsWritten` follows the code. `UpdateState`
applies the fix recorded under "## Findings".

## Model

| member | source | states |
|---|---|---|
| `TemplateValues.IsOn` | custom_components/humidifier_template/humidifier.py:210-217 | An "on" token gives on and an "off" token gives off. Any other value gives its Python truthiness. |
| `TemplateValues.OnLiteralsByKind` | custom_components/humidifier_template/humidifier.py:212 | A value equals an "on" token exactly when it is True, 1, 1.0 or one of "True", "true", "on", "On", "ON", "1". Python's `==` makes True, 1 and 1.0 equal. |
| `TemplateValues.OffLiteralsByKind` | custom_components/humidifier_template/humidifier.py:214 | A value equals an "off" token exactly when it is False, 0, 0.0 or one of "False", "false", "off", "Off", "OFF", "0". |
| `TemplateValues.LiteralsDisjoint` | custom_components/humidifier_template/humidifier.py:212-215 | No value is both an "on" and an "off" token. So testing "on" first decides nothing. |
| `TemplateValues.IsOnMatchesKind` | custom_components/humidifier_template/humidifier.py:212-217 | The coercion matches a table by kind of value. A bool gives itself. A number gives on when it is non-zero. A string gives on when it is non-empty and not an "off" string, so "yes" and "no" both give on. None gives off. A container gives its truthiness. |
| `TemplateValues.Truthy` | custom_components/humidifier_template/humidifier.py:217 | Python's `bool()`. A number is true exactly when it is non-zero. None is false. |
| `TemplateValues.ToFloat` | custom_components/humidifier_template/humidifier.py:223-225 | `float()` converts bools and numbers. A string converts when the parser accepts it and otherwise raises ValueError. None and containers raise TypeError. |
| `TemplateValues.NatToDecimal` | custom_components/humidifier_template/humidifier.py:239 | The `str()` of a natural number is non-empty. It has only decimal digits and no leading zero, and the digits read back as the number. |
| `TemplateValues.IntToDecimal` | custom_components/humidifier_template/humidifier.py:245 | The `str()` of an integer starts with '-' exactly when the integer is negative, followed by the digits of its magnitude. |
| `TemplateValues.PyStr` | custom_components/humidifier_template/humidifier.py:237-247 | Python's `str()`: "True" or "False" for a bool, the decimal text of an int (with a leading '-' exactly when it is negative), the string itself for a str, "None" for None. The text of a float or a container is carried in the value, not computed. |
| `TemplateValues.TrimStart` | custom_components/humidifier_template/humidifier.py:239 | The result is a suffix of the input. Everything removed is white space, and the result does not start with white space. |
| `TemplateValues.TrimEnd` | custom_components/humidifier_template/humidifier.py:239 | The result is a prefix of the input. Everything removed is white space, and the result does not end with white space. |
| `TemplateValues.Strip` | custom_components/humidifier_template/humidifier.py:239 | `strip()` never lengthens its input. A non-empty result neither starts nor ends with white space. |
| `TemplateValues.StripIsStrippedSlice` | custom_components/humidifier_template/humidifier.py:239 | `strip()` returns a slice of its input. Everything before and after the slice is white space. The slice neither starts nor ends with white space. |
| `TemplateValues.StripUnique` | custom_components/humidifier_template/humidifier.py:239 | Any slice with those properties is the one `Strip` returns, so `Strip` is all of `str.strip()`. |
| `TemplateValues.StripIdempotent` | custom_components/humidifier_template/humidifier.py:239 | Stripping a stripped mode again changes nothing. |
| `TemplateValues.StripDecimal` | custom_components/humidifier_template/humidifier.py:239 | When the mode template renders an integer, the stored mode is exactly its decimal text. |
| `Humidifier.SupportedFeatures` | custom_components/humidifier_template/humidifier.py:142-145 | The MODES feature is advertised exactly when the mode list is non-empty. |
| `Humidifier.TemplateHumidifier.constructor` | custom_components/humidifier_template/humidifier.py:92-147 | A new entity keeps its configuration. It is off, with target humidity, current humidity, mode and action unset. It supports MODES if and only if its mode list is non-empty, and no other feature. |
| `Humidifier.Refresh` | custom_components/humidifier_template/humidifier.py:206-247 | The corrected refresh. An attribute whose template is not configured keeps its previous value. |
| `Humidifier.RefreshKeepsFailed` | custom_components/humidifier_template/humidifier.py:209-247 | An attribute whose template is not configured, or whose render raises TemplateError, keeps its previous value. |
| `Humidifier.RefreshKeepsNonNumeric` | custom_components/humidifier_template/humidifier.py:221-235 | A humidity render that `float()` rejects leaves the stored humidity unchanged. |
| `Humidifier.RefreshApplies` | custom_components/humidifier_template/humidifier.py:209-245 | A configured template that renders sets its attribute from that render alone. The state goes through the on/off coercion and a humidity through `float()`. The mode is the stripped `str()` of the render. The action is the unstripped `str()`. |
| `Humidifier.RefreshIsolated` | custom_components/humidifier_template/humidifier.py:209-247 | Each attribute depends only on its own previous value and its own render. Another template's failure cannot change it. |
| `Humidifier.RefreshIdempotent` | custom_components/humidifier_template/humidifier.py:206-247 | Refreshing twice with the same renders gives the same attributes as refreshing once. |
| `Humidifier.HumidityAfterAsWritten` | custom_components/humidifier_template/humidifier.py:221-235 | In the model, a humidity step as written raises out of the refresh exactly when a configured template renders a value that `float()` rejects with TypeError. Otherwise it gives what the isolated step gives. |
| `Humidifier.RefreshAsWritten` | custom_components/humidifier_template/humidifier.py:206-247 | The five steps in source order. The refresh raises exactly when a configured humidity template renders a value that `float()` rejects with TypeError. The state and the target humidity are always updated as in the corrected refresh. When the refresh raises, the current humidity, the mode and the action keep their previous values. |
| `Humidifier.AsWrittenAgreesWithoutTypeError` | custom_components/humidifier_template/humidifier.py:206-247 | When no TypeError escapes, the refresh as written and the isolated refresh give the same attributes. |
| `Humidifier.TypeErrorSkipsLaterFields` | custom_components/humidifier_template/humidifier.py:221-247 | The target template renders None and the mode template renders "eco". As written, the refresh raises and the mode stays unset. The isolated refresh sets the mode to "eco". |
| `Humidifier.TemplateHumidifier.UpdateState` | custom_components/humidifier_template/humidifier.py:206-247 | The new attributes are the isolated refresh of the old ones, with the TypeError fix from "## Findings". |
| `Humidifier.TemplateHumidifier.RefreshState` | custom_components/humidifier_template/humidifier.py:209-219 | The state step changes only the state, to `StateAfter`: the on/off coercion of the render when the template is configured and renders, the old state otherwise. |
| `Humidifier.TemplateHumidifier.RefreshTargetHumidity` | custom_components/humidifier_template/humidifier.py:221-227 | The target humidity step changes only the target humidity, to `HumidityAfter`: `float()` of the render when the template is configured, renders and converts, the old value otherwise. |
| `Humidifier.TemplateHumidifier.RefreshCurrentHumidity` | custom_components/humidifier_template/humidifier.py:229-235 | The current humidity step changes only the current humidity, to `HumidityAfter`, under the same conditions as the target humidity step. |
| `Humidifier.TemplateHumidifier.RefreshMode` | custom_components/humidifier_template/humidifier.py:237-241 | The mode step changes only the mode, to `ModeAfter`: the stripped `str()` of the render when the template is configured and renders, the old mode otherwise. |
| `Humidifier.TemplateHumidifier.RefreshAction` | custom_components/humidifier_template/humidifier.py:243-247 | The action step changes only the action, to `ActionAfter`: the unstripped `str()` of the render when the template is configured and renders, the old action otherwise. |
| `Humidifier.TemplateHumidifier.TemplateEntities` | custom_components/humidifier_template/humidifier.py:188-204 | The result lists each entity id once. An id is listed exactly when some configured template whose info rendered references it. A template whose info fails contributes nothing and does not stop the loop. |
| `Humidifier.TemplateHumidifier.SetHumidity` | custom_components/humidifier_template/humidifier.py:249-257 | With its script configured, the script runs with {"humidity": h} and no attribute changes. Otherwise the target becomes exactly h, not clamped to min/max, nothing else changes, and the state is published. |
| `Humidifier.TemplateHumidifier.SetMode` | custom_components/humidifier_template/humidifier.py:259-267 | With its script configured, the script runs with {"mode": m} and no attribute changes. Otherwise the mode becomes exactly m, not checked against the mode list, nothing else changes, and the state is published. |
| `Humidifier.TemplateHumidifier.TurnOn` | custom_components/humidifier_template/humidifier.py:270-277 | With its script configured, the script runs and no attribute changes. Otherwise the state becomes on, nothing else changes, and the state is published. |
| `Humidifier.TemplateHumidifier.TurnOff` | custom_components/humidifier_template/humidifier.py:280-287 | With its script configured, the script runs and no attribute changes. Otherwise the state becomes off, nothing else changes, and the state is published. |

## Left out

- `async_setup_platform` and the configuration schema (lines 56-84). This is configuration loading through voluptuous. `Config` holds the validated result.
- The host's template engine. It renders text and parses it into a native value. Each render is an input `Value` or `TemplateError`.
- Script construction and `Script.async_run`. A control returns `RunScript` with the script and its variables. The call context is not modelled.
- `async_added_to_hass`. This covers attaching templates to the host, subscribing to state-change events, unsubscribing on removal and the first refresh. These are event-bus plumbing. `TemplateEntities` models the entity list given to the subscription.
- `async_write_ha_state` is the `WriteState` effect. Publishing after a refresh belongs to the event callback, which is not modelled.
- `is_on` returns the `state` field, which the class exposes directly.
- Logging, the device class, `_attr_should_poll` and the numeric values of the feature flags. Features are a set holding at most `Modes`.
- The async scheduling of the controls. Each control is one sequential step.
- TemplateValues.ToFloat: parsing a numeric string is an input function. NaN and infinities are not reals, so they are not modelled. Rounding of large ints to float and the OverflowError of `float()` on huge ints are not modelled either. A `bytes` render (such as `b'55'`) is a `VOther`, so the model's `float()` raises TypeError where Python converts it.
- TemplateValues.PyStr: the `str()` text of a float or a container is carried inside the `Value`, not computed.
- TemplateValues.EqualsLiteral: a container never equals a literal token. This holds for lists and dicts, but not for every Python object.
- Humidifier.TemplateHumidifier.SetHumidity: the source stores the int itself. The model stores the same number as a real, the type the attribute has everywhere else.
- Humidifier.TemplateHumidifier.UpdateState: never raises. Where the source lets a TypeError from a humidity step escape and skips the later steps, the method applies the corrected per-attribute refresh (see "## Findings"). `RefreshAsWritten` models the raising behaviour.
- Humidifier.HumidityAfterAsWritten: `float()` of an int of 2^1024 or more raises OverflowError, which also escapes. The model converts every int, so it raises only on TypeError.
- Humidifier.TemplateHumidifier.TemplateEntities: `list(entities)` has no defined order, so the contract fixes the contents and distinctness of the list but not its order.

## Findings

| source | as written | input that shows it | evidently intended | confidence | as-written member | corrected member |
|---|---|---|---|---|---|---|
| custom_components/humidifier_template/humidifier.py:221-235 | Each humidity step catches only `TemplateError` and `ValueError`. `float(None)` and `float(list)` raise `TypeError`, which escapes `_update_state`. So does the OverflowError that `float()` raises on an int of 2^1024 or more. The current humidity, mode and action steps are then skipped. | The target humidity template renders None (for example an attribute of a missing sensor) and the mode template renders "eco". The mode is not updated. | A humidity that cannot be converted keeps its previous value, and the remaining attributes are still updated, as the per-attribute try blocks intend. | not executed; high: the host's result parser turns a rendered "None" into None | `Humidifier.TypeErrorSkipsLaterFields` | `Humidifier.RefreshIsolated` |
