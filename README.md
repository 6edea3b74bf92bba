# Parameters panel of the hanger selector: duration options and field edits

This project models the part of the hanger selector's parameters panel
(`src/test.tsx`) that encodes rules rather than layout:

- **Duration options by country.** The load-duration select offers five
  options for the USA, one for Canada, and the USA list for every other
  country. The uplift-duration select has three lists: one for the USA, one
  for Canada, and a different fallback list for every other country.
- **The load-duration reset.** An effect runs on mount and whenever the
  country changes. If the stored `downloadDuration` is not among the
  country's load-duration options, it is replaced by the first option.
  Nothing else changes, and in particular the uplift duration is not
  checked again.
- **Property edits.** Every form handler replaces one property of the
  `Parameters` object, written `{...params, field: value}`. A section
  header flips one flag in the `openSections` object.

The modules are:

- `Durations` (`durations.dfy`) holds the two option lists as pure
  functions of the country string.
- `Params` (`params.dfy`) holds the `Parameters` object, one `Edit`
  constructor per form handler, and the edit function `ApplyEdit`.
  A JavaScript object is a map from property names to values, so
  `Parameters` is a `map<Field, Value>`. Every property the interface
  declares without `?` is present, and every value has the declared type.
  An optional property such as `skew?: number` may be absent.
- `Panel` (`panel.dfy`) holds the reset effect `ResetLoadDuration`, the
  section toggle `Toggled`, and the class `ParametersPanel`. The class has
  fields `country`, `params` and `openSections`, and its methods
  `ChangeCountry`, `SetField` and `ToggleSection` update them in place.

Modelling decisions:

- The translation function `t` is the identity. A load-duration option is
  therefore its translation key, such as `loadDuration.dead90`. The uplift
  options are literal strings in the source and are kept as written.
- React runs the effect only when the `country` dependency has a different
  value. `ChangeCountry(c)` resets only when `c` differs from the current
  country. Mounting is the constructor, which runs the reset once.
- The effect tests the stored duration of the current render and writes
  through the functional `prev =>` form. Updates are synchronous in the
  model, so both name the same object.
- `quantity` is a JavaScript number, modelled as a `real`. The handler
  receives the number that `Number(e.target.value)` already produced.
- `includeJobSummary` is written by a handler but is missing from the
  declared `Parameters` interface. It is carried as one more optional
  boolean property.
- No handler in the panel writes the optional properties `skew` through
  `highLowCenter`, so every edit keeps them, absent or present.

The specification of the system describes more than this code does. It
describes a language that follows the jurisdiction, re-validation of the
uplift duration, and clamping of `quantity` and the slider angles. The code
does none of this, and the model follows the code.
`Panel.ResetLeavesStaleUplift` shows the uplift duration going stale.

## Model

| member | source | states |
|---|---|---|
| `Durations.LoadDurationOptions` | src/test.tsx:136-152 | The option list is never empty and has no repeated entry. It has exactly one entry if and only if the country is "Canada". Its first entry, the reset default, is `standardTerm100` for Canada and `dead90` otherwise. |
| `Durations.UpliftDurationOptions` | src/test.tsx:163-167 | The list always has two distinct entries. It contains "Short Term 1.15" exactly when the country is not the USA. |
| `Durations.LoadDurationOptionsByCountry` | src/test.tsx:136-152 | The USA gets the five-entry USA list and Canada gets `[standardTerm100]`. Every other country gets the same list as the USA. |
| `Durations.UpliftDurationOptionsByCountry` | src/test.tsx:163-167 | Gives the uplift list of each of the three branches. The fallback list differs from both the USA list and the Canada list. |
| `Durations.UsaAndCanadaLoadDurationsDisjoint` | src/test.tsx:136-143 | No USA load duration is a Canadian one. |
| `Params.ApplyEdit` | src/test.tsx:200-202 | The handler's own property holds the delivered value afterwards. No property disappears, and every other property keeps its value. The same `{...params, field: value}` shape is used at lines 247-249, 266, 278-280, 313-315, 352-354, 377-379, 397-399, 417-419, 438-440, 450-455, 609-611, 660-662 and 677-682. |
| `Params.EditsOnDistinctFieldsCommute` | src/test.tsx:246-249 | Two handlers for different properties give the same object in either order. |
| `Params.LaterEditOfSameFieldWins` | src/test.tsx:266 | A second edit of a property overwrites the first, so repeating an edit changes nothing more. |
| `Params.UntargetedFieldKept` | src/test.tsx:278-280 | A property that no handler in a sequence targets keeps both its presence and its value through the whole sequence. |
| `Panel.ResetLoadDuration` | src/test.tsx:154-161 | Afterwards the load duration is one the country offers. An already offered value leaves the object unchanged. Otherwise the load duration becomes the first option. The property set is unchanged and every other property keeps its value. |
| `Panel.ResetIdempotent` | src/test.tsx:154-161 | Running the reset twice for one country gives the same object as running it once. |
| `Panel.ResetLeavesStaleUplift` | src/test.tsx:154-167 | The reset does not re-validate the uplift duration. A USA uplift value survives the reset for Canada although Canada does not offer it. |
| `Panel.ResetOnCountrySwitch` | src/test.tsx:136-161 | Start from a valid USA load duration. Switching to a fallback country keeps the object. Switching to Canada always replaces the load duration with `standardTerm100`. |
| `Panel.OfferedEditsKeepLoadDuration` | src/test.tsx:198-211 | Start with a valid load duration. It stays valid through any sequence of handlers in which every load-duration pick comes from the offered options. |
| `Panel.Toggled` | src/test.tsx:125-127 | Exactly the toggled section's flag is negated. The other flags and the set of sections are unchanged. |
| `Panel.ToggleTwiceIsIdentity` | src/test.tsx:125-127 | Toggling the same section twice restores every flag. |
| `Panel.TogglesCommute` | src/test.tsx:125-127 | Toggles of two sections give the same flags in either order. |
| `Panel.ParametersPanel.constructor` | src/test.tsx:117-161 | On mount every section is open and the reset has run for the initial country, so the load duration is offered. |
| `Panel.ParametersPanel.ChangeCountry` | src/test.tsx:154-161 | The country is updated and the section flags are not in its frame. The object is reset for the new country when it differs from the old one and is unchanged otherwise. A changed country always leaves an offered load duration. |
| `Panel.ParametersPanel.SetField` | src/test.tsx:609-611 | The new object is the old one with the handler's edit applied. An offered edit keeps an offered load duration valid. |
| `Panel.ParametersPanel.ToggleSection` | src/test.tsx:117-127 | The section flags become the toggled flags, and every section keeps a flag. |

## Left out

- Rendering is not modelled: the JSX layout, images, tooltips, the slider component and the disabled styling of the load-duration select for Canada. The select's `disabled` flag does not change the handler, so `SetField` accepts a load-duration edit in any country.
- The slider mark position (`markPosition`) is not modelled. It is floating-point percentage arithmetic, and with its default bounds it divides by zero.
- The quantity conversion `Number(e.target.value)` is not modelled. It converts a string to a float and can give NaN. No clamping to at least 1 happens in the code, and the model adds none.
- The translation lookup `t` is not modelled; it is the identity here. Switching the interface language changes the translated option strings without re-running the reset, and the model cannot show that.
- Batched React updates are not modelled. The handlers capture `params` from the current render, so two handlers fired before a re-render would lose the first update. The model applies each handler to the latest object.
- `src/ParametersPanel.tsx` is an earlier draft with fixed option lists and no country logic. Its toggling and single-field updates repeat those of `src/test.tsx`.
- Not part of this model: the other components, the i18n set-up, the bootstrap, the DOM listeners of the slope calculator and the 3D viewer. They are markup, foreign calls or animation with no rules of their own.
