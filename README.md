# Atom feed plugins for Views, modelled in Dafny

This project models the two plugins that turn a view's query rows into an Atom
feed (RFC 4287):

- the `atom_fields` **row plugin** (`AtomFieldsRow`, `atom_fields.dfy`) declares
  eight field-binding options, validates that the three bindings RFC 4287
  section 4.1.2 makes mandatory (`id`, `title`, `updated`) are set, and maps
  one result row onto an Atom entry. It reads every bound field through a guarded
  accessor, at the position given by a counter that persists across calls;
- the `atom` **style plugin** (`AtomStyle`, `atom_style.dfy`) collects the row
  plugin's entries for every result row, provides the feed description
  (tokens substituted against row 0) and the feed's updated date (that of the last
  row), and advertises the feed: one feed icon and one `rel=alternate`,
  `type=application/atom+xml` head link.

`Host` (`host.dfy`) holds what both plugins use from the framework: PHP's
reading of option arrays (a missing key reads as null; `empty()` holds of null,
`""` and `"0"`), the view object, the feed URL object, and three uninterpreted
collaborators passed as function values:

- the style plugin's field accessor `(index, fieldId) -> string`;
- `Url::toString()`;
- token substitution.

The stateful parts are classes whose methods change their fields in place:

- `View.rowIndex` is `$view->row_index`;
- `View.feedIcons` is `$view->feedIcons`;
- `Url.options` is what `setOptions()` replaces;
- `AtomFields.rowIndex` is the function-static `$row_index` of the row plugin's `render()`.

Dates are opaque strings. The code never parses or compares them, and neither
does the model.

In these places the model follows the code, where a reader might expect otherwise:

- The row counter is **never reset**. A second feed render on the same plugin
  object reads the fields at positions `n, n+1, …` rather than `0, 1, …`
  (`PassesContinueCounter`, `Atom.Render`).
- The alternate head link's title is the fixed text "This content is also avalaible
  as an Atom feed", typo included. It is not the feed title passed to `attachTo()`.
- The `getDescription()` result for an empty result set is whatever the token
  substitution gives for row 0. The plugin adds no fallback of its own.
- The author bindings are declared as `author_name` / `author_link`, but `render()`
  reads `author_name_field` / `author_link_field`. The declared options are never
  read (`DeclaredAuthorOptionsUnused`). With the declared defaults, both author
  fields of every entry are `""` (`DefaultItemIsBlank`).

## Model

| member | source | states |
|---|---|---|
| `Host.Lookup` | src/Plugin/views/row/AtomFields.php:169-170 | reading an option key yields its value exactly when the key is present, and null otherwise (how the undeclared `*_field` keys read) |
| `AtomFieldsRow.DefineOptions` | src/Plugin/views/row/AtomFields.php:36-47 | the options are the parent's plus the eight bindings; every binding defaults to `""`; the parent's other options are kept |
| `AtomFieldsRow.GetField` | src/Plugin/views/row/AtomFields.php:192-197 | `""` whenever the style plugin is missing or the field id is PHP-empty (null, `""`, `"0"`), whatever the accessor would say; otherwise exactly the accessor's value at that index and field id |
| `AtomFieldsRow.AtomFields.Validate` | src/Plugin/views/row/AtomFields.php:130-141 | the parent's errors are kept as a prefix; exactly one error follows when any mandatory binding is empty, even if several are; none follows when all three are set |
| `AtomFieldsRow.RequiredMissingIff` | src/Plugin/views/row/AtomFields.php:133-139 | validation fails if and only if `id_field`, `title_field` or `updated_date_field` is PHP-empty |
| `AtomFieldsRow.OptionalBindingsDoNotAffectValidation` | src/Plugin/views/row/AtomFields.php:133-139 | changing any option other than the three mandatory ones never changes the outcome of validation |
| `AtomFieldsRow.DefaultsFailValidation` | src/Plugin/views/row/AtomFields.php:133-139 | with the declared defaults alone, validation reports its error |
| `AtomFieldsRow.AtomFields.Render` | src/Plugin/views/row/AtomFields.php:146-182 | the counter starts at 0 when unset and rises by exactly 1 per call; the call reports the view's row index as it finds it; the build carries the current options, the alias or `""`, and the entry whose fields are all read at the counter's value on entry |
| `AtomFieldsRow.IdIsUrn` | src/Plugin/views/row/AtomFields.php:159-164 | the entry id is `urn:uuid:` followed by the resolved id value, which can be recovered from it even when it is `""`; `link_self` is always false |
| `AtomFieldsRow.ItemReadsOneIndex` | src/Plugin/views/row/AtomFields.php:159-170 | every field of one entry is read at the same position: two accessors that agree at that position give the same entry |
| `AtomFieldsRow.DeclaredAuthorOptionsUnused` | src/Plugin/views/row/AtomFields.php:169-170 | setting the declared `author_name` / `author_link` options leaves every entry unchanged |
| `AtomFieldsRow.DefaultItemIsBlank` | src/Plugin/views/row/AtomFields.php:159-170 | with the declared defaults, every entry is blank except the bare `urn:uuid:` id; both author fields are `""` |
| `AtomFieldsRow.PassesContinueCounter` | src/Plugin/views/row/AtomFields.php:147-172 | the counter is never reset: a pass of `n` calls followed by a pass of `m` calls reads the same positions as one pass of `n + m` calls |
| `AtomStyle.DefineOptions` | src/Plugin/views/style/Atom.php:68-72 | the options are the parent's plus `description`, which defaults to `""`; the parent's other options are kept |
| `AtomStyle.FeedUrlOptions` | src/Plugin/views/style/Atom.php:40-45 | the URL options are always absolute; they carry the exposed input as query exactly when that input is non-empty |
| `AtomStyle.Atom.AttachTo` | src/Plugin/views/style/Atom.php:39-63 | the feed URL's options become the URL options above; exactly one feed icon is appended after the existing ones, with the rendered URL and the given title; exactly one `alternate` / `application/atom+xml` head link with the same URL is appended after the existing links |
| `AtomStyle.Atom.GetDescription` | src/Plugin/views/style/Atom.php:94-99 | the configured description is substituted against row 0, whatever the result set holds |
| `AtomStyle.DefaultDescription` | src/Plugin/views/style/Atom.php:68-72 | with the declared default, the description is the substitution of `""` against row 0 |
| `AtomStyle.Atom.GetUpdated` | src/Plugin/views/style/Atom.php:107-115 | `""` for an empty result; otherwise the row plugin's updated-date field at the last row's position, not the most recent date |
| `AtomStyle.LastRowWinsExample` | src/Plugin/views/style/Atom.php:110-113 | with updated dates 2020-01-01, 2023-06-01 and 2021-01-01 in result order, the feed's updated date is 2021-01-01, not the latest date |
| `AtomStyle.Atom.Render` | src/Plugin/views/style/Atom.php:120-138 | without a row plugin: an empty build, and the view's row index is left as it was; otherwise one row-plugin build per result row, in result order, each the row plugin's output for its counter value. The view's row index, as each row-plugin call reads it, equals that row's key, and it is unset at the end. The row counter advances by the number of rows |

## Left out

- The option forms (`buildOptionsForm` in both plugins). The choices offered, the `#required` flags and the 1024-character limit on the description are enforced by the host form system.
- Translation (`t()`), `themeFunctions()`, `debug()` and the empty `rdf_get_namespaces` branch. Translated strings are plain constants, and the `#theme` and `#view` keys of both builds are not modelled.
- The internals of the style plugin's `getField`, `Url::toString()`, `tokenizeValue()` and `getExposedInput()`. The first three are uninterpreted function parameters; the exposed input is a field of the view.
- `parent::defineOptions()` and `parent::validate()`. Their results enter as parameters.
- Every key of the page build other than `#attached.html_head_link`; `attachTo()` does not touch them.
- Atom XML serialisation and RFC 3339 date handling. The templates live outside the plugins, and no date is ever parsed.
- `$view->rowPlugin` is held by the style object as `Atom.rowPlugin`, so that the view need not know the row plugin's class. The row plugin of a feed is taken to be `atom_fields`, attached to the same view as the style (`Atom.Render` requires this).
- AtomFieldsRow.AtomFields.Render: the PHP counter is function-static, so every instance of the plugin in one PHP process shares it. The model keeps it per object and does not model concurrent requests. PHP's switch from integer to float past 2^63 is not modelled either.
- AtomStyle.Atom.GetUpdated: requires a row plugin whenever the result is non-empty, because the source then calls `getField()` on null, which is a fatal error rather than a value.
