# request-text: a Dafny model of the schema editors, the result editor, the extraction client and the session gate

request-text is a browser tool. The user defines a *structure*: an ordered list of typed
fields. They paste free text and ask a completion API to extract one value per field. The
values can then be edited and copied out as tab-separated text. A sign-in gate keeps only
allow-listed users signed in.

This project models the deterministic logic of that tool and proves what it does:

- **Schema editing** (`Schema`, `StructureEditor`, `StructureSettings`). Both editors append a
  blank field, remove by index (`filter`) and patch by index (`map` with an object spread).
  Settings also loads the list from browser storage, falling back to a built-in default, and
  saves it back. Storage is a `LocalStore` object. `JSON.stringify`/`JSON.parse` are an
  opaque `Codec`.
- **Result editing and export** (`TextAnalyzer`). The component's `input`, `result`,
  `loading` and `copied` state is a class. Its handlers call pure functions: the placeholder
  result, the single-key update, the tab-joined copy text and the analyse button's enable
  rule.
- **Prompt and client** (`OpenAI`). `createPrompt` is a function. `analyzeText` is a method
  over abstract collaborators: the key variable, the endpoint (`fetch`) and `JSON.parse`. It
  follows the source's early throws.
- **Session gate** (`Auth`). A pure allow-list predicate, applied by the two handlers of an
  `AuthProvider` class that holds `user` and `loading`.
- `JsText` holds the JavaScript semantics these rely on: `Array.prototype.join`,
  `String.prototype.trim`, and the decimal form of an integral number. It also defines `Split`,
  a reference inverse of `join` that the round-trip lemmas use. The components themselves
  never split a string.
- `Types` holds the entities of `src/types.ts`.

Behaviour of the code worth noting:

- The prompt's field line is `- name (type)`. It does not include the description.
- `analyzeText` returns whatever `JSON.parse` gives back. It strips no code fences and
  validates no dates.
- The result editor's analysis is the placeholder (`'Sample value'` for every field), not an
  API call.
- The schema is stored under the single key `structure_settings`.
- `DataType` has all four variants, `boolean` included. `src/types.ts` lists three, but the
  editor's `<select>` offers a fourth through a cast, and `src/types/index.ts` lists four.
  The settings screen's `<select>` offers only three.

## Model

| member | source | states |
|---|---|---|
| `JsText.JoinSeparatorCount` | src/components/TextAnalyzer.tsx:50-52 | joining n separator-free parts yields exactly n-1 separators (none for no parts) |
| `JsText.SplitJoin` | src/components/TextAnalyzer.tsx:50-52 | splitting on the separator gives back the joined parts when none contains it |
| `JsText.Join` | src/components/TextAnalyzer.tsx:50-52 | no parts join to the empty string; otherwise the length is the parts' total length plus one per gap between neighbours |
| `JsText.JoinLayout` | src/components/TextAnalyzer.tsx:50-52 | the content of the join: part `i` sits right after the parts before it and one separator per gap, and a separator follows every part but the last |
| `JsText.TrimStart` | src/components/TextAnalyzer.tsx:74 | the result is a suffix, everything dropped is white space, and it is empty or starts with a non-space |
| `JsText.TrimEnd` | src/components/TextAnalyzer.tsx:74 | the result is a prefix, everything dropped is white space, and it is empty or ends with a non-space |
| `JsText.Trim` | src/components/TextAnalyzer.tsx:74 | `s.trim()` is the slice of `s` from where its leading white space ends, neither starting nor ending with white space, everything dropped at either end being white space, and it is empty iff every character of `s` is white space (both directions) |
| `JsText.NatString` | src/components/TextAnalyzer.tsx:50-52 | a number's text is non-empty decimal digits whose value is the number, with no leading zero |
| `JsText.IntString` | src/components/TextAnalyzer.tsx:50-52 | an integer's text is its digits, with a minus sign exactly when it is negative |
| `Types.ParseTypeName` | src/components/StructureEditor.tsx:39-48 | each option value of the type `<select>` maps back to the one type written that way |
| `Types.Merge` | src/components/StructureEditor.tsx:21 | each key present in the patch overrides the field's, and absent keys keep the field's |
| `Types.MergeIdempotent` | src/components/StructureEditor.tsx:21 | spreading the same patch twice equals spreading it once |
| `Types.MergeEmpty` | src/components/StructureEditor.tsx:21 | an empty patch leaves the field unchanged |
| `Schema.FilterOutIndex` | src/components/StructureEditor.tsx:16 | filtering out a position inside the list splices it out; any other position keeps the list |
| `Schema.MapAtIndex` | src/components/StructureEditor.tsx:21 | mapping at one index keeps the length, transforms that element only, and leaves all others |
| `Schema.RemoveField` | src/components/StructureEditor.tsx:15-17 | an in-range index gives `s[..i] + s[i+1..]`, one shorter with order kept; an out-of-range index leaves the list unchanged |
| `Schema.UpdateField` | src/components/StructureEditor.tsx:19-23 | length kept; element i becomes the old one merged with the patch; every other element unchanged; an out-of-range index is the identity |
| `Schema.UpdateFieldIdempotent` | src/components/StructureEditor.tsx:19-23 | applying the same patch at the same index twice equals applying it once |
| `Schema.RemoveAfterUpdate` | src/components/StructureEditor.tsx:15-23 | removing an index just patched equals removing it unpatched |
| `StructureEditor.AddField` | src/components/StructureEditor.tsx:11-13 | one more element; earlier elements unchanged; the last has an empty name, type string and no description |
| `StructureEditor.RemoveUndoesAdd` | src/components/StructureEditor.tsx:11-17 | removing index `\|s\|` after adding restores the original list |
| `StructureEditor.SelectType` | src/components/StructureEditor.tsx:39-48 | choosing an option gives that field the type the option value names, keeping the length and every other field |
| `StructureEditor.SelectTypeName` | src/components/StructureEditor.tsx:39-48 | the option written for a type sets exactly that type and keeps the field's name |
| `StructureEditor.RenameAddedField` | src/components/StructureEditor.tsx:32-36 | renaming the new field names only that field and leaves its type string |
| `StructureSettings.DefaultStructureShape` | src/components/StructureSettings.tsx:8-29 | the default is Title/string, Date_start/date, Date_end/date, requester/string, with pairwise distinct names |
| `StructureSettings.LoadedStructure` | src/components/StructureSettings.tsx:35-48 | the loaded list is either the default schema or exactly what a non-empty stored text parses to; with nothing stored it is the default |
| `StructureSettings.LoadFallsBackToDefault` | src/components/StructureSettings.tsx:35-48 | an absent, empty or unparsable stored value loads the default schema |
| `StructureSettings.LoadParsed` | src/components/StructureSettings.tsx:37-40 | a non-empty stored value that parses loads exactly the parsed list |
| `StructureSettings.LoadAfterSave` | src/components/StructureSettings.tsx:35-65 | loading a saved list gives it back, if its serialisation is non-empty and parses back |
| `StructureSettings.LocalStore.GetItem` | src/components/StructureSettings.tsx:37 | `getItem` gives the value under the key, or nothing exactly when the key is absent |
| `StructureSettings.LocalStore.SetItem` | src/components/StructureSettings.tsx:64 | an accepted write stores the value under the key; a refused write changes nothing |
| `StructureSettings.Settings.constructor` | src/components/StructureSettings.tsx:32-33 | the screen starts with an empty list and `saved` false |
| `StructureSettings.Settings.Load` | src/components/StructureSettings.tsx:35-48 | `fields` becomes the parsed stored list, or the default when nothing usable is stored |
| `StructureSettings.Settings.AddField` | src/components/StructureSettings.tsx:50-52 | appends `{name:'', type:'string', description:''}`; earlier fields unchanged |
| `StructureSettings.Settings.RemoveField` | src/components/StructureSettings.tsx:54-56 | same index and frame behaviour as the editor's removeField |
| `StructureSettings.Settings.UpdateField` | src/components/StructureSettings.tsx:58-60 | same length, merge and frame behaviour as the editor's updateField |
| `StructureSettings.Settings.Save` | src/components/StructureSettings.tsx:62-70 | an accepted write stores the serialised list under `structure_settings` and sets `saved`; a failed one leaves the store and `saved` unchanged |
| `StructureSettings.SaveThenReload` | src/components/StructureSettings.tsx:35-70 | saving writes the serialised list under `structure_settings`, sets `saved` and leaves the list as it was; mounting and loading again then restores that list |
| `TextAnalyzer.MockFields` | src/components/TextAnalyzer.tsx:20-23 | the keys are exactly the schema's field names, each mapped to `'Sample value'` |
| `TextAnalyzer.MockResult` | src/components/TextAnalyzer.tsx:19-25 | the placeholder result has the schema's names as its keys, all `'Sample value'`, and the input as memo |
| `TextAnalyzer.WithFieldValue` | src/components/TextAnalyzer.tsx:36-42 | the key holds the given string, whatever the field's declared type; other keys and the memo are kept; no key is lost |
| `TextAnalyzer.SegmentText` | src/components/TextAnalyzer.tsx:51-52 | a missing or null value joins as the empty segment, and a string joins as itself |
| `TextAnalyzer.Lookup` | src/components/TextAnalyzer.tsx:51 | the value under the key when the result has it, and nothing (`undefined`) exactly when it does not |
| `TextAnalyzer.Segments` | src/components/TextAnalyzer.tsx:50-51 | one segment per schema field, in schema order, each the looked-up value's text |
| `TextAnalyzer.CopyText` | src/components/TextAnalyzer.tsx:50-52 | an empty schema copies as the empty string; with tab-free values the copy text has one tab fewer than there are fields |
| `TextAnalyzer.CopyTextSplits` | src/components/TextAnalyzer.tsx:50-52 | splitting the copy text on tabs recovers each field's text in schema order |
| `TextAnalyzer.CopyTextOfThree` | src/components/TextAnalyzer.tsx:50-52 | two string values and a number under three distinct names copy as the three texts separated by two tabs |
| `TextAnalyzer.CopyTextExample` | src/components/__tests__/TextAnalyzer.test.tsx:190 | title, date and 1000 copy as `テストタイトル\t2024-03-28\t1000` |
| `TextAnalyzer.AnalyzeEnabled` | src/components/TextAnalyzer.tsx:74 | the button is enabled iff not loading and the input has a non-white-space character |
| `TextAnalyzer.DisabledOnEmptyInput` | src/components/__tests__/TextAnalyzer.test.tsx:36-41 | with empty input the analyse button is disabled |
| `TextAnalyzer.Analyzer.constructor` | src/components/TextAnalyzer.tsx:10-13 | the component starts with empty input, no result, not loading, not copied |
| `TextAnalyzer.Analyzer.CanAnalyze` | src/components/TextAnalyzer.tsx:74 | the component's button is enabled iff it is not loading and its input has a non-white-space character |
| `TextAnalyzer.Analyzer.SetInput` | src/components/TextAnalyzer.tsx:68 | the textarea's change replaces the input |
| `TextAnalyzer.Analyzer.AnalyzeText` | src/components/TextAnalyzer.tsx:15-32 | the result becomes the placeholder result for the input, and `loading` is false afterwards |
| `TextAnalyzer.Analyzer.UpdateFieldValue` | src/components/TextAnalyzer.tsx:34-43 | no-op without a result; otherwise exactly that key is overwritten |
| `TextAnalyzer.Analyzer.CopyToClipboard` | src/components/TextAnalyzer.tsx:45-60 | without a result nothing is written and `copied` is unchanged; otherwise the copy text is written, and `copied` is set iff the clipboard accepts it |
| `OpenAI.ApiKey` | src/utils/api.ts:2-4 | a key is present iff the variable is set and non-empty, and then it is that value |
| `OpenAI.FieldLine` | src/utils/openai.ts:63 | a line is `- `, the field's name, then ` (type)`; the description does not appear, and the line has no newline unless the name has one |
| `OpenAI.FieldLines` | src/utils/openai.ts:62-63 | one line `- name (type)` per field, in schema order |
| `OpenAI.FieldsDescription` | src/utils/openai.ts:62-64 | an empty schema gives an empty section; otherwise it splits into exactly one `- name (type)` line per field, in order, when no name contains a newline |
| `OpenAI.CreatePrompt` | src/utils/openai.ts:61-87 | the prompt is the lead ending in `テキスト:`, the text verbatim, the lead ending in `必要な情報:`, the field section, then the fixed format rules |
| `OpenAI.PromptIgnoresDescriptions` | src/utils/openai.ts:61-64 | schemas that agree on names and types give the same prompt, so the description is ignored |
| `OpenAI.AnalyzeText` | src/utils/openai.ts:13-59 | no key: throws `APIキーが設定されていません` and sends nothing. Otherwise sends the key and prompt. Non-OK: the server's non-empty `error.message`, else `APIリクエストに失敗しました`. A `null` error body, a body whose first choice's `message` cannot be reached, and `choices: []` all fail with the TypeError of reading a property of nothing. Unparsable content: `APIからの応答の解析に失敗しました`. Else the parsed first choice, a `null` content being parsed as `"null"` |
| `Auth.IsAllowed` | src/contexts/AuthContext.tsx:26 | a user is allowed iff they have an email and it is on the allow-list |
| `Auth.MissingEmailRejected` | src/contexts/AuthContext.tsx:26 | a user with no or an empty email is not allowed |
| `Auth.Gate` | src/contexts/AuthContext.tsx:24-32 | a stored user is always allowed; sign-out is requested iff a user is present and not allowed; otherwise the session's user (or none) is kept as is |
| `Auth.GateIdempotent` | src/contexts/AuthContext.tsx:38-46 | a user the gate stored passes it again unchanged, with no sign-out |
| `Auth.AuthProvider.constructor` | src/contexts/AuthContext.tsx:18-19 | no user and `loading` true at mount |
| `Auth.AuthProvider.OnInitialSession` | src/contexts/AuthContext.tsx:23-34 | stores the gated user, counts a sign-out iff it rejected one, clears `loading`, and keeps the invariant that no stored user is rejected |
| `Auth.AuthProvider.OnAuthStateChange` | src/contexts/AuthContext.tsx:37-47 | the same gate and sign-out; `loading` untouched; the invariant kept |

## Left out

- Network I/O. The request is reduced to the bearer key and the prompt. The URL, model name,
  system message, temperature and response-format hint of the body are not modelled.
  `fetch` is the `respond` parameter.
- `JSON.parse` and `JSON.stringify`: opaque functions (`Codec`, `parse`). A stored value
  that parses to something other than a list (for example `null`) is not modelled. Nor is one
  that parses to a list whose elements are not fields (numbers, objects without `name` or
  `type`): `setFields` at `src/components/StructureSettings.tsx:40` accepts it unchecked.
- `OpenAI.AnalyzeText`: a non-OK body whose `error.message` is not a string, and a first
  choice whose `content` is neither a string nor `null`, are not modelled.
- `localStorage`, `navigator.clipboard` and `import.meta.env`. They become a store object, an
  accept/refuse flag and an optional string.
- The two-second timers that reset `copied` and `saved`, `console.error` logging, and the
  intermediate `loading = true` state while the placeholder analysis runs. The placeholder
  cannot throw, so the `catch` branch of the component's `analyzeText` is never taken.
- `TextAnalyzer.SegmentText`: numbers are integers, written in decimal. Fractions, magnitudes
  of 1e21 and above, NaN and infinities are not modelled. Object and array values in a
  result are also not modelled.
- The JSX rendering. `src/App.tsx`, `Login.tsx`, `PrivateRoute.tsx`, `ApiSettings.tsx` and
  `AuthCallback.tsx` are UI or vendor glue. So are `signInWithGoogle`, the context's own
  `signOut` and the listener's unsubscribe in `AuthContext.tsx`. The provider only counts
  the sign-out requests it makes.
- `TextAnalyzer.Lookup` reads a missing key as `undefined`. A missing key whose name an
  object inherits from `Object.prototype` (`toString`, `__proto__`, ...) is not modelled. In
  the source such a lookup yields the inherited member, which `join` then writes as text.
  In `src/App.tsx` (lines 72-74) the component is unmounted while the schema editor is
  shown, so the schema cannot change under a result. Such a result has the schema's own names as keys.
- A session whose `user` is absent is modelled as no session (`session?.user ?? null`).
- Field reordering, schema import and export, name validation, date validation and
  code-fence stripping are not present in these source files.
