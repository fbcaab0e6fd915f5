# Character-description JSON accessors, in Dafny

This project models `jsonutils.py` from CC3 Blender Tools. That file holds the
defensive, read-only accessors over the character-description JSON document
that Character Creator exports next to an FBX file. The tools use it to rebuild
materials and shaders. The model covers:

- the chained lookups `doc[file]["Object"][character]...`, each wrapped in a
  `try` that turns any failure into `None`;
- the guard `if not x: return None` in front of most accessors, i.e. Python
  truthiness;
- the case-insensitive, first-match, substring search of mesh and material
  names over the keys of `"Meshes"` and `"Materials"`, in key order;
- the fallback chains of `get_custom_shader` (shader name, then material
  type, then `"Pbr"`) and `get_texture_info` (PBR texture, then custom-shader
  image);
- the `"<namespace>/<name>"` dispatch of `get_material_json_var`, with its
  unguarded unpacking of `split('/')`;
- `convert_to_color`, which divides a list in place by 255 and appends an
  alpha to a colour triple, and `get_shader_var_color`, which applies it to
  the document's own list.

Files:

- `json_value.dfy`, module `JsonValue`. The `Json` datatype. An object is a
  sequence of `(key, value)` pairs in document order. The module also has
  Python truthiness (`Falsy`), the key lookup `Get`, the chained lookup
  `Path`, and `SetPath`. `SetPath` describes the document after a value
  inside it has been changed in place.
- `text.dfy`, module `Text`. ASCII `str.lower()`, the substring test `in`,
  and `str.split` / `str.join` for a one-character separator.
- `jsonutils.dfy`, module `JsonUtils`. The accessors themselves.

How Python values map to the model:

- An accessor's argument is a `Json`. Python `None` is `JNull`.
- An accessor's result is an `Option<Json>`. `None` means a lookup failed and
  the exception was caught, or a name search found nothing. `Some(JNull)`
  means a JSON null was found.
- Python cannot tell those two apart. `get_texture_info` tests `is None`, so
  it treats both the same way (`IsPyNone`).
- The mesh and material search and the colour division are loops in the
  source. They are modelled as methods with loop invariants,
  `SearchByName` and `ConvertToColor`. Each is proved equal to a
  specification function (`FirstMatchIn`, `ColorConversion`), and the
  lemmas are stated about those functions.
- `MaterialEntry` is a class holding the material entry that callers share.
  Its method `GetShaderVarColor` is the in-place change to that shared
  entry: it runs `ConvertToColor` on the list found at the variable and
  writes the outcome back into its `json` field with `SetPath`, which is the
  change that every holder of the dictionary sees. It is proved equal to
  the specification function `ShaderVarColor`.

Some behaviour of the code is easy to miss; the model follows the code as
written:

- `get_material_json_var` raises `ValueError` for a path without exactly one
  `/`, because the unpacking at line 131 is outside any `try`. The model
  returns `UnpackError` for that case.
- `convert_to_color` divides the elements one after another. An element that
  is not a number raises `TypeError` midway, and `get_shader_var_color`
  catches it. The elements before it stay divided in the document, and
  `None` is returned (`ColorPartialChange`).
- A JSON `true`/`false` counts as a number for `/`, because Python's `bool`
  is an `int`.
- `get_character_generation_json` returns whatever value is found there, of
  any JSON type.

## Model

| member | source | states |
|---|---|---|
| JsonValue.Falsy | jsonutils.py:51 | Python's `not x`: true exactly for null, False, the number 0, and the empty string, list and mapping |
| JsonValue.IsPyNone | jsonutils.py:110 | `x is None` on a lookup outcome: true exactly for a caught failure and for a JSON null that was found |
| JsonValue.Get | jsonutils.py:45 | `x[k]` has a value exactly when `x` is a mapping with a member keyed `k`. The value is that of the first such member. A falsy value never has one |
| JsonValue.GetHasKey | jsonutils.py:45 | a lookup succeeds exactly on a mapping whose keys include `k` |
| JsonValue.FindKey | jsonutils.py:45 | the position found is that of the first member with the key, or the end when there is none |
| JsonValue.Path | jsonutils.py:45 | a chained subscript over no keys is the value itself; over one key or more it succeeds only on a mapping holding the first key |
| JsonValue.PathAppend | jsonutils.py:54 | looking up `p + q` is looking up `p`, then `q` from there; this relates an accessor to the one below it |
| JsonValue.SetPath | jsonutils.py:186-187 | an in-place change below the top keeps the document's shape: a mapping stays a mapping with the same keys in the same order |
| JsonValue.SetPathReads | jsonutils.py:186-187 | after an in-place change at a path that resolves, that path reads the new value |
| JsonValue.SetPathUnresolved | jsonutils.py:186-187 | a change at a path that does not resolve leaves the document as it was |
| JsonValue.SetPathTwice | jsonutils.py:186-187 | of two in-place changes at the same place, only the second remains |
| JsonValue.SetPathElsewhere | jsonutils.py:186-187 | an in-place change leaves every unrelated path reading what it read before |
| JsonValue.ResolvedIsTruthy | jsonutils.py:183-186 | an entry in which a non-empty path resolves is truthy, and so is the same entry after a change below it |
| Text.Lower | jsonutils.py:74 | lower-casing keeps the length, maps each ASCII capital to its small letter, keeps every other character, and leaves no capital |
| Text.LowerIdempotent | jsonutils.py:77 | lower-casing twice is lower-casing once |
| Text.Contains | jsonutils.py:77 | `needle in hay` holds exactly when `needle` occurs in `hay` at some position; so the empty string is in every string |
| Text.CountZero | jsonutils.py:131 | a character is counted zero times exactly when it does not occur |
| Text.Split | jsonutils.py:131 | `split('/')` gives one more piece than there are slashes. No piece holds a slash, and the pieces joined by slashes give the input back |
| Text.SplitNoSeparator | jsonutils.py:131 | a string without a slash splits into itself alone |
| Text.SplitAfterPrefix | jsonutils.py:131 | the part before the first slash is the first piece |
| Text.SplitJoin | jsonutils.py:131 | splitting the slash-join of slash-free pieces gives the pieces back |
| JsonUtils.GetCharacterGenerationJson | jsonutils.py:43-48 | the value is `Path` over `[file_name, "Object", character_id, "Generation"]`, which `PathStep`/`PathAppend` describe. The contract states that it is None unless the document is a mapping holding the file name, and None for a falsy document although the function has no guard |
| JsonUtils.GetCharacterRootJson | jsonutils.py:50-57 | None for a falsy document; otherwise the value is `Path` over `[file_name, "Object"]`, which `PathStep`/`PathAppend` describe. The contract states the guard, and that a value comes only from a mapping holding the file name |
| JsonUtils.GetCharacterJson | jsonutils.py:59-68 | None for a falsy document; otherwise the value is `Path` over `[file_name, "Object", character_id]`, which `PathStep`/`PathAppend` describe and `CharacterBelowRoot` ties to the root. The contract states the guard, and that a value comes only from a mapping holding the file name |
| JsonUtils.CharacterBelowRoot | jsonutils.py:59-68 | for every document, the character entry is member `character_id` of the character root, and it fails when the root fails |
| JsonUtils.GenerationBelowCharacter | jsonutils.py:43-48 | for every document, the generation tag is member `"Generation"` of the character entry, so the missing falsy guard changes nothing |
| JsonUtils.NameMatches | jsonutils.py:77 | `object_name.lower() in name` (also line 101): the lowered key occurs at some position of the lowered name |
| JsonUtils.MatchIndex | jsonutils.py:76-77 | the position found is the first whose lowered key is a substring of the lowered name: no earlier key matches, and the found one does |
| JsonUtils.MatchedKeyLookup | jsonutils.py:79 | the first matching member is the first member with its key, so returning it is returning `table[key]` |
| JsonUtils.FirstMatchIn | jsonutils.py:73-82 | the search result exists exactly when the table is a mapping with a matching key. The result is `table[key]` for the first such key in key order. A missing table or one that is not a mapping gives None |
| JsonUtils.SearchByName | jsonutils.py:76-79 | the loop over the keys with its early return computes the first-match result |
| JsonUtils.GetObjectJson | jsonutils.py:70-82 | None for a falsy character entry. Otherwise the entry of `"Meshes"` whose key is the first, in key order, to match the object's name case-insensitively as a substring. None when there is no such key, no `"Meshes"`, or `"Meshes"` is not a mapping |
| JsonUtils.GetMaterialJson | jsonutils.py:94-106 | the same first-match search over `"Materials"` with the material's name, after the falsy guard |
| JsonUtils.BodyMeshFound | jsonutils.py:76-79 | with meshes "Body" and "Hair", an object named "CC_Base_Body_1" gets the "Body" entry |
| JsonUtils.FirstKeyWins | jsonutils.py:76-79 | the search depends on key order: "Body" before "BodyTop" wins for an object named "BodyTop" |
| JsonUtils.GetCustomShader | jsonutils.py:84-92 | the result is `["Custom Shader"]["Shader Name"]` when that lookup succeeds. Otherwise it is `["Material Type"]` when that succeeds, otherwise the literal "Pbr". It always has a value |
| JsonUtils.DefaultShader | jsonutils.py:84-92 | a falsy entry, a non-mapping, or a mapping with neither key gives "Pbr" |
| JsonUtils.GetPbrTextureInfo | jsonutils.py:114-120 | None for a falsy entry; otherwise the value is `Path` over `["Textures", id]`, which `PathStep`/`PathAppend` describe. The contract states the guard, and that a value comes only from a mapping holding `"Textures"` |
| JsonUtils.GetShaderTextureInfo | jsonutils.py:122-128 | None for a falsy entry; otherwise the value is `Path` over `["Custom Shader", "Image", id]`, which `PathStep`/`PathAppend` describe. The contract states the guard, and that a value comes only from a mapping holding `"Custom Shader"` |
| JsonUtils.GetTextureInfo | jsonutils.py:108-112 | the PBR texture when it is not None, otherwise the custom-shader image; None exactly when both are None |
| JsonUtils.TextureFromOnePlace | jsonutils.py:108-128 | a texture that is found is `["Textures"][id]` or `["Custom Shader"]["Image"][id]` |
| JsonUtils.IsNumber | jsonutils.py:154 | the values `/` accepts (also line 177): exactly those that are not null, a string, a list or a mapping, i.e. int, float and bool |
| JsonUtils.NumValue | jsonutils.py:154 | the arithmetic value of a number: a number's own value, 1 for True and 0 for False; it is zero exactly when the value is falsy |
| JsonUtils.Divide | jsonutils.py:154 | `x / d` is a number exactly when `x` is an int, float or bool, and the quotient times `d` is the value of `x` |
| JsonUtils.GetShaderVar | jsonutils.py:142-148 | None for a falsy entry; otherwise the value is `Path` over `["Custom Shader", "Variable", name]`, which `PathStep`/`PathAppend` describe. The contract states the guard, and that a value comes only from a mapping holding `"Custom Shader"` |
| JsonUtils.GetSssVar | jsonutils.py:166-172 | None for a falsy entry; otherwise the value is `Path` over `["Subsurface Scatter", name]`, which `PathStep`/`PathAppend` describe. The contract states the guard, and that a value comes only from a mapping holding `"Subsurface Scatter"` |
| JsonUtils.GetMaterialVar | jsonutils.py:158-164 | None for a falsy entry; otherwise the value is `Get` of the variable's name, whose contract pins it down. The contract states the guard, and that a value comes only from a mapping holding the variable's name |
| JsonUtils.GetPbrVar | jsonutils.py:150-156 | a value exactly when the entry is truthy and `["Textures"][name]["Strength"]` is a number. The value is a number, and 100 times it is the strength |
| JsonUtils.GetMaterialJsonVar | jsonutils.py:130-139 | the call raises the unpacking error exactly when the path does not hold exactly one '/' |
| JsonUtils.MaterialVarDispatch | jsonutils.py:130-139 | for `ns/name`: "Custom" reads the shader variable, "SSS" the subsurface variable, "Pbr" the texture strength. Any other namespace, "Base" included, reads the top-level variable |
| JsonUtils.AcceptedPathShape | jsonutils.py:131 | every path that does not raise is `ns/name` with slash-free `ns` and `name` |
| JsonUtils.PbrStrengthExample | jsonutils.py:150-156 | "Pbr/Roughness" on a Roughness texture of strength 50 gives 0.5 |
| JsonUtils.FirstNonNumber | jsonutils.py:176-177 | the elements before the position found are numbers, and the one at it is not |
| JsonUtils.ColorConversion | jsonutils.py:174-180 | a non-list comes back unchanged without error. For a list, TypeError is raised exactly when some element is not a number. The elements before the first non-number are divided by 255 and the rest are untouched. A list of three numbers gains a fourth element 1; every other list keeps its length |
| JsonUtils.ConvertToColor | jsonutils.py:174-180 | the in-place index loop and the append leave the list as the conversion describes and raise when it says so |
| JsonUtils.ColorOfTriple | jsonutils.py:174-180 | [255, 128, 0] becomes [1.0, 128/255, 0.0, 1] |
| JsonUtils.ColorOfQuadruple | jsonutils.py:174-180 | [255, 128, 0, 128] becomes [1.0, 128/255, 0.0, 128/255], with no alpha appended |
| JsonUtils.ColorTwice | jsonutils.py:174-180 | converting a converted triple divides every element again, the alpha included, and appends no second alpha |
| JsonUtils.ShaderVarColor | jsonutils.py:182-189 | for a truthy entry where the variable is found, the entry afterwards holds the converted list at that place, and every unrelated path is unchanged. The result is that list, or None if the conversion raised. Otherwise the entry is unchanged and the result is None |
| JsonUtils.MaterialEntry.GetShaderVarColor | jsonutils.py:182-189 | the shared entry is changed in place as described above, and the same result is returned |
| JsonUtils.ShaderVarColorTwice | jsonutils.py:182-189 | a second call on the same entry divides the colour again (x/255/255, alpha 1/255), so the call is not idempotent. It appends no second alpha |
| JsonUtils.ColorPartialChange | jsonutils.py:182-189 | for [255, x, 0] with x not a number, the call returns None but leaves [1.0, x, 0] in the entry |

## Left out

- `read_json` (jsonutils.py:23-41) is not modelled. It only builds the
  sibling path, does file I/O (skipping a 3-byte byte-order mark) and calls
  `json.loads`. None of that is logic that can be stated here.
- The `utils.log_info` / `utils.log_warn` calls only produce output. They
  change no result, so the model leaves them out.
- Floating point. Division by 255.0 and by 100.0 is exact `real` division,
  with no IEEE rounding and no overflow. JSON ints and floats are both
  `JNum`, so the `1` appended by `convert_to_color` is the number 1.
- `str.lower()` is modelled for ASCII letters only. Full Unicode case mapping
  is not modelled.
- The Blender object and material are modelled by their `name` string
  alone. An argument without a `name` attribute raises inside the `try`;
  that case returns None in the source and does not arise in the model.
- Duplicate keys: `json.loads` keeps the last value of a repeated key, and
  a Python dict has no repeated keys. `Get` takes the first member with a
  key, so it agrees with the source only for documents without repeated
  keys, which is every document `json.loads` produces.
- Aliasing inside the document is not modelled. A parsed document shares
  no lists, so one list changed in place shows up at one path only.
