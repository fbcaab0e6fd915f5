/** The read-only accessors over a character-description document: chained
    lookups that yield None instead of raising, the first-match name search
    over meshes and materials, the shader-name and texture fallbacks, the
    `"<namespace>/<name>"` variable dispatch, and the one in-place change,
    the normalisation of a colour list. */
module JsonUtils {
  import opened JsonValue
  import opened Text

  // ---------------------------------------------------------------------
  // Character entries
  // ---------------------------------------------------------------------

  /** `character_json[file_name]["Object"][character_id]["Generation"]`. */
  function GetCharacterGenerationJson(characterJson: Json, fileName: string, characterId: string): (r: Option<Json>)
    ensures r.Some? ==> characterJson.JObj? && fileName in Keys(characterJson.fields)
    ensures Falsy(characterJson) ==> r.None?
  {
    Path(characterJson, [fileName, "Object", characterId, "Generation"])
  }

  /** `json_data[file_name]["Object"]`, after the falsy guard. */
  function GetCharacterRootJson(jsonData: Json, fileName: string): (r: Option<Json>)
    ensures Falsy(jsonData) ==> r.None?
    ensures r.Some? ==> jsonData.JObj? && fileName in Keys(jsonData.fields)
  {
    if Falsy(jsonData) then None else Path(jsonData, [fileName, "Object"])
  }

  /** `json_data[file_name]["Object"][character_id]`, after the falsy guard. */
  function GetCharacterJson(jsonData: Json, fileName: string, characterId: string): (r: Option<Json>)
    ensures Falsy(jsonData) ==> r.None?
    ensures r.Some? ==> jsonData.JObj? && fileName in Keys(jsonData.fields)
  {
    if Falsy(jsonData) then None else Path(jsonData, [fileName, "Object", characterId])
  }

  /** A character entry is the entry named `characterId` inside the character root. */
  lemma CharacterBelowRoot(jsonData: Json, fileName: string, characterId: string)
    ensures GetCharacterJson(jsonData, fileName, characterId)
         == Then(GetCharacterRootJson(jsonData, fileName), [characterId])
  {
    PathAppend(jsonData, [fileName, "Object"], [characterId]);
    assert [fileName, "Object"] + [characterId] == [fileName, "Object", characterId];
  }

  /** The generation tag is the `"Generation"` member of the character entry.
      The generation accessor has no falsy guard, and needs none: a falsy
      value holds no keys, so the lookup fails there all the same. */
  lemma GenerationBelowCharacter(jsonData: Json, fileName: string, characterId: string)
    ensures GetCharacterGenerationJson(jsonData, fileName, characterId)
         == Then(GetCharacterJson(jsonData, fileName, characterId), ["Generation"])
  {
    PathAppend(jsonData, [fileName, "Object", characterId], ["Generation"]);
    assert [fileName, "Object", characterId] + ["Generation"]
        == [fileName, "Object", characterId, "Generation"];
  }

  // ---------------------------------------------------------------------
  // Case-insensitive first-match search by name
  // ---------------------------------------------------------------------

  /** `key.lower() in name.lower()`: the key, lowered, is a substring of the lowered name. */
  predicate NameMatches(key: string, name: string): (r: bool)
    ensures r <==> exists i: nat :: OccursAt(Lower(key), Lower(name), i)
  {
    Contains(Lower(name), Lower(key))
  }

  /** The position of the first member whose key matches `name`, or `|fs|`. */
  function MatchIndex(fs: seq<(string, Json)>, name: string): (i: nat)
    ensures i <= |fs|
    ensures forall j :: 0 <= j < i ==> !NameMatches(fs[j].0, name)
    ensures i < |fs| ==> NameMatches(fs[i].0, name)
  {
    if fs == [] then 0
    else if NameMatches(fs[0].0, name) then 0
    else 1 + MatchIndex(fs[1..], name)
  }

  /** The first matching member of a mapping is also the first member with
      its key, so the search result is what `table[key]` gives. */
  lemma MatchedKeyLookup(fs: seq<(string, Json)>, name: string)
    requires MatchIndex(fs, name) < |fs|
    ensures Get(JObj(fs), fs[MatchIndex(fs, name)].0) == Some(fs[MatchIndex(fs, name)].1)
  {
    var i := MatchIndex(fs, name);
    assert FindKey(fs, fs[i].0) == i;
  }

  /** What the loop over `table.keys()` returns: the entry of the first key,
      in key order, that matches `name`; None when the table is missing,
      is not a mapping (`.keys()` raises), or no key matches. */
  function FirstMatchIn(table: Option<Json>, name: string): (r: Option<Json>)
    ensures r.Some? <==> table.Some? && table.value.JObj?
                         && MatchIndex(table.value.fields, name) < |table.value.fields|
    ensures r.Some? ==>
      var key := table.value.fields[MatchIndex(table.value.fields, name)].0;
      NameMatches(key, name) && r == Get(table.value, key)
  {
    match table
    case Some(JObj(fs)) =>
      var i := MatchIndex(fs, name);
      if i < |fs| then
        MatchedKeyLookup(fs, name);
        Some(fs[i].1)
      else None
    case _ => None
  }

  /** The `for ... in table.keys()` loop with its early return. */
  method SearchByName(table: Option<Json>, name: string) returns (r: Option<Json>)
    ensures r == FirstMatchIn(table, name)
  {
    if table.None? || !table.value.JObj? {
      return None;
    }
    var fs := table.value.fields;
    var lowered := Lower(name);
    var i := 0;
    while i < |fs|
      invariant 0 <= i <= |fs|
      invariant forall j :: 0 <= j < i ==> !NameMatches(fs[j].0, name)
    {
      if Contains(lowered, Lower(fs[i].0)) {
        return Some(fs[i].1);
      }
      i := i + 1;
    }
    return None;
  }

  /** `get_object_json`: the entry in `"Meshes"` whose key matches the object's name. */
  method GetObjectJson(characterJson: Json, objName: string) returns (r: Option<Json>)
    ensures Falsy(characterJson) ==> r.None?
    ensures !Falsy(characterJson) ==> r == FirstMatchIn(Get(characterJson, "Meshes"), objName)
  {
    if Falsy(characterJson) {
      return None;
    }
    r := SearchByName(Get(characterJson, "Meshes"), objName);
  }

  /** `get_material_json`: the entry in `"Materials"` whose key matches the material's name. */
  method GetMaterialJson(objectJson: Json, materialName: string) returns (r: Option<Json>)
    ensures Falsy(objectJson) ==> r.None?
    ensures !Falsy(objectJson) ==> r == FirstMatchIn(Get(objectJson, "Materials"), materialName)
  {
    if Falsy(objectJson) {
      return None;
    }
    r := SearchByName(Get(objectJson, "Materials"), materialName);
  }

  /** A mesh keyed "Body" is found for an object named "CC_Base_Body_1". */
  lemma BodyMeshFound(body: Json, hair: Json)
    ensures FirstMatchIn(Some(JObj([("Body", body), ("Hair", hair)])), "CC_Base_Body_1") == Some(body)
  {
    var lowered := Lower("CC_Base_Body_1");
    assert lowered == "cc_base_body_1";
    assert Lower("Body") == "body";
    assert OccursAt("body", lowered, 8);
  }

  /** The search is order-dependent: a key that is a substring of a later,
      longer key wins whenever it comes first. */
  lemma FirstKeyWins(body: Json, bodyTop: Json)
    ensures FirstMatchIn(Some(JObj([("Body", body), ("BodyTop", bodyTop)])), "BodyTop") == Some(body)
  {
    assert Lower("BodyTop") == "bodytop";
    assert Lower("Body") == "body";
    assert OccursAt("body", "bodytop", 0);
  }

  // ---------------------------------------------------------------------
  // Shader name and textures
  // ---------------------------------------------------------------------

  /** `get_custom_shader`: the custom shader's name, else the material type,
      else the literal "Pbr"; it never fails. */
  function GetCustomShader(materialJson: Json): (r: Json)
    ensures Path(materialJson, ["Custom Shader", "Shader Name"]).Some? ==>
              Some(r) == Path(materialJson, ["Custom Shader", "Shader Name"])
    ensures (Path(materialJson, ["Custom Shader", "Shader Name"]).None? &&
             Get(materialJson, "Material Type").Some?) ==>
              Some(r) == Get(materialJson, "Material Type")
    ensures (Path(materialJson, ["Custom Shader", "Shader Name"]).None? &&
             Get(materialJson, "Material Type").None?) ==> r == JStr("Pbr")
  {
    match Path(materialJson, ["Custom Shader", "Shader Name"])
    case Some(name) => name
    case None =>
      match Get(materialJson, "Material Type")
      case Some(t) => t
      case None => JStr("Pbr")
  }

  /** Without either key, and in particular for a falsy entry, the shader is "Pbr". */
  lemma DefaultShader(materialJson: Json)
    requires Falsy(materialJson) ||
             (!materialJson.JObj? || ("Custom Shader" !in Keys(materialJson.fields) &&
                                      "Material Type" !in Keys(materialJson.fields)))
    ensures GetCustomShader(materialJson) == JStr("Pbr")
  {
  }

  /** `get_pbr_texture_info`: `["Textures"][texture_id]` after the falsy guard. */
  function GetPbrTextureInfo(materialJson: Json, textureId: string): (r: Option<Json>)
    ensures Falsy(materialJson) ==> r.None?
    ensures r.Some? ==> materialJson.JObj? && "Textures" in Keys(materialJson.fields)
  {
    if Falsy(materialJson) then None else Path(materialJson, ["Textures", textureId])
  }

  /** `get_shader_texture_info`: `["Custom Shader"]["Image"][texture_id]` after the falsy guard. */
  function GetShaderTextureInfo(materialJson: Json, textureId: string): (r: Option<Json>)
    ensures Falsy(materialJson) ==> r.None?
    ensures r.Some? ==> materialJson.JObj? && "Custom Shader" in Keys(materialJson.fields)
  {
    if Falsy(materialJson) then None else Path(materialJson, ["Custom Shader", "Image", textureId])
  }

  /** `get_texture_info`: the PBR texture unless that is None, then the
      custom-shader image. */
  function GetTextureInfo(materialJson: Json, textureId: string): (r: Option<Json>)
    ensures !IsPyNone(GetPbrTextureInfo(materialJson, textureId)) ==>
              r == GetPbrTextureInfo(materialJson, textureId)
    ensures IsPyNone(GetPbrTextureInfo(materialJson, textureId)) ==>
              r == GetShaderTextureInfo(materialJson, textureId)
    ensures IsPyNone(r) <==> IsPyNone(GetPbrTextureInfo(materialJson, textureId)) &&
                             IsPyNone(GetShaderTextureInfo(materialJson, textureId))
  {
    var pbr := GetPbrTextureInfo(materialJson, textureId);
    if IsPyNone(pbr) then GetShaderTextureInfo(materialJson, textureId) else pbr
  }

  /** A texture that is found came from one of the two places. */
  lemma TextureFromOnePlace(materialJson: Json, textureId: string)
    requires !IsPyNone(GetTextureInfo(materialJson, textureId))
    ensures GetTextureInfo(materialJson, textureId) == Path(materialJson, ["Textures", textureId]) ||
            GetTextureInfo(materialJson, textureId) == Path(materialJson, ["Custom Shader", "Image", textureId])
  {
  }

  // ---------------------------------------------------------------------
  // Material variables
  // ---------------------------------------------------------------------

  /** Python numbers among JSON values: int and float, and bool, which is an int. */
  predicate IsNumber(x: Json): (r: bool)
    ensures r <==> !(x.JNull? || x.JStr? || x.JArr? || x.JObj?)
  {
    x.JNum? || x.JBool?
  }

  /** The arithmetic value of a number (True is 1, False is 0). */
  function NumValue(x: Json): (r: real)
    requires IsNumber(x)
    ensures x.JNum? ==> r == x.n
    ensures x.JBool? ==> (r == 1.0 <==> x.b) && (r == 0.0 <==> !x.b)
    ensures r == 0.0 <==> Falsy(x)
  {
    match x
    case JNum(n) => n
    case JBool(b) => if b then 1.0 else 0.0
  }

  /** Python's `x / d` for a nonzero float `d`: a float for a number, a
      TypeError (None) for anything else. */
  function Divide(x: Json, d: real): (r: Option<Json>)
    requires d != 0.0
    ensures r.Some? <==> IsNumber(x)
    ensures r.Some? ==> r.value.JNum? && r.value.n * d == NumValue(x)
  {
    if IsNumber(x) then Some(JNum(NumValue(x) / d)) else None
  }

  /** `get_shader_var`: `["Custom Shader"]["Variable"][var_name]` after the falsy guard. */
  function GetShaderVar(materialJson: Json, varName: string): (r: Option<Json>)
    ensures Falsy(materialJson) ==> r.None?
    ensures r.Some? ==> materialJson.JObj? && "Custom Shader" in Keys(materialJson.fields)
  {
    if Falsy(materialJson) then None else Path(materialJson, ["Custom Shader", "Variable", varName])
  }

  /** `get_sss_var`: `["Subsurface Scatter"][var_name]` after the falsy guard. */
  function GetSssVar(materialJson: Json, varName: string): (r: Option<Json>)
    ensures Falsy(materialJson) ==> r.None?
    ensures r.Some? ==> materialJson.JObj? && "Subsurface Scatter" in Keys(materialJson.fields)
  {
    if Falsy(materialJson) then None else Path(materialJson, ["Subsurface Scatter", varName])
  }

  /** `get_material_var`: the top-level `[var_name]` after the falsy guard. */
  function GetMaterialVar(materialJson: Json, varName: string): (r: Option<Json>)
    ensures Falsy(materialJson) ==> r.None?
    ensures r.Some? ==> materialJson.JObj? && varName in Keys(materialJson.fields)
  {
    if Falsy(materialJson) then None else Get(materialJson, varName)
  }

  /** `get_pbr_var`: the texture's `"Strength"` divided by 100; None when a
      key is missing or the strength is not a number. */
  function GetPbrVar(materialJson: Json, varName: string): (r: Option<Json>)
    ensures Falsy(materialJson) ==> r.None?
    ensures r.Some? <==> !Falsy(materialJson) &&
                         Path(materialJson, ["Textures", varName, "Strength"]).Some? &&
                         IsNumber(Path(materialJson, ["Textures", varName, "Strength"]).value)
    ensures r.Some? ==> r.value.JNum? &&
                        r.value.n * 100.0 == NumValue(Path(materialJson, ["Textures", varName, "Strength"]).value)
  {
    if Falsy(materialJson) then None
    else
      match Path(materialJson, ["Textures", varName, "Strength"])
      case Some(strength) => Divide(strength, 100.0)
      case None => None
  }

  /** The outcome of `get_material_json_var`, whose unpacking of the split
      path is not guarded: a path without exactly one '/' raises ValueError. */
  datatype Outcome<T> = Returned(value: T) | UnpackError

  /** `get_material_json_var`: split the path at '/', then dispatch on the namespace. */
  function GetMaterialJsonVar(materialJson: Json, varPath: string): (r: Outcome<Option<Json>>)
    ensures r.UnpackError? <==> Count(varPath, '/') != 1
  {
    var parts := Split(varPath, '/');
    if |parts| != 2 then UnpackError
    else
      var varType, varName := parts[0], parts[1];
      if varType == "Custom" then Returned(GetShaderVar(materialJson, varName))
      else if varType == "SSS" then Returned(GetSssVar(materialJson, varName))
      else if varType == "Pbr" then Returned(GetPbrVar(materialJson, varName))
      else Returned(GetMaterialVar(materialJson, varName))
  }

  /** What `"<ns>/<name>"` dispatches to: "Custom" to the shader variable,
      "SSS" to the subsurface variable, "Pbr" to the texture strength, and
      every other namespace, "Base" included, to the top-level variable. */
  lemma MaterialVarDispatch(materialJson: Json, ns: string, name: string)
    requires '/' !in ns && '/' !in name
    ensures GetMaterialJsonVar(materialJson, ns + "/" + name) ==
      Returned(if ns == "Custom" then GetShaderVar(materialJson, name)
               else if ns == "SSS" then GetSssVar(materialJson, name)
               else if ns == "Pbr" then GetPbrVar(materialJson, name)
               else GetMaterialVar(materialJson, name))
  {
    assert Join([ns, name], '/') == ns + "/" + name;
    SplitJoin([ns, name], '/');
  }

  /** Every path that does not raise has that shape. */
  lemma AcceptedPathShape(varPath: string)
    requires Count(varPath, '/') == 1
    ensures var parts := Split(varPath, '/');
      |parts| == 2 && '/' !in parts[0] && '/' !in parts[1] &&
      varPath == parts[0] + "/" + parts[1]
  {
    var parts := Split(varPath, '/');
    assert parts[1..] == [parts[1]];
    assert Join(parts[1..], '/') == parts[1];
    assert Join(parts, '/') == parts[0] + ['/'] + Join(parts[1..], '/');
  }

  /** "Pbr/Roughness" on a Roughness texture of strength 50 gives 0.5. */
  lemma PbrStrengthExample(m: Json, ns: string, name: string)
    requires m == JObj([("Textures", JObj([("Roughness", JObj([("Strength", JNum(50.0))]))]))])
    requires ns == "Pbr" && name == "Roughness"
    ensures GetMaterialJsonVar(m, ns + "/" + name) == Returned(Some(JNum(0.5)))
  {
    assert Path(m, ["Textures", name, "Strength"]) == Some(JNum(50.0)) by {
      var strength := JObj([("Strength", JNum(50.0))]);
      var textures := JObj([("Roughness", strength)]);
      assert Get(m, "Textures") == Some(textures);
      assert Get(textures, name) == Some(strength);
      assert Path(strength, ["Strength"]) == Some(JNum(50.0));
    }
    MaterialVarDispatch(m, ns, name);
  }

  // ---------------------------------------------------------------------
  // Colours
  // ---------------------------------------------------------------------

  /** The length of the longest prefix made of numbers. */
  function FirstNonNumber(xs: seq<Json>): (k: nat)
    ensures k <= |xs|
    ensures forall i :: 0 <= i < k ==> IsNumber(xs[i])
    ensures k < |xs| ==> !IsNumber(xs[k])
  {
    if xs == [] then 0
    else if !IsNumber(xs[0]) then 0
    else 1 + FirstNonNumber(xs[1..])
  }

  /** The state of the value after `convert_to_color`, and whether it raised. */
  datatype Conversion = Conversion(after: Json, raised: bool)

  /** `convert_to_color` on a value. A list has each element divided by 255
      in order, until an element that is not a number raises TypeError and
      leaves the rest as it was; a list of three numbers then gets the alpha
      1 appended. Any other value is returned unchanged. */
  function ColorConversion(v: Json): (c: Conversion)
    ensures !v.JArr? ==> c == Conversion(v, false)
    ensures v.JArr? ==> c.after.JArr?
    ensures v.JArr? ==> (c.raised <==> exists i :: 0 <= i < |v.items| && !IsNumber(v.items[i]))
    ensures v.JArr? ==> |c.after.items| == |v.items| + (if !c.raised && |v.items| == 3 then 1 else 0)
    ensures v.JArr? ==> forall i :: 0 <= i < |v.items| ==>
              c.after.items[i] == (if i < FirstNonNumber(v.items) then Divide(v.items[i], 255.0).value
                                   else v.items[i])
    ensures v.JArr? && !c.raised && |v.items| == 3 ==> c.after.items[3] == JNum(1.0)
  {
    match v
    case JArr(xs) =>
      var k := FirstNonNumber(xs);
      var ys := seq(|xs|, i requires 0 <= i < |xs| =>
                      if i < k then Divide(xs[i], 255.0).value else xs[i]);
      if k < |xs| then Conversion(JArr(ys), true)
      else Conversion(JArr(if |xs| == 3 then ys + [JNum(1.0)] else ys), false)
    case _ => Conversion(v, false)
  }

  /** `convert_to_color` as the source runs it: an index loop dividing each
      element in place, then the alpha append. `after` is the list as the
      loop leaves it, also when an element raises. */
  method ConvertToColor(v: Json) returns (after: Json, raised: bool)
    ensures Conversion(after, raised) == ColorConversion(v)
  {
    if !v.JArr? {
      return v, false;
    }
    var xs := v.items;
    var i := 0;
    while i < |xs|
      invariant 0 <= i <= |xs| == |v.items|
      invariant forall j :: 0 <= j < i ==> IsNumber(v.items[j]) && xs[j] == Divide(v.items[j], 255.0).value
      invariant forall j :: i <= j < |xs| ==> xs[j] == v.items[j]
    {
      if !IsNumber(xs[i]) {
        return JArr(xs), true;
      }
      xs := xs[i := Divide(xs[i], 255.0).value];
      i := i + 1;
    }
    if |xs| == 3 {
      xs := xs + [JNum(1.0)];
    }
    return JArr(xs), false;
  }

  /** [255, 128, 0] becomes [1.0, 128/255, 0.0, 1]. */
  lemma ColorOfTriple()
    ensures ColorConversion(JArr([JNum(255.0), JNum(128.0), JNum(0.0)]))
         == Conversion(JArr([JNum(1.0), JNum(128.0 / 255.0), JNum(0.0), JNum(1.0)]), false)
  {
    var c := ColorConversion(JArr([JNum(255.0), JNum(128.0), JNum(0.0)]));
    assert c.after.items == [JNum(1.0), JNum(128.0 / 255.0), JNum(0.0), JNum(1.0)];
  }

  /** [255, 128, 0, 128] keeps its length: no alpha is appended. */
  lemma ColorOfQuadruple()
    ensures ColorConversion(JArr([JNum(255.0), JNum(128.0), JNum(0.0), JNum(128.0)]))
         == Conversion(JArr([JNum(1.0), JNum(128.0 / 255.0), JNum(0.0), JNum(128.0 / 255.0)]), false)
  {
    var c := ColorConversion(JArr([JNum(255.0), JNum(128.0), JNum(0.0), JNum(128.0)]));
    assert c.after.items == [JNum(1.0), JNum(128.0 / 255.0), JNum(0.0), JNum(128.0 / 255.0)];
  }

  /** Converting an already converted triple divides every element again,
      the alpha included, and appends no second alpha. */
  lemma ColorTwice(xs: seq<Json>)
    requires |xs| == 3 && forall i :: 0 <= i < 3 ==> IsNumber(xs[i])
    ensures var once := ColorConversion(JArr(xs));
            var twice := ColorConversion(once.after);
            !once.raised && !twice.raised &&
            twice.after == JArr([JNum(NumValue(xs[0]) / 255.0 / 255.0),
                                 JNum(NumValue(xs[1]) / 255.0 / 255.0),
                                 JNum(NumValue(xs[2]) / 255.0 / 255.0),
                                 JNum(1.0 / 255.0)])
  {
    var once := ColorConversion(JArr(xs));
    assert FirstNonNumber(xs) == 3;
    assert once.after.items == [JNum(NumValue(xs[0]) / 255.0), JNum(NumValue(xs[1]) / 255.0),
                                JNum(NumValue(xs[2]) / 255.0), JNum(1.0)];
    var twice := ColorConversion(once.after);
    assert FirstNonNumber(once.after.items) == 4;
    assert twice.after.items == [JNum(NumValue(xs[0]) / 255.0 / 255.0),
                                 JNum(NumValue(xs[1]) / 255.0 / 255.0),
                                 JNum(NumValue(xs[2]) / 255.0 / 255.0),
                                 JNum(1.0 / 255.0)];
  }

  /** The path of a custom-shader variable inside a material entry. */
  function ShaderVarPath(varName: string): seq<string>
  {
    ["Custom Shader", "Variable", varName]
  }

  /** The material entry after `get_shader_var_color`, and what it returns. */
  datatype ColorCall = ColorCall(entry: Json, result: Option<Json>)

  /** `get_shader_var_color`: the variable's list is converted where it lies
      in the entry, so the entry changes, also when the conversion raises
      (then None is returned); nothing changes when the lookup fails. */
  function ShaderVarColor(materialJson: Json, varName: string): (c: ColorCall)
    ensures Falsy(materialJson) || Path(materialJson, ShaderVarPath(varName)).None? ==>
              c == ColorCall(materialJson, None)
    ensures !Falsy(materialJson) && Path(materialJson, ShaderVarPath(varName)).Some? ==>
              var conv := ColorConversion(Path(materialJson, ShaderVarPath(varName)).value);
              Path(c.entry, ShaderVarPath(varName)) == Some(conv.after) &&
              c.result == (if conv.raised then None else Some(conv.after))
    ensures forall q :: Apart(ShaderVarPath(varName), q) ==>
              Path(c.entry, q) == Path(materialJson, q)
  {
    if Falsy(materialJson) then ColorCall(materialJson, None)
    else
      match Path(materialJson, ShaderVarPath(varName))
      case None => ColorCall(materialJson, None)
      case Some(v) =>
        var conv := ColorConversion(v);
        var entry := SetPath(materialJson, ShaderVarPath(varName), conv.after);
        SetPathReads(materialJson, ShaderVarPath(varName), conv.after);
        assert forall q :: Apart(ShaderVarPath(varName), q) ==>
                 Path(entry, q) == Path(materialJson, q) by {
          forall q | Apart(ShaderVarPath(varName), q)
            ensures Path(entry, q) == Path(materialJson, q)
          {
            SetPathElsewhere(materialJson, ShaderVarPath(varName), conv.after, q);
          }
        }
        ColorCall(entry, if conv.raised then None else Some(conv.after))
  }

  /** A material entry the caller holds a reference to; `get_shader_var_color`
      changes the list inside it, so the change is visible to every holder. */
  class MaterialEntry {
    var json: Json

    constructor (json: Json)
      ensures this.json == json
    {
      this.json := json;
    }

    /** `get_shader_var_color` on this entry. */
    method GetShaderVarColor(varName: string) returns (r: Option<Json>)
      modifies this
      ensures json == ShaderVarColor(old(json), varName).entry
      ensures r == ShaderVarColor(old(json), varName).result
    {
      if Falsy(json) {
        return None;
      }
      var found := Path(json, ShaderVarPath(varName));
      if found.None? {
        return None;
      }
      var after, raised := ConvertToColor(found.value);
      json := SetPath(json, ShaderVarPath(varName), after);
      r := if raised then None else Some(after);
    }
  }

  /** Two calls on the same entry divide the colour twice: the call is not
      idempotent, and the second call appends no second alpha. */
  lemma ShaderVarColorTwice(materialJson: Json, varName: string, xs: seq<Json>)
    requires Path(materialJson, ShaderVarPath(varName)) == Some(JArr(xs))
    requires |xs| == 3 && forall i :: 0 <= i < 3 ==> IsNumber(xs[i])
    ensures var once := ShaderVarColor(materialJson, varName);
            var twice := ShaderVarColor(once.entry, varName);
            var expected := JArr([JNum(NumValue(xs[0]) / 255.0 / 255.0),
                                  JNum(NumValue(xs[1]) / 255.0 / 255.0),
                                  JNum(NumValue(xs[2]) / 255.0 / 255.0),
                                  JNum(1.0 / 255.0)]);
            twice.result == Some(expected) &&
            Path(twice.entry, ShaderVarPath(varName)) == Some(expected) &&
            twice.entry != once.entry
  {
    var p := ShaderVarPath(varName);
    ResolvedIsTruthy(materialJson, p, JNull);
    ColorTwice(xs);
    var once := ShaderVarColor(materialJson, varName);
    var after1 := ColorConversion(JArr(xs)).after;
    ResolvedIsTruthy(materialJson, p, after1);
    assert once.entry == SetPath(materialJson, p, after1);
    assert Path(once.entry, p) == Some(after1);
    var twice := ShaderVarColor(once.entry, varName);
    assert after1.items[3] == JNum(1.0);
    assert twice.result.value.items[3] == JNum(1.0 / 255.0);
  }

  /** [255, x, 0] with `x` not a number raises at `x`, after the first
      element has been divided. */
  lemma ColorRaisesMidway(x: Json)
    requires !IsNumber(x)
    ensures ColorConversion(JArr([JNum(255.0), x, JNum(0.0)]))
         == Conversion(JArr([JNum(1.0), x, JNum(0.0)]), true)
  {
    var xs := [JNum(255.0), x, JNum(0.0)];
    assert FirstNonNumber(xs) == 1 by {
      assert IsNumber(xs[0]) && !IsNumber(xs[1]);
    }
    assert ColorConversion(JArr(xs)).after.items == [JNum(1.0), x, JNum(0.0)];
  }

  /** A list that raises midway is still changed in the entry, although
      None is returned: [255, x, 0] is left as [1.0, x, 0]. */
  lemma ColorPartialChange(materialJson: Json, varName: string, x: Json)
    requires !IsNumber(x)
    requires Path(materialJson, ShaderVarPath(varName)) == Some(JArr([JNum(255.0), x, JNum(0.0)]))
    ensures ShaderVarColor(materialJson, varName).result == None
    ensures Path(ShaderVarColor(materialJson, varName).entry, ShaderVarPath(varName))
         == Some(JArr([JNum(1.0), x, JNum(0.0)]))
  {
    ResolvedIsTruthy(materialJson, ShaderVarPath(varName), JNull);
    ColorRaisesMidway(x);
  }
}
