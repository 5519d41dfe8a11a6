/**
 * Reading an exported conversation file (packages/electron/src/renderer/src/utils/file.ts):
 * the `.antchat` name check, `parseAntFile` (defaults overlaid with the known keys
 * of the parsed JSON, then a structure check), and `isImageMIME`.
 *
 * The file picker and the file read are left out; the file name and the result of
 * `JSON.parse` on its text (`None` when it throws) are inputs. The default
 * structure `ANT_CHAT_STRUCTURE` is a parameter.
 */
module AntFile {
  import opened Wrappers
  import opened Json
  import opened Strings

  const WrongFormatMessage: string := "文件格式错误"
  const ParseFailedMessage: string := "antchat文件解析失败～"

  /** Why `parseAntFile` throws: `JSON.parse` failed, or the structure check did. */
  datatype ParseFailure = SyntaxError | InvalidStructure(message: string)

  /** `pick(parsed, keys)`: the listed keys the parsed value has; nothing from a non-object. */
  function Pick(parsed: Json, keys: set<string>): (r: map<string, Json>)
    ensures r.Keys <= keys
    ensures forall k :: k in r <==> parsed.JObj? && k in parsed.fields && k in keys
  {
    if parsed.JObj? then map k | k in parsed.fields && k in keys :: parsed.fields[k] else map[]
  }

  /** `Object.assign({}, defaults, picked)`: the later source wins. */
  function Assign(defaults: map<string, Json>, picked: map<string, Json>): map<string, Json> {
    defaults + picked
  }

  /** The structure check: type 'Ant Chat', version '1', conversations an array. */
  predicate ValidStructure(data: map<string, Json>) {
    "type" in data && data["type"] == JStr("Ant Chat") &&
    "version" in data && data["version"] == JStr("1") &&
    "conversations" in data && data["conversations"].JArr?
  }

  /** `parseAntFile(text)`, with `parsed` the outcome of `JSON.parse(text)`. */
  function ParseAntFile(parsed: Option<Json>, defaults: map<string, Json>): Result<map<string, Json>, ParseFailure> {
    if parsed.None? then Err(SyntaxError)
    else
      var data := Assign(defaults, Pick(parsed.value, defaults.Keys));
      if ValidStructure(data) then Ok(data) else Err(InvalidStructure(ParseFailedMessage))
  }

  /** `importAntChatFile` once the file is chosen and read. */
  function ImportAntChatFile(fileName: string, parsed: Option<Json>, defaults: map<string, Json>): Result<map<string, Json>, string> {
    if !EndsWith(fileName, ".antchat") then Err(WrongFormatMessage)
    else
      match ParseAntFile(parsed, defaults)
      case Ok(data) => Ok(data)
      case Err(_) => Err(ParseFailedMessage)
  }

  /** `isImageMIME`. */
  predicate IsImageMime(mime: string) {
    StartsWith(mime, "image/")
  }

  // ---- properties ----

  /**
   * The parsed record has exactly the keys of the default structure: a key the
   * file has overrides the default, a key the file lacks keeps it, and a key the
   * defaults do not know is dropped.
   */
  lemma ParsedKeysAreDefaultKeys(parsed: Option<Json>, defaults: map<string, Json>)
    requires ParseAntFile(parsed, defaults).Ok?
    ensures var data := ParseAntFile(parsed, defaults).value;
      data.Keys == defaults.Keys &&
      forall k :: k in defaults ==>
        data[k] == (if parsed.value.JObj? && k in parsed.value.fields then parsed.value.fields[k] else defaults[k])
  {
  }

  /** The file is accepted exactly when JSON parsing succeeds and the merged record passes the check. */
  lemma ParseAcceptsExactly(parsed: Option<Json>, defaults: map<string, Json>)
    ensures ParseAntFile(parsed, defaults).Ok? <==>
      parsed.Some? && ValidStructure(Assign(defaults, Pick(parsed.value, defaults.Keys)))
  {
  }

  /**
   * A file that sets all three checked keys correctly is accepted whatever the
   * defaults hold, provided the defaults list those keys.
   */
  lemma WellFormedFileAccepted(fields: map<string, Json>, defaults: map<string, Json>)
    requires "type" in defaults && "version" in defaults && "conversations" in defaults
    requires "type" in fields && fields["type"] == JStr("Ant Chat")
    requires "version" in fields && fields["version"] == JStr("1")
    requires "conversations" in fields && fields["conversations"].JArr?
    ensures ParseAntFile(Some(JObj(fields)), defaults).Ok?
  {
  }

  /** A file that is not a JSON object only ever yields the defaults, so it passes only if they do. */
  lemma NonObjectYieldsDefaults(parsed: Json, defaults: map<string, Json>)
    requires !parsed.JObj?
    ensures ParseAntFile(Some(parsed), defaults).Ok? <==> ValidStructure(defaults)
    ensures ParseAntFile(Some(parsed), defaults).Ok? ==> ParseAntFile(Some(parsed), defaults).value == defaults
  {
    assert Assign(defaults, Pick(parsed, defaults.Keys)) == defaults;
  }

  /** A name not ending in `.antchat` is refused before the content is looked at. */
  lemma ImportChecksName(fileName: string, parsed: Option<Json>, defaults: map<string, Json>)
    requires !EndsWith(fileName, ".antchat")
    ensures ImportAntChatFile(fileName, parsed, defaults) == Err(WrongFormatMessage)
  {
  }

  /** Every parse failure, syntax or structure, is reported as the one same error; success passes through. */
  lemma ImportUniformFailure(fileName: string, parsed: Option<Json>, defaults: map<string, Json>)
    requires EndsWith(fileName, ".antchat")
    ensures ParseAntFile(parsed, defaults).Err? ==> ImportAntChatFile(fileName, parsed, defaults) == Err(ParseFailedMessage)
    ensures ParseAntFile(parsed, defaults).Ok? ==>
      ImportAntChatFile(fileName, parsed, defaults) == Ok(ParseAntFile(parsed, defaults).value)
  {
  }

  /** `isImageMIME` is a case-sensitive prefix test on the type. */
  lemma ImageMimeExamples()
    ensures IsImageMime("image/png") && IsImageMime("image/")
    ensures !IsImageMime("IMAGE/PNG") && !IsImageMime("application/pdf") && !IsImageMime("image")
  {
    assert "IMAGE/PNG"[..6] != "image/" by {
      assert "IMAGE/PNG"[0] != "image/"[0];
    }
    assert "application/pdf"[..6] != "image/" by {
      assert "application/pdf"[0] != "image/"[0];
    }
  }

  /** Any MIME type of the `image/` family is an image type, whatever its subtype. */
  lemma ImageMimeFamily(subtype: string)
    ensures IsImageMime("image/" + subtype)
  {
    assert ("image/" + subtype)[..6] == "image/";
  }
}
