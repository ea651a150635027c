/**
 * The requests of the voice-management calls: the multipart form of `create`, and
 * the routes, query parameters and JSON bodies of `get`, `update` and `delete`.
 * Sending them is not modelled; each operation yields the request it would send.
 */
module Voices {
  import opened Values

  const ROUTE := "voices/"
  const AUDIO_FIELD := "audio_file"
  /** The default of `create`'s `start_s` argument. */
  const DEFAULT_START_S: real := 0.0

  /** One part of an `aiohttp.FormData`: the uploaded file, or a named text value. */
  datatype FormField =
    | FileField(name: string, filename: string, contentType: string)
    | TextField(name: string, value: string)

  /** The HTTP requests the voice calls make. */
  datatype Request =
    | GetVoices(route: string, params: Dict)
    | PutVoice(route: string, json: Dict)
    | DeleteVoice(route: string)
    | PostForm(route: string, form: seq<FormField>)

  /** `aiohttp.FormData`, filled one field at a time. */
  class FormData {
    var fields: seq<FormField>

    constructor ()
      ensures fields == []
    {
      fields := [];
    }

    method AddField(f: FormField)
      modifies this
      ensures fields == old(fields) + [f]
    {
      fields := fields + [f];
    }
  }

  // ---------------------------------------------------------------- paths

  /** `str.rfind`: the last position of `c`, or -1. */
  function RFind(s: string, c: char): (i: int)
    ensures -1 <= i < |s|
    ensures i >= 0 ==> s[i] == c
    ensures forall j :: i < j < |s| ==> s[j] != c
  {
    if s == [] then -1
    else if s[|s| - 1] == c then |s| - 1
    else RFind(s[..|s| - 1], c)
  }

  /** `Path.name`: the part after the last "/". */
  function BaseName(path: string): (name: string)
    ensures forall k :: 0 <= k < |name| ==> name[k] != '/'
    ensures EndsWith(path, name)
    ensures |name| == |path| || path[|path| - |name| - 1] == '/'
  {
    var i := RFind(path, '/');
    path[i + 1..]
  }

  /** `Path.suffix`: from the last "." of the name, unless that dot is its first or last character. */
  function Suffix(name: string): (s: string)
    ensures s == [] || (s[0] == '.' && '.' !in s[1..] && |s| >= 2 && EndsWith(name, s) && |s| < |name|)
    ensures s != [] <==> 0 < RFind(name, '.') < |name| - 1
  {
    var i := RFind(name, '.');
    if 0 < i < |name| - 1 then
      assert forall j :: 1 <= j < |name[i..]| ==> name[i..][j] == name[i + j];
      name[i..]
    else []
  }

  /** `str.strip(".")`: drops the dots at both ends, and nothing else. */
  function StripDots(s: string): (r: string)
    ensures |r| <= |s|
    ensures r != [] ==> r[0] != '.' && r[|r| - 1] != '.'
    ensures var i := |s| - |StripLeading(s)|;
      i + |r| <= |s| && r == s[i..i + |r|] &&
      (forall k :: 0 <= k < i ==> s[k] == '.') && (forall k :: i + |r| <= k < |s| ==> s[k] == '.')
  {
    var lead := StripLeading(s);
    var r := StripTrailing(lead);
    assert lead == s[|s| - |lead|..];
    assert r == lead[..|r|];
    r
  }

  function StripLeading(s: string): (r: string)
    ensures |r| <= |s| && (r != [] ==> r[0] != '.') && EndsWith(s, r)
    ensures forall k :: 0 <= k < |s| - |r| ==> s[k] == '.'
  {
    if s != [] && s[0] == '.' then StripLeading(s[1..]) else s
  }

  function StripTrailing(s: string): (r: string)
    ensures |r| <= |s| && (r != [] ==> r[|r| - 1] != '.') && StartsWith(s, r)
    ensures forall k :: |r| <= k < |s| ==> s[k] == '.'
  {
    if s != [] && s[|s| - 1] == '.' then StripTrailing(s[..|s| - 1]) else s
  }

  /** Stripping a suffix removes just its leading dot. */
  lemma StripSuffix(name: string)
    requires Suffix(name) != []
    ensures StripDots(Suffix(name)) == Suffix(name)[1..]
  {
    var s := Suffix(name);
    assert s[1..] != [] && s[1..][0] != '.' && s[1..][|s[1..]| - 1] != '.' by {
      assert s[1..][0] in s[1..];
      assert s[1..][|s[1..]| - 1] in s[1..];
    }
    assert StripLeading(s) == StripLeading(s[1..]);
  }

  // ---------------------------------------------------------------- create

  /** The format `create` sends: the given one when it is a non-empty string, else the file suffix without its dot. */
  function UploadFormat(path: string, inputFormat: Option<string>): (f: string)
    ensures inputFormat.Some? && inputFormat.value != "" ==> f == inputFormat.value
    ensures (inputFormat.None? || inputFormat.value == "") && Suffix(BaseName(path)) != [] ==> f == Suffix(BaseName(path))[1..]
    ensures (inputFormat.None? || inputFormat.value == "") && Suffix(BaseName(path)) == [] ==> f == ""
  {
    if inputFormat.Some? && inputFormat.value != "" then inputFormat.value
    else
      var suffix := Suffix(BaseName(path));
      assert suffix != [] ==> StripDots(suffix) == suffix[1..] by {
        if suffix != [] { StripSuffix(BaseName(path)); }
      }
      StripDots(suffix)
  }

  /** The text fields `create` offers, in order; None ones are skipped. */
  function CreateEntries(path: string, name: Option<string>, description: Option<string>, startS: Option<real>,
                         inputFormat: Option<string>, lib: Lib): seq<(string, Option<string>)>
  {
    [("name", Some(if name.Some? then name.value else BaseName(path))),
     ("start_s", if startS.Some? then Some(lib.floatRepr(startS.value)) else None),
     ("description", description),
     ("input_format", Some(UploadFormat(path, inputFormat)))]
  }

  /** The entries that have a value, as text fields, in order. */
  function PresentFields(entries: seq<(string, Option<string>)>): (fs: seq<FormField>)
    ensures |fs| <= |entries|
    ensures forall i :: 0 <= i < |fs| ==> fs[i].TextField?
  {
    if entries == [] then [] else FieldOf(entries[0]) + PresentFields(entries[1..])
  }

  function FieldOf(entry: (string, Option<string>)): seq<FormField>
  {
    if entry.1.Some? then [TextField(entry.0, entry.1.value)] else []
  }

  /** The fields of a run of entries are those of each part in turn. */
  lemma {:induction false} PresentFieldsAppend(a: seq<(string, Option<string>)>, b: seq<(string, Option<string>)>)
    ensures PresentFields(a + b) == PresentFields(a) + PresentFields(b)
  {
    if a == [] {
      assert a + b == b;
    } else {
      assert (a + b)[0] == a[0];
      assert (a + b)[1..] == a[1..] + b;
      PresentFieldsAppend(a[1..], b);
    }
  }

  /** An entry with a value gives one text field of that name and value; an entry without gives none. */
  lemma PresentFieldsOfOne(key: string, value: Option<string>)
    ensures value.Some? ==> PresentFields([(key, value)]) == [TextField(key, value.value)]
    ensures value.None? ==> PresentFields([(key, value)]) == []
  {
    assert [(key, value)][1..] == [];
  }

  /** The field-adding loop of `create`. */
  method AddPresentFields(form: FormData, entries: seq<(string, Option<string>)>)
    modifies form
    ensures form.fields == old(form.fields) + PresentFields(entries)
  {
    var i := 0;
    while i < |entries|
      invariant 0 <= i <= |entries|
      invariant old(form.fields) + PresentFields(entries) == form.fields + PresentFields(entries[i..])
    {
      assert entries[i..][1..] == entries[i + 1..];
      var (key, value) := entries[i];
      if value.Some? {
        form.AddField(TextField(key, value.value));
      }
      i := i + 1;
    }
    assert entries[i..] == [];
  }

  /**
   * `create`: the form holds the file first, as `audio/<format>` under its file
   * name, then the name (defaulting to the file name), the start time unless it is
   * None (its default `DEFAULT_START_S` is sent), the description unless it is None,
   * and the format, all as strings.
   */
  method Create(path: string, name: Option<string>, description: Option<string>, startS: Option<real>,
                inputFormat: Option<string>, lib: Lib) returns (request: Request)
    ensures request.PostForm? && request.route == ROUTE
    ensures request.form == [FileField(AUDIO_FIELD, BaseName(path), "audio/" + UploadFormat(path, inputFormat))] +
      PresentFields(CreateEntries(path, name, description, startS, inputFormat, lib))
  {
    var file := FileField(AUDIO_FIELD, BaseName(path), "audio/" + UploadFormat(path, inputFormat));
    var entries := CreateEntries(path, name, description, startS, inputFormat, lib);
    var form := new FormData();
    form.AddField(file);
    assert form.fields == [file];
    AddPresentFields(form, entries);
    request := PostForm(ROUTE, form.fields);
  }

  /** The text fields `create` sends: name and format always, start time and description unless None. */
  lemma CreateFieldNames(path: string, name: Option<string>, description: Option<string>, startS: Option<real>,
                         inputFormat: Option<string>, lib: Lib)
    ensures var fs := PresentFields(CreateEntries(path, name, description, startS, inputFormat, lib));
      fs == [TextField("name", if name.Some? then name.value else BaseName(path))] +
            (if startS.Some? then [TextField("start_s", lib.floatRepr(startS.value))] else []) +
            (if description.Some? then [TextField("description", description.value)] else []) +
            [TextField("input_format", UploadFormat(path, inputFormat))]
  {
    var e := CreateEntries(path, name, description, startS, inputFormat, lib);
    PresentFieldsOfFour(e[0], e[1], e[2], e[3]);
    assert e == [e[0], e[1], e[2], e[3]];
  }

  /** A call that leaves `start_s` at its default still sends it, as the text of 0.0. */
  lemma CreateSendsDefaultStart(path: string, name: Option<string>, description: Option<string>,
                                inputFormat: Option<string>, lib: Lib)
    ensures TextField("start_s", lib.floatRepr(DEFAULT_START_S)) in
      PresentFields(CreateEntries(path, name, description, Some(DEFAULT_START_S), inputFormat, lib))
  {
    CreateFieldNames(path, name, description, Some(DEFAULT_START_S), inputFormat, lib);
  }

  lemma PresentFieldsOfFour(a: (string, Option<string>), b: (string, Option<string>),
                            c: (string, Option<string>), d: (string, Option<string>))
    ensures PresentFields([a, b, c, d]) == FieldOf(a) + FieldOf(b) + FieldOf(c) + FieldOf(d)
  {
    assert [d][1..] == [];
    assert PresentFields([d]) == FieldOf(d);
    assert [c, d][1..] == [d];
    assert PresentFields([c, d]) == FieldOf(c) + FieldOf(d);
    assert [b, c, d][1..] == [c, d];
    assert PresentFields([b, c, d]) == FieldOf(b) + (FieldOf(c) + FieldOf(d));
    assert [a, b, c, d][1..] == [b, c, d];
    assert PresentFields([a, b, c, d]) == FieldOf(a) + (FieldOf(b) + (FieldOf(c) + FieldOf(d)));
  }

  // ---------------------------------------------------------------- get, update, delete

  /** `get`: the voice's route, or the collection route without a uid; no limit, the catalog as 0 or 1. */
  function GetRequest(uid: Option<string>, includeCatalog: bool): (r: Request)
    ensures r.GetVoices? && StartsWith(r.route, ROUTE)
    ensures r.route[|ROUTE|..] == if uid.Some? then uid.value else ""
    ensures r.params.Keys == {"limit", "include_catalog"} && r.params["limit"] == Int(0)
    ensures r.params["include_catalog"] == Int(if includeCatalog then 1 else 0)
  {
    GetVoices(ROUTE + (if uid.Some? then uid.value else ""),
              map["limit" := Int(0), "include_catalog" := Int(if includeCatalog then 1 else 0)])
  }

  /** `update`: a PUT of exactly the fields that are not None, or no request at all when all are None. */
  function UpdateRequest(uid: string, name: Option<string>, description: Option<string>, startS: Option<real>)
    : (r: Option<Request>)
    ensures r.None? <==> name.None? && description.None? && startS.None?
    ensures r.Some? ==> r.value.PutVoice? && StartsWith(r.value.route, ROUTE) && r.value.route[|ROUTE|..] == uid
    ensures r.Some? ==> ("name" in r.value.json <==> name.Some?) &&
                        ("description" in r.value.json <==> description.Some?) &&
                        ("start_s" in r.value.json <==> startS.Some?) &&
                        r.value.json.Keys <= {"name", "description", "start_s"}
    ensures r.Some? && name.Some? ==> r.value.json["name"] == Str(name.value)
    ensures r.Some? && description.Some? ==> r.value.json["description"] == Str(description.value)
    ensures r.Some? && startS.Some? ==> r.value.json["start_s"] == Float(startS.value)
  {
    var data := map["name" := OptStr(name), "description" := OptStr(description),
                    "start_s" := if startS.Some? then Float(startS.value) else Null];
    var present := map k | k in data && data[k] != Null :: data[k];
    assert present.Keys <= data.Keys;
    assert "name" in present <==> name.Some?;
    assert "description" in present <==> description.Some?;
    assert "start_s" in present <==> startS.Some?;
    if present == map[] then None
    else Some(PutVoice(ROUTE + uid, present))
  }

  function OptStr(s: Option<string>): Value
  {
    if s.Some? then Str(s.value) else Null
  }

  /** `delete`: the voice's route. */
  function DeleteRequest(uid: string): (r: Request)
    ensures r.DeleteVoice? && StartsWith(r.route, ROUTE) && r.route[|ROUTE|..] == uid
  {
    DeleteVoice(ROUTE + uid)
  }
}
