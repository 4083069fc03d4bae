/** The store branding endpoint: POST takes a multipart form with the store
    id, an optional brand colour and an optional logo file, uploads the logo
    under a path derived from the store id and the file's extension, and
    writes whatever was supplied into the store record; GET reads the logo URL
    and brand colour back. */
module StoreBranding {
  import opened Values
  import opened Http

  // ---------------------------------------------------------------------
  // The parsed form
  // ---------------------------------------------------------------------

  /** A multipart field as the form parser delivers it: absent, one string,
      or a list of strings. */
  datatype FormField = Absent | Text(s: string) | Texts(values: seq<string>)

  /** The uploaded logo: where the parser stored it and the client's file name. */
  datatype LogoFile = LogoFile(filepath: Value, originalFilename: Value)

  /** `files.logo`: absent, one file, or a list of files. */
  datatype LogoField = NoLogo | OneLogo(file: LogoFile) | LogoList(files: seq<LogoFile>)

  /** The outcome of parsing the request body. */
  datatype Form = ParseFailure | Parsed(fields: map<string, FormField>, logo: LogoField)

  datatype BrandingBody =
    | Error(error: string)
    | Saved(logoUrl: Value, brandColor: Value)
    | Branding(data: Value)

  function FormFieldOf(fields: map<string, FormField>, k: string): FormField {
    if k in fields then fields[k] else Absent
  }

  function StoreIdOf(fields: map<string, FormField>): FormField {
    FormFieldOf(fields, "storeId")
  }

  function BrandColorOf(fields: map<string, FormField>): FormField {
    FormFieldOf(fields, "brandColor")
  }

  /** The field as a JavaScript value (a list of strings is an array). */
  function FieldValue(f: FormField): (v: Value)
    ensures Truthy(v) <==> (f.Text? && f.s != "") || f.Texts?
  {
    match f
    case Absent => Undefined
    case Text(s) => Str(s)
    case Texts(vs) => Arr(seq(|vs|, i requires 0 <= i < |vs| => Str(vs[i])))
  }

  /** `[a, b, c].join(',')`. */
  function Join(vs: seq<string>): (s: string)
    ensures |vs| == 1 ==> s == vs[0]
    ensures vs == [] ==> s == ""
    // Several values always leave at least a comma, so the text is empty
    // only for no value or a single empty one.
    ensures s == "" <==> vs == [] || vs == [""]
  {
    if |vs| == 0 then ""
    else if |vs| == 1 then vs[0]
    else Join(vs[..|vs| - 1]) + "," + vs[|vs| - 1]
  }

  /** `typeof storeId === 'string' ? storeId : String(storeId ?? '')`. */
  function FieldText(f: FormField): string {
    match f
    case Absent => ""
    case Text(s) => s
    case Texts(vs) => Join(vs)
  }

  /** `Array.isArray(files.logo) ? files.logo[0] : files.logo`, kept only when
      it exists and has a truthy `filepath`. */
  function SelectedLogo(logo: LogoField): (file: Option<LogoFile>)
    ensures file.Some? ==> Truthy(file.value.filepath)
    ensures logo.NoLogo? ==> file.None?
    ensures logo.OneLogo? ==> file == (if Truthy(logo.file.filepath) then Some(logo.file) else None)
    ensures logo.LogoList? && logo.files == [] ==> file.None?
    ensures logo.LogoList? && logo.files != [] ==>
      file == (if Truthy(logo.files[0].filepath) then Some(logo.files[0]) else None)
  {
    match logo
    case NoLogo => None
    case OneLogo(f) => if Truthy(f.filepath) then Some(f) else None
    case LogoList(fs) => if |fs| > 0 && Truthy(fs[0].filepath) then Some(fs[0]) else None
  }

  // ---------------------------------------------------------------------
  // File name checks and the storage path
  // ---------------------------------------------------------------------

  /** A usable original file name: present, a string, and containing a dot. */
  predicate ValidFileName(name: Value) {
    Truthy(name) && name.Str? && '.' in name.s
  }

  /** `name.split('.').pop()`: the text after the last dot, or the whole
      name when there is no dot. */
  function FileExtension(name: string): (ext: string)
    ensures '.' !in ext
    ensures |ext| <= |name|
    ensures '.' in name ==> |ext| < |name|
  {
    if name == [] then ""
    else if name[|name| - 1] == '.' then ""
    else FileExtension(name[..|name| - 1]) + [name[|name| - 1]]
  }

  /** The extension is a suffix of the name, and when shorter than the name
      it is preceded by a dot: with `'.' !in ext`, it is the longest dot-free
      suffix, the segment after the last dot. */
  lemma {:induction false} FileExtensionIsLastSegment(name: string)
    ensures var ext := FileExtension(name);
      && ext == name[|name| - |ext|..]
      && (|ext| < |name| ==> name[|name| - |ext| - 1] == '.')
  {
    if name != [] && name[|name| - 1] != '.' {
      var stem := name[..|name| - 1];
      FileExtensionIsLastSegment(stem);
      var ext := FileExtension(stem);
      assert name == stem + [name[|name| - 1]];
      assert name[|name| - |ext| - 1..] == stem[|stem| - |ext|..] + [name[|name| - 1]];
    }
  }

  const LogoFolder := "store-logos/"
  const DefaultExtension := "png"

  /** `store-logos/<storeId>.<ext>`, with `png` standing in for an empty
      extension. */
  function LogoPath(storeId: string, ext: string): (path: string)
    ensures |path| > |LogoFolder| + |storeId| + 1
    ensures path[..|LogoFolder|] == LogoFolder
  {
    LogoFolder + storeId + "." + (if ext != "" then ext else DefaultExtension)
  }

  /** The extension is split off exactly at the last dot: the name is what
      precedes the last dot, a dot, and the extension. */
  lemma ExtensionAfterLastDot(name: string)
    requires '.' in name
    ensures var ext := FileExtension(name);
      name == name[..|name| - |ext| - 1] + "." + ext
  {
    var ext := FileExtension(name);
    FileExtensionIsLastSegment(name);
    assert name == name[..|name| - |ext| - 1] + [name[|name| - |ext| - 1]] + name[|name| - |ext|..];
  }

  /** Distinct stores never share a logo path, whatever their extensions:
      an extension holds no dot, so the store id is everything between the
      folder and the path's last dot. */
  lemma LogoPathIdentifiesStore(a: string, b: string, extA: string, extB: string)
    requires '.' !in extA && '.' !in extB
    requires LogoPath(a, extA) == LogoPath(b, extB)
    ensures a == b
  {
    var ea := if extA != "" then extA else DefaultExtension;
    var eb := if extB != "" then extB else DefaultExtension;
    var p := LogoPath(a, extA);
    assert '.' !in ea && '.' !in eb;
    assert p == LogoFolder + a + "." + ea && p == LogoFolder + b + "." + eb;
    SameDotFreeSuffix(p, LogoFolder + a, LogoFolder + b, ea, eb);
    assert a == p[|LogoFolder|..|LogoFolder| + |a|];
    assert b == p[|LogoFolder|..|LogoFolder| + |b|];
  }

  /** Splitting a string at its last dot is unique. */
  lemma SameDotFreeSuffix(p: string, x: string, y: string, ex: string, ey: string)
    requires '.' !in ex && '.' !in ey
    requires p == x + "." + ex && p == y + "." + ey
    ensures |ex| == |ey| && |x| == |y|
  {
    assert p[|x|] == '.' && p[|y|] == '.';
  }

  /** A name ending in a dot gets the default extension. */
  lemma TrailingDotGetsPng(storeId: string, name: string)
    requires name != [] && name[|name| - 1] == '.'
    ensures LogoPath(storeId, FileExtension(name)) == LogoFolder + storeId + ".png"
  {
  }

  // ---------------------------------------------------------------------
  // The handler
  // ---------------------------------------------------------------------

  /** The store id, present in the form, that the store update filters by. */
  predicate HasStoreId(form: Form) {
    form.Parsed? && Truthy(FieldValue(StoreIdOf(form.fields)))
  }

  /** The form passes every check before the upload: a store id, a selected
      logo with a usable name, a non-empty store id text and a string file path. */
  predicate ReachesUpload(form: Form) {
    && HasStoreId(form)
    && SelectedLogo(form.logo).Some?
    && ValidFileName(SelectedLogo(form.logo).value.originalFilename)
    && FieldText(StoreIdOf(form.fields)) != ""
    && SelectedLogo(form.logo).value.filepath.Str?
  }

  /** The upload of the selected logo: to the `public` bucket, at the path
      derived from the store id and the file's extension, replacing any file
      already there. */
  function LogoUpload(form: Form): Effect
    requires ReachesUpload(form)
  {
    Upload("public", LogoPath(FieldText(StoreIdOf(form.fields)),
                             FileExtension(SelectedLogo(form.logo).value.originalFilename.s)), true)
  }

  /** The request gets as far as the store update: without a logo, or with a
      logo that was uploaded. */
  predicate ReachesUpdate(form: Form, upload: Outcome) {
    HasStoreId(form) && (SelectedLogo(form.logo).None? || (ReachesUpload(form) && upload.Ok?))
  }

  /** The POST branch. `upload` is what the storage upload reported,
      `publicUrl` the public URL the storage client derives for the path, and
      `update` what the store update reported. */
  method Post(form: Form, upload: Outcome, publicUrl: string, update: Outcome)
    returns (reply: Reply<BrandingBody>)
    // The checks, in order, each answering 400 with nothing written.
    ensures form.ParseFailure? ==> reply == Reply(400, Error("Error parsing form data"), [])
    ensures form.Parsed? && !HasStoreId(form) ==> reply == Reply(400, Error("Missing storeId"), [])
    ensures (&& HasStoreId(form) && SelectedLogo(form.logo).Some?
             && !ValidFileName(SelectedLogo(form.logo).value.originalFilename)) ==>
      reply == Reply(400, Error("Invalid file name"), [])
    ensures (&& HasStoreId(form) && SelectedLogo(form.logo).Some?
             && ValidFileName(SelectedLogo(form.logo).value.originalFilename)
             && FieldText(StoreIdOf(form.fields)) == "") ==>
      reply == Reply(400, Error("Invalid storeId"), [])
    ensures (&& HasStoreId(form) && SelectedLogo(form.logo).Some?
             && ValidFileName(SelectedLogo(form.logo).value.originalFilename)
             && FieldText(StoreIdOf(form.fields)) != ""
             && !SelectedLogo(form.logo).value.filepath.Str?) ==>
      reply == Reply(400, Error("Invalid file path"), [])
    // A logo that passes the checks is uploaded first; a failed upload
    // answers 500 and leaves the store record alone.
    ensures ReachesUpload(form) ==> reply.effects != [] && reply.effects[0] == LogoUpload(form)
    ensures ReachesUpload(form) && upload.Err? ==>
      reply == Reply(500, Error("Failed to upload logo"), [LogoUpload(form)])
    // Then the store record is updated: `logo_url` exactly when a logo was
    // uploaded (and its public URL is non-empty), `brand_color` exactly when
    // a colour was sent, nothing else, filtered by the store id.
    ensures ReachesUpdate(form, upload) ==>
      && |reply.effects| == (if SelectedLogo(form.logo).Some? then 2 else 1)
      && var u := reply.effects[|reply.effects| - 1];
         && u.Update? && u.table == "stores"
         && u.filter == map["id" := FieldValue(StoreIdOf(form.fields))]
         && u.changes.Keys <= {"logo_url", "brand_color"}
         && ("logo_url" in u.changes <==> SelectedLogo(form.logo).Some? && publicUrl != "")
         && ("logo_url" in u.changes ==> u.changes["logo_url"] == Str(publicUrl))
         && ("brand_color" in u.changes <==> Truthy(FieldValue(BrandColorOf(form.fields))))
         && ("brand_color" in u.changes ==> u.changes["brand_color"] == FieldValue(BrandColorOf(form.fields)))
    // A failed update answers 500; a successful one echoes what was saved,
    // with a null logo URL when no logo was sent.
    ensures ReachesUpdate(form, upload) && update.Err? ==>
      reply.status == 500 && reply.body == Error("Failed to update store branding")
    ensures ReachesUpdate(form, upload) && update.Ok? ==>
      && reply.status == 200
      && reply.body == Saved(if SelectedLogo(form.logo).Some? then Str(publicUrl) else Null,
                             FieldValue(BrandColorOf(form.fields)))
    ensures reply.status == 200 <==> ReachesUpdate(form, upload) && update.Ok?
    ensures reply.status in {200, 400, 500}
    ensures reply.status == 400 ==> reply.effects == []
    ensures forall e :: e in reply.effects ==> e.Upload? || e.Update?
  {
    if form.ParseFailure? {
      return Reply(400, Error("Error parsing form data"), []);
    }
    var storeId := StoreIdOf(form.fields);
    var brandColor := BrandColorOf(form.fields);
    if !Truthy(FieldValue(storeId)) {
      return Reply(400, Error("Missing storeId"), []);
    }
    var logoUrl := Null;
    var effects: seq<Effect> := [];
    var logoFile := SelectedLogo(form.logo);
    if logoFile.Some? {
      var name := logoFile.value.originalFilename;
      if !ValidFileName(name) {
        return Reply(400, Error("Invalid file name"), []);
      }
      var storeIdText := FieldText(storeId);
      if storeIdText == "" {
        return Reply(400, Error("Invalid storeId"), []);
      }
      var path := LogoPath(storeIdText, FileExtension(name.s));
      if !logoFile.value.filepath.Str? {
        return Reply(400, Error("Invalid file path"), []);
      }
      effects := effects + [Upload("public", path, true)];
      if upload.Err? {
        return Reply(500, Error("Failed to upload logo"), effects);
      }
      logoUrl := Str(publicUrl);
    }
    var updates: Record := map[];
    if Truthy(logoUrl) {
      updates := updates["logo_url" := logoUrl];
    }
    if Truthy(FieldValue(brandColor)) {
      updates := updates["brand_color" := FieldValue(brandColor)];
    }
    effects := effects + [Update("stores", updates, map["id" := FieldValue(storeId)])];
    if update.Err? {
      return Reply(500, Error("Failed to update store branding"), effects);
    }
    return Reply(200, Saved(logoUrl, FieldValue(brandColor)), effects);
  }

  /** The GET branch: the store's `logo_url` and `brand_color`, read by id. */
  function Get(query: Record, fetched: Db<Value>): (reply: Reply<BrandingBody>)
    ensures !Truthy(Field(query, "storeId")) ==> reply == Reply(400, Error("Missing storeId"), [])
    ensures reply.status == 200 <==> Truthy(Field(query, "storeId")) && fetched.Done?
    ensures reply.status == 200 ==> reply.body == Branding(fetched.data)
    ensures Truthy(Field(query, "storeId")) && fetched.Failed? ==>
      reply == Reply(500, Error("Failed to fetch branding"), [])
    ensures reply.effects == []
  {
    if !Truthy(Field(query, "storeId")) then Reply(400, Error("Missing storeId"), [])
    else match fetched
      case Failed(_) => Reply(500, Error("Failed to fetch branding"), [])
      case Done(data) => Reply(200, Branding(data), [])
  }

  /** Method dispatch: POST and GET as above, everything else 405. */
  method Handle(verb: Method, form: Form, query: Record, upload: Outcome, publicUrl: string,
                update: Outcome, fetched: Db<Value>)
    returns (reply: Reply<BrandingBody>)
    ensures verb == GET ==> reply == Get(query, fetched)
    ensures verb != GET && verb != POST ==> reply == Reply(405, Error("Method not allowed"), [])
    ensures verb == POST ==> reply.status in {200, 400, 500}
    ensures verb == POST ==> (reply.status == 200 <==> ReachesUpdate(form, upload) && update.Ok?)
    ensures verb == POST && reply.status == 400 ==> reply.effects == []
    ensures verb == POST && ReachesUpload(form) ==>
      reply.effects != [] && reply.effects[0] == LogoUpload(form)
    ensures verb == POST && ReachesUpload(form) && upload.Err? ==>
      reply == Reply(500, Error("Failed to upload logo"), [LogoUpload(form)])
    ensures verb == POST && ReachesUpdate(form, upload) && update.Err? ==>
      reply.status == 500 && reply.body == Error("Failed to update store branding")
  {
    if verb == POST {
      reply := Post(form, upload, publicUrl, update);
    } else if verb == GET {
      reply := Get(query, fetched);
    } else {
      reply := Reply(405, Error("Method not allowed"), []);
    }
  }
}
