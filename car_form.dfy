/**
 * The state of the owner's car form (client/src/components/owner/CarForm.jsx):
 * the field values, the cover and the gallery (stored URLs followed by newly
 * chosen files, at most eight), the single error banner, and the checks
 * made before the payload is handed to the page.
 */
module CarForm {
  import opened Wrappers
  import opened Seqs
  import opened Text

  const MAX_GALLERY: nat := 8
  const MAX_FILE_SIZE_MB: nat := 5
  const MAX_FILE_SIZE_BYTES: nat := MAX_FILE_SIZE_MB * 1024 * 1024

  const INVALID_FILE: string := "Arquivo inválido."
  const IMAGES_ONLY: string := "Apenas imagens são permitidas."
  const TOO_LARGE: string := "Imagem acima de 5MB."
  const LIMIT_REACHED: string := "⚠️ Você já atingiu o limite de 8 fotos na galeria."
  const BRAND_AND_MODEL: string := "⚠️ Preencha pelo menos Brand e Model."
  const COVER_REQUIRED: string := "⚠️ Adicione uma imagem de capa para o carro."

  /** A chosen file: its name, its MIME type (`file.type`, absent when unknown) and its size in bytes. */
  datatype File = File(name: string, mime: Option<string>, size: int)

  /** `validateFile`: the first problem found, or "" for an acceptable image. */
  function ValidateFile(file: Option<File>): (err: string)
    ensures file.None? ==> err == INVALID_FILE
    ensures file.Some? && !(file.value.mime.Some? && StartsWith(file.value.mime.value, "image/")) ==> err == IMAGES_ONLY
    ensures file.Some? && file.value.mime.Some? && StartsWith(file.value.mime.value, "image/") ==>
      err == (if file.value.size > MAX_FILE_SIZE_BYTES then TOO_LARGE else "")
  {
    if file.None? then INVALID_FILE
    else if !(file.value.mime.Some? && StartsWith(file.value.mime.value, "image/")) then IMAGES_ONLY
    else if file.value.size > MAX_FILE_SIZE_BYTES then TOO_LARGE
    else ""
  }

  predicate Acceptable(f: File)
  {
    ValidateFile(Some(f)) == ""
  }

  /** The size bound is inclusive: exactly 5 MiB passes, one byte more does not. */
  lemma SizeBoundary(name: string)
    ensures Acceptable(File(name, Some("image/png"), MAX_FILE_SIZE_BYTES))
    ensures ValidateFile(Some(File(name, Some("image/png"), MAX_FILE_SIZE_BYTES + 1))) == TOO_LARGE
    ensures ValidateFile(Some(File(name, Some("text/plain"), 0))) == IMAGES_ONLY
    ensures ValidateFile(Some(File(name, None, 0))) == IMAGES_ONLY
  {
    assert StartsWith("image/png", "image/");
    assert !StartsWith("text/plain", "image/") by {
      assert "text/plain"[0] != "image/"[0];
    }
  }

  /** What the cover box shows: the chosen file, else the stored cover, else the upload icon. */
  datatype Cover = FileCover(file: File) | UrlCover(url: string) | UploadIcon

  /** `coverPreview`. */
  function CoverPreview(coverFile: Option<File>, coverUrl: string): (c: Cover)
    ensures c.FileCover? <==> coverFile.Some?
    ensures c.FileCover? ==> c.file == coverFile.value
    ensures c.UrlCover? <==> coverFile.None? && coverUrl != ""
    ensures c.UrlCover? ==> c.url == coverUrl
  {
    if coverFile.Some? then FileCover(coverFile.value)
    else if coverUrl != "" then UrlCover(coverUrl)
    else UploadIcon
  }

  /** One tile of the gallery: a stored URL or a newly chosen file. */
  datatype GalleryItem = UrlItem(url: string) | FileItem(file: File)

  function UrlItems(urls: seq<string>): (r: seq<GalleryItem>)
    ensures |r| == |urls| && forall i :: 0 <= i < |urls| ==> r[i] == UrlItem(urls[i])
  {
    seq(|urls|, i requires 0 <= i < |urls| => UrlItem(urls[i]))
  }

  function FileItems(files: seq<File>): (r: seq<GalleryItem>)
    ensures |r| == |files| && forall i :: 0 <= i < |files| ==> r[i] == FileItem(files[i])
  {
    seq(|files|, i requires 0 <= i < |files| => FileItem(files[i]))
  }

  /** The combined list the removal indices refer to: all URLs, then all files. */
  function Combined(urls: seq<string>, files: seq<File>): seq<GalleryItem>
  {
    UrlItems(urls) + FileItems(files)
  }

  /** `galleryPreviews`: the URLs before the files, cut at eight tiles. */
  function GalleryPreviews(urls: seq<string>, files: seq<File>): (r: seq<GalleryItem>)
    ensures |r| == if |urls| + |files| < MAX_GALLERY then |urls| + |files| else MAX_GALLERY
    ensures forall i :: 0 <= i < |r| && i < |urls| ==> r[i] == UrlItem(urls[i])
    ensures forall i :: |urls| <= i < |r| ==> r[i] == FileItem(files[i - |urls|])
  {
    var all := Combined(urls, files);
    assert forall i :: |urls| <= i < |all| ==> all[i] == FileItems(files)[i - |urls|];
    Take(all, MAX_GALLERY)
  }

  /**
   * The files `handleGalleryChange` keeps out of `fs` when `room` places are
   * free: acceptable files in input order, stopping once `room` are taken.
   */
  function Accepted(fs: seq<File>, room: int): (r: seq<File>)
    ensures |r| <= |fs| && (room >= 0 ==> |r| <= room)
    decreases |fs|
  {
    if fs == [] || room <= 0 then []
    else if !Acceptable(fs[0]) then Accepted(fs[1..], room)
    else [fs[0]] + Accepted(fs[1..], room - 1)
  }

  /** Only acceptable files from the input are accepted. */
  lemma {:induction false} AcceptedFromInput(fs: seq<File>, room: int)
    ensures forall i :: 0 <= i < |Accepted(fs, room)| ==> Accepted(fs, room)[i] in fs && Acceptable(Accepted(fs, room)[i])
    decreases |fs|
  {
    if fs != [] && room > 0 {
      var next := if Acceptable(fs[0]) then room - 1 else room;
      AcceptedFromInput(fs[1..], next);
      assert forall x :: x in fs[1..] ==> x in fs;
    }
  }

  /** The rejection reason of the last file skipped before the room ran out, if any. */
  function LastSkip(fs: seq<File>, room: int): Option<string>
    decreases |fs|
  {
    if fs == [] || room <= 0 then None
    else if !Acceptable(fs[0]) then
      (match LastSkip(fs[1..], room) case None => Some(ValidateFile(Some(fs[0]))) case Some(e) => Some(e))
    else LastSkip(fs[1..], room - 1)
  }

  /** The accepted files are the first `room` acceptable ones: a reference definition of the loop's outcome. */
  lemma {:induction false} AcceptedIsTakeOfAcceptable(fs: seq<File>, room: nat)
    ensures Accepted(fs, room) == Take(Filter(fs, Acceptable), room)
    decreases |fs|
  {
    if fs != [] && room > 0 {
      AcceptedIsTakeOfAcceptable(fs[1..], if Acceptable(fs[0]) then room - 1 else room);
    }
  }

  function SkipMessage(err: string): string
  {
    "⚠️ Algumas imagens foram ignoradas. Motivo: " + err + " (máx 5MB)"
  }

  /** The banner after a gallery choice: the last skip reason, or nothing. */
  function GalleryError(skip: Option<string>): string
  {
    if skip.Some? then SkipMessage(skip.value) else ""
  }

  /** Keeps the later of two outcomes. */
  function Latest(earlier: Option<string>, later: Option<string>): Option<string>
  {
    if later.Some? then later else earlier
  }

  /**
   * What the loop of `handleGalleryChange` keeps true after looking at the
   * first `i` files: what it accepted, followed by what the rest would give
   * with the places left, is the outcome for all files; and likewise for the
   * last skip reason.
   */
  predicate Collecting(files: seq<File>, room: int, i: nat, accepted: seq<File>, skipped: Option<string>)
  {
    && i <= |files| && (room <= 0 || |accepted| <= room)
    && accepted + Accepted(files[i..], room - |accepted|) == Accepted(files, room)
    && Latest(skipped, LastSkip(files[i..], room - |accepted|)) == LastSkip(files, room)
  }

  /** Skipping an unacceptable first file changes nothing but the latest skip reason. */
  lemma SkipFirst(fs: seq<File>, room: int, skipped: Option<string>)
    requires fs != [] && room > 0 && !Acceptable(fs[0])
    ensures Accepted(fs, room) == Accepted(fs[1..], room)
    ensures Latest(skipped, LastSkip(fs, room))
         == Latest(Latest(skipped, Some(ValidateFile(Some(fs[0])))), LastSkip(fs[1..], room))
  {
  }

  /** Taking an acceptable first file uses up one place. */
  lemma TakeFirst(fs: seq<File>, room: int)
    requires fs != [] && room > 0 && Acceptable(fs[0])
    ensures Accepted(fs, room) == [fs[0]] + Accepted(fs[1..], room - 1)
    ensures LastSkip(fs, room) == LastSkip(fs[1..], room - 1)
  {
  }

  /** Skipping the unacceptable file at `i` keeps `Collecting`, with its reason as the latest skip. */
  lemma SkipStep(files: seq<File>, room: int, i: nat, accepted: seq<File>, skipped: Option<string>)
    requires Collecting(files, room, i, accepted, skipped)
    requires i < |files| && |accepted| < room && !Acceptable(files[i])
    ensures Collecting(files, room, i + 1, accepted, Latest(skipped, Some(ValidateFile(Some(files[i])))))
  {
    var fs := files[i..];
    assert fs[0] == files[i] && fs[1..] == files[i + 1..];
    SkipFirst(fs, room - |accepted|, skipped);
  }

  /** Taking the acceptable file at `i` keeps `Collecting`, with one place fewer. */
  lemma TakeStep(files: seq<File>, room: int, i: nat, accepted: seq<File>, skipped: Option<string>)
    requires Collecting(files, room, i, accepted, skipped)
    requires i < |files| && |accepted| < room && Acceptable(files[i])
    ensures Collecting(files, room, i + 1, accepted + [files[i]], skipped)
  {
    var fs := files[i..];
    assert fs[0] == files[i] && fs[1..] == files[i + 1..];
    var left := room - |accepted|;
    TakeFirst(fs, left);
    var taken := accepted + [files[i]];
    assert room - |taken| == left - 1;
    var rest := Accepted(files[i + 1..], left - 1);
    calc {
      taken + rest;
      accepted + ([files[i]] + rest);
      accepted + Accepted(fs, left);
      Accepted(files, room);
    }
    assert Latest(skipped, LastSkip(files[i + 1..], left - 1)) == LastSkip(files, room);
  }

  /** When the files or the places run out, what was collected is the outcome. */
  lemma CollectDone(files: seq<File>, room: int, i: nat, accepted: seq<File>, skipped: Option<string>)
    requires Collecting(files, room, i, accepted, skipped)
    requires i == |files| || |accepted| >= room
    ensures accepted == Accepted(files, room) && skipped == LastSkip(files, room)
  {
    assert Accepted(files[i..], room - |accepted|) == [];
    assert LastSkip(files[i..], room - |accepted|) == None;
  }

  /**
   * The loop of `handleGalleryChange` over the chosen files: stop once `room`
   * files are taken, skip an unacceptable one (the banner then names its
   * reason), take an acceptable one.
   */
  method CollectAccepted(files: seq<File>, room: int) returns (accepted: seq<File>, banner: string)
    ensures accepted == Accepted(files, room)
    ensures banner == GalleryError(LastSkip(files, room))
  {
    banner := "";
    accepted := [];
    ghost var skipped: Option<string> := None;
    var i := 0;
    while i < |files|
      invariant Collecting(files, room, i, accepted, skipped)
      invariant banner == GalleryError(skipped)
    {
      if |accepted| >= room {
        break;
      }
      var err := ValidateFile(Some(files[i]));
      if err != "" {
        SkipStep(files, room, i, accepted, skipped);
        banner := SkipMessage(err);
        skipped := Latest(skipped, Some(err));
        i := i + 1;
        continue;
      }
      TakeStep(files, room, i, accepted, skipped);
      accepted := accepted + [files[i]];
      i := i + 1;
    }
    CollectDone(files, room, i, accepted, skipped);
  }

  datatype Mode = Create | Edit

  /** A form value as the inputs and the defaults supply it; `NotANumber` is what `Number` makes of garbage. */
  datatype Value = Text(s: string) | Num(n: int) | NotANumber

  /** `Number(v)`, with `parse` standing for the conversion of a string (`None` for NaN). */
  function ToNumber(v: Option<Value>, parse: string -> Option<int>): (r: Value)
    ensures !r.Text?
    ensures v.Some? && v.value.Num? ==> r == v.value
  {
    match v
    case None => NotANumber
    case Some(Num(n)) => Num(n)
    case Some(NotANumber) => NotANumber
    case Some(Text(s)) => if parse(s).Some? then Num(parse(s).value) else NotANumber
  }

  function Lookup(fields: map<string, Value>, key: string): Option<Value>
  {
    if key in fields then Some(fields[key]) else None
  }

  /** The numeric fields of the payload: `year`, `pricePerDay` and `seating_capacity` pass through `Number`. */
  function Numbered(fields: map<string, Value>, parse: string -> Option<int>): (r: map<string, Value>)
    ensures r.Keys == fields.Keys + {"year", "pricePerDay", "seating_capacity"}
    ensures forall k :: k in r && k in {"year", "pricePerDay", "seating_capacity"} ==> r[k] == ToNumber(Lookup(fields, k), parse)
    ensures forall k :: k in fields && k !in {"year", "pricePerDay", "seating_capacity"} ==> r[k] == fields[k]
  {
    fields["year" := ToNumber(Lookup(fields, "year"), parse)]
          ["pricePerDay" := ToNumber(Lookup(fields, "pricePerDay"), parse)]
          ["seating_capacity" := ToNumber(Lookup(fields, "seating_capacity"), parse)]
  }

  /** Converting twice changes nothing: numeric fields are already numbers. */
  lemma NumberedIdempotent(fields: map<string, Value>, parse: string -> Option<int>)
    ensures Numbered(Numbered(fields, parse), parse) == Numbered(fields, parse)
  {
  }

  /** `brand` and `model` must be non-blank; in create mode a cover must be chosen; "" when the form may be sent. */
  function SubmitError(brand: string, model: string, mode: Mode, coverFile: Option<File>): (err: string)
    ensures err == "" <==> Trim(brand) != "" && Trim(model) != "" && (mode == Create ==> coverFile.Some?)
    ensures (Trim(brand) == "" || Trim(model) == "") ==> err == BRAND_AND_MODEL
    ensures Trim(brand) != "" && Trim(model) != "" && mode == Create && coverFile.None? ==> err == COVER_REQUIRED
  {
    if Trim(brand) == "" || Trim(model) == "" then BRAND_AND_MODEL
    else if mode == Create && coverFile.None? then COVER_REQUIRED
    else ""
  }

  /** What `onSubmit` receives: the fields with their numbers converted, the stored images and the chosen files. */
  datatype Payload = Payload(
    fields: map<string, Value>,
    coverUrl: string,
    galleryUrls: seq<string>,
    coverFile: Option<File>,
    galleryFiles: seq<File>)

  class Form {
    /** The editable car fields (`brand`, `model`, `year`, ...), keyed by name. */
    var fields: map<string, Value>
    var coverUrl: string
    var galleryUrls: seq<string>
    var coverFile: Option<File>
    var galleryFiles: seq<File>
    var error: string
    const mode: Mode

    /** `brand` and `model` hold text, as the text inputs and the defaults give them. */
    ghost predicate Valid()
      reads this
    {
      && "brand" in fields && fields["brand"].Text?
      && "model" in fields && fields["model"].Text?
    }

    /** `buildDefaultCar()`, with the current year supplied by the caller. */
    constructor (mode: Mode, currentYear: int)
      ensures Valid()
      ensures this.mode == mode && coverUrl == "" && galleryUrls == [] && coverFile.None? && galleryFiles == [] && error == ""
      ensures fields == map[
        "brand" := Text(""), "model" := Text(""), "year" := Num(currentYear), "pricePerDay" := Num(0),
        "category" := Text(""), "transmission" := Text(""), "fuel_type" := Text(""),
        "seating_capacity" := Num(4), "location" := Text(""), "description" := Text("")]
    {
      this.mode := mode;
      fields := map[
        "brand" := Text(""), "model" := Text(""), "year" := Num(currentYear), "pricePerDay" := Num(0),
        "category" := Text(""), "transmission" := Text(""), "fuel_type" := Text(""),
        "seating_capacity" := Num(4), "location" := Text(""), "description" := Text("")];
      coverUrl := "";
      galleryUrls := [];
      coverFile := None;
      galleryFiles := [];
      error := "";
    }

    /** `handleCoverChange`: an acceptable file becomes the cover; a bad one only sets the banner. */
    method HandleCoverChange(file: Option<File>)
      modifies this
      ensures file.None? ==> error == "" && coverFile == old(coverFile)
      ensures file.Some? && !Acceptable(file.value) ==>
        error == "❌ Capa: " + ValidateFile(file) && coverFile == old(coverFile)
      ensures file.Some? && Acceptable(file.value) ==> error == "" && coverFile == file
      ensures fields == old(fields) && coverUrl == old(coverUrl)
      ensures galleryUrls == old(galleryUrls) && galleryFiles == old(galleryFiles)
    {
      error := "";
      if file.None? {
        return;
      }
      var err := ValidateFile(file);
      if err != "" {
        error := "❌ Capa: " + err;
        return;
      }
      coverFile := file;
    }

    /**
     * `handleGalleryChange`: with no free place the limit banner is set;
     * otherwise the acceptable files, up to the free places, are appended
     * after the existing ones, and the banner names the last file skipped.
     */
    method HandleGalleryChange(files: seq<File>)
      modifies this
      ensures var room := MAX_GALLERY - (|old(galleryUrls)| + |old(galleryFiles)|);
        && (files == [] ==> error == "" && galleryFiles == old(galleryFiles))
        && (files != [] && room <= 0 ==> error == LIMIT_REACHED && galleryFiles == old(galleryFiles))
        && (files != [] && room > 0 ==>
              && galleryFiles == old(galleryFiles) + Accepted(files, room)
              && error == GalleryError(LastSkip(files, room)))
      ensures |old(galleryUrls)| + |old(galleryFiles)| <= MAX_GALLERY ==> |galleryUrls| + |galleryFiles| <= MAX_GALLERY
      ensures fields == old(fields) && coverUrl == old(coverUrl) && galleryUrls == old(galleryUrls) && coverFile == old(coverFile)
    {
      error := "";
      if |files| == 0 {
        return;
      }
      var existingCount := |galleryUrls| + |galleryFiles|;
      var remaining := MAX_GALLERY - existingCount;
      if remaining <= 0 {
        error := LIMIT_REACHED;
        return;
      }
      var accepted, banner := CollectAccepted(files, remaining);
      error := banner;
      if |accepted| > 0 {
        var all := galleryFiles + accepted;
        assert |all| <= MAX_GALLERY;
        assert Take(all, MAX_GALLERY) == all;
        galleryFiles := Take(all, MAX_GALLERY);
      } else {
        assert galleryFiles + accepted == galleryFiles;
      }
    }

    /** `removeGalleryItem`: index `k` of the combined list names a URL below the URL count, a file above it. */
    method RemoveGalleryItem(k: int)
      modifies this
      ensures k < |old(galleryUrls)| ==> galleryUrls == RemoveAt(old(galleryUrls), k) && galleryFiles == old(galleryFiles)
      ensures k >= |old(galleryUrls)| ==>
        galleryUrls == old(galleryUrls) && galleryFiles == RemoveAt(old(galleryFiles), k - |old(galleryUrls)|)
      ensures Combined(galleryUrls, galleryFiles) == RemoveAt(Combined(old(galleryUrls), old(galleryFiles)), k)
      ensures error == ""
      ensures fields == old(fields) && coverUrl == old(coverUrl) && coverFile == old(coverFile)
    {
      error := "";
      var urlCount := |galleryUrls|;
      if k < urlCount {
        galleryUrls := RemoveAt(galleryUrls, k);
      } else {
        galleryFiles := RemoveAt(galleryFiles, k - urlCount);
      }
      CombinedRemoveAt(old(galleryUrls), old(galleryFiles), k);
    }

    /** `updateField`: the one field is replaced, every other one kept. */
    method UpdateField(key: string, value: Value)
      requires Valid()
      requires (key == "brand" || key == "model") ==> value.Text?
      modifies this
      ensures Valid()
      ensures fields == old(fields)[key := value]
      ensures forall k :: k in old(fields) && k != key ==> k in fields && fields[k] == old(fields)[k]
      ensures coverUrl == old(coverUrl) && galleryUrls == old(galleryUrls)
      ensures coverFile == old(coverFile) && galleryFiles == old(galleryFiles) && error == old(error)
    {
      fields := fields[key := value];
    }

    /** `handleSubmit`: refuses with a banner, or hands over the payload with the banner cleared. */
    method HandleSubmit(parse: string -> Option<int>) returns (payload: Option<Payload>)
      requires Valid()
      modifies this
      ensures Valid()
      ensures var err := SubmitError(fields["brand"].s, fields["model"].s, mode, coverFile);
        && error == err
        && (err != "" ==> payload.None?)
        && (err == "" ==> payload == Some(Payload(Numbered(fields, parse), coverUrl, galleryUrls, coverFile, galleryFiles)))
      ensures fields == old(fields) && coverUrl == old(coverUrl) && galleryUrls == old(galleryUrls)
      ensures coverFile == old(coverFile) && galleryFiles == old(galleryFiles)
    {
      error := "";
      if Trim(fields["brand"].s) == "" || Trim(fields["model"].s) == "" {
        error := BRAND_AND_MODEL;
        return None;
      }
      if mode == Create && coverFile.None? {
        error := COVER_REQUIRED;
        return None;
      }
      payload := Some(Payload(Numbered(fields, parse), coverUrl, galleryUrls, coverFile, galleryFiles));
    }
  }

  lemma UrlItemsRemoveAt(urls: seq<string>, k: int)
    ensures UrlItems(RemoveAt(urls, k)) == RemoveAt(UrlItems(urls), k)
  {
  }

  lemma FileItemsRemoveAt(files: seq<File>, k: int)
    ensures FileItems(RemoveAt(files, k)) == RemoveAt(FileItems(files), k)
  {
  }

  /** Removing from the list that holds index `k` removes entry `k` of the combined list, and nothing else. */
  lemma CombinedRemoveAt(urls: seq<string>, files: seq<File>, k: int)
    ensures k < |urls| ==> Combined(RemoveAt(urls, k), files) == RemoveAt(Combined(urls, files), k)
    ensures k >= |urls| ==> Combined(urls, RemoveAt(files, k - |urls|)) == RemoveAt(Combined(urls, files), k)
  {
    RemoveAtConcat(UrlItems(urls), FileItems(files), k);
    UrlItemsRemoveAt(urls, k);
    FileItemsRemoveAt(files, k - |urls|);
  }
}
