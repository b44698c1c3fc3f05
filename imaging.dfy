/** Image preparation before upload (src/lib/imaging.ts): which picked files
    are processed, with which options, in which order the two output types
    are tried, and how the output file is named and typed. The pixel work
    (scaling, the canvas, the quality loop) is not part of this model. */
module Imaging {
  import opened Js
  import Seqs

  /** A picked `File`: its name, its size in bytes and its MIME `type`. */
  datatype File = File(name: string, size: nat, mime: string)

  datatype ImageType = Webp | Jpeg

  function MimeName(t: ImageType): string
  {
    match t
    case Webp => "image/webp"
    case Jpeg => "image/jpeg"
  }

  /** `ResizeOptions`; an omitted option is `None`. */
  datatype ResizeOptions = ResizeOptions(
    maxSize: Option<real>, quality: Option<real>, prefer: Option<ImageType>, targetKB: Option<real>)

  /** `Required<ResizeOptions>` */
  datatype Options = Options(maxSize: real, quality: real, prefer: ImageType, targetKB: real)

  const Defaults: Options := Options(1200.0, 0.8, Jpeg, 350.0)

  /** `{ ...defaultOpts, ...opts }` */
  function MergeOptions(opts: ResizeOptions): (r: Options)
    ensures r.maxSize == (if opts.maxSize.Some? then opts.maxSize.value else Defaults.maxSize)
    ensures r.quality == (if opts.quality.Some? then opts.quality.value else Defaults.quality)
    ensures r.prefer == (if opts.prefer.Some? then opts.prefer.value else Defaults.prefer)
    ensures r.targetKB == (if opts.targetKB.Some? then opts.targetKB.value else Defaults.targetKB)
  {
    Options(
      if opts.maxSize.Some? then opts.maxSize.value else Defaults.maxSize,
      if opts.quality.Some? then opts.quality.value else Defaults.quality,
      if opts.prefer.Some? then opts.prefer.value else Defaults.prefer,
      if opts.targetKB.Some? then opts.targetKB.value else Defaults.targetKB)
  }

  /** Every option given explicitly. */
  function AllGiven(o: Options): ResizeOptions
  {
    ResizeOptions(Some(o.maxSize), Some(o.quality), Some(o.prefer), Some(o.targetKB))
  }

  /** No options means the defaults; options given in full win over them. */
  lemma MergeOptionsExtremes(o: Options)
    ensures MergeOptions(ResizeOptions(None, None, None, None)) == Defaults
    ensures MergeOptions(AllGiven(o)) == o
  {
  }

  /** `pickTypes(prefer)` */
  function PickTypes(prefer: ImageType): (r: seq<ImageType>)
    ensures |r| == 2 && r[0] == prefer && r[1] != prefer
    ensures Jpeg in r && Webp in r
  {
    match prefer
    case Jpeg => [Jpeg, Webp]
    case Webp => [Webp, Jpeg]
  }

  /** `/^image\//.test(f.type)` */
  function IsImage(f: File): (b: bool)
    ensures b <==> |f.mime| >= 6 && forall k :: 0 <= k < 6 ==> f.mime[k] == "image/"[k]
  {
    StartsWith(f.mime, "image/")
  }

  /** The files `processFiles` hands to `resizeOne`, in order. */
  function FilesToProcess(fileList: Option<seq<File>>): (r: seq<File>)
    ensures fileList.None? ==> r == []
    ensures fileList.Some? ==> forall f :: f in r <==> f in fileList.value && IsImage(f)
  {
    if fileList.None? then [] else Seqs.Filter(fileList.value, IsImage)
  }

  lemma FilesToProcessInOrder(files: seq<File>)
    ensures Seqs.IsSubsequence(FilesToProcess(Some(files)), files)
  {
    Seqs.FilterIsSubsequence(files, IsImage);
  }

  // ---------- the output name ----------

  /** The extensions `/\.(jpe?g|png|webp|heic|heif)$/i` removes. */
  const ImageExts: seq<string> := [".jpg", ".jpeg", ".png", ".webp", ".heic", ".heif"]

  /** `name` ends with `ext`, ignoring ASCII case. */
  predicate EndsWithExt(name: string, ext: string)
  {
    |ext| <= |name| && Lower(name[|name| - |ext|..]) == ext
  }

  function StripFirstExt(name: string, exts: seq<string>): (r: string)
    ensures r <= name
    ensures r == name || exists e :: e in exts && EndsWithExt(name, e) && r == name[..|name| - |e|]
    ensures (forall e :: e in exts ==> !EndsWithExt(name, e)) ==> r == name
  {
    if exts == [] then name
    else if EndsWithExt(name, exts[0]) then name[..|name| - |exts[0]|]
    else StripFirstExt(name, exts[1..])
  }

  /** `name.replace(/\.(jpe?g|png|webp|heic|heif)$/i, '')`: no two of the
      extensions end the same string, so at most one can match. */
  function StripImageExt(name: string): (r: string)
    ensures r <= name
    ensures r == name || exists e :: e in ImageExts && EndsWithExt(name, e) && r == name[..|name| - |e|]
    ensures (forall e :: e in ImageExts ==> !EndsWithExt(name, e)) ==> r == name
  {
    StripFirstExt(name, ImageExts)
  }

  /** `x` starts with its only `.`. */
  predicate DotFirstOnly(x: string)
  {
    x != "" && x[0] == '.' && forall i :: 0 < i < |x| ==> x[i] != '.'
  }

  lemma ImageExtsDotFirst()
    ensures forall e :: e in ImageExts ==> DotFirstOnly(e)
  {
  }

  lemma LowerSuffix(s: string, k: nat)
    requires k <= |s|
    ensures Lower(s)[k..] == Lower(s[k..])
  {
  }

  /** The shorter of two extensions that both end `name` ends the longer,
      so its `.` lands on the longer one's only `.`. */
  lemma ShorterExtIsSame(name: string, e: string, l: string)
    requires DotFirstOnly(e) && DotFirstOnly(l) && |e| <= |l|
    requires EndsWithExt(name, e) && EndsWithExt(name, l)
    ensures e == l
  {
    var tl := name[|name| - |l|..];
    LowerSuffix(tl, |l| - |e|);
    assert tl[|l| - |e|..] == name[|name| - |e|..];
    assert l[|l| - |e|] == e[0];
  }

  lemma ExtEndsUnique(name: string, e: string, l: string)
    requires DotFirstOnly(e) && DotFirstOnly(l)
    requires EndsWithExt(name, e) && EndsWithExt(name, l)
    ensures e == l
  {
    if |e| <= |l| {
      ShorterExtIsSame(name, e, l);
    } else {
      ShorterExtIsSame(name, l, e);
    }
  }

  lemma {:induction false} StripFirstExtUnique(name: string, exts: seq<string>, l: string)
    requires l in exts && EndsWithExt(name, l)
    requires forall e :: e in exts && EndsWithExt(name, e) ==> e == l
    ensures StripFirstExt(name, exts) == name[..|name| - |l|]
  {
    if exts[0] != l {
      StripFirstExtUnique(name, exts[1..], l);
    }
  }

  /** One extension, in any case, comes off; an earlier one stays. */
  lemma StripOneExt(base: string, ext: string)
    requires Lower(ext) in ImageExts
    ensures StripImageExt(base + ext) == base
  {
    var name := base + ext;
    var l := Lower(ext);
    assert name[|name| - |ext|..] == ext;
    assert EndsWithExt(name, l);
    ImageExtsDotFirst();
    forall e | e in ImageExts && EndsWithExt(name, e)
      ensures e == l
    {
      ExtEndsUnique(name, e, l);
    }
    StripFirstExtUnique(name, ImageExts, l);
    assert name[..|name| - |ext|] == base;
  }

  /** The output `fileName` for the type chosen for the blob. */
  function OutputName(name: string, t: ImageType): (r: string)
    ensures t == Webp ==> r == StripImageExt(name) + ".webp"
    ensures t == Jpeg ==> r == StripImageExt(name) + ".jpg"
  {
    StripImageExt(name) + (if t == Webp then ".webp" else ".jpg")
  }

  /** `selectedType || 'image/jpeg'` */
  function OutputMime(selectedType: string): (r: string)
    ensures selectedType != "" ==> r == selectedType
    ensures selectedType == "" ==> r == MimeName(Jpeg)
  {
    if selectedType == "" then MimeName(Jpeg) else selectedType
  }

  // ---------- choosing the type of the blob ----------

  /** How the encoder treats one type: `toBlob` rejects at once, or every
      call resolves, or the first resolves and a later one, in the
      quality loop, rejects. */
  datatype Attempt = Refused | Encoded | EncodedThenRefused

  /** The state of the type loop: the type of the blob held, and the last
      type tried. */
  datatype Choice = Choice(blob: Option<ImageType>, selected: string)

  /** The type loop of `resizeOne` as written: each type tried becomes
      `selectedType` before `toBlob` is called, even when the blob kept at
      the end comes from an earlier type. */
  function ChooseAsWritten(cands: seq<ImageType>, attempt: ImageType -> Attempt, c: Choice): (r: Choice)
    ensures r.blob == Choose(cands, attempt, c).blob
  {
    if cands == [] then c
    else
      var t := cands[0];
      match attempt(t)
      case Refused =>
        ChooseBlob(cands[1..], attempt, c.blob, c.selected, MimeName(t));
        ChooseAsWritten(cands[1..], attempt, Choice(c.blob, MimeName(t)))
      case Encoded => Choice(Some(t), MimeName(t))
      case EncodedThenRefused => ChooseAsWritten(cands[1..], attempt, Choice(Some(t), MimeName(t)))
  }

  /** The blob the corrected loop keeps does not depend on the label it
      starts from. */
  lemma {:induction false} ChooseBlob(cands: seq<ImageType>, attempt: ImageType -> Attempt, b: Option<ImageType>, s1: string, s2: string)
    ensures Choose(cands, attempt, Choice(b, s1)).blob == Choose(cands, attempt, Choice(b, s2)).blob
  {
    if cands != [] && attempt(cands[0]) == Refused {
      ChooseBlob(cands[1..], attempt, b, s1, s2);
    }
  }

  /** JPEG is encoded, then fails at a lower quality; WebP is refused. The
      blob is a JPEG, but the output is named and typed as WebP. */
  lemma ChooseAsWrittenMislabels()
    ensures var c := ChooseAsWritten(PickTypes(Jpeg),
                                     (t: ImageType) => if t == Jpeg then EncodedThenRefused else Refused,
                                     Choice(None, ""));
            c.blob == Some(Jpeg) && c.selected == MimeName(Webp)
  {
    var attempt := (t: ImageType) => if t == Jpeg then EncodedThenRefused else Refused;
    assert PickTypes(Jpeg)[1..] == [Webp];
    assert ChooseAsWritten([Webp], attempt, Choice(Some(Jpeg), MimeName(Jpeg)))
      == ChooseAsWritten([], attempt, Choice(Some(Jpeg), MimeName(Webp)));
  }

  /** The type loop with the label following the blob: `selectedType`
      changes only when `toBlob` produced a blob of that type. */
  function Choose(cands: seq<ImageType>, attempt: ImageType -> Attempt, c: Choice): (r: Choice)
    ensures (c.blob.Some? && c.selected == MimeName(c.blob.value)) || c.blob.None? ==>
      r.blob.None? || r.selected == MimeName(r.blob.value)
    ensures r.blob.None? <==> c.blob.None? && forall t :: t in cands ==> attempt(t) == Refused
    ensures r.blob.Some? ==> r.blob == c.blob || (r.blob.value in cands && attempt(r.blob.value) != Refused)
  {
    if cands == [] then c
    else
      var t := cands[0];
      match attempt(t)
      case Refused => Choose(cands[1..], attempt, c)
      case Encoded => Choice(Some(t), MimeName(t))
      case EncodedThenRefused => Choose(cands[1..], attempt, Choice(Some(t), MimeName(t)))
  }

  /** `resizeOne`'s type loop over `pickTypes(prefer)`, keeping the label
      with the blob. `attempt` stands for the browser's encoder. */
  method ChooseType(prefer: ImageType, attempt: ImageType -> Attempt) returns (c: Choice)
    ensures c == Choose(PickTypes(prefer), attempt, Choice(None, ""))
    ensures c.blob.Some? ==> c.selected == MimeName(c.blob.value) && OutputMime(c.selected) == c.selected
  {
    var cands := PickTypes(prefer);
    c := Choice(None, "");
    var i := 0;
    while i < |cands|
      invariant 0 <= i <= |cands|
      invariant Choose(cands[i..], attempt, c) == Choose(cands, attempt, Choice(None, ""))
      invariant c.blob.None? || c.selected == MimeName(c.blob.value)
    {
      var t := cands[i];
      assert cands[i..][1..] == cands[i + 1..];
      match attempt(t) {
        case Refused =>
        case Encoded =>
          c := Choice(Some(t), MimeName(t));
          return;
        case EncodedThenRefused =>
          c := Choice(Some(t), MimeName(t));
      }
      i := i + 1;
    }
  }

  /** What `resizeOne` reports for a file: an error when no type gave a
      blob, else the output name and MIME type. */
  datatype Output = NoType | Processed(fileName: string, mimeType: string)

  /** The name and type reported for a file, with the type loop corrected
      as in `Choose`: both follow the type of the blob kept, which is a type
      the encoder did not refuse. */
  function ProcessedAs(name: string, prefer: ImageType, attempt: ImageType -> Attempt): (r: Output)
    ensures r == NoType <==> attempt(Jpeg) == Refused && attempt(Webp) == Refused
    ensures r.Processed? ==>
      var kept := Choose(PickTypes(prefer), attempt, Choice(None, "")).blob;
      && kept.Some? && attempt(kept.value) != Refused
      && r.fileName == OutputName(name, kept.value) && r.mimeType == MimeName(kept.value)
  {
    var c := Choose(PickTypes(prefer), attempt, Choice(None, ""));
    if c.blob.None? then NoType
    else
      assert c.selected == MimeName(c.blob.value);
      Processed(OutputName(name, c.blob.value), OutputMime(c.selected))
  }
}
