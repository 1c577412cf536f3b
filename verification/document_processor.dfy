/** The upload pipeline's bookkeeping: choosing a loader from the file
    extension, and stamping chunk metadata. Reading files, extracting PDF
    text and splitting text are abstract functions. */
module DocumentProcessor {
  import opened Wrappers
  import opened Text
  import opened Documents

  /** `CHUNK_SIZE` and `CHUNK_OVERLAP`, handed to the splitter. */
  const ChunkSize: nat := 1000
  const ChunkOverlap: nat := 200

  const ChunkIndexKey := "chunk_index"
  const FileTypeKey := "file_type"
  const UnsupportedPrefix := "Unsupported file type: "

  // ---------------------------------------------------------------------------
  // `os.path.splitext` (POSIX)
  // ---------------------------------------------------------------------------
  /** `s.rfind(c)`: the last position of `c`, or -1. */
  function LastIndexOf(s: string, c: char): (r: int)
    ensures -1 <= r < |s|
    ensures r >= 0 ==> s[r] == c
    ensures forall k :: r < k < |s| ==> s[k] != c
    decreases |s|
  {
    if |s| == 0 then -1
    else if s[|s| - 1] == c then |s| - 1
    else LastIndexOf(s[..|s| - 1], c)
  }

  predicate AllDots(s: string) {
    forall k :: 0 <= k < |s| ==> s[k] == '.'
  }

  /** The final path component: everything after the last '/'. */
  function LastComponent(p: string): (r: string)
    ensures '/' !in r
    ensures |r| <= |p| && r == p[|p| - |r|..]
  {
    p[LastIndexOf(p, '/') + 1..]
  }

  /** The extension of one path component: from its last dot to the end,
      provided something other than dots precedes that dot. */
  function ComponentExt(c: string): (r: string)
    ensures |r| <= |c| && r == c[|c| - |r|..]
    ensures r == [] || (r[0] == '.' && '.' !in r[1..])
    ensures r != [] ==> !AllDots(c[..|c| - |r|])
  {
    var dot := LastIndexOf(c, '.');
    if dot >= 0 && !AllDots(c[..dot]) then
      assert c[dot..][1..] == c[dot + 1..];
      c[dot..]
    else ""
  }

  /** `os.path.splitext(p)` with '/' as the only separator: the root and the
      extension of the final component, which concatenate back to `p`. */
  function SplitExt(p: string): (r: (string, string))
    ensures r.0 + r.1 == p
    ensures r.1 == ComponentExt(LastComponent(p))
  {
    var c := LastComponent(p);
    var ext := ComponentExt(c);
    assert ext == p[|p| - |ext|..] by {
      assert c[|c| - |ext|..] == p[|p| - |c|..][|c| - |ext|..];
    }
    assert p[..|p| - |ext|] + ext == p;
    (p[..|p| - |ext|], ext)
  }

  function Ext(p: string): string {
    SplitExt(p).1
  }

  lemma {:induction false} LastIndexOfConcat(a: string, b: string, c: char)
    ensures LastIndexOf(a + b, c) == if LastIndexOf(b, c) >= 0 then |a| + LastIndexOf(b, c) else LastIndexOf(a, c)
    decreases |b|
  {
    if |b| == 0 {
      assert a + b == a;
    } else {
      var ab := a + b;
      assert ab[..|ab| - 1] == a + b[..|b| - 1];
      if b[|b| - 1] != c {
        LastIndexOfConcat(a, b[..|b| - 1], c);
      }
    }
  }

  lemma LastIndexOfAbsent(s: string, c: char)
    requires c !in s
    ensures LastIndexOf(s, c) == -1
  {
  }

  /** After a directory prefix ending in '/', the final component is what follows it. */
  lemma LastComponentAfterDirectory(dir: string, tail: string)
    requires dir == [] || dir[|dir| - 1] == '/'
    requires '/' !in tail
    ensures LastComponent(dir + tail) == tail
  {
    LastIndexOfAbsent(tail, '/');
    LastIndexOfConcat(dir, tail, '/');
    assert (dir + tail)[|dir|..] == tail;
  }

  lemma ComponentExtOfDottedName(stem: string, word: string)
    requires !AllDots(stem) && '.' !in word
    ensures ComponentExt(stem + "." + word) == "." + word
  {
    var suffix := "." + word;
    var c := stem + suffix;
    assert stem + "." + word == c;
    LastIndexOfAbsent(word, '.');
    LastIndexOfConcat(".", word, '.');
    LastIndexOfConcat(stem, suffix, '.');
    assert c[..|stem|] == stem;
    assert c[|stem|..] == suffix;
  }

  /** A final component made of a stem that is not all dots, then a dot,
      then a word with no dot: the extension is that dot and word. */
  lemma ExtOfDottedName(dir: string, stem: string, word: string)
    requires dir == [] || dir[|dir| - 1] == '/'
    requires '/' !in stem && !AllDots(stem)
    requires '/' !in word && '.' !in word
    ensures Ext(dir + stem + "." + word) == "." + word
  {
    assert dir + stem + "." + word == dir + (stem + "." + word);
    LastComponentAfterDirectory(dir, stem + "." + word);
    ComponentExtOfDottedName(stem, word);
  }

  lemma ComponentExtOfLeadingDots(dots: string, word: string)
    requires |dots| > 0 && AllDots(dots)
    requires '.' !in word
    ensures ComponentExt(dots + word) == ""
  {
    var c := dots + word;
    LastIndexOfAbsent(word, '.');
    LastIndexOfConcat(dots, word, '.');
    assert c[..|dots| - 1] == dots[..|dots| - 1];
  }

  /** Leading dots do not start an extension: `.md`, `..txt` and the like have none. */
  lemma LeadingDotsAreNoExtension(dir: string, dots: string, word: string)
    requires dir == [] || dir[|dir| - 1] == '/'
    requires |dots| > 0 && AllDots(dots)
    requires '/' !in word && '.' !in word
    ensures Ext(dir + dots + word) == ""
  {
    assert dir + dots + word == dir + (dots + word);
    LastComponentAfterDirectory(dir, dots + word);
    ComponentExtOfLeadingDots(dots, word);
  }

  /** A name without any dot has no extension. */
  lemma NoDotNoExtension(p: string)
    requires '.' !in p
    ensures Ext(p) == ""
  {
    var c := LastComponent(p);
    assert forall x :: x in c ==> x in p;
    LastIndexOfAbsent(c, '.');
  }

  // ---------------------------------------------------------------------------
  // Loader dispatch
  // ---------------------------------------------------------------------------

  datatype FileKind = PdfFile | TextFile

  function UpperChar(c: char): char {
    if 'a' <= c <= 'z' then (c as int - 32) as char else c
  }

  /** `s` spells `word` with any of its letters in either case. */
  predicate CaseVariantOf(s: string, word: string) {
    |s| == |word| && forall k :: 0 <= k < |s| ==> s[k] == word[k] || s[k] == UpperChar(word[k])
  }

  predicate NoUpper(word: string) {
    forall k :: 0 <= k < |word| ==> !('A' <= word[k] <= 'Z')
  }

  lemma LowerIsCaseVariant(s: string, word: string)
    requires NoUpper(word)
    ensures Lower(s) == word <==> CaseVariantOf(s, word)
  {
    if CaseVariantOf(s, word) {
      assert forall k :: 0 <= k < |s| ==> LowerChar(s[k]) == word[k];
      assert Lower(s) == word;
    }
    if Lower(s) == word {
      forall k | 0 <= k < |s| ensures s[k] == word[k] || s[k] == UpperChar(word[k]) {
        assert LowerChar(s[k]) == word[k];
      }
    }
  }

  /** The extension test shared by `load_document` and `load_uploaded_file`:
      it ignores letter case; `.pdf` goes to the PDF reader, `.txt` and `.md`
      to the text reader, and anything else, a missing extension included,
      is refused with the lowered extension in the message. */
  function FileKindOf(name: string): (r: Result<FileKind>)
    ensures r.Err? ==> r.error == UnsupportedPrefix + Lower(Ext(name))
    ensures Ext(name) == "" ==> r == Err(UnsupportedPrefix)
  {
    ExtensionKind(Ext(name))
  }

  /** The dispatch on an extension as `splitext` returned it. */
  function ExtensionKind(ext: string): (r: Result<FileKind>)
    ensures r.Err? ==> r.error == UnsupportedPrefix + Lower(ext)
    ensures ext == "" ==> r == Err(UnsupportedPrefix)
    ensures r == Ok(PdfFile) <==> Lower(ext) == ".pdf"
    ensures r == Ok(TextFile) <==> Lower(ext) == ".txt" || Lower(ext) == ".md"
    ensures r.Ok? <==> Lower(ext) in {".pdf", ".txt", ".md"}
  {
    var lowered := Lower(ext);
    if lowered == ".pdf" then Ok(PdfFile)
    else if lowered == ".txt" || lowered == ".md" then Ok(TextFile)
    else
      assert ext == "" ==> UnsupportedPrefix + lowered == UnsupportedPrefix;
      Err(UnsupportedPrefix + lowered)
  }

  /** Lower-casing before the comparison accepts every case variant of the
      three extensions and nothing else. */
  lemma ExtensionKindIgnoresCase(ext: string)
    ensures ExtensionKind(ext) == Ok(PdfFile) <==> CaseVariantOf(ext, ".pdf")
    ensures ExtensionKind(ext) == Ok(TextFile) <==> CaseVariantOf(ext, ".txt") || CaseVariantOf(ext, ".md")
  {
    LowerIsCaseVariant(ext, ".pdf");
    LowerIsCaseVariant(ext, ".txt");
    LowerIsCaseVariant(ext, ".md");
  }

  /** The dispatch ignores letter case and nothing else: it picks the PDF
      reader exactly for the spellings of `.pdf`, the text reader exactly for
      the spellings of `.txt` and `.md`. */
  lemma FileKindIgnoresCase(name: string)
    ensures FileKindOf(name) == Ok(PdfFile) <==> CaseVariantOf(Ext(name), ".pdf")
    ensures FileKindOf(name) == Ok(TextFile) <==> CaseVariantOf(Ext(name), ".txt") || CaseVariantOf(Ext(name), ".md")
  {
    ExtensionKindIgnoresCase(Ext(name));
  }

  /** `load_document`: the readers are only called for a supported extension. */
  function LoadDocument(path: string, readPdf: string -> Result<string>, readText: string -> Result<string>): (r: Result<string>)
    ensures FileKindOf(path).Err? ==> r == Err(FileKindOf(path).error)
    ensures FileKindOf(path) == Ok(PdfFile) ==> r == readPdf(path)
    ensures FileKindOf(path) == Ok(TextFile) ==> r == readText(path)
  {
    var kind :- FileKindOf(path);
    match kind
    case PdfFile => readPdf(path)
    case TextFile => readText(path)
  }

  /** A file handed over by the upload widget. */
  datatype UploadedFile = UploadedFile(name: string, content: seq<bv8>)

  /** `load_uploaded_file`: the same dispatch and the same refusal as
      `load_document`, reading the uploaded bytes instead of a path. */
  function LoadUploadedFile(file: UploadedFile, extractPdf: seq<bv8> -> Result<string>,
                            decodeUtf8: seq<bv8> -> Result<string>): (r: Result<string>)
    ensures FileKindOf(file.name).Err? ==> r == Err(FileKindOf(file.name).error)
    ensures FileKindOf(file.name) == Ok(PdfFile) ==> r == extractPdf(file.content)
    ensures FileKindOf(file.name) == Ok(TextFile) ==> r == decodeUtf8(file.content)
  {
    var kind :- FileKindOf(file.name);
    match kind
    case PdfFile => extractPdf(file.content)
    case TextFile => decodeUtf8(file.content)
  }

  // ---------------------------------------------------------------------------
  // Chunking
  // ---------------------------------------------------------------------------

  /** One document per chunk, numbered from `first`, each with its own copy
      of `base` plus its index. */
  function Stamp(chunks: seq<string>, base: Metadata, first: nat): (r: seq<Document>)
    ensures |r| == |chunks|
    ensures forall i :: 0 <= i < |chunks| ==> r[i] == Document(chunks[i], base[ChunkIndexKey := Int(first + i)])
    decreases |chunks|
  {
    if |chunks| == 0 then []
    else [Document(chunks[0], base[ChunkIndexKey := Int(first)])] + Stamp(chunks[1..], base, first + 1)
  }

  /** `chunk_text`: exactly one document per chunk the splitter returns, in
      order, holding that chunk; its metadata is the caller's (or nothing
      when there is none) plus `chunk_index`, its 0-based position. */
  function ChunkText(text: string, chunkSize: nat, chunkOverlap: nat, metadata: Option<Metadata>,
                     split: (string, nat, nat) -> seq<string>): (r: seq<Document>)
    ensures |r| == |split(text, chunkSize, chunkOverlap)|
    ensures forall i :: 0 <= i < |r| ==>
              && r[i].pageContent == split(text, chunkSize, chunkOverlap)[i]
              && ChunkIndexKey in r[i].metadata
              && r[i].metadata[ChunkIndexKey] == Int(i)
    ensures forall i, key :: 0 <= i < |r| && key != ChunkIndexKey ==>
              (key in r[i].metadata <==> metadata.Some? && key in metadata.value)
    ensures forall i, key :: 0 <= i < |r| && key != ChunkIndexKey && metadata.Some? && key in metadata.value ==>
              key in r[i].metadata && r[i].metadata[key] == metadata.value[key]
  {
    var chunks := split(text, chunkSize, chunkOverlap);
    var base := if metadata.Some? then metadata.value else map[];
    Stamp(chunks, base, 0)
  }

  /** Stamping never shares one dictionary between chunks: each document
      keeps its own index, and the caller's metadata comes back as it went in. */
  lemma ChunksKeepTheirOwnIndex(text: string, metadata: Metadata, split: (string, nat, nat) -> seq<string>, i: nat, j: nat)
    requires ChunkIndexKey !in metadata
    requires i < j < |ChunkText(text, ChunkSize, ChunkOverlap, Some(metadata), split)|
    ensures var docs := ChunkText(text, ChunkSize, ChunkOverlap, Some(metadata), split);
            docs[i].metadata != docs[j].metadata
            && docs[i].metadata - {ChunkIndexKey} == metadata
            && docs[j].metadata - {ChunkIndexKey} == metadata
  {
    var docs := ChunkText(text, ChunkSize, ChunkOverlap, Some(metadata), split);
    assert docs[i].metadata[ChunkIndexKey] != docs[j].metadata[ChunkIndexKey];
  }

  /** `process_uploaded_file`: load, then chunk with `source` set to the file
      name and `file_type` to its lowered extension. */
  function ProcessUploadedFile(file: UploadedFile, extractPdf: seq<bv8> -> Result<string>,
                               decodeUtf8: seq<bv8> -> Result<string>,
                               split: (string, nat, nat) -> seq<string>): (r: Result<seq<Document>>)
    ensures FileKindOf(file.name).Err? ==> r == Err(UnsupportedPrefix + Lower(Ext(file.name)))
    ensures r.Ok? <==> LoadUploadedFile(file, extractPdf, decodeUtf8).Ok?
    ensures r.Ok? ==> Lower(Ext(file.name)) in {".pdf", ".txt", ".md"}
    ensures r.Ok? ==>
              var chunks := split(LoadUploadedFile(file, extractPdf, decodeUtf8).value, ChunkSize, ChunkOverlap);
              |r.value| == |chunks|
              && forall i :: 0 <= i < |r.value| ==>
                   && r.value[i].pageContent == chunks[i]
                   && r.value[i].metadata == map[SourceKey := Str(file.name),
                                                 FileTypeKey := Str(Lower(Ext(file.name))),
                                                 ChunkIndexKey := Int(i)]
  {
    var text :- LoadUploadedFile(file, extractPdf, decodeUtf8);
    var metadata := map[SourceKey := Str(file.name), FileTypeKey := Str(Lower(Ext(file.name)))];
    Ok(ChunkText(text, ChunkSize, ChunkOverlap, Some(metadata), split))
  }
}
