/**
 * Loading an uploaded file into a `File` of name and text (accord/file_loader.py).
 * The extension is pathlib's `suffix` of the upload's name; it must be in the
 * configured allow-list, and it picks how the bytes become text. The parsing
 * libraries (UTF-8 decoding, PDF page text, DOCX paragraphs) are parameters.
 */
module FileLoader {
  import opened Results
  import opened Text

  newtype byte = x: int | 0 <= x < 256

  const TextFileExtension: string := ".txt"
  const PdfExtension: string := ".pdf"
  const MdFileExtension: string := ".md"
  const DocxExtension: string := ".docx"

  datatype File = File(name: string, content: string)

  /** Extensions whose bytes are decoded as UTF-8 text. */
  predicate IsPlainText(extension: string)
  {
    extension == TextFileExtension || extension == MdFileExtension
  }

  /** Extensions `load_file` has a reader for. */
  predicate HasReader(extension: string)
  {
    IsPlainText(extension) || extension == PdfExtension || extension == DocxExtension
  }

  /** A file as the upload widget hands it over: its name and its bytes. */
  datatype Upload = Upload(name: string, data: seq<byte>)

  /** What the libraries make of an upload's bytes. */
  datatype Parsers = Parsers(
    decodeUtf8: seq<byte> -> Option<string>,     // bytes.decode("utf-8"); None when it raises
    pdfPageTexts: seq<byte> -> Option<seq<string>>,    // get_textpage().get_text_bounded() of each page, in page order; None when PdfDocument raises
    docxParagraphs: seq<byte> -> Option<seq<string>>)  // the .text of each paragraph, in document order; None when Document raises

  /** The index of the last `c` in `s`, as `str.rfind` gives it (None for -1). */
  function LastIndex(s: string, c: char): (r: Option<nat>)
    ensures r.Some? ==> r.value < |s| && s[r.value] == c && forall j :: r.value < j < |s| ==> s[j] != c
    ensures r.None? ==> c !in s
  {
    if s == [] then None
    else if s[|s| - 1] == c then Some(|s| - 1)
    else LastIndex(s[..|s| - 1], c)
  }

  /** `PurePath(path).name`: the text after the last '/'. */
  function FinalComponent(path: string): (name: string)
    ensures '/' !in name
    ensures |name| <= |path| && path[|path| - |name|..] == name
    ensures |name| == |path| || path[|path| - |name| - 1] == '/'
  {
    if path == [] then ""
    else if path[|path| - 1] == '/' then ""
    else FinalComponent(path[..|path| - 1]) + [path[|path| - 1]]
  }

  /**
   * `PurePath(path).suffix`: from the last '.' of the final component, when that dot
   * is neither the component's first nor its last character; otherwise "".
   */
  function Suffix(path: string): (ext: string)
    ensures ext != "" ==> |ext| >= 2 && ext[0] == '.' && '.' !in ext[1..] && '/' !in ext
    ensures ext != "" ==> |ext| < |path| && path[|path| - |ext|..] == ext
    ensures ext != "" ==> path[|path| - |ext| - 1] != '/'
  {
    var name := FinalComponent(path);
    match LastIndex(name, '.')
    case None => ""
    case Some(i) =>
      if 0 < i < |name| - 1 then
        assert name[i..][1..] == name[i + 1..];
        name[i..]
      else ""
  }

  /**
   * Every name that ends in a dot and a dot-free, slash-free word, with something other
   * than a '/' before that dot, has exactly that dot and word as its extension.
   */
  lemma {:induction false} SuffixOfDottedName(stem: string, word: string)
    requires stem != "" && stem[|stem| - 1] != '/'
    requires word != "" && '.' !in word && '/' !in word
    ensures Suffix(stem + "." + word) == "." + word
  {
    var tail := "." + word;
    assert tail[1..] == word;
    assert stem + "." + word == stem + tail;
    SuffixOfDotTail(stem + "." + word, stem, tail);
  }

  /** A path ending in a dot-led, dot-free tail inside its final component has that tail as its extension. */
  lemma {:induction false} SuffixOfDotTail(path: string, stem: string, tail: string)
    requires path == stem + tail
    requires stem != "" && stem[|stem| - 1] != '/'
    requires |tail| >= 2 && tail[0] == '.' && '.' !in tail[1..] && '/' !in tail
    ensures Suffix(path) == tail
  {
    FinalComponentKeepsSlashFreeTail(stem, tail);
    SuffixOfComponentTail(path, tail);
  }

  /** A final component ending in a dot-led, dot-free tail, with something before that dot, has that tail as its extension. */
  lemma {:induction false} SuffixOfComponentTail(path: string, tail: string)
    requires |FinalComponent(path)| > |tail| && FinalComponent(path)[|FinalComponent(path)| - |tail|..] == tail
    requires |tail| >= 2 && tail[0] == '.' && '.' !in tail[1..]
    ensures Suffix(path) == tail
  {
    var name := FinalComponent(path);
    var i := |name| - |tail|;
    assert LastIndex(name, '.') == Some(i) by {
      LastDotOfTail(name, tail);
    }
    assert Suffix(path) == name[i..] by {
      SuffixFromDot(path, i);
    }
  }

  /** The extension starts at the final component's last dot when that dot is inside it. */
  lemma {:induction false} SuffixFromDot(path: string, i: nat)
    requires LastIndex(FinalComponent(path), '.') == Some(i)
    requires 0 < i < |FinalComponent(path)| - 1
    ensures Suffix(path) == FinalComponent(path)[i..]
  {
  }

  /** The last '.' of a name ending in a dot-led, dot-free tail is the tail's dot. */
  lemma {:induction false} LastDotOfTail(name: string, tail: string)
    requires |name| > |tail| >= 1 && name[|name| - |tail|..] == tail
    requires tail[0] == '.' && '.' !in tail[1..]
    ensures LastIndex(name, '.') == Some(|name| - |tail|)
  {
    var i := |name| - |tail|;
    assert name[i] == tail[0];
    forall j | i < j < |name|
      ensures name[j] != '.'
    {
      assert name[j] == tail[j - i] == tail[1..][j - i - 1];
    }
    LastIndexIsUnique(name, '.', i);
  }

  /** A position holding `c` with no `c` after it is what `LastIndex` finds. */
  lemma LastIndexIsUnique(s: string, c: char, i: nat)
    requires i < |s| && s[i] == c
    requires forall j :: i < j < |s| ==> s[j] != c
    ensures LastIndex(s, c) == Some(i)
  {
  }

  /** A slash-free tail after a character other than '/' stays inside the final component. */
  lemma {:induction false} FinalComponentKeepsSlashFreeTail(stem: string, tail: string)
    requires stem != "" && stem[|stem| - 1] != '/'
    requires '/' !in tail
    ensures |FinalComponent(stem + tail)| > |tail|
    ensures FinalComponent(stem + tail)[|FinalComponent(stem + tail)| - |tail|..] == tail
  {
    if tail != [] {
      var init, last := tail[..|tail| - 1], tail[|tail| - 1];
      SplitLast(stem, tail);
      FinalComponentKeepsSlashFreeTail(stem, init);
      FinalComponentSnoc(stem + init, last);
      SnocKeepsTail(FinalComponent(stem + init), init, last);
    } else {
      SplitLast([], stem);
      FinalComponentSnoc(stem[..|stem| - 1], stem[|stem| - 1]);
    }
  }

  /** `a + b` is `a` followed by all but the last of `b`, then that last character. */
  lemma SplitLast(a: string, b: string)
    requires b != []
    ensures a + b == (a + b[..|b| - 1]) + [b[|b| - 1]]
    ensures b == b[..|b| - 1] + [b[|b| - 1]]
  {
  }

  /** A character other than '/' appended to a path is appended to its final component. */
  lemma FinalComponentSnoc(path: string, c: char)
    requires c != '/'
    ensures FinalComponent(path + [c]) == FinalComponent(path) + [c]
  {
    assert (path + [c])[..|path|] == path;
  }

  /** Appending a character to a string that ends in `t` gives one that ends in `t` and that character. */
  lemma SnocKeepsTail(s: string, t: string, c: char)
    requires |s| > |t| && s[|s| - |t|..] == t
    ensures (s + [c])[|s + [c]| - |t + [c]|..] == t + [c]
  {
    assert (s + [c])[|s| - |t|..] == s[|s| - |t|..] + [c];
  }

  /** The text of a PDF: its page texts appended one after the other, in page order, as `"".join` gives them. */
  function PdfText(pageTexts: seq<string>): (text: string)
    ensures text == Join("", pageTexts)
    ensures |text| == TotalLength(pageTexts)
  {
    if pageTexts == [] then ""
    else
      var init := pageTexts[..|pageTexts| - 1];
      assert init + [pageTexts[|pageTexts| - 1]] == pageTexts;
      PdfText(init) + pageTexts[|pageTexts| - 1]
  }

  /** `extract_pdf_content`: the loop over the pages builds `PdfText` of the page texts. */
  method ExtractPdfContent(pageTexts: seq<string>) returns (content: string)
    ensures content == PdfText(pageTexts)
    ensures |content| == TotalLength(pageTexts)
  {
    content := "";
    var i := 0;
    while i < |pageTexts|
      invariant 0 <= i <= |pageTexts|
      invariant content == PdfText(pageTexts[..i])
    {
      assert pageTexts[..i + 1][..i] == pageTexts[..i];
      content := content + pageTexts[i];
      i := i + 1;
    }
    assert pageTexts[..i] == pageTexts;
  }

  /** `extract_docx_content`: `"\n".join` of the paragraph texts. */
  function ExtractDocxContent(paragraphs: seq<string>): (text: string)
    ensures paragraphs == [] ==> text == ""
    ensures |paragraphs| == 1 ==> text == paragraphs[0]
    ensures |paragraphs| > 1 ==> text == paragraphs[0] + "\n" + ExtractDocxContent(paragraphs[1..])
    ensures paragraphs != [] ==> |text| == TotalLength(paragraphs) + |paragraphs| - 1
  {
    if |paragraphs| > 1 then
      JoinCons("\n", paragraphs[0], paragraphs[1..]);
      assert [paragraphs[0]] + paragraphs[1..] == paragraphs;
      JoinLength("\n", paragraphs);
      Join("\n", paragraphs)
    else if |paragraphs| == 1 then
      JoinLength("\n", paragraphs);
      Join("\n", paragraphs)
    else Join("\n", paragraphs)
  }

  /** `load_file`: reject an extension outside `allowed`, else dispatch on it. */
  function LoadFile(upload: Upload, allowed: seq<string>, parsers: Parsers): (r: Result<File>)
    ensures Suffix(upload.name) !in allowed <==> r == Err(ExtensionNotAllowed(Suffix(upload.name)))
    ensures r.Ok? ==> r.value.name == upload.name
    ensures r.Err? ==> r.error in {ExtensionNotAllowed(Suffix(upload.name)), InvalidUtf8, UnreadablePdf, UnreadableDocx}
    ensures r == Err(InvalidUtf8) <==>
      && Suffix(upload.name) in allowed
      && IsPlainText(Suffix(upload.name))
      && parsers.decodeUtf8(upload.data).None?
    ensures r.Ok? && IsPlainText(Suffix(upload.name)) ==>
      Some(r.value.content) == parsers.decodeUtf8(upload.data)
    ensures r == Err(UnreadablePdf) <==>
      && Suffix(upload.name) in allowed
      && Suffix(upload.name) == PdfExtension
      && parsers.pdfPageTexts(upload.data).None?
    ensures r == Err(UnreadableDocx) <==>
      && Suffix(upload.name) in allowed
      && Suffix(upload.name) == DocxExtension
      && parsers.docxParagraphs(upload.data).None?
    ensures r.Ok? && Suffix(upload.name) == PdfExtension ==>
      parsers.pdfPageTexts(upload.data).Some? && r.value.content == PdfText(parsers.pdfPageTexts(upload.data).value)
    ensures r.Ok? && Suffix(upload.name) == DocxExtension ==>
      parsers.docxParagraphs(upload.data).Some? && r.value.content == ExtractDocxContent(parsers.docxParagraphs(upload.data).value)
    ensures Suffix(upload.name) in allowed && !HasReader(Suffix(upload.name)) ==>
      r == Ok(File(upload.name, ""))
  {
    var extension := Suffix(upload.name);
    if extension !in allowed then Err(ExtensionNotAllowed(extension))
    else if IsPlainText(extension) then
      match parsers.decodeUtf8(upload.data)
      case None => Err(InvalidUtf8)
      case Some(text) => Ok(File(upload.name, text))
    else if extension == PdfExtension then
      match parsers.pdfPageTexts(upload.data)
      case None => Err(UnreadablePdf)
      case Some(pages) => Ok(File(upload.name, PdfText(pages)))
    else if extension == DocxExtension then
      match parsers.docxParagraphs(upload.data)
      case None => Err(UnreadableDocx)
      case Some(paragraphs) => Ok(File(upload.name, ExtractDocxContent(paragraphs)))
    else Ok(File(upload.name, ""))
  }

  /**
   * A name `stem.word` is loaded by the reader of ".word": rejected when ".word" is not
   * allowed, otherwise decoded, read page by page or read paragraph by paragraph, or
   * raising what that reader raises.
   */
  lemma LoadFileByExtension(stem: string, word: string, data: seq<byte>, allowed: seq<string>, parsers: Parsers)
    requires stem != "" && stem[|stem| - 1] != '/'
    requires word != "" && '.' !in word && '/' !in word
    ensures var name := stem + "." + word;
      var extension := "." + word;
      var r := LoadFile(Upload(name, data), allowed, parsers);
      && (extension !in allowed ==> r == Err(ExtensionNotAllowed(extension)))
      && (extension in allowed && IsPlainText(extension) ==>
            r == match parsers.decodeUtf8(data) case None => Err(InvalidUtf8) case Some(text) => Ok(File(name, text)))
      && (extension in allowed && extension == PdfExtension ==>
            r == match parsers.pdfPageTexts(data) case None => Err(UnreadablePdf) case Some(pages) => Ok(File(name, PdfText(pages))))
      && (extension in allowed && extension == DocxExtension ==>
            r == match parsers.docxParagraphs(data)
                 case None => Err(UnreadableDocx)
                 case Some(paragraphs) => Ok(File(name, ExtractDocxContent(paragraphs))))
      && (extension in allowed && !HasReader(extension) ==> r == Ok(File(name, "")))
  {
    SuffixOfDottedName(stem, word);
  }
}
