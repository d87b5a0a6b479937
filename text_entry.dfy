/**
 * A text entry of Kontract (src/Kontract/Models/Text/TextEntry.cs): one block of game
 * text kept as raw bytes plus the encoding they are written in, with an optional
 * control-code processor and an optional pager. Every read is computed from the bytes
 * on demand; every write replaces the bytes and raises the "content changed" flag.
 *
 * The encoding, the processor, the pager and ProcessedText itself are defined
 * elsewhere or by .NET; they are uninterpreted here. In particular nothing below assumes
 * that decoding undoes encoding, or that Read undoes Write: the entry only delegates.
 */
module Text {
  import opened Wrappers

  /** Text whose control codes have been recognised. Its structure is not modelled. */
  type ProcessedText(==, 0)

  /** `new ProcessedText(string)`: wraps plain decoded text; uninterpreted. */
  const ProcessedTextFrom: string -> ProcessedText

  /** `ProcessedText.Serialize()`: the plain-string form of a processed text; uninterpreted. */
  const Serialize: ProcessedText -> string

  /** A character encoding, known only through its two conversions. */
  datatype Encoding = Encoding(GetBytes: string -> seq<byte>, GetString: seq<byte> -> string)

  /** `Encoding.UTF8`: a fixed encoding whose conversions are not modelled. */
  const UTF8: Encoding

  /** The strategy behind `IControlCodeProcessor`: converts bytes to processed text and back. */
  datatype ControlCodeProcessor = ControlCodeProcessor(
    Read: (seq<byte>, Encoding) -> ProcessedText,
    Write: (ProcessedText, Encoding) -> seq<byte>)

  /**
   * The strategy behind `ITextPager`: splits processed text into pages and merges pages.
   * Merge receives the caller's page list, whose elements may be null, and may itself
   * return null.
   */
  datatype TextPager = TextPager(
    Split: ProcessedText -> seq<ProcessedText>,
    Merge: seq<Option<ProcessedText>> -> Option<ProcessedText>)

  /**
   * The state of a text entry as a value, with every operation of the entry as a pure
   * function. The class TextEntry below is proved to follow it.
   */
  datatype Entry = Entry(
    textData: seq<byte>,
    encoding: Encoding,
    name: Option<string>,
    processor: Option<ControlCodeProcessor>,
    pager: Option<TextPager>,
    contentChanged: bool)
  {
    predicate CanParseControlCodes() { processor.Some? }

    predicate CanPageText() { pager.Some? }

    function GetText(): (s: string) { encoding.GetString(textData) }

    function GetProcessedText(): (t: ProcessedText)
    {
      if CanParseControlCodes() then processor.value.Read(textData, encoding)
      else ProcessedTextFrom(GetText())
    }

    function GetPagedText(): (pages: seq<ProcessedText>)
    {
      if CanPageText() then pager.value.Split(GetProcessedText())
      else [GetProcessedText()]
    }

    /** The bytes that storing `text` writes: through the processor if there is one. */
    function EncodedBytes(text: ProcessedText): (data: seq<byte>)
    {
      if CanParseControlCodes() then processor.value.Write(text, encoding)
      else encoding.GetBytes(Serialize(text))
    }

    /** Stores the plain serialisation of `text`, ignoring the processor. */
    function SetText(text: ProcessedText): (e: Entry)
      ensures e.textData == encoding.GetBytes(Serialize(text)) && e.contentChanged
      ensures e.encoding == encoding && e.name == name
      ensures e.processor == processor && e.pager == pager
    {
      this.(textData := encoding.GetBytes(Serialize(text)), contentChanged := true)
    }

    /** Stores `text` if present; an absent text changes nothing. */
    function SetProcessedText(text: Option<ProcessedText>): (e: Entry)
      ensures text.None? ==> e == this
      ensures text.Some? ==> e.textData == EncodedBytes(text.value) && e.contentChanged
      ensures e.encoding == encoding && e.name == name
      ensures e.processor == processor && e.pager == pager
    {
      match text
      case None => this
      case Some(t) => this.(textData := EncodedBytes(t), contentChanged := true)
    }

    /**
     * The single text that storing `pages` comes down to: none for no pages, the merge
     * when a pager has several pages to merge, and otherwise the first page.
     */
    function PagesToText(pages: seq<Option<ProcessedText>>): (text: Option<ProcessedText>)
    {
      if |pages| == 0 then None
      else if CanPageText() && |pages| > 1 then pager.value.Merge(pages)
      else pages[0]
    }

    /** Stores a list of pages as the single text they come down to. */
    function SetPagedText(pages: seq<Option<ProcessedText>>): (e: Entry)
      ensures |pages| == 0 ==> e == this
      ensures e.encoding == encoding && e.name == name
      ensures e.processor == processor && e.pager == pager
    {
      SetProcessedText(PagesToText(pages))
    }

    /** A copy that shares every field except the flag, which starts out cleared. */
    function Clone(): (e: Entry)
      ensures e.textData == textData && e.encoding == encoding && e.name == name
      ensures e.processor == processor && e.pager == pager
      ensures !e.contentChanged
    {
      this.(contentChanged := false)
    }
  }

  // ---------------------------------------------------------------------------------
  // Properties of the entry's reads and writes

  /** Reads depend on the bytes, the encoding and the strategies only: never on the name or the flag. */
  lemma ReadsIgnoreNameAndFlag(a: Entry, b: Entry)
    requires a.textData == b.textData && a.encoding == b.encoding
    requires a.processor == b.processor && a.pager == b.pager
    ensures a.GetText() == b.GetText()
    ensures a.GetProcessedText() == b.GetProcessedText()
    ensures a.GetPagedText() == b.GetPagedText()
  {
  }

  /** Without a pager there is exactly one page, and it is the processed text. */
  lemma OnePageWithoutPager(e: Entry)
    requires !e.CanPageText()
    ensures |e.GetPagedText()| == 1 && e.GetPagedText()[0] == e.GetProcessedText()
  {
  }

  /** A clone reads exactly as the original does and has the same capabilities. */
  lemma CloneReadsAlike(e: Entry)
    ensures e.Clone().CanParseControlCodes() == e.CanParseControlCodes()
    ensures e.Clone().CanPageText() == e.CanPageText()
    ensures e.Clone().GetText() == e.GetText()
    ensures e.Clone().GetProcessedText() == e.GetProcessedText()
    ensures e.Clone().GetPagedText() == e.GetPagedText()
  {
  }

  /** Cloning a clone gives the same value again; only the flag of the original is lost. */
  lemma CloneIdempotent(e: Entry)
    ensures e.Clone().Clone() == e.Clone()
    ensures e.Clone() == e <==> !e.contentChanged
  {
  }

  /**
   * Storing a text forgets the previous bytes and the previous flag: two entries with the
   * same encoding, name and strategies end up identical.
   */
  lemma SetProcessedTextForgetsPrevious(a: Entry, b: Entry, t: ProcessedText)
    requires a.encoding == b.encoding && a.name == b.name
    requires a.processor == b.processor && a.pager == b.pager
    ensures a.SetProcessedText(Some(t)) == b.SetProcessedText(Some(t))
  {
  }

  /** Of two stores in a row only the last one matters; in particular storing twice is storing once. */
  lemma SetProcessedTextLastWins(e: Entry, s: Option<ProcessedText>, t: ProcessedText)
    ensures e.SetProcessedText(s).SetProcessedText(Some(t)) == e.SetProcessedText(Some(t))
    ensures e.SetProcessedText(Some(t)).SetProcessedText(Some(t)) == e.SetProcessedText(Some(t))
  {
  }

  /** Without a processor, storing processed text is storing its plain serialisation. */
  lemma SetProcessedTextFallsBackToSetText(e: Entry, t: ProcessedText)
    requires !e.CanParseControlCodes()
    ensures e.SetProcessedText(Some(t)) == e.SetText(t)
  {
  }

  /**
   * Reading back what was stored: with a processor, the entry reads Read(Write(t)); without
   * one, it reads the wrapped decoding of the encoded serialisation. So whenever the
   * strategies happen to undo each other on `t`, the entry gives `t` back, with the flag raised.
   */
  lemma SetProcessedTextReadsBack(e: Entry, t: ProcessedText)
    ensures e.CanParseControlCodes() ==>
      e.SetProcessedText(Some(t)).GetProcessedText()
        == e.processor.value.Read(e.processor.value.Write(t, e.encoding), e.encoding)
    ensures !e.CanParseControlCodes() ==>
      e.SetProcessedText(Some(t)).GetProcessedText()
        == ProcessedTextFrom(e.encoding.GetString(e.encoding.GetBytes(Serialize(t))))
    ensures e.SetProcessedText(Some(t)).contentChanged
  {
  }

  /** The same fact with the round trip as a hypothesis: the stored text is read back unchanged. */
  lemma SetProcessedTextConverges(e: Entry, t: ProcessedText)
    requires e.CanParseControlCodes() ==>
      e.processor.value.Read(e.processor.value.Write(t, e.encoding), e.encoding) == t
    requires !e.CanParseControlCodes() ==>
      ProcessedTextFrom(e.encoding.GetString(e.encoding.GetBytes(Serialize(t)))) == t
    ensures e.SetProcessedText(Some(t)).GetProcessedText() == t
  {
  }

  /** An empty page list changes nothing. */
  lemma SetPagedTextEmptyIsNoOp(e: Entry)
    ensures e.SetPagedText([]) == e
  {
  }

  /** One page is stored exactly as SetProcessedText would store it, pager or not. */
  lemma SetPagedTextSinglePage(e: Entry, p: Option<ProcessedText>)
    ensures e.SetPagedText([p]) == e.SetProcessedText(p)
  {
  }

  /** With a pager and several pages, the pages are merged and the merge is stored. */
  lemma SetPagedTextMerges(e: Entry, pages: seq<Option<ProcessedText>>)
    requires e.CanPageText() && |pages| > 1
    ensures e.SetPagedText(pages) == e.SetProcessedText(e.pager.value.Merge(pages))
  {
  }

  /** Without a pager only the first page is stored: every later page is ignored. */
  lemma SetPagedTextWithoutPagerKeepsFirst(e: Entry, pages: seq<Option<ProcessedText>>)
    requires !e.CanPageText() && |pages| > 0
    ensures e.SetPagedText(pages) == e.SetProcessedText(pages[0])
    ensures e.SetPagedText(pages) == e.SetPagedText(pages[..1])
  {
  }

  /**
   * Without a pager, storing one page that the strategies round-trip makes the entry
   * read back exactly that one page.
   */
  lemma SetPagedTextConvergesWithoutPager(e: Entry, p: ProcessedText)
    requires !e.CanPageText()
    requires e.CanParseControlCodes() ==>
      e.processor.value.Read(e.processor.value.Write(p, e.encoding), e.encoding) == p
    requires !e.CanParseControlCodes() ==>
      ProcessedTextFrom(e.encoding.GetString(e.encoding.GetBytes(Serialize(p)))) == p
    ensures e.SetPagedText([Some(p)]).GetPagedText() == [p]
  {
  }

  // ---------------------------------------------------------------------------------
  // The mutable object

  /**
   * `TextEntry`. The fields are the source's properties. In the source `textData`,
   * `encoding` and `contentChanged` have private setters, so only the members below can
   * assign them; Dafny has no private fields, so here that is a convention only, and a
   * client could assign them directly (clearing `contentChanged`, for one). `name`,
   * `controlCodeProcessor` and `textPager` are public properties that any client may assign.
   * The getter functions only forward to the same-named functions of `Value()`, stating
   * over the fields what they compute.
   */
  class TextEntry {
    var textData: seq<byte>
    var encoding: Encoding
    var name: Option<string>
    var controlCodeProcessor: Option<ControlCodeProcessor>
    var textPager: Option<TextPager>
    var contentChanged: bool

    /** The current state as a value. */
    function Value(): Entry
      reads this
    {
      Entry(textData, encoding, name, controlCodeProcessor, textPager, contentChanged)
    }

    /** `TextEntry(byte[] textData, Encoding encoding)`. */
    constructor (textData: seq<byte>, encoding: Encoding)
      ensures Value() == Entry(textData, encoding, None, None, None, false)
    {
      this.textData := textData;
      this.encoding := encoding;
      name := None;
      controlCodeProcessor := None;
      textPager := None;
      contentChanged := false;
    }

    /** `TextEntry(string text)`: the text encoded with the default encoding, UTF-8. */
    constructor FromString(text: string)
      ensures Value() == Entry(UTF8.GetBytes(text), UTF8, None, None, None, false)
    {
      encoding := UTF8;
      textData := UTF8.GetBytes(text);
      name := None;
      controlCodeProcessor := None;
      textPager := None;
      contentChanged := false;
    }

    predicate CanParseControlCodes()
      reads this
      ensures CanParseControlCodes() <==> controlCodeProcessor.Some?
    {
      Value().CanParseControlCodes()
    }

    predicate CanPageText()
      reads this
      ensures CanPageText() <==> textPager.Some?
    {
      Value().CanPageText()
    }

    function GetText(): (s: string)
      reads this
      ensures s == encoding.GetString(textData)
    {
      Value().GetText()
    }

    function GetProcessedText(): (t: ProcessedText)
      reads this
      ensures controlCodeProcessor.Some? ==>
        t == controlCodeProcessor.value.Read(textData, encoding)
      ensures controlCodeProcessor.None? ==>
        t == ProcessedTextFrom(encoding.GetString(textData))
    {
      Value().GetProcessedText()
    }

    function GetPagedText(): (pages: seq<ProcessedText>)
      reads this
      ensures textPager.Some? ==> pages == textPager.value.Split(GetProcessedText())
      ensures textPager.None? ==> pages == [GetProcessedText()]
    {
      Value().GetPagedText()
    }

    method SetText(text: ProcessedText)
      modifies this
      ensures Value() == old(Value()).SetText(text)
    {
      textData := encoding.GetBytes(Serialize(text));
      contentChanged := true;
    }

    method SetProcessedText(text: Option<ProcessedText>)
      modifies this
      ensures Value() == old(Value()).SetProcessedText(text)
    {
      if text.None? {
        return;
      }

      if CanParseControlCodes() {
        textData := controlCodeProcessor.value.Write(text.value, encoding);
        contentChanged := true;
        return;
      }

      SetText(text.value);
    }

    method SetPagedText(pages: seq<Option<ProcessedText>>)
      modifies this
      ensures Value() == old(Value()).SetPagedText(pages)
    {
      if |pages| <= 0 {
        return;
      }

      if CanPageText() && |pages| > 1 {
        SetProcessedText(textPager.value.Merge(pages));
        return;
      }

      SetProcessedText(pages[0]);
    }

    /** A new entry sharing this one's fields, with the flag cleared. */
    method Clone() returns (c: TextEntry)
      ensures fresh(c)
      ensures c.Value() == Value().Clone()
    {
      c := new TextEntry(textData, encoding);
      c.name := name;
      c.controlCodeProcessor := controlCodeProcessor;
      c.textPager := textPager;
    }
  }
}
