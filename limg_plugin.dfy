/**
 * The LIMG image plugin of the Level-5 plugin set
 * (plugins/Level5/plugin_level5/Images/LimgPlugin.cs): constant metadata, a
 * four-byte magic check that identifies the format, and construction of the state that
 * later loads a file.
 *
 * Opening the file is I/O and is abstracted away: identification is a predicate on the
 * bytes of the file. The reader's `ReadString(4)` (BinaryReaderX is not part of this
 * model) is modelled as taking at most four bytes from the start of the file, fewer when
 * the file is shorter, and decoding each one as an ASCII character, with '?' for a byte
 * above 0x7F as .NET's ASCII decoder does.
 */
module Limg {
  import opened Wrappers

  /** The descriptive metadata a plugin shows its host. */
  datatype PluginMetadata = PluginMetadata(name: string, author: string, longDescription: string)

  /** `PluginId`, the GUID in its canonical text form (parsing the GUID is not modelled). */
  const PluginId: string := "169acf3f-ccc8-4193-b32c-84b44c0f6f68"

  /** `FileExtensions`: the file-name globs the format is offered for. */
  const FileExtensions: seq<string> := ["*.cimg"]

  /** `Metadata`, as the plugin's constructor sets it. */
  const Metadata: PluginMetadata :=
    PluginMetadata("LIMG", "onepiecefreak", "Main image for later DS Level-5 games.")

  /** The magic that starts every LIMG file. */
  const Magic: string := "LIMG"

  /** The same magic as bytes: 4C 49 4D 47. */
  const MagicBytes: seq<byte> := [0x4C, 0x49, 0x4D, 0x47]

  /** One byte decoded as ASCII. */
  function AsciiChar(b: byte): (c: char)
    ensures b < 0x80 ==> c as int == b as int
    ensures 0x80 <= b ==> c == '?'
  {
    if b < 0x80 then (b as int) as char else '?'
  }

  /** Bytes decoded as ASCII, one character per byte. */
  function AsciiString(data: seq<byte>): (s: string)
    ensures |s| == |data|
    ensures forall i :: 0 <= i < |data| ==> s[i] == AsciiChar(data[i])
  {
    if data == [] then "" else [AsciiChar(data[0])] + AsciiString(data[1..])
  }

  /** `ReadString(length)` at the start of the file: the decoded first `length` bytes, or all there are. */
  function ReadString(file: seq<byte>, length: nat): (s: string)
    ensures |s| == if |file| < length then |file| else length
    ensures forall i :: 0 <= i < |s| ==> s[i] == AsciiChar(file[i])
  {
    AsciiString(if |file| < length then file else file[..length])
  }

  /** `IdentifyAsync`: the file is LIMG exactly when its first four bytes are 4C 49 4D 47. */
  predicate Identify(file: seq<byte>)
    ensures Identify(file) <==> |file| >= 4 && file[..4] == MagicBytes
  {
    ReadString(file, 4) == Magic
  }

  /** Only the first four bytes are looked at: whatever follows them never changes the answer. */
  lemma IdentifyReadsOnlyHeader(header: seq<byte>, rest: seq<byte>)
    requires |header| == 4
    ensures Identify(header + rest) == Identify(header)
  {
  }

  /** A file that differs from the magic at any of its first four positions is rejected. */
  lemma IdentifyRejectsMismatch(file: seq<byte>, i: nat)
    requires i < 4 && i < |file| && file[i] != MagicBytes[i]
    ensures !Identify(file)
  {
  }

  /** A file shorter than the magic is rejected. */
  lemma IdentifyRejectsShort(file: seq<byte>)
    requires |file| < 4
    ensures !Identify(file)
  {
  }

  /** Any file that starts with the magic is accepted, whatever its payload. */
  lemma IdentifyAcceptsMagic(payload: seq<byte>)
    ensures Identify(MagicBytes + payload)
  {
  }

  /**
   * The descriptor values the host sees, gathered in one statement. This documents the
   * constants above rather than proving anything about them: each is fixed by its
   * initialiser, so every access gives the same value.
   */
  lemma DescriptorConstants()
    ensures PluginId == "169acf3f-ccc8-4193-b32c-84b44c0f6f68"
    ensures FileExtensions == ["*.cimg"] && |FileExtensions| == 1
    ensures Metadata.name == Magic && Metadata.author == "onepiecefreak"
  {
  }

  /** The plugin manager the host passes in; its capabilities are not modelled. */
  type PluginManager

  /** The state of one opened LIMG file; its loading and saving are not part of this model. */
  class LimgState {
    constructor ()
    {
    }
  }

  /** `CreatePluginState`: a new LIMG state, whatever manager is passed. */
  method CreatePluginState(pluginManager: PluginManager) returns (state: LimgState)
    ensures fresh(state)
  {
    state := new LimgState();
  }
}
