# Kuriimu2 text entries and the LIMG identifier, in Dafny

This project models two pieces of the Kuriimu2 game-asset framework and proves properties of them.

- **`TextEntry`** (module `Text`, file `text_entry.dfy`). It holds one block of game text as raw bytes plus the encoding they are written in. It can carry an optional control-code processor and an optional pager, and it keeps a "content changed" flag. Reads are computed from the bytes on demand. Every write replaces the bytes and raises the flag.
  - The pure value `Text.Entry` defines every operation as a function.
  - The class `Text.TextEntry` has the source's fields. Its setter methods follow the source's branches and are proved to produce exactly `old(Value()).SetX(...)`.
  - The lemmas state the source's promises about these functions: delegation, no-op cases, "nothing else changes", last write wins, pages, and clones.
- **The LIMG plugin** (module `Limg`, file `limg_plugin.dfy`). It has constant metadata and a four-byte magic check. `Identify` is a predicate on the file's bytes, proved to hold exactly when the file starts with `4C 49 4D 47`.

`Option` and `byte` live in module `Wrappers` (`wrappers.dfy`).

External pieces are left uninterpreted. These are the encoding's conversions, `Encoding.UTF8`, the `ProcessedText` constructor and `Serialize`, and the processor's and pager's methods. Each is either a constant declared without a value or a field of a record of functions (`Encoding`, `ControlCodeProcessor`, `TextPager`). No round-trip law is assumed for them. The convergence lemmas take any round trip they need as a hypothesis.

Three behaviours of the code worth noting:
- `Clone` does not copy `ContentChanged`. The clone always starts with the flag cleared.
- With a pager attached, `GetPagedText` returns whatever `Split` returns. The code does not ensure that list is non-empty.
- `IdentifyAsync` does not catch read errors itself.

## Model

| member | source | states |
|---|---|---|
| `Text.Entry.SetText` | src/Kontract/Models/Text/TextEntry.cs:123-127 | stores the encoded serialisation of the text and raises the flag; encoding, name, processor and pager unchanged |
| `Text.Entry.SetProcessedText` | src/Kontract/Models/Text/TextEntry.cs:133-147 | a null text returns the entry unchanged; otherwise the bytes become the processor's Write output, or the encoded serialisation when there is no processor, and the flag is raised; encoding, name and strategies unchanged |
| `Text.Entry.SetPagedText` | src/Kontract/Models/Text/TextEntry.cs:153-165 | an empty page list is a no-op; encoding, name and strategies are never changed |
| `Text.Entry.Clone` | src/Kontract/Models/Text/TextEntry.cs:169-179 | same bytes, encoding, name, processor and pager; flag cleared whatever the original's |
| `Text.Entry.CanParseControlCodes` | src/Kontract/Models/Text/TextEntry.cs:45 | the presence test on the processor (definition; its properties are in the `TextEntry` rows and the lemmas) |
| `Text.Entry.CanPageText` | src/Kontract/Models/Text/TextEntry.cs:50 | the presence test on the pager (definition) |
| `Text.Entry.GetText` | src/Kontract/Models/Text/TextEntry.cs:85-88 | the bytes decoded with the encoding (definition) |
| `Text.Entry.GetProcessedText` | src/Kontract/Models/Text/TextEntry.cs:94-100 | Read through the processor if attached, otherwise the wrapped decoded text (definition) |
| `Text.Entry.GetPagedText` | src/Kontract/Models/Text/TextEntry.cs:107-113 | Split by the pager if attached, otherwise the one-element list (definition; see `Text.OnePageWithoutPager`) |
| `Text.Entry.EncodedBytes` | src/Kontract/Models/Text/TextEntry.cs:138-146 | the bytes a non-null store writes: the processor's Write with a processor, otherwise the encoded serialisation that SetText writes (definition; see `Text.SetProcessedTextFallsBackToSetText`) |
| `Text.Entry.PagesToText` | src/Kontract/Models/Text/TextEntry.cs:155-164 | the one text a page list comes down to: none for an empty list, the merge with a pager and several pages, otherwise the first page (definition; see the `SetPagedText` lemmas) |
| `Text.ReadsIgnoreNameAndFlag` | src/Kontract/Models/Text/TextEntry.cs:85-113 | all three reads depend only on bytes, encoding and strategies, never on the name or the flag |
| `Text.OnePageWithoutPager` | src/Kontract/Models/Text/TextEntry.cs:107-113 | without a pager there is exactly one page, equal to the processed text |
| `Text.CloneReadsAlike` | src/Kontract/Models/Text/TextEntry.cs:169-179 | a clone has the same capabilities and gives the same text, processed text and pages as the original |
| `Text.CloneIdempotent` | src/Kontract/Models/Text/TextEntry.cs:169-179 | cloning a clone changes nothing; a clone equals its original exactly when the original's flag is clear |
| `Text.SetProcessedTextForgetsPrevious` | src/Kontract/Models/Text/TextEntry.cs:133-147 | after storing a text the entry no longer depends on its previous bytes or flag |
| `Text.SetProcessedTextLastWins` | src/Kontract/Models/Text/TextEntry.cs:133-147 | of two stores in a row only the last matters; storing the same text twice is storing it once |
| `Text.SetProcessedTextFallsBackToSetText` | src/Kontract/Models/Text/TextEntry.cs:138-146 | without a processor, SetProcessedText of a text is SetText of it |
| `Text.SetProcessedTextReadsBack` | src/Kontract/Models/Text/TextEntry.cs:94-100 | after a store the entry reads Read(Write(t)) with a processor, and the wrapped decoding of the encoded serialisation without one; the flag is raised |
| `Text.SetProcessedTextConverges` | src/Kontract/Models/Text/TextEntry.cs:94-147 | if the strategies undo each other on t, then after storing t the entry reads t back |
| `Text.SetPagedTextEmptyIsNoOp` | src/Kontract/Models/Text/TextEntry.cs:155-156 | an empty page list leaves the entry exactly as it was |
| `Text.SetPagedTextSinglePage` | src/Kontract/Models/Text/TextEntry.cs:158-164 | a one-page list is stored exactly as SetProcessedText stores that page, pager or not |
| `Text.SetPagedTextMerges` | src/Kontract/Models/Text/TextEntry.cs:158-162 | with a pager and more than one page, the result is SetProcessedText of the pager's merge |
| `Text.SetPagedTextWithoutPagerKeepsFirst` | src/Kontract/Models/Text/TextEntry.cs:158-164 | without a pager only the first page is stored; the list and its first page alone give the same result |
| `Text.SetPagedTextConvergesWithoutPager` | src/Kontract/Models/Text/TextEntry.cs:107-165 | without a pager, storing one page that the strategies round-trip makes the entry read back exactly that one page |
| `Text.TextEntry.constructor` | src/Kontract/Models/Text/TextEntry.cs:57-61 | the entry holds the given bytes and encoding, no name, no strategies and a clear flag |
| `Text.TextEntry.FromString` | src/Kontract/Models/Text/TextEntry.cs:67-70 | the encoding is the default one set at line 20, UTF-8, and the bytes are UTF-8 encoding of the text; no name, no strategies, flag clear |
| `Text.TextEntry.CanParseControlCodes` | src/Kontract/Models/Text/TextEntry.cs:45 | holds exactly when a processor is attached |
| `Text.TextEntry.CanPageText` | src/Kontract/Models/Text/TextEntry.cs:50 | holds exactly when a pager is attached |
| `Text.TextEntry.GetText` | src/Kontract/Models/Text/TextEntry.cs:85-88 | the bytes decoded with the entry's encoding |
| `Text.TextEntry.GetProcessedText` | src/Kontract/Models/Text/TextEntry.cs:94-100 | the processor's Read of bytes and encoding when one is attached, otherwise the decoded text wrapped as processed text |
| `Text.TextEntry.GetPagedText` | src/Kontract/Models/Text/TextEntry.cs:107-113 | the pager's Split of the processed text when one is attached, otherwise a one-element list holding the processed text |
| `Text.TextEntry.SetText` | src/Kontract/Models/Text/TextEntry.cs:123-127 | the new state is Entry.SetText of the old state |
| `Text.TextEntry.SetProcessedText` | src/Kontract/Models/Text/TextEntry.cs:133-147 | the new state is Entry.SetProcessedText of the old state |
| `Text.TextEntry.SetPagedText` | src/Kontract/Models/Text/TextEntry.cs:153-165 | the new state is Entry.SetPagedText of the old state |
| `Text.TextEntry.Clone` | src/Kontract/Models/Text/TextEntry.cs:169-179 | a fresh entry whose state is Entry.Clone of this one's |
| `Limg.AsciiChar` | plugins/Level5/plugin_level5/Images/LimgPlugin.cs:30 | an ASCII byte decodes to the character with the same code; any byte above 0x7F decodes to '?' |
| `Limg.AsciiString` | plugins/Level5/plugin_level5/Images/LimgPlugin.cs:30 | decoding keeps the length and decodes each byte on its own |
| `Limg.ReadString` | plugins/Level5/plugin_level5/Images/LimgPlugin.cs:30 | the string read has `length` characters, or fewer when the file is shorter, and character i is byte i of the file decoded as ASCII |
| `Limg.Identify` | plugins/Level5/plugin_level5/Images/LimgPlugin.cs:25-31 | true exactly when the file has at least four bytes and they are 4C 49 4D 47; reading the string "LIMG" is the same as finding those bytes |
| `Limg.IdentifyReadsOnlyHeader` | plugins/Level5/plugin_level5/Images/LimgPlugin.cs:30 | bytes after offset 4 never change the result |
| `Limg.IdentifyRejectsMismatch` | plugins/Level5/plugin_level5/Images/LimgPlugin.cs:30 | a file that differs from the magic at any of its first four positions is rejected |
| `Limg.IdentifyRejectsShort` | plugins/Level5/plugin_level5/Images/LimgPlugin.cs:30 | a file shorter than four bytes is rejected |
| `Limg.IdentifyAcceptsMagic` | plugins/Level5/plugin_level5/Images/LimgPlugin.cs:30 | the magic followed by any payload is accepted |
| `Limg.DescriptorConstants` | plugins/Level5/plugin_level5/Images/LimgPlugin.cs:16-23 | the plugin id is the GUID text 169acf3f-ccc8-4193-b32c-84b44c0f6f68; the extension list is exactly "*.cimg"; the metadata names "LIMG" by "onepiecefreak" |
| `Limg.CreatePluginState` | plugins/Level5/plugin_level5/Images/LimgPlugin.cs:33-36 | returns a newly built LIMG state and ignores the manager |

## Left out

- Opening the file in `IdentifyAsync` is left out. So are its `async` task and the `BinaryReaderX` stream handling. These are I/O, so identification is a predicate on the file's bytes.
- `BinaryReaderX.ReadString` is not part of this model. It is modelled as reading at most four bytes and decoding each byte as ASCII, with '?' for bytes above 0x7F. A file shorter than four bytes therefore reads as a shorter string and is not identified. This is a modelling choice: the real reader could instead throw at end of stream.
- `Limg.DescriptorConstants`: `PluginId` is kept as the GUID's canonical text, because `Guid.Parse` is a .NET call. Every access gives the same value because it is a constant.
- `LimgState` is not part of this model. `Limg.LimgState` stands for it with no fields. The `IPluginManager` argument is an opaque type.
- The following are .NET or defined outside the core, so they stay uninterpreted and no law about them is assumed:
  - concrete `Encoding` behaviour (UTF-8 internals);
  - the structure of `ProcessedText`, its constructor from a string and `Serialize`;
  - every concrete `IControlCodeProcessor` and `ITextPager`.
- `TextEntry.TextData` is a `byte[]` reference in the source. The constructor stores the caller's array and `Clone` shares it. The model keeps it as a value (`seq<byte>`), so aliasing of that array is not modelled.
- Null is modelled only where the source checks for it or passes it on:
  - the argument of `SetProcessedText`;
  - the elements of the page list;
  - the result of `Merge`.

  What the model does not track:
  - The results of `Read`, `Write` and `Split`, and the elements of the list `Split` returns, are taken as non-null.
  - A null argument to `SetText` throws at `text.Serialize()` (TextEntry.cs:125). A null page list throws at `pages.Count` (:155).
  - A null `textData` is only stored by the constructor (:59). Whatever fails comes later: `Encoding.GetString(null)` in `GetText` (:87), or whatever the processor's `Read` does with it (:97).
  - A null `encoding` is stored by the constructor (:60). It then throws a NullReferenceException at :87 or :125, or is handed to the processor's `Read` or `Write`.
  - A null `text` passed to `TextEntry(string)` throws in `GetBytes` (:69).
- The encoding's conversions, `Read`, `Write`, `Split`, `Merge`, the `ProcessedText` constructor and `Serialize` are modelled as total, deterministic functions without side effects. The interfaces at TextEntry.cs:185-222 promise none of this. Two consequences are not captured:
  - Exceptions: if `GetBytes` or `Write` throws, the assignment at :125 or :140 never runs, so `TextData` and `ContentChanged` keep their old values and the exception reaches the caller. A throwing getter likewise reaches the caller.
  - Nondeterminism: a strategy that answered differently on repeated calls is not modelled. `Text.SetProcessedTextLastWins`, `Text.SetProcessedTextForgetsPrevious`, `Text.CloneReadsAlike` and `Text.ReadsIgnoreNameAndFlag` hold only because these are functions.
- `Clone` returns `object` in the source through `ICloneable`. Here it returns a `TextEntry`.
- `ProcessedText` is a reference type in the source. The model compares processed texts as values.
