/**
  The ELF identification renderer of 0x15-file_io/100-elf_header.c.

  Standard output is modelled as a string: a printer takes the text written
  so far and returns it with its own output appended, as printf would leave
  the stream. A `const unsigned char *` argument is modelled as a buffer and
  a base offset into it, so that `p[EI_CLASS]` reads `buf[base + EI_CLASS]`
  and the offset each caller passes is visible in the contracts.
 */
module ElfHeader {
  import opened Wrappers
  import opened Hex

  // Constants of the ELF identification block (e_ident), as <elf.h> defines them.
  const EI_NIDENT: nat := 16
  const EI_CLASS: nat := 4
  const EI_DATA: nat := 5
  const ELFCLASS32: byte := 1
  const ELFCLASS64: byte := 2
  const ELFDATA2LSB: byte := 1
  const ELFDATA2MSB: byte := 2

  /** sizeof(Elf64_Ehdr): the number of bytes the second main insists on reading. */
  const ELF64_EHDR_SIZE: nat := 64

  // The texts the printers write.
  const MagicLabel := "ELF Magic: "
  const ClassLabel := "Class: "
  const DataLabel := "Data: "
  const Unknown := "<unknown>"
  const Elf32Name := "ELF32"
  const Elf64Name := "ELF64"
  const LsbName := "2's complement, little endian"
  const MsbName := "2's complement, big endian"

  /*** print_magic ***/

  /** The line print_magic writes for the sixteen identification bytes. */
  function MagicLine(ident: seq<byte>): (line: string)
    requires |ident| == EI_NIDENT
    ensures |line| == |MagicLabel| + 3 * EI_NIDENT + 1 == 60
    ensures line[..|MagicLabel|] == MagicLabel && line[|line| - 1] == '\n'
    ensures '\n' !in line[..|line| - 1]
  {
    var body := HexEntries(ident);
    assert forall k | 0 <= k < |body| :: body[k] != '\n' by {
      forall k | 0 <= k < |body| ensures body[k] != '\n' {
        var j := k / 3;
        HexEntriesAt(ident, j);
        if k % 3 < 2 {
          assert body[k] == body[3 * j..3 * j + 2][k % 3];
        }
      }
    }
    assert (MagicLabel + body + "\n")[..|MagicLabel + body|] == MagicLabel + body;
    MagicLabel + body + "\n"
  }

  /** Reads a magic line back into the sixteen bytes it shows. */
  function ParseMagicLine(line: string): (r: Option<seq<byte>>)
    ensures r.Some? ==> |r.value| == EI_NIDENT
  {
    if |line| == 60 && line[..|MagicLabel|] == MagicLabel && line[59] == '\n'
    then ParseEntries(line[|MagicLabel|..59])
    else None
  }

  /** print_magic (0x15-file_io/100-elf_header.c:62-68): the label, then one
      `%02x ` entry per identification byte, then a newline. */
  method PrintMagic(stdout: string, magicData: seq<byte>) returns (out: string)
    requires |magicData| >= EI_NIDENT
    ensures out == stdout + MagicLine(magicData[..EI_NIDENT])
  {
    out := stdout + MagicLabel;
    for i := 0 to EI_NIDENT
      invariant out == stdout + MagicLabel + HexEntries(magicData[..i])
    {
      assert magicData[..i + 1][..i] == magicData[..i];
      out := out + HexPair(magicData[i]) + " ";
    }
    out := out + "\n";
  }

  /** Entry `i` of the magic line sits at a fixed column, is byte `i` as two
      lower-case hex digits followed by a space, and reads back as byte `i`. */
  lemma MagicEntry(ident: seq<byte>, i: nat)
    requires |ident| == EI_NIDENT && i < EI_NIDENT
    ensures var at := |MagicLabel| + 3 * i;
      && MagicLine(ident)[at..at + 2] == HexPair(ident[i])
      && IsLowerHexDigit(MagicLine(ident)[at]) && IsLowerHexDigit(MagicLine(ident)[at + 1])
      && ParseHexPair(MagicLine(ident)[at..at + 2]) == Some(ident[i])
      && MagicLine(ident)[at + 2] == ' '
  {
    var line := MagicLine(ident);
    var body := HexEntries(ident);
    HexEntriesAt(ident, i);
    assert line[|MagicLabel|..|MagicLabel| + 48] == body;
    var at := |MagicLabel| + 3 * i;
    assert line[at..at + 2] == body[3 * i..3 * i + 2];
  }

  /** The magic line loses nothing: it parses back to the bytes it shows. */
  lemma MagicRoundTrip(ident: seq<byte>)
    requires |ident| == EI_NIDENT
    ensures ParseMagicLine(MagicLine(ident)) == Some(ident)
  {
    var line := MagicLine(ident);
    assert line[|MagicLabel|..59] == HexEntries(ident);
    EntriesRoundTrip(ident);
  }

  /** Every line the parser accepts is the magic line of the bytes it yields. */
  lemma MagicCanonical(line: string, ident: seq<byte>)
    requires ParseMagicLine(line) == Some(ident)
    ensures MagicLine(ident) == line
  {
    EntriesCanonical(line[|MagicLabel|..59], ident);
    assert line == line[..|MagicLabel|] + line[|MagicLabel|..59] + [line[59]];
  }

  /*** print_class and print_data_encoding ***/

  /** The switch of print_class: ELFCLASS32 and ELFCLASS64 are named, every
      other byte (ELFCLASSNONE included) is "<unknown>"; no value fails. */
  function ClassName(classByte: byte): (name: string)
    ensures name == Elf32Name <==> classByte == ELFCLASS32
    ensures name == Elf64Name <==> classByte == ELFCLASS64
    ensures name == Unknown <==> classByte != ELFCLASS32 && classByte != ELFCLASS64
    ensures '\n' !in name
  {
    match classByte
    case 1 => Elf32Name
    case 2 => Elf64Name
    case _ => Unknown
  }

  /** The switch of print_data_encoding: ELFDATA2LSB and ELFDATA2MSB are
      named, every other byte is "<unknown>"; no value fails. */
  function DataName(encodingByte: byte): (name: string)
    ensures name == LsbName <==> encodingByte == ELFDATA2LSB
    ensures name == MsbName <==> encodingByte == ELFDATA2MSB
    ensures name == Unknown <==> encodingByte != ELFDATA2LSB && encodingByte != ELFDATA2MSB
    ensures '\n' !in name
  {
    match encodingByte
    case 1 => LsbName
    case 2 => MsbName
    case _ => Unknown
  }

  /** Two class bytes print_class cannot tell apart: equal, or both outside
      the two named classes. */
  predicate SameClass(x: byte, y: byte) {
    x == y || (x != ELFCLASS32 && x != ELFCLASS64 && y != ELFCLASS32 && y != ELFCLASS64)
  }

  /** Two encoding bytes print_data_encoding cannot tell apart: equal, or
      both outside the two named encodings. */
  predicate SameEncoding(x: byte, y: byte) {
    x == y || (x != ELFDATA2LSB && x != ELFDATA2MSB && y != ELFDATA2LSB && y != ELFDATA2MSB)
  }

  /** print_class called with `header + base`: one line naming the byte at
      `base + EI_CLASS`. */
  function ClassLine(header: seq<byte>, base: nat): (line: string)
    requires base + EI_CLASS < |header|
    ensures |line| > |ClassLabel| && line[..|ClassLabel|] == ClassLabel && line[|line| - 1] == '\n'
    ensures line[|ClassLabel|..|line| - 1] == ClassName(header[base + EI_CLASS])
    ensures '\n' !in line[..|line| - 1]
  {
    var name := ClassName(header[base + EI_CLASS]);
    assert (ClassLabel + name + "\n")[..|ClassLabel| + |name|] == ClassLabel + name;
    ClassLabel + name + "\n"
  }

  /** print_data_encoding called with `header + base`: one line naming the
      byte at `base + EI_DATA`. The printf at line 101 is cut off in the
      file; its visible format is "Data: %s\n". */
  function DataLine(header: seq<byte>, base: nat): (line: string)
    requires base + EI_DATA < |header|
    ensures |line| > |DataLabel| && line[..|DataLabel|] == DataLabel && line[|line| - 1] == '\n'
    ensures line[|DataLabel|..|line| - 1] == DataName(header[base + EI_DATA])
    ensures '\n' !in line[..|line| - 1]
  {
    var name := DataName(header[base + EI_DATA]);
    assert (DataLabel + name + "\n")[..|DataLabel| + |name|] == DataLabel + name;
    DataLabel + name + "\n"
  }

  /** The class line tells exactly which class byte was read, up to the
      collapse of all unnamed values into "<unknown>". */
  lemma ClassLineDetermines(h1: seq<byte>, b1: nat, h2: seq<byte>, b2: nat)
    requires b1 + EI_CLASS < |h1| && b2 + EI_CLASS < |h2|
    ensures ClassLine(h1, b1) == ClassLine(h2, b2)
        <==> SameClass(h1[b1 + EI_CLASS], h2[b2 + EI_CLASS])
  {
    // Equal lines have equal names between label and newline (ClassLine's
    // contract), and ClassName's biconditionals turn equal names into SameClass.
  }

  /** The data line tells exactly which encoding byte was read, up to the
      collapse of all unnamed values into "<unknown>". */
  lemma DataLineDetermines(h1: seq<byte>, b1: nat, h2: seq<byte>, b2: nat)
    requires b1 + EI_DATA < |h1| && b2 + EI_DATA < |h2|
    ensures DataLine(h1, b1) == DataLine(h2, b2)
        <==> SameEncoding(h1[b1 + EI_DATA], h2[b2 + EI_DATA])
  {
    // Equal lines have equal names between label and newline (DataLine's
    // contract), and DataName's biconditionals turn equal names into SameEncoding.
  }

  /*** print_elf_header_info ***/

  /** print_elf_header_info as written (0x15-file_io/100-elf_header.c:49-55):
      the magic comes from bytes 0..15, but the field printers get
      `header_data + EI_NIDENT`, so class and encoding are read at absolute
      offsets 20 and 21. The four printers after them are not defined in the
      file and are not part of this model. */
  method PrintElfHeaderInfo(stdout: string, headerData: seq<byte>) returns (out: string)
    requires |headerData| >= EI_NIDENT + EI_DATA + 1
    ensures out == stdout + MagicLine(headerData[..EI_NIDENT])
                          + ClassLine(headerData, EI_NIDENT) + DataLine(headerData, EI_NIDENT)
  {
    out := PrintMagic(stdout, headerData);
    var headerStart := EI_NIDENT;
    out := out + ClassLine(headerData, headerStart);
    out := out + DataLine(headerData, headerStart);
  }

  /** The identification printers with the field printers handed the buffer
      itself, as the second main does for print_class: class and encoding
      come from e_ident[EI_CLASS] and e_ident[EI_DATA]. */
  method PrintIdentification(stdout: string, ident: seq<byte>) returns (out: string)
    requires |ident| >= EI_NIDENT
    ensures out == stdout + MagicLine(ident[..EI_NIDENT]) + ClassLine(ident, 0) + DataLine(ident, 0)
  {
    out := PrintMagic(stdout, ident);
    out := out + ClassLine(ident, 0);
    out := out + DataLine(ident, 0);
  }

  /** The second printer sequence reports on the identification block alone:
      bytes after e_ident cannot change a character of its output. */
  lemma IdentificationReportsIdentBytes(h1: seq<byte>, h2: seq<byte>)
    requires |h1| >= EI_NIDENT && |h2| >= EI_NIDENT
    requires h1[..EI_NIDENT] == h2[..EI_NIDENT]
    ensures MagicLine(h1[..EI_NIDENT]) == MagicLine(h2[..EI_NIDENT])
    ensures ClassLine(h1, 0) == ClassLine(h2, 0) && DataLine(h1, 0) == DataLine(h2, 0)
  {
    // EI_CLASS and EI_DATA lie below EI_NIDENT, so both bytes read are shared.
  }

  /** The first 24 bytes of a 64-bit little-endian x86-64 executable:
      e_ident, then e_type = ET_EXEC, e_machine = EM_X86_64 and
      e_version = EV_CURRENT, each in little-endian order. */
  const X86_64ExecStart: seq<byte> := [
    0x7f, 0x45, 0x4c, 0x46, 0x02, 0x01, 0x01, 0x00, 0x00, 0x00, 0x00, 0x00, 0x00, 0x00, 0x00, 0x00,
    0x02, 0x00, 0x3e, 0x00, 0x01, 0x00, 0x00, 0x00]

  /** The offset error of print_elf_header_info: in a little-endian file
      whose e_version is EV_CURRENT (bytes 20..23 are 01 00 00 00), the
      as-written path reports a 32-bit file of unknown encoding, whatever
      e_ident says. */
  lemma AsWrittenMisreportsCurrentVersion(header: seq<byte>)
    requires |header| >= 24 && header[20..24] == [1, 0, 0, 0]
    ensures ClassLine(header, EI_NIDENT) == "Class: ELF32\n"
    ensures DataLine(header, EI_NIDENT) == "Data: <unknown>\n"
  {
    assert header[EI_NIDENT + EI_CLASS] == header[20..24][0] == ELFCLASS32;
    assert header[EI_NIDENT + EI_DATA] == header[20..24][1] == 0;
  }

  /** The same error in a big-endian file whose e_version is EV_CURRENT
      (bytes 20..23 are 00 00 00 01): both lines come out "<unknown>". */
  lemma AsWrittenMisreportsCurrentVersionMsb(header: seq<byte>)
    requires |header| >= 24 && header[20..24] == [0, 0, 0, 1]
    ensures ClassLine(header, EI_NIDENT) == "Class: <unknown>\n"
    ensures DataLine(header, EI_NIDENT) == "Data: <unknown>\n"
  {
    assert header[EI_NIDENT + EI_CLASS] == header[20..24][0] == 0;
    assert header[EI_NIDENT + EI_DATA] == header[20..24][1] == 0;
  }

  /** Read at base 0, as the corrected path does, an ELFCLASS64
      identification block is reported as 64-bit. */
  lemma IdentificationReportsElf64(header: seq<byte>)
    requires |header| >= EI_NIDENT && header[EI_CLASS] == ELFCLASS64
    ensures ClassLine(header, 0) == "Class: ELF64\n"
  {
  }

  /** Read at base 0, an ELFDATA2LSB identification block is reported as
      little-endian. */
  lemma IdentificationReportsLsb(header: seq<byte>)
    requires |header| >= EI_NIDENT && header[EI_DATA] == ELFDATA2LSB
    ensures DataLine(header, 0) == "Data: 2's complement, little endian\n"
  {
  }

  /** A real 64-bit little-endian executable meets that condition, so the
      as-written path calls it 32-bit while the corrected path, reading
      e_ident, calls it 64-bit little-endian. */
  lemma AsWrittenMisreportsElf64()
    ensures X86_64ExecStart[EI_CLASS] == ELFCLASS64 && X86_64ExecStart[EI_DATA] == ELFDATA2LSB
    ensures ClassLine(X86_64ExecStart, EI_NIDENT) == "Class: ELF32\n"
    ensures DataLine(X86_64ExecStart, EI_NIDENT) == "Data: <unknown>\n"
    ensures ClassLine(X86_64ExecStart, 0) == "Class: ELF64\n"
    ensures DataLine(X86_64ExecStart, 0) == "Data: 2's complement, little endian\n"
  {
    assert X86_64ExecStart[20..24] == [1, 0, 0, 0];
    AsWrittenMisreportsCurrentVersion(X86_64ExecStart);
    IdentificationReportsElf64(X86_64ExecStart);
    IdentificationReportsLsb(X86_64ExecStart);
  }

  /*** The second main (0x15-file_io/100-elf_header.c:102-130) ***/

  /** How the program ends when it stops early: exit status and the message
      on standard error. */
  datatype Exit = Exit(status: int, stderr: string)

  /** The part of the second main that the file defines: a read shorter
      than sizeof(Elf64_Ehdr) exits with status 98 before anything reaches
      standard output; otherwise (once check_elf has returned) print_magic
      and print_class are handed e_ident itself, so the class comes from
      byte EI_CLASS. `file` is the content of the opened file. */
  method ReportElfHeader(file: seq<byte>) returns (r: Result<string, Exit>)
    ensures r.Failure? <==> |file| < ELF64_EHDR_SIZE
    ensures r.Failure? ==> r.error == Exit(98, "Error: Cannot read ELF header\n")
    ensures r.Success? ==> r.value == MagicLine(file[..EI_NIDENT]) + ClassLine(file, 0)
  {
    if |file| < ELF64_EHDR_SIZE {
      return Failure(Exit(98, "Error: Cannot read ELF header\n"));
    }
    var elfHeader := file[..ELF64_EHDR_SIZE];
    var eIdent := elfHeader[..EI_NIDENT];
    var out := PrintMagic("", eIdent);
    assert eIdent[..EI_NIDENT] == file[..EI_NIDENT];
    out := out + ClassLine(eIdent, 0);
    r := Success(out);
  }
}
