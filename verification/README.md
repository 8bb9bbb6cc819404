# ELF identification renderer

A Dafny model of the part of `0x15-file_io/100-elf_header.c` that turns the
identification block of an ELF header (`e_ident`, the first 16 bytes) into
text:

- `print_magic` writes `ELF Magic: ` followed by each of the 16 bytes as
  `%02x ` (two lower-case hex digits and a space), then a newline;
- `print_class` maps the byte at `EI_CLASS` (4) to `ELF32` (ELFCLASS32 = 1),
  `ELF64` (ELFCLASS64 = 2) or `<unknown>` and writes `Class: <name>`;
- `print_data_encoding` maps the byte at `EI_DATA` (5) to
  `2's complement, little endian` (ELFDATA2LSB = 1),
  `2's complement, big endian` (ELFDATA2MSB = 2) or `<unknown>` and writes
  `Data: <name>`;
- `print_elf_header_info` runs these over a byte buffer, handing the field
  printers `header_data + EI_NIDENT`;
- the second `main` rejects a header shorter than `sizeof(Elf64_Ehdr)` with
  status 98 and otherwise hands `e_ident` itself to the printers.

Files:

- `wrappers.dfy` — `Option` and `Result`.
- `hex.dfy` (module `Hex`) — the `unsigned char` type, the `%02x` rendering
  of a byte, the space-separated dump, and parsers that invert both.
- `elf_header.dfy` (module `ElfHeader`) — the constants of `<elf.h>`, the
  printers, the two call sequences and the lemmas about them.

Standard output is a string threaded through the printers: each one takes
the text written so far and returns it with its own output appended. A
`const unsigned char *` argument is a buffer plus a base offset, so
`p[EI_CLASS]` is `buf[base + EI_CLASS]` and the offset each caller passes
shows in the contracts. `print_magic` keeps its loop (a `for` loop whose
invariant says the text so far is the dump of bytes `[0, i)`); the two
lookups are functions.

The file defines no magic check, no error for an unknown class or encoding
(they print `<unknown>`) and no entry-point decode, so the model has none
either; the label is `ELF Magic: ` as line 63 writes it.

## Model

| member | source | states |
|---|---|---|
| `Hex.HexDigit` | 0x15-file_io/100-elf_header.c:65 | the digit `%x` writes for a nibble is a lower-case hex digit that reads back as that nibble |
| `Hex.HexPair` | 0x15-file_io/100-elf_header.c:65 | `%02x` of an unsigned char is exactly two lower-case hex digits and parses back to the same byte |
| `Hex.HexPairCanonical` | 0x15-file_io/100-elf_header.c:65 | every two-digit lower-case hex string is the `%02x` rendering of the byte it denotes, so rendering and parsing are inverse bijections |
| `Hex.HexEntries` | 0x15-file_io/100-elf_header.c:64-66 | the dump of n bytes is 3·n characters long |
| `Hex.HexEntriesAt` | 0x15-file_io/100-elf_header.c:64-66 | entry i of the dump is byte i as two hex digits followed by one space |
| `Hex.EntriesRoundTrip` | 0x15-file_io/100-elf_header.c:64-66 | parsing the dump gives back exactly the bytes it was written from |
| `Hex.EntriesCanonical` | 0x15-file_io/100-elf_header.c:64-66 | any dump the parser accepts is the dump of the bytes it yields |
| `ElfHeader.MagicLine` | 0x15-file_io/100-elf_header.c:62-68 | the magic line is 11 + 48 + 1 = 60 characters, starts with `ELF Magic: `, ends with its only newline |
| `ElfHeader.PrintMagic` | 0x15-file_io/100-elf_header.c:62-68 | the loop over `i < EI_NIDENT` appends exactly the magic line of the first 16 bytes to the output |
| `ElfHeader.MagicEntry` | 0x15-file_io/100-elf_header.c:64-65 | the i-th pair of the magic line, at column 11 + 3·i, is lower-case hex, parses back to byte i, and is followed by a space |
| `ElfHeader.MagicRoundTrip` | 0x15-file_io/100-elf_header.c:62-68 | the magic line parses back to the 16 bytes it shows |
| `ElfHeader.MagicCanonical` | 0x15-file_io/100-elf_header.c:62-68 | every line the magic parser accepts is the magic line of the bytes it yields |
| `ElfHeader.ClassName` | 0x15-file_io/100-elf_header.c:71-83 | `ELF32` exactly for ELFCLASS32, `ELF64` exactly for ELFCLASS64, `<unknown>` exactly for every other byte including 0; defined for every byte |
| `ElfHeader.DataName` | 0x15-file_io/100-elf_header.c:88-100 | `2's complement, little endian` exactly for ELFDATA2LSB, `2's complement, big endian` exactly for ELFDATA2MSB, `<unknown>` exactly for every other byte; defined for every byte |
| `ElfHeader.ClassLine` | 0x15-file_io/100-elf_header.c:70-85 | the class output is one line: `Class: `, then the name `ClassName` gives the byte at `base + EI_CLASS`, then its only newline |
| `ElfHeader.DataLine` | 0x15-file_io/100-elf_header.c:87-101 | the encoding output is one line: `Data: `, then the name `DataName` gives the byte at `base + EI_DATA`, then its only newline |
| `ElfHeader.ClassLineDetermines` | 0x15-file_io/100-elf_header.c:70-85 | two class lines are equal if and only if the bytes read are equal or both unnamed |
| `ElfHeader.DataLineDetermines` | 0x15-file_io/100-elf_header.c:87-101 | two encoding lines are equal if and only if the bytes read are equal or both unnamed |
| `ElfHeader.PrintElfHeaderInfo` | 0x15-file_io/100-elf_header.c:49-55 | output is the magic line of bytes 0..15, then the class line and the encoding line read with base `EI_NIDENT`, i.e. from absolute offsets 20 and 21; needs 22 bytes |
| `ElfHeader.PrintIdentification` | 0x15-file_io/100-elf_header.c:49-55 | corrected sequence (see Findings): magic line, then class and encoding lines read from `e_ident[EI_CLASS]` and `e_ident[EI_DATA]` (offsets 4 and 5); needs only the 16 identification bytes |
| `ElfHeader.IdentificationReportsIdentBytes` | 0x15-file_io/100-elf_header.c:127-129 | with base 0 the three lines depend only on the 16 identification bytes |
| `ElfHeader.AsWrittenMisreportsCurrentVersion` | 0x15-file_io/100-elf_header.c:53-55 | with base `EI_NIDENT`, any header whose e_version bytes are `01 00 00 00` prints `Class: ELF32` and `Data: <unknown>`, whatever `e_ident` holds |
| `ElfHeader.AsWrittenMisreportsCurrentVersionMsb` | 0x15-file_io/100-elf_header.c:53-55 | with base `EI_NIDENT`, any header whose e_version bytes are `00 00 00 01` prints `Class: <unknown>` and `Data: <unknown>` |
| `ElfHeader.IdentificationReportsElf64` | 0x15-file_io/100-elf_header.c:70-85 | read at base 0, an identification block whose `EI_CLASS` byte is ELFCLASS64 prints `Class: ELF64` |
| `ElfHeader.IdentificationReportsLsb` | 0x15-file_io/100-elf_header.c:87-101 | read at base 0, an identification block whose `EI_DATA` byte is ELFDATA2LSB prints `Data: 2's complement, little endian` |
| `ElfHeader.AsWrittenMisreportsElf64` | 0x15-file_io/100-elf_header.c:53-55 | on the start of a real x86-64 executable (ELFCLASS64, ELFDATA2LSB) the as-written path prints `Class: ELF32` and `Data: <unknown>`, the corrected one `Class: ELF64` and `Data: 2's complement, little endian` |
| `ElfHeader.ReportElfHeader` | 0x15-file_io/100-elf_header.c:120-129 | fails with status 98 and `Error: Cannot read ELF header` exactly when fewer than 64 bytes (`sizeof(Elf64_Ehdr)`) can be read, with nothing on standard output; otherwise writes the magic line and the class line taken from `e_ident[EI_CLASS]` |

## Left out

- Argument counting, `open`, `read`, `close`, `perror`, `fprintf`/`dprintf` and the exit calls of both `main` functions (0x15-file_io/100-elf_header.c:20-47, 102-125) are I/O; the file's contents are a parameter, and only the second `main`'s short-read check is kept.
- The first `main` reads into a 1024-byte buffer and never checks how many bytes arrived, so bytes past the end of a short file are indeterminate; the model requires a buffer of at least 22 defined bytes instead.
- `print_version`, `print_os_abi`, `print_abi_version` and `print_file_type` are declared at :15-18 but not defined in the file; they are not part of this model, and neither are the version, OS/ABI, ABI version and type lines they would print.
- `check_elf`, `print_data`, `print_osabi`, `print_abi`, `print_type`, `print_entry` and `close_elf`, called at :123-137, are not defined in the file and are not part of this model; in particular magic validation and the entry-point decode by class and byte order are not modelled.
- The `printf` at :101 is cut off and the file does not compile; the model uses its visible format `Data: %s\n`.
- printf's own failures and buffering of standard output are not modelled.
- ElfHeader.PrintElfHeaderInfo: states the output of the three defined printers only; the four undefined printers that follow it at :56-59 add lines the model does not describe.
- ElfHeader.ReportElfHeader: on success states only the text of `print_magic` and `print_class` at :128-129, assuming `check_elf` at :127 returns; what `check_elf` and the later undefined printers do, and the final exit status, are not described. A `read` that returns fewer bytes than the file holds is not modelled.

## Findings

| source | as written | input that shows it | evidently intended | confidence | as-written member | corrected member |
|---|---|---|---|---|---|---|
| 0x15-file_io/100-elf_header.c:53-55 | `print_elf_header_info` hands `header_data + EI_NIDENT` to `print_class` and `print_data_encoding`, which then read absolute offsets 20 and 21 (the first two bytes of `e_version`) instead of `e_ident[EI_CLASS]` and `e_ident[EI_DATA]` | the first 24 bytes of a 64-bit little-endian x86-64 executable, `7f 45 4c 46 02 01 01 00 …` then `02 00 3e 00 01 00 00 00`: prints `Class: ELF32` and `Data: <unknown>` | read class and encoding from `e_ident` (offsets 4 and 5), as the second `main` does at :129, printing `Class: ELF64` and `Data: 2's complement, little endian` | high; not executed | `ElfHeader.AsWrittenMisreportsElf64` | `ElfHeader.PrintIdentification` |
