# Intel Bluetooth vendor library: firmware configuration, modelled in Dafny

This project models the firmware-configuration core of the Intel
Bluetooth vendor library (`libbt`). That core is the code that brings an
Intel controller from reset to a patched, configured state: it talks to
the controller through HCI vendor commands and reports the result to the
Bluetooth stack. The model covers:

- **hardware.c**, the engine `hw_config_cback` in its two build variants,
  AG6xx over UART and WP2 over USB. The variant is a `Variant` parameter.
  Around the engine the model covers:
  - the event classifier `check_event`;
  - the patch locator `hw_strncmp` / `hw_config_findpatch` and the chip-id
    names;
  - the binary patch streamer, which sends 244-byte memory-write commands;
  - the WP2 text-patch line parser;
  - the bddata decoder (`char_to_hex`, `open_bddata`) and
    `form_byte` / `form_word`;
  - `line_speed_to_userial_baud`, `register_int_evt_callback` and
    `hw_config_start`.
- **hardware_intel.c**, the older engine. Its states come in another
  order, it overwrites the event status with 0, and it has no default
  branch. Also modelled: its LPM sleep-mode command, the LPM and SCO
  completion callbacks and the idle-timeout computation.
- **userial_vendor.c**:
  - the baud-index to termios table;
  - `serial_translate_baud`;
  - the format checks `userial_vendor_open` makes before it opens the port;
  - the `vnd_userial` descriptor and port-name bookkeeping;
  - the ioctl switch.
- **test_hs.c**, the host test tool:
  - the two hex-digit converters;
  - the hex-pair command encoder;
  - the H4 event reader;
  - the comment filter of `open_file`.

The model works like this:

- **The engines** are re-entrant state machines that handle one HCI event
  per call.
  - Each engine has a specification function `Step` (control block, event,
    environment, transport answers) → `Outcome` (new control block, and
    every effect in order).
  - Each engine also has a class `HwCfg` whose fields are the control block
    `hw_cfg_cb`. Its method `ConfigCback` performs the same call step by
    step: it writes each command through a pointer into a transport buffer
    (`HwCommon.CmdBuffer`, over an `array`), and it is proved equal to
    `Step`.
  - The transport (`alloc`, `xmit_cb`, `dealloc`) and the vendor callbacks
    (`fwcfg_cb`, `lpm_cb`, `scocfg_cb`) appear as recorded effects
    (`HwCommon.Effect`). The answers of `alloc` and `xmit_cb` are inputs
    (`HwConfig.Io`).
  - The patch directory, the files and the bddata file are inputs
    (`HwConfig.Env`).
  - A `FILE*` is a `Stream` of remaining bytes with an end-of-file flag,
    read by `Fread` and `Fgets`.
  - HCI command framing is the one in section 5.4.1 of Part E, Volume 2 of
    the Bluetooth Core Specification: a 2-byte little-endian opcode, then a
    1-byte parameter length (`Hci.Command`).
  - The status bytes are read at offset 5 of Command Complete and at
    offset 2 of Command Status (sections 7.7.14 and 7.7.15 there).
- **One definition per shared routine.** The three copies of `char_to_hex`
  (hardware.c, hardware_intel.c, test_hs.c) are one function,
  `Hex.CharToHex`. The two copies of `serial_translate_baud`
  (userial_vendor.c, test_hs.c) are `SerialBaud.SerialTranslateBaud`. The
  two engines share the binary patch download (`PatchDownload`), whose
  rules are identical in both files.
- **Unseen build-time macros** are abstract datatypes and constants given
  by name: the `USERIAL_BAUD_*` indices, the termios `B*` speeds, and the
  `LPM_*` and `SCO_*` settings.

Where this model follows the code rather than the description of the
system:

- hardware_intel.c reads the event status and then sets it to 0. So every
  call asks for a command buffer, whatever the event says.
- In both files, a missing bddata file reports `fwcfg_cb(FAIL)` twice.
- A patch file name given in the configuration is reported as found but
  is never stored, so opening it fails and the engine goes to
  manufacture-off (`HwConfigProps.ConfiguredNameGoesOff`).
- The hardware_intel.c Success branch neither sends nor releases its
  command buffer.

## Model

| member | source | states |
|---|---|---|
| Hci.Command | libbt/src/hardware.c:756-762 | the packet is a well-formed HCI command whose opcode and parameters read back as the ones given |
| Hci.CommandLayout | libbt/src/hardware.c:820-824 | a command is the little-endian opcode, the parameter length and the parameters, in that order |
| Hci.CommandOfParts | libbt/src/hardware.c:790-796 | every well-formed command is rebuilt from its own opcode and parameters (round trip) |
| Hex.CharToHex | libbt/src/hardware.c:524-544 | 0-9, a-f and A-F map to their digit value 0..15; every other character maps to 0xFF |
| Hex.FormByteIsOr | libbt/src/hardware.c:617-623 | `form_byte` is the OR of the high digit shifted left by four and the low digit |
| Hex.FormWord | libbt/src/hardware.c:634-640 | the 16-bit word's little-endian bytes are exactly (lsb, msb) |
| Hex.HexPairs | libbt/src/hardware_intel.c:523-574 | n characters decode to floor(n/2) bytes; byte k is form_byte of characters 2k and 2k+1 |
| Hex.HexPairsDropOdd | libbt/src/hardware_intel.c:557-569 | a trailing odd character contributes nothing |
| Hex.DecodeEncoded | libbt/src/hardware.c:556-604 | decoding the hex text of any byte string gives that byte string back (round trip) |
| Hex.DecodeIgnoresCase | libbt/src/hardware_intel.c:477-513 | two texts whose characters have the same digit values decode alike, so the case of a-f does not matter |
| Hex.LowerHex | libbt/src/hardware.c:845 | the `%x` text of n has no leading zero and parses back to n |
| Hex.HexString | libbt/src/hardware.c:848-850 | the `%02x` text has two characters per byte, and each pair parses back to its byte |
| HwCommon.Fread | libbt/src/hardware.c:972-997 | the bytes read plus the bytes left are the stream; a short read happens only at the end of the stream and sets end-of-file |
| HwCommon.Fgets | libbt/src/hardware.c:897-926 | the buffer keeps its size; an exhausted stream gives NULL and sets end-of-file; otherwise bytes are consumed and the line is NUL-terminated inside the buffer |
| HwCommon.Strlen | libbt/src/hardware.c:935 | the length is the position of the first NUL, or the whole buffer |
| HwCommon.CmdBuffer.constructor | libbt/src/hardware.c:714-719 | a fresh buffer of the requested size with nothing written |
| HwCommon.CmdBuffer.Put | libbt/src/hardware.c:1017-1028 | a byte written through `p` is appended to the written sequence; the array is the written bytes cut to its size |
| HwCommon.CmdBuffer.PutAll | libbt/src/hardware.c:1017-1028 | the bytes written through `p` are appended to the written sequence, in order |
| HwCommon.CmdBuffer.Frame | libbt/src/hardware.c:1035-1036 | the packet handed to the transport is the first `len` bytes written |
| HwCommon.WriteCommand | libbt/src/hardware.c:818-824 | writing the opcode, the length and the parameters through `p` leaves exactly `Command(opcode, params)` in the buffer |
| HwCommon.OpenBddata | libbt/src/hardware.c:556-604 | with no file it fails and writes nothing; otherwise it succeeds and appends the decoded hex pairs of the file |
| SerialBaud.LineSpeedToUserialBaud | libbt/src/hardware.c:343-380 | each of the thirteen listed speeds maps to the index of that speed; any other speed maps to 115200 |
| SerialBaud.LineSpeedRoundTrip | libbt/src/hardware_intel.c:292-329 | every index is recovered from its own speed |
| SerialBaud.UserialToTcioBaud | libbt/src/userial_vendor.c:92-128 | TRUE, with the matching termios speed, exactly for the thirteen indices; FALSE and B115200 for any other |
| SerialBaud.SerialTranslateBaud | libbt/src/userial_vendor.c:243-278 | a result exactly for the fixed rate set (and 460800 with SUPPORT_HISPEED), and then the termios speed of that rate; -1 (None) otherwise |
| SerialBaud.HispeedOnlyAdds460800 | libbt/src/test_hs.c:74-109 | SUPPORT_HISPEED changes the translation of 460800 and of no other rate |
| SerialBaud.TablesAgree | libbt/src/userial_vendor.c:243-278 | where both tables know an index's speed they give the same termios speed; exactly 600, 921600, 1M, 3M, 4M (and 460800 without SUPPORT_HISPEED) have no translation |
| PatchLocator.HwStrncmp | libbt/src/hardware.c:392-406 | 0 exactly when the first `len` characters match ignoring case; otherwise the mismatch index plus one, with everything before it matching |
| PatchLocator.FirstMatchFrom | libbt/src/hardware.c:449-509 | the index found is the first directory entry, from the start index on, with the chip-id prefix and the extension; None means no entry matches |
| PatchLocator.FindPatch | libbt/src/hardware.c:420-521 | the directory scan loop computes `Locate`: the configured name, or the first match and its length check |
| PatchLocator.ConfiguredNameWins | libbt/src/hardware.c:431-447 | with a configured name the result is TRUE and path joined with the name, and the directory is not read |
| PatchLocator.FirstMatchDecides | libbt/src/hardware_intel.c:369-475 | the first matching entry ends the search; it is found exactly when strlen(name)+strlen(path) <= the maximum, and then the file is path joined with the entry |
| PatchLocator.FoundOnlyForMatch | libbt/src/hardware.c:449-509 | without a configured name, found implies a listed entry that matches and fits, and the file is path joined with it |
| PatchLocator.JoinPathSlash | libbt/src/hardware.c:482-498 | a '/' is put between path and name only when the path does not end with one |
| PatchLocator.MatchIgnoresCase | libbt/src/hardware.c:455-465 | for all names: changing the case of any character of the entry, the chip id or the extension never changes whether the entry matches |
| PatchLocator.MatchIsCaselessAffixes | libbt/src/hardware.c:455-465 | for all names: an entry matches exactly when it is at least as long as the chip id and the extension, begins with the chip id and ends with the extension, each up to case; so an entry whose first characters differ from the chip id, or whose end differs from the extension, is rejected |
| PatchLocator.MatchExamples | libbt/src/hardware.c:455-465 | examples: A00.PBN and a00_B0.pbn match chip id a00 with .pbn; a01.pbn and a00.seq do not |
| PatchDownload.MemWriteCommand | libbt/src/hardware.c:1017-1036 | the memory-write command is opcode 0xFC8E, parameter length 6+k: the LE32 address, mode 0, k, and the k bytes |
| PatchDownload.WriteMemCommand | libbt/src/hardware.c:1017-1036 | filling the buffer through `p` leaves exactly `MemWriteCommand(address, data)` |
| PatchDownload.DownloadStep | libbt/src/hardware.c:969-1060 | one download call on the buffer is `DownloadCall` (record header or chunk); nothing is written unless a command is sent |
| PatchDownload.SendChunk | libbt/src/hardware.c:1004-1060 | one chunk call on the buffer is `ChunkStep` |
| PatchDownload.ChunkStepSends | libbt/src/hardware.c:1004-1047 | with n > 0 and at least k = min(n, 244) bytes left, it sends those k bytes at the address, leaves n-k, advances the address by k (mod 2^32) only while bytes remain, and stays in the chunk state only while bytes remain; a short read aborts |
| PatchDownload.EmptyRecordAborts | libbt/src/hardware.c:1004-1060 | a zero-length record sends nothing and aborts |
| PatchDownload.EndMarkerEnables | libbt/src/hardware.c:980-987 | address 0xFFFFFFFF sets is_patch_enabled to 2 and goes to manufacture-off |
| PatchDownload.EmptyHeaderStops | libbt/src/hardware.c:972-997 | an address read or a length read that gets no bytes (`!read`) goes to manufacture-off with is_patch_enabled unchanged |
| PatchDownload.ChunkOfRecord | libbt/src/hardware_intel.c:829-883 | a record of up to 244 bytes goes in one command; a longer one sends 244 bytes and keeps the rest at address+244 |
| PatchDownload.RecordSentInChunks | libbt/src/hardware.c:1004-1060 | a whole record is sent as its 244-byte chunks at successive addresses, then the next header is read |
| PatchDownload.DownloadSendsAllChunks | libbt/src/hardware_intel.c:794-883 | a patch file of well-formed records sends every chunk of every record in order, ends with the end marker and sets is_patch_enabled to 2 |
| PatchDownload.RecordHeaderRead | libbt/src/hardware.c:972-1003 | a record header sets the address and byte count that the chunk state uses |
| PatchDownload.ChunksCarryRecord | libbt/src/hardware.c:1007-1047 | every chunk is a memory-write command of at most 244 data bytes, and the chunks' payloads concatenate to the record's data |
| HwConfig.ManufactureOnResult | libbt/src/hardware.c:754-786 | keeps the control-block invariant (a patch is open in every reading state) |
| HwConfig.BdDataCommand | libbt/src/hardware.c:788-809 | the packet is 83 bytes: 2F FC 50, then parameter k is the k-th decoded bddata byte while there is one, and 0 after |
| HwCommon.BdDataBytes | libbt/src/hardware.c:574-596 | of the first min(n, 1024) characters read, byte k is form_byte of characters 2k and 2k+1 |
| HwConfig.ChipIdAg6xx | libbt/src/hardware.c:840-845 | the AG6xx chip id is the unpadded lowercase hex of byte7*256+byte8 |
| HwConfig.ChipIdUsb | libbt/src/hardware.c:848-850 | the WP2 chip id is 18 characters, bytes 6..14 as `%02x` each |
| HwConfig.SkipFiltered | libbt/src/hardware.c:897-926 | skipping stops at end of file or at a line that is not filtered (`*`, CR, `F`, or char 1 == `2`), never consuming bytes it has not got |
| HwConfig.LinePayload | libbt/src/hardware.c:935-948 | the payload has (len-9)/2 bytes for a line longer than 10 characters, else none |
| HwConfig.LineOpcode | libbt/src/hardware.c:932-934 | the opcode's little-endian bytes are form_byte of characters 3-4 and 5-6 |
| HwConfig.CaseOf | libbt/src/hardware.c:731-1112 | every branch keeps the invariant that a patch is open in every state that reads one |
| HwConfig.ResetCommand | libbt/src/hardware.c:1177-1179 | HCI_Reset is 03 0C 00 |
| HwConfig.HwCfg.constructor | libbt/src/hardware.c:214 | state 0, no patch open, counters and flags zero |
| HwConfig.HwCfg.RegisterIntEvtCallback | libbt/src/hardware.c:244-250 | state back to Init, nothing else changed, the registration result returned |
| HwConfig.HwCfg.ConfigStart | libbt/src/hardware.c:1153-1194 | the new control block and effects are `Start`: state 0, no patch, is_patch_enabled 0, then HCI_Reset and state ManufactureOn, or FAIL with no buffer |
| HwConfig.HwCfg.CheckEvent | libbt/src/hardware.c:264-304 | status, new state and effects are `EventCheck`; only the state field changes |
| HwConfig.HwCfg.Dispatch | libbt/src/hardware.c:731-1112 | the switch, writing through the buffer, leaves what `CaseOf` says |
| HwConfig.HwCfg.ConfigCback | libbt/src/hardware.c:686-1138 | one call leaves the control block and effects that `Step` says, and keeps the invariant |
| HwConfig.HwCfg.MemWriteCase | libbt/src/hardware.c:892-966 | the WP2 text-patch branch leaves what `MemWriteResult` says |
| HwConfig.HwCfg.EndOfPatchCase | libbt/src/hardware.c:902-921 | at end of the text patch, the patch is closed and manufacture-off runs with flag 2 iff a line was sent |
| HwConfig.SkipLines | libbt/src/hardware.c:897-926 | the fgets loop over filtered lines computes `SkipFiltered` |
| HwConfig.WriteLineCommand | libbt/src/hardware.c:927-955 | the command built through `p` from a "01" line has the line's opcode and packet |
| HwConfig.PairsFrom10IsPairs | libbt/src/hardware.c:944-948 | the payload loop decodes the hex pairs from character 10 |
| HwConfig.StepKeepsInv | libbt/src/hardware.c:686-1138 | every call keeps the invariant |
| HwConfigProps.EventCheckClassifies | libbt/src/hardware.c:264-304 | Command Complete gives byte 5, Command Status gives byte 2; debug sub-event 0x00 is success, 0x19 gives byte 3, 0x05 is success iff byte 3 == 0x02, any other sub-event is failure; any other event is success |
| HwConfigProps.EventCheckMovesOnlyFromInit | libbt/src/hardware.c:283-292 | the state changes exactly for sub-event 0x05 in state Init, to ManufactureOn, deregistering the interrupt-event callback |
| HwConfigProps.CaseOfTame | libbt/src/hardware.c:731-1112 | a branch sends at most one command, never releases the event, and reports success exactly in Success on a startup event |
| HwConfigProps.TameCounts | libbt/src/hardware.c:731-1112 | a tame branch has no event release, at most one send, and one success report iff it succeeds |
| HwConfigProps.FinishCounts | libbt/src/hardware.c:1114-1136 | the common ending releases the event exactly once and adds no sends and no success report |
| HwConfigProps.StepAccepted | libbt/src/hardware.c:714-731 | with a success status and a buffer, the call is the branch for the state |
| HwConfigProps.FailureAborts | libbt/src/hardware.c:714-720 | a failure status, or (by the model's choice of a checked alloc, see Left out) no buffer: no command, no buffer release, exactly one FAIL, the event released, state 0 and the patch closed |
| HwConfigProps.EveryCallReleasesEvent | libbt/src/hardware.c:1114-1117 | every call releases the event exactly once, sends at most one command, and reports success once exactly on a Success-state startup event |
| HwConfigProps.DefaultCaseProceeds | libbt/src/hardware.c:1105-1110 | a state with no branch releases the command buffer and proceeds |
| HwConfigProps.InitIgnoresOtherEvents | libbt/src/hardware.c:1105-1110 | in Init, an event other than the default-bddata one releases the buffer and changes nothing |
| HwConfigProps.OffCommand | libbt/src/hardware.c:1062-1077 | the manufacture-off command is 11 FC 02 00 followed by is_patch_enabled |
| HwConfigProps.Ag6xxManufactureOn | libbt/src/hardware.c:754-786 | AG6xx ManufactureOn sends 0xFC11 {0x01,0x00} (5 bytes) and goes to BdData |
| HwConfigProps.UsbManufactureOn | libbt/src/hardware.c:771-786 | WP2 ManufactureOn sends the same command and goes to SwReadVersion on the default-bddata event; otherwise it releases the buffer and waits |
| HwConfigProps.Ag6xxBdData | libbt/src/hardware.c:788-803 | BdData sends 0xFC2F with 80 parameter bytes and goes to BdDataStatus |
| HwConfigProps.Ag6xxMissingBdData | libbt/src/hardware.c:804-809 | without a bddata file FAIL is reported twice and the state returns to 0 |
| HwConfigProps.Ag6xxBdDataStatus | libbt/src/hardware.c:810-816 | BdDataStatus sends nothing, releases the buffer and goes to SwReadVersion |
| HwConfigProps.ReadVersionSends | libbt/src/hardware.c:818-831 | SwReadVersion sends 0xFC05 with no parameters (3 bytes) and goes to SwFindPatch |
| HwConfigProps.RejectedCommandAborts | libbt/src/hardware.c:1118-1136 | a command the transport rejects ends with the buffer released, one FAIL, state 0 |
| HwConfigProps.MissingPatchGoesOff | libbt/src/hardware.c:853-889 | a patch not found or not openable goes through manufacture-off with is_patch_enabled unchanged |
| HwConfigProps.FoundPatchIsRead | libbt/src/hardware.c:853-882 | a patch found and opened is read in the same call: DlFwPatch for AG6xx, MemWrite for WP2 |
| HwConfigProps.ConfiguredNameGoesOff | libbt/src/hardware.c:431-447 | a configured patch name ends in manufacture-off (the name is never stored) |
| HwConfigProps.ChunkCall | libbt/src/hardware.c:1004-1060 | a chunk call sends k = min(n,244) bytes, updates the count, address and state as the source does, or aborts on a short read |
| HwConfigProps.EmptyRecordCallAborts | libbt/src/hardware.c:1004-1060 | a zero-length record aborts: event and buffer released, FAIL, state 0 |
| HwConfigProps.EndMarkerCall | libbt/src/hardware.c:980-987 | the end marker sets is_patch_enabled to 2 and sends manufacture-off with 2 |
| HwConfigProps.EmptyHeaderCall | libbt/src/hardware.c:972-997 | an empty address or length read sends manufacture-off with is_patch_enabled unchanged |
| HwConfigProps.OffCompleteWaits | libbt/src/hardware.c:1078-1084 | ManufactureOffCmpl sends nothing and goes to Success |
| HwConfigProps.SuccessStep | libbt/src/hardware.c:1085-1104 | Success reports success and resets to 0 on a startup event; otherwise it takes the abort path |
| HwConfigProps.FilteredLineSkipped | libbt/src/hardware.c:901-926 | a filtered line is skipped and the next one is read |
| HwConfigProps.CommandLineSent | libbt/src/hardware.c:927-955 | a "01" line sends one command with opcode from characters 3-6, length from 8-9 and the payload pairs from 10 |
| HwConfigProps.EndOfTextPatch | libbt/src/hardware.c:902-921 | end of file closes the patch and sends manufacture-off, with flag 2 iff a command line was sent |
| HwConfigProps.OtherLineStops | libbt/src/hardware.c:927-957 | any other line sends nothing and does not proceed (the abort path) |
| HwConfigProps.LastLineKeepsEofClear | libbt/src/hardware.c:897-926 | reading the last line leaves the end-of-file flag as it was, so a further read is needed to see EOF |
| HwConfigProps.DrainedFileStops | libbt/src/hardware.c:897-957 | a drained file with the EOF flag clear does not proceed and sends nothing |
| HwConfigProps.DrainedFileGoesOff | libbt/src/hardware.c:897-921 | with the fgets result checked, a drained file closes the patch and sends manufacture-off, with flag 2 iff a line was sent |
| HwConfigProps.CheckedAgreesOnLine | libbt/src/hardware.c:897-957 | whenever the first fgets gets a line, the checked branch does exactly what the source does |
| HwConfigIntel.ManufactureOnCommand | libbt/src/hardware_intel.c:691-707 | the manufacture-on command is 11 FC 02 01 00 |
| HwConfigIntel.SetBaudCommand | libbt/src/hardware_intel.c:668-683 | the set-baud command is 06 FC 01 0A |
| HwConfigIntel.CaseOf | libbt/src/hardware_intel.c:666-916 | every branch keeps the invariant that a patch is open in every reading state |
| HwConfigIntel.HwCfg.constructor | libbt/src/hardware_intel.c:193 | state 0, no patch, counters zero |
| HwConfigIntel.HwCfg.ConfigStart | libbt/src/hardware_intel.c:1055-1097 | leaves `Start`: state 0, is_patch_enabled 1, HCI_Reset and HW_CFG_START, or FAIL without a buffer |
| HwConfigIntel.HwCfg.Dispatch | libbt/src/hardware_intel.c:666-916 | the switch, writing through the buffer, leaves what `CaseOf` says |
| HwConfigIntel.HwCfg.ConfigCback | libbt/src/hardware_intel.c:618-942 | one call leaves the control block and effects that `Step` says, and keeps the invariant |
| HwConfigIntelProps.EventStatusIgnored | libbt/src/hardware_intel.c:634-643 | the status bytes of the event do not change what a call does |
| HwConfigIntelProps.EveryCallReleasesEvent | libbt/src/hardware_intel.c:919-921 | every call releases the event exactly once |
| HwConfigIntelProps.AllocFailureAborts | libbt/src/hardware_intel.c:649-657 | by the model's choice of a checked alloc (see Left out), no buffer: the event is released, FAIL reported, state 0 |
| HwConfigIntelProps.RejectedCommandAborts | libbt/src/hardware_intel.c:923-941 | a rejected command ends with the buffer released, FAIL, state 0, no patch open |
| HwConfigIntelProps.NoCaseAborts | libbt/src/hardware_intel.c:666-916 | states 0 and INF_MANUFACTURE_ON have no branch and take the abort path |
| HwConfigIntelProps.StartSendsReset | libbt/src/hardware_intel.c:1055-1097 | start sends 03 0C 00 and goes to HW_CFG_START; without a buffer FAIL and state 0 |
| HwConfigIntelProps.StartEntersManufacturing | libbt/src/hardware_intel.c:684-707 | HW_CFG_START and HW_SET_HOST_BAUD send 0xFC11 {0x01,0x00} and go to INF_BDDATA |
| HwConfigIntelProps.BdDataSent | libbt/src/hardware_intel.c:708-730 | INF_BDDATA sends 0xFC2F with 80 bytes and goes to SW_READ_VERSION |
| HwConfigIntelProps.MissingBdDataFailsTwice | libbt/src/hardware_intel.c:724-730 | without a bddata file FAIL is reported twice and the state returns to 0 |
| HwConfigIntelProps.ReadVersionSent | libbt/src/hardware_intel.c:731-743 | SW_READ_VERSION sends 05 FC 00 and goes to SW_FIND_PATCH |
| HwConfigIntelProps.MissingPatchGoesOff | libbt/src/hardware_intel.c:744-789 | a patch not found or not openable sends manufacture-off and goes to Success |
| HwConfigIntelProps.FoundPatchDownloads | libbt/src/hardware_intel.c:758-797 | a patch found and opened passes DL_MINIDRIVER and reads its first header in the same call |
| HwConfigIntelProps.ConfiguredNameGoesOff | libbt/src/hardware_intel.c:380-395 | a configured patch name ends in manufacture-off |
| HwConfigIntelProps.ChunkCall | libbt/src/hardware_intel.c:829-883 | the same chunking rule as hardware.c |
| HwConfigIntelProps.EmptyRecordCallAborts | libbt/src/hardware_intel.c:829-883 | a zero-length record aborts |
| HwConfigIntelProps.EndMarkerCall | libbt/src/hardware_intel.c:805-812 | the end marker sets is_patch_enabled to 2 and sends manufacture-off with 2 |
| HwConfigIntelProps.OffGoesToSuccess | libbt/src/hardware_intel.c:884-900 | INF_MANUFACTURE_OFF sends 0xFC11 {0x00, is_patch_enabled} and goes straight to Success |
| HwConfigIntelProps.SuccessCompletes | libbt/src/hardware_intel.c:901-915 | Success reports success, resets to 0 and neither sends nor releases the command buffer |
| HwConfigIntelProps.BaudStatesUnreachable | libbt/src/hardware_intel.c:668-690 | no call and no start ever enters HW_SET_BAUD_HS or HW_SET_HOST_BAUD from a reachable state |
| HwConfigIntelProps.SetBaudResendsBaud | libbt/src/hardware_intel.c:668-707 | if HW_SET_BAUD_HS ran, its second packet would begin with the baud command, not the manufacture command |
| HwConfigIntelProps.StepKeepsInv | libbt/src/hardware_intel.c:618-942 | every call keeps the invariant |
| HwLpmSco.StaticLpmParam | libbt/src/hardware_intel.c:195-209 | the guard times and TXD configuration are zero; the idle threshold and BT_WAKE polarity are the configured ones |
| HwLpmSco.LpmBytes | libbt/src/hardware_intel.c:151-166 | 12 bytes in the `bt_lpm_param_t` order |
| HwLpmSco.SleepModeCommand | libbt/src/hardware_intel.c:1124-1139 | 0xFC27 with 12 parameters (15 bytes): the LPM parameters when on, zeros when off |
| HwLpmSco.LpmEnable | libbt/src/hardware_intel.c:1108-1152 | the return value and effects are `LpmEnabled` |
| HwLpmSco.LpmFailsExactlyWhenRejected | libbt/src/hardware_intel.c:1108-1152 | TRUE exactly when a buffer was got and the transport accepted; lpm_cb(FAIL) exactly otherwise; one send iff a buffer was got |
| HwLpmSco.LpmCommandFollowsSwitch | libbt/src/hardware_intel.c:1130-1142 | the LPM-mode line is set first, then the sleep-mode command is sent |
| HwLpmSco.LpmCtrlCback | libbt/src/hardware_intel.c:957-972 | lpm_cb(SUCCESS) iff byte 5 is 0, then the event is released |
| HwLpmSco.IdleTimeout | libbt/src/hardware_intel.c:1163-1179 | threshold times the multiple, as a 32-bit value |
| HwLpmSco.IdleTimeoutMonotone | libbt/src/hardware_intel.c:1163-1179 | a higher threshold never gives a shorter timeout |
| HwLpmSco.ScoConfig | libbt/src/hardware_intel.c:1207-1261 | the effects are `ScoConfigured` |
| HwLpmSco.ScoConfigReportsOnlyFailure | libbt/src/hardware_intel.c:1207-1261 | scocfg_cb(FAIL) exactly when there is no buffer or the command is rejected, never SUCCESS; one send iff a buffer was got |
| HwLpmSco.ScoCfgCback | libbt/src/hardware_intel.c:989-1038 | the effects are `ScoCfgDone` |
| HwLpmSco.ScoCfgCbackNeverFails | libbt/src/hardware_intel.c:989-1038 | the event is released first; FAIL is never reported; SUCCESS once exactly when the PCM format step is not taken |
| UserialVendor.DataBits | libbt/src/userial_vendor.c:304-316 | none iff no data-bits flag; 8 iff the 8 flag; otherwise the widest set |
| UserialVendor.Parity | libbt/src/userial_vendor.c:318-327 | none iff no parity flag; PARENB iff NONE is not set; PARODD iff neither NONE nor EVEN is set |
| UserialVendor.StopBits | libbt/src/userial_vendor.c:329-336 | none iff no stop-bits flag; CSTOPB iff the one-stop-bit flag is not set |
| UserialVendor.OpenChecks | libbt/src/userial_vendor.c:297-338 | passes exactly when the baud is listed and a data-bits, a parity and a stop-bits flag are set; then the speed is the index's |
| UserialVendor.FlagPrecedence | libbt/src/userial_vendor.c:304-336 | 8 over 7 over 6 over 5; NONE over EVEN over ODD; 1 over 2 stop bits |
| UserialVendor.EightNOnePasses | libbt/src/userial_vendor.c:297-338 | an 8N1 configuration at any listed index passes, whatever else is set |
| UserialVendor.VndUserial.Init | libbt/src/userial_vendor.c:168-173 | fd is -1 and the port name is the default, cut to the buffer |
| UserialVendor.VndUserial.Open | libbt/src/userial_vendor.c:290-346 | fd is set to -1 first; open is tried exactly when the checks pass; fd and the result are open's result then, -1 otherwise |
| UserialVendor.VndUserial.Close | libbt/src/userial_vendor.c:395-413 | nothing is closed when fd is -1; otherwise that fd is closed; fd ends at -1 |
| UserialVendor.VndUserial.SetPort | libbt/src/userial_vendor.c:479-484 | the port name is replaced, fd unchanged, result 0 |
| UserialVendor.VndUserial.Ioctl | libbt/src/userial_vendor.c:444-467 | a request is issued exactly for the three wake operations with BT_WAKE_VIA_USERIAL_IOCTL; nothing otherwise |
| TestHs.Byte2Int | libbt/src/test_hs.c:190-227 | the digit value on hex digits, -1 on anything else |
| TestHs.Byte2IntMatchesCharToHex | libbt/src/test_hs.c:152-227 | byte2int agrees with char_to_hex, with -1 where char_to_hex gives 0xFF |
| TestHs.EncodeCommand | libbt/src/test_hs.c:236-251 | floor(n/2) bytes written; byte k is form_byte of characters 2k and 2k+1; a trailing odd character is dropped |
| TestHs.FirstIndicator | libbt/src/test_hs.c:268-273 | the first 0x04 in the port's bytes, with none before it |
| TestHs.Delivered | libbt/src/test_hs.c:262-266 | after each pass `bc` holds the byte that read got, or, when it got none, the byte it held before |
| TestHs.ReadEvent | libbt/src/test_hs.c:253-301 | the reading loop frames the bytes `bc` holds pass by pass as `Frame` says: bytes before the first 0x04 skipped, code 15 stops at once, else L and exactly L more bytes |
| TestHs.ScanParams | libbt/src/test_hs.c:292-298 | once the length is read, exactly L more bytes are taken |
| TestHs.ScanSkip | libbt/src/test_hs.c:268-274 | bytes before the indicator are ignored |
| TestHs.ScanFrames | libbt/src/test_hs.c:262-301 | the loop body, iterated from its start values, computes `Frame` |
| TestHs.ZeroLengthEventOverruns | libbt/src/test_hs.c:266-298 | as written, a zero length byte is not read (sscanf leaves x) and the event 04 0E 00 does not stop |
| TestHs.ZeroLengthEventEndsOnStaleReads | libbt/src/test_hs.c:262-298 | as written, 04 0E 00 followed by reads that get nothing is taken as an event of 14 stale parameter bytes, ending after 17 passes |
| TestHs.NoNulReadsAlike | libbt/src/test_hs.c:262-301 | without NUL bytes the loop as written and the corrected reading agree |
| TestHs.ParseCmd | libbt/src/test_hs.c:228-320 | the bytes written are the hex pairs of the command, and the event read is `Frame` of the bytes `bc` holds pass by pass |
| TestHs.Commands | libbt/src/test_hs.c:333-347 | no command passed on starts with '#' |
| TestHs.OpenFile | libbt/src/test_hs.c:322-348 | the line loop computes `Commands` over the file |
| TestHs.Uncommented | libbt/src/test_hs.c:338-342 | the lines that are not comments, no more of them than lines |
| TestHs.FgetsLine | libbt/src/test_hs.c:334-337 | a line read whole keeps its newline, which the tool then replaces by NUL |
| TestHs.CommandsOfLines | libbt/src/test_hs.c:333-347 | for a file of newline-ended lines, the commands are the lines, last character stripped, without the comments |

## Left out

- upio.c, bt_vendor.c and imc_idi_bt_ioctl.h are not part of this model: rfkill, netlink, thread handshakes and the `op` dispatcher are I/O and wiring.
- `ms_delay`, `hex_print`, every log call and every `printf` of test_hs.c: time and output only.
- `serial_setbaud`, the termios and `TIOCSSERIAL` calls, `open_ftdi_port` and `main` of test_hs.c: terminal set-up through system calls.
- `userial_vendor_set_baud` and `userial_ioctl_init_bt_wake`: they only forward to termios and ioctl calls.
- UserialVendor.VndUserial.Close: the BT_WAKE de-assert ioctl it issues before `close` when built with BT_WAKE_VIA_USERIAL_IOCTL is not recorded.
- UserialVendor.VndUserial.Open: the termios calls after open are not modelled. The source discards the format the checks compute (`OpenChecks`; its only use is inside `#if 0` at libbt/src/userial_vendor.c:360-382) and always sets 115200 baud, 8N1 with RTS/CTS flow control and raw mode.
- hardware.c's `hw_lpm_enable`, `hw_lpm_get_idle_timeout`, `hw_lpm_set_wake_state`, `hw_sco_config`, `hw_set_patch_file_*` and `hw_epilog_*`: empty stubs, a constant, or configuration setters and a shut-down sequence outside the configuration engine.
- hardware_intel.c's `hw_lpm_set_wake_state`: it only calls `upio_set`.
- The actual `open`, `read`, `write`, `fopen`, `opendir`/`readdir` and `close` calls: modelled as inputs (file contents, directory listing, descriptor returned by open).
- The undefined behaviour of the source: the 4-byte `malloc` of the chip-id string, `memset` of a pointer's size, the double `dealloc` on the hardware.c Success-without-startup path (modelled as one release), a `FILE*` compared with -1 (modelled as an optional stream), the unchecked `strcpy` of `userial_set_port`, and the bddata buffer overrun past 80 bytes (only the bytes sent are modelled).
- HwConfigProps.FailureAborts, HwConfigIntelProps.AllocFailureAborts: the source `bzero`s the result of `alloc` before testing it for NULL (libbt/src/hardware.c:717-719, libbt/src/hardware_intel.c:652-654), so a failed alloc is undefined behaviour there (a write through NULL); the model gives the checked behaviour instead, the orderly abort of the `p_buf == NULL` branch.
- HwConfig.WriteLineCommand: the payload loop of a "01" line (libbt/src/hardware.c:944-948) writes (len-9)/2 bytes, so a line of 521 characters or more runs past the 258-byte command area, which is undefined behaviour; the model's `CmdBuffer.Put` records such bytes in `written` but leaves the array alone, and the packet sent is the first 3 + parameter-length bytes of the area.
- HwConfig.Step and HwConfigIntel.Step: `xmit_cb` is taken to answer the same way for every send of one call.
- HwConfigIntel.SetBaudResult: the two baud states are unreachable; their packet is modelled from the buffer contents as written, without the aliasing of a buffer the transport may already own.
- TestHs.ReadEvent: the reads are a finite sequence of `Option<byte>`, None for a read on the non-blocking port that gets no byte (then `bc` keeps its old byte, `Delivered`). Which reads get a byte depends on timing and is an input. When the given reads run out, the model stops and reports `Exhausted`; the tool keeps reading.
- TestHs.OpenFile: the C `line` buffer starts uninitialised; the model starts it zero-filled.
- HwConfig.Step and HwConfigIntel.Step: the event is taken to be the receive buffer, at least 15 (hardware.c) or 9 (hardware_intel.c) bytes long, because the source reads the version bytes at offsets up to 14 or 8 without checking the event's length; for a shorter event (the 6-byte reply to HCI_Reset) those bytes are whatever the buffer held, and the model leaves them as inputs.
- The `LPM_*`, `SCO_*`, `USERIAL_BAUD_*` and `B*` macro values are not visible; they are named constants or datatype constructors.

## Findings

| source | as written | input that shows it | evidently intended | confidence | as-written member | corrected member |
|---|---|---|---|---|---|---|
| libbt/src/test_hs.c:264-298 | `sscanf(&bc, "%c", &x)` on a NUL byte is an input failure and leaves `x` as it was, so a length byte 0x00 is read as the event code again and the loop takes that many more passes | the port bytes 04 0E 00 (a Command Complete with no parameters) | a zero length byte ends the event at once | not executed | TestHs.ZeroLengthEventOverruns | TestHs.ReadEvent |
| libbt/src/hardware.c:897-957 | the result of the first `fgets` in HW_CFG_MEMWRITE is not checked; a text patch whose last line ends in a newline leaves the end-of-file indicator clear, so the next call's `fgets` returns NULL on the zeroed line, which is neither filtered nor a "01" line, and the call takes the abort path (`fwcfg_cb(FAIL)`) | a WP2 patch file holding the one line "01 030C 00" and a newline, on the call after that line was sent | a drained file ends the patch: manufacture-off with is_patch_enabled 2 | not executed | HwConfigProps.DrainedFileStops | HwConfigProps.DrainedFileGoesOff |
