# Alx core — a Dafny model

Alx is a C library of drivers and utilities for microcontroller firmware.
It also ships a Python script that generates new module skeletons.
This project models the library's core in Dafny and proves what the code promises about it.

The model follows the library's own structure, one module per source file:

- **Protocol and data handling**
  - `AlxLin`: LIN frames, with the protected identifier, the enhanced checksum and the checks applied to received frames.
  - `AlxCanParser`: the CAN signal parser, with its little- and big-endian getters and setters.
  - `AlxBytes`: fixed-width integers taken apart into bytes and joined again, two's complement included.
  - `AlxParamItem`: parameter items, with their limits and defaults.
  - `AlxId`: firmware and hardware identity, meaning the packed version word, the boot ID record and the base-3 hardware ID read from tri-state pins.
  - `AlxFs`: the FatFs/littlefs front end, covering mount state, open modes and the delimited and chunked reads.
  - `AlxSd`: the SD card SPI driver.
  - `AlxFlashMap`: the MCUboot flash-map backend.
  - `AlxPwm`: the STM32 PWM driver.
  - `AlxIoPinLpc84x`: the LPC84x I/O pin driver.
- **I2C/SPI peripheral drivers**
  - `AlxPcal6416a` and `AlxPca9539a`: port expanders.
  - `AlxCdce913`: clock synthesiser.
  - `AlxA352`, `AlxAdxl355`: accelerometers.
  - `AlxAds8678`, `AlxAds114s08`: ADCs.
  - `AlxMax17263`: fuel gauge.
  - `AlxPca9431`, `AlxPca9430`: wireless-power receivers. They share `AlxPca943x`.
  - `AlxAdau1961`: audio codec.
- **The module generator**
  - `AlxTpl`: the module-skeleton generator script.
- **Shared definitions**
  - `AlxCommon`: pin-mask operations, 16-bit words and runs of bus steps that stop at the first failure.

Drivers whose C structures are updated in place are Dafny classes.
A driver class holds:

- its register shadow image or its fields;
- a log of the bus transfers it issued;
- its `isInit`/`wasCtorCalled` flags.

Pure computations, such as codecs, checksums and register-field packing, are functions.
Lemmas relate each function to an inverse or to an independent definition.

Hardware, buses, clocks and library calls outside the core become parameters:

- a bus status or a received byte is a function of the transfer's position in the log;
- a delay is omitted;
- an SDK register is an array field.

Fixed-width arithmetic, such as uint8 counters, uint32 products and truncating casts, is written out explicitly where the source relies on it.

## Model

The table lists every member whose contract states a property of the source.
Definitional functions without a contract of their own have no row. They are described through the rows of the lemmas and methods that state their properties. Examples are:

- `AlxTpl.Script`, `AlxTpl.Main`, `AlxTpl.MainAsWritten`, `AlxTpl.ComposeNames`, `AlxTpl.Upper`, `AlxTpl.Lower` and `AlxTpl.Capitalize`;
- `AlxLin.EnhancedChecksum`, `AlxAdxl355.TempDegC` and `AlxAds114s08.ToMilliVolts`;
- `AlxPwm.Pulse`, `AlxPwm.PulseAsWritten`, `AlxSd.TriesAsWritten`, `AlxId.ParseDec` and `AlxMax17263.ParseHex4`.

| member | source | states |
|---|---|---|
| AlxLin.DataLenFromId | alxLin.c:717-736 | identifier bit 5 clear gives 2 data bytes, bits 5:4 = 10 give 4, bits 5:4 = 11 give 8 |
| AlxLin.ProtectedId | alxLin.c:737-745 | the six identifier bits are kept; bit 6 is the even parity P0 = ID0^ID1^ID2^ID4 and bit 7 the odd parity P1 = !(ID1^ID3^ID4^ID5) |
| AlxLin.ProtectedIdIsValid | alxLin.c:737-745 | every computed protected identifier passes the parity check and keeps the identifier bits |
| AlxLin.ProtectedIdInjective | alxLin.c:737-745 | two 6-bit identifiers share a protected identifier exactly when they are equal |
| AlxLin.ParityFlipDetected | alxLin.c:737-745 | flipping either parity bit of a protected identifier makes it fail the parity check |
| AlxLin.CarrySum | alxLin.c:746-766 | the eight-bit sum with end-around carry of a total is at most 255 and is zero only for a zero total |
| AlxLin.CarrySumStep | alxLin.c:756-762 | adding one byte to the total matches the loop's step: add, and subtract 255 when the sum reaches 256 |
| AlxLin.RunningSum | alxLin.c:746-766 | the checksum loop's running sum over the protected identifier and the data stays within a byte |
| AlxLin.CarrySumSmall | alxLin.c:746-766 | a total that fits in a byte is its own sum with carry |
| AlxLin.RunningSumIsCarrySum | alxLin.c:746-766 | the loop's running sum equals the sum with carry of the identifier plus all data bytes (the LIN 2.x enhanced checksum before inversion) |
| AlxLin.CalcEnhancedChecksum | alxLin.c:746-766 | the loop returns the enhanced checksum: the inverted sum with carry of the protected identifier and the data |
| AlxLin.MasterFrameLayout | alxLin.c:425-435 | the master frame is SYNC 0x55, the protected identifier, the data and the enhanced checksum over identifier and data |
| AlxLin.MasterWrite | alxLin.c:365-450 | a failing serial-port DeInit or Init around the break pulse is returned and nothing is sent; otherwise the frame is written, truncated to its `uint8_t` length, and the write status is returned |
| AlxLin.MasterWriteSendsWholeFrame | alxLin.c:433-438 | a frame with at most 252 data bytes is written whole |
| AlxLin.ShortFifoRejected | alxLin.c:270-292 | a receive FIFO holding fewer than four entries is never accepted as a response |
| AlxLin.MasterTryRun | alxLin.c:246-322 | one try is accepted exactly when the FIFO length, the protected identifier echo and the checksum all check out; the data are the bytes between header and checksum |
| AlxLin.MasterRead | alxLin.c:217-341 | Ok exactly when some try within numOfTries is accepted; the first accepted try supplies the data; each try sends only SYNC and the protected identifier; otherwise ErrNumOfTries after every try; data length is len, or at most maxLen in variable-length mode |
| AlxLin.MasterReadAcceptsPublishedFrame | alxLin.c:270-322 | a FIFO holding the break byte and a well-formed frame of the right length is accepted |
| AlxLin.SlaveExpectedLen | alxLin.c:489-513 | the expected frame length is 1 (or 3 with break and SYNC) for a header-only frame, else len+2 (or len+4) |
| AlxLin.WaitForEntries | alxLin.c:532-560 | the wait succeeds exactly when some poll of the FIFO sees the expected number of entries before the timeout |
| AlxLin.SlaveTryRun | alxLin.c:520-631 | one slave try is accepted exactly when the protected identifier parity and, when data are expected, the checksum check out; it yields the identifier and the data |
| AlxLin.SlaveReadLen | alxLin.c:466-658 | Ok exactly when some try within numOfTries is accepted; the first accepted try supplies a 6-bit identifier and exactly len data bytes; otherwise ErrNumOfTries |
| AlxLin.SlaveChecksumCheckedIffData | alxLin.c:598-627 | the guards `5 <= rxFrameLen` and `3 <= rxFrameLen` hold exactly when data bytes are expected |
| AlxLin.SlaveAcceptsMasterFrame | alxLin.c:466-658 | the frame the master writes, preceded by a break byte, is accepted by the slave with the same identifier and data |
| AlxLin.SlaveHeaderOnly | alxLin.c:578-596 | a header-only frame is accepted exactly when its byte is the protected form of its own identifier bits |
| AlxCanParser.Put | alxCanParser.c:72-76 | writing bytes at an offset replaces exactly that window of the eight-byte payload and keeps every other byte |
| AlxCanParser.PutWhole | alxCanParser.c:166-195 | writing eight bytes at offset 0 replaces the whole payload |
| AlxCanParser.InOrder | alxCanParser.c:82-101 | the endian selection lays out the most-significant-first bytes unchanged (Big) or reversed (Little), keeping their number |
| AlxCanParser.InOrderInjective | alxCanParser.c:82-101 | two values laid out with the same endianness give the same bytes only if their byte sequences are equal |
| AlxCanParser.BitSet | alxCanParser.c:574-586 | setting a bit gives it the requested state and leaves the other seven bits of the byte unchanged |
| AlxCanParser.BitsDetermineByte | alxCanParser.c:560-573 | two bytes with the same eight bits are equal |
| AlxCanParser.SetBit | alxCanParser.c:66-71 | the message payload changes only in the selected byte, which gets the selected bit set to the value |
| AlxCanParser.SetBitThenGetBit | alxCanParser.c:66-71 | after SetBit, GetBit at the same place returns the value written, and every other bit and byte reads as before |
| AlxCanParser.SetUint8 | alxCanParser.c:72-76 | the payload changes only in the selected byte, which holds the value |
| AlxCanParser.GetUint8 | alxCanParser.c:307-311 | the value read is the byte at the offset |
| AlxCanParser.Uint8RoundTrip | alxCanParser.c:72-76 | reading back a written byte returns it |
| AlxCanParser.SetUint16 | alxCanParser.c:82-101 | two bytes at the offset hold the value in the selected byte order; the rest of the payload is kept |
| AlxCanParser.GetUint16 | alxCanParser.c:317-338 | the value read is the one whose bytes in the selected order are the two bytes at the offset |
| AlxCanParser.Uint16RoundTrip | alxCanParser.c:82-101 | GetUint16 after SetUint16 with the same endianness and offset returns the value |
| AlxCanParser.SetInt16 | alxCanParser.c:102-121 | the two's-complement bytes of the signed value are written in the selected order at the offset, the rest kept |
| AlxCanParser.GetInt16 | alxCanParser.c:339-360 | the signed value read is the one whose two's-complement bytes in the selected order are at the offset |
| AlxCanParser.Int16SetGet | alxCanParser.c:102-121 | GetInt16 after SetInt16 returns the signed value |
| AlxCanParser.PutFour | alxCanParser.c:122-143 | four single-byte stores at consecutive offsets write exactly the window that Put describes |
| AlxCanParser.SetUint32 | alxCanParser.c:122-143 | four bytes at the offset hold the value in the selected byte order; the rest of the payload is kept |
| AlxCanParser.GetUint32 | alxCanParser.c:361-387 | the value read is the one whose four bytes in the selected order are those at the offset |
| AlxCanParser.BigOrChain32 | alxCanParser.c:370-376 | the big-endian OR-and-shift assembly of four bytes gives the value whose bytes are those four, most significant first |
| AlxCanParser.LittleOrChain32 | alxCanParser.c:378-384 | the little-endian OR-and-shift assembly of four bytes gives the value whose least-significant-first bytes are those four |
| AlxCanParser.Uint32RoundTrip | alxCanParser.c:122-143 | GetUint32 after SetUint32 returns the value for both byte orders |
| AlxCanParser.SetInt32 | alxCanParser.c:144-165 | the two's-complement bytes of the signed value are written in the selected order at the offset |
| AlxCanParser.GetInt32 | alxCanParser.c:388-414 | the signed value read is the one whose two's-complement bytes are at the offset |
| AlxCanParser.Int32SetGet | alxCanParser.c:144-165 | GetInt32 after SetInt32 returns the signed value |
| AlxCanParser.Layout64AsWritten | alxCanParser.c:166-195 | the payload as the 64-bit setter leaves it always has eight bytes |
| AlxCanParser.WriteAsWritten64 | alxCanParser.c:171-194 | the stores of the 64-bit setter, including the little-endian ones that all target byte 3, give Layout64AsWritten |
| AlxCanParser.WriteInOrder64 | alxCanParser.c:171-194 | the corrected stores put all eight bytes in the selected order |
| AlxCanParser.SetUint64 | alxCanParser.c:166-195 | the payload becomes Layout64AsWritten: correct for big endian; for little endian bytes 0-2 get the low bytes, byte 3 the top byte, bytes 4-7 are not written |
| AlxCanParser.SetUint64Corrected | alxCanParser.c:166-195 | the corrected setter writes all eight bytes in the selected order |
| AlxCanParser.GetUint64 | alxCanParser.c:415-449 | the value read is the one whose eight bytes in the selected order form the payload |
| AlxCanParser.BigOrChainBytes | alxCanParser.c:424-434 | the big-endian OR-and-shift assembly of eight bytes gives the value whose bytes are those eight, most significant first |
| AlxCanParser.LittleOrChainBytes | alxCanParser.c:436-446 | the little-endian OR-and-shift assembly of eight bytes gives the value whose least-significant-first bytes are those eight |
| AlxCanParser.Uint64RoundTrip | alxCanParser.c:415-449 | GetUint64 after the corrected SetUint64 returns the value for both byte orders |
| AlxCanParser.SetUint64BigAsIntended | alxCanParser.c:173-182 | for big endian the setter as written already writes the intended layout |
| AlxCanParser.SetUint64LittleLosesHighBytes | alxCanParser.c:183-192 | little endian 0x0102030405060708 written into a zero payload reads back as 0x01060708 |
| AlxCanParser.SetUint64LittleKeepsUpperPayload | alxCanParser.c:183-192 | the little-endian setter leaves byte 3 holding the most significant byte and bytes 4-7 unchanged |
| AlxCanParser.SetInt64 | alxCanParser.c:196-225 | the signed 64-bit setter has the same layout as SetUint64, byte-3 defect included |
| AlxCanParser.SetInt64Corrected | alxCanParser.c:196-225 | the corrected signed setter writes all eight two's-complement bytes in the selected order |
| AlxCanParser.GetInt64 | alxCanParser.c:450-484 | the signed value read is the one whose eight two's-complement bytes form the payload |
| AlxCanParser.Int64SetGet | alxCanParser.c:450-484 | GetInt64 after the corrected SetInt64 returns the signed value |
| AlxCanParser.SetInt64BigAsIntended | alxCanParser.c:196-225 | for big endian the signed setter as written writes the intended layout |
| AlxCanParser.SetInt64LittleLosesHighBytes | alxCanParser.c:196-225 | little endian -2 written as written reads back as 0xFFFFFFFE, not -2 |
| AlxCanParser.EnumField | alxCanParser.c:539-554 | the enum read from nOfBits bits fits in nOfBits bits |
| AlxCanParser.EnumFieldBits | alxCanParser.c:548-552 | bit k of the enum read is bit bitOffset+k of the byte for k below nOfBits, else zero |
| AlxCanParser.LowMaskBits | alxCanParser.c:288-299 | masking with the low nOfBits mask keeps exactly the bits below nOfBits |
| AlxCanParser.EnumPutBits | alxCanParser.c:288-299 | the enum setter writes value bit k into bit bitOffset+k for k below nOfBits and keeps the other bits |
| AlxCanParser.SetEnum | alxCanParser.c:288-299 | only the selected byte changes, and it gets the enum bits written into the selected field |
| AlxCanParser.GetEnum | alxCanParser.c:539-554 | the loop returns the field of nOfBits bits starting at bitOffset |
| AlxCanParser.EnumRoundTrip | alxCanParser.c:288-299 | reading the enum back after writing it returns the value's low nOfBits bits |
| AlxSd.CmdFrame | alxSd.c:787-794 | a command frame is six bytes |
| AlxSd.CmdFrameFields | alxSd.c:787-794 | a command frame starts with the start bits 01 and the 6-bit command index, carries the 32-bit argument most significant byte first, and ends with the CRC byte |
| AlxSd.FixedFrames | alxSd.c:410-416 | the fixed frames for CMD0, CMD8, CMD58, CMD55, ACMD41, CMD12 and CMD13 are the exact bytes the driver sends, CRCs 0x95 and 0x87 included |
| AlxSd.Fit | alxSd.c:1246-1300 | a scripted reply is cut or padded to exactly the number of bytes the driver reads |
| AlxSd.Reply | alxSd.c:1246-1300 | the k-th scripted SPI reply always has the requested length |
| AlxSd.Spi.constructor | alxSd.c:74-111 | the SPI bus starts with chip select released and empty logs of sent and received data |
| AlxSd.Spi.AssertCs | alxSd.c:1301-1315 | chip select is asserted; nothing is sent or received |
| AlxSd.Spi.DeAssertCs | alxSd.c:1316-1330 | chip select is released; nothing is sent or received |
| AlxSd.Spi.Write | alxSd.c:1301-1330 | the data are appended to the sent log and the next scripted write status is consumed and returned |
| AlxSd.Spi.WriteRead | alxSd.c:1246-1300 | the next scripted reply, cut to n bytes, is returned and appended to the received log |
| AlxSd.FromScriptSnoc | alxSd.c:1246-1300 | the polls read so far stay the script's prefix after one more reply |
| AlxSd.DropStep | alxSd.c:1246-1300 | consuming k replies and then one more is consuming k+1, and the next reply is the k-th of the original script |
| AlxSd.Acmd41Rounds | alxSd.c:580-684 | k polling rounds of CMD55 + ACMD41 send 8k frames |
| AlxSd.Blocks | alxSd.c:825-886 | every block extracted from the received log after a 0xFE token has exactly 512 bytes |
| AlxSd.BlocksAppendPolls | alxSd.c:846-884 | single-byte token polls add no block |
| AlxSd.BlocksAppendBlock | alxSd.c:846-884 | a 514-byte transfer after a 0xFE token adds its first 512 bytes as the next block |
| AlxSd.WriteFrames | alxSd.c:1120-1160 | writing k blocks sends 2k frames |
| AlxSd.WriteFramesBlocks | alxSd.c:1120-1160 | frame 2i is the start token 0xFC and frame 2i+1 is the i-th 512-byte slice of the data |
| AlxSd.TokenIsFE | alxSd.c:846-884 | the awaited start token is exactly the byte 0xFE |
| AlxSd.TokenThenBlock | alxSd.c:846-884 | polls that end on the 0xFE token followed by a 514-byte transfer add exactly one block |
| AlxSd.TriesAsWrittenBelow255 | alxSd.c:140 | below 255 the `uint8_t` try loop makes exactly numOfTries tries |
| AlxSd.TriesAsWrittenNeverEndAt255 | alxSd.c:140 | with numOfTries 255 the `uint8_t` counter wraps and the loop never ends while the tries fail |
| AlxSd.Sd.constructor | alxSd.c:74-111 | the parameters are stored; the object is constructed and not initialised |
| AlxSd.Sd.IsAwaited | alxSd.c:1270-1290 | the byte is awaited exactly when its masked value equals (or, with isEqual false, differs from) the target |
| AlxSd.Sd.WaitByte | alxSd.c:1246-1300 | single-byte reads are polled until the awaited byte or the timeout; Ok exactly when the last poll is the awaited byte, which is returned; chip select and sent data are unchanged |
| AlxSd.Sd.AssertCsSendSyncByte | alxSd.c:1301-1315 | chip select is asserted and one 0xFF sync byte is written; Ok exactly when the write succeeds |
| AlxSd.Sd.SendSyncByteDeAssertCs | alxSd.c:1316-1330 | one sync byte is written, then chip select is released when the write succeeds |
| AlxSd.Sd.GeneratePwrUpClkCycles | alxSd.c:348-389 | on success the card gets a sync byte, 20 bytes of 0xFF and another sync byte; chip select ends released |
| AlxSd.Sd.SendCmdAndWaitR1 | alxSd.c:390-447 | a command is framed by sync bytes with chip select asserted and the R1 response is polled; on failure chip select is released |
| AlxSd.Sd.ExecuteR1 | alxSd.c:390-447 | a command with an R1 response succeeds exactly when the awaited R1 arrives; chip select ends released |
| AlxSd.Sd.ExecuteCmd0 | alxSd.c:390-447 | CMD0 is sent and succeeds only on the idle response 0x01 |
| AlxSd.Sd.ExecuteCmd18 | alxSd.c:767-824 | CMD18 with the address is sent and succeeds only on R1 0x00 |
| AlxSd.Sd.ExecuteCmd25 | alxSd.c:1041-1098 | CMD25 with the address is sent and succeeds only on R1 0x00 |
| AlxSd.Sd.ExecuteR1Rest4 | alxSd.c:448-513 | a command with an R7/R3 response polls R1, then reads four more bytes |
| AlxSd.Sd.ExecuteCmd8 | alxSd.c:448-513 | CMD8 is sent and succeeds on R1 0x01 followed by a four-byte reply |
| AlxSd.Sd.ExecuteCmd58SdIdle | alxSd.c:514-579 | CMD58 is sent with the card idle and succeeds on R1 0x01 and the four OCR bytes |
| AlxSd.Sd.ExecuteCmd58SdReady | alxSd.c:685-750 | CMD58 is sent with the card ready and succeeds on R1 0x00 and the four OCR bytes |
| AlxSd.Sd.ExecuteCmd12 | alxSd.c:887-947 | CMD12 is sent and succeeds once the card is no longer busy |
| AlxSd.Sd.ExecuteCmd13 | alxSd.c:1180-1245 | CMD13 is sent and succeeds only on R1 0x00 followed by a zero status byte |
| AlxSd.Sd.ExecuteAcmd23 | alxSd.c:948-1040 | CMD55 then ACMD23 with the block count are sent; chip select ends released |
| AlxSd.Sd.SendAcmd41Round | alxSd.c:600-670 | one round sends CMD55 and ACMD41 and returns the ACMD41 response byte |
| AlxSd.Sd.ExecuteAcmd41 | alxSd.c:580-684 | rounds repeat within the timeout; success means at least one round was sent and the last response is 0x00 (card ready) |
| AlxSd.Sd.MemCopy | alxSd.c:846-884 | the source bytes are copied at the offset; bytes before and after keep their values |
| AlxSd.Sd.StoreBlock | alxSd.c:846-884 | storing a block extends the written prefix of the buffer by that block |
| AlxSd.Sd.ReadOneBlock | alxSd.c:846-884 | one block read waits for the 0xFE token and reads 514 bytes; on success the received log gains exactly that block |
| AlxSd.Sd.ReadNumOfBlocks | alxSd.c:825-886 | on success the buffer holds exactly the numOfBlocks blocks found in the received log, in order |
| AlxSd.Sd.WriteOneBlock | alxSd.c:1120-1160 | one block write sends token 0xFC and the block, then waits for data-accepted (xxx00101) and for the card to leave busy |
| AlxSd.Sd.WriteNumOfBlocks | alxSd.c:1099-1179 | on success the card gets a sync byte, the token-and-block frames in order, the stop token 0xFD and two sync bytes |
| AlxSd.Sd.FinishWrite | alxSd.c:1160-1178 | the stop token and sync bytes are sent and the card's busy state is awaited |
| AlxSd.Sd.ExecuteCmd9 | alxSd.c:751-758 | the CSD check is a stub that always succeeds |
| AlxSd.Sd.ExecuteCmd10 | alxSd.c:759-766 | the CID check is a stub that always succeeds |
| AlxSd.Sd.InitTry | alxSd.c:140-182 | one initialisation try sends power-up clocks, CMD0, CMD8, CMD58, the ACMD41 rounds and CMD58, in that order |
| AlxSd.Sd.Init | alxSd.c:117-195 | a failed SPI Init returns Err without any try; otherwise the first successful try sets isInit and returns Ok; after every try fails, a failed SPI DeInit gives Err and a successful one ErrNumOfTries |
| AlxSd.Sd.DeInitTry | alxSd.c:215-237 | one de-initialisation try sends power-up clocks and CMD0 |
| AlxSd.Sd.DeInit | alxSd.c:196-246 | Ok clears isInit after a successful try and SPI DeInit; a failing SPI DeInit returns Err at once; ErrNumOfTries after every try fails |
| AlxSd.Sd.ReadTry | alxSd.c:267-283 | one read try sends CMD18, reads the blocks and sends CMD12; on success the buffer holds the blocks read |
| AlxSd.Sd.ReadBlock | alxSd.c:247-292 | at most numOfTries tries; Ok means the last try sent CMD18 at the address, the blocks read fill the buffer in order, and CMD12 followed; ErrNumOfTries comes only after exactly numOfTries failed tries |
| AlxSd.Sd.WriteTry | alxSd.c:313-333 | one write try sends ACMD23, CMD25, the blocks and CMD13 |
| AlxSd.Sd.WriteBlock | alxSd.c:293-342 | at most numOfTries tries; Ok means the last try sent the whole pre-erase, write and status sequence with every data block; ErrNumOfTries comes only after exactly numOfTries failed tries |
| AlxParamItem.RangeCheck | alxParamItem.c:611-633 | the range check succeeds exactly when min <= v <= max, and otherwise names the violated bound |
| AlxParamItem.Clamp | alxParamItem.c:634-639 | the bounded value lies within [min, max], equals the input when that is in range, and equals min below it |
| AlxParamItem.BoundStatus | alxParamItem.c:634-639 | bounding reports Ok exactly when the value needed no change |
| AlxParamItem.BoundIdempotent | alxParamItem.c:634-639 | bounding twice is bounding once, and the bounded value fits the item's integer type |
| AlxParamItem.StrRangeCheck | alxParamItem.c:1180-1202 | a string passes the range check exactly when it is at most valLen characters long |
| AlxParamItem.BoundStr | alxParamItem.c:1203-1207 | the bounded string is a prefix of the input of at most valLen characters, and is the input itself when it fits |
| AlxParamItem.ToDefBranchIntended | alxParamItem.c:478-498 | the intended reset dispatch has a copy branch for every type and never reaches the assertion |
| AlxParamItem.ToDefArrStrUnreachable | alxParamItem.c:495-497 | as written, the array and string branches test Uint16 again and are never taken: exactly Arr and Str fall into the failing assertion; every other type is reset as intended |
| AlxParamItem.CtorStrGuardAdmitsOverlong | alxParamItem.c:399-414 | the constructor's guard measures the default buffer before the copy, so an empty buffer admits a three-character default into a two-character item |
| AlxParamItem.ParamItem.CtorNum | alxParamItem.c:37-65 | an integer item records its type, name, identifiers, default, bounds and handling, and starts at its default |
| AlxParamItem.ParamItem.CtorBool | alxParamItem.c:327-352 | a boolean item records its default and starts at it |
| AlxParamItem.ParamItem.CtorArr | alxParamItem.c:353-385 | an array item copies valBuffLen bytes of the default into both the default and the current value |
| AlxParamItem.ParamItem.CtorStr | alxParamItem.c:386-418 | a string item whose default fits strMaxLen starts with the default as both default and current value |
| AlxParamItem.ParamItem.SetValToDef | alxParamItem.c:478-498 | the current value becomes the default for every type, arrays and strings included; only the current value changes |
| AlxParamItem.ParamItem.SetValNum | alxParamItem.c:598-1021 | Assert: an in-range value is stored with Ok, otherwise Err and no change; Ignore: the range check's status, storing only in range; Bound: the value clamped to [min, max] is stored and Ok means no clamping; any other handling: Err and no change; only the current value may change |
| AlxParamItem.ParamItem.SetValBool | alxParamItem.c:1128-1140 | a boolean is stored without a range check and Ok is returned; only the current value changes |
| AlxParamItem.ParamItem.SetValArr | alxParamItem.c:1150-1158 | the first valLen bytes of the input become the value; only the current value changes |
| AlxParamItem.ParamItem.SetValStr | alxParamItem.c:1168-1218 | Assert and Ignore store a string that fits valLen and otherwise keep the value (Assert returning Err); Bound stores the prefix that fits and reports Ok only when nothing was cut; only the current value may change |
| AlxBytes.Msb16 | alxCanParser.c:82-101 | a 16-bit value has two bytes, most significant first |
| AlxBytes.Msb16Injective | alxCanParser.c:317-338 | two 16-bit values with the same bytes are equal |
| AlxBytes.Asr16 | alxCanParser.c:102-121 | the arithmetic right shift of a signed 16-bit pattern agrees with the logical shift for non-negative values |
| AlxBytes.Int16Msb | alxCanParser.c:102-121 | the bytes of a signed 16-bit value, computed with arithmetic shifts, are two |
| AlxBytes.Int16MsbIsMsb16 | alxCanParser.c:102-121 | truncating arithmetic shifts of a signed value to bytes gives the same bytes as the unsigned layout |
| AlxBytes.Msb32 | alxCanParser.c:122-143 | a 32-bit value has four bytes, most significant first |
| AlxBytes.Msb32RoundTrip | alxCanParser.c:361-387 | assembling the four bytes of a value gives the value back, and splitting an assembled value gives its bytes back |
| AlxBytes.Asr32 | alxCanParser.c:144-165 | the arithmetic right shift of a signed 32-bit pattern agrees with the logical shift for non-negative values |
| AlxBytes.Int32Msb | alxCanParser.c:144-165 | the bytes of a signed 32-bit value are four |
| AlxBytes.SignedByte32IsByte32 | alxCanParser.c:144-165 | the byte cut from an arithmetic shift equals the byte cut from the logical shift |
| AlxBytes.Int32MsbIsMsb32 | alxCanParser.c:144-165 | the signed 32-bit layout equals the unsigned one on the bit pattern |
| AlxBytes.Msb64 | alxCanParser.c:166-195 | a 64-bit value has eight bytes, most significant first |
| AlxBytes.Msb64RoundTrip | alxCanParser.c:415-449 | assembling eight bytes and splitting are inverse to each other |
| AlxBytes.Msb64OfBytes | alxCanParser.c:415-449 | splitting the value assembled from eight given bytes returns those bytes |
| AlxBytes.Asr64 | alxCanParser.c:196-225 | the arithmetic right shift of a signed 64-bit pattern agrees with the logical shift for non-negative values |
| AlxBytes.Int64Msb | alxCanParser.c:196-225 | the bytes of a signed 64-bit value are eight |
| AlxBytes.SignedByte64IsByte64 | alxCanParser.c:196-225 | the byte cut from an arithmetic shift equals the byte cut from the logical shift |
| AlxBytes.Int64MsbIsMsb64 | alxCanParser.c:196-225 | the signed 64-bit layout equals the unsigned one on the bit pattern |
| AlxPcal6416a.ZeroWritable | Ext/alxPcal6416a.c:399-425 | zero-initialisation clears every writable shadow register and leaves the input-port and IRQ-status registers as they were |
| AlxPcal6416a.ZeroedRegisters | Ext/alxPcal6416a.c:399-425 | the zeroed registers are exactly 0x02-0x07, 0x40-0x4B and 0x4F |
| AlxPcal6416a.InputAddr | Ext/alxPcal6416a.c:211-235 | a pin is read from input port 0 or 1, both read-only |
| AlxPcal6416a.OutputAddr | Ext/alxPcal6416a.c:236-307 | a pin is written in output port 0 exactly when it is below 8, else in output port 1; both are writable |
| AlxPcal6416a.Port1AsWrittenIsNoop | Ext/alxPcal6416a.c:226-230 | as written, for pins 8-15 the mask `1U << pin` has no bit inside the byte: Read returns false and Write/Set/Reset/Toggle leave both output ports unchanged |
| AlxPcal6416a.Port0AsWrittenAgrees | Ext/alxPcal6416a.c:219-223 | for pins 0-7 the code as written reads bit pin of input port 0 and applies the operation to bit pin of output port 0 only |
| AlxPcal6416a.Port1SetCounterexample | Ext/alxPcal6416a.c:271 | Set of pin P1_0 (8) on a zero register leaves it zero, while the intended result sets bit 0 |
| AlxPcal6416a.Pcal6416a.constructor | Ext/alxPcal6416a.c:55-85 | the shadow registers are zero-initialised; the driver is constructed but not initialised |
| AlxPcal6416a.Pcal6416a.IoPinRead | Ext/alxPcal6416a.c:211-235 | a pin reads as bit (pin mod 8) of its port's input register; nothing changes |
| AlxPcal6416a.Pcal6416a.UpdatePin | Ext/alxPcal6416a.c:236-307 | only bit (pin mod 8) of the pin's output register changes, as the operation says |
| AlxPcal6416a.Pcal6416a.IoPinWrite | Ext/alxPcal6416a.c:236-259 | only the pin's bit in its output register changes, and it becomes the value |
| AlxPcal6416a.Pcal6416a.IoPinSet | Ext/alxPcal6416a.c:260-275 | only the pin's output bit changes, and it becomes 1 |
| AlxPcal6416a.Pcal6416a.IoPinReset | Ext/alxPcal6416a.c:276-291 | only the pin's output bit changes, and it becomes 0 |
| AlxPcal6416a.Pcal6416a.IoPinToggle | Ext/alxPcal6416a.c:292-307 | only the pin's output bit changes, and it is inverted |
| AlxPcal6416a.ToggleTwiceRestores | Ext/alxPcal6416a.c:292-307 | toggling the same pin twice restores the whole register map |
| AlxPca9539a.OpenDrainConfigBits | Ext/alxPca9539a.c:261-277 | after the open-drain update each configuration bit follows the output bit where the open-drain mask is set and keeps its old value elsewhere |
| AlxPca9539a.OpenDrainBit | Ext/alxPca9539a.c:263-264 | bit j of (cfg & ~od) or (od & out) is out's bit where od is set and cfg's bit elsewhere |
| AlxPca9539a.OpenDrainMask | Ext/alxPca9539a.c:263-264 | the same per-bit statement, phrased with a one-bit mask |
| AlxPca9539a.NoOpenDrainKeepsConfig | Ext/alxPca9539a.c:261 | with no open-drain pins the configuration is unchanged |
| AlxPca9539a.OpenDrainConfigIdempotent | Ext/alxPca9539a.c:261-277 | applying the open-drain update twice gives the same configuration as once |
| AlxPca9539a.Pca9539a.constructor | Ext/alxPca9539a.c:82-108 | the writable shadows and open-drain masks start at zero, the input ports keep their value; constructed, not initialised |
| AlxPca9539a.Pca9539a.SetValToDefault | Ext/alxPca9539a.c:612-624 | polarity inversion 0, configuration 0xC0 and 0xFF, open-drain masks 0x40 and 0x00 |
| AlxPca9539a.Pca9539a.IoPinRead | Ext/alxPca9539a.c:322-363 | pins 0-7 read as bit pin of the port's input register; pin 8, admitted by the assert, reads false |
| AlxPca9539a.Pca9539a.ReadPortRaw | Ext/alxPca9539a.c:372-391 | the raw byte of the selected input port is returned |
| AlxPca9539a.Pca9539a.UpdatePin | Ext/alxPca9539a.c:400-512 | for pins 0-7 only bit pin of the selected port's output register changes, as the operation says; pin 8 changes nothing |
| AlxPca9539a.Pca9539a.IoPinWrite | Ext/alxPca9539a.c:400-440 | bit pin of the selected port's output becomes the value; the other port and bits are kept; pin 8 changes nothing |
| AlxPca9539a.Pca9539a.IoPinSet | Ext/alxPca9539a.c:448-459 | Set is Write with true: the pin's output bit becomes 1, nothing else changes |
| AlxPca9539a.Pca9539a.IoPinReset | Ext/alxPca9539a.c:467-478 | Reset is Write with false: the pin's output bit becomes 0, nothing else changes |
| AlxPca9539a.Pca9539a.IoPinToggle | Ext/alxPca9539a.c:486-512 | the pin's output bit is inverted and nothing else changes |
| AlxPca9539a.Pca9539a.Handle | Ext/alxPca9539a.c:242-287 | the input ports are refreshed from successful reads; each port with open-drain pins gets its configuration updated and written, stopping at the first failure; Ok exactly when every read and write succeeded |
| AlxPca9539a.Pca9539a.ReadInputs | Ext/alxPca9539a.c:255-259 | input port 0 then 1 are read; a failing read stops the sequence and keeps the shadows not yet read |
| AlxPca9539a.Pca9539a.DriveOutputs | Ext/alxPca9539a.c:261-283 | the open-drain updates of both ports and the output-port writes, with Ok exactly when every write succeeded |
| AlxPca9539a.Pca9539a.OpenDrainPort0 | Ext/alxPca9539a.c:261-268 | with open-drain pins on port 0 the configuration follows the outputs on them and is written; without, nothing happens |
| AlxPca9539a.Pca9539a.OpenDrainPort1 | Ext/alxPca9539a.c:270-277 | the same for port 1 |
| AlxPca9539a.Pca9539a.RegStructWrite | Ext/alxPca9539a.c:635-667 | Ok exactly when the polarity and configuration registers of both ports are all written |
| AlxCdce913.PllFromRegisterBytes | Ext/alxCdce913.c:247-292 | the PLL fields packed into the four configuration bytes are recovered from them: N from byte 0 and the top nibble of byte 1, R, Q and P likewise |
| AlxCdce913.SplitField | Ext/alxCdce913.c:249-290 | a value split into a low field of width k and a high part reassembles to the same value |
| AlxCdce913.WithPdiv1 | Ext/alxCdce913.c:184-195 | after the split write, (PDIV1_8_9 << 8) or PDIV1_0_7 equals the value, both fields fit, and no other register field changes |
| AlxCdce913.WithSsc1_2 | Ext/alxCdce913.c:209-214 | the SSC1_2 amount, split across two registers, reassembles to the value; nothing else changes |
| AlxCdce913.WithSsc1_5 | Ext/alxCdce913.c:228-233 | the SSC1_5 amount, split across two registers, reassembles to the value; nothing else changes |
| AlxCdce913.WithN | Ext/alxCdce913.c:247-257 | (N_4_11 << 4) or N_0_3 equals the value and no other PLL field changes |
| AlxCdce913.WithR | Ext/alxCdce913.c:259-269 | (R_5_8 << 5) or R_0_4 equals the value and no other PLL field changes |
| AlxCdce913.WithQ | Ext/alxCdce913.c:271-281 | (Q_3_5 << 3) or Q_0_2 equals the value and no other PLL field changes |
| AlxCdce913.WithP | Ext/alxCdce913.c:283-292 | P becomes the value and no other PLL field changes |
| AlxCdce913.InitialValuesInRange | Ext/alxCdce913.c:359-412 | PDIV1 0, N 3125, R 20, Q 26 and P 2 pass every setter's range check |
| AlxCdce913.InitialPll | Ext/alxCdce913.c:403-412 | the initial PLL configuration reads back as N 3125, R 20, Q 26, P 2 with VCO range 0, every field within its width |
| AlxCdce913.InitialConfig | Ext/alxCdce913.c:340-414 | the initial configuration sets the input clock and crystal load, PDIV1 0, every SSC amount off, and both PLL configurations to N 3125, R 20, Q 26, P 2 |
| AlxCdce913.Y1Divider | Ext/alxCdce913.c:577-595 | only 1024 kHz and 819.2 kHz have a divider: 12 and 15, which divide the 12.288 MHz crystal exactly |
| AlxCdce913.Cdce913.constructor | Ext/alxCdce913.c:426-450 | the register shadow is zeroed and the I2C parameters stored; not initialised, PLL disabled |
| AlxCdce913.Cdce913.SetPdiv1 | Ext/alxCdce913.c:184-195 | a value above 1023 is rejected with Err and no change; otherwise it is stored split across the two fields and Ok returned |
| AlxCdce913.Cdce913.SetSsc1_0 | Ext/alxCdce913.c:197-201 | the SSC1_0 amount becomes the value; nothing else changes |
| AlxCdce913.Cdce913.SetSsc1_1 | Ext/alxCdce913.c:203-207 | the SSC1_1 amount becomes the value; nothing else changes |
| AlxCdce913.Cdce913.SetSsc1_2 | Ext/alxCdce913.c:209-214 | the SSC1_2 amount is stored split across two registers |
| AlxCdce913.Cdce913.SetSsc1_3 | Ext/alxCdce913.c:216-220 | the SSC1_3 amount becomes the value; nothing else changes |
| AlxCdce913.Cdce913.SetSsc1_4 | Ext/alxCdce913.c:222-226 | the SSC1_4 amount becomes the value; nothing else changes |
| AlxCdce913.Cdce913.SetSsc1_5 | Ext/alxCdce913.c:228-233 | the SSC1_5 amount is stored split across two registers |
| AlxCdce913.Cdce913.SetSsc1_6 | Ext/alxCdce913.c:235-239 | the SSC1_6 amount becomes the value; nothing else changes |
| AlxCdce913.Cdce913.SetSsc1_7 | Ext/alxCdce913.c:241-245 | the SSC1_7 amount becomes the value; nothing else changes |
| AlxCdce913.Cdce913.SetPll1_0N | Ext/alxCdce913.c:247-257 | 0 and values above 4095 are rejected without change; otherwise PLL1_0's N becomes the value |
| AlxCdce913.Cdce913.SetPll1_0R | Ext/alxCdce913.c:259-269 | values above 511 are rejected without change; otherwise PLL1_0's R becomes the value |
| AlxCdce913.Cdce913.SetPll1_0Q | Ext/alxCdce913.c:271-281 | values outside 16..63 are rejected without change; otherwise PLL1_0's Q becomes the value |
| AlxCdce913.Cdce913.SetPll1_0P | Ext/alxCdce913.c:283-292 | values above 7 are rejected without change; otherwise PLL1_0's P becomes the value |
| AlxCdce913.Cdce913.SetPll1_1N | Ext/alxCdce913.c:294-304 | as SetPll1_0N, on the PLL1_1 registers only |
| AlxCdce913.Cdce913.SetPll1_1R | Ext/alxCdce913.c:306-316 | as SetPll1_0R, on the PLL1_1 registers only |
| AlxCdce913.Cdce913.SetPll1_1Q | Ext/alxCdce913.c:318-328 | as SetPll1_0Q, on the PLL1_1 registers only |
| AlxCdce913.Cdce913.SetPll1_1P | Ext/alxCdce913.c:330-339 | as SetPll1_0P, on the PLL1_1 registers only |
| AlxCdce913.Cdce913.SetInitialConfig | Ext/alxCdce913.c:340-414 | the setter calls leave the shadow in the initial configuration |
| AlxCdce913.Cdce913.Init | Ext/alxCdce913.c:464-549 | the PLL stays disabled, the shadow holds the initial configuration, and the driver is initialised with Ok exactly when writing all registers succeeds |
| AlxCdce913.Cdce913.DeInit | Ext/alxCdce913.c:557-575 | the PLL is disabled and the driver is no longer initialised |
| AlxCdce913.Cdce913.SetY1OutputFreq | Ext/alxCdce913.c:577-595 | an unsupported frequency returns Err before any write; a supported one stores its divider in PDIV1 and returns Ok exactly when both register writes succeed |
| AlxCdce913.Cdce913.EnableY1 | Ext/alxCdce913.c:612-616 | the PLL enable pin is set |
| AlxCdce913.Cdce913.DisableY1 | Ext/alxCdce913.c:618-622 | the PLL enable pin is cleared |
| AlxId.PackVerFields | alxId.c:114-120 | major, minor, patch and date are recovered from the packed version by shifts and masks, and bits 40-47 are zero |
| AlxId.PackVerInjective | alxId.c:114-120 | two packed versions are equal only when all four fields are |
| AlxId.PackVerOrder | alxId.c:114-120 | a larger major version always gives a larger packed version |
| AlxId.DecStr | alxId.c:122 | the `%lu` rendering of a number is a non-empty string of decimal digits |
| AlxId.DecStrRoundTrip | alxId.c:122 | parsing the decimal rendering gives the number back |
| AlxId.IndexOf | alxId.c:122 | the index found is the first occurrence of the character, or the length when it does not occur |
| AlxId.IndexOfAfterDigits | alxId.c:122 | in digits followed by a non-digit separator, the first separator sits right after the digits |
| AlxId.VerDate | alxId.c:106-113 | the version date is the build-job date when a build job is used and the compile date otherwise |
| AlxId.BinStrDate | alxId.c:122 | the binary name starts with the decimal version date up to the first `_`, which parses back to the date, and ends in `.bin` |
| AlxId.Derive | alxId.c:106-122 | deriving the version fields keeps the build, artefact, name, version numbers and build-job flag |
| AlxId.DeriveIdempotent | alxId.c:153-170 | deriving twice is deriving once; the derived version carries the selected date and the major version |
| AlxId.AcceptBootId | alxId.c:130-175 | the boot ID read from flash gets its fields derived exactly when both its magic number and its version match; otherwise it is kept as read |
| AlxId.AcceptBootIdIdempotent | alxId.c:130-175 | accepting an accepted boot ID changes nothing |
| AlxId.Pow3 | alxId.c:435 | every power of three is at least 1 |
| AlxId.Base3Cons | alxId.c:433-436 | the base-3 value is the first digit plus three times the value of the rest |
| AlxId.Base3Bound | alxId.c:433-436 | n tri-state digits give a value below 3^n |
| AlxId.Base3Injective | alxId.c:433-436 | two digit sequences of the same length with the same value are equal, so the pin states determine the hardware ID |
| AlxId.Base3FitsByte | alxId.c:433-436 | with at most five ID pins the value is below 243, so the `uint8_t` ID holds it without wrap-around |
| AlxId.Pow3Monotone | alxId.c:435 | powers of three grow with the exponent |
| AlxId.TermBound | alxId.c:435 | one pin's contribution is at most 2 * 3^i |
| AlxId.Base3Snoc | alxId.c:433-436 | one loop step adds state[i] * 3^i to the sum over the first i pins |
| AlxId.ModAdd | alxId.c:435 | reducing the running `uint8_t` sum at every step gives the same result as reducing once at the end |
| AlxId.FirstKnown | alxId.c:439-456 | the instance chosen is the first known entry with a matching ID, or none |
| AlxId.WithPackedVers | alxId.c:480-500 | packing the PCB and BOM versions changes only those fields |
| AlxId.WithPackedVersFields | alxId.c:480-500 | the PCB and BOM versions use the same 56/48/32/0 packing as the firmware version, and packing again changes nothing |
| AlxId.ResolveAccepts | alxId.c:438-473 | Init accepts exactly when a known entry has the ID and the ID is supported; the accepted instance is the first matching known entry |
| AlxId.Id.Ctor | alxId.c:63-326 | the firmware version date, packed version and binary name are derived; the boot ID is accepted only when boot is used; the hardware ID starts at 255 with undefined pin states; constructed, not initialised |
| AlxId.Id.CtorNoHwId | alxId.c:342-391 | as Ctor, with the instance given directly and the hardware ID pins unused |
| AlxId.Id.CalcHwId | alxId.c:433-436 | the loop computes the sum of state[i] * 3^i truncated to a byte, which is the exact base-3 value for up to five pins |
| AlxId.Id.FindKnown | alxId.c:439-456 | the search succeeds exactly when some known entry has the ID, and returns the first one |
| AlxId.Id.FirstKnownIs | alxId.c:439-456 | an index whose entry matches, with no match before it, is the first match |
| AlxId.Id.IsSupported | alxId.c:459-473 | the ID is supported exactly when it is in the supported list |
| AlxId.Id.SelectInstance | alxId.c:438-473 | the search loops select the instance and acceptance that Resolve defines |
| AlxId.Id.Init | alxId.c:407-507 | without hardware ID pins Init packs the instance versions and succeeds, leaving the pin states as they were; with them, the pin states are stored over the old ones, the ID computed, and Init succeeds (packing the chosen instance's versions) exactly when Resolve accepts; only the pin states, the instance and isInit change |
| AlxId.Id.StoreStates | alxId.c:425-430 | the pin states read are stored in order and the remaining entries keep their value |
| AlxFs.ParseModeMeaning | alxFs.c:428-455 | exactly the six fopen-style modes r, w, a, r+, w+, a+ are accepted; each grants read, write, create, truncate and append as its letter and its `+` say, and every accepted mode reads or writes |
| AlxFs.ParseModeInjective | alxFs.c:428-455 | two accepted modes that open with the same intent are the same mode string |
| AlxFs.LfsModeOf | alxFs.c:428-455 | a LittleFS open flag set exists exactly for the accepted modes |
| AlxFs.FatfsModeOf | alxFs.c:428-455 | a FatFs open mode exists exactly for the accepted modes |
| AlxFs.ModesAgree | alxFs.c:428-455 | the LittleFS flags and the FatFs mode chosen for a mode both give the same access (read-only, write-only, read-write), creation, truncation and append as the mode's meaning |
| AlxFs.File.constructor | alxFs.c:368-471 | an opened file starts at position 0 over its contents |
| AlxFs.File.Read | alxFs.c:505-540 | a read of `len` bytes returns the next Min(len, remaining) bytes of the file and advances the position by that much; a failing read returns nothing and leaves the position |
| AlxFs.Chunks | alxFs.c:939-984 | a file is cut into at least one chunk |
| AlxFs.ChunksProperties | alxFs.c:939-984 | the chunks concatenate back to the file, every chunk but the last holds exactly chunkLen bytes and the last at most chunkLen |
| AlxFs.FlattenCons | alxFs.c:939-984 | the data delivered by a first chunk followed by the others is that chunk's bytes followed by the others' (used by ChunksProperties) |
| AlxFs.LinesProperties | alxFs.c:1946-1967 | the hex trace lines of a chunk concatenate back to the chunk; there are ceil(len/64) of them, each of 1-64 bytes and all but the last of exactly 64 |
| AlxFs.TraceLines | alxFs.c:1946-1967 | the trace loop emits exactly the 64-byte line split of the chunk |
| AlxFs.LinesStep | alxFs.c:1948-1958 | one turn of the trace loop takes `lineLen` = min(64, remaining) bytes and leaves the line split of the rest |
| AlxFs.Fs.constructor | alxFs.c:100-151 | a constructed file system keeps its configuration and is not mounted |
| AlxFs.Fs.Mount | alxFs.c:157-199 | mount returns the library's verdict and sets the mounted flag only on success |
| AlxFs.Fs.UnMount | alxFs.c:200-235 | unmount returns the library's verdict and clears the mounted flag only on success |
| AlxFs.Fs.Format | alxFs.c:269-301 | format returns the library's verdict |
| AlxFs.Fs.MountFormat | alxFs.c:236-268 | the volume is formatted exactly when the first mount fails; the call succeeds exactly when the first mount, or the format followed by the second mount, succeeds, and the file system is then mounted |
| AlxFs.Fs.Open | alxFs.c:368-471 | opening with an accepted mode passes the FatFs mode to FatFs configurations and the LittleFS flags to the others |
| AlxFs.Fs.ReadStrUntil | alxFs.c:541-596 | reads byte by byte into `str` until the delimiter, `len - 1` bytes or end of file; the bytes stored are the next bytes of the file and are zero-terminated; the result is OK exactly when the last stored byte is the delimiter, no earlier byte is one, and "no delimiter" means the buffer filled or the file ended |
| AlxFs.Fs.Terminate | alxFs.c:590-591 | the terminator write puts 0 right after the characters read, keeping them and every other cell of `str` |
| AlxFs.Fs.StoreChar | alxFs.c:577-578 | storing one read byte extends the copied prefix of the file by that byte and touches no other cell |
| AlxFs.Fs.ReadInChunks | alxFs.c:897-1000 | an open or size failure is reported before any chunk; on success every chunk of the file was handed to the callback in order and `readLen` is the file size; on failure the chunks delivered are a prefix of the split, all accepted by the callback but the last, and the status is the read error or the callback's own |
| AlxFs.Fs.ChunkLoop | alxFs.c:939-984 | the read loop hands the callback a prefix of the chunk split and completes it exactly when every read and callback succeeds |
| AlxFs.Fs.ChunkTurn | alxFs.c:942-958 | one loop turn reads the next chunk of the split and advances the file position by its length |
| AlxFs.Fs.ChunkStep | alxFs.c:939-984 | the chunk split from position p is the next min(chunkLen, remaining) bytes followed by the split from p + chunkLen |
| AlxFlashMap.Wrap32 | mcuboot/flash_map_backend/flash_map_backend.c:155-166 | 32-bit unsigned arithmetic leaves every in-range value unchanged |
| AlxFlashMap.Wrap8 | mcuboot/flash_map_backend/flash_map_backend.c:300 | the conversion of an area ID to `uint8_t` leaves IDs 0-255 unchanged |
| AlxFlashMap.Lookup | mcuboot/flash_map_backend/flash_map_backend.c:373-387 | the area found is one of the flash map's areas and carries the requested ID; no area is found exactly when no area has that ID |
| AlxFlashMap.LookupFirst | mcuboot/flash_map_backend/flash_map_backend.c:373-387 | the area found is the first in the table with the requested ID |
| AlxFlashMap.LookupArea | mcuboot/flash_map_backend/flash_map_backend.c:373-387 | the table scan returns the lookup result |
| AlxFlashMap.Open | mcuboot/flash_map_backend/flash_map_backend.c:122-135 | open returns 0 and the matching area exactly for the bootloader, primary and secondary IDs, otherwise -1 and no area |
| AlxFlashMap.InBoundsAsWrittenAgrees | mcuboot/flash_map_backend/flash_map_backend.c:155-160 | without 32-bit overflow of `off + len` the bounds check as written accepts exactly the accesses inside the area, and it accepts every such access in any case |
| AlxFlashMap.InBoundsAsWrittenWraps | mcuboot/flash_map_backend/flash_map_backend.c:155-160 | with off = 0xFFFFFFFF and len = 1 the sum wraps to 0 and the check as written admits an access outside the area, whose address wraps to one byte before the area |
| AlxFlashMap.InBoundsAddresses | mcuboot/flash_map_backend/flash_map_backend.c:165-167 | every byte of an access that passes the corrected check lies inside the area and its address does not wrap |
| AlxFlashMap.Read | mcuboot/flash_map_backend/flash_map_backend.c:143-180 | a read returns 0 exactly when the device ID matches and the range is in bounds, and then yields the `len` bytes of flash starting at fa_off + off; otherwise -1 and nothing |
| AlxFlashMap.WordOps | mcuboot/flash_map_backend/flash_map_backend.c:427-446 | the k-th program operation writes source bytes 4k..4k+3 at address addr + 4k |
| AlxFlashMap.WordCountCovers | mcuboot/flash_map_backend/flash_map_backend.c:427 | the program loop writes whole 4-byte words covering `len` bytes with less than one word of excess, and exactly `len` when it is word-aligned |
| AlxFlashMap.ProgramWords | mcuboot/flash_map_backend/flash_map_backend.c:398-459 | the program loop succeeds exactly when every word program succeeds; on failure it stops right after the first failing word, having programmed the words before it in order |
| AlxFlashMap.Write | mcuboot/flash_map_backend/flash_map_backend.c:181-218 | a write rejected by the device or bounds check programs nothing and returns -1; otherwise it programs consecutive words from fa_off + off and returns 0 exactly when all of them succeed |
| AlxFlashMap.F4EraseRangeAligned | mcuboot/flash_map_backend/flash_map_backend.c:482-495 | for a sector-aligned range the STM32F4 erase starts at the address's page plus 4 (bank 1) or 8 (bank 2) and erases exactly len / sectorSize sectors |
| AlxFlashMap.FlashErase | mcuboot/flash_map_backend/flash_map_backend.c:460-528 | the erase request is the F4 sector range of the address and length; the result is the HAL's verdict |
| AlxFlashMap.BlankCheck | mcuboot/flash_map_backend/flash_map_backend.c:251-262 | the post-erase check passes exactly when every erased byte reads 0xFF |
| AlxFlashMap.Erase | mcuboot/flash_map_backend/flash_map_backend.c:219-269 | erase is requested exactly when the device ID matches and both offset and length are sector multiples; it returns 0 exactly when it was requested and the HAL succeeded, and then reports whether the range reads blank |
| AlxFlashMap.CeilDivUnique | mcuboot/flash_map_backend/flash_map_backend.c:312-318 | the number of loop turns is the unique c with (c-1)·S < size <= c·S, i.e. ceil(size/S) |
| AlxFlashMap.SectorsCover | mcuboot/flash_map_backend/flash_map_backend.c:312-318 | every offset of the area lies in exactly one enumerated sector, number off / S |
| AlxFlashMap.FillSectors | mcuboot/flash_map_backend/flash_map_backend.c:312-318 | the sector loop writes ceil(size/S) sectors, the i-th at offset i·S with size S, and leaves the rest of the array untouched |
| AlxFlashMap.NextSectorFits | mcuboot/flash_map_backend/flash_map_backend.c:312 | while the offset is inside the area another sector still fits the count |
| AlxFlashMap.GetSectors | mcuboot/flash_map_backend/flash_map_backend.c:292-326 | get_sectors returns 0 and ceil(fa_size/S) contiguous sectors of size S covering the area |
| AlxFlashMap.SlotMapInjective | mcuboot/flash_map_backend/flash_map_backend.c:327-354 | slots 0, 1 and 2 map to the primary, secondary and scratch IDs and every other slot to -1; with distinct IDs the map is injective on the valid slots; the scratch slot names the same area for every image; the single-image lookup is the multi-image lookup of image 0 |
| AlxFlashMap.Align | mcuboot/flash_map_backend/flash_map_backend.c:270-280 | the write alignment is the flash program length, 4 bytes, the step of the program loop |
| AlxFlashMap.ErasedVal | mcuboot/flash_map_backend/flash_map_backend.c:281-290 | erased flash reads 0xFF; `AlxFlashMap.Erase` states its blank check against this value |
| AlxFlashMap.IdToMultiImageSlot | mcuboot/flash_map_backend/flash_map_backend.c:355-361 | the unimplemented reverse lookup returns -1 for every image and area |
| AlxPwm.Wrap32 | Mcu/McuStm32/alxPwm_McuStm32.c:350 | uint32 arithmetic leaves in-range values unchanged |
| AlxPwm.PeriodMax | Mcu/McuStm32/alxPwm_McuStm32.c:376-466 | the maximal period is 0xFFFFFFFF exactly for TIM2 and TIM5 of the families with 32-bit timers and 0xFFFF for every other timer; TIM5 on F1/L0 leaves it unset |
| AlxPwm.GetCh | Mcu/McuStm32/alxPwm_McuStm32.c:490-503 | library channel n maps to the HAL channel code 4·(n-1) (TIM_CHANNEL_1 to TIM_CHANNEL_6) |
| AlxPwm.GetChInjective | Mcu/McuStm32/alxPwm_McuStm32.c:490-503 | distinct supported channels map to distinct HAL channels |
| AlxPwm.AdjacentIncreasingIsStrict | Mcu/McuStm32/alxPwm_McuStm32.c:132-135 | the constructor's check that each channel is below the next makes the whole channel table strictly increasing |
| AlxPwm.AtMostOneMatch | Mcu/McuStm32/alxPwm_McuStm32.c:346-348 | in a table that passed the constructor's check a channel occurs at most once, so the search of SetDuty_permil finds a unique entry |
| AlxPwm.PulseProperties | Mcu/McuStm32/alxPwm_McuStm32.c:350-351 | the compare value is 0 at 0 ‰, period + 1 clamped to periodMax at 1000 ‰, never above periodMax, and monotone in the duty |
| AlxPwm.PulseAsWrittenAgrees | Mcu/McuStm32/alxPwm_McuStm32.c:350-351 | when duty·(period+1) fits 32 bits the compare value as written equals the intended one |
| AlxPwm.SixteenBitPeriodsDoNotWrap | Mcu/McuStm32/alxPwm_McuStm32.c:350 | for 16-bit periods the product never overflows 32 bits |
| AlxPwm.PulseAsWrittenWraps | Mcu/McuStm32/alxPwm_McuStm32.c:350 | on a 32-bit timer with period 0xFFFFFFFF a duty of 1000 ‰ gives compare value 0 as written instead of 0xFFFFFFFF |
| AlxPwm.PulseFits64 | Mcu/McuStm32/alxPwm_McuStm32.c:350 | done in 64 bits, as the `uint64_t pulse` suggests, the product cannot overflow |
| AlxPwm.SeededProperties | Mcu/McuStm32/alxPwm_McuStm32.c:224-229 | after setting the default duties every configured channel holds the compare value of its default duty and every other compare register keeps its value |
| AlxPwm.Pwm.constructor | Mcu/McuStm32/alxPwm_McuStm32.c:80-182 | the constructor as evidently intended keeps the timer, channel table, prescaler and period, copies the default duties into the driver's own buffer, sets the timer's periodMax, and leaves the driver constructed and not initialised with a strictly increasing channel table |
| AlxPwm.Pwm.AsWritten | Mcu/McuStm32/alxPwm_McuStm32.c:165-168 | the constructor as written in the per-mille build: the default-duty loop copies the caller's array onto itself, so the driver's own buffer keeps what it held before; everything else as in the intended constructor |
| AlxPwm.StaleDefaultsSeedOtherDuties | Mcu/McuStm32/alxPwm_McuStm32.c:224-229 | when the own default buffer differs from the configured defaults on a channel whose pulses differ, Init's default-duty loop leaves compare registers different from those the configured defaults give |
| AlxPwm.StaleDefaultsExample | Mcu/McuStm32/alxPwm_McuStm32.c:165-168 | channel 1 configured at 500 per mille with period 999: a zeroed own buffer makes Init program compare 0 where the configured default gives 500 |
| AlxPwm.Pwm.SetDutyPermil | Mcu/McuStm32/alxPwm_McuStm32.c:330-365 | setting a duty succeeds exactly when the channel is in the table, and then writes the clamped compare value to that channel's HAL register only; an unknown channel changes nothing and fails |
| AlxPwm.Pwm.AllSucceed | Mcu/McuStm32/alxPwm_McuStm32.c:217-221 | a loop of HAL calls that returns on the first failure succeeds exactly when every call succeeds |
| AlxPwm.Pwm.SetDefaultDuties | Mcu/McuStm32/alxPwm_McuStm32.c:224-229 | the default-duty loop leaves the compare registers as the seeded map of the default duties |
| AlxPwm.Pwm.Init | Mcu/McuStm32/alxPwm_McuStm32.c:193-247 | the driver becomes initialised exactly when the timer init and every channel configuration succeed, and then holds the duties of its own default buffer (the configured ones after the intended constructor, stale ones after Pwm.AsWritten); Init returns OK exactly when in addition every channel start succeeds |
| AlxPwm.Pwm.DeInit | Mcu/McuStm32/alxPwm_McuStm32.c:253-279 | DeInit returns the HAL verdict and clears the initialised flag only on success |
| AlxA352.RegisterTable | Ext/alxA352.c:322-498 | every register of the table has 1-6 words in window 0 or 1, its last byte address stays below 0x80, and only WIN_CTRL sits at the window address 0x7E |
| AlxA352.WindowsSeparateRegisters | Ext/alxA352.c:322-498 | two registers at the same address lie in different windows |
| AlxA352.RegAtMeta | Ext/alxA352.c:322-498 | a register is identified by its address and window |
| AlxA352.CommandWordsDecode | Ext/alxA352.c:517-572 | the read command of word i carries the read flag clear and address addr + 2i; the low and high write commands carry the write flag, addresses addr and addr + 1, and the value's low and high byte |
| AlxA352.DecodeFields | Ext/alxA352.c:517-570 | a 16-bit SPI command word splits into the write flag (bit 15), the 7-bit address and the data byte |
| AlxA352.Tried | Ext/alxA352.c:510-535 | a sequence of SPI transfers that stops at the first failure attempts at most the planned number |
| AlxA352.TriedFirstFailure | Ext/alxA352.c:510-535 | when all transfers succeed all are attempted; otherwise the attempts end with the first failing transfer, all before it having succeeded |
| AlxA352.TriedStopsAt | Ext/alxA352.c:510-535 | a first failure at transfer i means exactly i + 1 transfers were attempted |
| AlxA352.AttemptStopsAt | Ext/alxA352.c:510-535 | a first failure at frame i means the frames sent are the planned frames up to and including i |
| AlxA352.WindowReselectedAfterReset | Ext/alxA352.c:584-599 | after the cached window is reset to 0xFFFF, the next access to any register other than WIN_CTRL writes that register's window to address 0x7E |
| AlxA352.WindowSelected | Ext/alxA352.c:584-599 | when the cached window differs, selecting a window sends one write of the window number to WIN_CTRL |
| AlxA352.ReadFrames | Ext/alxA352.c:517-535 | reading a register of len words takes len + 1 SPI frames |
| AlxA352.ReadPipeline | Ext/alxA352.c:517-535 | the read is pipelined: the first frame only sends the address of word 0, frame k + 1 sends the address of word k + 1 while receiving word k, and the last frame only receives |
| AlxA352.ReceivedWords | Ext/alxA352.c:525-535 | the words received during a read are one per register word |
| AlxA352.ReceivedWordAt | Ext/alxA352.c:525-535 | word k of the register is the data received in frame k + 1 |
| AlxA352.WriteFrames | Ext/alxA352.c:558-575 | a register write sends one frame for each writable byte (low, high) |
| AlxA352.WordBytes | Ext/alxA352.c:253 | a register's words are laid out in memory low byte first |
| AlxA352.AxisRaw | Ext/alxA352.c:294-296 | an acceleration axis is the int32 whose 32-bit pattern is high·0x10000 + low |
| AlxA352.AxisRawSplit | Ext/alxA352.c:294-296 | the axis value gives back its high and low words |
| AlxA352.Stored | Ext/alxA352.c:525-535 | the register value after a read keeps its length |
| AlxA352.StoredCount | Ext/alxA352.c:525-535 | a read stores at most the register's length in words |
| AlxA352.StoredAllReceived | Ext/alxA352.c:525-535 | a read whose transfers all succeed stores exactly the received words |
| AlxA352.ReadFailsAt | Ext/alxA352.c:519-533 | when frame i of a read is the first to fail, the frames up to i are sent, the read fails, and the words before i - 1 are stored |
| AlxA352.InitialRegs | Ext/alxA352.c:322-498 | the register image starts with each register's metadata and zero values, and WIN_CTRL holds 0xFFFF |
| AlxA352.WithWindow | Ext/alxA352.c:589-596 | recording a window keeps the register image well formed and caches that window |
| AlxA352.WithCachedWindow | Ext/alxA352.c:589-596 | recording the window already cached changes nothing |
| AlxA352.AfterRead | Ext/alxA352.c:500-542 | the register image after a read is well formed |
| AlxA352.WithRead | Ext/alxA352.c:525-535 | storing read data changes only the register read, and not its metadata |
| AlxA352.AfterWrite | Ext/alxA352.c:544-582 | a register write changes no register of the image other than the cached window |
| AlxA352.AfterWindow | Ext/alxA352.c:507-511 | the register image after window selection is well formed |
| AlxA352.AfterWindowStep | Ext/alxA352.c:584-599 | WIN_CTRL itself needs no window; for other registers the window is selected only when it differs from the cached one, and the cache takes the new window exactly when that write succeeds, else keeps the old one |
| AlxA352.ReadWindowFailed | Ext/alxA352.c:510 | a read whose window selection fails sends nothing further, fails and leaves the register image as the failed selection left it |
| AlxA352.AfterWindowKeeps | Ext/alxA352.c:507-511 | window selection does not change the value of the register about to be read |
| AlxA352.WindowSent | Ext/alxA352.c:507-511 | a successful window selection sends all its frames |
| AlxA352.ReadSteps | Ext/alxA352.c:500-542 | the read is window selection followed by the pipelined transfer, and succeeds exactly when the transfer does |
| AlxA352.WriteWindowFailed | Ext/alxA352.c:554 | a write whose window selection fails sends nothing further and fails |
| AlxA352.WriteSteps | Ext/alxA352.c:544-582 | the write is window selection followed by the byte writes, and succeeds exactly when the byte writes do |
| AlxA352.AccLength | Ext/alxA352.c:290-296 | the ACCL register holds six words (X, Y, Z high and low) |
| AlxA352.A352.constructor | Ext/alxA352.c:76-94 | the constructor keeps the SPI retry and timeout settings and starts with the initial register image, no traffic, constructed and not initialised |
| AlxA352.A352.Transfer | Ext/alxA352.c:519-532 | one SPI transfer appends its frame to the traffic and reports the bus's verdict and received word |
| AlxA352.A352.WriteBytes | Ext/alxA352.c:557-575 | the byte writes send the low then the high write frame, stopping at the first failure, and succeed exactly when all are sent |
| AlxA352.A352.SetWindow | Ext/alxA352.c:584-599 | SetWindow writes WIN_CTRL only when the window differs from the cached one; the cache holds the new window exactly when that write succeeded |
| AlxA352.A352.SelectWindow | Ext/alxA352.c:507-555 | the window step of a register access sends the window frames and updates the cache as AfterWindow says |
| AlxA352.A352.RegRead | Ext/alxA352.c:500-542 | Reg_Read sends the read plan up to its first failure, succeeds exactly when every frame succeeds, and leaves the register image AfterRead |
| AlxA352.A352.ReadRegWords | Ext/alxA352.c:513-541 | the chip-select-framed part of the read sends the pipelined frames and stores the received words |
| AlxA352.A352.Pipeline | Ext/alxA352.c:517-535 | the read loop sends the pipelined frames, succeeds exactly when all len + 1 succeed, and stores the words received before the failure |
| AlxA352.A352.RegWrite | Ext/alxA352.c:544-582 | Reg_Write sends the write plan up to its first failure, succeeds exactly when all frames succeed, and leaves the register image AfterWrite |
| AlxA352.A352.GetProdId | Ext/alxA352.c:247-266 | GetProdId reads PROD_ID and returns OK exactly when its bytes spell "A352AD10", whatever the read status was |
| AlxA352.A352.GetAccData | Ext/alxA352.c:290-305 | GetAccData reads ACCL and returns each axis as the int32 of its high and low words; the status is the read's |
| AlxA352.A352.DeInit | Ext/alxA352.c:143-166 | DeInit returns the SPI DeInit verdict; on success it resets the cached window to 0xFFFF and clears the initialised flag, on failure it changes nothing |
| AlxMax17263.WriteData | Ext/alxMax17263.c:277-279 | a register value goes on the bus as two bytes, low byte first |
| AlxMax17263.Assemble | Ext/alxMax17263.c:301-302 | the value read back is assembled from the first byte as low byte and the second as high byte |
| AlxMax17263.WriteReadRoundTrip | Ext/alxMax17263.c:277-302 | assembling the two bytes a write sends gives back the value written |
| AlxMax17263.Readbacks | Ext/alxMax17263.c:285-304 | n consecutive register reads yield the n words the bus returned, in order |
| AlxMax17263.Attempts | Ext/alxMax17263.c:313-348 | write-and-verify makes between one and three write/read-back attempts |
| AlxMax17263.AttemptsStopAtFirstMatch | Ext/alxMax17263.c:313-348 | every attempt before the last read back a different value, and the last one matched exactly when some of the three attempts would |
| AlxMax17263.AttemptsAfterMisses | Ext/alxMax17263.c:313-348 | missed attempts are simply skipped: after m misses the count is that of the retries left |
| AlxMax17263.VerifyXfers | Ext/alxMax17263.c:313-348 | each attempt is one write and one read-back transfer |
| AlxMax17263.VerifyXfersWrite | Ext/alxMax17263.c:317-332 | every transfer of write-and-verify addresses the same register and every write carries the value's two bytes |
| AlxMax17263.WithoutPor | Ext/alxMax17263.c:371 | clearing POR clears bit 1 of Status and keeps every other bit |
| AlxMax17263.WithoutAtRateDp | Ext/alxMax17263.c:930 | the serial-number read clears the AtRateEn and DPEn bits (12-13) of Config2 and keeps the others |
| AlxMax17263.WithAtRateDp | Ext/alxMax17263.c:953 | after the serial-number read the AtRateEn and DPEn bits are set and the others kept |
| AlxMax17263.AtRateDpRestored | Ext/alxMax17263.c:930-953 | clearing then setting the two Config2 bits is the same as setting them on the original value |
| AlxMax17263.SerialReads | Ext/alxMax17263.c:934-941 | the serial number is read from the eight registers MaxPeakPower, SusPeakPower, MPPCurrent, SPPCurrent, AtQResidual, AtTTE, AtAvSOC and AtAvCap, in that order |
| AlxMax17263.SerialReadsBracketed | Ext/alxMax17263.c:926-957 | the reads are preceded and followed only by Config2 accesses; the first writes Config2 with bits 12-13 cleared and the last with them set, every other bit as read |
| AlxMax17263.HexDigit | Ext/alxMax17263.c:187 | a nibble prints as a lower-case hexadecimal digit |
| AlxMax17263.HexValue | Ext/alxMax17263.c:187 | a lower-case hexadecimal digit denotes a nibble |
| AlxMax17263.Hex4 | Ext/alxMax17263.c:187 | `%04x` prints a word as exactly four lower-case hexadecimal digits |
| AlxMax17263.HexOf | Ext/alxMax17263.c:187 | `%04x` of a number below 0x10000 is four lower-case hexadecimal digits |
| AlxMax17263.Hex4RoundTrip | Ext/alxMax17263.c:187 | the four digits printed for a word parse back to that word |
| AlxMax17263.HexOfRoundTrip | Ext/alxMax17263.c:187 | the four digits printed for a number parse back to it |
| AlxMax17263.HexValueOfDigit | Ext/alxMax17263.c:187 | a printed digit denotes the nibble it was printed for |
| AlxMax17263.SerialString | Ext/alxMax17263.c:187 | the serial string has four characters per word |
| AlxMax17263.SerialStringWord | Ext/alxMax17263.c:187 | word k of n is printed at characters 4(n-1-k) to 4(n-k), i.e. the last word comes first |
| AlxMax17263.SerialStringDecodes | Ext/alxMax17263.c:187 | the serial string is 32 characters, sn[7] first and sn[0] last, each word as `%04x` |
| AlxMax17263.WriteRun | Ext/alxMax17263.c:982-989 | the block write sends one write per word |
| AlxMax17263.ReadRun | Ext/alxMax17263.c:993-1000 | the block read sends one read per word |
| AlxMax17263.MatchesAll | Ext/alxMax17263.c:1004-1014 | the number of matching words is at most the block length, and equals it exactly when the blocks are equal |
| AlxMax17263.ModelDataErrors | Ext/alxMax17263.c:974-1019 | the model-data error count lies in 0..32 and is 0 exactly when both read-back blocks equal the data written |
| AlxMax17263.LockedDataErrors | Ext/alxMax17263.c:1032-1065 | the locked-check error count lies in 0..32 and is 0 exactly when both blocks read back as zeros |
| AlxMax17263.SerialWordsOf | Ext/alxMax17263.c:944-951 | sn[i] is the register image's i-th serial register |
| AlxMax17263.SerialWords | Ext/alxMax17263.c:934-951 | after the eight serial reads, the serial words are exactly the eight words the bus returned, and the traffic is the eight reads |
| AlxMax17263.Max17263.constructor | Ext/alxMax17263.c:59-76 | the driver starts with no traffic and an all-zero register image (the zero of the global image at program start, see Left out) |
| AlxMax17263.Max17263.WriteReg | Ext/alxMax17263.c:273-282 | write_reg sends one write of the value's two bytes to the register and returns the bus status |
| AlxMax17263.Max17263.ReadReg | Ext/alxMax17263.c:285-304 | read_reg sends one read of the register and returns the bus status and the word read back |
| AlxMax17263.Max17263.ReadInto | Ext/alxMax17263.c:285-304 | reading into the register image stores the word read back at that register and nowhere else |
| AlxMax17263.Max17263.WriteAndVerifyReg | Ext/alxMax17263.c:307-349 | write_and_verify writes and reads back up to three times, stopping at the first match, and returns OK exactly when the last read-back matched |
| AlxMax17263.Max17263.CheckPor | Ext/alxMax17263.c:352-364 | check_por reads Status into the image and returns 1 exactly when its POR bit (bit 1) is set, else 0 |
| AlxMax17263.Max17263.ClearPor | Ext/alxMax17263.c:367-374 | clear_por reads Status, clears its POR bit in the image and writes-and-verifies that value, returning the verification's verdict |
| AlxMax17263.Max17263.ReadSerialReg | Ext/alxMax17263.c:934-941 | each serial read stores the bus's word in its register and returns the bus status |
| AlxMax17263.Max17263.ReadSerialRegs | Ext/alxMax17263.c:934-951 | the eight serial reads, when all succeed, log exactly those reads and give the words returned, which are also in the image; only serial registers change |
| AlxMax17263.Max17263.DisableAtRateDp | Ext/alxMax17263.c:927-931 | the first step reads Config2 and writes-and-verifies it with bits 12-13 cleared; only Config2 changes in the image |
| AlxMax17263.Max17263.EnableAtRateDp | Ext/alxMax17263.c:953-955 | the last step sets bits 12-13 of the cached Config2 and writes-and-verifies that value |
| AlxMax17263.Max17263.GetSerialNumber | Ext/alxMax17263.c:924-960 | a successful get_serial_number sends the Config2 prologue, the eight serial reads and the Config2 epilogue, returns the eight words read, leaves Config2 with bits 12-13 set, and changes only Config2 and the serial registers |
| AlxMax17263.Max17263.UnlockModelData | Ext/alxMax17263.c:963-971 | unlocking writes 0x0059 to register 0x62 and 0x00C4 to 0x63 |
| AlxMax17263.Max17263.LockModelData | Ext/alxMax17263.c:1022-1029 | locking writes 0 to registers 0x62 and 0x63 |
| AlxMax17263.Max17263.WriteBlock | Ext/alxMax17263.c:982-989 | a block write writes the 16 words to consecutive registers |
| AlxMax17263.Max17263.ReadBlock | Ext/alxMax17263.c:993-1000 | a block read reads 16 consecutive registers and returns the words read back |
| AlxMax17263.Max17263.WriteModelData | Ext/alxMax17263.c:974-1019 | write_model_data writes both blocks, reads both back and returns 32 minus the number of read-back words equal to the data |
| AlxMax17263.Max17263.VerifyModelDataLocked | Ext/alxMax17263.c:1032-1065 | verify_model_data_locked reads both blocks and returns 32 minus the number of zero words |
| AlxMax17263.CountDown | Ext/alxMax17263.c:1004-1014 | the counting loop yields 32 minus the matches of both blocks |
| AlxAdxl355.Addr | Ext/alxAdxl355.c:357-373 | every modelled register address lies below 0x30 |
| AlxAdxl355.Len | Ext/alxAdxl355.c:374-390 | every register is 1 to 9 bytes long |
| AlxAdxl355.AddrInjective | Ext/alxAdxl355.c:357-373 | no two registers share an address |
| AlxAdxl355.WriteCmd | Ext/alxAdxl355.c:438 | the write command byte is the 7-bit address shifted left with bit 0 clear |
| AlxAdxl355.ReadCmd | Ext/alxAdxl355.c:465 | the read command byte is the 7-bit address shifted left with bit 0 set |
| AlxAdxl355.CmdCarriesAddr | Ext/alxAdxl355.c:438-465 | both command bytes carry the register's address and differ only in the read bit |
| AlxAdxl355.UpdateKeepsSizes | Ext/alxAdxl355.c:452-478 | storing a value of the register's length keeps every register at its length |
| AlxAdxl355.ZeroRegs | Ext/alxAdxl355.c:391-407 | zero-initialisation gives every register its length with all bytes 0 |
| AlxAdxl355.Received | Ext/alxAdxl355.c:469 | a register read receives exactly its length in bytes |
| AlxAdxl355.AxisWord | Ext/alxAdxl355.c:538-549 | the little-endian word assembled from an axis's three data bytes and a zero top byte has its sign bit clear |
| AlxAdxl355.SampleValues | Ext/alxAdxl355.c:538-568 | each axis of a sample is the signed 20-bit value of its three data bytes (DATA3, DATA2, DATA1) |
| AlxAdxl355.Raw20 | Ext/alxAdxl355.c:551-554 | the right-justified raw axis value is a 20-bit unsigned number |
| AlxAdxl355.Signed20 | Ext/alxAdxl355.c:557-568 | the two's-complement reading of a 20-bit value lies in -2^19..2^19-1 and is the value or the value minus 2^20 |
| AlxAdxl355.Axis20Value | Ext/alxAdxl355.c:538-568 | shifting right by 4 then padding with ones when bit 19 is set yields, read as int32, the signed 20-bit value |
| AlxAdxl355.ArithmeticShift | Ext/alxAdxl355.c:552-554 | with the top byte zero, the shift of the signed 32-bit field is a plain logical shift |
| AlxAdxl355.RawValue | Ext/alxAdxl355.c:551-554 | the shifted word is DATA3·4096 + DATA2·16 + DATA1/16 |
| AlxAdxl355.SignExtendValue | Ext/alxAdxl355.c:557-568 | the sign padding turns a 20-bit value into its two's-complement int32 value |
| AlxAdxl355.PositiveRange | Ext/alxAdxl355.c:557-568 | a 20-bit value with bit 19 clear is left as it is and is non-negative |
| AlxAdxl355.NegativeExtension | Ext/alxAdxl355.c:557-568 | a 20-bit value with bit 19 set, or-ed with 0xFFF00000, is the value minus 2^20 |
| AlxAdxl355.RangeCode | Ext/alxAdxl355.c:571 | the range field is the two low bits of the Range register |
| AlxAdxl355.RangeFactor | Ext/alxAdxl355.c:571-592 | range codes 1, 2 and 3 have a scale factor; code 0 falls to the default branch and has none |
| AlxAdxl355.RangeFactorsDouble | Ext/alxAdxl355.c:573-587 | each wider range doubles the scale factor (3.9, 7.8, 15.6 µg per LSB) |
| AlxAdxl355.TempWord | Ext/alxAdxl355.c:612-613 | the temperature word has TEMP2 (address 0x06, the first byte read) as its high byte and TEMP1 (0x07) as its low byte, as the little-endian `raw[1] = TEMP2` makes it |
| AlxAdxl355.TempScale | Ext/alxAdxl355.c:613 | 1885 LSB reads as 25 °C and the temperature falls as the raw value rises (-9.05 LSB/°C) |
| AlxAdxl355.WithStandby | Ext/alxAdxl355.c:212-237 | the Standby bit (bit 0) of POWER_CTL is set as asked and the other bits are kept |
| AlxAdxl355.Adxl355.constructor | Ext/alxAdxl355.c:76-111 | the driver starts with zeroed registers, no traffic, an empty FIFO and zero readings, constructed and not initialised |
| AlxAdxl355.Adxl355.Transfer | Ext/alxAdxl355.c:439-469 | one SPI transfer appends its frame and returns the bus status |
| AlxAdxl355.Adxl355.RegWrite | Ext/alxAdxl355.c:425-451 | a register write sends the write command then the value, stopping at the first failure, and returns the first failing status or OK |
| AlxAdxl355.Adxl355.RegRead | Ext/alxAdxl355.c:452-478 | a register read sends the read command then receives the register's bytes, which are stored only when the command was sent |
| AlxAdxl355.Adxl355.DecodeXyz | Ext/alxAdxl355.c:536-600 | decoding stores the signed 20-bit sample; for a valid range code it sets the range factor and the sample in g, for code 0 it leaves both as they were |
| AlxAdxl355.Adxl355.ReadXyz | Ext/alxAdxl355.c:529-602 | ReadXyz_g reads DATA; a failed read changes no reading, a successful one decodes the sample as DecodeXyz says, and returns OK even for range code 0 |
| AlxAdxl355.Adxl355.ReadTemp | Ext/alxAdxl355.c:603-622 | ReadTemp_degC reads TEMP; on success the raw word and the temperature in °C are updated, on failure neither |
| AlxAdxl355.Adxl355.Enable | Ext/alxAdxl355.c:202-219 | Enable flushes the FIFO, clears the Standby bit of POWER_CTL and writes that register |
| AlxAdxl355.Adxl355.Disable | Ext/alxAdxl355.c:227-244 | Disable flushes the FIFO, sets the Standby bit of POWER_CTL and writes that register |
| AlxAds8678.RangeRegisterAddresses | Ext/alxAds8678.c:275-288 | the input-range register of channel n is at address 0x05 + n |
| AlxAds8678.Defaults | Ext/alxAds8678.c:317-330 | the default register image enables auto-scan on all eight channels (0xFF) and clears every other register |
| AlxAds8678.Sdo | Ext/alxAds8678.c:218 | the SDO format field of Feature Select is three bits |
| AlxAds8678.Dev | Ext/alxAds8678.c:242 | the device-address field of Feature Select is two bits |
| AlxAds8678.RangeCode | Ext/alxAds8678.c:511-524 | a channel's range code is the low nibble of its range register |
| AlxAds8678.DefaultScansAll | Ext/alxAds8678.c:317-330 | with the default image every channel is enabled |
| AlxAds8678.EnabledBelow | Ext/alxAds8678.c:228-264 | the scan issues at most one NO_OP per channel |
| AlxAds8678.ReadFrame | Ext/alxAds8678.c:345-357 | a register read is three bytes whose first is the address shifted left with bit 0 clear |
| AlxAds8678.WriteFrame | Ext/alxAds8678.c:376-388 | a register write is three bytes: the address shifted left with bit 0 set, then the value |
| AlxAds8678.FramesDistinct | Ext/alxAds8678.c:345-376 | a read frame never equals a write frame, and write frames for different 7-bit addresses differ in their first byte |
| AlxAds8678.EchoStatus | Ext/alxAds8678.c:383-388 | a register write succeeds exactly when the transfer succeeds and the third received byte echoes the value; a transfer error is passed on |
| AlxAds8678.Received | Ext/alxAds8678.c:350-383 | a transfer receives as many bytes as it sends |
| AlxAds8678.DecodeFrame | Ext/alxAds8678.c:461-473 | a NO_OP reply decodes to a 14-bit sample, a 4-bit channel, a 2-bit device address and a 3-bit range |
| AlxAds8678.EncodeFrame | Ext/alxAds8678.c:461-473 | every channel data frame has a six-byte reply that carries it |
| AlxAds8678.FrameRoundTrip | Ext/alxAds8678.c:461-473 | decoding the reply that carries a frame gives back that frame |
| AlxAds8678.DataRoundTrip | Ext/alxAds8678.c:461-462 | a left-justified 14-bit sample shifted right by 2 gives back the sample |
| AlxAds8678.AddressByteRoundTrip | Ext/alxAds8678.c:465-473 | the channel, device-address and range fields of byte 4 and bit 7 of byte 5 decode to the values they carry |
| AlxAds8678.ScalesFitCodes | Ext/alxAds8678.c:525-576 | bipolar ranges have a positive step and an offset of -8192 steps, unipolar ranges a positive step and no offset, each unipolar range has the step of its bipolar partner, and other codes give zero |
| AlxAds8678.WriteFrames | Ext/alxAds8678.c:393-434 | writing the first k registers takes k frames |
| AlxAds8678.WriteFramesAt | Ext/alxAds8678.c:393-434 | the i-th frame of the write-all writes register i with its value |
| AlxAds8678.WroteNext | Ext/alxAds8678.c:393-434 | a successful register write extends the successful prefix of the write-all by one |
| AlxAds8678.WriteAllStops | Ext/alxAds8678.c:393-434 | the first failing register write ends the write-all with that write's status, after sending exactly the frames up to it |
| AlxAds8678.WriteAllDone | Ext/alxAds8678.c:393-434 | when every write succeeds the write-all returns OK having sent every frame |
| AlxAds8678.NoOps | Ext/alxAds8678.c:234-236 | n NO_OP commands are n frames |
| AlxAds8678.ScanStep | Ext/alxAds8678.c:228-264 | one channel of the scan sends one NO_OP exactly when the channel is enabled and records the channel's voltage and enabled flag |
| AlxAds8678.Ads8678.constructor | Ext/alxAds8678.c:78-102 | the driver starts with no traffic, zeroed registers, constructed and not initialised |
| AlxAds8678.Ads8678.WriteRead | Ext/alxAds8678.c:350-383 | one SPI transfer appends its frame and returns the bus status and received bytes |
| AlxAds8678.Ads8678.RegRead | Ext/alxAds8678.c:331-361 | Reg_Read sends the read frame and, when it succeeds, stores the third received byte in the register |
| AlxAds8678.Ads8678.RegWrite | Ext/alxAds8678.c:362-392 | Reg_Write sends the write frame and succeeds exactly when the transfer does and the value is echoed |
| AlxAds8678.Ads8678.RegWriteAll | Ext/alxAds8678.c:393-434 | Reg_WriteAll writes the registers in order, stops at the first failure, and returns OK exactly when all succeed |
| AlxAds8678.Ads8678.AutoRst | Ext/alxAds8678.c:478-503 | AUTO_RST sends the frame A0 00 00 00 and returns the bus status |
| AlxAds8678.Ads8678.NoOp | Ext/alxAds8678.c:435-477 | NO_OP sends six zero bytes and, on success, returns the decoded channel data frame |
| AlxAds8678.Ads8678.ScanChannel | Ext/alxAds8678.c:231-263 | a disabled channel reads 0 V and not enabled; an enabled channel passes exactly when its NO_OP succeeds and the reply names this channel, the configured device and the channel's range |
| AlxAds8678.Ads8678.GetChVoltageAll | Ext/alxAds8678.c:212-269 | GetChVoltageAll_V returns OK exactly when AUTO_RST succeeds and every enabled channel passes its checks; then every channel's voltage is sample·step + offset of its range (0 V if disabled) and the traffic is AUTO_RST followed by one NO_OP per enabled channel |
| AlxAds114s08.Defaults | Ext/alxAds114s08.c:573-593 | the default register image covers all 18 registers |
| AlxAds114s08.Encode | Ext/alxAds114s08.c:613-672 | every command (RREG, WREG, RDATA) goes on the bus as three bytes |
| AlxAds114s08.AddressBits | Ext/alxAds114s08.c:613-670 | or-ing a 5-bit register address into the RREG (0x20) or WREG (0x40) opcode keeps the opcode in the top three bits and the address in the low five |
| AlxAds114s08.EncodeRoundTrip | Ext/alxAds114s08.c:613-672 | every valid command is recovered from the bytes it is sent as |
| AlxAds114s08.RregGuardAdmitsOverrun | Ext/alxAds114s08.c:600-623 | as written the guard admits len = 2, whose transfer of len + 2 = 4 bytes overruns the 3-byte buffers |
| AlxAds114s08.RregGuardFits | Ext/alxAds114s08.c:600-623 | the corrected guard (len = 1) is admitted by the original one and its transfer fits the 3-byte buffers |
| AlxAds114s08.Received | Ext/alxAds114s08.c:619 | a transfer receives as many bytes as it sends |
| AlxAds114s08.WriteAndReadStatus | Ext/alxAds114s08.c:684-718 | write-and-read succeeds exactly when the WREG and the RREG succeed and the byte read back equals the value written |
| AlxAds114s08.WriteAllLogOk | Ext/alxAds114s08.c:720-744 | while the transfers succeed, the write-all sends for each register 0x01-0x11 in order a WREG of its value followed by an RREG of one byte |
| AlxAds114s08.ChannelMuxPairs | Ext/alxAds114s08.c:272-305 | channel n measures between AIN(2n) and AIN(2n+1), and different channels use different inputs |
| AlxAds114s08.ChannelRegs | Ext/alxAds114s08.c:271-315 | the channel configuration is a full register image |
| AlxAds114s08.ChannelRegsFields | Ext/alxAds114s08.c:271-315 | the channel configuration is the default image with the MUXP/MUXN, PGA gain 128 and enable, global chop, 10 SPS, single-shot, internal 2.5 V always-on reference and burn-out current fields set, and every other register left at its default |
| AlxAds114s08.MuxFields | Ext/alxAds114s08.c:274-305 | the INPMUX byte holds MUXP in the high nibble and MUXN in the low nibble |
| AlxAds114s08.ChannelRegsSelect | Ext/alxAds114s08.c:274-313 | the channel configuration selects the channel's input pair, a PGA multiplier of 128 and the internal 2.5 V reference |
| AlxAds114s08.Int16Of | Ext/alxAds114s08.c:443 | the raw sample is the int16 of its high and low byte: negative exactly when the high byte's top bit is set, with the low byte as its low eight bits |
| AlxAds114s08.Sample | Ext/alxAds114s08.c:443 | the converted sample is a 16-bit signed value |
| AlxAds114s08.OutOfRangeLimits | Ext/alxAds114s08.c:460-461 | the limits truncate to 31128 and -31129 |
| AlxAds114s08.PgaMultiplier | Ext/alxAds114s08.c:474-494 | the PGA multiplier lies between 1 and 128 |
| AlxAds114s08.PgaMultiplierIsPowerOfGain | Ext/alxAds114s08.c:474-494 | with the PGA enabled the multiplier is 2 to the power of the GAIN field, otherwise 1 |
| AlxAds114s08.FullScale | Ext/alxAds114s08.c:495-500 | the full positive code reads 2500 mV divided by the PGA multiplier and code 0 reads 0 mV |
| AlxAds114s08.Ads114s08.constructor | Ext/alxAds114s08.c:77-124 | the driver starts with no traffic, CS and START released, zeroed registers, constructed and not initialised |
| AlxAds114s08.Ads114s08.WriteRead | Ext/alxAds114s08.c:619-674 | one SPI transfer appends its command and returns the bus status and received bytes |
| AlxAds114s08.Ads114s08.CmdRreg | Ext/alxAds114s08.c:595-628 | RREG of one register sends the read command, releases CS, and on success returns the third received byte |
| AlxAds114s08.Ads114s08.RegWrite | Ext/alxAds114s08.c:652-683 | Reg_Write sends a WREG of the register's value, releases CS and returns the bus status |
| AlxAds114s08.Ads114s08.RegWriteAndRead | Ext/alxAds114s08.c:684-718 | Reg_WriteAndRead sends the WREG and, when it succeeds, an RREG; it succeeds exactly when both do and the value is read back |
| AlxAds114s08.Ads114s08.RegWriteAll | Ext/alxAds114s08.c:720-744 | Reg_WriteAll write-and-reads registers 0x01-0x11 in order, stops at the first failure, and on success has sent two commands per register |
| AlxAds114s08.Ads114s08.PerformAdcConversion | Ext/alxAds114s08.c:385-449 | a conversion that times out sends nothing, fails and releases CS and START; otherwise it sends RDATA and returns the bus status, with the int16 sample and CS and START released on success and both left asserted on a bus error |
| AlxAds114s08.Ads114s08.ConvertRawToMilliVolts | Ext/alxAds114s08.c:451-504 | the conversion flags a sample at or beyond 31128 / -31129 as out of range and scales it by 2500 mV / 32767 / PGA multiplier |
| AlxAds114s08.Ads114s08.GetChVoltage | Ext/alxAds114s08.c:259-333 | GetChVoltage_mV loads the channel configuration and returns Ok exactly when the write of all registers succeeds, the conversion is ready and the RDATA transfer succeeds; a failed register write or a conversion timeout gives Err, a failed RDATA gives its bus status; the traffic is the register writes up to the first failure, then RDATA if it was reached; on Ok the outputs are the sample's voltage at gain 128 and its out-of-range flag, otherwise they are untouched |
| AlxAds114s08.Ads114s08.ConfigureChannel | Ext/alxAds114s08.c:270-314 | the register configuration is the channel's register image, with gain 128 and the internal 2.5 V reference |
| AlxAds114s08.Ads114s08.SampleMilliVolts | Ext/alxAds114s08.c:320-332 | the conversion returns the RDATA status when the result is ready and Err on a timeout, sending RDATA only when ready; on Ok the outputs are the received sample's out-of-range flag and its voltage at the configured gain, otherwise the caller's values |
| AlxAds114s08.StepIs | Ext/alxAds114s08.c:723-741 | step j of the write-all is the write-and-read of register j + 1 |
| AlxAds114s08.WroteNext | Ext/alxAds114s08.c:723-741 | a successful write-and-read extends the successful prefix of the write-all by one register |
| AlxAds114s08.WriteAllStops | Ext/alxAds114s08.c:723-741 | the first failing write-and-read ends the write-all with an error |
| AlxAds114s08.LogGrows | Ext/alxAds114s08.c:723-741 | the traffic after j + 1 steps is the traffic after j steps plus that step's commands |
| AlxAds114s08.WriteAllDone | Ext/alxAds114s08.c:720-744 | when every write-and-read succeeds the write-all returns OK having sent two commands per register |
| AlxPca943x.Apply | Ext/alxPca9431.c:570-585 | a register access keeps the shadow register image at its size |
| AlxPca943x.AfterOps | Ext/alxPca9431.c:570-585 | any run of register accesses keeps the shadow image at its size |
| AlxPca943x.WritesKeepShadow | Ext/alxPca9431.c:570-577 | register writes never change the shadow image |
| AlxPca943x.WritesOf | Ext/alxPca9431.c:596-644 | writing a list of registers issues, in order, one write of each register's shadow value |
| AlxPca943x.Succeeded | Ext/alxPca9431.c:596-644 | a run of I2C accesses that stops at the first failure completes at most the planned number |
| AlxPca943x.RanNext | Ext/alxPca9431.c:596-644 | a successful access extends the successful prefix of the run by one, updating the shadow for a read |
| AlxPca943x.RunStops | Ext/alxPca9431.c:596-644 | the first failing access ends the run with its status |
| AlxPca943x.RunDone | Ext/alxPca9431.c:596-644 | a run whose every access succeeds returns OK |
| AlxPca943x.RunOkIffAll | Ext/alxPca9431.c:596-644 | a run returns OK exactly when every planned access succeeds, and then has sent them all and applied all reads to the shadow; otherwise the last access sent is the one that failed and its status is returned |
| AlxPca943x.AdcHighAddr | Ext/alxPca9431.c:142-234 | each ADC's high byte sits at an even register in 0x30..0x38, followed by its low byte |
| AlxPca943x.AdcReads | Ext/alxPca9431.c:142-150 | an ADC read is the read of its high then its low register |
| AlxPca943x.AdcCodeFields | Ext/alxPca9431.c:144-155 | the 10-bit ADC code has the high register as its top eight bits and the low register's top two bits as its bottom two |
| AlxPca943x.AdcCodeInUint16 | Ext/alxPca9431.c:144-155 | the uint16 computation (high << 2) + (low >> 6) is that 10-bit code |
| AlxPca943x.AdcReadsStore | Ext/alxPca9431.c:142-150 | a successful ADC read sends the two reads and stores both bytes in the shadow |
| AlxPca943x.TempTenths | Ext/alxPca9431.c:267-316 | the die-temperature table has an entry exactly for codes 0..47 |
| AlxPca943x.TempStatusAsWritten | Ext/alxPca9431.c:253-319 | as written the function returns Err for codes above 47 and returns no value at all for a code in the table |
| AlxPca943x.TempStatusUndefinedForValidCode | Ext/alxPca9431.c:267-319 | code 10 reads as 0 °C yet the function as written falls off its end without a status |
| AlxPca943x.TempStatus | Ext/alxPca9431.c:253-319 | the intended status is OK exactly for a code in the table and Err exactly where the code as written returns Err |
| AlxPca943x.TempTableSteps | Ext/alxPca9431.c:267-316 | each table entry is hotter than the one before |
| AlxPca943x.TempIncreasing | Ext/alxPca9431.c:267-316 | the table is strictly increasing from -43 °C at code 0 to 156 °C at code 47 |
| AlxPca9431.WriteAddrsWritable | Ext/alxPca9431.c:596-644 | Reg_WriteVal writes 15 distinct registers in ascending address order, none of them the device ID, an interrupt flag register or an ADC result |
| AlxPca9431.Defaults | Ext/alxPca9431.c:535-569 | the default image covers every register address |
| AlxPca9431.DefaultsClearFlagsAndResults | Ext/alxPca9431.c:535-569 | the defaults give device ID 0x18 and clear every interrupt flag and ADC result register |
| AlxPca9431.EcoExitFromDefault | Ext/alxPca9431.c:357-372 | setting ECO_EXIT on the default WD_EN_RST value gives 0x12 |
| AlxPca9431.Pca9431.constructor | Ext/alxPca9431.c:42-75 | a fresh driver has a zeroed shadow image, has sent nothing and is not initialised |
| AlxPca9431.Pca9431.Transfer | Ext/alxPca9431.c:570-585 | one I2C access is logged, its bus status returned, and a successful read stores the byte read |
| AlxPca9431.Pca9431.RegRead | Ext/alxPca9431.c:578-585 | a register read updates that shadow register only when the bus reports success |
| AlxPca9431.Pca9431.RegWrite | Ext/alxPca9431.c:570-577 | a register write sends the shadow value and leaves the shadow unchanged |
| AlxPca9431.Pca9431.RunOps | Ext/alxPca9431.c:596-644 | a sequence of accesses runs in order and stops at the first failure, returning its status |
| AlxPca9431.Pca9431.WriteVal | Ext/alxPca9431.c:596-644 | the configuration registers are written in source order, stopping at the first failed write |
| AlxPca9431.Pca9431.Init | Ext/alxPca9431.c:81-115 | a failed I2C init returns its status and changes nothing; otherwise the shadow becomes the application's adjustment of the defaults, they are written out, and the driver is initialised exactly when every write succeeded |
| AlxPca9431.Pca9431.DeInit | Ext/alxPca9431.c:116-130 | de-initialising always succeeds and clears isInit |
| AlxPca9431.Pca9431.ReadAdc | Ext/alxPca9431.c:131-160 | an ADC read reads the high then the low register and on success yields the 10-bit code of those two bytes |
| AlxPca9431.Pca9431.LdoVoutGetVoltage | Ext/alxPca9431.c:131-160 | the LDO output voltage is the VOUT code times 5.27 mV, between 0 and 5.39 V; on failure the output is left as it was |
| AlxPca9431.Pca9431.LdoVoutGetCurrent | Ext/alxPca9431.c:161-190 | the LDO output current is the IOUT code times 421.8 µA; on failure the output is left as it was |
| AlxPca9431.Pca9431.RectGetVoltage | Ext/alxPca9431.c:191-222 | the rectifier voltage is the VRECT code times 15.82 mV; on failure the output is left as it was |
| AlxPca9431.Pca9431.RectGetCurrent | Ext/alxPca9431.c:223-252 | the rectifier current is the IRECT code times 421.8 µA; on failure the output is left as it was |
| AlxPca9431.Pca9431.VTuneGetVoltage | Ext/alxPca9431.c:327-356 | the VTUNE voltage is the VTUNE code times 3.32 mV; on failure the output is left as it was |
| AlxPca9431.Pca9431.VTuneSetVoltage | Ext/alxPca9431.c:320-326 | setting VTUNE is not implemented: it always fails and zeroes the output |
| AlxPca9431.Pca9431.TempSensGetTemp | Ext/alxPca9431.c:253-319 | the die temperature reads TDIE_ADC once; a bus error is returned unchanged, a code in the table yields its temperature with OK and any other code yields the 9999.9 °C sentinel with Err |
| AlxPca9431.Pca9431.ExitEcoMode | Ext/alxPca9431.c:357-372 | leaving eco mode sets only the ECO_EXIT bit of WD_EN_RST in the shadow and writes that register |
| AlxPca9431.Pca9431.ReadAndClearInterrupt | Ext/alxPca9431.c:373-424 | the three interrupt flag registers are each read twice, in order, stopping at the first failure |
| AlxPca9431.InterruptReadsKeepSecond | Ext/alxPca9431.c:373-424 | after a successful clear, the shadow holds the second read of each flag register and nothing else changed |
| AlxPca9431.WriteValOkIffAll | Ext/alxPca9431.c:596-644 | writing the configuration returns OK exactly when all 15 writes succeed, and then the bus saw exactly those writes |
| AlxPca9430.WriteAddrsWritable | Ext/alxPca9430.c:568-642 | Reg_WriteVal writes 24 distinct registers in ascending address order, none of them the device ID, an interrupt flag register or an ADC result |
| AlxPca9430.Defaults | Ext/alxPca9430.c:505-548 | the default image covers every register address |
| AlxPca9430.DefaultsClearFlagsAndResults | Ext/alxPca9430.c:505-548 | the defaults give device ID 0x08 and clear every interrupt flag and ADC result register |
| AlxPca9430.Pca9430.constructor | Ext/alxPca9430.c:35-72 | a fresh driver has a zeroed shadow image, has sent nothing and is not initialised |
| AlxPca9430.Pca9430.Transfer | Ext/alxPca9430.c:550-566 | one I2C access is logged, its bus status returned, and a successful read stores the byte read |
| AlxPca9430.Pca9430.RegRead | Ext/alxPca9430.c:559-566 | a register read updates that shadow register only when the bus reports success |
| AlxPca9430.Pca9430.RegWrite | Ext/alxPca9430.c:550-557 | a register write sends the shadow value and leaves the shadow unchanged |
| AlxPca9430.Pca9430.RunOps | Ext/alxPca9430.c:568-642 | a sequence of accesses runs in order and stops at the first failure, returning its status |
| AlxPca9430.Pca9430.WriteVal | Ext/alxPca9430.c:568-642 | the configuration registers are written in source order, stopping at the first failed write |
| AlxPca9430.Pca9430.Init | Ext/alxPca9430.c:74-108 | a failed I2C init returns its status and changes nothing; otherwise the shadow becomes the application's adjustment of the defaults, they are written out, and the driver is initialised exactly when every write succeeded |
| AlxPca9430.Pca9430.DeInit | Ext/alxPca9430.c:109-120 | de-initialising clears isInit and reports success |
| AlxPca9430.Pca9430.ReadAdc | Ext/alxPca9430.c:122-146 | an ADC read reads the high then the low register and on success yields the 10-bit code of those two bytes |
| AlxPca9430.Pca9430.ChargerVoutGetVoltage | Ext/alxPca9430.c:122-146 | the charger output voltage is the VOUT code times 5.27 mV; on failure the output is left as it was |
| AlxPca9430.Pca9430.ChargerVoutGetCurrent | Ext/alxPca9430.c:148-172 | the charger output current is the IOUT code times 421.9 µA; on failure the output is left as it was |
| AlxPca9430.Pca9430.RectGetVoltage | Ext/alxPca9430.c:174-199 | the rectifier voltage is the VRECT code times 15.82 mV; on failure the output is left as it was |
| AlxPca9430.Pca9430.RectGetCurrent | Ext/alxPca9430.c:201-225 | the rectifier current is the IRECT code times 421.9 µA; on failure the output is left as it was |
| AlxPca9430.Pca9430.VTuneGetVoltage | Ext/alxPca9430.c:298-322 | the VTUNE voltage is the VTUNE code times 3.32 mV; on failure the output is left as it was |
| AlxPca9430.Pca9430.VTuneSetVoltage | Ext/alxPca9430.c:290-296 | setting VTUNE is not implemented: it always fails and zeroes the output |
| AlxPca9430.Pca9430.TempSensGetTemp | Ext/alxPca9430.c:227-288 | the die temperature reads TDIE_ADC once; a bus error is returned unchanged, a code in the table yields its temperature with OK and any other code yields the 9999.9 °C sentinel with Err |
| AlxPca9430.Pca9430.ReadAndClearInterrupt | Ext/alxPca9430.c:323-366 | the three interrupt flag registers are each read twice, in order, stopping at the first failure |
| AlxPca9430.InterruptReadsKeepSecond | Ext/alxPca9430.c:323-366 | after a successful clear, the shadow holds the second read of each flag register and nothing else changed |
| AlxPca9430.WriteValOkIffAll | Ext/alxPca9430.c:568-642 | writing the configuration returns OK exactly when all 24 writes succeed, and then the bus saw exactly those writes |
| AlxAdau1961.DiffBoost | Ext/alxAdau1961.c:203-236 | the PGA boost is 0 dB exactly for gains up to the 35.25 dB threshold and +20 dB above it |
| AlxAdau1961.DiffCode | Ext/alxAdau1961.c:745-749 | the differential-input volume code fits the 6-bit LDVOL/RDVOL field |
| AlxAdau1961.DiffCodeRoundTrip | Ext/alxAdau1961.c:745-749 | decoding the chosen boost and volume code gives back the requested gain in 0.75 dB steps; above the threshold the gain less 20.25 dB is a whole number of steps and the code is at least 37 |
| AlxAdau1961.AuxCode | Ext/alxAdau1961.c:750-754 | an aux gain from -12 to 6 dB in 3 dB steps maps to a mixer code 1..7, never the mute code 0 |
| AlxAdau1961.AuxCodeMatchesEnum | Ext/alxAdau1961.h:62-71 | the computed aux code is the enumerator whose name gives the requested gain |
| AlxAdau1961.LineCode | Ext/alxAdau1961.c:755-759 | the line-out volume code fits the 6-bit volume field |
| AlxAdau1961.LineCodeRoundTrip | Ext/alxAdau1961.c:755-759 | the line-out code is gain + 57, from 0 at -57 dB to 63 at 6 dB, and decodes back to the gain |
| AlxAdau1961.WithAuxField | Ext/alxAdau1961.c:311 | storing the aux gain code changes only the 3-bit aux field of the mixer register |
| AlxAdau1961.WithBoostField | Ext/alxAdau1961.c:208-225 | storing the boost changes only the 2-bit boost field of the mixer register |
| AlxAdau1961.WithUnmuted | Ext/alxAdau1961.c:198-232 | setting or clearing the unmute bit changes nothing else in the volume register |
| AlxAdau1961.WithVolField | Ext/alxAdau1961.c:215-233 | storing a volume code changes only the 6-bit volume field |
| AlxAdau1961.AuxMixerByte | Ext/alxAdau1961.c:295-320 | the mute gain clears the aux field; any other valid gain stores the code whose enumerator is that gain; the rest of the mixer register is kept |
| AlxAdau1961.LineVolByte | Ext/alxAdau1961.c:347-374 | the mute gain only clears the unmute bit; any other gain sets it and stores a volume that decodes to the gain; the low bit is kept |
| AlxAdau1961.DiffVolByte | Ext/alxAdau1961.c:187-240 | the mute gain only clears the unmute bit; any other gain sets it and stores the volume code of the gain |
| AlxAdau1961.DiffSettingRoundTrip | Ext/alxAdau1961.c:187-240 | the boost and volume bytes written for a differential gain decode back to that gain |
| AlxAdau1961.SidesDisjoint | Ext/alxAdau1961.c:415-442 | the mixer, differential-volume and line-out registers of the two channels are six distinct addresses |
| AlxAdau1961.DiffSetReadsBack | Ext/alxAdau1961.c:187-294 | after a successful differential gain set the channel is muted with its volume kept, or unmuted with boost and volume decoding to the requested gain, and every other register is unchanged |
| AlxAdau1961.Adau1961.constructor | Ext/alxAdau1961.c:65-116 | a fresh driver has every shadow register zeroed, has sent nothing and is not initialised |
| AlxAdau1961.Adau1961.RegWrite | Ext/alxAdau1961.c:599-606 | a register write sends the shadow value of that register and returns the bus status |
| AlxAdau1961.Adau1961.InDiffSetGain | Ext/alxAdau1961.c:187-294 | muting writes the volume register alone; otherwise the boost is written to the mixer register and then, if that succeeded, the volume register; the first failure is returned |
| AlxAdau1961.Adau1961.InDiffLSetGain | Ext/alxAdau1961.c:187-240 | the left differential input gain is set through R5 and R8 as above |
| AlxAdau1961.Adau1961.InDiffRSetGain | Ext/alxAdau1961.c:241-294 | the right differential input gain is set through R7 and R9 as above |
| AlxAdau1961.Adau1961.InAuxSetGain | Ext/alxAdau1961.c:295-346 | the aux gain updates only the aux field of the channel's mixer register and writes that register once |
| AlxAdau1961.Adau1961.InAuxLSetGain | Ext/alxAdau1961.c:295-320 | the left aux gain updates and writes R5 only |
| AlxAdau1961.Adau1961.InAuxRSetGain | Ext/alxAdau1961.c:321-346 | the right aux gain updates and writes R7 only |
| AlxAdau1961.Adau1961.OutLineSetGain | Ext/alxAdau1961.c:347-402 | the line-out gain updates only the channel's line-out volume register and writes it once |
| AlxAdau1961.Adau1961.OutLineLSetGain | Ext/alxAdau1961.c:347-374 | the left line-out gain updates and writes R31 only |
| AlxAdau1961.Adau1961.OutLineRSetGain | Ext/alxAdau1961.c:375-402 | the right line-out gain updates and writes R32 only |
| AlxIoPinLpc84x.SwmPortPinRoundTrip | Mcu/McuLpc/McuLpc84x/alxIoPin_McuLpc84x.c:222-226 | the switch-matrix pin index is pin for port 0 and pin + 32 for port 1, below 64, and port and pin are recovered from it |
| AlxIoPinLpc84x.IoconIndex | Mcu/McuLpc/McuLpc84x/alxIoPin_McuLpc84x.c:227-284 | the IOCON index of a pin is 0xFF when the pin has no IOCON register, otherwise below the table size and never 12 or 19 |
| AlxIoPinLpc84x.IoconRoundTrip | Mcu/McuLpc/McuLpc84x/alxIoPin_McuLpc84x.c:227-284 | a pin's IOCON index maps back to that pin in an independent index-to-pin table |
| AlxIoPinLpc84x.IoconOnto | Mcu/McuLpc/McuLpc84x/alxIoPin_McuLpc84x.c:227-284 | exactly the indices below the table size other than 12 and 19 belong to a pin, and that pin's lookup gives the index back |
| AlxIoPinLpc84x.IoconInjective | Mcu/McuLpc/McuLpc84x/alxIoPin_McuLpc84x.c:227-284 | two pins with the same valid IOCON index are the same pin |
| AlxIoPinLpc84x.WithModeReadsBack | Mcu/McuLpc/McuLpc84x/alxIoPin_McuLpc84x.c:422-449 | writing a pull mode into bits 3 and 4 of an IOCON word reads back as that mode and leaves every other bit unchanged |
| AlxIoPinLpc84x.WithOwnMode | Mcu/McuLpc/McuLpc84x/alxIoPin_McuLpc84x.c:422-449 | writing a word's own mode back leaves the word unchanged |
| AlxIoPinLpc84x.ModeFieldInjective | Mcu/McuLpc/McuLpc84x/alxIoPin_McuLpc84x.c:422-449 | the four pull modes have four distinct bit encodings |
| AlxIoPinLpc84x.WithOpenDrainReadsBack | Mcu/McuLpc/McuLpc84x/alxIoPin_McuLpc84x.c:74-81 | setting or clearing bit 10 reads back as the open-drain flag and changes no other bit, the mode included |
| AlxIoPinLpc84x.DeInitWord | Mcu/McuLpc/McuLpc84x/alxIoPin_McuLpc84x.c:125-129 | clearing bits 3, 4 and 10 leaves the pin inactive, not open-drain, with every other bit kept |
| AlxIoPinLpc84x.IoPin.Snapshot | Mcu/McuLpc/McuLpc84x/alxIoPin_McuLpc84x.c:159-196 | a snapshot of the GPIO bank matrix holds the level of every port and pin |
| AlxIoPinLpc84x.IoPin.constructor | Mcu/McuLpc/McuLpc84x/alxIoPin_McuLpc84x.h:208-218 | a constructed pin stores its port, pin, switch-matrix function, mode, open-drain, direction and initial value, and is not initialised |
| AlxIoPinLpc84x.IoPin.CheckIfSwmUsed | Mcu/McuLpc/McuLpc84x/alxIoPin_McuLpc84x.c:286-298 | the switch matrix is used exactly for functions 0..98, and the function is movable exactly for 0..59; for a plain GPIO the movable flag is left alone |
| AlxIoPinLpc84x.IoPin.SetIoconMode | Mcu/McuLpc/McuLpc84x/alxIoPin_McuLpc84x.c:422-449 | only the pin's own IOCON word changes, and it then holds the configured pull mode |
| AlxIoPinLpc84x.IoPin.Write | Mcu/McuLpc/McuLpc84x/alxIoPin_McuLpc84x.c:167-175 | writing sets the pin's output level and no other pin's |
| AlxIoPinLpc84x.IoPin.Read | Mcu/McuLpc/McuLpc84x/alxIoPin_McuLpc84x.c:159-166 | reading returns the pin's current level |
| AlxIoPinLpc84x.IoPin.Set | Mcu/McuLpc/McuLpc84x/alxIoPin_McuLpc84x.c:176-182 | setting drives the pin high and no other pin changes |
| AlxIoPinLpc84x.IoPin.Reset | Mcu/McuLpc/McuLpc84x/alxIoPin_McuLpc84x.c:183-189 | resetting drives the pin low and no other pin changes |
| AlxIoPinLpc84x.IoPin.Toggle | Mcu/McuLpc/McuLpc84x/alxIoPin_McuLpc84x.c:190-196 | toggling inverts the pin's level and no other pin changes |
| AlxIoPinLpc84x.IoPin.SelectFunction | Mcu/McuLpc/McuLpc84x/alxIoPin_McuLpc84x.c:84-111 | a movable function is routed to this pin's switch-matrix index, a fixed function is enabled, and a plain GPIO gets its direction bit; nothing else in the switch matrix or the direction registers changes |
| AlxIoPinLpc84x.IoPin.Init | Mcu/McuLpc/McuLpc84x/alxIoPin_McuLpc84x.c:55-116 | after Init the pin is initialised, its IOCON word holds the mode and open-drain setting with nothing else changed, its function is selected as above, and its output holds the initial value |
| AlxIoPinLpc84x.IoPin.ReleaseFunction | Mcu/McuLpc/McuLpc84x/alxIoPin_McuLpc84x.c:131-153 | a movable function is returned to the reset pin, a fixed function is disabled, and a plain GPIO's direction bit is cleared, with nothing else changed |
| AlxIoPinLpc84x.IoPin.DeInit | Mcu/McuLpc/McuLpc84x/alxIoPin_McuLpc84x.c:118-157 | after DeInit the pin is not initialised, its IOCON word is inactive and not open-drain with nothing else changed, and its function is released as above |
| AlxTpl.UpperIsUpper | alxTpl.py:40-50 | str.upper keeps the length, leaves no lower-case letter and is idempotent |
| AlxTpl.UpperOfLower | alxTpl.py:40-50 | upper-casing a lower-cased string is the same as upper-casing the original |
| AlxTpl.CapitalizeShape | alxTpl.py:40-50 | str.capitalize keeps the length, makes the first character not lower-case and every later character not upper-case |
| AlxTpl.UpperOfCapitalize | alxTpl.py:40-50 | upper-casing a capitalized string is the same as upper-casing the original |
| AlxTpl.Filled | alxTpl.py:52-66 | the names used are the longest prefix of non-empty names, stopping at the first empty one |
| AlxTpl.Unfold | alxTpl.py:52-66 | joining one more leading name adds its upper-cased form and an underscore to the guard stem and its capitalized form to the type name |
| AlxTpl.JoinOne | alxTpl.py:53-55 | with one name the stems are that name upper-cased and capitalized |
| AlxTpl.JoinTwo | alxTpl.py:56-58 | with two names the guard stem joins them upper-cased with an underscore and the type name concatenates them capitalized |
| AlxTpl.JoinThree | alxTpl.py:59-61 | with three names, likewise with underscores between all three |
| AlxTpl.JoinFour | alxTpl.py:62-64 | with four names, likewise with underscores between all four |
| AlxTpl.FilledOfFour | alxTpl.py:52-66 | for each of the five shapes of four names, the names used are exactly the non-empty leading ones |
| AlxTpl.ComposeNamesDefined | alxTpl.py:52-66 | the name stems are defined exactly when the non-empty names form a prefix with at least one name; otherwise the script raises |
| AlxTpl.ComposeNamesSpec | alxTpl.py:52-66 | when defined, the stems are the upper-case join with underscores and the capitalized concatenation of the names used, matching each of the four source branches |
| AlxTpl.JoinUpperIsUpper | alxTpl.py:52-64 | the guard stem contains no lower-case letter |
| AlxTpl.CreateFile | alxTpl.py:88-763 | each generated file is named prefixLow + nameCap + its extension, carries an include guard PREFIX_NAME_H or PREFIX_NAME_HPP exactly when it is a header, and uses the given brief and type name |
| AlxTpl.Templates | alxTpl.py:68-82 | "c" selects a header and a source template, "cpp" a single .hpp template, anything else none; the alx-specific templates are chosen exactly when the lower-cased prefix is "alx" |
| AlxTpl.ScriptSpec | alxTpl.py:37-82 | the script succeeds exactly for a valid name prefix and language "c" or "cpp", and then writes the .h and .c, or the .hpp, under the composed path with an upper-case guard, the brief and the alx or generic templates |
| AlxTpl.MainAsWrittenReadsPrefixAsLanguage | alxTpl.py:772-781 | as written, main passes its arguments shifted, so it can only succeed when the prefix argument is "c" or "cpp" |
| AlxTpl.MainShiftExample | alxTpl.py:772-781 | the command line c alx Led "" "LED driver" raises as written, while the intended call generates alxLed.h and alxLed.c |
| AlxTpl.MainSpec | alxTpl.py:772-781 | the intended main succeeds exactly with five arguments, a language of "c" or "cpp" and a non-empty first name, and each file gets the brief and the path lower(prefix) + capitalized names + extension |
| AlxCommon.Lo | Ext/alxMax17263.c:277-278 | the low byte of a 16-bit word is the word masked with 0xFF |
| AlxCommon.Hi | Ext/alxMax17263.c:279 | the high byte of a 16-bit word is the word shifted right by 8 |
| AlxCommon.Word | Ext/alxMax17263.c:301-302 | the word assembled from a high and a low byte has exactly those bytes |
| AlxCommon.WordOfBytes | Ext/alxMax17263.c:277-302 | splitting a word into bytes and reassembling gives the word back |
| AlxCommon.FlattenSnoc | alxSd.c:846-884 | appending one more block to a multi-block transfer appends its bytes to the data read so far |
| AlxCommon.Tried | Ext/alxAds114s08.c:720-744 | a sequence of steps that stops at the first failure attempts at most the planned number |
| AlxCommon.OutcomeOfSteps | Ext/alxAds114s08.c:720-744 | such a sequence succeeds exactly when every step succeeds, and then attempts them all; otherwise the last step attempted is the failure returned, after only successes |
| AlxCommon.SkipOkSteps | Ext/alxAds114s08.c:720-744 | a run of successful leading steps can be skipped without changing the outcome |
| AlxCommon.StopsAt | Ext/alxAds114s08.c:720-744 | the first failing step ends the sequence with its status |
| AlxCommon.AllSucceed | Ext/alxAds114s08.c:720-744 | when every step succeeds the sequence succeeds after attempting all of them |
| AlxCommon.LowByteOfMask | Ext/alxPcal6416a.c:244-304 | truncating 1 << pin to a byte gives the pin's mask for pins 0..7 and zero for any higher pin |
| AlxCommon.ApplyPinOp | Ext/alxPcal6416a.c:244-304 | setting, resetting, writing or toggling one pin changes only that pin's bit, to the value the operation names |
| AlxCommon.OwnBit | Ext/alxPca9539a.c:400-512 | the or, and-not and xor of the pin mask set, clear and invert the pin's own bit |
| AlxCommon.OtherBitKept | Ext/alxPca9539a.c:400-512 | the pin-mask operations keep every other bit |
| AlxCommon.EmptyMaskIsNoop | Ext/alxPcal6416a.c:244-304 | an operation with an empty mask leaves the register unchanged |
| AlxCommon.ToggleTwice | Ext/alxPcal6416a.c:298-304 | toggling a pin twice restores the register |
| AlxCommon.WriteIsSetOrReset | Ext/alxPcal6416a.c:240-304 | writing true is setting the pin and writing false is resetting it |

## Left out

- Bus, flash and HAL transfers are abstract oracles:
  - This covers I2C, SPI, UART, the serial port, FLASH_Program/Erase and the FatFs/littlefs calls.
  - Each transfer's status and received bytes are parameters indexed by the transfer's position.
  - The bytes on the wire are recorded in a log.
- Delays, software timers, RTOS mutexes and clocks are omitted:
  - This includes the mutex around `AlxFs_File_ReadInChunks` and the SWM/IOCON clock gating.
  - None of them changes a result.
- Floating-point results are not modelled bit for bit:
  - Where a driver scales a code into volts, amps, g or °C, the scaling is exact `real` arithmetic on the integer code.
  - The CAN float/double packers, the float/double parameter items and `AlxPwm_SetDuty_pct` are not part of this model.
  - The float rounding of the ADS114S08 range limits is not modelled.
- The int8 CAN setters/getters and int8 parameter items are not modelled separately. On bit patterns they coincide with the uint8 ones.
- `ALX_LIN_BUFF_LEN` is a parameter. alxLin.h is not part of this model.
- Helpers whose source is not part of this model have assumed contracts:
  - `AlxRange_Check*` returns Ok exactly for values in range and names the violated bound otherwise.
  - `AlxBound_*` clamps into the range.
  - `AlxIoPin_Read_TriState` yields one of three states per pin.
- The FIFO-backed multi-message readers are not part of this model because AlxFifo is not. These are `AlxAdxl355_GetXyzMulti_g` and the CAN Tx/RxMulti functions.
- Alx CLI, alxCrn120.c and the duplicate alxAds114S08.c stub are not modelled. They are outside the core.
- ADAU1961:
  - `Init`/`DeInit`, the clock register sequence and the other register setters are not modelled.
  - Only the gain setters and their code calculations are.
- PCA9431/PCA9430:
  - A failed register read leaves the shadow byte as it was. The real driver passes the shadow buffer to the I2C layer, which may have partly filled it.
  - `AlxPca9430.Pca9430.DeInit`: the C function has no `return` statement. The model returns the evidently intended Ok.
  - `VTune_SetVoltage_V` is a TODO in the source, which always fails. It is modelled as such.
  - The NTC ADC registers are not read by any modelled function.
- ADS114S08:
  - `GetInternalTemp_degC`, `GetDevId` and `GetPgaShorted` are not modelled.
  - Neither are the GPIO/delay sequences of `Init`/`DeInit`.
  - The nDRDY wait is a `ready` flag.
- MAX17263:
  - `initialize_ez_config` and the short/full INI procedures are not modelled. That includes the missing `return` in `initialize_ez_config`.
  - `get_data`, the learned-parameter save/restore, `Handle` and `DeInit` are not modelled either.
  - `write_and_verify_reg` ignores the bus status of its transfers, as the source does.
- `AlxMax17263.Max17263.constructor`: the register image is the global `max1726x_regs[256]` (Ext/alxMax17263.c:40), shared by every instance. `AlxMax17263_Ctor` does not clear it; it is zero only through static initialisation at program start. The model gives each driver its own image and assumes one instance constructed before any other use, so the constructor's all-zero image holds only for that first instance.
- A352: `Configure`, `GetFwVersion`, `GetSerialNum`, `GetTempData`, `Init` and the float scaling factors are not modelled.
- ADXL355:
  - `Init`, `DeInit`, `Foreground_Handle`, `TraceId` and the FIFO contents are not modelled.
  - The XYZ decode and the register-level operations are.
- ADS8678:
  - `Init`, `DeInit` and `InitPeriph` are not modelled.
  - A range code outside the listed ones leaves scale and offset zero, as the zero-initialised variables do after the failed assertion.
- PCAL6416A: `Init`, `Handle` and `InitPeriph` are not modelled.
- PCA9539A: a failed input-port read in `Handle` leaves that input shadow as it was. The real driver passes the shadow byte to the I2C layer, which may have partly filled it.
- LPC84x I/O pin:
  - The SDK calls are array updates of IOCON, the GPIO direction and level banks, and the switch-matrix selection.
  - The mapping from `AlxIoPin_SwmFunc` to the SDK's movable and fixed function enums (`GetSwmMoveFunc`/`GetSwmMFixFunc`) is modelled as indexing by the function number.
  - The constructor's body is not part of this model. Only its declaration is.
  - `Lock`, `IrqHandler` and the `Config_*` stubs do nothing and are not modelled.
  - External input levels are the level array.
- `AlxIoPinLpc84x.IoPin.Init`: requires the pin to have an IOCON entry. The C code would index IOCON with 0xFF for any other pin.
- `AlxIoPinLpc84x.IoPin.DeInit`: requires the pin to have an IOCON entry, for the same reason.
- Template script:
  - The template text and the file writes are not modelled. Only each file's path, guard, brief and type name are.
  - `str.upper`, `str.lower` and `str.capitalize` are modelled on ASCII letters only.
  - The bare `raise` and the `IndexError` of a short argument list both become the `Raised` outcome.
- Flash map:
  - Only the STM32F4 erase branch is modelled.
  - Alignment and erased value are the constants of that build.
  - `flash_area_id_to_multi_image_slot` is a TODO in the source that returns -1 after a failing debug assertion. `AlxFlashMap.IdToMultiImageSlot` models that result.
  - `get_sectors`' device check always passes, because every area lies on the one flash device.
- `AlxFlashMap.GetSectors`: requires an area ID that the flash map knows. For an unknown ID the C code dereferences the NULL lookup result (flash_map_backend.c:300-301); the model does not describe that call.
- PWM:
  - The I/O pin remap is folded into the HAL init status.
  - Only the per-mille build (`ALX_PWM_OPTIMIZE_SIZE`) of `SetDuty` is modelled.
- SD: `ExecuteCmd9`/`ExecuteCmd10` are stubs in the source that send nothing and return Ok. They are modelled as such.
- `AlxParamItem.ParamItem.SetValToDef`: for arrays the evidently intended branch copies the default's pointer, so the item then aliases the default buffer. The model copies the contents, which is what the string branch does and what a reader of the value sees. Later writes through the aliased buffer are not modelled.
- File system:
  - `Remove`, `Rename`, `Close`, `Write`, `Sync`, `Seek`, `Tell`, `Rewind`, `Size`, `Truncate` and the `Dir*` functions are not modelled.
  - Neither are the lfs/FatFs block-device callbacks.
  - Mount and format results come from the library as parameters.

## Findings

| source | as written | input that shows it | evidently intended | confidence | as-written member | corrected member |
|---|---|---|---|---|---|---|
| mcuboot/flash_map_backend/flash_map_backend.c:155-160 | `off + len > fa_size` is computed in uint32 and wraps | off = 0xFFFFFFFF, len = 1 on a 0x20000-byte area passes the check and addresses fa_off − 1 | reject every access past the end of the area | high (not executed) | AlxFlashMap.InBoundsAsWrittenWraps | AlxFlashMap.InBoundsAddresses |
| Mcu/McuStm32/alxPwm_McuStm32.c:350-351 | `duty * (period + 1)` is a uint32 product that wraps for 32-bit timer periods | duty 1000 with period 0xFFFFFFFF gives compare 0 instead of 0xFFFFFFFF | compare value min(duty·(period+1)/1000, periodMax) | medium (not executed) | AlxPwm.PulseAsWrittenWraps | AlxPwm.PulseProperties |
| Mcu/McuStm32/alxPwm_McuStm32.c:167 | the per-mille build's constructor assigns `dutyDefaultArr_permil[i]` to itself, so the driver's own `dutyDefault_permil` that Init uses at :230 is never written | a zeroed driver constructed with default 500 per mille on channel 1 starts that channel at compare 0 | copy the caller's defaults into `dutyDefault_permil` | high (not executed) | AlxPwm.StaleDefaultsExample | AlxPwm.Pwm.constructor |
| Ext/alxPcal6416a.c:226-230, 271 | port-1 pins use mask `1U << pin` with pin 8..15, which has no bit inside the byte | `Set` of pin 8 on zero outputs leaves OutputPort_1 at 0 instead of 1 | use bit pin − 8 of port 1 | high (not executed) | AlxPcal6416a.Port1SetCounterexample | AlxPcal6416a.Pcal6416a.IoPinSet |
| alxCanParser.c:183-192 | little-endian `SetUint64` stores the bytes for shifts 24..56 all into `data[3]` | value 0x0102030405060708 on an all-zero payload reads back as 0x01060708 | bytes 3..7 at `data[off+3..off+8)` | high (not executed) | AlxCanParser.SetUint64LittleLosesHighBytes | AlxCanParser.Uint64RoundTrip |
| alxParamItem.c:495-497 | the Arr and Str branches of `SetValToDef` test `Uint16` again | any Arr or Str item reaches the failing assertion and keeps its value | copy the default for arrays and strings | high (not executed) | AlxParamItem.ToDefArrStrUnreachable | AlxParamItem.ParamItem.SetValToDef |
| alxParamItem.c:399-414 | `CtorStr` checks `strlen` of the default buffer before copying into it | empty default buffer, default "abc", strMaxLen 2 passes the check | check the length of the default string itself | medium (not executed) | AlxParamItem.CtorStrGuardAdmitsOverlong | AlxParamItem.ParamItem.CtorStr |
| Ext/alxAds114s08.c:600-623 | the RREG guard admits len 2, but the transfer of len + 2 bytes uses 3-byte buffers | len = 2 transfers 4 bytes | admit only len 1 | medium (not executed) | AlxAds114s08.RregGuardAdmitsOverrun | AlxAds114s08.RregGuardFits |
| Ext/alxPca9431.c:253-319 | `TempSens_GetTemp_degC` has no `return` after its switch for a valid code; the same holds in Ext/alxPca9430.c:227-288 | TDIE code 10 (0 °C) returns an undefined status | return Ok after a table hit | high (not executed) | AlxPca943x.TempStatusUndefinedForValidCode | AlxPca943x.TempStatus |
| alxTpl.py:772-781 | `__main__` passes (cVsCpp, prefix, name1, name2, brief) into parameters (brief, cVsCpp, prefix, name1, name2) | `alxTpl.py c alx Led "" "LED driver"` raises | pass brief first, then the language, prefix and names | high (not executed) | AlxTpl.MainShiftExample | AlxTpl.MainSpec |
| alxSd.c:140 | the try counter is a uint8_t compared with `<= numOfTries` | numOfTries = 255 with every try failing never ends | at most numOfTries tries | medium (not executed) | AlxSd.TriesAsWrittenNeverEndAt255 | AlxSd.Sd.Init |
| alxSd.c:215 | the DeInit try counter is the same uint8_t loop | initDeInitNumOfTries = 255 with every try failing never ends | at most initDeInitNumOfTries tries | medium (not executed) | AlxSd.TriesAsWrittenNeverEndAt255 | AlxSd.Sd.DeInit |
| alxSd.c:267 | the ReadBlock try counter is the same uint8_t loop | numOfTries = 255 with every try failing never ends | at most numOfTries tries | medium (not executed) | AlxSd.TriesAsWrittenNeverEndAt255 | AlxSd.Sd.ReadBlock |
| alxSd.c:313 | the WriteBlock try counter is the same uint8_t loop | numOfTries = 255 with every try failing never ends | at most numOfTries tries | medium (not executed) | AlxSd.TriesAsWrittenNeverEndAt255 | AlxSd.Sd.WriteBlock |
