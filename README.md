# MT9D113 camera sensor driver and Tegra CSI field encoders, in Dafny

This project models two pieces of a Tegra 2 Android kernel.

1. **The MT9D113 YUV sensor driver** (`drivers/media/video/tegra/mt9d113.c`).
   The driver programs the sensor over I2C by walking register tables.
   - A table is a list of `(addr, val)` pairs. Address 0 (`SENSOR_WAIT_MS`) means "sleep `val` ms". Address 1 (`SENSOR_TABLE_END`) ends the table.
   - Each other entry becomes one register write: the four bytes address-high, address-low, value-high, value-low. A failed transfer is retried up to `SENSOR_MAX_RETRIES` (3) more times, with an 8 ms pause after each failure.
   - A register read sends the two address bytes, reads two bytes back and swaps them.
   - `sensor_set_mode` maps a resolution to one of four tables. It resets the sensor unless the table is 1600x1200, reads status register 0x0000 and writes the table. Depending on the width read back, it then writes the conformance-test workaround table, skips the second write (the 640x480 fast switch), or writes the table again. It records the mode in `info->mode`.
   - `sensor_ioctl` dispatches the mode ioctl, and maps colour-effect, white-balance and exposure bytes to short tables. `sensor_open`, `sensor_release` and `sensor_probe` do the power and mode bookkeeping.
2. **The CSI register field encoders** (`arch/arm/mach-tegra/include/mach/csi.h`). Every encoder macro has the form `(((x) & mask) << shift)`, and drivers OR several of them into one 32-bit register word.

The driver is modelled in three modules.

- **`Mt9d113Tables`** holds the data and the pure lookups:
  - register entries and sentinels, and the two short mode tables given in full;
  - the effect, white-balance and exposure tables, and the byte-to-table switches;
  - resolution-to-table selection.
- **`Mt9d113Spec`** defines what the driver does as pure functions of an abstract bus.
  - The bus is an `I2cClient` oracle. Transfer number *k* returns `transferResult(k)`, and if it is a read it delivers `readReply(k)`.
  - A run returns the value the C function returns, the trace of events (transfers with their results, pauses, reset and power callbacks) and the number of transfers used.
  - The functions are `ReadRegRun`, `WriteAttempts`/`WriteRegRun`, `TableRun`, `SetModeRun` (with `SetModeDecide`), `IoctlRun` and `ReleaseRun`.
  - The lemmas about them state the driver's promises. `Acked` is the list of frames the bus acknowledged, and `Requested` is the list of frames a table asks for.
- **`Mt9d113Driver`** has a class `Sensor` holding `struct sensor_info`:
  - `mode`, the client and the platform data;
  - the trace and the transfer count (`attempts`).
  Its methods use the C code's loops: the `do … while` retry loop and the table-walking `for` loop, with `continue` at wait entries and an early return at a failed write. Each method is proved to leave exactly the state the matching `Mt9d113Spec` function describes.

The CSI header is modelled in module **`Csi`**. A `Field(mask, shift)` stands for one macro: the constants `VIP_SF_GEN`, `PPA_PAD_FRAME` … `PAD_DRIV_UP_REF` in `csi.dfy` give the mask and shift of each macro at csi.h lines 23-146. `Encode` is the macro itself and `Decode` reads a field back. For each register, the model has its field list (layout), a record of its field values, and an encoder/decoder pair. The named values (output formats, MIPI CSI-2 data types, stream sources, PPA commands) are datatypes with their codes.

## Model

| member | source | states |
|---|---|---|
| Mt9d113Tables.FirstEnd | drivers/media/video/tegra/mt9d113.c:1594 | the entry where the table walk stops: at or after the start, an end marker, and no end marker before it |
| Mt9d113Tables.ModeIndex | drivers/media/video/tegra/mt9d113.c:1512-1517 | a mode's index in `mode_table` is 0..3; 0 exactly for 1600x1200 and 3 exactly for 640x480 |
| Mt9d113Tables.ModeIndexInjective | drivers/media/video/tegra/mt9d113.c:1505-1517 | distinct modes have distinct indices, so `info->mode` tells every mode apart, 1280x720 from 800x600 included |
| Mt9d113Tables.SelectTable | drivers/media/video/tegra/mt9d113.c:1615-1627 | each of 1600x1200, 1280x720 and 800x600 selects its own table exactly when requested; every other resolution, 640x480 included, selects the 640x480 table |
| Mt9d113Tables.SourceTablesTerminated | drivers/media/video/tegra/mt9d113.c:105-126 | the 1600x1200 table and the conformance-test workaround table end with the end marker, so only the large tables need that as a hypothesis |
| Mt9d113Tables.ModeTable | drivers/media/video/tegra/mt9d113.c:1512-1517 | `mode_table[m]` is a terminated table |
| Mt9d113Tables.ColorEffectTable | drivers/media/video/tegra/mt9d113.c:1702-1729 | a colour-effect byte selects a table exactly when it is 3..8 (mono, negative, none, posterize, sepia, solarize); the table is terminated; posterize selects the empty posterize table |
| Mt9d113Tables.WhitebalanceTable | drivers/media/video/tegra/mt9d113.c:1746-1765 | a white-balance byte selects a table exactly when it is auto (1), incandescent (2), fluorescent (3) or daylight (5); the table is terminated |
| Mt9d113Tables.ExposureTable | drivers/media/video/tegra/mt9d113.c:1784-1804 | an exposure byte selects a table exactly when it is 1..5; each exposure table has three entries and is terminated |
| Mt9d113Tables.ExposureLadder | drivers/media/video/tegra/mt9d113.c:1475-1503 | the exposure steps are ordered: a brighter step writes a strictly larger target value |
| Mt9d113Spec.BigEndianBytes | drivers/media/video/tegra/mt9d113.c:1533-1535 | a 16-bit word as two bytes, high byte first: the address bytes of a read, and each half of a write frame; no contract of its own, `BigEndianBytesDecode` states its decoding |
| Mt9d113Spec.BigEndianBytesDecode | drivers/media/video/tegra/mt9d113.c:1533-1535 | the two bytes decode back to the word: the address bytes of a read name the register read |
| Mt9d113Spec.WriteFrame | drivers/media/video/tegra/mt9d113.c:1564-1567 | the four bytes of a write are address then value, each high byte first, and decode back to both |
| Mt9d113Spec.WriteFrameInjective | drivers/media/video/tegra/mt9d113.c:1564-1567 | two register writes put the same bytes on the bus only if they have the same address and value |
| Mt9d113Spec.HostLoad16 | drivers/media/video/tegra/mt9d113.c:1548-1549 | the `memcpy` of two bytes into a `u16` on a little-endian host: the first byte is the low byte; no contract of its own, `ReadValueBytes` states its effect |
| Mt9d113Spec.ReadValue | drivers/media/video/tegra/mt9d113.c:1547-1549 | the value `sensor_read_reg` stores: the two received bytes swapped, then loaded by `HostLoad16`; no contract of its own, `ReadValueBytes` states its effect |
| Mt9d113Spec.ReadValueBytes | drivers/media/video/tegra/mt9d113.c:1547-1549 | on a little-endian host the swap and copy yield the big-endian word the sensor sent: written back high byte first, the value is exactly the two bytes received |
| Mt9d113Spec.ReadRegRun | drivers/media/video/tegra/mt9d113.c:1519-1552 | reference definition of `sensor_read_reg` on the bus oracle: result, value left in the buffer, events and transfers used; its properties are stated by `ReadRegOutcome` |
| Mt9d113Spec.ReadRegOutcome | drivers/media/video/tegra/mt9d113.c:1519-1552 | without an adapter: -ENODEV and no transfer. Otherwise: one transfer of the two address bytes and a two-byte read; success exactly when it reports 2 messages; any other count gives -EINVAL and leaves the buffer alone; nothing acknowledged as a write |
| Mt9d113Spec.WriteAttempts | drivers/media/video/tegra/mt9d113.c:1573-1584 | reference definition of the `do … while` retry loop from a given retry count: an attempt, and after a failure an 8 ms pause and the next attempt while the count allows; its properties are stated by `WriteAttemptsOutcome`, `WriteAttemptsAcked`, `WriteAttemptsFailure` and `WriteAttemptsOnlyFrame` |
| Mt9d113Spec.RetryLoop | drivers/media/video/tegra/mt9d113.c:1573-1584 | the same loop written with the state the driver's loop carries (retry count, transfer index, trace so far); it serves as that loop's invariant, and `RetryLoopAttempts` proves it agrees with `WriteAttempts` |
| Mt9d113Spec.WriteAttemptsOutcome | drivers/media/video/tegra/mt9d113.c:1573-1584 | the retry loop makes 1 to 4 attempts, every one but the last failed; a successful last attempt returns 0; otherwise all 4 were made and the last one's result is returned |
| Mt9d113Spec.WriteAttemptsAcked | drivers/media/video/tegra/mt9d113.c:1573-1584 | the bus acknowledged the frame once if the last attempt succeeded and not at all otherwise |
| Mt9d113Spec.WriteAttemptsFailure | drivers/media/video/tegra/mt9d113.c:1573-1584 | a loop whose last attempt failed ends with that attempt and the 8 ms pause after it |
| Mt9d113Spec.WriteAttemptsOnlyFrame | drivers/media/video/tegra/mt9d113.c:1568-1582 | every event of the loop is a single-message write of the same frame or a retry pause |
| Mt9d113Spec.RetryLoopAttempts | drivers/media/video/tegra/mt9d113.c:1573-1584 | the loop resumed at any turn, with the trace so far, appends exactly the events of the remaining attempts and returns their result |
| Mt9d113Spec.WriteRegRun | drivers/media/video/tegra/mt9d113.c:1554-1585 | reference definition of `sensor_write_reg`: -ENODEV without an adapter, else the retry loop on the write frame; its properties are stated by `WriteRegRetries`, `WriteRegAcked` and `WriteRegFailed` |
| Mt9d113Spec.WriteRegRetries | drivers/media/video/tegra/mt9d113.c:1554-1585 | at most SENSOR_MAX_RETRIES+1 transfers; no adapter gives -ENODEV with no transfer; if any of the four attempts would succeed, 0 with the frame acknowledged once; if none does, all four are made and the fourth's result is returned with nothing acknowledged |
| Mt9d113Spec.WriteRegAcked | drivers/media/video/tegra/mt9d113.c:1573-1577 | on a bus that never reports zero messages, a write returning 0 was acknowledged exactly once |
| Mt9d113Spec.WriteRegFailed | drivers/media/video/tegra/mt9d113.c:1578-1584 | on such a bus, a failing write acknowledged nothing and its trace ends with the failed attempt returning that error |
| Mt9d113Spec.TableRun | drivers/media/video/tegra/mt9d113.c:1587-1607 | reference definition of `sensor_write_table` from entry i: a wait entry sleeps, the end entry stops, any other entry is one register write, and the first failing write ends the walk with its error; its properties are stated by the `TableRun*` lemmas and `WaitValueOnlyDelays` |
| Mt9d113Spec.Requested | drivers/media/video/tegra/mt9d113.c:1594-1601 | the independent reference for a table walk: the write frames a table asks for, in order, up to its end marker; `TableRunSuccess` and `TableRunFailure` tie `TableRun` to it |
| Mt9d113Spec.RequestedAvoidsSentinels | drivers/media/video/tegra/mt9d113.c:1594-1600 | no frame a table requests addresses SENSOR_WAIT_MS or SENSOR_TABLE_END: sentinel entries never become bus writes |
| Mt9d113Spec.TableRunOnlyReadsToEnd | drivers/media/video/tegra/mt9d113.c:1594-1606 | two tables that agree up to the first end marker behave identically (result, trace, transfers, requested frames): entries after the terminator are never looked at |
| Mt9d113Spec.TableRunTransfers | drivers/media/video/tegra/mt9d113.c:1587-1607 | every event of a table walk is a pause or a single-message write of a frame the table requests; no callback fires |
| Mt9d113Spec.TableRunWithoutAdapter | drivers/media/video/tegra/mt9d113.c:1594-1604 | without an adapter nothing reaches the bus; the result is -ENODEV if the table requests any write and 0 for a table of waits only |
| Mt9d113Spec.TableRunSuccess | drivers/media/video/tegra/mt9d113.c:1594-1606 | on a bus that never reports zero messages, a walk returning 0 had the bus acknowledge exactly the requested frames, in table order |
| Mt9d113Spec.TableRunFailure | drivers/media/video/tegra/mt9d113.c:1600-1603 | on such a bus, a failed walk stops at some k-th requested write: exactly the k frames before it were acknowledged, the trace ends with that write's last failed attempt, and its error is returned |
| Mt9d113Spec.WaitValueOnlyDelays | drivers/media/video/tegra/mt9d113.c:1595-1598 | changing the value of a wait entry changes neither the result, the transfer count nor any bus event: it is only a delay |
| Mt9d113Spec.ResetEvents | drivers/media/video/tegra/mt9d113.c:1628-1631 | the reset callback, when the table is not 1600x1200 and the board has the callback; `SetModeResetIff` states when it appears in a switch |
| Mt9d113Spec.ReadBack | drivers/media/video/tegra/mt9d113.c:1633 | the read of register 0x0000, whose result is ignored; on failure the local keeps `stale` |
| Mt9d113Spec.FirstWrite | drivers/media/video/tegra/mt9d113.c:1635 | the first write of the chosen table, after the read-back |
| Mt9d113Spec.SetModeRun | drivers/media/video/tegra/mt9d113.c:1609-1672 | reference definition of `sensor_set_mode`: result, events, transfers used and new `info->mode`; its properties are stated by `SetModeDecision`, `SetModeResetIff`, `SetModeRecordsMode` and `SetModeFrames` |
| Mt9d113Spec.SetModeFinish | drivers/media/video/tegra/mt9d113.c:1636-1671 | the switch once the read-back and the first write are known: those events, then what `SetModeDecide` does |
| Mt9d113Spec.SetModeDecide | drivers/media/video/tegra/mt9d113.c:1636-1671 | what `sensor_set_mode` does after the first write: power off, 20 ms and mode -1 on failure; else the workaround table, the fast switch or the second write, with the mode each records; `SetModeDecision` states the resulting table |
| Mt9d113Spec.SetModeDecision | drivers/media/video/tegra/mt9d113.c:1635-1671 | the decision table: a failed first write powers off, pauses 20 ms, sets mode -1 and returns its error; an unprogrammed read-back with 1600x1200 writes the workaround table and returns 0 with that mode, whatever the write returns; 0x280 with 640x480 skips the rewrite; otherwise the table is written again and success records the mode, failure keeps the old mode and returns the error |
| Mt9d113Spec.TableRunNoReset | drivers/media/video/tegra/mt9d113.c:1587-1607 | a table walk never resets the sensor |
| Mt9d113Spec.SetModeResetIff | drivers/media/video/tegra/mt9d113.c:1628-1631 | the reset callback runs, as the first event, exactly when the table is not 1600x1200 and the board has the callback |
| Mt9d113Spec.SetModeRecordsMode | drivers/media/video/tegra/mt9d113.c:1642-1670 | a successful switch records the selected table; a failure leaves -1 or the previous mode; the mode stays -1 or a mode index |
| Mt9d113Spec.SetModeFrames | drivers/media/video/tegra/mt9d113.c:1635-1671 | on a bus that never reports zero messages: a failed first write acknowledged a strict prefix of the table; a fast switch programs the table once, a rewrite twice; a failed rewrite programs the table once and stops strictly inside the second pass; the workaround programs the table and then at most the workaround table |
| Mt9d113Spec.OptionalTableRun | drivers/media/video/tegra/mt9d113.c:1702-1734 | the effect, white-balance and exposure arms: the selected table is written and its error returned, and a byte with no table does nothing and returns 0 |
| Mt9d113Spec.IoctlRun | drivers/media/video/tegra/mt9d113.c:1674-1815 | reference definition of `sensor_ioctl` for every command; its properties are stated by `IoctlWithoutEffect`, `IoctlKeepsMode` and `IoctlEffectFrames` |
| Mt9d113Spec.IoctlWithoutEffect | drivers/media/video/tegra/mt9d113.c:1674-1815 | an unknown command gives -EINVAL; GET_STATUS and SET_SCENE_MODE give 0; an argument that cannot be copied gives -EFAULT; an unlisted effect, white-balance or exposure byte gives 0; none of these touches the bus or the mode |
| Mt9d113Spec.IoctlKeepsMode | drivers/media/video/tegra/mt9d113.c:1694-1809 | only SET_MODE changes the mode; the posterize effect returns 0 with no bus traffic |
| Mt9d113Spec.IoctlEffectFrames | drivers/media/video/tegra/mt9d113.c:1694-1809 | on a bus that never reports zero messages, a listed effect, white-balance or exposure byte that returns 0 had the bus acknowledge exactly its table's writes |
| Mt9d113Spec.ExposureWrites | drivers/media/video/tegra/mt9d113.c:1475-1503 | an exposure step requests exactly two writes: variable 0xA24F to register 0x098C, then its target value to 0x0990 |
| Mt9d113Spec.ReleaseRun | drivers/media/video/tegra/mt9d113.c:1825-1834 | reference definition of `sensor_release`; its properties are stated by `ReleaseOutcome` |
| Mt9d113Spec.ReleaseOutcome | drivers/media/video/tegra/mt9d113.c:1825-1834 | release returns 0, leaves mode -1 and uses no transfer; it powers off exactly when a mode was recorded and the board has the callback; a second release does nothing |
| Mt9d113Driver.Sensor.Probe | drivers/media/video/tegra/mt9d113.c:1850-1876 | a probed sensor keeps the client and platform data, has mode -1, an empty trace and no transfers |
| Mt9d113Driver.Sensor.I2cTransfer | drivers/media/video/tegra/mt9d113.c:1574 | a transfer returns the bus oracle's next result, is appended to the trace and uses one transfer |
| Mt9d113Driver.Sensor.Pause | drivers/media/video/tegra/mt9d113.c:1581 | a sleep is appended to the trace and changes nothing else |
| Mt9d113Driver.Sensor.ReadReg | drivers/media/video/tegra/mt9d113.c:1519-1552 | the read leaves result, value, trace and transfer count as `ReadRegRun` says, the mode unchanged |
| Mt9d113Driver.Sensor.WriteReg | drivers/media/video/tegra/mt9d113.c:1554-1585 | the write leaves result, trace and transfer count as `WriteRegRun` says |
| Mt9d113Driver.Sensor.SendWithRetries | drivers/media/video/tegra/mt9d113.c:1573-1584 | the do-while loop leaves result, trace and transfer count as `WriteAttempts` says |
| Mt9d113Driver.Sensor.WriteTable | drivers/media/video/tegra/mt9d113.c:1587-1607 | the table loop leaves result, trace and transfer count as `TableRun` says |
| Mt9d113Driver.Sensor.StartSetMode | drivers/media/video/tegra/mt9d113.c:1628-1635 | the reset, the read of register 0x0000 and the first table write, as `ResetEvents`, `ReadBack` and `FirstWrite` say |
| Mt9d113Driver.Sensor.FinishSetMode | drivers/media/video/tegra/mt9d113.c:1636-1671 | the rest of the switch, mode included, as `SetModeDecide` says |
| Mt9d113Driver.Sensor.SetMode | drivers/media/video/tegra/mt9d113.c:1609-1672 | the whole switch leaves result, trace, transfer count and mode as `SetModeRun` says, and keeps the mode valid |
| Mt9d113Driver.Sensor.WriteSelected | drivers/media/video/tegra/mt9d113.c:1702-1734 | the selected table, if any, is written and its result returned; no table writes nothing and returns 0 |
| Mt9d113Driver.Sensor.Ioctl | drivers/media/video/tegra/mt9d113.c:1674-1815 | each command leaves result, trace, transfer count and mode as `IoctlRun` says |
| Mt9d113Driver.Sensor.Open | drivers/media/video/tegra/mt9d113.c:1817-1823 | open returns 0 and only runs the power-on callback, if there is one |
| Mt9d113Driver.Sensor.Release | drivers/media/video/tegra/mt9d113.c:1825-1834 | release leaves result, trace and mode as `ReleaseRun` says |
| Csi.Encode | arch/arm/mach-tegra/include/mach/csi.h:33-146 | the encoder macro `(((x) & mask) << shift)` for one `Field`; the `*EncodersInPlace` lemmas and `SingleFields` state its properties for every macro of the header |
| Csi.Decode | arch/arm/mach-tegra/include/mach/csi.h:33-146 | reading one field back out of a register word by shift and mask; the round-trip lemmas tie it to `Encode` |
| Csi.Bits | arch/arm/mach-tegra/include/mach/csi.h:33-146 | the bits a field occupies, its mask moved to its shift; the layout lemmas state them for each register |
| Csi.DisjointPairwise | arch/arm/mach-tegra/include/mach/csi.h:33-66 | a layout whose every field avoids the bits of all later fields has no two fields sharing a bit |
| Csi.PixelStreamControl0Layout | arch/arm/mach-tegra/include/mach/csi.h:33-66 | the twelve CONTROL0 fields are pairwise disjoint and together cover bits 28-29, 27, 24-25, 20-21, 16-19, 14-15, 8-13, 7, 6, 5, 4 and 0-2 (0x3b3ffff7) |
| Csi.PpaCommandLayout | arch/arm/mach-tegra/include/mach/csi.h:79-83 | the five PPA_COMMAND fields are pairwise disjoint and cover bits 12-15, 8-11, 4, 2 and 0-1 (0xff17) |
| Csi.PhyCilCommandLayout | arch/arm/mach-tegra/include/mach/csi.h:101-102 | the A and B CIL enables are disjoint and cover bits 16-17 and 0-1 |
| Csi.DsiMipiCalConfigLayout | arch/arm/mach-tegra/include/mach/csi.h:141-142 | HSPDOSD and HSPUOSD are disjoint and cover bits 16-20 and 8-12 |
| Csi.MipibiasPadConfigLayout | arch/arm/mach-tegra/include/mach/csi.h:145-146 | PAD_DRIV_DN_REF and PAD_DRIV_UP_REF are disjoint and cover bits 16-18 and 8-10 |
| Csi.Control0HighEncodersInPlace | arch/arm/mach-tegra/include/mach/csi.h:33-36 | for every x, PAD_FRAME, HEADER_EC_ENABLE, PAD_SHORT_LINE and EMBEDDED_DATA_OPTIONS stay inside their fields, read back as x & mask, and ignore bits of x above the mask |
| Csi.Control0MiddleEncodersInPlace | arch/arm/mach-tegra/include/mach/csi.h:37-62 | the same for OUTPUT_FORMAT_OPTIONS, VIRTUAL_CHANNEL_ID, DATA_TYPE and CRC_CHECK |
| Csi.Control0LowEncodersInPlace | arch/arm/mach-tegra/include/mach/csi.h:63-66 | the same for WORD_COUNT_SELECT, DATA_IDENTIFIER, PACKET_HEADER and STREAM_SOURCE |
| Csi.PpaCommandEncodersInPlace | arch/arm/mach-tegra/include/mach/csi.h:79-83 | the same for the five PPA_COMMAND encoders |
| Csi.PhyCilCommandEncodersInPlace | arch/arm/mach-tegra/include/mach/csi.h:101-102 | the same for the two CIL enable encoders |
| Csi.DsiMipiCalConfigEncodersInPlace | arch/arm/mach-tegra/include/mach/csi.h:141-142 | the same for HSPDOSD and HSPUOSD |
| Csi.MipibiasPadConfigEncodersInPlace | arch/arm/mach-tegra/include/mach/csi.h:145-146 | the same for PAD_DRIV_DN_REF and PAD_DRIV_UP_REF |
| Csi.SingleFields | arch/arm/mach-tegra/include/mach/csi.h:23-136 | VIP_SF_GEN occupies bit 7 only, TERMOSA and TERMOSB bits 0-4 only, and all three encode in place |
| Csi.EncodeControl0 | arch/arm/mach-tegra/include/mach/csi.h:32-66 | the OR of the twelve encoded fields sets no bit outside the CONTROL0 layout |
| Csi.DecodeControl0 | arch/arm/mach-tegra/include/mach/csi.h:32-66 | every field read out of a word fits its field |
| Csi.Control0RoundTrip | arch/arm/mach-tegra/include/mach/csi.h:32-66 | OR-composition loses nothing: field values that fit are read back exactly as written |
| Csi.Control0WordRoundTrip | arch/arm/mach-tegra/include/mach/csi.h:32-66 | re-encoding the fields read out of any word rebuilds exactly its bits inside the layout |
| Csi.EncodePpaCommand | arch/arm/mach-tegra/include/mach/csi.h:78-83 | the OR of the five encoded fields sets no bit outside the PPA_COMMAND layout |
| Csi.DecodePpaCommand | arch/arm/mach-tegra/include/mach/csi.h:78-83 | every field read out of a word fits its field |
| Csi.PpaCommandRoundTrip | arch/arm/mach-tegra/include/mach/csi.h:78-83 | field values that fit are read back exactly as written |
| Csi.PpaCommandWordRoundTrip | arch/arm/mach-tegra/include/mach/csi.h:78-83 | re-encoding the fields of any word rebuilds exactly its bits inside the layout |
| Csi.PhyCilCommandRoundTrip | arch/arm/mach-tegra/include/mach/csi.h:100-102 | both CIL enables read back as written when they fit |
| Csi.PhyCilCommandWordRoundTrip | arch/arm/mach-tegra/include/mach/csi.h:100-102 | re-encoding the two enables of any word rebuilds exactly its bits 16-17 and 0-1 |
| Csi.DsiMipiCalConfigRoundTrip | arch/arm/mach-tegra/include/mach/csi.h:140-142 | HSPDOSD and HSPUOSD read back as written when they fit |
| Csi.DsiMipiCalConfigWordRoundTrip | arch/arm/mach-tegra/include/mach/csi.h:140-142 | re-encoding the two fields of any word rebuilds exactly its bits 16-20 and 8-12 |
| Csi.MipibiasPadConfigRoundTrip | arch/arm/mach-tegra/include/mach/csi.h:144-146 | PAD_DRIV_DN_REF and PAD_DRIV_UP_REF read back as written when they fit |
| Csi.MipibiasPadConfigWordRoundTrip | arch/arm/mach-tegra/include/mach/csi.h:144-146 | re-encoding the two fields of any word rebuilds exactly its bits 16-18 and 8-10 |
| Csi.OutputFormatCode | arch/arm/mach-tegra/include/mach/csi.h:38-41 | each OUTPUT_FORMAT value is below 4 and fits the 4-bit OUTPUT_FORMAT_OPTIONS field |
| Csi.DataTypeCode | arch/arm/mach-tegra/include/mach/csi.h:44-61 | each DATA_TYPE value is 24..45 and fits the 6-bit DATA_TYPE field |
| Csi.StreamSourceCode | arch/arm/mach-tegra/include/mach/csi.h:67-70 | each STREAM_SOURCE value fits the 3-bit STREAM_SOURCE field |
| Csi.PpaControlCode | arch/arm/mach-tegra/include/mach/csi.h:84-86 | CSI_ENABLE, CSI_DISABLE and CSI_RST are non-zero and fit the 2-bit PPA ENABLE field |
| Csi.DataTypeOf | arch/arm/mach-tegra/include/mach/csi.h:44-61 | a code that names a data type names one whose code it is |
| Csi.DataTypeCodeInverse | arch/arm/mach-tegra/include/mach/csi.h:44-61 | every data type is recovered from its code |
| Csi.DataTypeCodeLossless | arch/arm/mach-tegra/include/mach/csi.h:43-61 | distinct data types have distinct codes, and each code survives the DATA_TYPE encoder and decoder |
| Csi.OtherCodesLossless | arch/arm/mach-tegra/include/mach/csi.h:37-86 | distinct output formats, stream sources and PPA controls have distinct codes, and each survives its field's encoder and decoder |

## Left out

- Real I2C, timing and logging. `i2c_transfer` is the `I2cClient` oracle, and `msleep`/`mdelay` become `Sleep` events. `pr_err`/`pr_info` are left out.
- The I2C slave address, the `I2C_M_RD` flag and the message buffers. A message is modelled by its bytes (write) or its length (read).
- `copy_from_user` is modelled as an argument that is present, or `None` when the copy faults (giving -EFAULT).
- The ioctl command numbers and `struct mt9d113_mode` come from `include/media/mt9d113.h`, which is not part of this model. Commands are a datatype, and every unknown number is `Unsupported`.
- The register values of the three large mode tables (1280x720, 800x600, 640x480) come from the sensor's data sheet. They are parameters, assumed terminated. The 1600x1200 table, the workaround table and all effect, white-balance and exposure tables are given in full.
- `sensor_set_mode` ignores the result of its read of register 0x0000 (mt9d113.c:1633). On a failed read the local `val` keeps whatever it held before. That value is the parameter `stale`.
- `sensor_read_reg`'s swap and `memcpy` assume a little-endian host (ARM Tegra). This is fixed in `HostLoad16`; a big-endian host is not modelled.
- Mt9d113Driver.Sensor.StartSetMode and Mt9d113Driver.Sensor.FinishSetMode split `sensor_set_mode` into two methods at the first table write. `SetMode` runs both halves in sequence.
- Mt9d113Spec.TableRunSuccess: proved only on a bus that never reports zero messages done (`NoZeroResults`), for the reason below.
- Mt9d113Spec.TableRunFailure: proved only on such a bus.
- Mt9d113Spec.SetModeFrames: proved only on such a bus.
- Mt9d113Spec.IoctlEffectFrames: proved only on such a bus.
- Mt9d113Spec.WriteRegAcked: proved only on such a bus.
- Mt9d113Spec.WriteRegFailed: proved only on such a bus.
- The reason: `sensor_write_reg` retries any result other than 1 and, after the fourth attempt, returns that attempt's result. If the fourth attempt reports 0 messages after three failures, the write returns 0 (success) although nothing was acknowledged. The "acknowledged exactly" statements need the hypothesis to exclude that case. The driver itself is modelled without it.
- `kzalloc`, `misc_register`, `i2c_set_clientdata`, `sensor_remove`, the module init/exit and the file-operation tables are left out. They are kernel plumbing; `Probe` models the state after the allocation and registration succeeded.
- The global `info` pointer shared by every open file is left out. One `Sensor` object stands for it, and concurrent callers are not modelled.
- The CSI register offsets are left out. Only the field encoders and their values are modelled. The header also gives offset 0x220 twice (csi.h:112 and 116).
- The `tegra_vi_csi_*` clock and register accessors (csi.h:148-152) are foreign hardware calls, not modelled.
- The CSI encoders are modelled as unsigned 32-bit words. The C macros apply to `int` arguments; for the masks and shifts of the header this gives the same bits.
